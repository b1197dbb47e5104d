/** Where the verbatim tail of a compacted conversation starts
    (`ConversationCompactor._tail_start`).  The search walks backwards by size and
    then keeps moving back until it splits no tool call from its result and no
    reasoning item from the item it belongs to. */
module CompactionBoundary {
  import opened Options
  import opened ConversationItems

  // -- what a boundary is ------------------------------------------------------

  /** The position the call table holds for a call id: the last call wins. */
  function LastCall(items: seq<Item>, id: Option<string>): (p: Option<nat>)
    ensures p.Some? ==> p.value < |items| && items[p.value].kind == "function_call" && items[p.value].callId == id
    ensures forall q :: (if p.Some? then p.value else -1) < q < |items| && items[q].callId == id ==>
              items[q].kind != "function_call"
  {
    if items == [] then None
    else
      var n := |items| - 1;
      if items[n].kind == "function_call" && items[n].callId == id then Some(n) else LastCall(items[..n], id)
  }

  /** A tool result at `p`, at or after `k`, whose call lies before `k`. */
  ghost predicate Orphan(items: seq<Item>, k: nat, p: nat) {
    && k <= p < |items|
    && items[p].kind == "function_call_output"
    && LastCall(items, items[p].callId).Some?
    && LastCall(items, items[p].callId).value < k
  }

  ghost predicate KeepsPairs(items: seq<Item>, k: nat) {
    forall p: nat :: !Orphan(items, k, p)
  }

  predicate ReasoningBefore(items: seq<Item>, k: nat) {
    0 < k <= |items| && items[k - 1].kind == "reasoning"
  }

  ghost predicate IsBoundary(items: seq<Item>, first: nat, limit: nat, k: nat) {
    first < k < |items| && k <= limit && KeepsPairs(items, k) && !ReasoningBefore(items, k)
  }

  /** A boundary keeps pairs together: no tool result at or after it belongs to a call
      before it, where a result belongs to the last call that carries its call id. */
  lemma KeepsPairsIff(items: seq<Item>, k: nat)
    ensures KeepsPairs(items, k)
            <==> forall i: nat, j: nat :: i < k <= j < |items| && BelongTogether(items, i, j) ==> false
  {
    if i: nat, j: nat :| i < k <= j < |items| && BelongTogether(items, i, j) {
      LastCallIs(items, i);
      assert Orphan(items, k, j);
    }
    if p: nat :| Orphan(items, k, p) {
      assert BelongTogether(items, LastCall(items, items[p].callId).value, p);
    }
  }

  predicate BelongTogether(items: seq<Item>, i: nat, j: nat)
    requires i < |items| && j < |items|
  {
    && items[i].kind == "function_call" && items[j].kind == "function_call_output"
    && items[i].callId == items[j].callId
    && forall q :: i < q < |items| && items[q].kind == "function_call" ==> items[q].callId != items[i].callId
  }

  lemma {:induction false} LastCallIs(items: seq<Item>, i: nat)
    requires i < |items| && items[i].kind == "function_call"
    requires forall q :: i < q < |items| && items[q].kind == "function_call" ==> items[q].callId != items[i].callId
    ensures LastCall(items, items[i].callId) == Some(i)
  {
    if i < |items| - 1 {
      LastCallIs(items[..|items| - 1], i);
    }
  }

  // -- the size budget ---------------------------------------------------------

  /** Where the size walk stops when it stands at `i`. */
  function SizeWalk(items: seq<Item>, first: nat, i: nat, tailChars: nat, chars: Item -> nat): (b: nat)
    requires i <= |items|
    ensures b <= i
    decreases i
  {
    if i > first + 1 && (i == |items| || Chars(items[i - 1..], chars) <= tailChars)
    then SizeWalk(items, first, i - 1, tailChars, chars)
    else i
  }

  function BudgetIndex(items: seq<Item>, first: nat, tailChars: nat, chars: Item -> nat): nat {
    SizeWalk(items, first, |items|, tailChars, chars)
  }

  /** The budget index, said without the walk: the longest tail that leaves at
      least one older item and fits the budget, or the last item alone. */
  lemma {:induction false} BudgetIndexIsLongestTailThatFits(items: seq<Item>, first: nat, tailChars: nat,
                                                            chars: Item -> nat)
    requires first + 1 < |items|
    ensures var b := BudgetIndex(items, first, tailChars, chars);
            && first < b < |items|
            && (b == |items| - 1 || Chars(items[b..], chars) <= tailChars)
            && forall c: nat :: first < c < b ==> Chars(items[c..], chars) > tailChars
  {
    SizeWalkStops(items, first, |items| - 1, tailChars, chars);
  }

  lemma {:induction false} SizeWalkStops(items: seq<Item>, first: nat, i: nat, tailChars: nat, chars: Item -> nat)
    requires first < i < |items|
    requires i == |items| - 1 || Chars(items[i..], chars) <= tailChars
    ensures var b := SizeWalk(items, first, i, tailChars, chars);
            && first < b <= i
            && (b == |items| - 1 || Chars(items[b..], chars) <= tailChars)
            && forall c: nat :: first < c < b ==> Chars(items[c..], chars) > tailChars
    decreases i
  {
    if i > first + 1 {
      if Chars(items[i - 1..], chars) <= tailChars {
        SizeWalkStops(items, first, i - 1, tailChars, chars);
      } else {
        forall c: nat | first < c < i ensures Chars(items[c..], chars) > tailChars {
          CharsOfSuffix(items, c, i - 1, chars);
        }
      }
    }
  }

  // -- the search --------------------------------------------------------------

  /** The greatest boundary at or below `limit`, by looking at every index. */
  ghost function GreatestBoundary(items: seq<Item>, first: nat, limit: nat): (r: Option<nat>)
    ensures r.Some? ==> IsBoundary(items, first, limit, r.value)
    ensures forall k: nat :: IsBoundary(items, first, limit, k) ==> r.Some? && k <= r.value
    decreases limit
  {
    if limit <= first then None
    else if IsBoundary(items, first, limit, limit) then Some(limit)
    else
      assert forall k: nat :: IsBoundary(items, first, limit, k) ==> IsBoundary(items, first, limit - 1, k);
      GreatestBoundary(items, first, limit - 1)
  }

  ghost function TailBoundary(items: seq<Item>, first: nat, tailChars: nat, chars: Item -> nat): Option<nat> {
    GreatestBoundary(items, first, BudgetIndex(items, first, tailChars, chars))
  }

  /** A place to cut at, on the fields of the items: something is left on both sides, the
      item before it is no reasoning item, and no result after it has its call before it. */
  predicate GoodCut(items: seq<Item>, first: nat, k: nat) {
    && first < k < |items| && items[k - 1].kind != "reasoning"
    && forall i: nat, j: nat :: i < k <= j < |items| ==> !BelongTogether(items, i, j)
  }

  /** Where the tail starts: at the last good place to cut whose tail fits the budget, or
      before the last item alone; nowhere exactly when there is none. */
  lemma TailBoundaryIs(items: seq<Item>, first: nat, tailChars: nat, chars: Item -> nat)
    requires first + 1 < |items|
    ensures var r := TailBoundary(items, first, tailChars, chars);
            var limit := BudgetIndex(items, first, tailChars, chars);
            && (r.Some? ==> GoodCut(items, first, r.value) && r.value <= limit)
            && forall k: nat :: k <= limit && GoodCut(items, first, k) ==> r.Some? && k <= r.value
  {
    var limit := BudgetIndex(items, first, tailChars, chars);
    forall k: nat | k <= limit ensures IsBoundary(items, first, limit, k) <==> GoodCut(items, first, k) {
      KeepsPairsIff(items, k);
    }
  }

  /** The table of call positions, in one pass. */
  method CallPositions(items: seq<Item>) returns (calls: map<Option<string>, nat>)
    ensures forall id :: (if id in calls then Some(calls[id]) else None) == LastCall(items, id)
  {
    calls := map[];
    for i := 0 to |items|
      invariant forall id :: (if id in calls then Some(calls[id]) else None) == LastCall(items[..i], id)
    {
      assert items[..i + 1][..i] == items[..i];
      if items[i].kind == "function_call" {
        calls := calls[items[i].callId := i];
      }
    }
    assert items[..|items|] == items;
  }

  /** The first tool result at or after `index` whose call lies before it; the
      position of that call. */
  method SplitCall(items: seq<Item>, calls: map<Option<string>, nat>, index: nat) returns (call: Option<nat>)
    requires index <= |items|
    requires forall id :: (if id in calls then Some(calls[id]) else None) == LastCall(items, id)
    ensures call.None? ==> KeepsPairs(items, index)
    ensures call.Some? ==> call.value < index
    ensures call.Some? ==> forall k: nat :: call.value < k <= index ==> !KeepsPairs(items, k)
  {
    for p := index to |items|
      invariant forall q: nat :: index <= q < p ==> !Orphan(items, index, q)
    {
      if items[p].kind == "function_call_output" && items[p].callId in calls && calls[items[p].callId] < index {
        assert LastCall(items, items[p].callId) == Some(calls[items[p].callId]);
        forall k: nat | calls[items[p].callId] < k <= index ensures !KeepsPairs(items, k) {
          assert Orphan(items, k, p);
        }
        return Some(calls[items[p].callId]);
      }
    }
    return None;
  }

  method TailStart(items: seq<Item>, first: nat, tailChars: nat, chars: Item -> nat) returns (r: Option<nat>)
    ensures r == TailBoundary(items, first, tailChars, chars)
  {
    var budget: int := tailChars;
    var index: nat := |items|;
    while index > first + 1
      invariant index <= |items|
      invariant budget == tailChars - Chars(items[index..], chars)
      invariant SizeWalk(items, first, index, tailChars, chars) == BudgetIndex(items, first, tailChars, chars)
    {
      var size := chars(items[index - 1]);
      CharsOfDrop(items, index - 1, chars);
      if size > budget && index < |items| {
        break;
      }
      budget := budget - size;
      index := index - 1;
    }
    assert index == |items| ==> |items| <= first + 1 by {
      if first + 1 < |items| { BudgetIndexIsLongestTailThatFits(items, first, tailChars, chars); }
    }
    r := Settle(items, first, index);
  }

  /** Move a starting index back until it splits nothing. */
  method Settle(items: seq<Item>, first: nat, limit: nat) returns (r: Option<nat>)
    requires limit <= |items|
    requires limit == |items| ==> |items| <= first + 1
    ensures r == GreatestBoundary(items, first, limit)
  {
    var calls := CallPositions(items);
    var index: nat := limit;
    var moved := true;
    while moved
      invariant index <= limit
      invariant forall k: nat :: IsBoundary(items, first, limit, k) ==> k <= index
      invariant !moved ==> KeepsPairs(items, index) && (index <= first || !ReasoningBefore(items, index))
      decreases index, moved
    {
      moved := false;
      ghost var before := index;
      var call := SplitCall(items, calls, index);
      if call.Some? {
        index, moved := call.value, true;
      }
      while index > first && items[index - 1].kind == "reasoning"
        invariant index <= before
        invariant forall k: nat :: IsBoundary(items, first, limit, k) ==> k <= index
        invariant if moved then index < before else index == before && KeepsPairs(items, index)
      {
        index, moved := index - 1, true;
      }
    }
    if index <= first || index >= |items| {
      r := None;
    } else {
      assert IsBoundary(items, first, limit, index);
      r := Some(index);
    }
  }
}
