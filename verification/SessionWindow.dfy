/** The stored conversation window (`WindowedConversationSession`): complete recent
    user turns, kept up to date batch by batch. */
module SessionWindow {
  import opened ConversationItems
  import opened Options

  function UserCount(items: seq<Item>): (n: nat)
    ensures n <= |items|
  {
    if items == [] then 0
    else UserCount(items[..|items| - 1]) + if IsUser(items[|items| - 1]) then 1 else 0
  }

  /** Indices of the user items, in order. */
  function TurnStarts(items: seq<Item>): (starts: seq<nat>)
    ensures |starts| == UserCount(items)
    ensures forall s :: s in starts ==> s < |items|
  {
    if items == [] then []
    else
      var n := |items| - 1;
      TurnStarts(items[..n]) + if IsUser(items[n]) then [n] else []
  }

  /** The suffix from the `maxTurns`-th last user item on (`bounded_session_input`). */
  function Bounded(history: seq<Item>, added: seq<Item>, maxTurns: nat): seq<Item>
    requires maxTurns >= 1
  {
    var combined := history + added;
    var starts := TurnStarts(combined);
    if |starts| <= maxTurns then combined
    else
      var start := starts[|starts| - maxTurns];
      assert start in starts;
      combined[start..]
  }

  // -- the window, said without indices ---------------------------------------------------

  predicate IsSuffix(items: seq<Item>, w: seq<Item>) {
    |w| <= |items| && w == items[|items| - |w|..]
  }

  /** Everything, or exactly the last `maxTurns` whole turns. */
  predicate IsWindow(items: seq<Item>, w: seq<Item>, maxTurns: nat) {
    && IsSuffix(items, w)
    && if UserCount(items) <= maxTurns then w == items
       else UserCount(w) == maxTurns && w != [] && IsUser(w[0])
  }

  lemma {:induction false} UserCountConcat(a: seq<Item>, b: seq<Item>)
    ensures UserCount(a + b) == UserCount(a) + UserCount(b)
  {
    if b == [] {
      assert a + b == a;
    } else {
      assert (a + b)[..|a + b| - 1] == a + b[..|b| - 1];
      UserCountConcat(a, b[..|b| - 1]);
    }
  }

  lemma UserCountOne(item: Item)
    ensures UserCount([item]) == if IsUser(item) then 1 else 0
  {
    assert [item][..0] == [];
  }

  /** From the k-th turn on there are all turns but the first k. */
  lemma {:induction false} TurnStartSplits(items: seq<Item>, k: nat)
    requires k < UserCount(items)
    ensures TurnStarts(items)[k] < |items| && IsUser(items[TurnStarts(items)[k]])
    ensures UserCount(items[TurnStarts(items)[k]..]) == UserCount(items) - k
  {
    var n := |items| - 1;
    var before := TurnStarts(items[..n]);
    UserCountOne(items[n]);
    if k < |before| {
      var start := before[k];
      assert start in before;
      TurnStartSplits(items[..n], k);
      AppendOne(items, start);
    } else {
      assert items[n..] == [items[n]];
    }
  }

  lemma AppendOne(items: seq<Item>, start: nat)
    requires start < |items|
    ensures UserCount(items[start..]) == UserCount(items[..|items| - 1][start..]) + UserCount([items[|items| - 1]])
  {
    var n := |items| - 1;
    assert items[start..] == items[..n][start..] + [items[n]];
    UserCountConcat(items[..n][start..], [items[n]]);
  }

  lemma {:induction false} BoundedIsWindow(history: seq<Item>, added: seq<Item>, maxTurns: nat)
    requires maxTurns >= 1
    ensures IsWindow(history + added, Bounded(history, added, maxTurns), maxTurns)
  {
    var combined := history + added;
    if UserCount(combined) > maxTurns {
      TurnStartSplits(combined, UserCount(combined) - maxTurns);
    }
  }

  /** There is one window: a longer suffix that starts at a user item has more users. */
  lemma WindowIsUnique(items: seq<Item>, v: seq<Item>, w: seq<Item>, maxTurns: nat)
    requires IsWindow(items, v, maxTurns) && IsWindow(items, w, maxTurns)
    ensures v == w
  {
    if |v| > |w| {
      LongerHasMore(v, w);
    } else if |w| > |v| {
      LongerHasMore(w, v);
    }
  }

  lemma LongerHasMore(v: seq<Item>, w: seq<Item>)
    requires |w| < |v| && IsUser(v[0])
    requires IsSuffix(v, w)
    ensures UserCount(v) > UserCount(w)
  {
    var front := v[..|v| - |w|];
    assert v == front + w && front == [v[0]] + front[1..];
    UserCountConcat(front, w);
    UserCountConcat([v[0]], front[1..]);
    UserCountOne(v[0]);
  }

  // -- batches ---------------------------------------------------------------------------

  function Flatten(batches: seq<seq<Item>>): seq<Item> {
    if batches == [] then [] else Flatten(batches[..|batches| - 1]) + batches[|batches| - 1]
  }

  /** The stored items after a sequence of `add_items` batches. */
  function Stored(batches: seq<seq<Item>>, maxTurns: nat): seq<Item>
    requires maxTurns >= 1
  {
    if batches == [] then []
    else Bounded(Stored(batches[..|batches| - 1], maxTurns), batches[|batches| - 1], maxTurns)
  }

  /** The window of a window and new items is the window of everything. */
  lemma {:induction false} WindowOfWindow(all: seq<Item>, w: seq<Item>, added: seq<Item>, maxTurns: nat)
    requires maxTurns >= 1 && IsWindow(all, w, maxTurns)
    ensures IsWindow(all + added, Bounded(w, added, maxTurns), maxTurns)
  {
    var r := Bounded(w, added, maxTurns);
    BoundedIsWindow(w, added, maxTurns);
    UserCountConcat(w, added);
    UserCountConcat(all, added);
    assert r == (all + added)[|all + added| - |r|..];
  }

  /** Windowing batch by batch stores exactly what windowing the whole conversation
      once would store; once anything was dropped the window starts at a user turn. */
  lemma {:induction false} IncrementalEqualsOneShot(batches: seq<seq<Item>>, maxTurns: nat)
    requires maxTurns >= 1
    ensures Stored(batches, maxTurns) == Bounded([], Flatten(batches), maxTurns)
    ensures IsWindow(Flatten(batches), Stored(batches, maxTurns), maxTurns)
  {
    BoundedIsWindow([], Flatten(batches), maxTurns);
    assert [] + Flatten(batches) == Flatten(batches);
    if batches != [] {
      var n := |batches| - 1;
      IncrementalEqualsOneShot(batches[..n], maxTurns);
      WindowOfWindow(Flatten(batches[..n]), Stored(batches[..n], maxTurns), batches[n], maxTurns);
    }
    WindowIsUnique(Flatten(batches), Stored(batches, maxTurns), Bounded([], Flatten(batches), maxTurns), maxTurns);
  }

  function Front(items: seq<Item>): seq<Item>
    requires items != []
  {
    items[..|items| - 1]
  }

  lemma FrontCounts(items: seq<Item>)
    requires items != []
    ensures UserCount(items) == UserCount(Front(items)) + if IsUser(items[|items| - 1]) then 1 else 0
  {
  }

  lemma FrontOfSuffix(items: seq<Item>, w: seq<Item>)
    requires IsSuffix(items, w) && w != []
    ensures IsSuffix(Front(items), Front(w)) && w[|w| - 1] == items[|items| - 1]
  {
    assert Front(w) == Front(items)[|items| - |w|..];
  }

  lemma FrontOfWindowIff(h: seq<Item>, w: seq<Item>, v: seq<Item>, maxTurns: nat)
    requires h != [] && maxTurns >= 1 && IsWindow(h, w, maxTurns) && IsWindow(Front(h), v, maxTurns)
    ensures w != [] && (Front(w) == v <==> !IsUser(h[|h| - 1]) || UserCount(h) <= maxTurns)
  {
    FrontOfSuffix(h, w);
    FrontCounts(h);
    FrontCounts(w);
    if !IsUser(h[|h| - 1]) || UserCount(h) <= maxTurns {
      WindowIsUnique(Front(h), Front(w), v, maxTurns);
    }
  }

  /** Popping the last item of the window gives the window of the conversation without
      that item exactly when the item opens no turn, or no turn has been dropped: a turn
      dropped earlier does not come back. */
  lemma PopKeepsWindowIff(h: seq<Item>, maxTurns: nat)
    requires h != [] && maxTurns >= 1
    ensures var w := Bounded([], h, maxTurns);
            w != [] && (Front(w) == Bounded([], Front(h), maxTurns)
                        <==> !IsUser(h[|h| - 1]) || UserCount(h) <= maxTurns)
  {
    BoundedIsWindow([], h, maxTurns);
    BoundedIsWindow([], Front(h), maxTurns);
    assert [] + h == h && [] + Front(h) == Front(h);
    FrontOfWindowIff(h, Bounded([], h, maxTurns), Bounded([], Front(h), maxTurns), maxTurns);
  }

  /** So it is for what is stored after any batches. */
  lemma PopAfterBatchesIff(batches: seq<seq<Item>>, maxTurns: nat)
    requires maxTurns >= 1 && Flatten(batches) != []
    ensures var (h, stored) := (Flatten(batches), Stored(batches, maxTurns));
            stored != [] && (Front(stored) == Bounded([], Front(h), maxTurns)
                             <==> !IsUser(h[|h| - 1]) || UserCount(h) <= maxTurns)
  {
    IncrementalEqualsOneShot(batches, maxTurns);
    PopKeepsWindowIff(Flatten(batches), maxTurns);
  }

  // -- a limited read ------------------------------------------------------------------------

  /** The longest suffix of whole turns within `limit`, or else the last turn
      alone; a conversation without any user item is all or nothing. */
  ghost predicate IsLimited(items: seq<Item>, limit: nat, r: seq<Item>) {
    && IsSuffix(items, r)
    && (UserCount(items) == 0 ==> r == if |items| <= limit then items else [])
    && (UserCount(items) > 0 ==>
          && r != [] && IsUser(r[0])
          && (|r| <= limit || UserCount(r) == 1)
          && forall s :: 0 <= s < |items| - |r| && IsUser(items[s]) ==> |items| - s > limit)
  }

  class Session {
    const maxTurns: nat
    var items: seq<Item>
    var closed: bool

    ghost predicate Valid() reads this { maxTurns >= 1 }

    constructor (maxTurns: int)
      ensures Valid() && items == [] && !closed && this.maxTurns == if maxTurns < 1 then 1 else maxTurns
    {
      this.maxTurns := if maxTurns < 1 then 1 else maxTurns;
      items, closed := [], false;
    }

    /** Returns false where the source raises on a closed session. */
    method AddItems(added: seq<Item>) returns (ok: bool)
      requires Valid()
      modifies this`items
      ensures ok == (added == [] || !closed)
      ensures items == if ok && added != [] then Bounded(old(items), added, maxTurns) else old(items)
    {
      if added == [] {
        return true;
      }
      if closed {
        return false;
      }
      items := Bounded(items, added, maxTurns);
      return true;
    }

    /** The outer None is a closed session, which the source refuses. */
    method GetItems(limit: Option<int>) returns (r: Option<seq<Item>>)
      ensures r.None? <==> closed
      ensures !closed && limit.None? ==> r == Some(items)
      ensures !closed && limit.Some? && limit.value <= 0 ==> r == Some([])
      ensures !closed && limit.Some? && limit.value > 0 ==> IsLimited(items, limit.value, r.value)
    {
      if closed {
        return None;
      }
      if limit.None? {
        return Some(items);
      }
      if limit.value <= 0 {
        return Some([]);
      }
      var limited := Limited(limit.value);
      return Some(limited);
    }

    /** The last complete turns within `limit`, from the newest turn back. */
    method Limited(limit: int) returns (r: seq<Item>)
      ensures limit <= 0 ==> r == []
      ensures limit > 0 ==> IsLimited(items, limit, r)
    {
      if limit <= 0 {
        return [];
      }
      var starts := TurnStarts(items);
      if starts == [] {
        return if |items| <= limit then items else [];
      }
      StartsAreAllTurns(items);
      var k := |starts| - 1;
      while k > 0 && |items| - starts[k] < limit && |items| - starts[k - 1] <= limit
        invariant 0 <= k < |starts|
        invariant k == |starts| - 1 || |items| - starts[k] <= limit
      {
        k := k - 1;
      }
      TurnStartSplits(items, k);
      LimitedAt(items, starts, limit, k);
      r := items[starts[k]..];
    }

    /** None when there is nothing to pop or the session is closed. */
    method PopItem() returns (r: Option<Item>)
      modifies this`items
      ensures r.Some? <==> !closed && old(items) != []
      ensures if r.Some? then items == Front(old(items)) && r.value == old(items)[|old(items)| - 1]
              else items == old(items)
    {
      if closed || items == [] {
        return None;
      }
      r := Some(items[|items| - 1]);
      items := items[..|items| - 1];
    }
  }

  /** `starts` lists exactly the user items, in order. */
  ghost predicate ListsTurns(items: seq<Item>, starts: seq<nat>) {
    && (forall k :: 0 <= k < |starts| ==> starts[k] < |items| && IsUser(items[starts[k]]))
    && (forall j, k :: 0 <= j < k < |starts| ==> starts[j] < starts[k])
    && (forall s: nat :: s < |items| && IsUser(items[s]) ==> s in starts)
  }

  lemma LimitedAt(items: seq<Item>, starts: seq<nat>, limit: nat, k: nat)
    requires ListsTurns(items, starts) && k < |starts| == UserCount(items)
    requires UserCount(items[starts[k]..]) == |starts| - k
    requires k == |starts| - 1 || |items| - starts[k] <= limit
    requires k > 0 ==> |items| - starts[k] >= limit || |items| - starts[k - 1] > limit
    ensures IsLimited(items, limit, items[starts[k]..])
  {
    forall s: nat | s < starts[k] && IsUser(items[s]) ensures |items| - s > limit {
      var j :| 0 <= j < |starts| && starts[j] == s;
      assert j < k && (j < k - 1 ==> starts[j] < starts[k - 1]);
    }
  }

  lemma {:induction false} StartsAreAllTurns(items: seq<Item>)
    ensures ListsTurns(items, TurnStarts(items))
  {
    if items != [] {
      var n := |items| - 1;
      StartsAreAllTurns(items[..n]);
      forall s: nat | s < |items| && IsUser(items[s]) ensures s in TurnStarts(items) {
        if s < n {
          assert IsUser(items[..n][s]);
        }
      }
    }
  }
}
