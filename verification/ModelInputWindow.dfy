/** The bounded model input (`bounded_model_input_items`): the latest user item and
    a recent suffix, closed under tool call / result pairs. */
module ModelInputWindow {
  import opened Options
  import opened ConversationItems

  // -- sizes of index sets -------------------------------------------------------------

  /** Total size of the items whose index is in `s`. */
  function SizeOf(items: seq<Item>, s: set<nat>, chars: Item -> nat): nat {
    if items == [] then 0
    else
      var n := |items| - 1;
      SizeOf(items[..n], s, chars) + if n in s then chars(items[n]) else 0
  }

  function One(item: Item): nat { 1 }

  /** How many indices of `items` are in `s`. */
  function CountOf(items: seq<Item>, s: set<nat>): nat {
    SizeOf(items, s, One)
  }

  lemma {:induction false} SizeOfUnion(items: seq<Item>, a: set<nat>, b: set<nat>, chars: Item -> nat)
    requires a !! b
    ensures SizeOf(items, a + b, chars) == SizeOf(items, a, chars) + SizeOf(items, b, chars)
  {
    if items != [] {
      SizeOfUnion(items[..|items| - 1], a, b, chars);
    }
  }

  lemma SizeOfSubset(items: seq<Item>, a: set<nat>, b: set<nat>, chars: Item -> nat)
    requires a <= b
    ensures SizeOf(items, a, chars) <= SizeOf(items, b, chars)
  {
    SizeOfUnion(items, a, b - a, chars);
    assert a + (b - a) == b;
  }

  lemma {:induction false} CountOfIsCardinality(items: seq<Item>, s: set<nat>)
    requires forall i :: i in s ==> i < |items|
    ensures CountOf(items, s) == |s|
  {
    if items == [] {
      assert s == {};
    } else {
      var n := |items| - 1;
      CountOfIsCardinality(items[..n], s - {n});
      SizeOfIgnores(items[..n], s, s - {n}, One);
      assert n in s ==> s == (s - {n}) + {n};
    }
  }

  lemma {:induction false} SizeOfIgnores(items: seq<Item>, a: set<nat>, b: set<nat>, chars: Item -> nat)
    requires forall i :: 0 <= i < |items| ==> (i in a <==> i in b)
    ensures SizeOf(items, a, chars) == SizeOf(items, b, chars)
  {
    if items != [] {
      SizeOfIgnores(items[..|items| - 1], a, b, chars);
    }
  }

  // -- groups -----------------------------------------------------------------------------

  /** The id under which an item is paired, if it is half of a tool exchange. */
  function PairId(item: Item): Option<string> {
    var own := if item.callId.Some? && item.callId.value != "" then item.callId
               else if item.id.Some? && item.id.value != "" then item.id else None;
    if item.kind == "function_call" || item.kind == "function_call_output" then own else None
  }

  predicate Mates(items: seq<Item>, i: nat, j: nat)
    requires i < |items| && j < |items|
  {
    i == j || (PairId(items[i]).Some? && PairId(items[i]) == PairId(items[j]))
  }

  /** An item together with the rest of its tool exchange. */
  function Group(items: seq<Item>, i: nat): set<nat>
    requires i < |items|
  {
    set j: nat | j < |items| && Mates(items, i, j)
  }

  predicate IsLatestUser(items: seq<Item>, u: nat) {
    u < |items| && IsUser(items[u]) && forall i :: u < i < |items| ==> !IsUser(items[i])
  }

  function LatestUser(items: seq<Item>): (u: Option<nat>)
    ensures u.Some? ==> IsLatestUser(items, u.value)
    ensures u.None? ==> forall i :: 0 <= i < |items| ==> !IsUser(items[i])
  {
    if items == [] then None
    else if IsUser(items[|items| - 1]) then Some(|items| - 1)
    else
      var u := LatestUser(items[..|items| - 1]);
      assert u.Some? ==> IsLatestUser(items, u.value);
      u
  }

  function Base(items: seq<Item>): (s: set<nat>) {
    match LatestUser(items) case None => {} case Some(u) => {u}
  }

  /** What a cut keeps: the latest user item, and the groups of all other items
      from the cut on. */
  function Kept(items: seq<Item>, cut: nat): (s: set<nat>)
    ensures forall i :: i in s ==> i < |items|
  {
    Base(items) + set i: nat, j: nat | cut <= i < |items| && i !in Base(items) && j in Group(items, i) :: j
  }

  predicate Fits(items: seq<Item>, s: set<nat>, maxItems: nat, maxChars: nat, chars: Item -> nat) {
    CountOf(items, s) <= maxItems && SizeOf(items, s, chars) <= maxChars
  }

  /** The last item that is not the latest user item: its group is kept even
      when it is too large. */
  function LastOther(items: seq<Item>): (r: set<nat>)
  {
    set i: nat | i < |items| && i !in Base(items) && forall j: nat :: i < j < |items| ==> j in Base(items)
  }

  ghost predicate AtMostOneGroup(items: seq<Item>, s: set<nat>) {
    s == Base(items) || exists i :: i in LastOther(items) && s == Base(items) + Group(items, i)
  }

  ghost predicate Allowed(items: seq<Item>, s: set<nat>, maxItems: nat, maxChars: nat, chars: Item -> nat) {
    Fits(items, s, maxItems, maxChars, chars) || AtMostOneGroup(items, s)
  }

  /** The window: the longest suffix whose kept set fits both budgets, or else the
      latest user item and one group. */
  ghost predicate IsWindow(items: seq<Item>, cut: nat, maxItems: nat, maxChars: nat, chars: Item -> nat) {
    && cut <= |items|
    && Allowed(items, Kept(items, cut), maxItems, maxChars, chars)
    && forall c: nat :: c < cut && Allowed(items, Kept(items, c), maxItems, maxChars, chars) ==>
         Kept(items, c) == Kept(items, cut)
  }

  function Select(items: seq<Item>, s: set<nat>): seq<Item> {
    if items == [] then []
    else
      var n := |items| - 1;
      Select(items[..n], s) + if n in s then [items[n]] else []
  }

  /** The selected indices in order. */
  function Places(items: seq<Item>, s: set<nat>): (r: seq<nat>)
    ensures forall i :: i in r <==> i in s && i < |items|
    ensures forall k :: 0 <= k < |r| ==> r[k] < |items|
    ensures forall j, k :: 0 <= j < k < |r| ==> r[j] < r[k]
  {
    if items == [] then []
    else
      var n := |items| - 1;
      Places(items[..n], s) + if n in s then [n] else []
  }

  /** What is selected is a subsequence of the items: those at the selected indices. */
  lemma {:induction false} SelectIsSubsequence(items: seq<Item>, s: set<nat>)
    ensures var (places, kept) := (Places(items, s), Select(items, s));
            |places| == |kept| && forall k :: 0 <= k < |kept| ==> places[k] < |items| && kept[k] == items[places[k]]
  {
    if items != [] {
      SelectIsSubsequence(items[..|items| - 1], s);
    }
    assert forall k :: 0 <= k < |Places(items, s)| ==> Places(items, s)[k] in Places(items, s);
  }

  lemma {:induction false} CharsOfAppended(items: seq<Item>, item: Item, chars: Item -> nat)
    ensures Chars(items + [item], chars) == Chars(items, chars) + chars(item)
  {
    if items == [] {
      assert [item][1..] == [];
      assert items + [item] == [item];
    } else {
      assert (items + [item])[1..] == items[1..] + [item];
      CharsOfAppended(items[1..], item, chars);
    }
  }

  /** The sizes the loop counts are those of the list it returns. */
  lemma {:induction false} SelectSizes(items: seq<Item>, s: set<nat>, chars: Item -> nat)
    ensures |Select(items, s)| == CountOf(items, s)
    ensures Chars(Select(items, s), chars) == SizeOf(items, s, chars)
  {
    if items != [] {
      var n := |items| - 1;
      SelectSizes(items[..n], s, chars);
      if n in s {
        CharsOfAppended(Select(items[..n], s), items[n], chars);
      } else {
        assert Select(items[..n], s) + [] == Select(items[..n], s);
      }
    }
  }

  lemma KeptGrows(items: seq<Item>, c: nat, d: nat)
    requires c <= d <= |items|
    ensures Kept(items, d) <= Kept(items, c)
  {
  }

  lemma KeptOneMore(items: seq<Item>, i: nat)
    requires i < |items|
    ensures Kept(items, i) == Kept(items, i + 1) + if i in Base(items) then {} else Group(items, i)
  {
  }

  /** An index already kept brings nothing new. */
  lemma KeptClosed(items: seq<Item>, i: nat)
    requires i < |items| && i in Kept(items, i + 1)
    ensures Kept(items, i) == Kept(items, i + 1)
  {
    KeptOneMore(items, i);
    if i !in Base(items) {
      var k: nat, j: nat :| i + 1 <= k < |items| && k !in Base(items) && j in Group(items, k) && j == i;
      assert Group(items, i) <= Group(items, k);
    }
  }

  // -- the selection loop ------------------------------------------------------------------

  method PairIndices(items: seq<Item>) returns (pairs: map<string, set<nat>>)
    ensures forall i: nat :: i < |items| && PairId(items[i]).Some? ==>
              PairId(items[i]).value in pairs && pairs[PairId(items[i]).value] == Group(items, i)
  {
    pairs := map[];
    for n := 0 to |items|
      invariant forall id :: id in pairs ==> pairs[id] == set j: nat | j < n && PairId(items[j]) == Some(id)
      invariant forall i: nat :: i < n && PairId(items[i]).Some? ==> PairId(items[i]).value in pairs
    {
      var id := PairId(items[n]);
      if id.Some? {
        var before := if id.value in pairs then pairs[id.value] else {};
        pairs := pairs[id.value := before + {n}];
      }
    }
    forall i: nat | i < |items| && PairId(items[i]).Some? ensures pairs[PairId(items[i]).value] == Group(items, i) {
      assert Group(items, i) == set j: nat | j < |items| && PairId(items[j]) == PairId(items[i]);
    }
  }

  function AtLeastOne(n: int): nat {
    if n < 1 then 1 else n
  }

  /** Budgets below one count as one. */
  method BoundedItems(items: seq<Item>, itemBudget: int, charBudget: int, chars: Item -> nat)
      returns (kept: seq<Item>, ghost cut: nat)
    ensures var (maxItems, maxChars) := (AtLeastOne(itemBudget), AtLeastOne(charBudget));
            if |items| <= maxItems && Chars(items, chars) <= maxChars then kept == items
            else IsWindow(items, cut, maxItems, maxChars, chars) && kept == Select(items, Kept(items, cut))
    ensures || (|kept| <= AtLeastOne(itemBudget) && Chars(kept, chars) <= AtLeastOne(charBudget))
            || AtMostOneGroup(items, Kept(items, cut))
  {
    cut := 0;
    var maxItems, maxChars := AtLeastOne(itemBudget), AtLeastOne(charBudget);
    if |items| <= maxItems && Chars(items, chars) <= maxChars {
      return items, 0;
    }
    var selected: set<nat> := Base(items);
    var selectedChars := SizeOf(items, selected, chars);
    var pairs := PairIndices(items);
    var retained := false;
    var index: nat := |items|;
    while index > 0
      invariant Selecting(items, index, selected, retained, maxItems, maxChars, chars)
      invariant selectedChars == SizeOf(items, selected, chars)
      decreases index
    {
      var i := index - 1;
      if i in selected {
        Skip(items, i, selected, retained, maxItems, maxChars, chars);
        index := i;
        continue;
      }
      var added, groupChars, exceeds := Weigh(items, pairs, i, selected, selectedChars, maxItems, maxChars, chars);
      if exceeds && retained {
        StopsAt(items, index, maxItems, maxChars, chars);
        break;
      }
      Take(items, i, selected, retained, maxItems, maxChars, chars);
      selected := selected + added;
      selectedChars := selectedChars + groupChars;
      retained := true;
      index := i;
    }
    cut := index;
    kept := Select(items, selected);
    SelectSizes(items, selected, chars);
  }

  /** What keeping item `i` would add, and whether that is too much. */
  method Weigh(items: seq<Item>, pairs: map<string, set<nat>>, i: nat, selected: set<nat>, selectedChars: nat,
               maxItems: nat, maxChars: nat, chars: Item -> nat)
      returns (added: set<nat>, groupChars: nat, exceeds: bool)
    requires i < |items| && selected == Kept(items, i + 1) && i !in selected
    requires selectedChars == SizeOf(items, selected, chars)
    requires PairId(items[i]).Some? ==>
               PairId(items[i]).value in pairs && pairs[PairId(items[i]).value] == Group(items, i)
    ensures selected + added == Kept(items, i)
    ensures selectedChars + groupChars == SizeOf(items, selected + added, chars)
    ensures exceeds == !Fits(items, selected + added, maxItems, maxChars, chars)
  {
    var group: set<nat> := if PairId(items[i]).Some? then pairs[PairId(items[i]).value] else {i};
    assert group == Group(items, i);
    added := group - selected;
    groupChars := SizeOf(items, added, chars);
    GroupAdds(items, i, maxItems, maxChars, chars);
    exceeds := |selected| + |added| > maxItems || selectedChars + groupChars > maxChars;
  }

  /** The loop has worked its way down to `index`. */
  ghost predicate Selecting(items: seq<Item>, index: nat, selected: set<nat>, retained: bool,
                            maxItems: nat, maxChars: nat, chars: Item -> nat) {
    && index <= |items|
    && selected == Kept(items, index)
    && Allowed(items, selected, maxItems, maxChars, chars)
    && (retained ==> exists i :: i in LastOther(items) && index <= i)
    && (!retained ==> forall j: nat :: index <= j < |items| ==> j in Base(items))
  }

  lemma Skip(items: seq<Item>, i: nat, selected: set<nat>, retained: bool, maxItems: nat, maxChars: nat,
             chars: Item -> nat)
    requires Selecting(items, i + 1, selected, retained, maxItems, maxChars, chars) && i in selected
    ensures Selecting(items, i, selected, retained, maxItems, maxChars, chars)
  {
    KeptClosed(items, i);
  }

  lemma Take(items: seq<Item>, i: nat, selected: set<nat>, retained: bool, maxItems: nat, maxChars: nat,
             chars: Item -> nat)
    requires Selecting(items, i + 1, selected, retained, maxItems, maxChars, chars) && i !in selected
    requires retained ==> Fits(items, Kept(items, i), maxItems, maxChars, chars)
    ensures Selecting(items, i, Kept(items, i), true, maxItems, maxChars, chars)
  {
    KeptOneMore(items, i);
    if !retained {
      assert i in LastOther(items);
      assert Kept(items, i) == Base(items) + Group(items, i);
    }
  }

  /** Adding the group of the next unkept item, in sizes. */
  lemma GroupAdds(items: seq<Item>, i: nat, maxItems: nat, maxChars: nat, chars: Item -> nat)
    requires i < |items| && i !in Kept(items, i + 1)
    ensures var (before, after) := (Kept(items, i + 1), Kept(items, i));
            var added := Group(items, i) - before;
            && after == before + added
            && SizeOf(items, after, chars) == SizeOf(items, before, chars) + SizeOf(items, added, chars)
            && (Fits(items, after, maxItems, maxChars, chars) <==>
                |before| + |added| <= maxItems
                  && SizeOf(items, before, chars) + SizeOf(items, added, chars) <= maxChars)
  {
    var before, after := Kept(items, i + 1), Kept(items, i);
    var added := Group(items, i) - before;
    KeptOneMore(items, i);
    assert after == before + added;
    SizeOfUnion(items, before, added, chars);
    CountOfIsCardinality(items, after);
  }

  /** When the next group does not fit, no longer suffix does. */
  lemma StopsAt(items: seq<Item>, cut: nat, maxItems: nat, maxChars: nat, chars: Item -> nat)
    requires 0 < cut <= |items| && cut - 1 !in Kept(items, cut)
    requires exists i :: i in LastOther(items) && cut <= i
    requires !Fits(items, Kept(items, cut - 1), maxItems, maxChars, chars)
    ensures forall c: nat :: c < cut ==> !Allowed(items, Kept(items, c), maxItems, maxChars, chars)
  {
    var last: nat :| last in LastOther(items) && cut <= last;
    KeptOneMore(items, cut - 1);
    assert cut - 1 in Group(items, cut - 1);
    assert Base(items) + Group(items, last) <= Kept(items, cut) by {
      forall j | j in Group(items, last) ensures j in Kept(items, cut) { }
    }
    forall c: nat | c < cut ensures !Allowed(items, Kept(items, c), maxItems, maxChars, chars) {
      KeptGrows(items, c, cut - 1);
      SizeOfSubset(items, Kept(items, cut - 1), Kept(items, c), chars);
      SizeOfSubset(items, Kept(items, cut - 1), Kept(items, c), One);
      assert cut - 1 in Kept(items, c);
    }
  }

  // -- what the window promises ---------------------------------------------------------------

  predicate MateOfLatestUser(items: seq<Item>, i: nat)
    requires i < |items|
  {
    LatestUser(items).Some? && Mates(items, LatestUser(items).value, i)
  }

  /** The window keeps everything from the cut on and the latest user item; an
      older item stays only as the latest user item or to complete the exchange of
      an item from the cut on. */
  lemma WindowIsASuffixWithItsPairs(items: seq<Item>, cut: nat)
    requires cut <= |items|
    ensures forall i :: cut <= i < |items| ==> i in Kept(items, cut)
    ensures forall u :: IsLatestUser(items, u) ==> u in Kept(items, cut)
    ensures forall i: nat :: i < cut && i in Kept(items, cut) ==>
              IsLatestUser(items, i) || exists k: nat :: cut <= k < |items| && Mates(items, k, i)
  {
    forall i | cut <= i < |items| ensures i in Kept(items, cut) {
      assert i in Group(items, i);
    }
    forall i: nat | i < cut && i in Kept(items, cut) && i !in Base(items)
      ensures exists k: nat :: cut <= k < |items| && Mates(items, k, i)
    {
      var k: nat, j: nat :| cut <= k < |items| && k !in Base(items) && j in Group(items, k) && j == i;
      assert Mates(items, k, i);
    }
  }

  /** No tool exchange is split, except possibly one the latest user item itself is
      half of; an ordinary user message is half of none. */
  lemma ExchangesStayWhole(items: seq<Item>, cut: nat, i: nat, j: nat)
    requires cut <= |items| && i < |items| && j < |items| && Mates(items, i, j)
    requires !MateOfLatestUser(items, i)
    ensures i in Kept(items, cut) <==> j in Kept(items, cut)
  {
    if i in Kept(items, cut) {
      var k: nat, m: nat :| cut <= k < |items| && k !in Base(items) && m in Group(items, k) && m == i;
      assert j in Group(items, k);
    }
    if j in Kept(items, cut) {
      var k: nat, m: nat :| cut <= k < |items| && k !in Base(items) && m in Group(items, k) && m == j;
      assert i in Group(items, k);
    }
  }

  /** Both budgets hold unless all that is kept is the latest user item and one group. */
  lemma WindowFitsUnlessMinimal(items: seq<Item>, cut: nat, maxItems: nat, maxChars: nat, chars: Item -> nat)
    requires IsWindow(items, cut, maxItems, maxChars, chars)
    ensures Fits(items, Kept(items, cut), maxItems, maxChars, chars) || AtMostOneGroup(items, Kept(items, cut))
    ensures forall c: nat :: c < cut && c !in Kept(items, cut) ==>
              !Fits(items, Kept(items, c), maxItems, maxChars, chars)
  {
    forall c: nat | c < cut && c !in Kept(items, cut) ensures Kept(items, c) != Kept(items, cut) {
      KeptOneMore(items, c);
      assert c in Base(items) + Group(items, c);
    }
  }

  /** The list that is returned: a subsequence holding the latest user item, within both
      budgets unless all of it is the latest user item and one group. */
  lemma ReturnedWindow(items: seq<Item>, cut: nat, maxItems: nat, maxChars: nat, chars: Item -> nat)
    requires IsWindow(items, cut, maxItems, maxChars, chars)
    ensures var (kept, places) := (Select(items, Kept(items, cut)), Places(items, Kept(items, cut)));
            && |places| == |kept|
            && (forall k :: 0 <= k < |kept| ==> places[k] < |items| && kept[k] == items[places[k]])
            && (forall u :: IsLatestUser(items, u) ==> u in places)
            && ((|kept| <= maxItems && Chars(kept, chars) <= maxChars) || AtMostOneGroup(items, Kept(items, cut)))
  {
    SelectIsSubsequence(items, Kept(items, cut));
    SelectSizes(items, Kept(items, cut), chars);
    WindowIsASuffixWithItsPairs(items, cut);
  }

  /** Which window it is depends on nothing but the items and the budgets. */
  lemma WindowIsUnique(items: seq<Item>, c: nat, d: nat, maxItems: nat, maxChars: nat, chars: Item -> nat)
    requires IsWindow(items, c, maxItems, maxChars, chars) && IsWindow(items, d, maxItems, maxChars, chars)
    ensures Kept(items, c) == Kept(items, d)
  {
  }

  // -- exchanges, on the fields of the items -------------------------------------------------------

  /** The item carries this name: its call id, or its own id when it has no call id. */
  predicate Named(item: Item, name: string) {
    && name != ""
    && (item.callId == Some(name) || (item.callId in {None, Some("")} && item.id == Some(name)))
  }

  predicate IsHalf(item: Item) {
    item.kind == "function_call" || item.kind == "function_call_output"
  }

  /** Two items belong together exactly when both are halves of a tool exchange and carry
      one name.  The own id of an item that has a call id never counts. */
  lemma MatesIff(items: seq<Item>, i: nat, j: nat)
    requires i < |items| && j < |items| && i != j
    ensures Mates(items, i, j)
            <==> && IsHalf(items[i]) && IsHalf(items[j])
                 && exists name :: Named(items[i], name) && Named(items[j], name)
  {
    if Mates(items, i, j) {
      assert Named(items[i], PairId(items[i]).value);
    }
  }

  /** A call and its result are kept both or neither, whatever their own ids are, unless
      the latest user item is another half of the same exchange. */
  lemma CallKeepsItsResult(items: seq<Item>, cut: nat, i: nat, j: nat, id: string)
    requires cut <= |items| && i < |items| && j < |items|
    requires items[i].kind == "function_call" && items[j].kind == "function_call_output"
    requires items[i].callId == items[j].callId == Some(id) && id != ""
    requires forall u: nat :: IsLatestUser(items, u) ==> !(IsHalf(items[u]) && Named(items[u], id))
    ensures i in Kept(items, cut) <==> j in Kept(items, cut)
  {
    assert Named(items[i], id) && Named(items[j], id);
    MatesIff(items, i, j);
    var latest := LatestUser(items);
    if latest.Some? && latest.value != i && latest.value != j {
      MatesIff(items, latest.value, i);
      MatesIff(items, latest.value, j);
      assert forall name :: Named(items[i], name) ==> name == id;
    }
    ExchangesStayWhole(items, cut, i, j);
    ExchangesStayWhole(items, cut, j, i);
  }

  /** An item that is no half of an exchange is kept for its own sake: it is the latest
      user item or lies from the cut on. */
  lemma LoneItemIsKeptIff(items: seq<Item>, cut: nat, i: nat)
    requires cut <= |items| && i < |items| && !IsHalf(items[i])
    ensures i in Kept(items, cut) <==> cut <= i || IsLatestUser(items, i)
  {
    WindowIsASuffixWithItsPairs(items, cut);
    if cut <= i && !IsLatestUser(items, i) {
      assert i !in Base(items) && i in Group(items, i);
    }
    forall j: nat | j < |items| && j != i ensures !Mates(items, j, i) {
      MatesIff(items, j, i);
    }
    if IsLatestUser(items, i) {
      LatestUserIsBase(items, i);
    }
  }

  // -- when an exchange is split -----------------------------------------------------------------

  predicate Splits(items: seq<Item>, s: set<nat>) {
    exists i: nat, j: nat :: i < |items| && j < |items| && Mates(items, i, j) && i in s && j !in s
  }

  lemma LatestUserIsBase(items: seq<Item>, u: nat)
    requires IsLatestUser(items, u)
    ensures LatestUser(items) == Some(u) && Base(items) == {u}
  {
  }

  lemma MatesAreTransitive(items: seq<Item>, i: nat, j: nat, k: nat)
    requires i < |items| && j < |items| && k < |items| && Mates(items, i, j) && Mates(items, j, k)
    ensures Mates(items, i, k) && Mates(items, j, i)
  {
  }

  lemma KeptByMate(items: seq<Item>, cut: nat, k: nat, u: nat, j: nat)
    requires cut <= k < |items| && u < |items| && j < |items|
    requires k !in Base(items) && Mates(items, k, u) && Mates(items, u, j)
    ensures j in Kept(items, cut)
  {
    MatesAreTransitive(items, k, u, j);
    assert j in Group(items, k);
  }

  /** A cut splits an exchange exactly when the latest user item is half of one and no
      other part of that exchange lies from the cut on. */
  lemma CutSplitsIff(items: seq<Item>, cut: nat, u: nat)
    requires cut <= |items| && IsLatestUser(items, u)
    ensures Splits(items, Kept(items, cut))
            <==> Group(items, u) != {u} && !exists k: nat :: cut <= k < |items| && k != u && Mates(items, k, u)
  {
    LatestUserIsBase(items, u);
    assert u in Group(items, u);
    if Splits(items, Kept(items, cut)) {
      var i: nat, j: nat :| i < |items| && j < |items| && Mates(items, i, j) && i in Kept(items, cut)
        && j !in Kept(items, cut);
      if !MateOfLatestUser(items, i) {
        ExchangesStayWhole(items, cut, i, j);
      }
      MatesAreTransitive(items, u, i, j);
      assert j in Group(items, u);
      forall k: nat | cut <= k < |items| && k != u ensures !Mates(items, k, u) {
        if Mates(items, k, u) {
          KeptByMate(items, cut, k, u, j);
        }
      }
    } else if Group(items, u) != {u} {
      var j: nat :| j in Group(items, u) && j != u;
      assert j in Kept(items, cut);
      var k: nat, m: nat :| cut <= k < |items| && k !in Base(items) && m in Group(items, k) && m == j;
      MatesAreTransitive(items, u, j, k);
      assert Mates(items, k, u);
    }
  }

  lemma NothingSplitsWithoutUser(items: seq<Item>, cut: nat)
    requires cut <= |items| && LatestUser(items).None?
    ensures !Splits(items, Kept(items, cut))
  {
    if Splits(items, Kept(items, cut)) {
      var i: nat, j: nat :| i < |items| && j < |items| && Mates(items, i, j) && i in Kept(items, cut)
        && j !in Kept(items, cut);
      ExchangesStayWhole(items, cut, i, j);
    }
  }

  /** The call with these budgets cuts the list, and splits an exchange. */
  ghost predicate BudgetSplits(items: seq<Item>, maxItems: nat, maxChars: nat, chars: Item -> nat) {
    && maxItems >= 1 && maxChars >= 1 && !(|items| <= maxItems && Chars(items, chars) <= maxChars)
    && exists cut: nat :: IsWindow(items, cut, maxItems, maxChars, chars) && Splits(items, Kept(items, cut))
  }

  /** Half of an exchange is the latest user item, and the last other item is not in it. */
  predicate CanSplit(items: seq<Item>) {
    LatestUser(items).Some? &&
    var u := LatestUser(items).value;
    Group(items, u) != {u} && LastOther(items) !! Group(items, u)
  }

  /** The index of the last item other than the latest user item `u`. */
  function LastBut(items: seq<Item>, u: nat): nat
    requires |items| >= 2
  {
    if u == |items| - 1 then |items| - 2 else |items| - 1
  }

  lemma LastOtherIs(items: seq<Item>, u: nat)
    requires IsLatestUser(items, u) && |items| >= 2
    ensures LastOther(items) == {LastBut(items, u)}
  {
    LatestUserIsBase(items, u);
    var last := LastBut(items, u);
    assert last in LastOther(items);
    forall i | i in LastOther(items) ensures i == last {
      assert i < last ==> last in Base(items);
    }
  }

  lemma KeptShrinks(items: seq<Item>, c: nat, d: nat)
    ensures c <= d <= |items| ==> Kept(items, d) <= Kept(items, c)
  {
  }

  /** What the last other item alone makes be kept. */
  lemma KeptFromLast(items: seq<Item>, u: nat)
    requires IsLatestUser(items, u) && |items| >= 2
    ensures var last := LastBut(items, u);
            && Kept(items, last + 1) == {u} && last in Kept(items, last)
            && AtMostOneGroup(items, Kept(items, last))
  {
    LatestUserIsBase(items, u);
    LastOtherIs(items, u);
    var last := LastBut(items, u);
    KeptOneMore(items, last);
    assert Kept(items, last + 1) == Base(items);
    assert last in LastOther(items) && last in Group(items, last);
  }

  /** A window never begins after the last other item. */
  lemma WindowReachesLastOther(items: seq<Item>, cut: nat, u: nat, maxItems: nat, maxChars: nat, chars: Item -> nat)
    requires IsWindow(items, cut, maxItems, maxChars, chars) && IsLatestUser(items, u) && |items| >= 2
    ensures cut <= LastBut(items, u)
  {
    KeptFromLast(items, u);
    KeptShrinks(items, LastBut(items, u) + 1, cut);
  }

  /** With budgets of one, the window is the latest user item and the last other group. */
  lemma SmallestWindow(items: seq<Item>, u: nat, chars: Item -> nat)
    requires IsLatestUser(items, u) && |items| >= 2
    ensures IsWindow(items, LastBut(items, u), 1, 1, chars)
  {
    var last := LastBut(items, u);
    KeptFromLast(items, u);
    LatestUserIsBase(items, u);
    LastOtherIs(items, u);
    KeptOneMore(items, last);
    forall c: nat | c < last && Allowed(items, Kept(items, c), 1, 1, chars)
      ensures Kept(items, c) == Kept(items, last)
    {
      KeptGrows(items, c, last);
      CountOfIsCardinality(items, Kept(items, c));
      SubsetSize({u, last}, Kept(items, c));
    }
  }

  lemma SubsetSize(a: set<nat>, b: set<nat>)
    requires a <= b
    ensures |a| <= |b|
  {
    assert a + (b - a) == b;
  }

  /** Some budgets make the call split an exchange exactly when the latest user item is
      half of one that the last other item has no part in. */
  lemma SomeBudgetSplitsIff(items: seq<Item>, chars: Item -> nat)
    ensures (exists maxItems: nat, maxChars: nat :: BudgetSplits(items, maxItems, maxChars, chars)) <==> CanSplit(items)
  {
    if maxItems: nat, maxChars: nat :| BudgetSplits(items, maxItems, maxChars, chars) {
      var cut: nat :| IsWindow(items, cut, maxItems, maxChars, chars) && Splits(items, Kept(items, cut));
      SplitMeansCanSplit(items, cut, maxItems, maxChars, chars);
    }
    if CanSplit(items) {
      OneOneSplits(items, chars);
    }
  }

  lemma OtherExists(items: seq<Item>, u: nat) returns (j: nat)
    requires u < |items| && Group(items, u) != {u}
    ensures j in Group(items, u) && j != u
  {
    assert u in Group(items, u);
    j :| j in Group(items, u) && j != u;
  }

  lemma SplitMeansCanSplit(items: seq<Item>, cut: nat, maxItems: nat, maxChars: nat, chars: Item -> nat)
    requires IsWindow(items, cut, maxItems, maxChars, chars) && Splits(items, Kept(items, cut))
    ensures CanSplit(items)
  {
    if LatestUser(items).None? {
      NothingSplitsWithoutUser(items, cut);
    } else {
      var u := LatestUser(items).value;
      CutSplitsIff(items, cut, u);
      LatestUserIsBase(items, u);
      var j := OtherExists(items, u);
      LastOtherIs(items, u);
      WindowReachesLastOther(items, cut, u, maxItems, maxChars, chars);
      var last := LastBut(items, u);
      assert !Mates(items, last, u);
      assert last !in Group(items, u);
    }
  }

  lemma OneOneSplits(items: seq<Item>, chars: Item -> nat)
    requires CanSplit(items)
    ensures BudgetSplits(items, 1, 1, chars)
  {
    var u := LatestUser(items).value;
    LatestUserIsBase(items, u);
    var j := OtherExists(items, u);
    LastOtherIs(items, u);
    SmallestWindow(items, u, chars);
    var last := LastBut(items, u);
    assert last in LastOther(items) && last !in Group(items, u);
    assert !Mates(items, last, u);
    assert |items| > 2;
    CutSplitsIff(items, last, u);
  }

  /** Such an input: a tool result, then its call in the user's name, then a reply. */
  lemma UserCallSplitsItsPair(output: Item, call: Item, reply: Item, chars: Item -> nat)
    requires output == Item("", "function_call_output", Some("c"), None, NoContent)
    requires call == Item("user", "function_call", Some("c"), None, NoContent)
    requires reply == Item("assistant", "", None, None, NoContent)
    ensures BudgetSplits([output, call, reply], 1, 1, chars)
  {
    var items := [output, call, reply];
    LatestUserIsBase(items, 1);
    LastOtherIs(items, 1);
    assert Mates(items, 1, 0) && 0 in Group(items, 1);
    assert !Mates(items, 1, 2);
    OneOneSplits(items, chars);
  }
}
