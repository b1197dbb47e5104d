/** Reading and writing lists item by item. */
module Lists {
  import opened Options

  function Mapped<T, U>(values: seq<T>, f: T -> U): (r: seq<U>)
    ensures |r| == |values| && forall i :: 0 <= i < |values| ==> r[i] == f(values[i])
  {
    seq(|values|, i requires 0 <= i < |values| => f(values[i]))
  }

  /** What `f` makes of every item, or nothing when it refuses one. */
  function AllOf<T, U>(items: seq<T>, f: T -> Option<U>): (r: Option<seq<U>>)
    ensures r.Some? <==> forall i :: 0 <= i < |items| ==> f(items[i]).Some?
    ensures r.Some? ==> |r.value| == |items| && forall i :: 0 <= i < |items| ==> f(items[i]) == Some(r.value[i])
  {
    if forall i :: 0 <= i < |items| ==> f(items[i]).Some?
    then Some(seq(|items|, i requires 0 <= i < |items| && f(items[i]).Some? => f(items[i]).value))
    else None
  }

  lemma MappedBack<T, U>(values: seq<T>, f: T -> U, g: U -> Option<T>)
    requires forall i :: 0 <= i < |values| ==> g(f(values[i])) == Some(values[i])
    ensures AllOf(Mapped(values, f), g) == Some(values)
  {
    var items := Mapped(values, f);
    assert forall i :: 0 <= i < |items| ==> g(items[i]) == Some(values[i]);
    assert AllOf(items, g).value == values;
  }

  lemma MappedAppend<T, U>(values: seq<T>, last: T, f: T -> U)
    ensures Mapped(values + [last], f) == Mapped(values, f) + [f(last)]
  {
  }

  lemma AllOfAppend<T, U>(items: seq<T>, last: T, f: T -> Option<U>)
    requires AllOf(items, f).Some? && f(last).Some?
    ensures AllOf(items + [last], f) == Some(AllOf(items, f).value + [f(last).value])
  {
    var all := items + [last];
    assert forall i :: 0 <= i < |items| ==> all[i] == items[i];
    assert AllOf(all, f).Some?;
    assert AllOf(all, f).value == AllOf(items, f).value + [f(last).value];
  }
}
