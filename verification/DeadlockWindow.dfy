/** The deadlock detector of the trace evaluator (`_deadlock_window`): a stretch of
    body states long enough, without output, and within a small box. */
module DeadlockWindow {
  import opened Options

  datatype Axis = X | Y | Z

  /** A body state that has a position. */
  datatype Sample = Sample(ts: real, x: real, y: real, z: real) {
    function At(a: Axis): real {
      match a
      case X => x
      case Y => y
      case Z => z
    }
  }

  /** The thresholds: how long a window must be and how still the Body in it. */
  datatype Detector = Detector(windowS: real, still: seq<Sample> -> bool)

  /** Indices of a window's first and last sample. */
  datatype Window = Window(first: nat, last: nat)

  // -- the box of a window ----------------------------------------------------------------------

  function Low(w: seq<Sample>, a: Axis): (r: real)
    requires w != []
    ensures forall s :: s in w ==> r <= s.At(a)
  {
    var last := w[|w| - 1].At(a);
    if |w| == 1 then last
    else
      var low := Low(w[..|w| - 1], a);
      if last < low then last else low
  }

  function High(w: seq<Sample>, a: Axis): (r: real)
    requires w != []
    ensures forall s :: s in w ==> s.At(a) <= r
  {
    var last := w[|w| - 1].At(a);
    if |w| == 1 then last
    else
      var high := High(w[..|w| - 1], a);
      if last > high then last else high
  }

  /** The samples a box side is measured between. */
  lemma {:induction false} Ends(w: seq<Sample>, a: Axis) returns (high: Sample, low: Sample)
    requires w != []
    ensures high in w && high.At(a) == High(w, a)
    ensures low in w && low.At(a) == Low(w, a)
  {
    var last := w[|w| - 1];
    high, low := last, last;
    if |w| > 1 {
      var h, l := Ends(w[..|w| - 1], a);
      high := if last.At(a) > h.At(a) then last else h;
      low := if last.At(a) < l.At(a) then last else l;
    }
  }

  function Extent(w: seq<Sample>, a: Axis): real
    requires w != []
  {
    High(w, a) - Low(w, a)
  }

  function Square(r: real): real {
    r * r
  }

  /** The square of `_position_span`: the bounding box's diagonal. */
  function SquaredSpan(w: seq<Sample>): real
    requires w != []
  {
    Square(Extent(w, X)) + Square(Extent(w, Y)) + Square(Extent(w, Z))
  }

  /** `span <= epsilon`, without the square root. */
  predicate Within(w: seq<Sample>, epsilon: real)
    requires w != []
  {
    epsilon >= 0.0 && SquaredSpan(w) <= Square(epsilon)
  }

  function Evaluator(windowS: real, epsilon: real): Detector {
    Detector(windowS, w => w != [] && Within(w, epsilon))
  }

  // -- windows ------------------------------------------------------------------------------------

  predicate Long(d: Detector, samples: seq<Sample>, i: nat, j: nat)
    requires i < |samples| && j < |samples|
  {
    samples[j].ts - samples[i].ts >= d.windowS
  }

  predicate Silent(samples: seq<Sample>, outputs: seq<real>, i: nat, j: nat)
    requires i < |samples| && j < |samples|
  {
    forall k :: 0 <= k < |outputs| ==> !(samples[i].ts < outputs[k] <= samples[j].ts)
  }

  /** What the detector looks for: long, silent and still. */
  predicate Deadlocked(d: Detector, samples: seq<Sample>, outputs: seq<real>, w: Window) {
    w.first <= w.last < |samples| && Long(d, samples, w.first, w.last) && Silent(samples, outputs, w.first, w.last)
    && d.still(samples[w.first..w.last + 1])
  }

  /** The first sample from `j` on that makes the window from `i` long enough. */
  function FirstLong(d: Detector, samples: seq<Sample>, i: nat, j: nat): (r: Option<nat>)
    requires i < |samples|
    ensures r.Some? ==> j <= r.value < |samples| && Long(d, samples, i, r.value)
    ensures forall k :: j <= k < |samples| && (r.None? || k < r.value) ==> !Long(d, samples, i, k)
    decreases |samples| - j
  {
    if j >= |samples| then None else if Long(d, samples, i, j) then Some(j) else FirstLong(d, samples, i, j + 1)
  }

  /** From each start only the shortest long window is looked at. */
  function DetectedFrom(d: Detector, samples: seq<Sample>, outputs: seq<real>, i: nat): (r: Option<Window>)
    ensures r.Some? ==> i <= r.value.first && Deadlocked(d, samples, outputs, r.value)
    decreases |samples| - i
  {
    if i >= |samples| then None
    else
      var last := FirstLong(d, samples, i, i);
      if last.Some? && Deadlocked(d, samples, outputs, Window(i, last.value)) then Some(Window(i, last.value))
      else DetectedFrom(d, samples, outputs, i + 1)
  }

  method Detect(d: Detector, samples: seq<Sample>, outputs: seq<real>) returns (r: Option<Window>)
    ensures r == DetectedFrom(d, samples, outputs, 0)
  {
    var i := 0;
    while i < |samples|
      invariant DetectedFrom(d, samples, outputs, 0) == DetectedFrom(d, samples, outputs, i)
    {
      var window: seq<Sample> := [];
      var j := i;
      while j < |samples|
        invariant i <= j <= |samples| && window == samples[i..j]
        invariant FirstLong(d, samples, i, i) == FirstLong(d, samples, i, j)
      {
        assert samples[i..j] + [samples[j]] == samples[i..j + 1];
        window := window + [samples[j]];
        if samples[j].ts - samples[i].ts >= d.windowS {
          break;
        }
        j := j + 1;
      }
      if j < |samples| && Silent(samples, outputs, i, j) && d.still(window) {
        return Some(Window(i, j));
      }
      i := i + 1;
    }
    return None;
  }

  // -- any window will be found ----------------------------------------------------------------------

  predicate TimeSorted(samples: seq<Sample>) {
    forall i, j :: 0 <= i <= j < |samples| ==> samples[i].ts <= samples[j].ts
  }

  lemma SquareGrows(a: real, b: real)
    requires 0.0 <= a <= b
    ensures Square(a) <= Square(b)
  {
  }

  /** A window's box only grows with it. */
  lemma ExtentGrows(w: seq<Sample>, n: nat, a: Axis)
    requires 0 < n <= |w|
    ensures 0.0 <= Extent(w[..n], a) <= Extent(w, a)
  {
    var high, low := Ends(w[..n], a);
    assert high in w && low in w;
    assert w[0] == w[..n][0] && w[0] in w[..n];
  }

  lemma SpanGrows(w: seq<Sample>, n: nat)
    requires 0 < n <= |w|
    ensures SquaredSpan(w[..n]) <= SquaredSpan(w)
  {
    ExtentGrows(w, n, X);
    ExtentGrows(w, n, Y);
    ExtentGrows(w, n, Z);
    SquareGrows(Extent(w[..n], X), Extent(w, X));
    SquareGrows(Extent(w[..n], Y), Extent(w, Y));
    SquareGrows(Extent(w[..n], Z), Extent(w, Z));
  }

  /** A Body that is still in a window is still in every shorter one from its start. */
  ghost predicate StillShorter(d: Detector) {
    forall w: seq<Sample>, n: nat :: 0 < n <= |w| && d.still(w) ==> d.still(w[..n])
  }

  lemma EvaluatorIsStillShorter(windowS: real, epsilon: real)
    ensures StillShorter(Evaluator(windowS, epsilon))
  {
    forall w: seq<Sample>, n: nat | 0 < n <= |w| && Within(w, epsilon) ensures Within(w[..n], epsilon) {
      SpanGrows(w, n);
    }
  }

  /** A shorter window from the same start is as silent and as still. */
  lemma ShorterIsDeadlockedToo(d: Detector, samples: seq<Sample>, outputs: seq<real>, w: Window, last: nat)
    requires TimeSorted(samples) && StillShorter(d) && Deadlocked(d, samples, outputs, w)
    requires w.first <= last <= w.last && Long(d, samples, w.first, last)
    ensures Deadlocked(d, samples, outputs, Window(w.first, last))
  {
    var all := samples[w.first..w.last + 1];
    assert all[..last + 1 - w.first] == samples[w.first..last + 1];
  }

  lemma {:induction false} FindsFrom(d: Detector, samples: seq<Sample>, outputs: seq<real>, i: nat, w: Window)
    requires TimeSorted(samples) && StillShorter(d) && Deadlocked(d, samples, outputs, w) && i <= w.first
    ensures var r := DetectedFrom(d, samples, outputs, i);
            && r.Some? && r.value.first <= w.first
            && (r.value.first == w.first ==> r.value.last <= w.last)
    decreases |samples| - i
  {
    var last := FirstLong(d, samples, i, i);
    if i == w.first {
      ShorterIsDeadlockedToo(d, samples, outputs, w, last.value);
    } else if last.None? || !Deadlocked(d, samples, outputs, Window(i, last.value)) {
      FindsFrom(d, samples, outputs, i + 1, w);
    }
  }

  /** On samples in time order the detector, which looks at one window from each start,
      reports one exactly when any pair of samples bounds a deadlocked window, and then
      the earliest start with its shortest window. */
  lemma DetectsIff(windowS: real, epsilon: real, samples: seq<Sample>, outputs: seq<real>)
    requires TimeSorted(samples)
    ensures var d := Evaluator(windowS, epsilon);
            var r := DetectedFrom(d, samples, outputs, 0);
            && (r.Some? <==> exists w :: Deadlocked(d, samples, outputs, w))
            && (r.Some? ==> forall w :: Deadlocked(d, samples, outputs, w) ==>
                  r.value.first < w.first || (r.value.first == w.first && r.value.last <= w.last))
  {
    var d := Evaluator(windowS, epsilon);
    EvaluatorIsStillShorter(windowS, epsilon);
    forall w | Deadlocked(d, samples, outputs, w)
      ensures var r := DetectedFrom(d, samples, outputs, 0);
              && r.Some? && r.value.first <= w.first
              && (r.value.first == w.first ==> r.value.last <= w.last)
    {
      FindsFrom(d, samples, outputs, 0, w);
    }
  }

  function AtOrigin(ts: real): Sample {
    Sample(ts, 0.0, 0.0, 0.0)
  }

  /** The second sample's clock runs ahead of the third's. */
  const UNSORTED := [AtOrigin(0.0), AtOrigin(20.0), AtOrigin(10.0)]

  lemma StandingStill(w: seq<Sample>)
    requires w != [] && forall s :: s in w ==> s.x == s.y == s.z == 0.0
    ensures Within(w, 1.0)
  {
    forall a: Axis ensures Extent(w, a) == 0.0 {
      var high, low := Ends(w, a);
    }
    assert SquaredSpan(w) == 0.0;
  }

  lemma HiddenByTheClock(d: Detector)
    requires d.windowS == 10.0 && d.still(UNSORTED[0..3])
    ensures DetectedFrom(d, UNSORTED, [15.0], 0).None? && Deadlocked(d, UNSORTED, [15.0], Window(0, 2))
  {
    assert FirstLong(d, UNSORTED, 0, 0) == Some(1);
    assert [15.0][0] == 15.0;
    assert FirstLong(d, UNSORTED, 1, 1) == None && FirstLong(d, UNSORTED, 2, 2) == None;
  }

  /** Out of time order a window can be missed: the second sample covers an output that
      the third one's window does not. */
  lemma UnsortedSamplesCanHideADeadlock()
    ensures var d := Evaluator(10.0, 1.0);
            DetectedFrom(d, UNSORTED, [15.0], 0).None? && Deadlocked(d, UNSORTED, [15.0], Window(0, 2))
  {
    StandingStill(UNSORTED[0..3]);
    HiddenByTheClock(Evaluator(10.0, 1.0));
  }

  /** Each side of the box is the greatest distance between two samples along it. */
  lemma ExtentIsDiameter(w: seq<Sample>, a: Axis)
    requires w != []
    ensures forall p, q :: p in w && q in w ==> p.At(a) - q.At(a) <= Extent(w, a)
    ensures exists p, q :: p in w && q in w && p.At(a) - q.At(a) == Extent(w, a)
  {
    var high, low := Ends(w, a);
    assert high.At(a) - low.At(a) == Extent(w, a);
  }

  // -- what is reported, on the samples and the outputs ------------------------------------------------

  /** No two of the samples are further apart than this along any axis. */
  predicate Apart(samples: seq<Sample>, first: nat, last: nat, dx: real, dy: real, dz: real)
    requires first <= last < |samples|
  {
    forall i, j :: first <= i <= last && first <= j <= last ==>
      && samples[i].x - samples[j].x <= dx && samples[i].y - samples[j].y <= dy && samples[i].z - samples[j].z <= dz
  }

  ghost predicate FitsInDiagonal(samples: seq<Sample>, first: nat, last: nat, epsilon: real)
    requires first <= last < |samples|
  {
    exists dx, dy, dz :: Apart(samples, first, last, dx, dy, dz) && dx * dx + dy * dy + dz * dz <= epsilon * epsilon
  }

  lemma ApartIff(samples: seq<Sample>, first: nat, last: nat, dx: real, dy: real, dz: real)
    requires first <= last < |samples|
    ensures var w := samples[first..last + 1];
            Apart(samples, first, last, dx, dy, dz)
            <==> Extent(w, X) <= dx && Extent(w, Y) <= dy && Extent(w, Z) <= dz
  {
    var w := samples[first..last + 1];
    assert forall i :: first <= i <= last ==> samples[i] == w[i - first] && samples[i] in w;
    if Apart(samples, first, last, dx, dy, dz) {
      forall a: Axis ensures Extent(w, a) <= (match a case X => dx case Y => dy case Z => dz) {
        var high, low := Ends(w, a);
        var i :| 0 <= i < |w| && w[i] == high;
        var j :| 0 <= j < |w| && w[j] == low;
        assert samples[first + i] == high && samples[first + j] == low;
      }
    } else {
      forall i, j | first <= i <= last && first <= j <= last
        ensures samples[i].x - samples[j].x <= Extent(w, X) && samples[i].y - samples[j].y <= Extent(w, Y)
        ensures samples[i].z - samples[j].z <= Extent(w, Z)
      {
        ExtentIsDiameter(w, X);
        ExtentIsDiameter(w, Y);
        ExtentIsDiameter(w, Z);
        assert samples[i].At(X) - samples[j].At(X) <= Extent(w, X);
        assert samples[i].At(Y) - samples[j].At(Y) <= Extent(w, Y);
        assert samples[i].At(Z) - samples[j].At(Z) <= Extent(w, Z);
      }
    }
  }

  lemma FitsInDiagonalIff(samples: seq<Sample>, first: nat, last: nat, epsilon: real)
    requires first <= last < |samples|
    ensures FitsInDiagonal(samples, first, last, epsilon)
            <==> SquaredSpan(samples[first..last + 1]) <= Square(epsilon)
  {
    var w := samples[first..last + 1];
    ApartIff(samples, first, last, Extent(w, X), Extent(w, Y), Extent(w, Z));
    if dx, dy, dz :| Apart(samples, first, last, dx, dy, dz) && dx * dx + dy * dy + dz * dz <= epsilon * epsilon {
      ApartIff(samples, first, last, dx, dy, dz);
      SpanAtMost(w, dx, dy, dz);
    }
  }

  lemma SpanAtMost(w: seq<Sample>, dx: real, dy: real, dz: real)
    requires w != [] && Extent(w, X) <= dx && Extent(w, Y) <= dy && Extent(w, Z) <= dz
    ensures SquaredSpan(w) <= dx * dx + dy * dy + dz * dz
  {
    ExtentGrows(w, |w|, X);
    ExtentGrows(w, |w|, Y);
    ExtentGrows(w, |w|, Z);
    assert w[..|w|] == w;
    SquareGrows(Extent(w, X), dx);
    SquareGrows(Extent(w, Y), dy);
    SquareGrows(Extent(w, Z), dz);
  }

  /** A deadlocked window: its last sample comes at least the threshold after its first,
      no output falls after the first and up to the last, and all its samples fit in a
      box whose diagonal is at most epsilon. */
  lemma DeadlockedMeans(windowS: real, epsilon: real, samples: seq<Sample>, outputs: seq<real>, w: Window)
    ensures Deadlocked(Evaluator(windowS, epsilon), samples, outputs, w)
            <==> && w.first <= w.last < |samples| && samples[w.last].ts - samples[w.first].ts >= windowS
                 && (forall ts :: ts in outputs ==> ts <= samples[w.first].ts || ts > samples[w.last].ts)
                 && epsilon >= 0.0 && FitsInDiagonal(samples, w.first, w.last, epsilon)
  {
    if w.first <= w.last < |samples| {
      FitsInDiagonalIff(samples, w.first, w.last, epsilon);
      assert forall k :: 0 <= k < |outputs| ==> outputs[k] in outputs;
    }
  }
}
