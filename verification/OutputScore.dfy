/** The output score of the trace evaluator (`_effective_output_signal` with
    `_yardstick_score`): inventory samples and pickup events folded into points. */
module OutputScore {
  import opened Options

  /** One inventory line; the item's name is normalised, so two lines of a sample may
      carry the same one. */
  datatype Entry = Entry(item: string, count: int)

  /** What the evaluator looks at, in trace order.  An empty name stands for none. */
  datatype Observation =
    | Sampled(items: seq<Entry>, selected: string, offhand: string)
    | PickedUp(item: string, count: int)

  datatype Slot = MainHand | OffHand

  datatype Tally = Tally(seen: bool, baseline: map<string, int>, high: map<string, int>, totals: map<string, int>,
                         equipped: set<(Slot, string)>, selected: string, offhand: string)

  const EMPTY := Tally(false, map[], map[], map[], {}, "", "")

  function Get(counts: map<string, int>, item: string): int {
    if item in counts then counts[item] else 0
  }

  function Max(a: int, b: int): int {
    if a < b then b else a
  }

  // -- one observation ------------------------------------------------------------------------

  function Lined(t: Tally, e: Entry): Tally {
    if e.item == "" then t
    else
      t.(baseline := if t.seen then t.baseline else t.baseline[e.item := e.count],
         high := if e.count > Get(t.high, e.item) then t.high[e.item := e.count] else t.high)
  }

  function LinedAll(t: Tally, items: seq<Entry>): Tally {
    if items == [] then t else Lined(LinedAll(t, items[..|items| - 1]), items[|items| - 1])
  }

  function Held(t: Tally, selected: string, offhand: string): Tally {
    var first := if t.seen then t else t.(seen := true, selected := selected, offhand := offhand);
    first.(equipped := first.equipped
                       + (if selected != "" && selected != first.selected then {(MainHand, selected)} else {})
                       + (if offhand != "" && offhand != first.offhand then {(OffHand, offhand)} else {}))
  }

  function Pickup(t: Tally, item: string, count: int): Tally {
    if item == "" || count <= 0 then t
    else
      var total := Get(t.totals, item) + count;
      t.(totals := t.totals[item := total], high := t.high[item := Max(Get(t.high, item), total)])
  }

  function After(t: Tally, o: Observation): Tally {
    match o
    case Sampled(items, selected, offhand) => Held(LinedAll(t, items), selected, offhand)
    case PickedUp(item, count) => Pickup(t, item, count)
  }

  function TallyOf(trace: seq<Observation>): Tally {
    if trace == [] then EMPTY else After(TallyOf(trace[..|trace| - 1]), trace[|trace| - 1])
  }

  /** `progress_counts`: what an item counts for. */
  function Progress(t: Tally, item: string): nat {
    if item !in t.high && item !in t.totals then 0
    else Max(0, Max(Get(t.high, item) - Get(t.baseline, item), Get(t.totals, item)))
  }

  // -- the same, said of the trace -------------------------------------------------------------

  function LastCount(items: seq<Entry>, item: string): int {
    if items == [] then 0
    else if items[|items| - 1].item == item then items[|items| - 1].count
    else LastCount(items[..|items| - 1], item)
  }

  function Highest(items: seq<Entry>, item: string): (r: nat)
    ensures forall e :: e in items && e.item == item ==> e.count <= r
  {
    if items == [] then 0
    else
      var rest, last := Highest(items[..|items| - 1], item), items[|items| - 1];
      if last.item == item then Max(rest, last.count) else rest
  }

  predicate HasSample(trace: seq<Observation>) {
    exists i :: 0 <= i < |trace| && trace[i].Sampled?
  }

  /** What the first sample says the Body already had. */
  function Baseline(trace: seq<Observation>, item: string): int {
    if trace == [] then 0
    else
      var (front, last) := (trace[..|trace| - 1], trace[|trace| - 1]);
      if HasSample(front) then Baseline(front, item)
      else if last.Sampled? then LastCount(last.items, item) else 0
  }

  function HighestSample(trace: seq<Observation>, item: string): nat {
    if trace == [] then 0
    else
      var (front, last) := (trace[..|trace| - 1], trace[|trace| - 1]);
      if last.Sampled? then Max(HighestSample(front, item), Highest(last.items, item)) else HighestSample(front, item)
  }

  function EventTotal(trace: seq<Observation>, item: string): nat {
    if trace == [] then 0
    else
      var (front, last) := (trace[..|trace| - 1], trace[|trace| - 1]);
      EventTotal(front, item) + if last.PickedUp? && last.item == item && last.count > 0 then last.count else 0
  }

  lemma {:induction false} LinesMean(t: Tally, items: seq<Entry>, item: string)
    requires item != "" && Get(t.high, item) >= 0
    ensures var r := LinedAll(t, items);
            && r == t.(baseline := r.baseline, high := r.high)
            && Get(r.high, item) == Max(Get(t.high, item), Highest(items, item))
            && (item in r.high <==> item in t.high || Highest(items, item) > 0)
            && (t.seen ==> r.baseline == t.baseline)
            && (!t.seen && item !in t.baseline ==> Get(r.baseline, item) == LastCount(items, item))
  {
    if items != [] {
      LinesMean(t, items[..|items| - 1], item);
    }
  }

  /** The high-water marks the fold keeps are the larger of the highest sample and the
      event total; the baseline is the first sample's. */
  lemma {:induction false} TallyMeans(trace: seq<Observation>, item: string)
    requires item != ""
    ensures var t := TallyOf(trace);
            && t.seen == HasSample(trace) && (!t.seen ==> t.baseline == map[])
            && Get(t.baseline, item) == Baseline(trace, item)
            && Get(t.totals, item) == EventTotal(trace, item) >= 0
            && Get(t.high, item) == Max(HighestSample(trace, item), EventTotal(trace, item))
            && (item in t.high || item in t.totals <==> HighestSample(trace, item) > 0 || EventTotal(trace, item) > 0)
            && (item in t.totals <==> EventTotal(trace, item) > 0)
  {
    if trace != [] {
      var (front, last) := (trace[..|trace| - 1], trace[|trace| - 1]);
      TallyMeans(front, item);
      assert HasSample(trace) <==> HasSample(front) || last.Sampled? by {
        assert forall i :: 0 <= i < |front| ==> trace[i] == front[i];
      }
      if last.Sampled? {
        LinesMean(TallyOf(front), last.items, item);
      }
    }
  }

  // -- points ------------------------------------------------------------------------------------

  datatype Family = Family(accepted: seq<string>, minimum: nat, distinct: bool, scoreUnit: nat, maxPoints: Option<nat>)

  datatype Requirement = Requirement(slot: Slot, item: string, points: nat)

  datatype Yardstick = Yardstick(families: seq<Family>, equipment: seq<Requirement>)

  function CountPresent(t: Tally, accepted: seq<string>): nat {
    if accepted == [] then 0
    else CountPresent(t, accepted[..|accepted| - 1]) + if Progress(t, accepted[|accepted| - 1]) > 0 then 1 else 0
  }

  function CountAll(t: Tally, accepted: seq<string>): nat {
    if accepted == [] then 0 else CountAll(t, accepted[..|accepted| - 1]) + Progress(t, accepted[|accepted| - 1])
  }

  /** The most a family can give. */
  function Cap(f: Family): nat {
    if f.maxPoints.Some? && f.maxPoints.value != 0 then f.maxPoints.value
    else if f.distinct then f.minimum
    else Max(1, (f.minimum + Max(f.scoreUnit, 1) - 1) / Max(f.scoreUnit, 1))
  }

  function FamilyPoints(t: Tally, f: Family): (r: nat)
    ensures r <= Cap(f)
  {
    var n := if f.distinct then CountPresent(t, f.accepted) else Share(CountAll(t, f.accepted), Max(f.scoreUnit, 1));
    if n < Cap(f) then n else Cap(f)
  }

  /** Full units of `size` in `n`. */
  function Share(n: nat, size: nat): (r: nat)
    requires size > 0
    ensures r * size <= n < (r + 1) * size
  {
    n / size
  }

  function InventoryPoints(t: Tally, families: seq<Family>): nat {
    if families == [] then 0
    else InventoryPoints(t, families[..|families| - 1]) + FamilyPoints(t, families[|families| - 1])
  }

  function EquipmentPoints(t: Tally, equipment: seq<Requirement>): nat {
    if equipment == [] then 0
    else
      var last := equipment[|equipment| - 1];
      EquipmentPoints(t, equipment[..|equipment| - 1]) + if (last.slot, last.item) in t.equipped then last.points else 0
  }

  function Score(y: Yardstick, t: Tally): nat {
    InventoryPoints(t, y.families) + EquipmentPoints(t, y.equipment)
  }

  function CapOf(families: seq<Family>): nat {
    if families == [] then 0 else CapOf(families[..|families| - 1]) + Cap(families[|families| - 1])
  }

  function AllPoints(equipment: seq<Requirement>): nat {
    if equipment == [] then 0 else AllPoints(equipment[..|equipment| - 1]) + equipment[|equipment| - 1].points
  }

  /** The cap of a family without one of its own: the distinct items asked for, or the
      least number of units that reaches the minimum, but at least one. */
  lemma CapIs(f: Family, points: nat)
    ensures f.maxPoints.Some? && f.maxPoints.value > 0 ==> Cap(f) == f.maxPoints.value
    ensures f.maxPoints in {None, Some(0)} && f.distinct ==> Cap(f) == f.minimum
    ensures f.maxPoints in {None, Some(0)} && !f.distinct ==>
              (points >= Cap(f) <==> points >= 1 && points * (if f.scoreUnit == 0 then 1 else f.scoreUnit) >= f.minimum)
  {
    if f.maxPoints in {None, Some(0)} && !f.distinct {
      LeastUnits(f.minimum, Max(f.scoreUnit, 1), points);
    }
  }

  lemma LeastUnits(minimum: nat, unit: nat, points: nat)
    requires unit > 0
    ensures points >= (minimum + unit - 1) / unit <==> points * unit >= minimum
  {
    var least := (minimum + unit - 1) / unit;
    assert least * unit <= minimum + unit - 1 < least * unit + unit;
    if points >= least {
      ProductsGrow(least, points, unit);
    } else {
      ProductsGrow(points + 1, least, unit);
    }
  }

  /** The indices of the accepted items that count for something. */
  function Present(t: Tally, accepted: seq<string>): set<nat> {
    set i: nat | i < |accepted| && Progress(t, accepted[i]) > 0
  }

  lemma {:induction false} CountPresentIs(t: Tally, accepted: seq<string>)
    ensures CountPresent(t, accepted) == |Present(t, accepted)|
  {
    if accepted != [] {
      var n := |accepted| - 1;
      CountPresentIs(t, accepted[..n]);
      var front := Present(t, accepted[..n]);
      assert n !in front;
      assert Present(t, accepted) == if Progress(t, accepted[n]) > 0 then front + {n} else front;
    }
  }

  lemma {:induction false} CountAllIs(t: Tally, accepted: seq<string>, i: nat)
    requires i <= |accepted|
    ensures CountAll(t, []) == 0
    ensures CountAll(t, accepted[..i]) <= CountAll(t, accepted)
    ensures i < |accepted| ==> CountAll(t, accepted[..i + 1]) == CountAll(t, accepted[..i]) + Progress(t, accepted[i])
    decreases |accepted| - i
  {
    if i == |accepted| {
      assert accepted[..i] == accepted;
    } else {
      CountAllIs(t, accepted, i + 1);
      assert accepted[..i + 1][..i] == accepted[..i];
    }
  }

  /** What a family gives, at most its cap: a point for each accepted item that counts for
      something, or one for each full unit of what they count for together. */
  lemma FamilyGives(t: Tally, f: Family)
    ensures var (points, unit) := (FamilyPoints(t, f), if f.scoreUnit == 0 then 1 else f.scoreUnit);
            && points <= Cap(f)
            && (f.distinct ==> points <= |Present(t, f.accepted)|
                               && (points < Cap(f) ==> points == |Present(t, f.accepted)|))
            && (!f.distinct ==> points * unit <= CountAll(t, f.accepted)
                                && (points < Cap(f) ==> CountAll(t, f.accepted) < (points + 1) * unit))
  {
    CountPresentIs(t, f.accepted);
    if !f.distinct {
      var (all, unit) := (CountAll(t, f.accepted), Max(f.scoreUnit, 1));
      ProductsGrow(FamilyPoints(t, f), Share(all, unit), unit);
    }
  }

  // -- what was in hand ------------------------------------------------------------------------------

  /** What a sample shows in a hand. */
  function InHand(o: Observation, slot: Slot): string
    requires o.Sampled?
  {
    match slot case MainHand => o.selected case OffHand => o.offhand
  }

  predicate IsFirstSample(trace: seq<Observation>, i: nat) {
    i < |trace| && trace[i].Sampled? && forall j :: 0 <= j < i ==> trace[j].PickedUp?
  }

  /** Some sample shows the item in that hand, which the first sample did not. */
  predicate NewlyHeld(trace: seq<Observation>, slot: Slot, item: string) {
    exists i: nat, j: nat :: i <= j && IsFirstSample(trace, i) && j < |trace| && trace[j].Sampled?
      && InHand(trace[j], slot) == item && item != InHand(trace[i], slot)
  }

  lemma {:induction false} FirstSampleIs(trace: seq<Observation>)
    ensures TallyOf(trace).seen <==> exists i: nat :: IsFirstSample(trace, i)
    ensures forall i: nat :: IsFirstSample(trace, i) ==>
              TallyOf(trace).selected == trace[i].selected && TallyOf(trace).offhand == trace[i].offhand
  {
    if trace != [] {
      var (front, n) := (trace[..|trace| - 1], |trace| - 1);
      FirstSampleIs(front);
      forall i: nat | i < n ensures IsFirstSample(front, i) <==> IsFirstSample(trace, i) {
        assert forall j :: 0 <= j <= i ==> front[j] == trace[j];
      }
      if trace[n].Sampled? {
        LinesSkipHands(TallyOf(front), trace[n].items);
        if !TallyOf(front).seen {
          NoSampleYet(front);
          assert IsFirstSample(trace, n);
        }
      }
    }
  }

  lemma {:induction false} NoSampleYet(trace: seq<Observation>)
    requires forall i: nat :: !IsFirstSample(trace, i)
    ensures forall j :: 0 <= j < |trace| ==> trace[j].PickedUp?
  {
    if trace != [] {
      var n := |trace| - 1;
      forall i: nat ensures !IsFirstSample(trace[..n], i) {
        assert i < n && IsFirstSample(trace[..n], i) ==> IsFirstSample(trace, i);
      }
      NoSampleYet(trace[..n]);
      assert !IsFirstSample(trace, n);
    }
  }

  lemma {:induction false} LinesSkipHands(t: Tally, items: seq<Entry>)
    ensures var r := LinedAll(t, items);
            r.seen == t.seen && r.selected == t.selected && r.offhand == t.offhand && r.equipped == t.equipped
  {
    if items != [] {
      LinesSkipHands(t, items[..|items| - 1]);
    }
  }

  lemma FirstSampleStays(front: seq<Observation>, o: Observation, i: nat)
    ensures i < |front| ==> (IsFirstSample(front, i) <==> IsFirstSample(front + [o], i))
  {
    assert forall j :: 0 <= j < |front| ==> (front + [o])[j] == front[j];
  }

  lemma NewlyHeldSnoc(front: seq<Observation>, o: Observation, slot: Slot, item: string)
    ensures NewlyHeld(front + [o], slot, item)
            <==> NewlyHeld(front, slot, item)
                 || (o.Sampled? && InHand(o, slot) == item
                     && exists i: nat :: i < |front| && IsFirstSample(front, i) && item != InHand(front[i], slot))
  {
    var trace := front + [o];
    if NewlyHeld(trace, slot, item) {
      var i: nat, j: nat :| i <= j && IsFirstSample(trace, i) && j < |trace| && trace[j].Sampled?
        && InHand(trace[j], slot) == item && item != InHand(trace[i], slot);
      FirstSampleStays(front, o, i);
    }
    if NewlyHeld(front, slot, item) {
      var i: nat, j: nat :| i <= j && IsFirstSample(front, i) && j < |front| && front[j].Sampled?
        && InHand(front[j], slot) == item && item != InHand(front[i], slot);
      FirstSampleStays(front, o, i);
      assert trace[j] == front[j] && trace[i] == front[i];
    }
    if i: nat :| i < |front| && IsFirstSample(front, i) && item != InHand(front[i], slot) {
      FirstSampleStays(front, o, i);
      assert trace[|front|] == o && trace[i] == front[i];
    }
  }

  lemma OneFirstSample(trace: seq<Observation>, i: nat, j: nat)
    requires IsFirstSample(trace, i) && IsFirstSample(trace, j)
    ensures i == j
  {
  }

  /** A hand counts as newly equipped exactly when some sample shows a named item in it
      that the first sample did not show in that hand. */
  lemma {:induction false} EquippedIff(trace: seq<Observation>, slot: Slot, item: string)
    ensures (slot, item) in TallyOf(trace).equipped <==> item != "" && NewlyHeld(trace, slot, item)
  {
    if trace != [] {
      var (front, n) := (trace[..|trace| - 1], |trace| - 1);
      EquippedIff(front, slot, item);
      assert front + [trace[n]] == trace;
      NewlyHeldSnoc(front, trace[n], slot, item);
      FirstSampleIs(front);
      EquippedStep(TallyOf(front), trace[n], slot, item);
    }
  }

  lemma EquippedStep(t: Tally, o: Observation, slot: Slot, item: string)
    ensures (slot, item) in After(t, o).equipped
            <==> (slot, item) in t.equipped
                 || (o.Sampled? && t.seen && item != "" && InHand(o, slot) == item
                     && item != (match slot case MainHand => t.selected case OffHand => t.offhand))
  {
    if o.Sampled? {
      LinesSkipHands(t, o.items);
    }
  }

  /** No trace scores more than the yardstick's caps. */
  lemma ScoreWithinCaps(y: Yardstick, t: Tally)
    ensures Score(y, t) <= CapOf(y.families) + AllPoints(y.equipment)
  {
    InventoryWithinCap(t, y.families);
    EquipmentWithinPoints(t, y.equipment);
  }

  lemma {:induction false} InventoryWithinCap(t: Tally, families: seq<Family>)
    ensures InventoryPoints(t, families) <= CapOf(families)
  {
    if families != [] {
      InventoryWithinCap(t, families[..|families| - 1]);
    }
  }

  lemma {:induction false} EquipmentWithinPoints(t: Tally, equipment: seq<Requirement>)
    ensures EquipmentPoints(t, equipment) <= AllPoints(equipment)
  {
    if equipment != [] {
      EquipmentWithinPoints(t, equipment[..|equipment| - 1]);
    }
  }

  // -- the score only rises --------------------------------------------------------------------------

  ghost predicate Below(a: Tally, b: Tally) {
    (forall item: string :: Progress(a, item) <= Progress(b, item)) && a.equipped <= b.equipped
  }

  lemma {:induction false} CountsRise(a: Tally, b: Tally, accepted: seq<string>)
    requires Below(a, b)
    ensures CountPresent(a, accepted) <= CountPresent(b, accepted) && CountAll(a, accepted) <= CountAll(b, accepted)
  {
    if accepted != [] {
      CountsRise(a, b, accepted[..|accepted| - 1]);
      assert Progress(a, accepted[|accepted| - 1]) <= Progress(b, accepted[|accepted| - 1]);
    }
  }

  lemma ShareRises(m: nat, n: nat, size: nat)
    requires m <= n && size > 0
    ensures Share(m, size) <= Share(n, size)
  {
    if Share(m, size) > Share(n, size) {
      ProductsGrow(Share(n, size) + 1, Share(m, size), size);
    }
  }

  lemma ProductsGrow(a: nat, b: nat, size: nat)
    requires a <= b
    ensures a * size <= b * size
  {
  }

  lemma {:induction false} InventoryRises(a: Tally, b: Tally, families: seq<Family>)
    requires Below(a, b)
    ensures InventoryPoints(a, families) <= InventoryPoints(b, families)
  {
    if families != [] {
      InventoryRises(a, b, families[..|families| - 1]);
      var f := families[|families| - 1];
      CountsRise(a, b, f.accepted);
      ShareRises(CountAll(a, f.accepted), CountAll(b, f.accepted), Max(f.scoreUnit, 1));
    }
  }

  lemma {:induction false} EquipmentRises(a: Tally, b: Tally, equipment: seq<Requirement>)
    requires Below(a, b)
    ensures EquipmentPoints(a, equipment) <= EquipmentPoints(b, equipment)
  {
    if equipment != [] {
      EquipmentRises(a, b, equipment[..|equipment| - 1]);
    }
  }

  lemma NamelessCountsNothing(trace: seq<Observation>)
    ensures "" !in TallyOf(trace).high && "" !in TallyOf(trace).totals
  {
    if trace != [] {
      var (front, last) := (trace[..|trace| - 1], trace[|trace| - 1]);
      NamelessCountsNothing(front);
      if last.Sampled? {
        LinesSkipNameless(TallyOf(front), last.items);
      }
    }
  }

  lemma {:induction false} LinesSkipNameless(t: Tally, items: seq<Entry>)
    requires "" !in t.high
    ensures "" !in LinedAll(t, items).high && LinedAll(t, items).totals == t.totals
    ensures LinedAll(t, items).equipped == t.equipped && LinedAll(t, items).seen == t.seen
  {
    if items != [] {
      LinesSkipNameless(t, items[..|items| - 1]);
    }
  }

  /** Whatever is observed next, no item counts for less -- although the first sample
      sets the baseline that is taken off. */
  lemma TallyRises(trace: seq<Observation>, o: Observation)
    ensures Below(TallyOf(trace), TallyOf(trace + [o]))
  {
    assert (trace + [o])[..|trace|] == trace;
    var (a, b) := (TallyOf(trace), TallyOf(trace + [o]));
    NamelessCountsNothing(trace);
    forall item: string ensures Progress(a, item) <= Progress(b, item) {
      if item != "" {
        TallyMeans(trace, item);
        TallyMeans(trace + [o], item);
        NoSampleNoHeight(trace, item);
      }
    }
    if o.Sampled? {
      LinesSkipNameless(a, o.items);
    }
  }

  lemma {:induction false} NoSampleNoHeight(trace: seq<Observation>, item: string)
    ensures !HasSample(trace) ==> HighestSample(trace, item) == 0 && Baseline(trace, item) == 0
  {
    if trace != [] && !HasSample(trace) {
      assert !HasSample(trace[..|trace| - 1]);
      NoSampleNoHeight(trace[..|trace| - 1], item);
    }
  }

  lemma ScoreRises(y: Yardstick, trace: seq<Observation>, o: Observation)
    ensures Score(y, TallyOf(trace)) <= Score(y, TallyOf(trace + [o]))
  {
    TallyRises(trace, o);
    InventoryRises(TallyOf(trace), TallyOf(trace + [o]), y.families);
    EquipmentRises(TallyOf(trace), TallyOf(trace + [o]), y.equipment);
  }

  // -- reports ------------------------------------------------------------------------------------------

  datatype Report = Report(index: nat, delta: nat, total: nat)

  /** The score after each observation. */
  function Scores(y: Yardstick, trace: seq<Observation>): (r: seq<nat>)
    ensures |r| == |trace|
  {
    if trace == [] then [] else Scores(y, trace[..|trace| - 1]) + [Score(y, TallyOf(trace))]
  }

  function Last(scores: seq<nat>): nat {
    if scores == [] then 0 else scores[|scores| - 1]
  }

  /** A report each time the score exceeds the last one reported. */
  function Reports(scores: seq<nat>): (r: seq<Report>)
    decreases |scores|
  {
    if scores == [] then [] else Extended(Reports(scores[..|scores| - 1]), |scores| - 1, Last(scores))
  }

  function Extended(reports: seq<Report>, index: nat, score: nat): seq<Report> {
    if score > Reported(reports) then reports + [Report(index, score - Reported(reports), score)] else reports
  }

  function Reported(reports: seq<Report>): nat {
    if reports == [] then 0 else reports[|reports| - 1].total
  }

  function DeltaSum(reports: seq<Report>): nat {
    if reports == [] then 0 else DeltaSum(reports[..|reports| - 1]) + reports[|reports| - 1].delta
  }

  predicate Rising(scores: seq<nat>) {
    forall i, j :: 0 <= i <= j < |scores| ==> scores[i] <= scores[j]
  }

  predicate StrictlyRising(reports: seq<Report>) {
    && (forall i :: 0 <= i < |reports| ==> reports[i].delta > 0)
    && (forall i, j :: 0 <= i < j < |reports| ==> reports[i].total < reports[j].total)
  }

  lemma ExtendedFollows(reports: seq<Report>, index: nat, score: nat)
    requires StrictlyRising(reports) && DeltaSum(reports) == Reported(reports) <= score
    ensures var r := Extended(reports, index, score);
            StrictlyRising(r) && DeltaSum(r) == Reported(r) == score
  {
    if score > Reported(reports) {
      assert Extended(reports, index, score)[..|reports|] == reports;
      ReportedIsLargest(reports);
    }
  }

  lemma ReportedIsLargest(reports: seq<Report>)
    requires StrictlyRising(reports)
    ensures forall i :: 0 <= i < |reports| ==> reports[i].total <= Reported(reports)
  {
  }

  lemma LastRises(scores: seq<nat>)
    requires Rising(scores) && scores != []
    ensures Rising(scores[..|scores| - 1]) && Last(scores[..|scores| - 1]) <= Last(scores)
  {
  }

  lemma {:induction false} ReportsFollow(scores: seq<nat>)
    requires Rising(scores)
    ensures DeltaSum(Reports(scores)) == Reported(Reports(scores)) == Last(scores)
    ensures StrictlyRising(Reports(scores))
  {
    if scores != [] {
      LastRises(scores);
      ReportsFollow(scores[..|scores| - 1]);
      ExtendedFollows(Reports(scores[..|scores| - 1]), |scores| - 1, Last(scores));
    }
  }

  lemma {:induction false} ScoresRise(y: Yardstick, trace: seq<Observation>)
    ensures Rising(Scores(y, trace))
    ensures Last(Scores(y, trace)) == Score(y, TallyOf(trace))
  {
    if trace == [] {
      NothingScoresNothing(y);
    } else {
      var front := trace[..|trace| - 1];
      ScoresRise(y, front);
      assert front + [trace[|trace| - 1]] == trace;
      ScoreRises(y, front, trace[|trace| - 1]);
    }
  }

  /** Over every trace the score never falls, the reported deltas are positive and sum
      to the final score, and that stays within the yardstick's caps. */
  lemma DeltasSumToScore(y: Yardstick, trace: seq<Observation>)
    ensures Rising(Scores(y, trace)) && StrictlyRising(Reports(Scores(y, trace)))
    ensures DeltaSum(Reports(Scores(y, trace)))
            == Score(y, TallyOf(trace)) <= CapOf(y.families) + AllPoints(y.equipment)
  {
    ScoresRise(y, trace);
    ReportsFollow(Scores(y, trace));
    ScoreWithinCaps(y, TallyOf(trace));
  }

  lemma NothingScoresNothing(y: Yardstick)
    ensures Score(y, EMPTY) == 0
  {
    NoProgressNoPoints(EMPTY, y.families);
    NoneEquipped(y.equipment);
  }

  lemma {:induction false} NoneEquipped(equipment: seq<Requirement>)
    ensures EquipmentPoints(EMPTY, equipment) == 0
  {
    if equipment != [] {
      NoneEquipped(equipment[..|equipment| - 1]);
    }
  }

  ghost predicate CountsNothing(t: Tally) {
    forall item: string :: Progress(t, item) == 0
  }

  lemma {:induction false} NoProgressNoPoints(t: Tally, families: seq<Family>)
    requires CountsNothing(t)
    ensures InventoryPoints(t, families) == 0
  {
    if families != [] {
      NoProgressNoPoints(t, families[..|families| - 1]);
      NoProgressNoCounts(t, families[|families| - 1].accepted);
    }
  }

  lemma {:induction false} NoProgressNoCounts(t: Tally, accepted: seq<string>)
    requires CountsNothing(t)
    ensures CountPresent(t, accepted) == 0 && CountAll(t, accepted) == 0
  {
    if accepted != [] {
      NoProgressNoCounts(t, accepted[..|accepted| - 1]);
      assert Progress(t, accepted[|accepted| - 1]) == 0;
    }
  }

  // -- what an item can gain --------------------------------------------------------------------------------

  /** The larger of what the samples rose above the baseline and what events brought. */
  function Gain(trace: seq<Observation>, item: string): nat {
    if HighestSample(trace, item) == 0 && EventTotal(trace, item) == 0 then 0
    else Max(0, Max(HighestSample(trace, item) - Baseline(trace, item), EventTotal(trace, item)))
  }

  /** An item counts for its gain, except that a negative baseline is taken off event
      totals too when they exceed every sample. */
  lemma CountsItsGainIff(trace: seq<Observation>, item: string)
    requires item != ""
    ensures Progress(TallyOf(trace), item) == Gain(trace, item)
            <==> Baseline(trace, item) >= 0 || EventTotal(trace, item) <= HighestSample(trace, item)
  {
    TallyMeans(trace, item);
  }

  /** The line shows more of its item than the first sample left as its baseline. */
  predicate Exceeds(trace: seq<Observation>, e: Entry) {
    e.item != "" && e.count > 0 && e.count > Baseline(trace, e.item)
  }

  predicate AnyExceeds(trace: seq<Observation>) {
    exists i, j :: 0 <= i < |trace| && trace[i].Sampled? && 0 <= j < |trace[i].items|
      && Exceeds(trace, trace[i].items[j])
  }

  predicate NoPickups(trace: seq<Observation>) {
    forall i :: 0 <= i < |trace| ==> trace[i].Sampled?
  }

  lemma {:induction false} NoEvents(trace: seq<Observation>, item: string)
    requires NoPickups(trace)
    ensures EventTotal(trace, item) == 0
  {
    if trace != [] {
      NoEvents(trace[..|trace| - 1], item);
    }
  }

  lemma {:induction false} HighestIsALine(items: seq<Entry>, item: string) returns (j: nat)
    requires Highest(items, item) > 0
    ensures j < |items| && items[j] == Entry(item, Highest(items, item))
  {
    var n := |items| - 1;
    if items[n] == Entry(item, Highest(items, item)) {
      j := n;
    } else {
      j := HighestIsALine(items[..n], item);
    }
  }

  lemma {:induction false} HighestSampleIsALine(trace: seq<Observation>, item: string) returns (i: nat, j: nat)
    requires HighestSample(trace, item) > 0
    ensures i < |trace| && trace[i].Sampled? && j < |trace[i].items|
            && trace[i].items[j] == Entry(item, HighestSample(trace, item))
  {
    var n := |trace| - 1;
    if trace[n].Sampled? && Highest(trace[n].items, item) == HighestSample(trace, item) {
      i := n;
      j := HighestIsALine(trace[n].items, item);
    } else {
      i, j := HighestSampleIsALine(trace[..n], item);
    }
  }

  lemma {:induction false} LinesBoundHighest(trace: seq<Observation>, i: nat, j: nat)
    requires i < |trace| && trace[i].Sampled? && j < |trace[i].items|
    ensures trace[i].items[j].count <= HighestSample(trace, trace[i].items[j].item)
  {
    var n := |trace| - 1;
    if i == n {
      assert trace[n].items[j] in trace[n].items;
    } else {
      LinesBoundHighest(trace[..n], i, j);
    }
  }

  /** Without events no item counts for anything exactly when no line of any sample
      exceeds the baseline of its item.  Two lines of one name in the first sample can
      be enough to exceed it. */
  lemma NothingGainedIff(trace: seq<Observation>)
    requires NoPickups(trace)
    ensures CountsNothing(TallyOf(trace)) <==> !AnyExceeds(trace)
  {
    if AnyExceeds(trace) {
      var i, j :| 0 <= i < |trace| && trace[i].Sampled? && 0 <= j < |trace[i].items|
        && Exceeds(trace, trace[i].items[j]);
      var e := trace[i].items[j];
      LinesBoundHighest(trace, i, j);
      TallyMeans(trace, e.item);
      NoEvents(trace, e.item);
      assert Progress(TallyOf(trace), e.item) > 0;
    } else {
      NamelessCountsNothing(trace);
      forall item: string ensures Progress(TallyOf(trace), item) == 0 {
        if item != "" {
          TallyMeans(trace, item);
          NoEvents(trace, item);
          if HighestSample(trace, item) > 0 {
            var i, j := HighestSampleIsALine(trace, item);
            assert !Exceeds(trace, trace[i].items[j]);
          }
        }
      }
    }
  }

  /** So such a trace scores nothing for inventory. */
  lemma StandingStillScoresNothing(y: Yardstick, trace: seq<Observation>)
    requires NoPickups(trace) && !AnyExceeds(trace)
    ensures InventoryPoints(TallyOf(trace), y.families) == 0
  {
    NothingGainedIff(trace);
    NoProgressNoPoints(TallyOf(trace), y.families);
  }

  /** Two lines that normalise to one name: the first sample alone already counts. */
  lemma DuplicateNamesCountAtOnce(item: string)
    requires item != ""
    ensures Progress(TallyOf([Sampled([Entry(item, 5), Entry(item, 3)], "", "")]), item) == 2
  {
    var items := [Entry(item, 5), Entry(item, 3)];
    var trace := [Sampled(items, "", "")];
    assert items[..1] == [Entry(item, 5)] && items[..1][..0] == [] && trace[..0] == [];
    TallyMeans(trace, item);
    assert Highest(items[..1], item) == 5;
  }

  // -- the loop ----------------------------------------------------------------------------------------------

  /** One observation further. */
  lemma OneMore(y: Yardstick, trace: seq<Observation>, i: nat)
    requires i < |trace|
    ensures TallyOf(trace[..i + 1]) == After(TallyOf(trace[..i]), trace[i])
    ensures Reports(Scores(y, trace[..i + 1]))
            == Extended(Reports(Scores(y, trace[..i])), i, Score(y, TallyOf(trace[..i + 1])))
  {
    var prefix := trace[..i + 1];
    assert prefix[..i] == trace[..i] && prefix[i] == trace[i];
    var scores := Scores(y, prefix);
    assert scores[..i] == Scores(y, trace[..i]);
  }

  method Observe(t: Tally, o: Observation) returns (r: Tally)
    ensures r == After(t, o)
  {
    match o
    case Sampled(items, selected, offhand) =>
      r := CountLines(t, items);
      r := Held(r, selected, offhand);
    case PickedUp(item, count) => r := Pickup(t, item, count);
  }

  method Note(reports: seq<Report>, previous: nat, index: nat, score: nat) returns (r: seq<Report>, last: nat)
    requires previous == Reported(reports)
    ensures r == Extended(reports, index, score) && last == Reported(r)
  {
    r, last := reports, previous;
    if score > previous {
      r, last := r + [Report(index, score - previous, score)], score;
    }
  }

  /** `_effective_output_signal`'s loop over the observations. */
  method Evaluate(y: Yardstick, trace: seq<Observation>) returns (reports: seq<Report>, total: nat)
    ensures reports == Reports(Scores(y, trace)) && total == Score(y, TallyOf(trace))
  {
    var t := EMPTY;
    var previous := 0;
    reports, total := [], 0;
    NothingScoresNothing(y);
    for i := 0 to |trace|
      invariant t == TallyOf(trace[..i]) && total == Score(y, t)
      invariant reports == Reports(Scores(y, trace[..i])) && previous == Reported(reports)
    {
      OneMore(y, trace, i);
      t := Observe(t, trace[i]);
      total := Score(y, t);
      reports, previous := Note(reports, previous, i, total);
    }
    assert trace[..|trace|] == trace;
  }

  method CountLines(t: Tally, items: seq<Entry>) returns (r: Tally)
    ensures r == LinedAll(t, items)
  {
    r := t;
    for i := 0 to |items|
      invariant r == LinedAll(t, items[..i])
    {
      assert items[..i + 1][..i] == items[..i];
      var e := items[i];
      if e.item != "" {
        var counted := r;
        if !t.seen {
          r := r.(baseline := r.baseline[e.item := e.count]);
        }
        if e.count > Get(counted.high, e.item) {
          r := r.(high := r.high[e.item := e.count]);
        }
        LinesKeepSeen(t, items[..i]);
      }
    }
    assert items[..|items|] == items;
  }

  lemma {:induction false} LinesKeepSeen(t: Tally, items: seq<Entry>)
    ensures LinedAll(t, items).seen == t.seen
  {
    if items != [] {
      LinesKeepSeen(t, items[..|items| - 1]);
    }
  }
}
