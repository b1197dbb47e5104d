/** World evidence for one cuboid construction (`cuboid_cells`, `read_construction`):
    the box's cells in order, read in batches and told apart. */
module ConstructionFacts {
  import opened Options
  import opened Positions

  const MAX_CELLS: nat := 4096
  const BATCH: nat := 128

  /** An anchor corner and a size, which the program does not check. */
  datatype Box = Box(low: Pos, size: Pos) {
    predicate Holds(p: Pos) {
      && low.x <= p.x < low.x + size.x && low.y <= p.y < low.y + size.y && low.z <= p.z < low.z + size.z
    }

    function Expected(): int { size.x * size.y * size.z }
  }

  function AtLeastZero(n: int): nat {
    if n < 0 then 0 else n
  }

  // -- the cells of a box, x before y before z -----------------------------------------------------

  function Column(b: Box, x: int, y: int, n: nat): (r: seq<Pos>)
    ensures |r| == n && forall k :: 0 <= k < n ==> r[k] == Pos(x, y, b.low.z + k)
  {
    if n == 0 then [] else Column(b, x, y, n - 1) + [Pos(x, y, b.low.z + n - 1)]
  }

  function Slab(b: Box, x: int, n: nat): seq<Pos> {
    if n == 0 then [] else Slab(b, x, n - 1) + Column(b, x, b.low.y + n - 1, AtLeastZero(b.size.z))
  }

  function Slabs(b: Box, n: nat): seq<Pos> {
    if n == 0 then [] else Slabs(b, n - 1) + Slab(b, b.low.x + n - 1, AtLeastZero(b.size.y))
  }

  /** Every cell of the box. */
  function AllCells(b: Box): seq<Pos> {
    Slabs(b, AtLeastZero(b.size.x))
  }

  predicate Before(a: Pos, b: Pos) {
    a.x < b.x || (a.x == b.x && (a.y < b.y || (a.y == b.y && a.z < b.z)))
  }

  predicate Ordered(cells: seq<Pos>) {
    forall i, j :: 0 <= i < j < |cells| ==> Before(cells[i], cells[j])
  }

  /** The cells are the box's, each once and in order. */
  ghost predicate Covers(cells: seq<Pos>, b: Box) {
    Ordered(cells) && forall p :: p in cells <==> b.Holds(p)
  }

  lemma OrderedTogether(a: seq<Pos>, b: seq<Pos>)
    requires Ordered(a) && Ordered(b) && forall p, q :: p in a && q in b ==> Before(p, q)
    ensures Ordered(a + b)
  {
    forall i, j | 0 <= i < j < |a + b| ensures Before((a + b)[i], (a + b)[j]) {
      if i < |a| <= j {
        assert a[i] in a && b[j - |a|] in b;
      }
    }
  }

  /** Two boxes side by side make one. */
  lemma CoverTogether(a: seq<Pos>, first: Box, c: seq<Pos>, second: Box, whole: Box)
    requires Covers(a, first) && Covers(c, second)
    requires forall p, q :: first.Holds(p) && second.Holds(q) ==> Before(p, q)
    requires forall p :: whole.Holds(p) <==> first.Holds(p) || second.Holds(p)
    ensures Covers(a + c, whole)
  {
    OrderedTogether(a, c);
  }

  lemma ColumnCells(b: Box, x: int, y: int, n: nat)
    ensures Covers(Column(b, x, y, n), Box(Pos(x, y, b.low.z), Pos(1, 1, n)))
  {
    var (cells, column) := (Column(b, x, y, n), Box(Pos(x, y, b.low.z), Pos(1, 1, n)));
    forall p: Pos | column.Holds(p) ensures p in cells {
      assert cells[p.z - b.low.z] == p;
    }
  }

  lemma {:induction false} SlabCells(b: Box, x: int, n: nat)
    ensures Covers(Slab(b, x, n), Box(Pos(x, b.low.y, b.low.z), Pos(1, n, b.size.z)))
  {
    if n > 0 {
      var (y, z) := (b.low.y + n - 1, AtLeastZero(b.size.z));
      SlabCells(b, x, n - 1);
      ColumnCells(b, x, y, z);
      CoverTogether(Slab(b, x, n - 1), Box(Pos(x, b.low.y, b.low.z), Pos(1, n - 1, b.size.z)),
                    Column(b, x, y, z), Box(Pos(x, y, b.low.z), Pos(1, 1, z)),
                    Box(Pos(x, b.low.y, b.low.z), Pos(1, n, b.size.z)));
    }
  }

  lemma {:induction false} SlabsCells(b: Box, n: nat)
    ensures Covers(Slabs(b, n), Box(b.low, Pos(n, b.size.y, b.size.z)))
  {
    if n > 0 {
      var (x, y) := (b.low.x + n - 1, AtLeastZero(b.size.y));
      SlabsCells(b, n - 1);
      SlabCells(b, x, y);
      CoverTogether(Slabs(b, n - 1), Box(b.low, Pos(n - 1, b.size.y, b.size.z)),
                    Slab(b, x, y), Box(Pos(x, b.low.y, b.low.z), Pos(1, y, b.size.z)),
                    Box(b.low, Pos(n, b.size.y, b.size.z)));
    }
  }

  lemma OneRowMore(n: nat, row: nat)
    ensures (n + 1) * row == n * row + row
  {
  }

  lemma {:induction false} SlabLength(b: Box, x: int, n: nat)
    ensures |Slab(b, x, n)| == n * AtLeastZero(b.size.z)
  {
    if n > 0 {
      SlabLength(b, x, n - 1);
      OneRowMore(n - 1, AtLeastZero(b.size.z));
    }
  }

  lemma {:induction false} SlabsLength(b: Box, n: nat)
    ensures |Slabs(b, n)| == n * (AtLeastZero(b.size.y) * AtLeastZero(b.size.z))
  {
    if n > 0 {
      var slab := AtLeastZero(b.size.y) * AtLeastZero(b.size.z);
      assert |Slabs(b, n)| == |Slabs(b, n - 1)| + slab by {
        SlabLength(b, b.low.x + n - 1, AtLeastZero(b.size.y));
      }
      SlabsLength(b, n - 1);
      OneRowMore(n - 1, slab);
    }
  }

  /** All the cells: each position of the box once, in lexicographic order. */
  lemma AllCellsAreTheBox(b: Box)
    ensures Covers(AllCells(b), b)
    ensures |AllCells(b)| == AtLeastZero(b.size.x) * (AtLeastZero(b.size.y) * AtLeastZero(b.size.z))
  {
    SlabsCells(b, AtLeastZero(b.size.x));
    SlabsLength(b, AtLeastZero(b.size.x));
  }

  // -- the capped loop ------------------------------------------------------------------------------

  function Capped(cells: seq<Pos>): seq<Pos> {
    if |cells| <= MAX_CELLS then cells else cells[..MAX_CELLS]
  }

  lemma {:induction false} SlabGrows(b: Box, x: int, m: nat, n: nat)
    requires m <= n
    ensures Slab(b, x, m) <= Slab(b, x, n)
  {
    if m < n {
      SlabGrows(b, x, m, n - 1);
    }
  }

  lemma {:induction false} SlabsGrow(b: Box, m: nat, n: nat)
    requires m <= n
    ensures Slabs(b, m) <= Slabs(b, n)
  {
    if m < n {
      SlabsGrow(b, m, n - 1);
    }
  }

  lemma {:induction false} ColumnGrows(b: Box, x: int, y: int, m: nat, n: nat)
    requires m <= n
    ensures Column(b, x, y, m) <= Column(b, x, y, n)
  {
  }

  /** What the loop has listed is always a beginning of all the cells. */
  lemma ListedIsABeginning(b: Box, i: nat, j: nat, k: nat)
    requires i < AtLeastZero(b.size.x) && j < AtLeastZero(b.size.y) && k <= AtLeastZero(b.size.z)
    ensures Slabs(b, i) + Slab(b, b.low.x + i, j) + Column(b, b.low.x + i, b.low.y + j, k) <= AllCells(b)
  {
    var (x, y) := (b.low.x + i, b.low.y + j);
    ColumnGrows(b, x, y, k, AtLeastZero(b.size.z));
    SlabGrows(b, x, j + 1, AtLeastZero(b.size.y));
    SlabsGrow(b, i + 1, AtLeastZero(b.size.x));
    PrefixUnder(Slab(b, x, j), Column(b, x, y, k), Slab(b, x, j + 1), Slab(b, x, AtLeastZero(b.size.y)));
    assert Slabs(b, i) + (Slab(b, x, j) + Column(b, x, y, k)) == Slabs(b, i) + Slab(b, x, j) + Column(b, x, y, k);
    PrefixUnder(Slabs(b, i), Slab(b, x, j) + Column(b, x, y, k), Slabs(b, i + 1), AllCells(b));
  }

  lemma PrefixUnder(a: seq<Pos>, c: seq<Pos>, whole: seq<Pos>, all: seq<Pos>)
    requires a + c <= whole <= all
    ensures a + c <= all
  {
  }

  /** The loops' list after whole slabs, whole columns and a part of one. */
  function Listed(b: Box, i: nat, j: nat, k: nat): seq<Pos> {
    Slabs(b, i) + Slab(b, b.low.x + i, j) + Column(b, b.low.x + i, b.low.y + j, k)
  }

  lemma ListingSteps(b: Box, i: nat, j: nat, k: nat)
    ensures Listed(b, i, j, k) + [Pos(b.low.x + i, b.low.y + j, b.low.z + k)] == Listed(b, i, j, k + 1)
    ensures Listed(b, i, j, AtLeastZero(b.size.z)) == Listed(b, i, j + 1, 0)
    ensures Listed(b, i, AtLeastZero(b.size.y), 0) == Listed(b, i + 1, 0, 0)
    ensures Listed(b, 0, 0, 0) == [] && Listed(b, i, 0, 0) == Slabs(b, i)
  {
  }

  method ListColumn(b: Box, i: nat, j: nat, before: seq<Pos>) returns (cells: seq<Pos>)
    requires i < AtLeastZero(b.size.x) && j < AtLeastZero(b.size.y) && before == Listed(b, i, j, 0)
             && |before| < MAX_CELLS
    ensures if |cells| >= MAX_CELLS then cells == Capped(AllCells(b)) else cells == Listed(b, i, j + 1, 0)
  {
    cells := before;
    for k := 0 to AtLeastZero(b.size.z)
      invariant cells == Listed(b, i, j, k) && |cells| < MAX_CELLS
    {
      ListingSteps(b, i, j, k);
      cells := cells + [Pos(b.low.x + i, b.low.y + j, b.low.z + k)];
      if |cells| >= MAX_CELLS {
        ListedIsABeginning(b, i, j, k + 1);
        return cells;
      }
    }
    ListingSteps(b, i, j, 0);
  }

  /** The three loops, left as soon as the cap is reached. */
  method CuboidCells(b: Box) returns (cells: seq<Pos>)
    ensures cells == Capped(AllCells(b))
  {
    cells := [];
    ListingSteps(b, 0, 0, 0);
    for i := 0 to AtLeastZero(b.size.x)
      invariant cells == Listed(b, i, 0, 0) && |cells| < MAX_CELLS
    {
      for j := 0 to AtLeastZero(b.size.y)
        invariant cells == Listed(b, i, j, 0) && |cells| < MAX_CELLS
      {
        cells := ListColumn(b, i, j, cells);
        if |cells| >= MAX_CELLS {
          return cells;
        }
      }
      ListingSteps(b, i, 0, 0);
    }
    ListingSteps(b, AtLeastZero(b.size.x), 0, 0);
  }

  /** The listed cells: cells of the box, each once, in order, and none left out before
      the last one listed. */
  lemma CappedCells(b: Box)
    ensures var cells := Capped(AllCells(b));
            && Ordered(cells) && (forall p :: p in cells ==> b.Holds(p))
            && |cells| == (if |AllCells(b)| < MAX_CELLS then |AllCells(b)| else MAX_CELLS)
            && forall p :: b.Holds(p) && p !in cells ==> |cells| == MAX_CELLS && forall q :: q in cells ==> Before(q, p)
  {
    AllCellsAreTheBox(b);
    var (all, cells) := (AllCells(b), Capped(AllCells(b)));
    forall p, q | b.Holds(p) && p !in cells && q in cells ensures Before(q, p) {
      assert p in all;
      assert forall k :: 0 <= k < |cells| ==> all[k] == cells[k] && cells[k] in cells;
      var i :| 0 <= i < |all| && all[i] == p;
      var j :| 0 <= j < |cells| && cells[j] == q;
    }
  }

  // -- reading ---------------------------------------------------------------------------------------

  /** What one read tells of one cell: `blockType` is None when it is not a string. */
  datatype Fact = Fact(unknown: bool, blockType: Option<string>, fits: bool)

  /** How the read of a batch ended; a failed read brings no facts. */
  datatype Read = OutOfTime | Facts(facts: map<Pos, Fact>)

  datatype Class = Matched | Remaining | Unknown

  datatype Evidence = Evidence(matched: seq<Pos>, remaining: seq<Pos>, unknown: seq<Pos>, expected: int, unread: nat,
                               complete: bool)

  function ClassIn(facts: map<Pos, Fact>, p: Pos): Class {
    if p !in facts || facts[p].unknown || facts[p].blockType.None? then Unknown
    else if facts[p].fits then Matched else Remaining
  }

  /** Some batch up to this one found the time used up. */
  predicate Late(answers: nat -> Read, batch: nat) {
    exists n :: 0 <= n <= batch && answers(n).OutOfTime?
  }

  /** What becomes of the k-th cell. */
  function ClassOf(answers: nat -> Read, cells: seq<Pos>, k: nat): Class
    requires k < |cells|
  {
    if Late(answers, k / BATCH) then Unknown
    else match answers(k / BATCH) case Facts(facts) => ClassIn(facts, cells[k]) case OutOfTime => Unknown
  }

  /** The first `n` cells of one class, in order. */
  function Those(answers: nat -> Read, cells: seq<Pos>, n: nat, c: Class): seq<Pos>
    requires n <= |cells|
  {
    if n == 0 then []
    else Those(answers, cells, n - 1, c) + if ClassOf(answers, cells, n - 1) == c then [cells[n - 1]] else []
  }

  function EvidenceOf(b: Box, answers: nat -> Read): Evidence {
    var cells := Capped(AllCells(b));
    var unknown := Those(answers, cells, |cells|, Unknown);
    Evidence(Those(answers, cells, |cells|, Matched), Those(answers, cells, |cells|, Remaining), unknown, b.Expected(),
             AtLeastZero(b.Expected() - |cells|), unknown == [] && b.Expected() == |cells|)
  }

  lemma {:induction false} LateRest(answers: nat -> Read, cells: seq<Pos>, m: nat, n: nat)
    requires m <= n <= |cells| && m % BATCH == 0 && answers(m / BATCH).OutOfTime?
    ensures Those(answers, cells, n, Unknown) == Those(answers, cells, m, Unknown) + cells[m..n]
    ensures Those(answers, cells, n, Matched) == Those(answers, cells, m, Matched)
    ensures Those(answers, cells, n, Remaining) == Those(answers, cells, m, Remaining)
  {
    if m < n {
      LateRest(answers, cells, m, n - 1);
      assert (n - 1) / BATCH >= m / BATCH;
      assert Late(answers, (n - 1) / BATCH);
      assert cells[m..n] == cells[m..n - 1] + [cells[n - 1]];
    }
  }

  /** Batch by batch, until one finds the time used up. */
  method TellApart(cells: seq<Pos>, answers: nat -> Read)
      returns (matched: seq<Pos>, remaining: seq<Pos>, unknown: seq<Pos>)
    ensures Sorted(answers, cells, |cells|, matched, remaining, unknown)
  {
    matched, remaining, unknown := [], [], [];
    var start: nat := 0;
    while start < |cells|
      invariant start % BATCH == 0
      invariant forall n :: 0 <= n < start / BATCH ==> !answers(n).OutOfTime?
      invariant Sorted(answers, cells, Least(start, |cells|), matched, remaining, unknown)
    {
      if answers(start / BATCH).OutOfTime? {
        LateRest(answers, cells, start, |cells|);
        unknown := unknown + cells[start..];
        return;
      }
      matched, remaining, unknown := ReadBatch(answers, cells, start, matched, remaining, unknown);
      start := start + BATCH;
    }
  }

  method ReadConstruction(b: Box, answers: nat -> Read) returns (r: Evidence)
    ensures r == EvidenceOf(b, answers)
  {
    var cells := CuboidCells(b);
    var matched, remaining, unknown := TellApart(cells, answers);
    r := Evidence(matched, remaining, unknown, b.Expected(), AtLeastZero(b.Expected() - |cells|),
                  unknown == [] && b.Expected() == |cells|);
  }

  function Least(a: nat, b: nat): nat {
    if a < b then a else b
  }

  /** The first `n` cells are told apart. */
  predicate Sorted(answers: nat -> Read, cells: seq<Pos>, n: nat, matched: seq<Pos>, remaining: seq<Pos>,
                   unknown: seq<Pos>)
    requires n <= |cells|
  {
    && matched == Those(answers, cells, n, Matched) && remaining == Those(answers, cells, n, Remaining)
    && unknown == Those(answers, cells, n, Unknown)
  }

  method ReadBatch(answers: nat -> Read, cells: seq<Pos>, start: nat, m: seq<Pos>, r: seq<Pos>, u: seq<Pos>)
    returns (matched: seq<Pos>, remaining: seq<Pos>, unknown: seq<Pos>)
    requires start < |cells| && start % BATCH == 0 && answers(start / BATCH).Facts?
    requires forall n :: 0 <= n < start / BATCH ==> !answers(n).OutOfTime?
    requires Sorted(answers, cells, start, m, r, u)
    ensures Sorted(answers, cells, Least(start + BATCH, |cells|), matched, remaining, unknown)
  {
    var facts := answers(start / BATCH).facts;
    matched, remaining, unknown := m, r, u;
    for k := start to Least(start + BATCH, |cells|)
      invariant Sorted(answers, cells, k, matched, remaining, unknown)
    {
      InBatch(start, k);
      match ClassIn(facts, cells[k]) {
        case Unknown => unknown := unknown + [cells[k]];
        case Matched => matched := matched + [cells[k]];
        case Remaining => remaining := remaining + [cells[k]];
      }
    }
  }

  lemma InBatch(start: nat, k: nat)
    requires start % BATCH == 0 && start <= k < start + BATCH
    ensures k / BATCH == start / BATCH
  {
  }

  // -- the partition -----------------------------------------------------------------------------------

  lemma {:induction false} ThoseAreThat(answers: nat -> Read, cells: seq<Pos>, n: nat, c: Class)
    requires n <= |cells| && Ordered(cells)
    ensures Ordered(Those(answers, cells, n, c))
    ensures forall p ::
              p in Those(answers, cells, n, c) <==>
              exists k :: 0 <= k < n && cells[k] == p && ClassOf(answers, cells, k) == c
  {
    if n > 0 {
      ThoseAreThat(answers, cells, n - 1, c);
      if ClassOf(answers, cells, n - 1) == c {
        OrderedTogether(Those(answers, cells, n - 1, c), [cells[n - 1]]);
      }
    }
  }

  lemma {:induction false} ThoseAddUp(answers: nat -> Read, cells: seq<Pos>, n: nat)
    requires n <= |cells|
    ensures |Those(answers, cells, n, Matched)| + |Those(answers, cells, n, Remaining)|
            + |Those(answers, cells, n, Unknown)| == n
  {
    if n > 0 {
      ThoseAddUp(answers, cells, n - 1);
    }
  }

  /** The batch of the k-th cell was read in time, as were all before it. */
  predicate ReadInTime(answers: nat -> Read, k: nat) {
    forall n :: 0 <= n <= k / BATCH ==> answers(n).Facts?
  }

  /** The read of its batch says what stands at the k-th cell. */
  predicate Known(answers: nat -> Read, cells: seq<Pos>, k: nat)
    requires k < |cells|
  {
    && ReadInTime(answers, k) && cells[k] in answers(k / BATCH).facts
    && !answers(k / BATCH).facts[cells[k]].unknown && answers(k / BATCH).facts[cells[k]].blockType.Some?
  }

  /** Where a listed cell ends up, told by the reads: matched exactly when what is known
      of it fits, remaining exactly when it does not, unknown exactly when nothing is
      known of it. */
  lemma ReadsDecideIff(b: Box, answers: nat -> Read, k: nat)
    requires k < |Capped(AllCells(b))|
    ensures var (e, cells) := (EvidenceOf(b, answers), Capped(AllCells(b)));
            && (cells[k] in e.matched <==> Known(answers, cells, k) && answers(k / BATCH).facts[cells[k]].fits)
            && (cells[k] in e.remaining <==> Known(answers, cells, k) && !answers(k / BATCH).facts[cells[k]].fits)
            && (cells[k] in e.unknown <==> !Known(answers, cells, k))
  {
    CappedCells(b);
    var cells := Capped(AllCells(b));
    assert Late(answers, k / BATCH) <==> !ReadInTime(answers, k);
    forall c: Class ensures cells[k] in Those(answers, cells, |cells|, c) <==> ClassOf(answers, cells, k) == c {
      ThoseAreThat(answers, cells, |cells|, c);
      assert forall j :: 0 <= j < |cells| && cells[j] == cells[k] ==> j == k;
    }
  }

  /** However the reads end, every listed cell is in exactly one class. */
  lemma EachCellOnce(b: Box, answers: nat -> Read, p: Pos)
    ensures var (e, listed) := (EvidenceOf(b, answers), p in Capped(AllCells(b)));
            && (listed <==> p in e.matched || p in e.remaining || p in e.unknown)
            && !(p in e.matched && p in e.remaining) && !(p in e.matched && p in e.unknown)
            && !(p in e.remaining && p in e.unknown)
            && Ordered(e.matched) && Ordered(e.remaining) && Ordered(e.unknown)
  {
    CappedCells(b);
    var cells := Capped(AllCells(b));
    forall c: Class ensures Ordered(Those(answers, cells, |cells|, c)) {
      ThoseAreThat(answers, cells, |cells|, c);
    }
    ThoseAreThat(answers, cells, |cells|, Matched);
    ThoseAreThat(answers, cells, |cells|, Remaining);
    ThoseAreThat(answers, cells, |cells|, Unknown);
  }

  lemma ListedOrNone(b: Box)
    ensures b.size.x >= 0 && b.size.y >= 0 && b.size.z >= 0 ==> |AllCells(b)| == b.Expected()
    ensures b.size.x < 0 || b.size.y < 0 || b.size.z < 0 ==> AllCells(b) == []
  {
    AllCellsAreTheBox(b);
    if b.size.x >= 0 && b.size.y >= 0 && b.size.z >= 0 {
      assert b.size.x * (b.size.y * b.size.z) == b.Expected();
    }
  }

  /** The counts add up to the box's volume exactly when that volume, as computed from
      the size given, is not negative. */
  lemma CountsAddUpIff(b: Box, answers: nat -> Read)
    ensures var e := EvidenceOf(b, answers);
            |e.matched| + |e.remaining| + |e.unknown| + e.unread == e.expected <==> e.expected >= 0
  {
    var cells := Capped(AllCells(b));
    ThoseAddUp(answers, cells, |cells|);
    ListedOrNone(b);
    CappedCells(b);
  }

  lemma AllListedIff(b: Box)
    ensures (forall p :: b.Holds(p) ==> p in Capped(AllCells(b))) <==> |AllCells(b)| <= MAX_CELLS
  {
    AllCellsAreTheBox(b);
    var (cells, all) := (Capped(AllCells(b)), AllCells(b));
    if |all| > MAX_CELLS {
      var p := all[MAX_CELLS];
      assert forall j :: 0 <= j < MAX_CELLS ==> Before(all[j], all[MAX_CELLS]);
      assert forall q :: q in cells ==> Before(q, p);
      assert p in all && p !in cells;
    }
  }

  lemma NoneUnknownIff(b: Box, answers: nat -> Read)
    ensures var e := EvidenceOf(b, answers);
            e.unknown == [] <==> forall p :: p in Capped(AllCells(b)) ==> p in e.matched || p in e.remaining
  {
    var e := EvidenceOf(b, answers);
    forall p: Pos ensures p in Capped(AllCells(b)) && p !in e.matched && p !in e.remaining <==> p in e.unknown {
      EachCellOnce(b, answers, p);
    }
    assert e.unknown != [] ==> e.unknown[0] in e.unknown;
  }

  /** For a box of real size, the evidence is complete exactly when every position of
      the box is classified as matched or remaining. */
  lemma CompleteIff(b: Box, answers: nat -> Read)
    requires b.size.x >= 0 && b.size.y >= 0 && b.size.z >= 0
    ensures var e := EvidenceOf(b, answers);
            e.complete <==> forall p :: b.Holds(p) ==> p in e.matched || p in e.remaining
  {
    ListedOrNone(b);
    AllListedIff(b);
    NoneUnknownIff(b, answers);
    CappedCells(b);
    forall p: Pos {
      EachCellOnce(b, answers, p);
    }
  }
}
