/** The one Decision request channel (`DecisionClient`): a priority queue served by
    one worker, with an epoch that makes overtaken answers stale. */
module DecisionClient {
  import opened Options

  datatype Request = Request(priority: int, sequence: nat, epoch: nat)

  /** How a caller's future ended: with an answer, or nobody waited any more. */
  datatype Outcome = Answer(choice: string, stale: bool) | Nobody

  const UNKNOWN := Answer("unknown", true)

  /** `inflight` is the field the priorities are compared with; `posting` is the
      request the worker really has outside.  They part when a worker is cancelled. */
  datatype Client = Client(pending: seq<Request>, inflight: Option<Request>, posting: Option<Request>, working: bool,
                           sequence: nat, epoch: nat, closed: bool, abandoned: set<nat>, outcomes: map<nat, Outcome>)

  const FRESH := Client([], None, None, false, 0, 0, false, {}, map[])

  datatype Step =
    | Ask(priority: int)
    | Abandon(id: nat)             // the caller stops waiting
    | Take                         // the worker pops the queue
    | Finish(choice: string)       // the worker's request returns; "unknown" when it failed
    | CancelWorker
    | Close

  // -- steps -------------------------------------------------------------------------------

  /** Resolve a future unless it is already done. */
  function Resolve(c: Client, id: nat, answer: Outcome): Client {
    if id in c.outcomes then c
    else c.(outcomes := c.outcomes[id := if id in c.abandoned then Nobody else answer])
  }

  function ResolveAll(c: Client, requests: seq<Request>): Client {
    if requests == [] then c
    else Resolve(ResolveAll(c, requests[..|requests| - 1]), requests[|requests| - 1].sequence, UNKNOWN)
  }

  function AtLeast(queue: seq<Request>, priority: int): seq<Request> {
    if queue == [] then []
    else
      var last := queue[|queue| - 1];
      AtLeast(queue[..|queue| - 1], priority) + if last.priority >= priority then [last] else []
  }

  function Below(queue: seq<Request>, priority: int): seq<Request> {
    if queue == [] then []
    else
      var last := queue[|queue| - 1];
      Below(queue[..|queue| - 1], priority) + if last.priority < priority then [last] else []
  }

  predicate Before(a: Request, b: Request) {
    a.priority > b.priority || (a.priority == b.priority && a.sequence < b.sequence)
  }

  function Insert(sorted: seq<Request>, r: Request): seq<Request> {
    if sorted == [] || !Before(r, sorted[|sorted| - 1]) then sorted + [r]
    else Insert(sorted[..|sorted| - 1], r) + [sorted[|sorted| - 1]]
  }

  /** The queue sorted by (-priority, sequence). */
  function Sorted(queue: seq<Request>): seq<Request> {
    if queue == [] then [] else Insert(Sorted(queue[..|queue| - 1]), queue[|queue| - 1])
  }

  function Overtakes(c: Client, priority: int): bool {
    c.inflight.Some? && priority > c.inflight.value.priority
  }

  /** The next sequence number; overtaking the request in flight starts a new epoch. */
  function Issued(c: Client, priority: int): Client {
    c.(sequence := c.sequence + 1, epoch := if Overtakes(c, priority) then c.epoch + 1 else c.epoch)
  }

  function Apply(c: Client, step: Step): Client {
    match step
    case Ask(priority) =>
      if c.closed then c
      else
        var issued := Issued(c, priority);
        var request := Request(priority, issued.sequence, issued.epoch);
        ResolveAll(issued, Below(c.pending, priority)).(
          pending := Sorted(AtLeast(c.pending, priority) + [request]), working := true)
    case Abandon(id) => if id in c.outcomes then c else c.(abandoned := c.abandoned + {id})
    case Take =>
      if !c.working || c.posting.Some? || c.pending == [] then c
      else c.(pending := c.pending[1..], inflight := Some(c.pending[0]), posting := Some(c.pending[0]))
    case Finish(choice) =>
      if c.posting.None? then c
      else
        var r := c.posting.value;
        var done := Resolve(c, r.sequence, if r.epoch != c.epoch then UNKNOWN else Answer(choice, false));
        done.(inflight := None, posting := None, working := !(c.closed && c.pending == []))
    case CancelWorker =>
      if !c.working then c
      else
        var done := if c.posting.Some? then Resolve(c, c.posting.value.sequence, UNKNOWN) else c;
        done.(posting := None, working := false)
    case Close =>
      ResolveAll(c.(closed := true), c.pending).(pending := [], working := c.working && c.posting.Some?)
  }

  // -- the class ----------------------------------------------------------------------------

  class Channel {
    var pending: seq<Request>
    var inflight: Option<Request>
    var posting: Option<Request>
    var working: bool
    var sequence: nat
    var epoch: nat
    var closed: bool
    var abandoned: set<nat>
    var outcomes: map<nat, Outcome>

    ghost function Abs(): Client reads this {
      Client(pending, inflight, posting, working, sequence, epoch, closed, abandoned, outcomes)
    }

    constructor ()
      ensures Abs() == FRESH
    {
      pending, inflight, posting, working := [], None, None, false;
      sequence, epoch, closed, abandoned, outcomes := 0, 0, false, {}, map[];
    }

    method SetResult(id: nat, answer: Outcome)
      modifies this`outcomes
      ensures Abs() == Resolve(old(Abs()), id, answer)
    {
      if id !in outcomes {
        outcomes := outcomes[id := if id in abandoned then Nobody else answer];
      }
    }

    method AskFor(priority: int)
      modifies this
      ensures Abs() == Apply(old(Abs()), Ask(priority))
    {
      if closed {
        return;
      }
      sequence := sequence + 1;
      if inflight.Some? && priority > inflight.value.priority {
        epoch := epoch + 1;
      }
      assert Abs() == Issued(old(Abs()), priority);
      var retained := DropBelow(priority);
      ResolvesOnly(Issued(old(Abs()), priority), Below(pending, priority));
      Enqueue(retained, priority);
    }

    method Enqueue(retained: seq<Request>, priority: int)
      modifies this`pending, this`working
      ensures Abs() == old(Abs()).(pending := Sorted(retained + [Request(priority, sequence, epoch)]), working := true)
    {
      pending := Sorted(retained + [Request(priority, sequence, epoch)]);
      working := true;
    }

    /** Queued requests below a priority are obsolete: their callers get "unknown". */
    method DropBelow(priority: int) returns (retained: seq<Request>)
      modifies this`outcomes
      ensures retained == AtLeast(pending, priority)
      ensures Abs() == ResolveAll(old(Abs()), Below(pending, priority))
    {
      ghost var was := Abs();
      retained := [];
      for i := 0 to |pending|
        invariant retained == AtLeast(pending[..i], priority)
        invariant Abs() == ResolveAll(was, Below(pending[..i], priority))
      {
        assert pending[..i + 1][..i] == pending[..i];
        if pending[i].priority < priority {
          SetResult(pending[i].sequence, UNKNOWN);
          assert (Below(pending[..i], priority) + [pending[i]])[..|Below(pending[..i], priority)|]
                 == Below(pending[..i], priority);
        } else {
          retained := retained + [pending[i]];
          assert Below(pending[..i], priority) + [] == Below(pending[..i], priority);
        }
      }
      assert pending[..|pending|] == pending;
    }

    method AbandonCall(id: nat)
      modifies this`abandoned
      ensures Abs() == Apply(old(Abs()), Abandon(id))
    {
      if id !in outcomes {
        abandoned := abandoned + {id};
      }
    }

    method TakeNext()
      modifies this
      ensures Abs() == Apply(old(Abs()), Take)
    {
      if working && posting.None? && pending != [] {
        var request := pending[0];
        pending := pending[1..];
        inflight, posting := Some(request), Some(request);
      }
    }

    method FinishWith(choice: string)
      modifies this
      ensures Abs() == Apply(old(Abs()), Finish(choice))
    {
      if posting.None? {
        return;
      }
      var request := posting.value;
      var answer := Answer(choice, false);
      if request.epoch != epoch {
        answer := UNKNOWN;
      }
      SetResult(request.sequence, answer);
      inflight, posting := None, None;
      working := !(closed && pending == []);
    }

    method CancelRunning()
      modifies this
      ensures Abs() == Apply(old(Abs()), CancelWorker)
    {
      if !working {
        return;
      }
      if posting.Some? {
        SetResult(posting.value.sequence, UNKNOWN);
      }
      posting, working := None, false;
    }

    method CloseChannel()
      modifies this
      ensures Abs() == Apply(old(Abs()), Close)
    {
      closed := true;
      ghost var was := Abs();
      for i := 0 to |pending|
        invariant Abs() == ResolveAll(was, pending[..i])
        modifies this`outcomes
      {
        assert pending[..i + 1][..i] == pending[..i];
        SetResult(pending[i].sequence, UNKNOWN);
      }
      assert pending[..|pending|] == pending;
      pending := [];
      working := working && posting.Some?;
    }
  }

  lemma {:induction false} ResolvesOnly(c: Client, requests: seq<Request>)
    ensures ResolveAll(c, requests) == c.(outcomes := ResolveAll(c, requests).outcomes)
  {
    if requests != [] {
      ResolvesOnly(c, requests[..|requests| - 1]);
    }
  }

  // -- what every run keeps ---------------------------------------------------------------------

  function Run(c: Client, steps: seq<Step>): Client
    decreases |steps|
  {
    if steps == [] then c else Run(Apply(c, steps[0]), steps[1..])
  }

  /** The queue never goes up in priority and always goes up in sequence. */
  predicate Ordered(queue: seq<Request>) {
    forall i, j :: 0 <= i < j < |queue| ==>
      queue[i].priority >= queue[j].priority && queue[i].sequence < queue[j].sequence
  }

  predicate Queued(c: Client, id: nat) {
    exists r :: r in c.pending && r.sequence == id
  }

  predicate Posted(c: Client, id: nat) {
    c.posting.Some? && c.posting.value.sequence == id
  }

  ghost predicate Valid(c: Client) {
    && Ordered(c.pending)
    && (forall r :: r in c.pending ==> 1 <= r.sequence <= c.sequence && r.epoch <= c.epoch)
    && (c.posting.Some? ==>
          && c.working && c.inflight == c.posting
          && 1 <= c.posting.value.sequence <= c.sequence && c.posting.value.epoch <= c.epoch)
    && (c.closed ==> c.pending == [])
    && (forall id :: id in c.outcomes ==> 1 <= id <= c.sequence)
    && (forall id: nat :: 1 <= id <= c.sequence ==> Queued(c, id) || Posted(c, id) || id in c.outcomes)
    && (forall id: nat :: Queued(c, id) ==> !Posted(c, id) && id !in c.outcomes)
    && (forall id: nat :: Posted(c, id) ==> id !in c.outcomes)
  }

  lemma InsertLast(sorted: seq<Request>, r: Request)
    requires sorted == [] || !Before(r, sorted[|sorted| - 1])
    ensures Insert(sorted, r) == sorted + [r]
  {
  }

  /** Which of two requests comes first: the higher priority, among equals the older. */
  predicate InOrder(a: Request, b: Request) {
    a.priority > b.priority || (a.priority == b.priority && a.sequence <= b.sequence)
  }

  predicate AllInOrder(queue: seq<Request>) {
    forall i, j :: 0 <= i < j < |queue| ==> InOrder(queue[i], queue[j])
  }

  lemma {:induction false} InsertSorts(sorted: seq<Request>, r: Request)
    requires AllInOrder(sorted)
    ensures AllInOrder(Insert(sorted, r)) && multiset(Insert(sorted, r)) == multiset(sorted) + multiset{r}
  {
    if sorted != [] && Before(r, sorted[|sorted| - 1]) {
      var (front, last) := (sorted[..|sorted| - 1], sorted[|sorted| - 1]);
      InsertSorts(front, r);
      assert sorted == front + [last];
      forall q | q in Insert(front, r) ensures InOrder(q, last) {
        assert q in multiset(front) + multiset{r};
      }
    } else {
      forall i | 0 <= i < |sorted| ensures InOrder(sorted[i], r) {
        assert InOrder(sorted[i], sorted[|sorted| - 1]);
      }
    }
  }

  /** The sort gives the same requests, in order. */
  lemma {:induction false} SortedSorts(queue: seq<Request>)
    ensures AllInOrder(Sorted(queue)) && multiset(Sorted(queue)) == multiset(queue)
  {
    if queue != [] {
      var n := |queue| - 1;
      SortedSorts(queue[..n]);
      InsertSorts(Sorted(queue[..n]), queue[n]);
      assert queue == queue[..n] + [queue[n]];
    }
  }

  /** On an ordered queue sorting changes nothing. */
  lemma {:induction false} SortNeverReorders(queue: seq<Request>)
    requires Ordered(queue)
    ensures Sorted(queue) == queue
  {
    if queue != [] {
      var n := |queue| - 1;
      SortNeverReorders(queue[..n]);
      assert n > 0 ==> queue[..n][n - 1] == queue[n - 1] && !Before(queue[n], queue[n - 1]);
      InsertLast(queue[..n], queue[n]);
      assert queue[..n] + [queue[n]] == queue;
    }
  }

  lemma {:induction false} AtLeastMembers(queue: seq<Request>, priority: int)
    ensures forall r :: r in AtLeast(queue, priority) <==> r in queue && r.priority >= priority
    ensures forall r :: r in Below(queue, priority) <==> r in queue && r.priority < priority
    ensures Ordered(queue) ==> Ordered(AtLeast(queue, priority))
  {
    if queue != [] {
      AtLeastMembers(queue[..|queue| - 1], priority);
    }
  }

  lemma {:induction false} ResolveAllOutcomes(c: Client, requests: seq<Request>)
    ensures var d := ResolveAll(c, requests);
            && (forall id :: id in c.outcomes ==> id in d.outcomes && d.outcomes[id] == c.outcomes[id])
            && (forall id :: id in d.outcomes ==> id in c.outcomes || exists r :: r in requests && r.sequence == id)
            && (forall r :: r in requests ==> r.sequence in d.outcomes)
            && (forall id :: id in d.outcomes && id !in c.outcomes ==>
                d.outcomes[id] == UNKNOWN || d.outcomes[id] == Nobody)
  {
    if requests != [] {
      ResolveAllOutcomes(c, requests[..|requests| - 1]);
      ResolvesOnly(c, requests[..|requests| - 1]);
    }
  }

  // -- one step at a time ----------------------------------------------------------------------------

  /** Asking keeps the queue ordered as it stands: the sort has nothing to do. */
  lemma AskAppends(c: Client, priority: int)
    requires Ordered(c.pending) && forall r :: r in c.pending ==> r.sequence <= c.sequence
    ensures var request := Request(priority, c.sequence + 1, Issued(c, priority).epoch);
            var queue := AtLeast(c.pending, priority) + [request];
            Ordered(queue) && Sorted(queue) == queue
  {
    AtLeastMembers(c.pending, priority);
    var kept := AtLeast(c.pending, priority);
    forall i | 0 <= i < |kept| ensures kept[i].priority >= priority && kept[i].sequence <= c.sequence {
      assert kept[i] in kept;
    }
    SortNeverReorders(kept + [Request(priority, c.sequence + 1, Issued(c, priority).epoch)]);
  }

  lemma OneOfEachSequence(queue: seq<Request>, a: Request, b: Request)
    requires Ordered(queue) && a in queue && b in queue && a.sequence == b.sequence
    ensures a == b
  {
    var i, j :| 0 <= i < |queue| && 0 <= j < |queue| && queue[i] == a && queue[j] == b;
    assert i < j || j < i || i == j;
  }

  /** The state after a question, in the terms the invariant uses. */
  lemma AskShape(c: Client, priority: int)
    requires Valid(c) && !c.closed
    ensures var d, request := Apply(c, Ask(priority)), Request(priority, c.sequence + 1, Issued(c, priority).epoch);
            && Ordered(d.pending)
            && (forall r :: r in d.pending <==> r == request || (r in c.pending && r.priority >= priority))
            && (d.sequence, d.epoch) == (c.sequence + 1, Issued(c, priority).epoch)
            && (d.posting, d.inflight, d.closed) == (c.posting, c.inflight, c.closed) && d.working
            && (forall id :: id in d.outcomes <==>
                  id in c.outcomes || exists r :: r in c.pending && r.priority < priority && r.sequence == id)
  {
    var issued, obsolete := Issued(c, priority), Below(c.pending, priority);
    AskAppends(c, priority);
    AtLeastMembers(c.pending, priority);
    ResolvesOnly(issued, obsolete);
    ResolveAllOutcomes(issued, obsolete);
    forall id | exists r :: r in c.pending && r.priority < priority && r.sequence == id
      ensures id in ResolveAll(issued, obsolete).outcomes
    {
      var r :| r in c.pending && r.priority < priority && r.sequence == id;
      assert r in obsolete;
    }
  }

  lemma AskKeepsValid(c: Client, priority: int)
    requires Valid(c)
    ensures Valid(Apply(c, Ask(priority)))
  {
    if !c.closed {
      var d := Apply(c, Ask(priority));
      AskShape(c, priority);
      var request := Request(priority, c.sequence + 1, Issued(c, priority).epoch);
      assert request in d.pending;
      forall id: nat | 1 <= id <= d.sequence ensures Queued(d, id) || Posted(d, id) || id in d.outcomes {
        if id <= c.sequence && Queued(c, id) {
          var r :| r in c.pending && r.sequence == id;
          assert r.priority >= priority ==> r in d.pending;
        }
      }
      forall id: nat | Queued(d, id) ensures !Posted(d, id) && id !in d.outcomes {
        var r :| r in d.pending && r.sequence == id;
        if r != request {
          assert Queued(c, id);
          if q :| q in c.pending && q.priority < priority && q.sequence == id {
            OneOfEachSequence(c.pending, q, r);
          }
        }
      }
      forall id: nat | Posted(d, id) ensures id !in d.outcomes {
        assert Posted(c, id) && !Queued(c, id);
      }
    }
  }

  lemma TakeKeepsValid(c: Client)
    requires Valid(c)
    ensures Valid(Apply(c, Take))
  {
    var d := Apply(c, Take);
    if d != c {
      PoppedIsGone(c.pending);
      var first := c.pending[0];
      assert Queued(c, first.sequence);
      assert forall id: nat :: Queued(c, id) <==> id == first.sequence || Queued(d, id);
      assert forall id: nat :: Posted(d, id) <==> id == first.sequence;
      assert !Queued(d, first.sequence);
    }
  }

  lemma PoppedIsGone(queue: seq<Request>)
    requires Ordered(queue) && queue != []
    ensures Ordered(queue[1..])
    ensures forall r :: r in queue <==> r == queue[0] || r in queue[1..]
    ensures forall r :: r in queue[1..] ==> r.sequence != queue[0].sequence
  {
    forall r | r in queue[1..] ensures r.sequence != queue[0].sequence {
      var i :| 0 <= i < |queue[1..]| && queue[1..][i] == r;
      assert queue[0].sequence < queue[i + 1].sequence;
    }
  }

  lemma CloseShape(c: Client)
    requires Valid(c)
    ensures var d := Apply(c, Close);
            && d.closed && d.pending == [] && (d.sequence, d.epoch) == (c.sequence, c.epoch)
            && (d.posting, d.inflight) == (c.posting, c.inflight) && (c.posting.Some? ==> d.working)
            && (forall id :: id in d.outcomes <==> id in c.outcomes || exists r :: r in c.pending && r.sequence == id)
  {
    ResolvesOnly(c.(closed := true), c.pending);
    ResolveAllOutcomes(c.(closed := true), c.pending);
  }

  lemma CloseKeepsValid(c: Client)
    requires Valid(c)
    ensures Valid(Apply(c, Close))
  {
    var d := Apply(c, Close);
    CloseShape(c);
    assert forall id: nat :: id in d.outcomes <==> id in c.outcomes || Queued(c, id);
    assert forall id: nat :: Posted(d, id) == Posted(c, id);
    assert forall id: nat :: !Queued(d, id);
  }

  lemma WorkerKeepsValid(c: Client, step: Step)
    requires Valid(c) && (step.Finish? || step.CancelWorker? || step.Abandon?)
    ensures Valid(Apply(c, step))
  {
    var d := Apply(c, step);
    if d.posting == c.posting {
      SameQueueIsValid(c, d);
    } else {
      AnsweredIsValid(c, d);
    }
  }

  lemma SameQueueIsValid(c: Client, d: Client)
    requires Valid(c) && (d.posting.Some? ==> d.working)
    requires d == c.(working := d.working, abandoned := d.abandoned, outcomes := c.outcomes)
    ensures Valid(d)
  {
    assert forall id: nat :: Queued(d, id) == Queued(c, id) && Posted(d, id) == Posted(c, id);
  }

  /** The request that was outside has got its answer. */
  lemma AnsweredIsValid(c: Client, d: Client)
    requires Valid(c) && c.posting.Some? && d.posting.None?
    requires d == c.(inflight := d.inflight, posting := None, working := d.working, outcomes := d.outcomes)
    requires d.outcomes.Keys == c.outcomes.Keys + {c.posting.value.sequence}
    ensures Valid(d)
  {
    assert Posted(c, c.posting.value.sequence);
    assert forall id: nat :: Queued(d, id) == Queued(c, id);
    assert forall id: nat :: Posted(c, id) <==> id == c.posting.value.sequence;
  }

  lemma StepKeepsValid(c: Client, step: Step)
    requires Valid(c)
    ensures Valid(Apply(c, step))
  {
    match step
    case Ask(priority) => AskKeepsValid(c, priority);
    case Take => TakeKeepsValid(c);
    case Close => CloseKeepsValid(c);
    case _ => WorkerKeepsValid(c, step);
  }

  /** A request that was answered stays answered, with that answer; nothing is
      un-issued, reopened or taken back. */
  lemma StepOnlyAdds(c: Client, step: Step)
    ensures var d := Apply(c, step);
            && c.sequence <= d.sequence && c.epoch <= d.epoch && (c.closed ==> d.closed)
            && forall id :: id in c.outcomes ==> id in d.outcomes && d.outcomes[id] == c.outcomes[id]
  {
    match step
    case Ask(priority) =>
      ResolvesOnly(Issued(c, priority), Below(c.pending, priority));
      ResolveAllOutcomes(Issued(c, priority), Below(c.pending, priority));
    case Close =>
      ResolvesOnly(c.(closed := true), c.pending);
      ResolveAllOutcomes(c.(closed := true), c.pending);
    case _ =>
  }

  // -- whole runs ---------------------------------------------------------------------------------------

  /** In every reachable state the queue is in order, every issued request is in
      exactly one of queued, posted or answered, and answers never change. */
  lemma {:induction false} RunsKeepValid(c: Client, steps: seq<Step>)
    requires Valid(c)
    ensures Valid(Run(c, steps))
    ensures forall id :: id in c.outcomes ==>
              id in Run(c, steps).outcomes && Run(c, steps).outcomes[id] == c.outcomes[id]
    ensures c.closed ==> Run(c, steps).closed && Run(c, steps).sequence == c.sequence
    decreases |steps|
  {
    if steps != [] {
      StepKeepsValid(c, steps[0]);
      StepOnlyAdds(c, steps[0]);
      if c.closed && steps[0].Close? {
        ResolvesOnly(c, c.pending);
      }
      RunsKeepValid(Apply(c, steps[0]), steps[1..]);
    }
  }

  lemma EveryRequestIsInOnePlace(steps: seq<Step>, id: nat)
    requires 1 <= id <= Run(FRESH, steps).sequence
    ensures var c := Run(FRESH, steps);
            && Ordered(c.pending)
            && (Queued(c, id) || Posted(c, id) || id in c.outcomes)
            && !(Queued(c, id) && Posted(c, id)) && !(Queued(c, id) && id in c.outcomes)
            && !(Posted(c, id) && id in c.outcomes)
  {
    RunsKeepValid(FRESH, steps);
  }

  /** What is sent next.  In every run, when the worker takes up a request, every other
      one that was queued has a lower priority, or the same and was asked later; and
      exactly the others stay queued, in order. */
  lemma TheMostUrgentIsServed(before: seq<Step>, step: Step, r: Request)
    requires var (c, d) := (Run(FRESH, before), Apply(Run(FRESH, before), step));
             d.posting == Some(r) && c.posting != d.posting
    ensures var (c, d) := (Run(FRESH, before), Apply(Run(FRESH, before), step));
            && r in c.pending
            && (forall q :: q in c.pending && q != r ==>
                  r.priority > q.priority || (r.priority == q.priority && r.sequence < q.sequence))
            && (forall q :: q in d.pending <==> q in c.pending && q != r)
            && Ordered(d.pending)
  {
    var c := Run(FRESH, before);
    RunsKeepValid(FRESH, before);
    PostedByTake(c, step);
    PoppedIsGone(c.pending);
    forall q | q in c.pending && q != r
      ensures r.priority > q.priority || (r.priority == q.priority && r.sequence < q.sequence)
    {
      var i :| 0 <= i < |c.pending| && c.pending[i] == q;
      assert i > 0;
    }
  }

  /** What a question drops, and what closing drops, ends as "unknown" for whoever still
      waits; a question drops exactly the queued requests of lower priority. */
  lemma DroppedAreUnknown(c: Client, step: Step, r: Request)
    requires Valid(c) && !c.closed && r in c.pending && (step.Ask? || step.Close?)
    ensures var d := Apply(c, step);
            if step.Close? || r.priority < step.priority
            then r !in d.pending && r.sequence in d.outcomes
                 && d.outcomes[r.sequence] == if r.sequence in c.abandoned then Nobody else Answer("unknown", true)
            else r in d.pending && r.sequence !in d.outcomes
  {
    assert Queued(c, r.sequence);
    match step
    case Ask(priority) =>
      AskShape(c, priority);
      ResolveAllAnswersWaiters(Issued(c, priority), Below(c.pending, priority));
      ResolveAllOutcomes(Issued(c, priority), Below(c.pending, priority));
      if r.priority >= priority && r.sequence in Apply(c, step).outcomes {
        var q :| q in c.pending && q.priority < priority && q.sequence == r.sequence;
        OneOfEachSequence(c.pending, q, r);
      }
    case Close =>
      CloseShape(c);
      ResolveAllAnswersWaiters(c.(closed := true), c.pending);
      ResolveAllOutcomes(c.(closed := true), c.pending);
  }

  /** No other step takes up a request. */
  lemma PostedByTake(c: Client, step: Step)
    requires Apply(c, step).posting.Some? && Apply(c, step).posting != c.posting
    ensures step.Take? && c.working && c.posting.None? && c.pending != []
  {
    match step
    case Ask(priority) => ResolvesOnly(Issued(c, priority), Below(c.pending, priority));
    case Close => ResolvesOnly(c.(closed := true), c.pending);
    case _ =>
  }

  /** A request the epoch has left behind can only end as "unknown". */
  lemma {:induction false} OvertakenStaysStale(c: Client, r: Request, steps: seq<Step>)
    requires Valid(c) && r.epoch < c.epoch
    requires c.posting == Some(r) || Stale(c, r.sequence)
    ensures var d := Run(c, steps);
            d.posting == Some(r) || Stale(d, r.sequence)
    decreases |steps|
  {
    if steps != [] {
      var d := Apply(c, steps[0]);
      StepKeepsValid(c, steps[0]);
      StepOnlyAdds(c, steps[0]);
      if c.posting == Some(r) {
        assert Posted(c, r.sequence);
        match steps[0] {
          case Ask(priority) => ResolvesOnly(Issued(c, priority), Below(c.pending, priority));
          case Close => ResolvesOnly(c.(closed := true), c.pending);
          case _ =>
        }
      }
      OvertakenStaysStale(d, r, steps[1..]);
    }
  }

  /** A request overtaken in flight by a strictly higher priority is never answered
      with a real choice, whatever happens afterwards. */
  lemma OvertakenInFlightIsUnknown(before: seq<Step>, priority: int, after: seq<Step>)
    requires var c := Run(FRESH, before);
             !c.closed && c.posting.Some? && priority > c.posting.value.priority
    ensures var r := Run(FRESH, before).posting.value;
            var d := Run(Apply(Run(FRESH, before), Ask(priority)), after);
            d.posting == Some(r) || Stale(d, r.sequence)
  {
    var c := Run(FRESH, before);
    RunsKeepValid(FRESH, before);
    StepKeepsValid(c, Ask(priority));
    ResolvesOnly(Issued(c, priority), Below(c.pending, priority));
    OvertakenStaysStale(Apply(c, Ask(priority)), c.posting.value, after);
  }

  lemma ClosedIsValid(before: seq<Step>)
    ensures var c := Apply(Run(FRESH, before), Close); Valid(c) && c.closed
  {
    RunsKeepValid(FRESH, before);
    StepKeepsValid(Run(FRESH, before), Close);
    ResolvesOnly(Run(FRESH, before).(closed := true), Run(FRESH, before).pending);
  }

  lemma ClosedAnswers(d: Client, choice: string, id: nat)
    requires Valid(d) && d.closed && 1 <= id <= d.sequence
    ensures d.posting.None? ==> id in d.outcomes
    ensures id in Apply(d, Finish(choice)).outcomes
  {
    assert d.pending == [] && !Queued(d, id);
  }

  /** Once a closed channel's worker is out of its request nothing is unanswered, and
      that takes at most the one request already outside. */
  lemma CloseDrains(before: seq<Step>, after: seq<Step>, choice: string, id: nat)
    requires var d := Run(Apply(Run(FRESH, before), Close), after);
             1 <= id <= d.sequence
    ensures var d := Run(Apply(Run(FRESH, before), Close), after);
            && (d.posting.None? ==> id in d.outcomes)
            && id in Apply(d, Finish(choice)).outcomes
  {
    var c := Apply(Run(FRESH, before), Close);
    ClosedIsValid(before);
    RunsKeepValid(c, after);
    ClosedAnswers(Run(c, after), choice, id);
  }

  // -- who still waits, and who works ------------------------------------------------------------------------

  lemma AbandonIs(c: Client, id: nat)
    ensures Apply(c, Abandon(id)) == if id in c.outcomes then c else c.(abandoned := c.abandoned + {id})
  {
  }

  /** Nobody answers a caller that stopped waiting, and nobody else goes without one. */
  predicate AnswersWaiters(c: Client, d: Client) {
    && c.abandoned <= d.abandoned
    && forall id :: id in d.outcomes && id !in c.outcomes ==> (d.outcomes[id] == Nobody <==> id in c.abandoned)
  }

  lemma {:induction false} ResolveAllAnswersWaiters(c: Client, requests: seq<Request>)
    ensures AnswersWaiters(c, ResolveAll(c, requests)) && ResolveAll(c, requests).abandoned == c.abandoned
  {
    if requests != [] {
      ResolveAllAnswersWaiters(c, requests[..|requests| - 1]);
    }
  }

  lemma StepAnswersWaiters(c: Client, step: Step)
    ensures AnswersWaiters(c, Apply(c, step))
    ensures forall id :: id in Apply(c, step).abandoned && id !in c.abandoned ==> id !in c.outcomes
    ensures Apply(c, step).abandoned == c.abandoned || Apply(c, step).outcomes == c.outcomes
  {
    match step
    case Ask(priority) => ResolveAllAnswersWaiters(Issued(c, priority), Below(c.pending, priority));
    case Close => ResolveAllAnswersWaiters(c.(closed := true), c.pending);
    case _ =>
  }

  /** Over every run a request ends with no answer at all exactly when its caller had
      stopped waiting before there was one. */
  lemma {:induction false} NobodyIffAbandoned(c: Client, steps: seq<Step>, id: nat)
    requires id in c.outcomes ==> (c.outcomes[id] == Nobody <==> id in c.abandoned)
    ensures var d := Run(c, steps); id in d.outcomes ==> (d.outcomes[id] == Nobody <==> id in d.abandoned)
    decreases |steps|
  {
    if steps != [] {
      NobodyAfterStep(c, steps[0], id);
      NobodyIffAbandoned(Apply(c, steps[0]), steps[1..], id);
    }
  }

  lemma NobodyAfterStep(c: Client, step: Step, id: nat)
    requires id in c.outcomes ==> (c.outcomes[id] == Nobody <==> id in c.abandoned)
    ensures var d := Apply(c, step); id in d.outcomes ==> (d.outcomes[id] == Nobody <==> id in d.abandoned)
  {
    StepOnlyAdds(c, step);
    StepAnswersWaiters(c, step);
  }

  /** As long as no worker is cancelled there is one exactly from the first question until
      a closed channel has drained, and the priorities are compared with what it really
      has outside. */
  predicate Served(c: Client) {
    && c.inflight == c.posting
    && (c.working <==> c.sequence > 0 && !(c.closed && c.pending == [] && c.posting.None?))
  }

  lemma {:induction false} QueueIsServed(c: Client, steps: seq<Step>)
    requires Valid(c) && Served(c) && CancelWorker !in steps
    ensures Served(Run(c, steps))
    decreases |steps|
  {
    if steps != [] {
      StepKeepsValid(c, steps[0]);
      StepKeepsServed(c, steps[0]);
      QueueIsServed(Apply(c, steps[0]), steps[1..]);
    }
  }

  lemma StepKeepsServed(c: Client, step: Step)
    requires Valid(c) && Served(c) && !step.CancelWorker?
    ensures Served(Apply(c, step))
  {
    match step
    case Ask(priority) => if !c.closed { AskShape(c, priority); }
    case Close => CloseShape(c);
    case _ =>
  }

  /** A cancelled worker answers its request with "unknown" and is gone; what priorities
      are compared with stays until the next request is taken up. */
  lemma CancelIs(c: Client)
    requires Valid(c)
    ensures var d := Apply(c, CancelWorker);
            && !d.working && d.posting.None? && (d.inflight, d.pending, d.closed) == (c.inflight, c.pending, c.closed)
            && (c.posting.Some? ==> Stale(d, c.posting.value.sequence))
  {
    assert c.posting.Some? ==> Posted(c, c.posting.value.sequence);
  }

  // -- which answers are real ---------------------------------------------------------------------------

  /** The step is a question that overtakes what is in flight. */
  predicate OvertakingAsk(c: Client, step: Step) {
    step.Ask? && !c.closed && c.inflight.Some? && c.inflight.value.priority < step.priority
  }

  predicate NeverOvertaken(c: Client, steps: seq<Step>)
    decreases |steps|
  {
    steps == [] || (!OvertakingAsk(c, steps[0]) && NeverOvertaken(Apply(c, steps[0]), steps[1..]))
  }

  lemma EpochStep(c: Client, step: Step)
    ensures Apply(c, step).epoch == if OvertakingAsk(c, step) then c.epoch + 1 else c.epoch
  {
    match step
    case Ask(priority) => ResolvesOnly(Issued(c, priority), Below(c.pending, priority));
    case Close => ResolvesOnly(c.(closed := true), c.pending);
    case _ =>
  }

  lemma {:induction false} EpochStandsIff(c: Client, steps: seq<Step>)
    ensures c.epoch <= Run(c, steps).epoch
    ensures Run(c, steps).epoch == c.epoch <==> NeverOvertaken(c, steps)
    decreases |steps|
  {
    if steps != [] {
      EpochStep(c, steps[0]);
      EpochStandsIff(Apply(c, steps[0]), steps[1..]);
    }
  }

  /** A request of the current epoch -- as every request is when it is asked -- gets the
      answer it was given, once its turn comes, if and only if its caller still waits
      and no question in between overtook what was in flight, whichever request that
      was. */
  lemma AnswerIsRealIff(c: Client, r: Request, steps: seq<Step>, choice: string)
    requires Valid(c) && r.epoch == c.epoch && Run(c, steps).posting == Some(r)
    ensures var outcomes := Apply(Run(c, steps), Finish(choice)).outcomes;
            && r.sequence in outcomes
            && (outcomes[r.sequence] == Answer(choice, false)
                <==> NeverOvertaken(c, steps) && r.sequence !in Run(c, steps).abandoned)
  {
    RunsKeepValid(c, steps);
    EpochStandsIff(c, steps);
    assert Posted(Run(c, steps), r.sequence);
  }

  lemma AskedInTheCurrentEpoch(c: Client, priority: int)
    requires Valid(c) && !c.closed
    ensures var (d, r) := (Apply(c, Ask(priority)), Request(priority, c.sequence + 1, Issued(c, priority).epoch));
            Valid(d) && r in d.pending && r.epoch == d.epoch
  {
    AskShape(c, priority);
    AskKeepsValid(c, priority);
  }

  /** The rule "only a request overtaken itself goes stale" does not hold.  Of these
      four steps the last overtakes the first request, in flight; the second, of higher
      priority than either, is left behind in the queue. */
  const LEAVING_BEHIND := [Ask(1), Take, Ask(5), Ask(3)]

  lemma RunTwo(c: Client, d: Client, e: Client, first: Step, second: Step, rest: seq<Step>)
    requires d == Apply(c, first) && e == Apply(d, second)
    ensures Run(c, [first, second] + rest) == Run(e, rest)
  {
    var steps := [first, second] + rest;
    assert steps[0] == first && steps[1..] == [second] + rest && steps[1..][1..] == rest;
    assert Run(c, steps) == Run(d, [second] + rest);
  }

  lemma AskOfEmpty(c: Client, priority: int)
    requires c.pending == [] && !c.closed
    ensures var r := Request(priority, c.sequence + 1, Issued(c, priority).epoch);
            Apply(c, Ask(priority)) == Issued(c, priority).(pending := [r], working := true)
  {
    var r := Request(priority, c.sequence + 1, Issued(c, priority).epoch);
    assert AtLeast([], priority) + [r] == [r];
    SortedOne(r);
  }

  lemma SortedOne(r: Request)
    ensures Sorted([r]) == [r]
  {
    assert [r][..0] == [] && [] + [r] == [r];
    assert Sorted([]) == [];
  }

  lemma AskBelowQueued(c: Client, queued: Request, priority: int)
    requires c.pending == [queued] && queued.priority >= priority && !c.closed
    ensures var d := Apply(c, Ask(priority));
            queued in d.pending && d.epoch == Issued(c, priority).epoch && d.outcomes == c.outcomes
  {
    var r := Request(priority, c.sequence + 1, Issued(c, priority).epoch);
    assert [queued][..0] == [];
    assert AtLeast([queued], priority) == [queued] && Below([queued], priority) == [];
    SortedKeeps([queued] + [r], queued);
  }

  lemma {:induction false} SortedKeeps(queue: seq<Request>, r: Request)
    requires r in queue
    ensures r in Sorted(queue)
  {
    var n := |queue| - 1;
    InsertKeeps(Sorted(queue[..n]), queue[n]);
    if r in queue[..n] {
      SortedKeeps(queue[..n], r);
    }
  }

  lemma {:induction false} InsertKeeps(sorted: seq<Request>, r: Request)
    ensures forall x :: x in sorted || x == r ==> x in Insert(sorted, r)
  {
    if sorted != [] && Before(r, sorted[|sorted| - 1]) {
      InsertKeeps(sorted[..|sorted| - 1], r);
    }
  }

  const TAKEN := FRESH.(inflight := Some(Request(1, 1, 0)), posting := Some(Request(1, 1, 0)), working := true,
                        sequence := 1)

  const ASKED := TAKEN.(pending := [Request(5, 2, 1)], sequence := 2, epoch := 1)

  lemma TakenThenAsked()
    ensures Apply(Apply(FRESH, Ask(1)), Take) == TAKEN
    ensures Apply(TAKEN, Ask(5)) == ASKED
  {
    AskOfEmpty(FRESH, 1);
    assert [Request(1, 1, 0)][1..] == [];
    AskOfEmpty(TAKEN, 5);
  }

  lemma QueuedAnswersGoStaleToo()
    ensures var c := Run(FRESH, LEAVING_BEHIND);
            Request(5, 2, 1) in c.pending && c.epoch == 2 && c.posting == Some(Request(1, 1, 0))
  {
    TakenThenAsked();
    RunTwo(FRESH, Apply(FRESH, Ask(1)), TAKEN, Ask(1), Take, [Ask(5), Ask(3)]);
    RunTwo(TAKEN, ASKED, Apply(ASKED, Ask(3)), Ask(5), Ask(3), []);
    assert LEAVING_BEHIND == [Ask(1), Take] + [Ask(5), Ask(3)] && [Ask(5), Ask(3)] == [Ask(5), Ask(3)] + [];
    AskBelowQueued(ASKED, Request(5, 2, 1), 3);
    ResolvesOnly(Issued(ASKED, 3), Below(ASKED.pending, 3));
  }

  /** Once left behind, a request is answered "unknown" when its turn comes, however
      good the answer. */
  lemma LeftBehindIsUnknown(c: Client, r: Request, steps: seq<Step>, choice: string)
    requires Valid(c) && r.epoch < c.epoch && Run(c, steps).posting == Some(r)
    ensures Stale(Apply(Run(c, steps), Finish(choice)), r.sequence)
  {
    EpochStandsIff(c, steps);
    RunsKeepValid(c, steps);
    assert Posted(Run(c, steps), r.sequence);
  }

  predicate Stale(c: Client, id: nat) {
    id in c.outcomes && (c.outcomes[id] == UNKNOWN || c.outcomes[id] == Nobody)
  }
}
