/** One model response's tool batch becomes one progress commit
    (`ProgressEpochAdapter`): members are claimed and settled one by one, and the
    epoch is committed when the last one is settled. */
module ProgressEpochAdapter {
  import opened Options
  import opened ProgressAuthority
  import Recovery = ProgressRecovery

  // -- collapsing an epoch's steps ----------------------------------------------------------------

  /** A step the authority accepts. */
  type Accepted = s: Step | WellTyped(s) witness Step(Observe, VNone, "", None, false)

  function LastFingerprint(steps: seq<Accepted>): (f: string)
    ensures f == "" <==> forall s :: s in steps ==> s.fingerprint == ""
  {
    if steps == [] then ""
    else
      var last := steps[|steps| - 1];
      if last.fingerprint != "" then last.fingerprint else LastFingerprint(steps[..|steps| - 1])
  }

  /** The last step that is a real note: one that is not neutral. */
  function LastRealNote(steps: seq<Accepted>): (r: Option<Accepted>)
    ensures r.Some? ==> r.value in steps && r.value.kind == Note && !r.value.neutral
    ensures r.None? ==> forall s :: s in steps ==> s.kind == Observe || s.neutral
  {
    if steps == [] then None
    else
      var last := steps[|steps| - 1];
      if last.kind == Note && !last.neutral then Some(last) else LastRealNote(steps[..|steps| - 1])
  }

  function Keys(steps: seq<Accepted>): (r: seq<Value>)
    ensures |r| == |steps|
  {
    if steps == [] then [] else [steps[0].actionKey] + Keys(steps[1..])
  }

  function EpochKey(steps: seq<Accepted>): Value {
    VTuple([VText("progress_epoch"), VTuple(Keys(steps))])
  }

  /** The one step that stands for a whole epoch of steps. */
  function Summary(steps: seq<Accepted>): Accepted
    requires steps != []
  {
    var key, fingerprint, note := EpochKey(steps), LastFingerprint(steps), LastRealNote(steps);
    if note.Some? then Step(Note, key, fingerprint, note.value.success, false)
    else if exists s :: s in steps && s.kind == Observe then Step(Observe, key, fingerprint, None, false)
    else Step(Note, key, fingerprint, steps[|steps| - 1].success, true)
  }

  function Collapsed(steps: seq<Accepted>): seq<Accepted> {
    if steps == [] then [] else [Summary(steps)]
  }

  lemma TakenOnce(f: Facts, step: Accepted)
    ensures TakenAll(f, [step]) == Taken(f, step)
  {
    assert [step][..0] == [];
  }

  predicate OneMoreAtMost(before: Facts, after: Facts) {
    && after.failureSteps <= before.failureSteps + 1 && after.stagnantSteps <= before.stagnantSteps + 1
    && after.stalledSteps <= before.stalledSteps + 1 && after.epistemicSteps <= before.epistemicSteps + 1
  }

  lemma StepCountsOnce(f: Facts, step: Accepted)
    ensures var after := Taken(f, step);
            && OneMoreAtMost(f, after) && after.epistemicSteps == f.epistemicSteps
            && after.currentFingerprint == step.fingerprint
            && (step.kind == Note && step.success == Some(true) && !step.neutral ==> after.failureSteps == 0)
  {
  }

  lemma CreditCountsOnce(f: Facts, novel: seq<string>, materialChanged: bool)
    ensures var after := Credited(f, novel, materialChanged);
            && after.failureSteps <= f.failureSteps && after.stagnantSteps <= f.stagnantSteps
            && after.stalledSteps <= f.stalledSteps
            && after.epistemicSteps <= f.epistemicSteps + 1 && after.currentFingerprint == f.currentFingerprint
  {
  }

  lemma SummaryOf(steps: seq<Accepted>)
    requires steps != []
    ensures Summary(steps).fingerprint == LastFingerprint(steps)
    ensures LastRealNote(steps).Some? ==>
              && Summary(steps).kind == Note && !Summary(steps).neutral
              && Summary(steps).success == LastRealNote(steps).value.success
  {
  }

  /** Whatever an epoch holds, its commit counts at most one failure, and none when
      its last real note was a success; the fingerprint becomes the epoch's last. */
  lemma CollapsedCountsOnce(f: Facts, steps: seq<Accepted>, novel: seq<string>, materialChanged: bool)
    ensures var after := Committed(f, Collapsed(steps), novel, materialChanged);
            && OneMoreAtMost(f, after)
            && (LastRealNote(steps).Some? && LastRealNote(steps).value.success == Some(true) ==>
                after.failureSteps == 0)
            && (steps != [] ==> after.currentFingerprint == LastFingerprint(steps))
  {
    var taken := TakenAll(f, Collapsed(steps));
    CreditCountsOnce(taken, novel, materialChanged);
    if steps != [] {
      TakenOnce(f, Summary(steps));
      SummaryOf(steps);
      StepCountsOnce(f, Summary(steps));
    }
  }

  // -- what the collapsed step says -----------------------------------------------------------------

  predicate IsRealNote(s: Accepted) {
    s.kind == Note && !s.neutral
  }

  /** The mark of the last step that has one. */
  lemma {:induction false} LastFingerprintIs(steps: seq<Accepted>, i: nat)
    requires i < |steps| && steps[i].fingerprint != "" && forall j :: i < j < |steps| ==> steps[j].fingerprint == ""
    ensures LastFingerprint(steps) == steps[i].fingerprint
  {
    if i < |steps| - 1 {
      LastFingerprintIs(steps[..|steps| - 1], i);
    }
  }

  lemma {:induction false} LastRealNoteIs(steps: seq<Accepted>, i: nat)
    requires i < |steps| && IsRealNote(steps[i]) && forall j :: i < j < |steps| ==> !IsRealNote(steps[j])
    ensures LastRealNote(steps) == Some(steps[i])
  {
    if i < |steps| - 1 {
      LastRealNoteIs(steps[..|steps| - 1], i);
    }
  }

  lemma {:induction false} KeysAre(steps: seq<Accepted>, i: nat)
    requires i < |steps|
    ensures Keys(steps)[i] == steps[i].actionKey
  {
    if i > 0 {
      KeysAre(steps[1..], i - 1);
    }
  }

  /** The key of the one step committed for these holds all their keys in order; without
      any mark among them it has none. */
  lemma SummaryKey(steps: seq<Accepted>)
    requires steps != []
    ensures Summary(steps).actionKey == VTuple([VText("progress_epoch"), VTuple(Keys(steps))])
    ensures |Keys(steps)| == |steps| && forall i :: 0 <= i < |steps| ==> Keys(steps)[i] == steps[i].actionKey
    ensures (forall i :: 0 <= i < |steps| ==> steps[i].fingerprint == "") ==> Summary(steps).fingerprint == ""
  {
    forall i | 0 <= i < |steps| ensures Keys(steps)[i] == steps[i].actionKey {
      KeysAre(steps, i);
    }
  }

  /** It is a real note with the verdict of the last real one, if there is one, at step
      `n`; else an observation, if one of them is; else a neutral note. */
  lemma SummaryVerdict(steps: seq<Accepted>, n: nat)
    requires steps != []
    ensures n < |steps| && IsRealNote(steps[n]) && (forall j :: n < j < |steps| ==> !IsRealNote(steps[j])) ==>
              Summary(steps).kind == Note && !Summary(steps).neutral && Summary(steps).success == steps[n].success
  {
    if n < |steps| && IsRealNote(steps[n]) && forall j :: n < j < |steps| ==> !IsRealNote(steps[j]) {
      LastRealNoteIs(steps, n);
    }
  }

  lemma SummaryOfRest(steps: seq<Accepted>)
    requires steps != [] && forall i :: 0 <= i < |steps| ==> !IsRealNote(steps[i])
    ensures var s := Summary(steps);
            if exists i :: 0 <= i < |steps| && steps[i].kind == Observe
            then s.kind == Observe && s.success.None? && !s.neutral
            else s.kind == Note && s.neutral && s.success == steps[|steps| - 1].success
  {
    assert forall s :: s in steps ==> !IsRealNote(s);
    if i :| 0 <= i < |steps| && steps[i].kind == Observe {
      assert steps[i] in steps;
    }
  }

  predicate ReadableKeys(steps: seq<Accepted>) {
    forall i :: 0 <= i < |steps| ==> Recovery.ReadableItem(steps[i].actionKey)
  }

  predicate ListlessKeys(steps: seq<Accepted>) {
    forall i :: 0 <= i < |steps| ==> Recovery.Listless(steps[i].actionKey)
  }

  lemma {:induction false} KeysAreRead(steps: seq<Accepted>)
    ensures Recovery.AllReadable(Keys(steps)) <==> ReadableKeys(steps)
    ensures Recovery.AllListless(Keys(steps)) <==> ListlessKeys(steps)
  {
    if steps != [] {
      KeysAreRead(steps[1..]);
      assert Keys(steps)[1..] == Keys(steps[1..]);
      assert ReadableKeys(steps) <==> Recovery.ReadableItem(steps[0].actionKey) && ReadableKeys(steps[1..]) by {
        assert forall i :: 0 < i < |steps| ==> steps[i] == steps[1..][i - 1];
      }
      assert ListlessKeys(steps) <==> Recovery.Listless(steps[0].actionKey) && ListlessKeys(steps[1..]) by {
        assert forall i :: 0 < i < |steps| ==> steps[i] == steps[1..][i - 1];
      }
    }
  }

  lemma PairIsRead(text: string, items: seq<Value>)
    ensures Recovery.Readable(VTuple([VText(text), VTuple(items)])) <==> Recovery.AllReadable(items)
    ensures Recovery.Listless(VTuple([VText(text), VTuple(items)])) <==> Recovery.AllListless(items)
  {
    var pair := [VText(text), VTuple(items)];
    assert pair[1..] == [VTuple(items)] && pair[1..][1..] == [];
    assert Recovery.ReadableItem(VTuple(items)) <==> Recovery.AllReadable(items);
    assert Recovery.AllReadable(pair[1..])
           <==> Recovery.ReadableItem(pair[1..][0]) && Recovery.AllReadable(pair[1..][1..]);
    assert Recovery.AllReadable(pair) <==> Recovery.ReadableItem(pair[0]) && Recovery.AllReadable(pair[1..]);
    assert Recovery.AllListless(pair[1..]) <==> Recovery.Listless(pair[1..][0]) && Recovery.AllListless(pair[1..][1..]);
    assert Recovery.AllListless(pair) <==> Recovery.Listless(pair[0]) && Recovery.AllListless(pair[1..]);
  }

  /** The collapsed step can be read back exactly when every step it stands for can,
      and holds a list exactly when one of them does. */
  lemma CollapsedReadableIff(steps: seq<Accepted>)
    requires steps != []
    ensures Recovery.ReadableStep(Summary(steps)) <==> ReadableKeys(steps)
    ensures Recovery.Listless(Summary(steps).actionKey) <==> ListlessKeys(steps)
  {
    KeysAreRead(steps);
    PairIsRead("progress_epoch", Keys(steps));
  }

  // -- the batch -------------------------------------------------------------------------------------

  datatype Call = Call(id: string, tool: string, arguments: string)

  /** `status` is None while the member is pending. */
  datatype Member = Member(call: Call, order: nat, bodyMutating: bool, conflict: bool, claimed: bool,
                           status: Option<string>,
                           reason: string, steps: seq<Accepted>, keys: seq<string>, material: bool,
                           pendingAbort: Option<StopReason>)

  /** What a tool returned, reduced to what progress is judged from. */
  datatype Settlement = Settlement(status: Option<string>, success: bool, reason: string, steps: seq<Accepted>,
                                   keys: seq<string>, failureKey: Option<string>, evidence: bool,
                                   pendingAbort: Option<StopReason>)

  /** How the archive answered, when there is one. */
  datatype Archive = NoArchive | StoredWith(novel: seq<string>, marks: bool) | StoreFailed

  /** What the registry says of tools, and the canonical form of call arguments. */
  datatype Tools = Tools(mutates: string -> bool, closes: string -> bool, canonical: string -> string)

  datatype Batch = Batch(id: string, task: Option<string>, first: nat)

  /** What else changes the authority's facts, with nothing put on record: a detached
      call that ends after its epoch closed, a step noted outside any capture, as a
      plan's outcome is, and a turn that is cancelled. */
  datatype Write =
    | Background(steps: seq<Accepted>, materialChanged: bool)
    | Direct(step: Keyed)
    | Invalidated(reason: string)

  /** A step whose key is a tuple, as its type says. */
  type Keyed = s: Step | WellTyped(s) && s.actionKey.VTuple? witness Step(Observe, VTuple([]), "", None, false)

  /** Where facts come from: the commit of the i-th stored epoch, the latest record of a
      task, or nothing that is on record. */
  datatype Origin = Unrecorded | OfCommit(i: nat) | OfTask(task: string)

  /** How the authority came by its facts: `base` is what the last commit or restore
      left, `writes` what was written from outside since. */
  datatype Since = Since(origin: Origin, base: Facts, writes: seq<Write>)

  /** `members` holds every member ever issued, in order, those of the open epoch
      last; a member's handle is its index.  `owner` is the task whose progress was
      restored.  The rest is history: the ids of the epochs opened and of those
      committed; the epochs the archive stored, with the facts the authority held right
      after each and how it had come by those it started from; and how it came by the
      facts it holds now. */
  datatype State = State(members: seq<Member>, active: Option<Batch>, seen: set<string>, facts: Facts,
                         owner: Option<string>,
                         openings: seq<string>, committed: seq<string>, stored: seq<Recovery.Epoch>,
                         replays: seq<Facts>,
                         starts: seq<Since>, since: Since)

  function AllSteps(members: seq<Member>): seq<Accepted> {
    if members == [] then [] else AllSteps(members[..|members| - 1]) + members[|members| - 1].steps
  }

  function AllKeys(members: seq<Member>): seq<string> {
    if members == [] then [] else AllKeys(members[..|members| - 1]) + members[|members| - 1].keys
  }

  function Aborts(members: seq<Member>): seq<StopReason> {
    if members == [] then []
    else
      var last := members[|members| - 1].pendingAbort;
      Aborts(members[..|members| - 1]) + if last.Some? then [last.value] else []
  }

  predicate Waiting(members: seq<Member>, first: nat) {
    exists i :: first <= i < |members| && members[i].status.None?
  }

  predicate SettledUpTo(members: seq<Member>, n: nat) {
    forall i :: 0 <= i < n && i < |members| ==> members[i].status.Some?
  }

  /** The epochs committed are the ones opened, each once and in order, but for the one
      still open. */
  predicate History(st: State) {
    && (if st.active.Some? then st.openings == st.committed + [st.active.value.id] else st.openings == st.committed)
    && |st.stored| == |st.replays| == |st.starts|
  }

  /** The open epoch still waits for a member, and nothing outside it does. */
  predicate Sound(st: State) {
    && History(st)
    && (st.active.Some? ==> Waiting(st.members, st.active.value.first))
    && SettledUpTo(st.members, if st.active.Some? then st.active.value.first else |st.members|)
  }

  const NOTHING_YET := Since(Unrecorded, NO_FACTS, [])

  const INITIAL := State([], None, {}, NO_FACTS, None, [], [], [], [], [], NOTHING_YET)

  // -- commit ------------------------------------------------------------------------------------------

  function Unseen(keys: seq<string>, seen: set<string>): (r: seq<string>)
    ensures forall k :: k in r <==> k in keys && k !in seen
  {
    if keys == [] then []
    else Unseen(keys[..|keys| - 1], seen) + if keys[|keys| - 1] in seen then [] else [keys[|keys| - 1]]
  }

  function Novel(archive: Archive, keys: seq<string>, seen: set<string>): seq<string> {
    match archive
    case NoArchive => Unseen(keys, seen)
    case StoredWith(novel, _) => novel
    case StoreFailed => []
  }

  predicate ClosesOnly(t: Tools, members: seq<Member>) {
    forall i :: 0 <= i < |members| ==> t.closes(members[i].call.tool)
  }

  /** What the commit of these members is made from. */
  function CommitOf(t: Tools, st: State, members: seq<Member>, goal: string, archive: Archive): Recovery.Epoch {
    var steps := Collapsed(AllSteps(members));
    var batch := if st.active.Some? then st.active.value else Batch("", None, 0);
    Recovery.Epoch(batch.id, batch.task, st.facts.(goal := goal),
                   steps != [] || !ClosesOnly(t, members), steps, Novel(archive, Distinct(AllKeys(members)), st.seen),
                   exists i :: 0 <= i < |members| && members[i].material, Aborts(members))
  }

  /** Everything that speaks for a stop, in the order it comes up: a record that could
      not be stored, the members' own stops, and a stop that could not be marked. */
  function Raised(e: Recovery.Epoch, archive: Archive): seq<StopReason> {
    (if archive.StoreFailed? then [Unknown] else []) + e.pending
    + (if archive.StoredWith? && !archive.marks && e.pending != [] then [Unknown] else [])
  }

  /** Where a commit goes: into the authority, and into the archive when there is one. */
  function Recorded(st: State, keys: seq<string>, e: Recovery.Epoch, archive: Archive): State
    requires Recovery.TypedSteps(e.steps)
  {
    var (durable, after) := (archive.StoredWith?, Recovery.LiveFacts(e));
    st.(active := None, seen := st.seen + Elements(keys), facts := after.(goal := ""),
        committed := st.committed + [e.id],
        stored := if durable then st.stored + [e] else st.stored,
        replays := if durable then st.replays + [after] else st.replays,
        starts := if durable then st.starts + [st.since] else st.starts,
        since := Since(if durable then OfCommit(|st.stored|) else Unrecorded, after.(goal := ""), []))
  }

  function Elements(keys: seq<string>): set<string> {
    set k | k in keys
  }

  /** The one commit of the open epoch, once none of its members is pending. */
  function Finalized(t: Tools, st: State, goal: string, archive: Archive): (r: (State, Option<StopReason>))
    requires History(st) && st.active.Some? && st.active.value.first <= |st.members|
             && SettledUpTo(st.members, |st.members|)
    ensures Sound(r.0) && r.0.members == st.members
  {
    var members := st.members[st.active.value.first..];
    var e := CommitOf(t, st, members, goal, archive);
    (Recorded(st, Distinct(AllKeys(members)), e, archive), Dominant(Raised(e, archive)))
  }

  // -- what a commit is made of ----------------------------------------------------------------------

  /** Steps, keys and stops of the members one after the other. */
  lemma {:induction false} MembersInOrder(a: seq<Member>, b: seq<Member>)
    ensures AllSteps(a + b) == AllSteps(a) + AllSteps(b) && AllKeys(a + b) == AllKeys(a) + AllKeys(b)
    ensures Aborts(a + b) == Aborts(a) + Aborts(b)
  {
    if b == [] {
      assert a + b == a;
    } else {
      var n := |b| - 1;
      assert (a + b)[..|a| + n] == a + b[..n] && (a + b)[|a| + n] == b[n];
      MembersInOrder(a, b[..n]);
      Reassociate(AllSteps(a), AllSteps(b[..n]), b[n].steps);
      Reassociate(AllKeys(a), AllKeys(b[..n]), b[n].keys);
      Reassociate(Aborts(a), Aborts(b[..n]), if b[n].pendingAbort.Some? then [b[n].pendingAbort.value] else []);
    }
  }

  lemma Reassociate<T>(a: seq<T>, b: seq<T>, c: seq<T>)
    ensures a + b + c == a + (b + c)
  {
  }

  lemma OneMemberHas(m: Member)
    ensures AllSteps([m]) == m.steps && AllKeys([m]) == m.keys
    ensures Aborts([m]) == if m.pendingAbort.Some? then [m.pendingAbort.value] else []
  {
    assert [m][..0] == [];
    assert [] + m.steps == m.steps && [] + m.keys == m.keys;
  }

  /** What the open epoch commits: the facts it finds; a step, exactly when a member noted
      one; material change, exactly when a member brought evidence; the keys nobody had
      seen, or what the archive says of them; and it counts for nothing exactly when it
      has no step and only bookkeeping tools were called. */
  lemma CommitIs(t: Tools, st: State, members: seq<Member>, goal: string, archive: Archive)
    requires st.active.Some?
    ensures var (e, keys) := (CommitOf(t, st, members, goal, archive), Distinct(AllKeys(members)));
            && e.id == st.active.value.id && e.task == st.active.value.task && e.before == st.facts.(goal := goal)
            && (if AllSteps(members) == [] then e.steps == [] else e.steps == [Summary(AllSteps(members))])
            && (e.materialChanged <==> exists m :: m in members && m.material)
            && (e.apply <==> AllSteps(members) != [] || exists m :: m in members && !t.closes(m.call.tool))
            && e.pending == Aborts(members)
            && (archive.NoArchive? ==> forall k :: k in e.novel <==> k in keys && k !in st.seen)
            && (archive.StoredWith? ==> e.novel == archive.novel) && (archive.StoreFailed? ==> e.novel == [])
  {
    assert forall i :: 0 <= i < |members| ==> members[i] in members;
  }

  /** Which stop a commit raises: a lost transport before all; else "unknown", when a member
      says so, the record could not be stored, or a stop could not be marked; else the
      members' own; none exactly when no member has one and nothing failed. */
  lemma StopRaised(e: Recovery.Epoch, archive: Archive)
    ensures var (stop, pending) := (Dominant(Raised(e, archive)), e.pending);
            var unmarked := pending != [] && archive.StoredWith? && !archive.marks;
            && (BodyTransport in pending <==> stop == Some(BodyTransport))
            && (stop == Some(Unknown) <==>
                  BodyTransport !in pending && (Unknown in pending || archive.StoreFailed? || unmarked))
            && (stop == Some(EpistemicBudget) <==>
                  && EpistemicBudget in pending && BodyTransport !in pending && Unknown !in pending
                  && !archive.StoreFailed? && !unmarked)
            && (stop.None? <==> pending == [] && !archive.StoreFailed?)
  {
    RaisedAre(e, archive);
    DominantIs(Raised(e, archive));
  }

  lemma RaisedAre(e: Recovery.Epoch, archive: Archive)
    ensures var (raised, pending) := (Raised(e, archive), e.pending);
            var unmarked := pending != [] && archive.StoredWith? && !archive.marks;
            && (forall r :: r != Unknown ==> (r in raised <==> r in pending))
            && (Unknown in raised <==> Unknown in pending || archive.StoreFailed? || unmarked)
            && (raised == [] <==> pending == [] && !archive.StoreFailed?)
  {
  }

  lemma DominantIs(reasons: seq<StopReason>)
    ensures var stop := Dominant(reasons);
            && (stop == Some(BodyTransport) <==> BodyTransport in reasons)
            && (stop == Some(Unknown) <==> Unknown in reasons && BodyTransport !in reasons)
            && (stop == Some(EpistemicBudget) <==>
                  EpistemicBudget in reasons && BodyTransport !in reasons && Unknown !in reasons)
            && (stop.None? <==> reasons == [])
  {
    assert BodyTransport.Priority() > Unknown.Priority() > EpistemicBudget.Priority() > NoProgress.Priority();
  }

  /** How a commit moves on: the epoch is over, its keys are seen, its id is on the list;
      it is on record exactly when the archive stored it; the authority holds its facts. */
  lemma RecordedIs(st: State, keys: seq<string>, e: Recovery.Epoch, archive: Archive)
    requires Recovery.TypedSteps(e.steps)
    ensures var r := Recorded(st, keys, e, archive);
            && r.active.None? && r.members == st.members && r.owner == st.owner && r.openings == st.openings
            && (forall k :: k in r.seen <==> k in st.seen || k in keys)
            && r.committed == st.committed + [e.id] && r.facts == Recovery.LiveFacts(e).(goal := "")
            && (archive.StoredWith? ==> r.stored == st.stored + [e])
            && (!archive.StoredWith? ==> r.stored == st.stored)
  {
  }

  // -- members -----------------------------------------------------------------------------------------

  predicate Matches(t: Tools, m: Member, tool: string, input: Option<string>) {
    !m.claimed && m.call.tool == tool && (input.None? || t.canonical(m.call.arguments) == t.canonical(input.value))
  }

  /** The first member from `first` on that matches. */
  function FirstMatch(t: Tools, members: seq<Member>, first: nat, tool: string, input: Option<string>): (r: Option<nat>)
    ensures r.Some? ==> first <= r.value < |members| && Matches(t, members[r.value], tool, input)
    ensures forall i :: first <= i < |members| && (r.None? || i < r.value) ==> !Matches(t, members[i], tool, input)
    decreases |members| - first
  {
    if first >= |members| then None
    else if Matches(t, members[first], tool, input) then Some(first)
    else FirstMatch(t, members, first + 1, tool, input)
  }

  /** The last member from `first` on with this native id. */
  function WithId(members: seq<Member>, first: nat, id: string): (r: Option<nat>)
    ensures r.Some? ==> first <= r.value < |members| && members[r.value].call.id == id
    ensures forall i :: first <= i < |members| && (r.None? || r.value < i) ==> members[i].call.id != id
    decreases |members|
  {
    if first >= |members| then None
    else if members[|members| - 1].call.id == id then Some(|members| - 1)
    else WithId(members[..|members| - 1], first, id)
  }

  /** The member a tool call belongs to: by its native id, else by exact arguments,
      else the first unclaimed member of that tool. */
  function Candidate(t: Tools, st: State, tool: string, input: string, nativeId: Option<string>): (r: Option<nat>)
    requires Sound(st)
    ensures r.Some? ==>
              && st.active.Some? && st.active.value.first <= r.value < |st.members|
              && st.members[r.value].call.tool == tool && !st.members[r.value].claimed
  {
    if st.active.None? then None
    else
      var first := st.active.value.first;
      var named := if nativeId.Some? then WithId(st.members, first, nativeId.value) else None;
      if named.Some? then
        if st.members[named.value].call.tool != tool || st.members[named.value].claimed then None else named
      else
        var exact := FirstMatch(t, st.members, first, tool, Some(input));
        if exact.Some? then exact else FirstMatch(t, st.members, first, tool, None)
  }

  function Claimed(st: State, handle: nat): (r: State)
    requires Sound(st) && handle < |st.members|
    ensures Sound(r)
  {
    var r := st.(members := st.members[handle := st.members[handle].(claimed := true)]);
    assert st.active.Some? ==> Waiting(r.members, st.active.value.first) by {
      if st.active.Some? {
        var i :| st.active.value.first <= i < |st.members| && st.members[i].status.None?;
        assert r.members[i].status.None?;
      }
    }
    r
  }

  function SettledMember(m: Member, s: Settlement): Member {
    var judged := if s.success then "success" else "failure";
    var status := if s.status.Some? && s.status.value != "" then s.status.value else judged;
    var failed := m.bodyMutating && status == "failure" && s.pendingAbort.None? && s.failureKey.Some?;
    m.(status := Some(status), reason := s.reason, steps := s.steps, pendingAbort := s.pendingAbort,
       keys := if failed then Distinct(s.keys + [s.failureKey.value]) else s.keys,
       material := if status in ["success", "failure", "partial"] && s.reason != "preempted" then s.evidence
         else m.material)
  }

  const SUCCESS := "success"
  const FAILURE := "failure"

  /** What a settlement makes of a member: the status given, else whether it succeeded;
      its steps and stop as they are; its keys, with the failure's own beside them only
      for a call that could change the Body and failed without a stop; and the evidence,
      unless the call was preempted or neither ended nor partly did. */
  lemma SettledMemberIs(m: Member, s: Settlement)
    ensures var r := SettledMember(m, s);
            && r == m.(status := r.status, reason := s.reason, steps := s.steps, keys := r.keys, material := r.material,
                       pendingAbort := s.pendingAbort)
            && (s.status.Some? && s.status.value != "" ==> r.status == s.status)
            && (s.status in {None, Some("")} && s.success ==> r.status == Some(SUCCESS))
            && (s.status in {None, Some("")} && !s.success ==> r.status == Some(FAILURE))
            && (r.status in {Some(SUCCESS), Some(FAILURE), Some("partial")} && s.reason != "preempted" ==>
                  r.material == s.evidence)
            && (r.status !in {Some(SUCCESS), Some(FAILURE), Some("partial")} || s.reason == "preempted" ==>
                  r.material == m.material)
            && (m.bodyMutating && r.status == Some(FAILURE) && s.pendingAbort.None? && s.failureKey.Some? ==>
                  forall k :: k in r.keys <==> k != "" && (k in s.keys || k == s.failureKey.value))
            && (!m.bodyMutating || r.status != Some(FAILURE) || s.pendingAbort.Some? || s.failureKey.None? ==>
                  r.keys == s.keys)
  {
  }

  /** Open and not claimed, of that tool. */
  predicate Claimable(st: State, i: nat, tool: string) {
    && st.active.Some? && st.active.value.first <= i < |st.members|
    && st.members[i].call.tool == tool && !st.members[i].claimed
  }

  predicate SameArguments(t: Tools, m: Member, input: string) {
    t.canonical(m.call.arguments) == t.canonical(input)
  }

  /** Who is claimed.  A native id that is in the open epoch decides alone: its last
      member, if that may be claimed.  Without it the first that may be claimed with
      these arguments, else the first that may be claimed at all, else nobody. */
  lemma CandidateIs(t: Tools, st: State, tool: string, input: string, nativeId: Option<string>, i: nat)
    requires Sound(st)
    ensures st.active.None? ==> Candidate(t, st, tool, input, nativeId).None?
    ensures nativeId.Some? && st.active.Some? && st.active.value.first <= i < |st.members|
            && st.members[i].call.id == nativeId.value
            && (forall j :: i < j < |st.members| ==> st.members[j].call.id != nativeId.value) ==>
              Candidate(t, st, tool, input, nativeId) == if Claimable(st, i, tool) then Some(i) else None
    ensures Unnamed(st, nativeId) && Claimable(st, i, tool) && SameArguments(t, st.members[i], input)
            && (forall j: nat :: j < i && Claimable(st, j, tool) ==> !SameArguments(t, st.members[j], input)) ==>
              Candidate(t, st, tool, input, nativeId) == Some(i)
    ensures Unnamed(st, nativeId) && Claimable(st, i, tool)
            && (forall j: nat :: Claimable(st, j, tool) ==> !SameArguments(t, st.members[j], input))
            && (forall j: nat :: j < i ==> !Claimable(st, j, tool)) ==>
              Candidate(t, st, tool, input, nativeId) == Some(i)
    ensures Unnamed(st, nativeId) && (forall j: nat :: !Claimable(st, j, tool)) ==>
              Candidate(t, st, tool, input, nativeId).None?
  {
    if st.active.Some? {
      var first := st.active.value.first;
      var (same, any) := (FirstMatch(t, st.members, first, tool, Some(input)),
                          FirstMatch(t, st.members, first, tool, None));
      assert same.Some? ==> Claimable(st, same.value, tool);
      assert any.Some? ==> Claimable(st, any.value, tool);
    }
  }

  /** No member of the open epoch carries the native id. */
  predicate Unnamed(st: State, nativeId: Option<string>) {
    nativeId.Some? && st.active.Some? ==>
      forall j :: st.active.value.first <= j < |st.members| ==> st.members[j].call.id != nativeId.value
  }

  /** Settle one member.  A settlement of a member that is no longer pending --
      settled before, or left over from an earlier epoch -- changes nothing. */
  function Settled(t: Tools, st: State, handle: nat, s: Settlement, goal: string,
                   archive: Archive): (r: (State, Option<StopReason>))
    requires Sound(st) && handle < |st.members|
    ensures Sound(r.0)
  {
    if st.active.None? || st.members[handle].status.Some? then (st, None)
    else
      var after := st.(members := st.members[handle := SettledMember(st.members[handle], s)]);
      if Waiting(after.members, st.active.value.first) then (after, None) else Finalized(t, after, goal, archive)
  }

  function Cancellation(reason: string): Settlement {
    Settlement(Some("cancelled"), false, reason, [], [], None, false, None)
  }

  function CancelledFrom(members: seq<Member>, first: nat, reason: string): (r: seq<Member>)
    ensures |r| == |members|
    ensures forall i :: 0 <= i < |r| ==>
              r[i] == if first <= i && members[i].status.None?
                then members[i].(status := Some("cancelled"), reason := reason)
                      else members[i]
  {
    if members == [] then []
    else
      var n := |members| - 1;
      CancelledFrom(members[..n], first, reason)
      + [if first <= n && members[n].status.None? then members[n].(status := Some("cancelled"), reason := reason)
         else members[n]]
  }

  /** Cancel whatever is still pending and commit. */
  function CutShort(t: Tools, st: State, reason: string, goal: string,
                    archive: Archive): (r: (State, Option<StopReason>))
    requires Sound(st)
    ensures Sound(r.0) && r.0.active.None?
  {
    if st.active.None? then (st, None)
    else Finalized(t, st.(members := CancelledFrom(st.members, st.active.value.first, reason)), goal, archive)
  }

  // -- opening --------------------------------------------------------------------------------------------

  function BodyCalls(t: Tools, calls: seq<Call>): (r: seq<Call>)
    ensures forall c :: c in r <==> c in calls && t.mutates(c.tool)
  {
    if calls == [] then []
    else BodyCalls(t, calls[..|calls| - 1]) + if t.mutates(calls[|calls| - 1].tool) then [calls[|calls| - 1]] else []
  }

  /** Ids of the body-mutating calls, when there is more than one. */
  function Conflicting(t: Tools, calls: seq<Call>): set<string> {
    var body := BodyCalls(t, calls);
    if |body| > 1 then set i | 0 <= i < |body| :: body[i].id else {}
  }

  function Issued(t: Tools, calls: seq<Call>, conflicting: set<string>): (r: seq<Member>)
    ensures |r| == |calls|
    ensures forall i :: 0 <= i < |r| ==>
              r[i] == Member(calls[i], i, t.mutates(calls[i].tool), calls[i].id in conflicting, false,
                                                        None, "", [], [], false, None)
  {
    if calls == [] then []
    else
      var n := |calls| - 1;
      Issued(t, calls[..n], conflicting)
      + [Member(calls[n], n, t.mutates(calls[n].tool), calls[n].id in conflicting, false, None, "", [], [], false,
                None)]
  }

  /** Open the epoch of a batch; an epoch still open is settled first. */
  function Opened(t: Tools, st: State, id: string, task: Option<string>, calls: seq<Call>, goal: string,
                  archive: Archive)
    : (r: State)
    requires Sound(st)
    ensures Sound(r)
  {
    if calls == [] then st
    else
      Begun(t, CutShort(t, st, "next_model_response", goal, archive).0, id, task, calls)
  }

  function Begun(t: Tools, st: State, id: string, task: Option<string>, calls: seq<Call>): (r: State)
    requires Sound(st) && st.active.None? && calls != []
    ensures Sound(r) && r.active.Some?
  {
    var issued := Issued(t, calls, Conflicting(t, calls));
    var r := st.(members := st.members + issued, active := Some(Batch(id, task, |st.members|)),
                 openings := st.openings + [id]);
    assert r.members[|st.members|] == issued[0];
    r
  }

  // -- writes from outside and task switches ---------------------------------------------------------------

  function Wrote(f: Facts, w: Write): Facts {
    match w
    case Background(steps, materialChanged) => Committed(f, Collapsed(steps), [], materialChanged)
    case Direct(step) => Taken(f, step)
    case Invalidated(reason) => Cancelled(f, reason)
  }

  function WroteAll(f: Facts, writes: seq<Write>): Facts {
    if writes == [] then f else Wrote(WroteAll(f, writes[..|writes| - 1]), writes[|writes| - 1])
  }

  function Written(st: State, w: Write): State {
    st.(facts := Wrote(st.facts, w), since := st.since.(writes := st.since.writes + [w]))
  }

  /** The latest record of a task. */
  function Latest(stored: seq<Recovery.Epoch>, task: string): (r: Option<Recovery.Epoch>)
    ensures r.Some? ==> r.value in stored && r.value.task == Some(task)
    ensures r.None? ==> forall e :: e in stored ==> e.task != Some(task)
  {
    if stored == [] then None
    else
      var last := stored[|stored| - 1];
      if last.task == Some(task) then Some(last) else Latest(stored[..|stored| - 1], task)
  }

  /** What restoring from the latest record of a task gives: the facts and the stop it
      replays to, nothing when it is refused, and a fresh start without any record. */
  function FromRecord(latest: Option<Recovery.Record>): Option<(Facts, Option<StopReason>)> {
    if latest.None? then Some((NO_FACTS, None)) else Recovery.Replayed(latest.value)
  }

  function Recalled(stored: seq<Recovery.Epoch>, task: string): Option<(Facts, Option<StopReason>)> {
    match Latest(stored, task)
    case None => FromRecord(None)
    case Some(e) => FromRecord(Some(Recovery.Stored(e)))
  }

  /** Who holds the authority, and the facts it holds. */
  datatype Held = Held(owner: Option<string>, facts: Facts)

  /** Restoring the progress of the current task: nothing to do without a task or for
      the same one; without an archive only a switch clears the facts; when the archive
      fails or refuses, everything stays as it is. */
  function Switching(h: Held, task: Option<string>, archive: Archive,
                     recalled: Option<(Facts, Option<StopReason>)>): Held {
    if task.None? || h.owner == task then h
    else
      match archive
      case NoArchive => Held(task, if h.owner.Some? then NO_FACTS else h.facts)
      case StoreFailed => h
      case StoredWith(_, _) => if recalled.None? then h else Held(task, recalled.value.0.(goal := ""))
  }

  function Switched(st: State, task: Option<string>, archive: Archive): State {
    var recalled := if task.Some? then Recalled(st.stored, task.value) else None;
    var h := Switching(Held(st.owner, st.facts), task, archive, recalled);
    st.(owner := h.owner, facts := h.facts,
        since := if h.owner == st.owner || (archive.NoArchive? && st.owner.None?) then st.since
                 else Since(if archive.NoArchive? then Unrecorded else OfTask(h.owner.value), h.facts, []))
  }

  /** The latest record of a task is its last one. */
  lemma {:induction false} LatestIsLast(stored: seq<Recovery.Epoch>, task: string, i: nat)
    requires i < |stored| && stored[i].task == Some(task)
    requires forall j :: i < j < |stored| ==> stored[j].task != Some(task)
    ensures Latest(stored, task) == Some(stored[i])
  {
    if i < |stored| - 1 {
      LatestIsLast(stored[..|stored| - 1], task, i);
    }
  }

  /** When the held progress changes hands: only for another task than the one it is of;
      it is then that task's latest record, fresh facts without one, and nothing moves
      when the record or the archive fails.  Without an archive a first task keeps what
      is held and the next one starts afresh. */
  lemma SwitchedIs(st: State, task: Option<string>, archive: Archive)
    ensures task.None? || task == st.owner ==> Switched(st, task, archive) == st
    ensures archive.StoreFailed? ==> Switched(st, task, archive) == st
    ensures task.Some? && task != st.owner && archive.NoArchive? ==>
              var r := Switched(st, task, archive);
              r.owner == task && r.facts == (if st.owner.Some? then NO_FACTS else st.facts)
    ensures task.Some? && task != st.owner && archive.StoredWith? ==>
              var (r, latest) := (Switched(st, task, archive), Latest(st.stored, task.value));
              if latest.None? then r.owner == task && r.facts == NO_FACTS
              else
                var back := Recovery.Replayed(Recovery.Stored(latest.value));
                if back.None? then r == st else r.owner == task && r.facts == back.value.0.(goal := "")
    ensures var r := Switched(st, task, archive);
            r == st.(owner := r.owner, facts := r.facts, since := r.since)
  {
  }

  // -- the adapter ----------------------------------------------------------------------------------------

  class Adapter {
    const tools: Tools
    const authority: Authority
    var members: seq<Member>
    var active: Option<Batch>
    var byId: map<string, nat>
    var seen: set<string>
    ghost var openings: seq<string>
    ghost var committed: seq<string>
    ghost var stored: seq<Recovery.Epoch>
    ghost var replays: seq<Facts>
    ghost var owner: Option<string>
    ghost var starts: seq<Since>
    ghost var since: Since

    ghost function Abs(): State
      reads this, authority
    {
      State(members, active, seen, authority.FactsFor(""), owner, openings, committed, stored, replays, starts, since)
    }

    ghost predicate Valid()
      reads this, authority
    {
      Sound(Abs()) && (active.Some? ==> Indexed(byId, members, active.value.first))
    }

    constructor (tools: Tools, authority: Authority)
      requires authority.FactsFor("") == NO_FACTS
      ensures Valid() && Abs() == INITIAL && this.tools == tools && this.authority == authority
    {
      this.tools, this.authority := tools, authority;
      members, active, byId, seen := [], None, map[], {};
      openings, committed, stored, replays, owner, starts, since := [], [], [], [], None, [], NOTHING_YET;
    }

    method ClaimMember(tool: string, input: string, nativeId: Option<string>) returns (r: Option<nat>)
      requires Valid()
      modifies this
      ensures Valid() && r == Candidate(tools, old(Abs()), tool, input, nativeId)
      ensures Abs() == if r.Some? then Claimed(old(Abs()), r.value) else old(Abs())
    {
      r := MemberFor(tool, input, nativeId);
      if r.Some? {
        Relabel(r.value, members[r.value].(claimed := true));
        assert Abs() == Claimed(old(Abs()), r.value);
      }
    }

    method MemberFor(tool: string, input: string, nativeId: Option<string>) returns (r: Option<nat>)
      requires Valid()
      ensures r == Candidate(tools, Abs(), tool, input, nativeId)
    {
      if active.None? {
        return None;
      }
      r := None;
      if nativeId.Some? && nativeId.value in byId {
        r := Some(byId[nativeId.value]);
        if members[r.value].call.tool != tool {
          return None;
        }
      }
      if r.None? {
        r := FirstUnclaimed(tool, Some(input));
        if r.None? {
          r := FirstUnclaimed(tool, None);
        }
      }
      if r.Some? && members[r.value].claimed {
        return None;
      }
    }

    /** Write one member's row; the dictionary goes by the calls alone. */
    method Relabel(handle: nat, m: Member)
      requires handle < |members| && m.call == members[handle].call
      requires active.Some? && Indexed(byId, members, active.value.first)
      modifies this`members
      ensures members == old(members)[handle := m]
      ensures Indexed(byId, members, active.value.first)
    {
      IndexIgnoresState(byId, members, members[handle := m], active.value.first);
      members := members[handle := m];
    }

    method FirstUnclaimed(tool: string, input: Option<string>) returns (r: Option<nat>)
      requires active.Some?
      ensures r == FirstMatch(tools, members, active.value.first, tool, input)
    {
      var i := active.value.first;
      while i < |members|
        invariant FirstMatch(tools, members, active.value.first, tool, input)
                  == FirstMatch(tools, members, i, tool, input)
      {
        if Matches(tools, members[i], tool, input) {
          return Some(i);
        }
        i := i + 1;
      }
      return None;
    }

    method AnyPending() returns (r: bool)
      requires active.Some?
      ensures r == Waiting(members, active.value.first)
    {
      var i := active.value.first;
      while i < |members|
        invariant active.value.first <= i
        invariant forall j :: active.value.first <= j < i && j < |members| ==> members[j].status.Some?
      {
        if members[i].status.None? {
          return true;
        }
        i := i + 1;
      }
      return false;
    }

    method Settle(handle: nat, s: Settlement, goal: string, archive: Archive) returns (stop: Option<StopReason>)
      requires Valid() && handle < |members|
      modifies this, authority
      ensures Valid() && (Abs(), stop) == Settled(tools, old(Abs()), handle, s, goal, archive)
    {
      if active.None? || members[handle].status.Some? {
        return None;
      }
      Relabel(handle, SettledMember(members[handle], s));
      var waiting := AnyPending();
      if waiting {
        return None;
      }
      stop := Finalize(goal, archive);
    }

    method CancelMember(handle: nat, reason: string, goal: string, archive: Archive) returns (stop: Option<StopReason>)
      requires Valid() && handle < |members|
      modifies this, authority
      ensures Valid() && (Abs(), stop) == Settled(tools, old(Abs()), handle, Cancellation(reason), goal, archive)
    {
      stop := Settle(handle, Cancellation(reason), goal, archive);
    }

    method FinalizeUnsettled(reason: string, goal: string, archive: Archive) returns (stop: Option<StopReason>)
      requires Valid()
      modifies this, authority
      ensures Valid() && (Abs(), stop) == CutShort(tools, old(Abs()), reason, goal, archive)
    {
      if active.None? {
        return None;
      }
      var i := active.value.first;
      while i < |members|
        invariant active == old(active) && active.value.first <= i <= |members| == |old(members)|
        invariant Abs() == old(Abs()).(members := members)
        invariant forall j :: 0 <= j < |members| ==>
                    members[j] == if j < i then CancelledFrom(old(members), active.value.first, reason)[j]
                      else old(members)[j]
      {
        if members[i].status.None? {
          members := members[i := members[i].(status := Some("cancelled"), reason := reason)];
        }
        i := i + 1;
      }
      assert members == CancelledFrom(old(members), active.value.first, reason);
      stop := Finalize(goal, archive);
    }

    /** What the open epoch commits. */
    method Gather(goal: string, archive: Archive) returns (e: Recovery.Epoch, keys: seq<string>)
      requires active.Some? && active.value.first <= |members|
      ensures var batch := members[active.value.first..];
              keys == Distinct(AllKeys(batch)) && e == CommitOf(tools, Abs(), batch, goal, archive)
    {
      var batch := members[active.value.first..];
      var steps := Collapsed(AllSteps(batch));
      keys := Distinct(AllKeys(batch));
      var material := exists i :: 0 <= i < |batch| && batch[i].material;
      var apply := steps != [] || !ClosesOnly(tools, batch);
      e := Recovery.Epoch(active.value.id, active.value.task, authority.FactsFor(goal), apply, steps,
                          Novel(archive, keys, seen), material,
                          Aborts(batch));
    }

    method CommitEpoch(e: Recovery.Epoch)
      requires Recovery.TypedSteps(e.steps) && e.before == authority.FactsFor(e.before.goal)
      modifies authority
      ensures authority.FactsFor("") == Recovery.LiveFacts(e).(goal := "")
    {
      CommittedKeepsGoal(authority.FactsFor(""), e.steps, e.novel, e.materialChanged, e.before.goal);
      if e.apply {
        authority.CommitSteps(e.steps, e.novel, e.materialChanged);
      }
    }

    /** The stop of the whole epoch: the dominant one of all that speak for one.  A stop
        that could not be marked is weighed a second time. */
    static method Arbitrate(e: Recovery.Epoch, archive: Archive) returns (stop: Option<StopReason>)
      ensures stop == Dominant(Raised(e, archive))
    {
      var raised := (if archive.StoreFailed? then [Unknown] else []) + e.pending;
      stop := Dominant(raised);
      if stop.Some? && archive.StoredWith? && !archive.marks {
        DominantOfMore(raised, Unknown);
        assert raised == e.pending;
        stop := Dominant([stop.value, Unknown]);
      } else {
        assert raised + [] == raised;
      }
    }

    /** Close the open epoch over a commit that was made. */
    method Record(e: Recovery.Epoch, keys: seq<string>, archive: Archive)
      requires Recovery.TypedSteps(e.steps)
      requires authority.FactsFor("") == Recovery.LiveFacts(e).(goal := "")
      modifies this
      ensures Abs() == Recorded(old(Abs()), keys, e, archive)
    {
      seen := seen + Elements(keys);
      active, byId := None, map[];
      committed := committed + [e.id];
      ghost var facts := Recovery.LiveFacts(e).(goal := "");
      ghost var before := since;
      since := Since(if archive.StoredWith? then OfCommit(|stored|) else Unrecorded, facts, []);
      if archive.StoredWith? {
        stored, replays, starts := stored + [e], replays + [Recovery.LiveFacts(e)], starts + [before];
      }
    }

    method Finalize(goal: string, archive: Archive) returns (stop: Option<StopReason>)
      requires History(Abs()) && active.Some? && active.value.first <= |members| && SettledUpTo(members, |members|)
      modifies this, authority
      ensures Valid() && (Abs(), stop) == Finalized(tools, old(Abs()), goal, archive)
    {
      var e, keys := Gather(goal, archive);
      CommitEpoch(e);
      stop := Arbitrate(e, archive);
      Record(e, keys, archive);
    }

    method Open(id: string, task: Option<string>, calls: seq<Call>, goal: string, archive: Archive)
      requires Valid()
      modifies this, authority
      ensures Valid() && Abs() == Opened(tools, old(Abs()), id, task, calls, goal, archive)
    {
      if calls == [] {
        return;
      }
      if active.Some? {
        var _ := FinalizeUnsettled("next_model_response", goal, archive);
      }
      Begin(id, task, calls);
    }

    method Begin(id: string, task: Option<string>, calls: seq<Call>)
      requires Valid() && active.None? && calls != []
      modifies this`members, this`active, this`openings, this`byId
      ensures Valid() && Abs() == Begun(tools, old(Abs()), id, task, calls)
    {
      var first := |members|;
      members := members + Issued(tools, calls, Conflicting(tools, calls));
      active, openings := Some(Batch(id, task, first)), openings + [id];
      assert Abs() == Begun(tools, old(Abs()), id, task, calls);
      byId := IndexMembers(members, first);
    }

    static method IndexMembers(members: seq<Member>, first: nat) returns (index: map<string, nat>)
      requires first <= |members|
      ensures Indexed(index, members, first)
    {
      index := map[];
      for i := first to |members|
        invariant Indexed(index, members[..i], first)
      {
        assert members[..i + 1][..i] == members[..i];
        index := index[members[i].call.id := i];
      }
      assert members[..|members|] == members;
    }
  }

  /** The runner's side of the authority: what it commits behind the epochs' back, and
      whose task's progress it restored. */
  class TaskProgress {
    const authority: Authority
    var owner: Option<string>
    var restoreStop: Option<StopReason>

    ghost function Holds(): Held
      reads this, authority
    {
      Held(owner, authority.FactsFor(""))
    }

    constructor (authority: Authority)
      ensures this.authority == authority && owner.None? && restoreStop.None?
    {
      this.authority, owner, restoreStop := authority, None, None;
    }

    /** A detached call is over; its epoch closed on the receipt. */
    method CommitBackground(steps: seq<Accepted>, materialChanged: bool)
      modifies authority
      ensures authority.FactsFor("") == Wrote(old(authority.FactsFor("")), Background(steps, materialChanged))
    {
      authority.CommitSteps(Collapsed(steps), [], materialChanged);
    }

    /** `restore_task_progress`: the stop it returns is the one of the last restore, or
        "unknown" when this one failed. */
    method RestoreTask(task: Option<string>, archive: Archive, latest: Option<Recovery.Record>)
        returns (stop: Option<StopReason>)
      modifies this, authority
      ensures Holds() == Switching(old(Holds()), task, archive, FromRecord(latest))
      ensures task.None? || old(owner) == task ==> restoreStop == old(restoreStop) == stop
      ensures task.Some? && old(owner) != task ==>
                if Holds().owner != task then restoreStop == old(restoreStop) && stop == Some(Unknown)
                else restoreStop == stop == if archive.StoredWith? then FromRecord(latest).value.1 else None
    {
      if task.None? || owner == task {
        return restoreStop;
      }
      match archive {
        case StoreFailed => return Some(Unknown);
        case NoArchive =>
          if owner.Some? {
            authority.RestoreFacts(NO_FACTS);
          }
          owner, restoreStop := task, None;
        case StoredWith(_, _) =>
          var facts, lasting := NO_FACTS, None;
          if latest.Some? {
            var replayed := Recovery.ReplayEpoch(latest.value);
            if replayed.None? {
              return Some(Unknown);
            }
            facts, lasting := replayed.value.0, replayed.value.1;
          }
          authority.RestoreFacts(facts);
          owner, restoreStop := task, lasting;
      }
      stop := restoreStop;
    }
  }

  /** Weighing one more reason against the dominant one weighs it against all. */
  lemma DominantOfMore(reasons: seq<StopReason>, more: StopReason)
    requires reasons != []
    ensures Dominant(reasons + [more]) == Dominant([Dominant(reasons).value, more])
  {
    var best := Dominant(reasons).value;
    assert (reasons + [more])[..|reasons|] == reasons;
    assert [best, more][..1] == [best] && [best][..0] == [];
  }

  /** The dictionary of the open epoch: each native id leads to its last member. */
  ghost predicate Indexed(index: map<string, nat>, members: seq<Member>, first: nat) {
    forall id: string :: (if id in index then Some(index[id]) else None) == WithId(members, first, id)
  }

  lemma {:induction false} WithIdGoesByCalls(before: seq<Member>, after: seq<Member>, first: nat, id: string)
    requires |before| == |after| && forall i :: 0 <= i < |before| ==> before[i].call == after[i].call
    ensures WithId(before, first, id) == WithId(after, first, id)
    decreases |before|
  {
    if first < |before| {
      WithIdGoesByCalls(before[..|before| - 1], after[..|after| - 1], first, id);
    }
  }

  lemma IndexIgnoresState(index: map<string, nat>, before: seq<Member>, after: seq<Member>, first: nat)
    requires Indexed(index, before, first) && |before| == |after|
    requires forall i :: 0 <= i < |before| ==> before[i].call == after[i].call
    ensures Indexed(index, after, first)
  {
    forall id: string ensures WithId(before, first, id) == WithId(after, first, id) {
      WithIdGoesByCalls(before, after, first, id);
    }
  }

  // -- conflicts ---------------------------------------------------------------------------------------------

  lemma {:induction false} OneCounts(t: Tools, calls: seq<Call>, i: nat)
    requires i < |calls| && t.mutates(calls[i].tool)
    ensures |BodyCalls(t, calls)| >= 1
  {
    if i < |calls| - 1 {
      OneCounts(t, calls[..|calls| - 1], i);
    }
  }

  lemma {:induction false} TwoCount(t: Tools, calls: seq<Call>, i: nat, j: nat)
    requires i < j < |calls| && t.mutates(calls[i].tool) && t.mutates(calls[j].tool)
    ensures |BodyCalls(t, calls)| >= 2
  {
    if j < |calls| - 1 {
      TwoCount(t, calls[..|calls| - 1], i, j);
    } else {
      OneCounts(t, calls[..j], i);
    }
  }

  lemma {:induction false} OneBodyCall(t: Tools, calls: seq<Call>)
    requires forall i, j :: 0 <= i < j < |calls| ==> !(t.mutates(calls[i].tool) && t.mutates(calls[j].tool))
    ensures |BodyCalls(t, calls)| <= 1
  {
    if calls != [] {
      var n := |calls| - 1;
      OneBodyCall(t, calls[..n]);
      assert BodyCalls(t, calls[..n]) != [] ==> BodyCalls(t, calls[..n])[0] in BodyCalls(t, calls[..n]);
    }
  }

  predicate TwoMutate(t: Tools, calls: seq<Call>) {
    exists i, j :: 0 <= i < j < |calls| && t.mutates(calls[i].tool) && t.mutates(calls[j].tool)
  }

  /** A batch flags its body-mutating calls, all of them, exactly when it has two. */
  lemma {:induction false} ConflictsIff(t: Tools, calls: seq<Call>, k: nat)
    requires k < |calls| && t.mutates(calls[k].tool)
    ensures Issued(t, calls, Conflicting(t, calls))[k].conflict <==> TwoMutate(t, calls)
  {
    var body := BodyCalls(t, calls);
    if TwoMutate(t, calls) {
      var i, j :| 0 <= i < j < |calls| && t.mutates(calls[i].tool) && t.mutates(calls[j].tool);
      TwoCount(t, calls, i, j);
      assert calls[k] in body;
      assert calls[k].id in Conflicting(t, calls);
    } else {
      OneBodyCall(t, calls);
    }
  }

  // -- runs ----------------------------------------------------------------------------------------------------

  datatype Op =
    | Open(id: string, task: Option<string>, calls: seq<Call>)
    | Claim(tool: string, input: string, nativeId: Option<string>)
    | Settle(handle: nat, s: Settlement)
    | CutOff(reason: string)
    | Outside(w: Write)
    | Restore(task: Option<string>)

  datatype Event = Event(op: Op, goal: string, archive: Archive)

  function Apply(t: Tools, st: State, e: Event): (r: State)
    requires Sound(st)
    ensures Sound(r)
  {
    match e.op
    case Open(id, task, calls) => Opened(t, st, id, task, calls, e.goal, e.archive)
    case Claim(tool, input, nativeId) =>
      var c := Candidate(t, st, tool, input, nativeId);
      if c.Some? then Claimed(st, c.value) else st
    case Settle(handle, s) => if handle < |st.members| then Settled(t, st, handle, s, e.goal, e.archive).0 else st
    case CutOff(reason) => CutShort(t, st, reason, e.goal, e.archive).0
    case Outside(w) => Written(st, w)
    case Restore(task) => Switched(st, task, e.archive)
  }

  function Run(t: Tools, st: State, events: seq<Event>): (r: State)
    requires Sound(st)
    ensures Sound(r)
    decreases |events|
  {
    if events == [] then st else Apply(t, Run(t, st, events[..|events| - 1]), events[|events| - 1])
  }

  /** A member's row only gains: a claim once made stays, and once settled nothing but
      the claim can change. */
  predicate RowKept(a: Member, b: Member) {
    && b.call == a.call && b.order == a.order && b.bodyMutating == a.bodyMutating && b.conflict == a.conflict
    && (a.claimed ==> b.claimed)
    && (a.status.Some? ==> b == a.(claimed := b.claimed))
  }

  predicate Kept(a: State, b: State) {
    && |a.members| <= |b.members|
    && (forall h :: 0 <= h < |a.members| ==> RowKept(a.members[h], b.members[h]))
    && a.committed <= b.committed && a.stored <= b.stored && a.replays <= b.replays && a.openings <= b.openings
    && a.starts <= b.starts
  }

  lemma CommitKeeps(t: Tools, st: State, goal: string, archive: Archive)
    requires History(st) && st.active.Some? && st.active.value.first <= |st.members|
             && SettledUpTo(st.members, |st.members|)
    ensures Kept(st, Finalized(t, st, goal, archive).0)
  {
  }

  lemma CutKeeps(t: Tools, st: State, reason: string, goal: string, archive: Archive)
    requires Sound(st)
    ensures Kept(st, CutShort(t, st, reason, goal, archive).0)
  {
    if st.active.Some? {
      CommitKeeps(t, st.(members := CancelledFrom(st.members, st.active.value.first, reason)), goal, archive);
    }
  }

  lemma SettleKeeps(t: Tools, st: State, handle: nat, s: Settlement, goal: string, archive: Archive)
    requires Sound(st) && handle < |st.members|
    ensures Kept(st, Settled(t, st, handle, s, goal, archive).0)
  {
    if st.active.Some? && st.members[handle].status.None? {
      var after := st.(members := st.members[handle := SettledMember(st.members[handle], s)]);
      if !Waiting(after.members, st.active.value.first) {
        CommitKeeps(t, after, goal, archive);
      }
    }
  }

  lemma OpenKeeps(t: Tools, st: State, id: string, task: Option<string>, calls: seq<Call>, goal: string,
                  archive: Archive)
    requires Sound(st)
    ensures Kept(st, Opened(t, st, id, task, calls, goal, archive))
  {
    if calls != [] {
      var cut := CutShort(t, st, "next_model_response", goal, archive).0;
      CutKeeps(t, st, "next_model_response", goal, archive);
      BegunKeeps(t, cut, id, task, calls);
      KeptTwice(st, cut, Begun(t, cut, id, task, calls));
    }
  }

  lemma KeptTwice(a: State, b: State, c: State)
    requires Kept(a, b) && Kept(b, c)
    ensures Kept(a, c)
  {
    forall h | 0 <= h < |a.members| ensures RowKept(a.members[h], c.members[h]) {
      assert RowKept(a.members[h], b.members[h]) && RowKept(b.members[h], c.members[h]);
    }
  }

  lemma BegunKeeps(t: Tools, st: State, id: string, task: Option<string>, calls: seq<Call>)
    requires Sound(st) && st.active.None? && calls != []
    ensures Kept(st, Begun(t, st, id, task, calls))
  {
  }

  lemma ClaimKeeps(t: Tools, st: State, tool: string, input: string, nativeId: Option<string>)
    requires Sound(st)
    ensures var c := Candidate(t, st, tool, input, nativeId);
            c.Some? ==> Kept(st, Claimed(st, c.value))
  {
  }

  lemma StepKeeps(t: Tools, st: State, e: Event)
    requires Sound(st)
    ensures Kept(st, Apply(t, st, e))
  {
    match e.op
    case Open(id, task, calls) => OpenKeeps(t, st, id, task, calls, e.goal, e.archive);
    case Claim(tool, input, nativeId) => ClaimKeeps(t, st, tool, input, nativeId);
    case Settle(handle, s) => if handle < |st.members| { SettleKeeps(t, st, handle, s, e.goal, e.archive); }
    case CutOff(reason) => CutKeeps(t, st, reason, e.goal, e.archive);
    case Outside(w) => OutsideKeeps(st, w, None, e.archive);
    case Restore(task) => OutsideKeeps(st, Invalidated(""), task, e.archive);
  }

  lemma OutsideKeeps(st: State, w: Write, task: Option<string>, archive: Archive)
    ensures Kept(st, Written(st, w)) && Kept(st, Switched(st, task, archive))
  {
  }

  lemma {:induction false} RunKeeps(t: Tools, st: State, events: seq<Event>)
    requires Sound(st)
    ensures Kept(st, Run(t, st, events))
  {
    if events != [] {
      var before := Run(t, st, events[..|events| - 1]);
      RunKeeps(t, st, events[..|events| - 1]);
      StepKeeps(t, before, events[|events| - 1]);
    }
  }

  /** A member is claimed at most once in any run. */
  lemma ClaimedOnce(t: Tools, st: State, tool: string, input: string, nativeId: Option<string>, events: seq<Event>,
                    tool': string, input': string, nativeId': Option<string>)
    requires Sound(st) && Candidate(t, st, tool, input, nativeId).Some?
    ensures var handle := Candidate(t, st, tool, input, nativeId);
            Candidate(t, Run(t, Claimed(st, handle.value), events), tool', input', nativeId') != handle
  {
    var handle := Candidate(t, st, tool, input, nativeId).value;
    RunKeeps(t, Claimed(st, handle), events);
  }

  /** A member is settled at most once in any run: whatever happens after, settling it
      again changes nothing and stops nothing. */
  lemma SettledOnce(t: Tools, st: State, handle: nat, s: Settlement, goal: string, archive: Archive, events: seq<Event>,
                    s': Settlement, goal': string, archive': Archive)
    requires Sound(st) && handle < |st.members|
    ensures var after := Run(t, Settled(t, st, handle, s, goal, archive).0, events);
            && handle < |after.members|
            && Settled(t, after, handle, s', goal', archive') == (after, None)
  {
    RunKeeps(t, Settled(t, st, handle, s, goal, archive).0, events);
  }

  /** A settlement left over from an earlier epoch never touches the open one. */
  lemma LateSettlementIsIgnored(t: Tools, events: seq<Event>, handle: nat, s: Settlement, goal: string,
                                archive: Archive)
    requires var st := Run(t, INITIAL, events);
             handle < |st.members| && (st.active.Some? ==> handle < st.active.value.first)
    ensures var st := Run(t, INITIAL, events); Settled(t, st, handle, s, goal, archive) == (st, None)
  {
  }

  /** The ids of the batches a run of events opens. */
  function Opening(events: seq<Event>): seq<string> {
    if events == [] then []
    else
      var op := events[|events| - 1].op;
      Opening(events[..|events| - 1]) + if op.Open? && op.calls != [] then [op.id] else []
  }

  lemma StepOpens(t: Tools, st: State, e: Event)
    requires Sound(st)
    ensures Apply(t, st, e).openings == st.openings + if e.op.Open? && e.op.calls != [] then [e.op.id] else []
  {
    match e.op
    case Open(_, _, _) =>
    case Claim(_, _, _) =>
    case Settle(_, _) =>
    case CutOff(_) =>
    case Outside(_) =>
    case Restore(_) =>
  }

  lemma {:induction false} RunOpens(t: Tools, events: seq<Event>)
    ensures Run(t, INITIAL, events).openings == Opening(events)
  {
    if events != [] {
      RunOpens(t, events[..|events| - 1]);
      StepOpens(t, Run(t, INITIAL, events[..|events| - 1]), events[|events| - 1]);
    }
  }

  /** In every run the epochs committed are the epochs the events opened, each once and
      in that order; only the last one can still be open, and it alone has members
      pending. */
  lemma EpochsCommitOnceInOrder(t: Tools, events: seq<Event>)
    ensures var (st, all) := (Run(t, INITIAL, events), Opening(events));
            && (st.active.None? ==> st.committed == all)
            && (st.active.Some? ==>
                all != [] && st.committed == all[..|all| - 1] && st.active.value.id == all[|all| - 1])
            && (st.active.Some? <==> Waiting(st.members, 0))
  {
    RunOpens(t, events);
    var st := Run(t, INITIAL, events);
    if st.active.Some? {
      var i :| st.active.value.first <= i < |st.members| && st.members[i].status.None?;
      assert st.members[i].status.None?;
    }
  }
}
