/** What the progress archive gives back after a restart: which records of a run
    replay, and when what they replay to is what the authority held. */
module ProgressDurability {
  import opened Options
  import opened ProgressAuthority
  import opened ProgressEpochAdapter
  import Recovery = ProgressRecovery

  // -- which records replay --------------------------------------------------------------------------------

  /** What every stored epoch is, whatever was settled in it. */
  predicate Logged(e: Recovery.Epoch, after: Facts) {
    && Recovery.TypedSteps(e.steps) && after == Recovery.LiveFacts(e)
    && |e.steps| <= 1 && (!e.apply ==> e.steps == [])
    && (forall i :: 0 <= i < |e.steps| ==> (e.steps[i].kind == Note <==> e.steps[i].success.Some?))
    && Recovery.TupleAction(e.before)
  }

  ghost predicate AllLogged(st: State) {
    && Recovery.TupleAction(st.facts) && |st.stored| == |st.replays|
    && (forall i :: 0 <= i < |st.stored| ==> Logged(st.stored[i], st.replays[i]))
  }

  lemma CollapsedIsLogged(e: Recovery.Epoch, steps: seq<Accepted>)
    requires e.steps == Collapsed(steps) && (!e.apply ==> e.steps == []) && Recovery.TupleAction(e.before)
    ensures Logged(e, Recovery.LiveFacts(e)) && Recovery.TupleAction(Recovery.LiveFacts(e))
  {
    if steps != [] {
      TakenOnce(e.before, Summary(steps));
    } else {
      assert TakenAll(e.before, []) == e.before;
    }
  }

  lemma CommitIsLogged(t: Tools, st: State, members: seq<Member>, goal: string, archive: Archive)
    requires Recovery.TupleAction(st.facts)
    ensures var e := CommitOf(t, st, members, goal, archive);
            Logged(e, Recovery.LiveFacts(e)) && Recovery.TupleAction(Recovery.LiveFacts(e))
  {
    CollapsedIsLogged(CommitOf(t, st, members, goal, archive), AllSteps(members));
  }

  lemma FinalizedIsLogged(t: Tools, st: State, goal: string, archive: Archive)
    requires History(st) && st.active.Some? && st.active.value.first <= |st.members|
             && SettledUpTo(st.members, |st.members|)
    requires AllLogged(st)
    ensures AllLogged(Finalized(t, st, goal, archive).0)
  {
    CommitIsLogged(t, st, st.members[st.active.value.first..], goal, archive);
  }

  lemma CutIsLogged(t: Tools, st: State, reason: string, goal: string, archive: Archive)
    requires Sound(st) && AllLogged(st)
    ensures AllLogged(CutShort(t, st, reason, goal, archive).0)
  {
    if st.active.Some? {
      FinalizedIsLogged(t, st.(members := CancelledFrom(st.members, st.active.value.first, reason)), goal, archive);
    }
  }

  lemma SettleIsLogged(t: Tools, st: State, handle: nat, s: Settlement, goal: string, archive: Archive)
    requires Sound(st) && AllLogged(st) && handle < |st.members|
    ensures AllLogged(Settled(t, st, handle, s, goal, archive).0)
  {
    if st.active.Some? && st.members[handle].status.None? {
      var after := st.(members := st.members[handle := SettledMember(st.members[handle], s)]);
      if !Waiting(after.members, st.active.value.first) {
        FinalizedIsLogged(t, after, goal, archive);
      }
    }
  }

  lemma WroteStaysTuple(f: Facts, w: Write)
    requires Recovery.TupleAction(f)
    ensures Recovery.TupleAction(Wrote(f, w))
  {
    if w.Background? && w.steps != [] {
      TakenOnce(f, Summary(w.steps));
    } else if w.Background? {
      assert TakenAll(f, []) == f;
    }
  }

  /** A key that was read back is a tuple, and can be read again. */
  lemma {:induction false} TupledIsReadable(v: Value)
    requires Recovery.Readable(v)
    ensures Recovery.Tupled(v).VTuple? && Recovery.Readable(Recovery.Tupled(v))
    decreases v, 1
  {
    TupledItemsAreReadable(v.items);
  }

  lemma {:induction false} TupledItemsAreReadable(items: seq<Value>)
    requires Recovery.AllReadable(items)
    ensures Recovery.AllReadable(Recovery.TupledAll(items))
    decreases items, 0
  {
    if items != [] {
      if items[0].VTuple? || items[0].VList? {
        TupledIsReadable(items[0]);
      }
      TupledItemsAreReadable(items[1..]);
      assert Recovery.TupledAll(items)[1..] == Recovery.TupledAll(items[1..]);
    }
  }

  lemma LiveAction(e: Recovery.Epoch)
    requires Recovery.TypedSteps(e.steps) && |e.steps| <= 1 && (!e.apply ==> e.steps == [])
    ensures Recovery.LiveFacts(e).lastAction
            == if e.steps == [] || !Recovery.Remembers(e.steps[0]) then e.before.lastAction
              else Some(e.steps[0].actionKey)
  {
    if e.steps != [] {
      assert e.steps == [e.steps[0]] && e.steps[0] in e.steps;
      TakenOnce(e.before, e.steps[0]);
    } else {
      assert TakenAll(e.before, []) == e.before;
    }
  }

  /** What a readable record replays to remembers a readable tuple, if anything. */
  lemma ReplayedActionIsReadable(e: Recovery.Epoch, after: Facts)
    requires Logged(e, after) && Recovery.ReadableEpoch(e)
    ensures Recovery.TypedSteps(Recovery.TupledEpoch(e).steps)
    ensures var back := Recovery.LiveFacts(Recovery.TupledEpoch(e));
            Recovery.TupleAction(back) && Recovery.ReadableFacts(back)
  {
    Recovery.TupledStaysTyped(e);
    LiveAction(Recovery.TupledEpoch(e));
    if e.before.lastAction.Some? {
      TupledIsReadable(e.before.lastAction.value);
    }
    if e.steps != [] {
      TupledIsReadable(e.steps[0].actionKey);
    }
  }

  lemma RecalledIsTuple(stored: seq<Recovery.Epoch>, replays: seq<Facts>, task: string)
    requires |stored| == |replays| && forall i :: 0 <= i < |stored| ==> Logged(stored[i], replays[i])
    ensures Recalled(stored, task).Some? ==>
              Recovery.TupleAction(Recalled(stored, task).value.0)
                && Recovery.ReadableFacts(Recalled(stored, task).value.0)
  {
    if Latest(stored, task).Some? {
      var i :| 0 <= i < |stored| && stored[i] == Latest(stored, task).value;
      assert Logged(stored[i], replays[i]);
      Recovery.ReplayOf(stored[i], Unknown);
      if Recovery.ReadableEpoch(stored[i]) {
        ReplayedActionIsReadable(stored[i], replays[i]);
      }
    }
  }

  lemma RestoreIsLogged(st: State, task: Option<string>, archive: Archive)
    requires AllLogged(st)
    ensures AllLogged(Switched(st, task, archive))
  {
    if task.Some? {
      RecalledIsTuple(st.stored, st.replays, task.value);
    }
  }

  lemma StepIsLogged(t: Tools, st: State, e: Event)
    requires Sound(st) && AllLogged(st)
    ensures AllLogged(Apply(t, st, e))
  {
    match e.op
    case Claim(_, _, _) =>
    case Open(_, _, _) => CutIsLogged(t, st, "next_model_response", e.goal, e.archive);
    case Settle(handle, s) => if handle < |st.members| { SettleIsLogged(t, st, handle, s, e.goal, e.archive); }
    case CutOff(reason) => CutIsLogged(t, st, reason, e.goal, e.archive);
    case Outside(w) => WroteStaysTuple(st.facts, w);
    case Restore(task) => RestoreIsLogged(st, task, e.archive);
  }

  lemma {:induction false} RunsAreLogged(t: Tools, events: seq<Event>)
    ensures AllLogged(Run(t, INITIAL, events))
  {
    if events != [] {
      RunsAreLogged(t, events[..|events| - 1]);
      StepIsLogged(t, Run(t, INITIAL, events[..|events| - 1]), events[|events| - 1]);
    }
  }

  /** Which stored epochs replay.  In every run, with any steps whatever, a stored epoch
      replays if and only if the action it starts from and its collapsed step can be
      read back. */
  lemma StoredEpochsReplayIff(t: Tools, events: seq<Event>, i: nat)
    requires i < |Run(t, INITIAL, events).stored|
    ensures var e := Run(t, INITIAL, events).stored[i];
            Recovery.Replayed(Recovery.Stored(e)).Some?
            <==> Recovery.ReadableFacts(e.before) && (e.steps == [] || Recovery.Readable(e.steps[0].actionKey))
  {
    RunsAreLogged(t, events);
    var st := Run(t, INITIAL, events);
    LoggedReplaysIff(st.stored[i], st.replays[i]);
  }

  /** So does the record marked with any stop; and marking it with the epoch's own stop
      does not change what it replays to. */
  lemma MarkedEpochsReplayIff(t: Tools, events: seq<Event>, i: nat, reason: StopReason)
    requires i < |Run(t, INITIAL, events).stored|
    ensures var record := Recovery.Stored(Run(t, INITIAL, events).stored[i]);
            && (Recovery.Replayed(Recovery.Marked(record, reason)).Some? <==> Recovery.Replayed(record).Some?)
            && (Dominant(Run(t, INITIAL, events).stored[i].pending) == Some(reason) ==>
                  Recovery.Replayed(Recovery.Marked(record, reason)) == Recovery.Replayed(record))
  {
    RunsAreLogged(t, events);
    var st := Run(t, INITIAL, events);
    var e := st.stored[i];
    assert Logged(e, st.replays[i]);
    Recovery.MarkedReplaysIff(e, reason);
    Recovery.CrashEquivalence(e);
  }

  /** It replays to the very facts its commit left and to its stop if and only if,
      besides, storage leaves that outcome alone. */
  lemma StoredEpochsReplayExactlyIff(t: Tools, events: seq<Event>, i: nat)
    requires i < |Run(t, INITIAL, events).stored|
    ensures var st := Run(t, INITIAL, events);
            && |st.replays| == |st.stored|
            && (Recovery.Replayed(Recovery.Stored(st.stored[i]))
                == Some((st.replays[i], Recovery.LiveStop(st.stored[i])))
                <==> Recovery.ReadableEpoch(st.stored[i]) && Recovery.KeepsKeys(st.stored[i]))
  {
    RunsAreLogged(t, events);
    var st := Run(t, INITIAL, events);
    assert Logged(st.stored[i], st.replays[i]);
    Recovery.ExactReplayIff(st.stored[i]);
  }

  lemma LoggedIsReadableIff(e: Recovery.Epoch, after: Facts)
    requires Logged(e, after)
    ensures Recovery.ReadableEpoch(e)
            <==> Recovery.ReadableFacts(e.before) && (e.steps == [] || Recovery.Readable(e.steps[0].actionKey))
  {
    if e.steps != [] {
      assert e.steps[0] in e.steps;
    }
  }

  lemma LoggedReplaysIff(e: Recovery.Epoch, after: Facts)
    requires Logged(e, after)
    ensures Recovery.Replayed(Recovery.Stored(e)).Some?
            <==> Recovery.ReadableFacts(e.before) && (e.steps == [] || Recovery.Readable(e.steps[0].actionKey))
  {
    Recovery.CrashEquivalence(e);
    LoggedIsReadableIff(e, after);
  }

  // -- how the authority came by its facts ----------------------------------------------------------------

  /** The base of some facts is what its origin says, in terms of what is on record. */
  predicate Founded(since: Since, stored: seq<Recovery.Epoch>, replays: seq<Facts>) {
    match since.origin
    case Unrecorded => true
    case OfCommit(i) => i + 1 == |stored| == |replays| && since.base == replays[i].(goal := "")
    case OfTask(task) => Recalled(stored, task).Some? && since.base == Recalled(stored, task).value.0.(goal := "")
  }

  /** The facts held are the base and what was written from outside since, and so were
      those every stored epoch started from. */
  ghost predicate Traced(st: State) {
    && |st.stored| == |st.replays| == |st.starts|
    && st.since.base.goal == "" && st.facts == WroteAll(st.since.base, st.since.writes)
    && Founded(st.since, st.stored, st.replays)
    && forall k :: 0 <= k < |st.starts| ==> StartTraced(st, k)
  }

  predicate StartTraced(st: State, k: nat)
    requires k < |st.stored| == |st.replays| == |st.starts|
  {
    && st.stored[k].before.(goal := "") == WroteAll(st.starts[k].base, st.starts[k].writes)
    && Founded(st.starts[k], st.stored[..k], st.replays[..k])
  }

  lemma WroteKeepsGoal(f: Facts, w: Write)
    ensures Wrote(f, w).goal == f.goal
  {
    if w.Background? {
      CommittedKeepsGoal(f, Collapsed(w.steps), [], w.materialChanged, f.goal);
      assert f.(goal := f.goal) == f;
    }
  }

  lemma {:induction false} WroteAllKeepsGoal(f: Facts, writes: seq<Write>)
    ensures WroteAll(f, writes).goal == f.goal
  {
    if writes != [] {
      WroteAllKeepsGoal(f, writes[..|writes| - 1]);
      WroteKeepsGoal(WroteAll(f, writes[..|writes| - 1]), writes[|writes| - 1]);
    }
  }

  lemma RecordTraces(st: State, e: Recovery.Epoch, keys: seq<string>, archive: Archive)
    requires Traced(st) && Recovery.TypedSteps(e.steps)
    requires e.before.(goal := "") == st.facts.(goal := "")
    ensures Traced(Recorded(st, keys, e, archive))
  {
    var after := Recorded(st, keys, e, archive);
    WroteAllKeepsGoal(st.since.base, st.since.writes);
    assert st.facts.(goal := "") == st.facts;
    forall k | 0 <= k < |after.starts| ensures StartTraced(after, k) {
      if k < |st.starts| {
        assert StartTraced(st, k);
        assert after.stored[..k] == st.stored[..k] && after.replays[..k] == st.replays[..k];
      } else {
        assert after.stored[..k] == st.stored && after.replays[..k] == st.replays;
      }
    }
  }

  lemma FinalizedTraces(t: Tools, st: State, goal: string, archive: Archive)
    requires History(st) && st.active.Some? && st.active.value.first <= |st.members|
             && SettledUpTo(st.members, |st.members|)
    requires Traced(st)
    ensures Traced(Finalized(t, st, goal, archive).0)
  {
    var members := st.members[st.active.value.first..];
    RecordTraces(st, CommitOf(t, st, members, goal, archive), Distinct(AllKeys(members)), archive);
  }

  /** Only the history and the facts matter. */
  lemma TracedByHistory(a: State, b: State)
    requires Traced(a)
             && (b.stored, b.replays, b.starts, b.since, b.facts) == (a.stored, a.replays, a.starts, a.since, a.facts)
    ensures Traced(b)
  {
    forall k | 0 <= k < |b.starts| ensures StartTraced(b, k) {
      assert StartTraced(a, k);
    }
  }

  lemma CutTraces(t: Tools, st: State, reason: string, goal: string, archive: Archive)
    requires Sound(st) && Traced(st)
    ensures Traced(CutShort(t, st, reason, goal, archive).0)
  {
    if st.active.Some? {
      var cut := st.(members := CancelledFrom(st.members, st.active.value.first, reason));
      TracedByHistory(st, cut);
      FinalizedTraces(t, cut, goal, archive);
    }
  }

  lemma SettleTraces(t: Tools, st: State, handle: nat, s: Settlement, goal: string, archive: Archive)
    requires Sound(st) && Traced(st) && handle < |st.members|
    ensures Traced(Settled(t, st, handle, s, goal, archive).0)
  {
    if st.active.Some? && st.members[handle].status.None? {
      var after := st.(members := st.members[handle := SettledMember(st.members[handle], s)]);
      TracedByHistory(st, after);
      if !Waiting(after.members, st.active.value.first) {
        FinalizedTraces(t, after, goal, archive);
      }
    }
  }

  lemma WriteTraces(st: State, w: Write)
    requires Traced(st)
    ensures Traced(Written(st, w))
  {
    var (after, writes) := (Written(st, w), st.since.writes);
    assert (writes + [w])[..|writes|] == writes;
    forall k | 0 <= k < |after.starts| ensures StartTraced(after, k) {
      assert StartTraced(st, k);
    }
  }

  lemma RestoreTraces(st: State, task: Option<string>, archive: Archive)
    requires Traced(st)
    ensures Traced(Switched(st, task, archive))
  {
    var after := Switched(st, task, archive);
    forall k | 0 <= k < |after.starts| ensures StartTraced(after, k) {
      assert StartTraced(st, k);
    }
  }

  lemma StepTraces(t: Tools, st: State, e: Event)
    requires Sound(st) && Traced(st)
    ensures Traced(Apply(t, st, e))
  {
    match e.op
    case Open(id, task, calls) =>
      CutTraces(t, st, "next_model_response", e.goal, e.archive);
      var cut := CutShort(t, st, "next_model_response", e.goal, e.archive).0;
      TracedByHistory(if calls == [] then st else cut, Apply(t, st, e));
    case Claim(_, _, _) => TracedByHistory(st, Apply(t, st, e));
    case Settle(handle, s) => if handle < |st.members| { SettleTraces(t, st, handle, s, e.goal, e.archive); }
    case CutOff(reason) => CutTraces(t, st, reason, e.goal, e.archive);
    case Outside(w) => WriteTraces(st, w);
    case Restore(task) => RestoreTraces(st, task, e.archive);
  }

  lemma {:induction false} RunsAreTraced(t: Tools, events: seq<Event>)
    ensures Traced(Run(t, INITIAL, events))
  {
    if events != [] {
      RunsAreTraced(t, events[..|events| - 1]);
      StepTraces(t, Run(t, INITIAL, events[..|events| - 1]), events[|events| - 1]);
    }
  }

  // -- an archive that never fails ----------------------------------------------------------------------------

  predicate AllOnRecord(st: State) {
    |st.stored| == |st.committed| && forall i :: 0 <= i < |st.stored| ==> st.stored[i].id == st.committed[i]
  }

  /** When the archive never fails, every epoch committed is on record, in order. */
  lemma {:induction false} EveryCommitIsOnRecord(t: Tools, events: seq<Event>)
    requires forall e :: e in events ==> e.archive.StoredWith?
    ensures AllOnRecord(Run(t, INITIAL, events))
  {
    if events != [] {
      var n := |events| - 1;
      assert forall e :: e in events[..n] ==> e in events;
      EveryCommitIsOnRecord(t, events[..n]);
      assert events[n] in events;
      StepStaysOnRecord(t, Run(t, INITIAL, events[..n]), events[n]);
    }
  }

  lemma StepStaysOnRecord(t: Tools, st: State, e: Event)
    requires Sound(st) && AllOnRecord(st) && e.archive.StoredWith?
    ensures AllOnRecord(Apply(t, st, e))
  {
    match e.op
    case Open(_, _, _) => CutStaysOnRecord(t, st, "next_model_response", e.goal, e.archive);
    case Settle(handle, s) => if handle < |st.members| { SettleStaysOnRecord(t, st, handle, s, e.goal, e.archive); }
    case CutOff(reason) => CutStaysOnRecord(t, st, reason, e.goal, e.archive);
    case _ =>
  }

  lemma CutStaysOnRecord(t: Tools, st: State, reason: string, goal: string, archive: Archive)
    requires Sound(st) && AllOnRecord(st) && archive.StoredWith?
    ensures AllOnRecord(CutShort(t, st, reason, goal, archive).0)
  {
  }

  lemma SettleStaysOnRecord(t: Tools, st: State, handle: nat, s: Settlement, goal: string, archive: Archive)
    requires Sound(st) && AllOnRecord(st) && handle < |st.members| && archive.StoredWith?
    ensures AllOnRecord(Settled(t, st, handle, s, goal, archive).0)
  {
  }

  // -- what a restart gives back -------------------------------------------------------------------------------

  /** Restarting the program and restoring the task gives the facts held now. */
  predicate RestartKeeps(st: State, task: string) {
    Recalled(st.stored, task).Some? && Recalled(st.stored, task).value.0.(goal := "") == st.facts
  }

  /** Nothing written from outside since the last commit or restore made a difference. */
  predicate LeftAlone(st: State) {
    WroteAll(st.since.base, st.since.writes) == st.since.base
  }

  /** The facts the record of an epoch gives back. */
  function BackFrom(e: Recovery.Epoch): Facts
    requires Recovery.ReadableEpoch(e)
  {
    Recovery.TupledStaysTyped(e);
    Recovery.LiveFacts(Recovery.TupledEpoch(e)).(goal := "")
  }

  /** A restart after a restore gives back the facts exactly when nothing written since
      made a difference; a restart after a commit, when the record can be read and what
      it gives back is what the later writes made of the facts -- which, when nothing
      written since made a difference, means that storage left the outcome alone. */
  ghost predicate RestartIff(st: State, task: string) {
    match st.since.origin
    case Unrecorded => true
    case OfTask(owner) => owner == task ==> (RestartKeeps(st, task) <==> LeftAlone(st))
    case OfCommit(i) =>
      i < |st.stored| && st.stored[i].task == Some(task) ==>
        var e := st.stored[i];
        && (RestartKeeps(st, task)
            <==> Recovery.ReadableEpoch(e) && BackFrom(e) == WroteAll(st.since.base, st.since.writes))
        && (Recovery.ReadableEpoch(e) ==> (BackFrom(e) == st.since.base <==> Recovery.KeepsKeys(e)))
        && (RestartKeeps(st, task) ==> Recalled(st.stored, task).value.1 == Recovery.LiveStop(e))
  }

  lemma BackFromIff(e: Recovery.Epoch, after: Facts)
    requires Logged(e, after) && Recovery.ReadableEpoch(e)
    ensures Recovery.Replayed(Recovery.Stored(e)).Some?
    ensures Recovery.Replayed(Recovery.Stored(e)).value.0.(goal := "") == BackFrom(e)
    ensures Recovery.Replayed(Recovery.Stored(e)).value.1 == Recovery.LiveStop(e)
    ensures BackFrom(e) == after.(goal := "") <==> Recovery.KeepsKeys(e)
  {
    Recovery.TupledStaysTyped(e);
    Recovery.ReplayOf(e, Unknown);
    Recovery.OutcomeKeptIff(e);
    SameGoal(e);
    SameGoal(Recovery.TupledEpoch(e));
    GoalPutBack(after);
    GoalPutBack(Recovery.LiveFacts(Recovery.TupledEpoch(e)));
  }

  lemma SameGoal(e: Recovery.Epoch)
    requires Recovery.TypedSteps(e.steps)
    ensures Recovery.LiveFacts(e).goal == e.before.goal
  {
    CommittedKeepsGoal(e.before, e.steps, e.novel, e.materialChanged, e.before.goal);
    assert e.before.(goal := e.before.goal) == e.before;
  }

  lemma GoalPutBack(f: Facts)
    ensures f.(goal := "").(goal := f.goal) == f
  {
  }

  /** Restoring a task whose latest record is this epoch's. */
  lemma RecalledFrom(st: State, task: string, e: Recovery.Epoch, after: Facts)
    requires Logged(e, after) && Latest(st.stored, task) == Some(e)
    ensures Recalled(st.stored, task).Some? <==> Recovery.ReadableEpoch(e)
    ensures Recovery.ReadableEpoch(e) ==>
              && Recalled(st.stored, task).value.0.(goal := "") == BackFrom(e)
              && Recalled(st.stored, task).value.1 == Recovery.LiveStop(e)
              && (BackFrom(e) == after.(goal := "") <==> Recovery.KeepsKeys(e))
  {
    if Recovery.ReadableEpoch(e) {
      BackFromIff(e, after);
    } else {
      Recovery.CrashEquivalence(e);
    }
  }

  lemma TracedRestartIff(st: State, task: string)
    requires Traced(st) && AllLogged(st)
    ensures RestartIff(st, task)
  {
    if st.since.origin.OfCommit? && st.stored[st.since.origin.i].task == Some(task) {
      var i := st.since.origin.i;
      assert Latest(st.stored, task) == Some(st.stored[i]);
      assert Logged(st.stored[i], st.replays[i]);
      RecalledFrom(st, task, st.stored[i], st.replays[i]);
    }
  }

  /** So it is at any time in any run, whatever is opened, settled, written from outside
      or restored, and however the archive behaves. */
  lemma RestartKeepsFactsIff(t: Tools, events: seq<Event>, task: string)
    ensures var st := Run(t, INITIAL, events);
            st.facts == WroteAll(st.since.base, st.since.writes) && RestartIff(st, task)
  {
    RunsAreTraced(t, events);
    RunsAreLogged(t, events);
    TracedRestartIff(Run(t, INITIAL, events), task);
  }

  /** What a commit leaves to start from can be read exactly when the action it leaves
      can: its own if its step is remembered, else the one it started from. */
  lemma ReadabilityCarriesOver(e: Recovery.Epoch, after: Facts)
    requires Logged(e, after)
    ensures Recovery.ReadableFacts(after)
            <==> if e.steps == [] || !Recovery.Remembers(e.steps[0]) then Recovery.ReadableFacts(e.before)
                 else Recovery.Readable(e.steps[0].actionKey)
  {
    if e.steps != [] {
      assert e.steps == [e.steps[0]] && e.steps[0] in e.steps;
      TakenOnce(e.before, e.steps[0]);
    } else {
      assert TakenAll(e.before, []) == e.before;
    }
  }

  // -- what the next record starts from ------------------------------------------------------------------------

  /** The key of the last write that moves the remembered action. */
  function LastRemembered(writes: seq<Write>): Option<Value> {
    if writes == [] then None
    else
      var rest := LastRemembered(writes[..|writes| - 1]);
      match writes[|writes| - 1]
      case Background(steps, _) =>
        if steps != [] && Recovery.Remembers(Summary(steps)) then Some(Summary(steps).actionKey) else rest
      case Direct(step) => if Recovery.Remembers(step) then Some(step.actionKey) else rest
      case Invalidated(_) => rest
  }

  lemma WroteAction(f: Facts, w: Write)
    ensures Wrote(f, w).lastAction == if LastRemembered([w]).Some? then LastRemembered([w]) else f.lastAction
  {
    assert [w][..0] == [];
    if w.Background? && w.steps != [] {
      TakenOnce(f, Summary(w.steps));
    } else if w.Background? {
      assert TakenAll(f, []) == f;
    }
  }

  lemma {:induction false} WroteAllAction(f: Facts, writes: seq<Write>)
    ensures WroteAll(f, writes).lastAction
            == if LastRemembered(writes).Some? then LastRemembered(writes) else f.lastAction
  {
    if writes != [] {
      var n := |writes| - 1;
      WroteAllAction(f, writes[..n]);
      WroteAction(WroteAll(f, writes[..n]), writes[n]);
      assert [writes[n]][..0] == [];
    }
  }

  /** Whether what a stored epoch started from can be read. */
  predicate ReadableStart(st: State, k: nat)
    requires k < |st.stored| == |st.replays| == |st.starts|
  {
    var start := st.starts[k];
    match LastRemembered(start.writes)
    case Some(key) => Recovery.Readable(key)
    case None =>
      match start.origin
      case Unrecorded => Recovery.ReadableFacts(start.base)
      case OfCommit(i) => i + 1 == k && Recovery.ReadableFacts(st.replays[i])
      case OfTask(_) => true
  }

  lemma StartIsReadableIff(st: State, k: nat)
    requires Traced(st) && AllLogged(st) && k < |st.stored|
    ensures Recovery.ReadableFacts(st.stored[k].before) <==> ReadableStart(st, k)
  {
    var start := st.starts[k];
    assert StartTraced(st, k);
    WroteAllAction(start.base, start.writes);
    assert st.stored[k].before.lastAction == WroteAll(start.base, start.writes).lastAction;
    if start.origin.OfTask? {
      assert forall i :: 0 <= i < k ==> Logged(st.stored[..k][i], st.replays[..k][i]);
      RecalledIsTuple(st.stored[..k], st.replays[..k], start.origin.task);
    }
  }

  /** In every run a stored epoch replays if and only if its own step can be read and so
      can the last action remembered before it: from outside, else from the commit
      before it.  What a restore brought back can always be read. */
  lemma RecordReplaysIff(t: Tools, events: seq<Event>, k: nat)
    requires k < |Run(t, INITIAL, events).stored|
    ensures var st := Run(t, INITIAL, events);
            && |st.stored| == |st.replays| == |st.starts|
            && (Recovery.Replayed(Recovery.Stored(st.stored[k])).Some?
                <==> && ReadableStart(st, k)
                     && (st.stored[k].steps == [] || Recovery.Readable(st.stored[k].steps[0].actionKey)))
  {
    RunsAreTraced(t, events);
    RunsAreLogged(t, events);
    var st := Run(t, INITIAL, events);
    StartIsReadableIff(st, k);
    LoggedReplaysIff(st.stored[k], st.replays[k]);
  }

  /** A remembered step that cannot be read spoils its own record; and the next one,
      when that starts from it, exactly unless an outside write in between put a
      readable action in its place. */
  lemma UnreadableStepSpoilsTwo(t: Tools, events: seq<Event>, i: nat)
    requires i < |Run(t, INITIAL, events).stored|
    requires var e := Run(t, INITIAL, events).stored[i];
             e.steps != [] && Recovery.Remembers(e.steps[0]) && !Recovery.Readable(e.steps[0].actionKey)
    ensures var st := Run(t, INITIAL, events);
            && |st.stored| == |st.replays| == |st.starts|
            && Recovery.Replayed(Recovery.Stored(st.stored[i])).None?
            && (i + 1 < |st.stored| && st.starts[i + 1].origin == OfCommit(i) ==>
                  var between := LastRemembered(st.starts[i + 1].writes);
                  var next := st.stored[i + 1].before;
                  Recovery.ReadableFacts(next) <==> between.Some? && Recovery.Readable(between.value))
  {
    RunsAreTraced(t, events);
    RunsAreLogged(t, events);
    UnreadableStepSpoils(Run(t, INITIAL, events), i);
  }

  lemma UnreadableStepSpoils(st: State, i: nat)
    requires Traced(st) && AllLogged(st) && i < |st.stored|
    requires st.stored[i].steps != [] && Recovery.Remembers(st.stored[i].steps[0])
    requires !Recovery.Readable(st.stored[i].steps[0].actionKey)
    ensures Recovery.Replayed(Recovery.Stored(st.stored[i])).None?
    ensures i + 1 < |st.stored| && st.starts[i + 1].origin == OfCommit(i) ==>
              var between := LastRemembered(st.starts[i + 1].writes);
              Recovery.ReadableFacts(st.stored[i + 1].before) <==> between.Some? && Recovery.Readable(between.value)
  {
    LoggedReplaysIff(st.stored[i], st.replays[i]);
    if i + 1 < |st.stored| {
      StartIsReadableIff(st, i + 1);
      ReadabilityCarriesOver(st.stored[i], st.replays[i]);
    }
  }

  // -- what a restart loses ------------------------------------------------------------------------------------

  lemma WroteEvents(f: Facts, w: Write)
    ensures |Wrote(f, w).recentEvents| == |f.recentEvents| + if w.Invalidated? then 1 else 0
  {
    if w.Background? && w.steps != [] {
      TakenOnce(f, Summary(w.steps));
    } else if w.Background? {
      assert TakenAll(f, []) == f;
    }
  }

  lemma {:induction false} WroteAllEvents(f: Facts, writes: seq<Write>)
    ensures |WroteAll(f, writes).recentEvents| >= |f.recentEvents|
    ensures (exists w :: w in writes && w.Invalidated?) ==> |WroteAll(f, writes).recentEvents| > |f.recentEvents|
  {
    if writes != [] {
      var n := |writes| - 1;
      WroteAllEvents(f, writes[..n]);
      WroteEvents(WroteAll(f, writes[..n]), writes[n]);
      assert forall w :: w in writes ==> w in writes[..n] || w == writes[n];
    }
  }

  lemma TakenAllKeepsEvents(f: Facts, steps: seq<Accepted>)
    requires |steps| <= 1
    ensures TakenAll(f, steps).recentEvents == f.recentEvents && TakenAll(f, steps).epistemicSteps == f.epistemicSteps
  {
    if steps != [] {
      assert steps == [steps[0]];
      TakenOnce(f, steps[0]);
    }
  }

  lemma SameEvents(e: Recovery.Epoch, after: Facts)
    requires Logged(e, after) && Recovery.ReadableEpoch(e)
    ensures |BackFrom(e).recentEvents| == |after.recentEvents|
  {
    Recovery.TupledStaysTyped(e);
    TakenAllKeepsEvents(e.before, e.steps);
    TakenAllKeepsEvents(Recovery.TupledFacts(e.before), Recovery.TupledEpoch(e).steps);
  }

  /** Whose record the facts held now go back to. */
  predicate OnRecord(st: State, task: string) {
    match st.since.origin
    case Unrecorded => false
    case OfCommit(i) => i < |st.stored| && st.stored[i].task == Some(task)
    case OfTask(owner) => owner == task
  }

  /** A turn that was cancelled since the last commit or restore is always lost. */
  lemma InvalidationIsLost(t: Tools, events: seq<Event>, task: string, reason: string)
    requires OnRecord(Run(t, INITIAL, events), task)
    requires Invalidated(reason) in Run(t, INITIAL, events).since.writes
    ensures !RestartKeeps(Run(t, INITIAL, events), task)
  {
    var st := Run(t, INITIAL, events);
    RestartKeepsFactsIff(t, events, task);
    RunsAreTraced(t, events);
    RunsAreLogged(t, events);
    TracedInvalidationIsLost(st, task, reason);
  }

  lemma TracedInvalidationIsLost(st: State, task: string, reason: string)
    requires Traced(st) && AllLogged(st) && RestartIff(st, task) && OnRecord(st, task)
    requires Invalidated(reason) in st.since.writes
    ensures !RestartKeeps(st, task)
  {
    WroteAllEvents(st.since.base, st.since.writes);
    if st.since.origin.OfCommit? {
      var i := st.since.origin.i;
      assert Logged(st.stored[i], st.replays[i]);
      if Recovery.ReadableEpoch(st.stored[i]) {
        SameEvents(st.stored[i], st.replays[i]);
      }
    }
  }

  /** Whether a step leaves the facts as they are, but for the count of failures. */
  predicate StandsStill(f: Facts, s: Step) {
    if s.kind == Note && s.neutral then f.currentFingerprint == s.fingerprint
    else
      && f.lastAction == Some(s.actionKey) && f.lastFingerprint == f.currentFingerprint == s.fingerprint
      && f.stagnantSteps == f.stalledSteps == 0 && (s.fingerprint == "" || (s.kind == Note && s.success == Some(true)))
  }

  /** Whether an outside write leaves the facts as they are. */
  predicate ChangesNothing(f: Facts, w: Write) {
    match w
    case Invalidated(_) => false
    case Direct(s) => StandsStill(f, s) && FailuresStand(f, s)
    case Background(steps, materialChanged) =>
      && (steps != [] ==> StandsStill(f, Summary(steps)) && (!materialChanged ==> FailuresStand(f, Summary(steps))))
      && (materialChanged ==> f.failureSteps == f.epistemicSteps == 0 && f.lastEpistemicKeys == [])
  }

  predicate FailuresStand(f: Facts, s: Step) {
    s.kind == Note && !s.neutral ==> s.success == Some(true) && f.failureSteps == 0
  }

  lemma TakenChangesNothingIff(f: Facts, s: Step)
    requires WellTyped(s)
    ensures Taken(f, s).(failureSteps := f.failureSteps) == f <==> StandsStill(f, s)
    ensures Taken(f, s) == f <==> StandsStill(f, s) && FailuresStand(f, s)
  {
  }

  lemma CreditChangesNothingIff(f: Facts, taken: Facts, materialChanged: bool)
    ensures Credited(taken, [], materialChanged) == f
            <==> if materialChanged
                 then taken.(failureSteps := 0, epistemicSteps := 0, lastEpistemicKeys := []) == f
                 else taken == f
  {
  }

  /** One outside write is not lost exactly when it changes nothing, which the facts and
      the write tell before it is made. */
  lemma WriteChangesNothingIff(f: Facts, w: Write)
    ensures Wrote(f, w) == f <==> ChangesNothing(f, w)
  {
    match w
    case Invalidated(reason) => WroteEvents(f, w);
    case Direct(step) => TakenChangesNothingIff(f, step);
    case Background(steps, materialChanged) =>
      if steps == [] {
        assert TakenAll(f, []) == f;
        CreditChangesNothingIff(f, f, materialChanged);
      } else {
        TakenOnce(f, Summary(steps));
        TakenChangesNothingIff(f, Summary(steps));
        CreditChangesNothingIff(f, Taken(f, Summary(steps)), materialChanged);
        TakenKeepsEpistemic(f, Summary(steps));
      }
  }

  lemma TakenKeepsEpistemic(f: Facts, s: Step)
    requires WellTyped(s)
    ensures var after := Taken(f, s);
            after.epistemicSteps == f.epistemicSteps && after.lastEpistemicKeys == f.lastEpistemicKeys
  {
  }

  /** One call, opened and settled under an archive that stores it. */
  function OneCall(id: string, task: Option<string>, call: Call, goal: string, s: Settlement): seq<Event> {
    [Event(Open(id, task, [call]), goal, StoredWith([], true)), Event(Settle(0, s), goal, StoredWith([], true))]
  }

  lemma OneCallIsOpened(t: Tools, id: string, task: Option<string>, call: Call, goal: string, archive: Archive)
    ensures var st := Opened(t, INITIAL, id, task, [call], goal, archive);
            && st.active == Some(Batch(id, task, 0)) && |st.members| == 1 && st.members[0].status.None?
            && st.stored == [] && st.facts == NO_FACTS
  {
  }

  /** What one stored commit on fresh facts leaves. */
  predicate OneStored(st: State, task: Option<string>, goal: string, steps: seq<Accepted>) {
    |st.stored| == 1 &&
    var e := st.stored[0];
    && e.task == task && e.steps == Collapsed(steps) && e.before == NO_FACTS.(goal := goal)
    && Recovery.TypedSteps(e.steps) && st.facts == Recovery.LiveFacts(e).(goal := "")
    && st.since == Since(OfCommit(0), st.facts, [])
  }

  lemma OneMemberSettles(t: Tools, st: State, id: string, task: Option<string>, s: Settlement, goal: string,
                         archive: Archive)
    requires Sound(st) && st.active == Some(Batch(id, task, 0)) && |st.members| == 1 && st.members[0].status.None?
    requires st.stored == [] && st.facts == NO_FACTS && archive.StoredWith?
    ensures OneStored(Settled(t, st, 0, s, goal, archive).0, task, goal, s.steps)
  {
    var m := SettledMember(st.members[0], s);
    assert st.members[0 := m] == [m] && [m][0..] == [m];
    OneMembersSteps(m);
  }

  lemma RunOfTwo(t: Tools, a: Event, b: Event)
    ensures Run(t, INITIAL, [a, b]) == Apply(t, Apply(t, INITIAL, a), b)
  {
    assert [a, b][..1] == [a] && [a][..0] == [];
    assert Run(t, INITIAL, [a]) == Apply(t, INITIAL, a);
  }

  lemma OneCallIsStored(t: Tools, id: string, task: Option<string>, call: Call, goal: string, s: Settlement)
    ensures OneStored(Run(t, INITIAL, OneCall(id, task, call, goal, s)), task, goal, s.steps)
  {
    var (events, archive) := (OneCall(id, task, call, goal, s), StoredWith([], true));
    var first := Opened(t, INITIAL, id, task, [call], goal, archive);
    RunOfTwo(t, events[0], events[1]);
    OneCallIsOpened(t, id, task, call, goal, archive);
    OneMemberSettles(t, first, id, task, s, goal, archive);
  }

  /** Such a run can be two events long: one call is opened and settles with one step of
      the server navigator. */
  lemma NavigationRunDoesNotReplay(t: Tools, id: string, task: Option<string>, call: Call, goal: string, s: Settlement,
                                   start: Value, reason: string,
                                   anchor: Value)
    requires s.steps == [Step(Note, Recovery.NavigationKey(start, reason, anchor), "f", Some(true), false)]
    ensures var stored := Run(t, INITIAL, OneCall(id, task, call, goal, s)).stored;
            |stored| == 1 && Recovery.Replayed(Recovery.Stored(stored[0])).None?
  {
    OneCallIsStored(t, id, task, call, goal, s);
    Recovery.NavigationKeyIsUnreadable(start, reason, anchor);
    assert !Recovery.ReadableItem(s.steps[0].actionKey);
    CollapsedReadableIff(s.steps);
    StoredEpochsReplayIff(t, OneCall(id, task, call, goal, s), 0);
  }

  /** A direct call that outlives its window: its epoch closes on the receipt, without a
      step, and is stored; what the call did is committed later and not on record. */
  function DetachedCall(id: string, task: string, call: Call, goal: string, receipt: Settlement, w: Write): seq<Event> {
    OneCall(id, Some(task), call, goal, receipt) + [Event(Outside(w), goal, NoArchive)]
  }

  lemma ReceiptIsStored(st: State, task: string, goal: string)
    requires OneStored(st, Some(task), goal, [])
    ensures Recovery.ReadableEpoch(st.stored[0]) && Recovery.KeepsKeys(st.stored[0])
    ensures Recalled(st.stored, task).Some? && Recalled(st.stored, task).value.0.(goal := "") == st.facts
    ensures st.facts.currentFingerprint == ""
  {
    var e := st.stored[0];
    assert TakenAll(e.before, []) == e.before;
    assert Latest(st.stored, task) == Some(e);
    BackFromIff(e, Recovery.LiveFacts(e));
  }

  /** So a restart loses it, whatever the call did. */
  lemma BackgroundCommitIsLost(t: Tools, id: string, task: string, call: Call, goal: string, receipt: Settlement,
                               steps: seq<Accepted>, materialChanged: bool)
    requires receipt.steps == [] && LastFingerprint(steps) != ""
    ensures Lost(Run(t, INITIAL, DetachedCall(id, task, call, goal, receipt, Background(steps, materialChanged))), task)
  {
    OneCallIsStored(t, id, Some(task), call, goal, receipt);
    LostAfter(t, OneCall(id, Some(task), call, goal, receipt), task, goal, steps, materialChanged);
  }

  /** There is a record of the task, it can be read, and it is not what is held now. */
  predicate Lost(st: State, task: string) {
    |st.stored| == 1 && OnRecord(st, task) && Recalled(st.stored, task).Some? && !RestartKeeps(st, task)
  }

  lemma LostAfter(t: Tools, first: seq<Event>, task: string, goal: string, steps: seq<Accepted>, materialChanged: bool)
    requires OneStored(Run(t, INITIAL, first), Some(task), goal, []) && LastFingerprint(steps) != ""
    ensures Lost(Run(t, INITIAL, first + [Event(Outside(Background(steps, materialChanged)), goal, NoArchive)]), task)
  {
    BackgroundIsLost(Run(t, INITIAL, first), task, goal, steps, materialChanged);
    RunWrites(t, first, Background(steps, materialChanged), goal);
  }

  lemma RunWrites(t: Tools, events: seq<Event>, w: Write, goal: string)
    ensures Run(t, INITIAL, events + [Event(Outside(w), goal, NoArchive)]) == Written(Run(t, INITIAL, events), w)
  {
    assert (events + [Event(Outside(w), goal, NoArchive)])[..|events|] == events;
  }

  lemma BackgroundIsLost(st: State, task: string, goal: string, steps: seq<Accepted>, materialChanged: bool)
    requires OneStored(st, Some(task), goal, []) && LastFingerprint(steps) != ""
    ensures Lost(Written(st, Background(steps, materialChanged)), task)
  {
    ReceiptIsStored(st, task, goal);
    CollapsedCountsOnce(st.facts, steps, [], materialChanged);
  }

  lemma OneMembersSteps(m: Member)
    ensures AllSteps([m]) == m.steps
  {
    assert [m][..0] == [];
    assert [] + m.steps == m.steps;
  }

  /** The restored stop is the one the live commit raised, exactly unless that was one
      of the "not working" stops that restoring drops; a failed mark does not matter. */
  lemma RestoredStopIff(e: Recovery.Epoch, novel: seq<string>, marks: bool)
    ensures Recovery.LiveStop(e) == Dominant(Raised(e, StoredWith(novel, marks)))
            <==> (Dominant(e.pending).Some? ==> !Dominant(e.pending).value.Reviewable())
  {
    assert [] + e.pending == e.pending && e.pending + [] == e.pending;
    if Dominant(e.pending).Some? {
      DominantOfMore(e.pending, Unknown);
      var stop := Dominant(e.pending).value;
      assert [stop, Unknown][..1] == [stop] && [stop][..0] == [];
    }
  }
}
