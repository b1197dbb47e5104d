/** The progress counters (`ProgressAuthority`) and the stops they arbitrate. */
module ProgressAuthority {
  import opened Decimal
  import opened Options

  /** Python values an action key is built from.  What a dictionary holds is never
      looked at. */
  datatype Value =
    | VNone
    | VBool(b: bool)
    | VInt(n: int)
    | VFloat(f: Float)
    | VText(s: string)
    | VTuple(items: seq<Value>)
    | VList(items: seq<Value>)
    | VDict

  datatype Float = Finite(r: real) | NotFinite

  datatype Kind = Observe | Note

  datatype Step = Step(kind: Kind, actionKey: Value, fingerprint: string, success: Option<bool>, neutral: bool)

  datatype Facts = Facts(goal: string, lastAction: Option<Value>, stagnantSteps: nat, stalledSteps: nat,
                         failureSteps: nat,
                         lastFingerprint: string, currentFingerprint: string, recentEvents: seq<string>,
                         epistemicSteps: nat, lastEpistemicKeys: seq<string>)

  const NO_FACTS := Facts("", None, 0, 0, 0, "", "", [], 0, [])

  // -- stops -----------------------------------------------------------------------------------

  datatype StopReason = Unknown | NoProgress | EpistemicBudget | BodyTransport {
    function Priority(): nat {
      match this
      case NoProgress => 0
      case EpistemicBudget => 1
      case Unknown => 2
      case BodyTransport => 3
    }

    /** "Not working" stops of older runs, which restoring never brings back. */
    predicate Reviewable() { NoProgress? || EpistemicBudget? }
  }

  /** The first reason of the highest priority. */
  function Dominant(reasons: seq<StopReason>): (r: Option<StopReason>)
    ensures r.None? <==> reasons == []
    ensures r.Some? ==> r.value in reasons && forall s :: s in reasons ==> s.Priority() <= r.value.Priority()
  {
    if reasons == [] then None
    else
      match Dominant(reasons[..|reasons| - 1])
      case None => Some(reasons[|reasons| - 1])
      case Some(best) =>
        var last := reasons[|reasons| - 1];
        if last.Priority() > best.Priority() then Some(last) else Some(best)
  }

  // -- counters --------------------------------------------------------------------------------

  function Observed(f: Facts, key: Value, fingerprint: string): Facts {
    var progressed := f.lastFingerprint != "" && fingerprint != f.lastFingerprint;
    var counted :=
      if f.lastFingerprint == "" || progressed then f.(stagnantSteps := 0, stalledSteps := 0)
      else if f.lastAction == Some(key)
        then f.(stagnantSteps := f.stagnantSteps + 1, stalledSteps := f.stalledSteps + 1)
      else f.(stalledSteps := f.stalledSteps + 1);
    counted.(currentFingerprint := fingerprint, lastAction := Some(key), lastFingerprint := fingerprint)
  }

  function Noted(f: Facts, key: Value, success: bool, fingerprint: string, neutral: bool): Facts {
    if neutral then f.(currentFingerprint := fingerprint)
    else if success then
      f.(currentFingerprint := fingerprint, stagnantSteps := 0, stalledSteps := 0, failureSteps := 0,
         lastAction := Some(key), lastFingerprint := fingerprint)
    else
      var o := Observed(f, key, fingerprint);
      o.(failureSteps := o.failureSteps + 1)
  }

  /** A step the authority accepts: a note says whether it succeeded. */
  predicate WellTyped(step: Step) {
    step.kind == Note ==> step.success.Some?
  }

  function Taken(f: Facts, step: Step): Facts
    requires WellTyped(step)
  {
    if step.kind == Observe then Observed(f, step.actionKey, step.fingerprint)
    else Noted(f, step.actionKey, step.success.value, step.fingerprint, step.neutral)
  }

  function TakenAll(f: Facts, steps: seq<Step>): Facts
    requires forall s :: s in steps ==> WellTyped(s)
  {
    if steps == [] then f else Taken(TakenAll(f, steps[..|steps| - 1]), steps[|steps| - 1])
  }

  /** Non-empty keys, each once, in order of first appearance. */
  function Distinct(keys: seq<string>): (r: seq<string>)
    ensures forall k :: k in r <==> k in keys && k != ""
    ensures forall i, j :: 0 <= i < j < |r| ==> r[i] != r[j]
  {
    if keys == [] then []
    else
      var front := Distinct(keys[..|keys| - 1]);
      var last := keys[|keys| - 1];
      if last == "" || last in front then front else front + [last]
  }

  function Credited(f: Facts, novel: seq<string>, materialChanged: bool): Facts {
    var keys := Distinct(novel);
    if materialChanged then f.(epistemicSteps := 0, lastEpistemicKeys := [], failureSteps := 0)
    else if keys != [] then
      f.(epistemicSteps := f.epistemicSteps + 1, lastEpistemicKeys := keys, stagnantSteps := 0, stalledSteps := 0,
         recentEvents := f.recentEvents + ["epistemic_progress:" + Digits(f.epistemicSteps + 1) + ":" + Digits(|keys|)])
    else f
  }

  /** `commit_steps`, on the facts it leaves. */
  function Committed(f: Facts, steps: seq<Step>, novel: seq<string>, materialChanged: bool): Facts
    requires forall s :: s in steps ==> WellTyped(s)
  {
    Credited(TakenAll(f, steps), novel, materialChanged)
  }

  /** What invalidating the generation does to the facts. */
  function Cancelled(f: Facts, reason: string): Facts {
    f.(recentEvents := f.recentEvents + ["generation_invalidated:" + reason])
  }

  // -- what the counters count ---------------------------------------------------------------------

  /** The Body stands where it stood: its state has a mark, and the same one as before. */
  predicate SameState(f: Facts, fingerprint: string) {
    f.lastFingerprint != "" && fingerprint == f.lastFingerprint
  }

  /** An observation counts a stalled step for every one that leaves the Body where it
      stood, a stagnant one besides when the action was the last one again, and starts
      both afresh when it moved; it counts no failure and nothing learnt. */
  lemma ObservedCounts(f: Facts, key: Value, fingerprint: string)
    ensures var o := Observed(f, key, fingerprint);
            && o == f.(stagnantSteps := o.stagnantSteps, stalledSteps := o.stalledSteps, lastAction := Some(key),
                       lastFingerprint := fingerprint, currentFingerprint := fingerprint)
            && o.stalledSteps == (if SameState(f, fingerprint) then f.stalledSteps + 1 else 0)
            && o.stagnantSteps == (if !SameState(f, fingerprint) then 0
                                   else if f.lastAction == Some(key) then f.stagnantSteps + 1 else f.stagnantSteps)
  {
  }

  /** A note counts one failure exactly when it is neither neutral nor a success; a success
      clears every count of what went wrong; a neutral one only moves the mark. */
  lemma NotedCounts(f: Facts, key: Value, success: bool, fingerprint: string, neutral: bool)
    ensures var n := Noted(f, key, success, fingerprint, neutral);
            && n.currentFingerprint == fingerprint
            && (n.goal, n.recentEvents, n.epistemicSteps, n.lastEpistemicKeys)
               == (f.goal, f.recentEvents, f.epistemicSteps, f.lastEpistemicKeys)
            && (neutral ==> n == f.(currentFingerprint := fingerprint))
            && (!neutral ==> n.lastAction == Some(key) && n.lastFingerprint == fingerprint)
            && (!neutral && success ==> n.failureSteps == n.stagnantSteps == n.stalledSteps == 0)
            && (!neutral && !success ==>
                  n == Observed(f, key, fingerprint).(failureSteps := f.failureSteps + 1))
  {
  }

  /** Material change clears the failures and what was learnt; new evidence without it
      counts one step learnt, keeps its keys, says so once and clears the stagnation;
      neither leaves everything as it is. */
  lemma CreditedCounts(f: Facts, novel: seq<string>, materialChanged: bool)
    ensures var (c, keys) := (Credited(f, novel, materialChanged), Distinct(novel));
            && (materialChanged ==>
                  c == f.(epistemicSteps := 0, lastEpistemicKeys := [], failureSteps := 0))
            && (!materialChanged && (exists k :: k in novel && k != "") ==>
                  && c == f.(epistemicSteps := f.epistemicSteps + 1, lastEpistemicKeys := keys, stagnantSteps := 0,
                             stalledSteps := 0, recentEvents := c.recentEvents)
                  && c.recentEvents == f.recentEvents + ["epistemic_progress:" + Digits(c.epistemicSteps) + ":"
                                                         + Digits(|c.lastEpistemicKeys|)])
            && (!materialChanged && !(exists k :: k in novel && k != "") ==> c == f)
  {
    var keys := Distinct(novel);
    assert keys != [] ==> keys[0] in keys && keys[0] in novel;
    assert forall k :: k in novel && k != "" ==> k in keys;
  }

  function Repeated(step: Step, n: nat): (r: seq<Step>)
    ensures |r| == n && forall s :: s in r ==> s == step
  {
    if n == 0 then [] else Repeated(step, n - 1) + [step]
  }

  /** Observing one action n times more on a Body that stands still counts n stagnant and
      n stalled steps. */
  lemma {:induction false} RepeatsAreCounted(f: Facts, key: Value, fingerprint: string, n: nat)
    requires SameState(f, fingerprint) && f.lastAction == Some(key)
    ensures var after := TakenAll(f, Repeated(Step(Observe, key, fingerprint, None, false), n));
            && after.stagnantSteps == f.stagnantSteps + n && after.stalledSteps == f.stalledSteps + n
            && SameState(after, fingerprint) && after.lastAction == Some(key)
  {
    if n > 0 {
      RepeatsAreCounted(f, key, fingerprint, n - 1);
      var all := Repeated(Step(Observe, key, fingerprint, None, false), n);
      assert all[..n - 1] == Repeated(Step(Observe, key, fingerprint, None, false), n - 1);
    }
  }

  class Authority {
    var lastAction: Option<Value>
    var stagnantSteps: nat
    var stalledSteps: nat
    var failureSteps: nat
    var lastFingerprint: string
    var currentFingerprint: string
    var recentEvents: seq<string>
    var epistemicSteps: nat
    var lastEpistemicKeys: seq<string>

    function FactsFor(goal: string): Facts reads this {
      Facts(goal, lastAction, stagnantSteps, stalledSteps, failureSteps, lastFingerprint, currentFingerprint,
            recentEvents, epistemicSteps, lastEpistemicKeys)
    }

    constructor ()
      ensures FactsFor("") == NO_FACTS
    {
      lastAction, stagnantSteps, stalledSteps, failureSteps := None, 0, 0, 0;
      lastFingerprint, currentFingerprint, recentEvents, epistemicSteps, lastEpistemicKeys := "", "", [], 0, [];
    }

    method RestoreFacts(f: Facts)
      modifies this
      ensures FactsFor(f.goal) == f
    {
      lastAction, stagnantSteps := f.lastAction, f.stagnantSteps;
      stalledSteps, failureSteps := f.stalledSteps, f.failureSteps;
      epistemicSteps, lastFingerprint, currentFingerprint := f.epistemicSteps, f.lastFingerprint, f.currentFingerprint;
      lastEpistemicKeys, recentEvents := f.lastEpistemicKeys, f.recentEvents;
    }

    method ApplyObservation(key: Value, fingerprint: string)
      modifies this
      ensures FactsFor("") == Observed(old(FactsFor("")), key, fingerprint)
    {
      currentFingerprint := fingerprint;
      var progressed := lastFingerprint != "" && fingerprint != lastFingerprint;
      if lastFingerprint == "" || progressed {
        stagnantSteps, stalledSteps := 0, 0;
      } else if lastAction == Some(key) {
        stagnantSteps := stagnantSteps + 1;
        stalledSteps := stalledSteps + 1;
      } else {
        stalledSteps := stalledSteps + 1;
      }
      lastAction, lastFingerprint := Some(key), fingerprint;
    }

    method ApplyNote(key: Value, success: bool, fingerprint: string, neutral: bool)
      modifies this
      ensures FactsFor("") == Noted(old(FactsFor("")), key, success, fingerprint, neutral)
    {
      if neutral {
        currentFingerprint := fingerprint;
        return;
      }
      if success {
        currentFingerprint := fingerprint;
        stagnantSteps, stalledSteps, failureSteps := 0, 0, 0;
        lastAction, lastFingerprint := Some(key), fingerprint;
        return;
      }
      ApplyObservation(key, fingerprint);
      failureSteps := failureSteps + 1;
      lastAction, lastFingerprint := Some(key), fingerprint;
    }

    /** `invalidate_generation`, as far as the facts go. */
    method NoteInvalidation(reason: string)
      modifies this
      ensures FactsFor("") == Cancelled(old(FactsFor("")), reason)
    {
      recentEvents := recentEvents + ["generation_invalidated:" + reason];
    }

    method CommitSteps(steps: seq<Step>, novel: seq<string>, materialChanged: bool)
      requires forall s :: s in steps ==> WellTyped(s)
      modifies this
      ensures FactsFor("") == Committed(old(FactsFor("")), steps, novel, materialChanged)
    {
      for i := 0 to |steps|
        invariant FactsFor("") == TakenAll(old(FactsFor("")), steps[..i])
      {
        assert steps[..i + 1][..i] == steps[..i];
        var step := steps[i];
        assert WellTyped(step) by { assert step in steps; }
        if step.kind == Observe {
          ApplyObservation(step.actionKey, step.fingerprint);
        } else {
          ApplyNote(step.actionKey, step.success.value, step.fingerprint, step.neutral);
        }
      }
      assert steps[..|steps|] == steps;
      var keys := Distinct(novel);
      if materialChanged {
        epistemicSteps, lastEpistemicKeys, failureSteps := 0, [], 0;
      } else if keys != [] {
        epistemicSteps := epistemicSteps + 1;
        lastEpistemicKeys := keys;
        stagnantSteps, stalledSteps := 0, 0;
        recentEvents := recentEvents + ["epistemic_progress:" + Digits(epistemicSteps) + ":" + Digits(|keys|)];
      }
    }
  }

  /** Committing touches neither the goal nor what the goal is attached to. */
  lemma {:induction false} CommittedKeepsGoal(f: Facts, steps: seq<Step>, novel: seq<string>, materialChanged: bool,
                                              goal: string)
    requires forall s :: s in steps ==> WellTyped(s)
    ensures Committed(f.(goal := goal), steps, novel, materialChanged)
            == Committed(f, steps, novel, materialChanged).(goal := goal)
  {
    TakenAllKeepsGoal(f, steps, goal);
  }

  lemma TakenKeepsGoal(f: Facts, step: Step, goal: string)
    requires WellTyped(step)
    ensures Taken(f.(goal := goal), step) == Taken(f, step).(goal := goal)
  {
  }

  lemma {:induction false} TakenAllKeepsGoal(f: Facts, steps: seq<Step>, goal: string)
    requires forall s :: s in steps ==> WellTyped(s)
    ensures TakenAll(f.(goal := goal), steps) == TakenAll(f, steps).(goal := goal)
  {
    if steps != [] {
      var front := steps[..|steps| - 1];
      TakenAllKeepsGoal(f, front, goal);
      TakenKeepsGoal(TakenAll(f, front), steps[|steps| - 1], goal);
    }
  }
}
