/** Who may drive the physical Body (`BodyControl`): one claim at a time, fenced by
    generations that the progress authority hands out. */
module BodyControl {
  import opened Options

  datatype Holder = NoHolder | AgentCall | AgentPlan | Life | Threat | UnknownHolder

  datatype StopState = Running | Stopping | Settled | StopUnknown

  datatype StopFact = StopFact(nativeStopped: bool, reason: string, generation: nat)

  /** The control record, with the authority's current generation beside it. */
  datatype Control = Control(holder: Holder, claimId: Option<string>, generation: nat, stop: StopState,
                             lastStop: Option<StopFact>, authority: nat)

  datatype Step =
    | Claim(id: string, holder: Holder)
    | MarkStopping(only: Option<string>)
    | Settle(only: Option<string>)
    | MarkUnknown(only: Option<string>)
    | ConfirmNativeStopped(stopped: bool)
    | Invalidate(reason: string)   // from outside, through the generation listener
    | NextGeneration               // an unclaimed tool call takes a generation, unannounced

  // -- one step ------------------------------------------------------------------------------

  predicate Free(c: Control) {
    c.holder == NoHolder || c.holder == UnknownHolder
  }

  predicate Accepted(c: Control, id: string) {
    id != "" && c.stop != StopUnknown && c.stop != Stopping && (Free(c) || c.claimId == Some(id))
  }

  predicate Concerns(c: Control, only: Option<string>) {
    only.None? || c.claimId.None? || c.claimId == only
  }

  function Settling(c: Control): Control {
    c.(holder := NoHolder, claimId := None, stop := Settled, generation := c.authority)
  }

  function MarkingUnknown(c: Control): Control {
    c.(holder := UnknownHolder, stop := StopUnknown,
       lastStop := Some(StopFact(false, "confirmation_missing", c.generation)))
  }

  function Apply(c: Control, step: Step): Control {
    match step
    case Claim(id, holder) =>
      if !Accepted(c, id) then c
      else
        var next := if c.claimId != Some(id) || c.holder == NoHolder
          then c.(generation := c.authority + 1, authority := c.authority + 1) else c;
        next.(holder := holder, claimId := Some(id), stop := Running)
    case MarkStopping(only) =>
      if Concerns(c, only) then c.(stop := Stopping, generation := c.authority + 1, authority := c.authority + 1) else c
    case Settle(only) => if Concerns(c, only) then Settling(c) else c
    case MarkUnknown(only) => if Concerns(c, only) then MarkingUnknown(c) else c
    case ConfirmNativeStopped(stopped) =>
      if stopped then Settling(c.(lastStop := Some(StopFact(true, "", c.generation)))) else MarkingUnknown(c)
    case Invalidate(reason) =>
      var next := c.(generation := c.authority + 1, authority := c.authority + 1);
      if Free(c) then next
      else next.(holder := UnknownHolder, stop := StopUnknown,
                 lastStop := Some(StopFact(false, reason, next.generation)))
    case NextGeneration => c.(authority := c.authority + 1)
  }

  predicate Owns(c: Control, id: string, generation: Option<nat>) {
    && c.claimId == Some(id)
    && !Free(c)
    && c.stop == Running
    && c.generation == c.authority
    && (generation.None? || generation.value == c.generation)
  }

  // -- what each step comes to ------------------------------------------------------------------

  /** Who gets in: a named claim, unless a stop is pending or unknown or somebody else
      holds the body.  It then runs for the taker, under the generation it had if it
      held the body already, else under the next one. */
  lemma ClaimIs(c: Control, id: string, taker: Holder)
    ensures var (d, held) := (Apply(c, Claim(id, taker)), c.holder !in {NoHolder, UnknownHolder});
            if id != "" && c.stop in {Running, Settled} && (!held || c.claimId == Some(id))
            then && (d.holder, d.claimId, d.stop, d.lastStop) == (taker, Some(id), Running, c.lastStop)
                 && (if c.claimId == Some(id) && c.holder != NoHolder
                     then (d.generation, d.authority) == (c.generation, c.authority)
                     else d.generation == d.authority == c.authority + 1)
            else d == c
  {
  }

  /** A stop, a settle or a loss of track in the name of another claim changes nothing. */
  lemma StrangersChangeNothing(c: Control, only: Option<string>)
    requires only.Some? && c.claimId.Some? && only != c.claimId
    ensures Apply(c, MarkStopping(only)) == c && Apply(c, Settle(only)) == c && Apply(c, MarkUnknown(only)) == c
  {
  }

  /** In the name of the claim held, or of nobody in particular: a stop leaves holder and
      claim and takes a new generation; a settle lets both go at the current one; a loss
      of track keeps the claim and says that nothing confirmed the stop. */
  lemma ConcernedStops(c: Control, only: Option<string>)
    requires only.None? || c.claimId.None? || only == c.claimId
    ensures var d := Apply(c, MarkStopping(only));
            && (d.holder, d.claimId, d.stop, d.lastStop) == (c.holder, c.claimId, Stopping, c.lastStop)
            && d.generation == d.authority == c.authority + 1
    ensures var d := Apply(c, Settle(only));
            && (d.holder, d.claimId, d.stop, d.lastStop) == (NoHolder, None, Settled, c.lastStop)
            && d.generation == d.authority == c.authority
    ensures var d := Apply(c, MarkUnknown(only));
            && (d.holder, d.claimId, d.stop) == (UnknownHolder, c.claimId, StopUnknown)
            && (d.generation, d.authority) == (c.generation, c.authority)
            && d.lastStop == Some(StopFact(false, "confirmation_missing", c.generation))
  {
  }

  /** What the native side confirmed is on record, with the generation it was about. */
  lemma ConfirmationIsRecorded(c: Control, stopped: bool)
    ensures var d := Apply(c, ConfirmNativeStopped(stopped));
            && d.authority == c.authority
            && d.lastStop.Some? && d.lastStop.value.nativeStopped == stopped
            && d.lastStop.value.generation == c.generation
            && (d.holder, d.claimId, d.stop, d.generation)
               == if stopped then (NoHolder, None, Settled, c.authority)
                  else (UnknownHolder, c.claimId, StopUnknown, c.generation)
  {
  }

  /** An invalidation from outside takes the next generation; whoever held the body is
      lost track of, with the reason, and its claim stays. */
  lemma InvalidationIs(c: Control, reason: string)
    ensures var d := Apply(c, Invalidate(reason));
            && d.generation == d.authority == c.authority + 1 && d.claimId == c.claimId
            && (d.holder, d.stop, d.lastStop)
               == if c.holder in {NoHolder, UnknownHolder} then (c.holder, c.stop, c.lastStop)
                  else (UnknownHolder, StopUnknown, Some(StopFact(false, reason, d.generation)))
    ensures Apply(c, NextGeneration) == c.(authority := c.authority + 1)
  {
  }

  // -- the class -----------------------------------------------------------------------------

  class ProgressAuthority {
    var generation: nat

    constructor ()
      ensures generation == 0
    {
      generation := 0;
    }

    method Next() returns (g: nat)
      modifies this
      ensures g == generation == old(generation) + 1
    {
      generation := generation + 1;
      g := generation;
    }
  }

  class Body {
    const authority: ProgressAuthority
    var holder: Holder
    var claimId: Option<string>
    var generation: nat
    var stop: StopState
    var lastStop: Option<StopFact>

    ghost function Abs(): Control reads this, authority {
      Control(holder, claimId, generation, stop, lastStop, authority.generation)
    }

    constructor (authority: ProgressAuthority)
      ensures this.authority == authority && Abs() == Fresh(authority.generation)
    {
      this.authority := authority;
      holder, claimId, generation, stop, lastStop := NoHolder, None, authority.generation, Settled, None;
    }

    /** Refuses with a reason: the body is unknown or still stopping, or busy. */
    method ClaimBody(id: string, taker: Holder) returns (refusal: Option<string>)
      modifies this, authority
      ensures refusal.None? <==> Accepted(old(Abs()), id)
      ensures Abs() == Apply(old(Abs()), Claim(id, taker))
    {
      if id == "" {
        return Some("Body claim_id must be non-empty");
      }
      if stop == StopUnknown || stop == Stopping {
        return Some("body_control_unknown");
      }
      if holder != NoHolder && holder != UnknownHolder && claimId != Some(id) {
        return Some("body_busy");
      }
      if claimId != Some(id) || holder == NoHolder {
        generation := authority.Next();
      }
      holder, claimId, stop := taker, Some(id), Running;
      return None;
    }

    method BeginStop(only: Option<string>)
      modifies this, authority
      ensures Abs() == Apply(old(Abs()), MarkStopping(only))
    {
      if only.Some? && claimId.Some? && claimId != only {
        return;
      }
      stop := Stopping;
      generation := authority.Next();
    }

    method SettleBody(only: Option<string>)
      modifies this
      ensures Abs() == Apply(old(Abs()), Settle(only))
    {
      if only.Some? && claimId.Some? && claimId != only {
        return;
      }
      holder, claimId, stop := NoHolder, None, Settled;
      generation := authority.generation;
    }

    method LoseTrack(only: Option<string>)
      modifies this
      ensures Abs() == Apply(old(Abs()), MarkUnknown(only))
    {
      if only.Some? && claimId.Some? && claimId != only {
        return;
      }
      holder, stop := UnknownHolder, StopUnknown;
      lastStop := Some(StopFact(false, "confirmation_missing", generation));
    }

    method Confirm(stopped: bool)
      modifies this
      ensures Abs() == Apply(old(Abs()), ConfirmNativeStopped(stopped))
    {
      if stopped {
        lastStop := Some(StopFact(true, "", generation));
        SettleBody(None);
      } else {
        LoseTrack(None);
      }
    }

    /** The listener the authority calls when a generation is invalidated. */
    method OnGenerationInvalidated(reason: string, current: nat)
      modifies this
      ensures generation == current && claimId == old(claimId)
      ensures if Free(old(Abs())) then (holder, stop, lastStop) == old((holder, stop, lastStop))
              else holder == UnknownHolder && stop == StopUnknown && lastStop == Some(StopFact(false, reason, current))
    {
      generation := current;
      if holder != NoHolder && holder != UnknownHolder {
        holder, stop := UnknownHolder, StopUnknown;
        lastStop := Some(StopFact(false, reason, current));
      }
    }

    /** An outside invalidation: the authority moves on and tells the body. */
    method InvalidateGeneration(reason: string)
      modifies this, authority
      ensures Abs() == Apply(old(Abs()), Invalidate(reason))
    {
      var g := authority.Next();
      OnGenerationInvalidated(reason, g);
    }

    method OwnsBody(id: string, at: Option<nat>) returns (r: bool)
      ensures r == Owns(Abs(), id, at)
    {
      r := claimId == Some(id) && holder != NoHolder && holder != UnknownHolder && stop == Running
        && generation == authority.generation && (at.None? || generation == at.value);
    }
  }

  // -- whole runs ------------------------------------------------------------------------------

  function Fresh(authority: nat): Control {
    Control(NoHolder, None, authority, Settled, None, authority)
  }

  function Run(c: Control, steps: seq<Step>): Control
    decreases |steps|
  {
    if steps == [] then c else Run(Apply(c, steps[0]), steps[1..])
  }

  /** A claim names someone who can hold the body. */
  predicate RealClaim(step: Step) {
    step.Claim? ==> step.holder != NoHolder && step.holder != UnknownHolder
  }

  predicate RealClaims(steps: seq<Step>) {
    forall i :: 0 <= i < |steps| ==> RealClaim(steps[i])
  }

  /** What every run from a fresh record keeps. */
  predicate Sound(c: Control) {
    && c.generation <= c.authority
    && (c.stop == Running ==> c.claimId.Some? && !Free(c))
    && (c.stop == Settled ==> c.claimId.None? && c.holder == NoHolder)
    && (c.stop == StopUnknown ==> c.holder == UnknownHolder)
    && (c.holder == NoHolder ==> c.claimId.None?)
  }

  lemma {:induction false} RunsStaySound(c: Control, steps: seq<Step>)
    requires Sound(c) && RealClaims(steps)
    ensures Sound(Run(c, steps))
    decreases |steps|
  {
    if steps != [] {
      RunsStaySound(Apply(c, steps[0]), steps[1..]);
    }
  }

  /** Fencing.  In every run from a fresh record at most one (claim, generation) is
      owned at a time, and a generation handed out that a claim does not own now is
      never owned by it again. */
  lemma {:induction false} Fencing(start: nat, before: seq<Step>, after: seq<Step>, id: string, generation: nat)
    requires RealClaims(before) && RealClaims(after)
    ensures var c := Run(Fresh(start), before);
            forall other, g: nat :: Owns(c, id, Some(generation)) && Owns(c, other, Some(g)) ==>
              (other, g) == (id, generation)
    ensures var c := Run(Fresh(start), before);
            generation <= c.authority && !Owns(c, id, Some(generation)) ==>
              !Owns(Run(c, after), id, Some(generation))
  {
    RunsStaySound(Fresh(start), before);
    var c := Run(Fresh(start), before);
    if generation <= c.authority && !Owns(c, id, Some(generation)) {
      StaysFenced(c, after, id, generation);
    }
  }

  lemma {:induction false} StaysFenced(c: Control, steps: seq<Step>, id: string, generation: nat)
    requires Sound(c) && RealClaims(steps) && generation <= c.authority && !Owns(c, id, Some(generation))
    ensures !Owns(Run(c, steps), id, Some(generation))
    decreases |steps|
  {
    if steps != [] {
      StaysFenced(Apply(c, steps[0]), steps[1..], id, generation);
    }
  }

  /** Once the claim that owns the body is stopped, in its own name or in nobody's, it
      never owns that generation again. */
  lemma StopEndsOwnership(c: Control, only: Option<string>, id: string, generation: nat, after: seq<Step>)
    requires Sound(c) && RealClaims(after) && Owns(c, id, Some(generation)) && only in {None, Some(id)}
    ensures !Owns(Run(Apply(c, MarkStopping(only)), after), id, Some(generation))
  {
    StaysFenced(Apply(c, MarkStopping(only)), after, id, generation);
  }

  /** Steps that release the claim. */
  predicate Settles(c: Control, step: Step) {
    (step.Settle? && Concerns(c, step.only)) || (step.ConfirmNativeStopped? && step.stopped)
  }

  predicate NeverSettles(c: Control, steps: seq<Step>)
    decreases |steps|
  {
    steps == [] || (!Settles(c, steps[0]) && NeverSettles(Apply(c, steps[0]), steps[1..]))
  }

  /** Every id whose claim was accepted along a run. */
  function Claimants(c: Control, steps: seq<Step>): set<string>
    decreases |steps|
  {
    if steps == [] then {}
    else
      var claimed := if steps[0].Claim? && Accepted(c, steps[0].id) then {steps[0].id} else {};
      claimed + Claimants(Apply(c, steps[0]), steps[1..])
  }

  /** Between two accepted claims by different ids there is always a settle: while
      nothing settles, only the id that holds the claim is let in again. */
  lemma {:induction false} NoTakeoverWithoutSettle(c: Control, steps: seq<Step>, id: string)
    requires Sound(c) && RealClaims(steps) && c.claimId == Some(id) && NeverSettles(c, steps)
    ensures Claimants(c, steps) <= {id} && Run(c, steps).claimId == Some(id)
    decreases |steps|
  {
    if steps != [] {
      NoTakeoverWithoutSettle(Apply(c, steps[0]), steps[1..], id);
    }
  }

  /** From every state, reachable or not, a confirmed native stop frees the body:
      any claim is accepted next and owns a generation nobody had before. */
  lemma ConfirmedStopFreesTheBody(c: Control, id: string, holder: Holder)
    requires id != "" && RealClaim(Claim(id, holder))
    ensures var settled := Apply(c, ConfirmNativeStopped(true));
            && Accepted(settled, id)
            && Owns(Apply(settled, Claim(id, holder)), id, Some(c.authority + 1))
  {
  }

  /** An outside invalidation never leaves a claim running: it is owned by nobody
      and nobody gets in until a stop is confirmed or settled. */
  lemma {:induction false} InvalidationQuarantines(c: Control, reason: string, steps: seq<Step>, id: string)
    requires Sound(c) && !Free(c)
    requires RealClaims(steps) && NeverSettles(Apply(c, Invalidate(reason)), steps)
    ensures var after := Run(Apply(c, Invalidate(reason)), steps);
            !Accepted(after, id) && !Owns(after, id, None)
  {
    StaysQuarantined(Apply(c, Invalidate(reason)), steps, id);
  }

  lemma {:induction false} StaysQuarantined(c: Control, steps: seq<Step>, id: string)
    requires Sound(c) && c.holder == UnknownHolder && (c.stop == StopUnknown || c.stop == Stopping)
    requires RealClaims(steps) && NeverSettles(c, steps)
    ensures !Accepted(Run(c, steps), id) && !Owns(Run(c, steps), id, None)
    decreases |steps|
  {
    if steps != [] {
      StaysQuarantined(Apply(c, steps[0]), steps[1..], id);
    }
  }

  // -- where real holders are needed ---------------------------------------------------------------

  /** A claim in the name of "unknown" brings a fenced generation back: after the
      re-claim the pair is not owned, and after one more claim it is owned again. */
  lemma RevivedIffClaimedAsUnknown(c: Control, id: string, generation: nat, taker: Holder)
    requires Owns(c, id, Some(generation)) && id != ""
    ensures var between := Apply(c, Claim(id, taker));
            !Owns(between, id, Some(generation)) && Owns(Apply(between, Claim(id, AgentCall)), id, Some(generation))
            <==> taker == UnknownHolder
  {
  }

  /** A claim under no real holder lets another id in without a settle. */
  lemma TakenOverIffHolderNotReal(c: Control, id: string, other: string, taker: Holder)
    requires c.stop == Settled && Sound(c) && id != "" && other != "" && id != other
    ensures Accepted(Apply(c, Claim(id, taker)), other) <==> !RealClaim(Claim(id, taker))
  {
  }
}
