/** The one loop of a Body (`BodyLoop` over `CallSupervisor`): calls enter, are
    monitored, return and are judged; a result slot keeps the idle questions away
    until the judge is done with the Body; death fences off old answers. */
module BodyLoop {
  import opened Options

  datatype Mode = Idle | Work | Threat | Survival | Dead

  /** What a call can find on entering and put back on leaving. */
  type Alive = m: Mode | m != Dead witness Idle

  datatype Event = Death | Respawned | WorldReady | WorldDisconnected | Unhandled

  /** `plan` and `reflex` are the context's own flags; `fights` says a reflex call
      chose to move away, engage or shoot. */
  datatype Context = Context(plan: bool, reflex: bool, life: bool, fights: bool)

  datatype Phase = Inside | Unjudged | Done

  /** One call of `run`: `waiting` while its registered monitor has not signalled;
      `previous`, `deaths` and `outer` are what it found when it entered. */
  datatype Call = Call(id: string, context: Context, phase: Phase, abandoned: bool, waiting: bool,
                       previous: Alive, deaths: nat, outer: Option<nat>)

  /** A protective result being judged, holding the slot of `id` if it took it. */
  datatype Guard = Guard(id: string, reserved: bool, open: bool)

  /** One registration of a monitor. */
  datatype Watch = Watch(call: nat, ticket: nat)

  datatype State = State(mode: Mode, deaths: nat, deathSeen: bool, connected: bool, events: seq<Event>,
                         pending: set<string>, calls: seq<Call>, guards: seq<Guard>, current: Option<nat>,
                         active: Option<Watch>, watching: Option<Watch>, tickets: nat)

  const INITIAL := State(Idle, 0, false, true, [], {}, [], [], None, None, None, 0)

  // -- states and slots ----------------------------------------------------------------------------

  function Moved(mode: Mode, to: Mode, respawned: bool): Mode {
    if mode == Dead && !respawned then Dead else to
  }

  function Target(c: Context): Mode {
    if c.life then Idle else if !c.reflex then Work else if c.fights then Threat else Survival
  }

  /** A result slot goes by the transport id of a plan call and by its node id. */
  function Spellings(id: string): set<string> {
    {id, "plan-" + id} + if "plan-" <= id then {id[5..]} else {}
  }

  function Abandoned(st: State): State {
    if st.current.None? || st.current.value >= |st.calls| then st
    else st.(calls := st.calls[st.current.value := st.calls[st.current.value].(abandoned := true)])
  }

  /** `stop`: the registered monitor is let go and its call no longer waits for it. */
  function Stopped(st: State): State {
    if st.active.None? || st.active.value.call >= |st.calls| then st.(active := None, pending := {})
    else
      var r := st.active.value.call;
      st.(active := None, pending := {}, calls := st.calls[r := st.calls[r].(waiting := false)])
  }

  // -- lifecycle events ------------------------------------------------------------------------------

  function Queued(st: State, e: Event): State {
    st.(events := st.events + [e],
        connected := if e == WorldReady then true else if e == WorldDisconnected then false else st.connected)
  }

  /** Facts of a dead Body stand for a death nobody announced. */
  function Sensed(st: State, native: bool, dead: bool): State {
    if st.events == [] && dead && st.mode != Dead && !(native && st.deathSeen) then st.(events := [Death]) else st
  }

  function Handled(st: State, e: Event): (r: State)
    ensures r.events == st.events
  {
    match e
    case WorldReady => st.(mode := Moved(st.mode, Idle, false))
    case Death =>
      if st.mode == Dead then st
      else Abandoned(st.(mode := Dead, deaths := st.deaths + 1, deathSeen := true, pending := {}))
    case Respawned => st.(pending := {}, mode := Moved(st.mode, Idle, true))
    case WorldDisconnected => Stopped(Abandoned(st))
    case Unhandled => st
  }

  /** Whether handling the queue ends in a disconnect. */
  predicate Disconnects(st: State) {
    WorldDisconnected in st.events
  }

  /** The lifecycle task handles the queue in order; a disconnect ends the round. */
  function Drained(st: State): State
    decreases |st.events|
  {
    if st.events == [] then st
    else
      var e := st.events[0];
      var after := Handled(st.(events := st.events[1..]), e);
      if e == WorldDisconnected then after else Drained(after)
  }

  /** What any other task is told without handling anything. */
  predicate SeesDeath(st: State) {
    st.mode == Dead || Death in st.events
  }

  // -- calls -------------------------------------------------------------------------------------------

  function Entered(st: State, id: string, c: Context): State {
    if !st.connected || SeesDeath(st) then st
    else
      var call := Call(id, c, Inside, false, false, st.mode, st.deaths, st.current);
      st.(pending := st.pending + {id}, calls := st.calls + [call], current := Some(|st.calls|),
          mode := Moved(st.mode, Target(c), false))
  }

  /** Hand a call that outlived its grace to the monitor, unless there is one already. */
  function Registered(st: State, r: nat): State {
    if r >= |st.calls| || st.calls[r].phase != Inside || st.active.Some? then st
    else
      st.(calls := st.calls[r := st.calls[r].(waiting := true)], pending := st.pending - {st.calls[r].id},
          active := Some(Watch(r, st.tickets)), tickets := st.tickets + 1)
  }

  function PickedUp(st: State): State {
    if st.watching.None? then st.(watching := st.active) else st
  }

  /** The monitor is over: the call takes its slot back before it is let go on. */
  function Unwatched(st: State): State {
    if st.watching.None? || st.watching.value.call >= |st.calls| then st
    else
      var r := st.watching.value.call;
      st.(watching := None, active := if st.active == st.watching then None else st.active,
          pending := if st.calls[r].abandoned then st.pending else st.pending + {st.calls[r].id},
          calls := st.calls[r := st.calls[r].(waiting := false)])
  }

  /** `run` is left: `raised` when by an exception or a cancellation, `decided` when
      the running frame's verdict already answered for the result. */
  function Left(st: State, r: nat, raised: bool, decided: bool): State {
    if r >= |st.calls| || st.calls[r].phase != Inside || (!raised && st.calls[r].waiting) then st
    else
      var call := st.calls[r];
      var judged := raised || !call.context.plan || decided;
      var after := call.(phase := if judged then Done else Unjudged, abandoned := call.abandoned || raised);
      st.(calls := st.calls[r := after],
          pending := if judged then st.pending - Spellings(call.id) else st.pending,
          current := if st.current == Some(r) then call.outer else st.current,
          mode := if !call.context.reflex && call.deaths == st.deaths then Moved(st.mode, call.previous, false)
            else st.mode)
  }

  function JudgedCalls(calls: seq<Call>, ids: set<string>): (r: seq<Call>)
    ensures |r| == |calls|
    ensures forall i :: 0 <= i < |r| ==>
              r[i] == if calls[i].phase == Unjudged && calls[i].id in ids then calls[i].(phase := Done) else calls[i]
  {
    if calls == [] then []
    else
      var n := |calls| - 1;
      JudgedCalls(calls[..n], ids)
      + [if calls[n].phase == Unjudged && calls[n].id in ids then calls[n].(phase := Done) else calls[n]]
  }

  /** The judge of a plan node's result is done.  (One that finds a dead Body when it
      starts refuses and changes nothing.) */
  function Judged(st: State, node: string): State {
    st.(calls := JudgedCalls(st.calls, Spellings(node)), pending := st.pending - Spellings(node))
  }

  function Guarded(st: State, id: string): State {
    st.(guards := st.guards + [Guard(id, id !in st.pending, true)], pending := st.pending + {id})
  }

  function Unguarded(st: State, g: nat): State {
    if g >= |st.guards| || !st.guards[g].open then st
    else
      st.(guards := st.guards[g := st.guards[g].(open := false)],
          pending := if st.guards[g].reserved then st.pending - Spellings(st.guards[g].id) else st.pending)
  }

  /** The loop asks an idle question only now. */
  predicate MayAskIdle(st: State) {
    st.active.None? && st.pending == {}
  }

  // -- runs ----------------------------------------------------------------------------------------------

  datatype Step =
    | Queue(e: Event)
    | Process(own: bool, native: bool, dead: bool)
    | Enter(id: string, c: Context)
    | Register(r: nat)
    | PickUp
    | Unwatch
    | Leave(r: nat, raised: bool, decided: bool)
    | Judge(node: string)
    | Protect(id: string)
    | Unprotect(g: nat)
    | Decide(mode: Mode)
    | Stop

  function Apply(st: State, step: Step): State {
    match step
    case Queue(e) => Queued(st, e)
    case Process(own, native, dead) => if own then Drained(Sensed(st, native, dead)) else Sensed(st, native, dead)
    case Enter(id, c) => Entered(st, id, c)
    case Register(r) => Registered(st, r)
    case PickUp => PickedUp(st)
    case Unwatch => Unwatched(st)
    case Leave(r, raised, decided) => Left(st, r, raised, decided)
    case Judge(node) => Judged(st, node)
    case Protect(id) => Guarded(st, id)
    case Unprotect(g) => Unguarded(st, g)
    case Decide(mode) => if mode == Dead then st else st.(mode := Moved(st.mode, mode, false))
    case Stop => Stopped(st)
  }

  function Run(st: State, steps: seq<Step>): State
    decreases |steps|
  {
    if steps == [] then st else Apply(Run(st, steps[..|steps| - 1]), steps[|steps| - 1])
  }

  // -- what the steps come to ------------------------------------------------------------------------------

  /** A call gets in exactly when the world is there and no death is known or queued; its
      state is then that of its kind, and it remembers what it found. */
  lemma EnteredIs(st: State, id: string, c: Context)
    ensures !st.connected || st.mode == Dead || Death in st.events ==> Entered(st, id, c) == st
    ensures st.connected && st.mode != Dead && Death !in st.events ==>
              var after := Entered(st, id, c);
              && after == st.(pending := st.pending + {id}, calls := after.calls, current := Some(|st.calls|),
                              mode := after.mode)
              && after.calls == st.calls + [Call(id, c, Inside, false, false, st.mode, st.deaths, st.current)]
              && (c.life ==> after.mode == Idle) && (!c.life && !c.reflex ==> after.mode == Work)
              && (!c.life && c.reflex && c.fights ==> after.mode == Threat)
              && (!c.life && c.reflex && !c.fights ==> after.mode == Survival)
  {
  }

  /** Entering and leaving again, with nothing in between, gives the state, the current
      call and the slots of before; only a reflex call leaves its state behind. */
  lemma EnterLeaveRoundTrip(st: State, id: string, c: Context, raised: bool)
    requires st.connected && st.mode != Dead && Death !in st.events && Spellings(id) !! st.pending
    ensures var after := Left(Entered(st, id, c), |st.calls|, raised, true);
            && after.pending == st.pending && after.current == st.current && after.calls[..|st.calls|] == st.calls
            && after.mode == (if c.reflex then Entered(st, id, c).mode else st.mode)
            && |after.calls| == |st.calls| + 1 && after.calls[|st.calls|].phase == Done
            && after.calls[|st.calls|].abandoned == raised
  {
  }

  /** Leaving: a call that raised, is no plan's or whose frame has decided gives its slots
      up; another keeps them for its judge.  The state it found comes back unless it is a
      reflex call or a death came since, and a dead Body stays dead. */
  lemma LeftIs(st: State, r: nat, raised: bool, decided: bool)
    requires r < |st.calls| && st.calls[r].phase == Inside && (raised || !st.calls[r].waiting)
    ensures var (after, call) := (Left(st, r, raised, decided), st.calls[r]);
            && after == st.(calls := after.calls, pending := after.pending, current := after.current,
                            mode := after.mode)
            && (raised || !call.context.plan || decided ==>
                  after.calls[r].phase == Done && after.pending == st.pending - Spellings(call.id))
            && (!raised && call.context.plan && !decided ==>
                  after.calls[r].phase == Unjudged && after.pending == st.pending)
            && after.calls[r].abandoned == (call.abandoned || raised)
            && after.current == (if st.current == Some(r) then call.outer else st.current)
            && after.mode == (if st.mode == Dead || call.context.reflex || call.deaths != st.deaths then st.mode
                              else call.previous)
  {
  }

  lemma LeftNot(st: State, r: nat, decided: bool)
    requires r < |st.calls| && (st.calls[r].phase != Inside || st.calls[r].waiting)
    ensures Left(st, r, false, decided) == st
  {
  }

  /** A death not known yet counts, clears the slots and abandons the current call; one
      known already changes nothing. */
  lemma DeathIs(st: State)
    ensures var after := Handled(st, Death);
            if st.mode == Dead then after == st
            else && after == st.(mode := Dead, deaths := st.deaths + 1, deathSeen := true, pending := {},
                                 calls := after.calls)
                 && OnlyCurrentAbandoned(st, after)
  {
  }

  /** The current call is abandoned, if there is one, and nothing else about calls changes. */
  predicate OnlyCurrentAbandoned(a: State, b: State) {
    && |b.calls| == |a.calls|
    && forall r :: 0 <= r < |a.calls| ==>
         b.calls[r] == if a.current == Some(r) then a.calls[r].(abandoned := true) else a.calls[r]
  }

  /** A respawn revives and clears the slots, the world's return makes a living Body idle,
      and nothing else changes. */
  lemma RevivalsAre(st: State)
    ensures Handled(st, Respawned) == st.(pending := {}, mode := Idle)
    ensures Handled(st, WorldReady) == if st.mode == Dead then st else st.(mode := Idle)
    ensures Handled(st, Unhandled) == st
  {
  }

  /** A lost world abandons the current call, clears the slots and lets go of the monitor. */
  lemma DisconnectIs(st: State)
    ensures var after := Handled(st, WorldDisconnected);
            && after == st.(pending := {}, active := None, calls := after.calls) && |after.calls| == |st.calls|
            && forall r :: 0 <= r < |st.calls| ==>
                 after.calls[r] == st.calls[r].(abandoned := st.calls[r].abandoned || st.current == Some(r),
                                                waiting := st.calls[r].waiting && !Monitors(st, r))
  {
  }

  predicate Monitors(st: State, r: nat) {
    st.active.Some? && st.active.value.call == r
  }

  /** Facts of a dead Body are taken for a death exactly when none is known or queued,
      unless the native side already announced one. */
  lemma SensedIs(st: State, native: bool, dead: bool)
    ensures Sensed(st, native, dead) == st.(events := Sensed(st, native, dead).events)
    ensures Sensed(st, native, dead).events
            == if dead && st.events == [] && st.mode != Dead && (!native || !st.deathSeen) then [Death] else st.events
  {
  }

  /** A slot goes by an id, by that id with "plan-" in front, and without it. */
  lemma SpellingsIs(id: string, k: string)
    ensures k in Spellings(id) <==> k == id || k == "plan-" + id || "plan-" + k == id
  {
    assert "plan-" <= id ==> "plan-" + id[5..] == id;
    assert "plan-" + k == id ==> id[5..] == k;
  }

  /** A call inside `run` is handed to a monitor of its own unless there is one already;
      its slot is given up for that time. */
  lemma RegisteredIs(st: State, r: nat)
    requires r < |st.calls|
    ensures if st.calls[r].phase == Inside && st.active.None?
            then Registered(st, r) == st.(calls := st.calls[r := st.calls[r].(waiting := true)],
                                          pending := st.pending - {st.calls[r].id},
                                          active := Some(Watch(r, st.tickets)), tickets := st.tickets + 1)
            else Registered(st, r) == st
    ensures PickedUp(st) == st.(watching := if st.watching.Some? then st.watching else st.active)
  {
  }

  /** The end of a monitor: it is no longer registered nor watched, its call waits no more
      and has its slot back unless it was abandoned. */
  lemma UnwatchedIs(st: State)
    requires st.watching.Some? && st.watching.value.call < |st.calls|
    ensures var (after, r) := (Unwatched(st), st.watching.value.call);
            && after == st.(watching := None, active := after.active, pending := after.pending, calls := after.calls)
            && after.active != st.watching && (st.active != st.watching ==> after.active == st.active)
            && after.calls == st.calls[r := st.calls[r].(waiting := false)]
            && after.pending == st.pending + (if st.calls[r].abandoned then {} else {st.calls[r].id})
  {
  }

  /** A protective result takes a slot that nobody has, and gives up only one it took. */
  lemma GuardsAre(st: State, id: string, g: nat)
    ensures var after := Guarded(st, id);
            && after.guards == st.guards + [Guard(id, id !in st.pending, true)] && after.pending == st.pending + {id}
            && after == st.(guards := after.guards, pending := after.pending)
    ensures g < |st.guards| && st.guards[g].open ==>
              var (after, guard) := (Unguarded(st, g), st.guards[g]);
              && after.guards == st.guards[g := guard.(open := false)]
              && after.pending == st.pending - (if guard.reserved then Spellings(guard.id) else {})
              && after == st.(guards := after.guards, pending := after.pending)
    ensures g >= |st.guards| || !st.guards[g].open ==> Unguarded(st, g) == st
  {
  }

  /** The judge of a plan node's result is done with exactly the returned calls of that
      node, and their slots. */
  lemma JudgedIs(st: State, node: string)
    ensures var after := Judged(st, node);
            && after == st.(calls := after.calls, pending := st.pending - Spellings(node))
            && |after.calls| == |st.calls|
            && forall r :: 0 <= r < |st.calls| ==>
                 after.calls[r] == if st.calls[r].phase == Unjudged && st.calls[r].id in Spellings(node)
                                   then st.calls[r].(phase := Done) else st.calls[r]
  {
  }

  /** A stop lets go of the monitor and of all slots; the monitored call waits no more. */
  lemma StoppedIs(st: State)
    ensures var after := Stopped(st);
            && after == st.(active := None, pending := {}, calls := after.calls) && |after.calls| == |st.calls|
            && forall r :: 0 <= r < |st.calls| ==>
                 after.calls[r] == st.calls[r].(waiting := st.calls[r].waiting && !Monitors(st, r))
  {
  }

  /** The last word on the world among the events queued in a run. */
  function LastWord(connected: bool, steps: seq<Step>): bool {
    if steps == [] then connected
    else
      var before := LastWord(connected, steps[..|steps| - 1]);
      match steps[|steps| - 1]
      case Queue(WorldReady) => true
      case Queue(WorldDisconnected) => false
      case _ => before
  }

  lemma {:induction false} DrainKeepsConnected(st: State)
    ensures Drained(st).connected == st.connected
    decreases |st.events|
  {
    if st.events != [] && st.events[0] != WorldDisconnected {
      DrainKeepsConnected(Handled(st.(events := st.events[1..]), st.events[0]));
    }
  }

  /** Over every run the world counts as there exactly when the last word on it, handled
      or not, said so; no call gets in otherwise. */
  lemma {:induction false} ConnectedIffLastWord(st: State, steps: seq<Step>)
    ensures Run(st, steps).connected == LastWord(st.connected, steps)
  {
    if steps != [] {
      var before := Run(st, steps[..|steps| - 1]);
      ConnectedIffLastWord(st, steps[..|steps| - 1]);
      var step := steps[|steps| - 1];
      if step.Process? && step.own {
        DrainKeepsConnected(Sensed(before, step.native, step.dead));
      }
    }
  }

  // -- no leaked result slot ------------------------------------------------------------------------------

  /** A call still inside `run` or a returned plan call not yet judged. */
  predicate CallOwns(st: State, k: string) {
    exists r :: 0 <= r < |st.calls| && st.calls[r].id == k && st.calls[r].phase != Done
  }

  /** A protective result being judged. */
  predicate GuardOwns(st: State, k: string) {
    exists g :: 0 <= g < |st.guards| && st.guards[g] == Guard(k, true, true)
  }

  predicate Owned(st: State, k: string) {
    CallOwns(st, k) || GuardOwns(st, k)
  }

  predicate AllOwned(st: State) {
    forall k :: k in st.pending ==> Owned(st, k)
  }

  /** Whoever a monitor watches has given up its slot for good or is inside `run`,
      waiting for that monitor. */
  predicate Held(st: State, w: Option<Watch>) {
    w.Some? ==>
      && w.value.call < |st.calls|
      && (st.calls[w.value.call].abandoned
          || (st.calls[w.value.call].phase == Inside && st.calls[w.value.call].waiting))
  }

  /** What the lifecycle task watches is the registered monitor, unless its call is
      abandoned. */
  predicate Tied(st: State) {
    st.watching.Some? && st.watching.value.call < |st.calls| && !st.calls[st.watching.value.call].abandoned ==>
      st.active == st.watching
  }

  predicate Sound(st: State) {
    AllOwned(st) && Held(st, st.active) && Held(st, st.watching) && Tied(st)
  }

  /** Stopping now lets go of a call the lifecycle task still watches. */
  predicate StopsUnderWatch(st: State) {
    && st.watching.Some? && st.active.Some? && st.active.value.call == st.watching.value.call
    && st.watching.value.call < |st.calls| && !st.calls[st.watching.value.call].abandoned
  }

  lemma CallStillOwns(a: State, b: State, r: nat)
    requires r < |a.calls| && r < |b.calls| && b.calls[r].id == a.calls[r].id && b.calls[r].phase != Done
    ensures CallOwns(b, a.calls[r].id)
  {
  }

  lemma AbandonKeepsSound(st: State)
    requires Sound(st)
    ensures Sound(Abandoned(st)) && Abandoned(st).pending == st.pending
    ensures StopsUnderWatch(Abandoned(st)) ==> StopsUnderWatch(st)
  {
    var after := Abandoned(st);
    forall k | k in st.pending ensures Owned(after, k) {
      if CallOwns(st, k) {
        var r :| 0 <= r < |st.calls| && st.calls[r].id == k && st.calls[r].phase != Done;
        CallStillOwns(st, after, r);
      }
    }
  }

  lemma StopKeepsSound(st: State)
    requires Sound(st) && !StopsUnderWatch(st)
    ensures Sound(Stopped(st))
  {
  }

  /** A disconnect may stop under a watch too: when the watched call is not the current one. */
  predicate DrainsUnderWatch(st: State)
    decreases |st.events|
  {
    st.events != [] &&
    if st.events[0] == WorldDisconnected then StopsUnderWatch(Abandoned(st))
    else DrainsUnderWatch(Handled(st.(events := st.events[1..]), st.events[0]))
  }

  lemma HandleKeepsSound(st: State, e: Event)
    requires Sound(st) && (e == WorldDisconnected ==> !StopsUnderWatch(Abandoned(st)))
    ensures Sound(Handled(st, e))
  {
    match e
    case Death =>
      if st.mode != Dead {
        AbandonKeepsSound(st.(mode := Dead, deaths := st.deaths + 1, deathSeen := true, pending := {}));
      }
    case WorldDisconnected =>
      AbandonKeepsSound(st);
      StopKeepsSound(Abandoned(st));
    case _ =>
  }

  lemma {:induction false} DrainKeepsSound(st: State)
    requires Sound(st) && !DrainsUnderWatch(st)
    ensures Sound(Drained(st))
    decreases |st.events|
  {
    if st.events != [] {
      var rest := st.(events := st.events[1..]);
      assert Sound(rest) by { SoundIgnoresEvents(st, rest.events); }
      assert Abandoned(rest) == Abandoned(st).(events := rest.events);
      HandleKeepsSound(rest, st.events[0]);
      if st.events[0] != WorldDisconnected {
        DrainKeepsSound(Handled(rest, st.events[0]));
      }
    }
  }

  lemma SoundIgnoresEvents(st: State, events: seq<Event>)
    requires Sound(st)
    ensures Sound(st.(events := events))
  {
    var after := st.(events := events);
    forall k | k in st.pending ensures Owned(after, k) {
      assert Owned(st, k);
    }
  }

  /** The step stops the loop while the lifecycle task still watches a call. */
  predicate UnderWatch(st: State, step: Step) {
    (step.Stop? && StopsUnderWatch(st))
      || (step.Process? && step.own && DrainsUnderWatch(Sensed(st, step.native, step.dead)))
  }

  lemma EnterKeepsSound(st: State, id: string, c: Context)
    requires Sound(st)
    ensures Sound(Entered(st, id, c))
  {
    var after := Entered(st, id, c);
    if after != st {
      CallStillOwnsNew(after);
      forall k | k in st.pending ensures Owned(after, k) {
        if CallOwns(st, k) {
          var r :| 0 <= r < |st.calls| && st.calls[r].id == k && st.calls[r].phase != Done;
          CallStillOwns(st, after, r);
        }
      }
    }
  }

  lemma CallStillOwnsNew(st: State)
    requires st.calls != [] && st.calls[|st.calls| - 1].phase != Done
    ensures CallOwns(st, st.calls[|st.calls| - 1].id)
  {
  }

  lemma LeaveKeepsSound(st: State, r: nat, raised: bool, decided: bool)
    requires Sound(st)
    ensures Sound(Left(st, r, raised, decided))
  {
    var after := Left(st, r, raised, decided);
    forall k | k in after.pending ensures Owned(after, k) {
      assert Owned(st, k);
      if CallOwns(st, k) {
        var q :| 0 <= q < |st.calls| && st.calls[q].id == k && st.calls[q].phase != Done;
        assert q == r && after != st ==> after.calls[q].phase == Unjudged;
        CallStillOwns(st, after, q);
      }
    }
  }

  lemma WatchKeepsSound(st: State, r: nat)
    requires Sound(st)
    ensures Sound(Registered(st, r)) && Sound(PickedUp(st)) && Sound(Unwatched(st))
  {
    var after := Registered(st, r);
    forall k | k in after.pending ensures Owned(after, k) {
      OwnedBySameCalls(st, after, k);
    }
    forall k | k in st.pending ensures Owned(PickedUp(st), k) {
      OwnedBySameCalls(st, PickedUp(st), k);
    }
    after := Unwatched(st);
    forall k | k in after.pending ensures Owned(after, k) {
      if k in st.pending {
        OwnedBySameCalls(st, after, k);
      } else {
        CallStillOwns(st, after, st.watching.value.call);
      }
    }
  }

  lemma OwnedBySameCalls(a: State, b: State, k: string)
    requires Owned(a, k) && b.guards == a.guards && |b.calls| == |a.calls|
    requires forall r :: 0 <= r < |a.calls| ==> b.calls[r].id == a.calls[r].id && b.calls[r].phase == a.calls[r].phase
    ensures Owned(b, k)
  {
    if CallOwns(a, k) {
      var r :| 0 <= r < |a.calls| && a.calls[r].id == k && a.calls[r].phase != Done;
      CallStillOwns(a, b, r);
    }
  }

  lemma JudgeKeepsSound(st: State, node: string)
    requires Sound(st)
    ensures Sound(Judged(st, node))
  {
    var after := Judged(st, node);
    forall k | k in after.pending ensures Owned(after, k) {
      assert Owned(st, k);
      if CallOwns(st, k) {
        var r :| 0 <= r < |st.calls| && st.calls[r].id == k && st.calls[r].phase != Done;
        CallStillOwns(st, after, r);
      }
    }
  }

  lemma GuardKeepsSound(st: State, id: string, g: nat)
    requires Sound(st)
    ensures Sound(Guarded(st, id)) && Sound(Unguarded(st, g))
  {
    var after := Guarded(st, id);
    forall k | k in after.pending ensures Owned(after, k) {
      if k !in st.pending {
        assert after.guards[|st.guards|] == Guard(k, true, true);
      } else if GuardOwns(st, k) {
        var h :| 0 <= h < |st.guards| && st.guards[h] == Guard(k, true, true);
        assert after.guards[h] == Guard(k, true, true);
      } else {
        assert CallOwns(st, k);
        var r :| 0 <= r < |st.calls| && st.calls[r].id == k && st.calls[r].phase != Done;
        CallStillOwns(st, after, r);
      }
    }
    after := Unguarded(st, g);
    forall k | k in after.pending ensures Owned(after, k) {
      if GuardOwns(st, k) {
        var h :| 0 <= h < |st.guards| && st.guards[h] == Guard(k, true, true);
        assert after.guards[h] == Guard(k, true, true);
      } else {
        assert CallOwns(st, k);
        var r :| 0 <= r < |st.calls| && st.calls[r].id == k && st.calls[r].phase != Done;
        CallStillOwns(st, after, r);
      }
    }
  }

  lemma FieldsKeepSound(a: State, b: State)
    requires Sound(a)
    requires b == a.(events := b.events, connected := b.connected, mode := b.mode)
    ensures Sound(b)
  {
    forall k | k in b.pending ensures Owned(b, k) {
      OwnedBySameCalls(a, b, k);
    }
  }

  lemma StepKeepsSound(st: State, step: Step)
    requires Sound(st) && !UnderWatch(st, step)
    ensures Sound(Apply(st, step))
  {
    match step
    case Queue(e) => FieldsKeepSound(st, Queued(st, e));
    case Process(own, native, dead) =>
      FieldsKeepSound(st, Sensed(st, native, dead));
      if own {
        DrainKeepsSound(Sensed(st, native, dead));
      }
    case Enter(id, c) => EnterKeepsSound(st, id, c);
    case Register(r) => WatchKeepsSound(st, r);
    case PickUp => WatchKeepsSound(st, 0);
    case Unwatch => WatchKeepsSound(st, 0);
    case Leave(r, raised, decided) => LeaveKeepsSound(st, r, raised, decided);
    case Judge(node) => JudgeKeepsSound(st, node);
    case Protect(id) => GuardKeepsSound(st, id, 0);
    case Unprotect(g) => GuardKeepsSound(st, "", g);
    case Decide(_) => FieldsKeepSound(st, Apply(st, step));
    case Stop => StopKeepsSound(st);
  }

  predicate NeverUnderWatch(st: State, steps: seq<Step>)
    decreases |steps|
  {
    steps == [] ||
    (NeverUnderWatch(st, steps[..|steps| - 1]) && !UnderWatch(Run(st, steps[..|steps| - 1]), steps[|steps| - 1]))
  }

  /** No leaked result slot: over every run -- fast, monitored, repeated, raised,
      cancelled and death exits in any order -- that never stops the loop under a
      watched call, each slot belongs to a call inside `run`, to a returned plan call
      not yet judged, or to a protective result being judged. */
  lemma NoSlotLeaks(steps: seq<Step>)
    requires NeverUnderWatch(INITIAL, steps)
    ensures Sound(Run(INITIAL, steps))
  {
    SoundStaysSound(INITIAL, steps);
  }

  lemma {:induction false} SoundStaysSound(st: State, steps: seq<Step>)
    requires Sound(st) && NeverUnderWatch(st, steps)
    ensures Sound(Run(st, steps))
  {
    if steps != [] {
      SoundStaysSound(st, steps[..|steps| - 1]);
      StepKeepsSound(Run(st, steps[..|steps| - 1]), steps[|steps| - 1]);
    }
  }

  /** So once every call is done, every result judged and every monitor over, the loop
      is free to ask idle questions again. */
  lemma IdleComesBack(steps: seq<Step>)
    requires NeverUnderWatch(INITIAL, steps)
    requires var st := Run(INITIAL, steps);
             && st.active.None?
             && (forall r :: 0 <= r < |st.calls| ==> st.calls[r].phase == Done)
             && (forall g :: 0 <= g < |st.guards| ==> !st.guards[g].open)
    ensures MayAskIdle(Run(INITIAL, steps))
  {
    NoSlotLeaks(steps);
  }

  // -- what a stop under a watched call costs --------------------------------------------------------------

  /** Whatever comes, short of a stop under a watched call, no slot is left over. */
  ghost predicate NeverLeaks(st: State) {
    forall steps :: NeverUnderWatch(st, steps) ==> AllOwned(Run(st, steps))
  }

  /** Everybody leaves: call `r` as a plan call whose frame has decided, the others raised. */
  function Leaves(n: nat, r: nat): seq<Step> {
    if n == 0 then [] else Leaves(n - 1, r) + [Leave(n - 1, n - 1 != r, true)]
  }

  function Closes(n: nat, first: seq<Step>): seq<Step> {
    if n == 0 then first else Closes(n - 1, first) + [Unprotect(n - 1)]
  }

  predicate Quiet(steps: seq<Step>) {
    forall s :: s in steps ==> !s.Stop? && !s.Process?
  }

  lemma {:induction false} QuietIsNeverUnderWatch(st: State, steps: seq<Step>)
    requires Quiet(steps)
    ensures NeverUnderWatch(st, steps)
  {
    if steps != [] {
      assert steps[|steps| - 1] in steps;
      QuietIsNeverUnderWatch(st, steps[..|steps| - 1]);
    }
  }

  /** After the stop: no slot is taken, and the watched call, not abandoned, waits no
      more but is still watched. */
  predicate LetGo(st: State, r: nat, k: string) {
    && st.pending == {} && st.active.None? && st.watching.Some? && st.watching.value.call == r && r < |st.calls|
    && st.calls[r].id == k && !st.calls[r].abandoned && !st.calls[r].waiting
  }

  lemma {:induction false} LeavesAreQuiet(n: nat, m: nat, r: nat)
    ensures Quiet(Closes(m, Leaves(n, r)))
    decreases m, n
  {
    if m > 0 {
      LeavesAreQuiet(n, m - 1, r);
    } else if n > 0 {
      LeavesAreQuiet(n - 1, 0, r);
    }
  }

  predicate LeftUpTo(st: State, d: State, r: nat, k: string, n: nat) {
    LetGo(d, r, k) && d.guards == st.guards && |d.calls| == |st.calls| && forall q :: 0 <= q < n <= |d.calls| ==>
      d.calls[q].phase != Inside
  }

  lemma OneLeaves(st: State, d: State, r: nat, k: string, n: nat)
    requires LeftUpTo(st, d, r, k, n) && n < |st.calls|
    ensures LeftUpTo(st, Left(d, n, n != r, true), r, k, n + 1)
  {
    assert forall q :: 0 <= q < |d.calls| && q != n ==> Left(d, n, n != r, true).calls[q] == d.calls[q];
  }

  lemma {:induction false} AllLeave(st: State, r: nat, k: string, n: nat)
    requires LetGo(st, r, k) && n <= |st.calls|
    ensures LeftUpTo(st, Run(st, Leaves(n, r)), r, k, n)
  {
    if n > 0 {
      AllLeave(st, r, k, n - 1);
      OneLeaves(st, Run(st, Leaves(n - 1, r)), r, k, n - 1);
      RunLeave(st, Leaves(n - 1, r), n - 1, n - 1 != r, true);
    }
  }

  predicate ClosedUpTo(st: State, d: State, r: nat, k: string, n: nat) {
    LetGo(d, r, k) && d.calls == st.calls && |d.guards| == |st.guards| && forall g :: 0 <= g < n <= |d.guards| ==>
      !d.guards[g].open
  }

  lemma OneCloses(st: State, d: State, r: nat, k: string, n: nat)
    requires ClosedUpTo(st, d, r, k, n) && n < |st.guards|
    ensures ClosedUpTo(st, Unguarded(d, n), r, k, n + 1)
  {
    assert forall h :: 0 <= h < |d.guards| && h != n ==> Unguarded(d, n).guards[h] == d.guards[h];
  }

  lemma {:induction false} AllClose(st: State, first: seq<Step>, r: nat, k: string, n: nat)
    requires LetGo(Run(st, first), r, k) && n <= |Run(st, first).guards|
    ensures ClosedUpTo(Run(st, first), Run(st, Closes(n, first)), r, k, n)
  {
    if n > 0 {
      AllClose(st, first, r, k, n - 1);
      OneCloses(Run(st, first), Run(st, Closes(n - 1, first)), r, k, n - 1);
      RunClose(st, Closes(n - 1, first), n - 1);
    }
  }

  lemma RunClose(st: State, steps: seq<Step>, g: nat)
    ensures Run(st, steps + [Unprotect(g)]) == Unguarded(Run(st, steps), g)
  {
    RunSnoc(st, steps, Unprotect(g));
  }

  lemma RunLeave(st: State, steps: seq<Step>, r: nat, raised: bool, decided: bool)
    ensures Run(st, steps + [Leave(r, raised, decided)]) == Left(Run(st, steps), r, raised, decided)
  {
    RunSnoc(st, steps, Leave(r, raised, decided));
  }

  lemma RunSnoc(st: State, steps: seq<Step>, step: Step)
    ensures Run(st, steps + [step]) == Apply(Run(st, steps), step)
  {
    assert (steps + [step])[..|steps|] == steps;
  }

  /** The monitor's end then takes a slot for a call that is long gone. */
  lemma LastSlotHasNoOwner(st: State, r: nat, k: string)
    requires LetGo(st, r, k)
    requires forall q :: 0 <= q < |st.calls| ==> st.calls[q].phase != Inside
    requires forall g :: 0 <= g < |st.guards| ==> !st.guards[g].open
    ensures !AllOwned(Unwatched(Judged(st, k)))
  {
    var after := Unwatched(Judged(st, k));
    assert k in after.pending && !CallOwns(after, k) && !GuardOwns(after, k);
  }

  lemma StoppedLetsGo(st: State)
    requires Sound(st) && StopsUnderWatch(st)
    ensures LetGo(Stopped(st), st.watching.value.call, st.calls[st.watching.value.call].id)
  {
  }

  /** From the stop on: everybody leaves, every result is followed and judged. */
  lemma WoundDown(st: State, r: nat, k: string) returns (steps: seq<Step>)
    requires LetGo(st, r, k)
    ensures Quiet(steps) && LetGo(Run(st, steps), r, k)
    ensures forall q :: 0 <= q < |Run(st, steps).calls| ==> Run(st, steps).calls[q].phase != Inside
    ensures forall g :: 0 <= g < |Run(st, steps).guards| ==> !Run(st, steps).guards[g].open
  {
    LeavesAreQuiet(|st.calls|, |st.guards|, r);
    AllLeave(st, r, k, |st.calls|);
    var leaves := Leaves(|st.calls|, r);
    AllClose(st, leaves, r, k, |st.guards|);
    steps := Closes(|st.guards|, leaves);
  }

  lemma StopUnderWatchLeaks(st: State)
    requires Sound(st) && StopsUnderWatch(st)
    ensures !NeverLeaks(Stopped(st))
  {
    var (after, r) := (Stopped(st), st.watching.value.call);
    var k := st.calls[r].id;
    StoppedLetsGo(st);
    var down := WoundDown(after, r, k);
    LastSlotHasNoOwner(Run(after, down), r, k);
    var steps := down + [Judge(k)] + [Unwatch];
    assert Run(after, steps) == Unwatched(Judged(Run(after, down), k)) by {
      RunSnoc(after, down, Judge(k));
      RunSnoc(after, down + [Judge(k)], Unwatch);
    }
    QuietIsNeverUnderWatch(after, steps);
  }

  lemma {:induction false} DrainUnderWatchLeaks(st: State)
    requires Sound(st) && DrainsUnderWatch(st)
    ensures !NeverLeaks(Drained(st))
    decreases |st.events|
  {
    var rest := st.(events := st.events[1..]);
    SoundIgnoresEvents(st, rest.events);
    assert Abandoned(rest) == Abandoned(st).(events := rest.events);
    if st.events[0] == WorldDisconnected {
      AbandonKeepsSound(rest);
      StopUnderWatchLeaks(Abandoned(rest));
    } else {
      HandleKeepsSound(rest, st.events[0]);
      DrainUnderWatchLeaks(Handled(rest, st.events[0]));
    }
  }

  /** The condition of `NoSlotLeaks` is exact, step by step: a step leaves the loop where
      some continuation ends with a slot nobody owns if and only if it stops the loop --
      itself or by a disconnect -- under a call that is watched and not abandoned. */
  lemma StepLeaksIff(st: State, step: Step)
    requires Sound(st)
    ensures NeverLeaks(Apply(st, step)) <==> !UnderWatch(st, step)
  {
    if !UnderWatch(st, step) {
      StepKeepsSound(st, step);
      forall steps | NeverUnderWatch(Apply(st, step), steps) ensures AllOwned(Run(Apply(st, step), steps)) {
        SoundStaysSound(Apply(st, step), steps);
      }
    } else if step.Stop? {
      StopUnderWatchLeaks(st);
    } else {
      var sensed := Sensed(st, step.native, step.dead);
      SoundIgnoresEvents(st, sensed.events);
      DrainUnderWatchLeaks(sensed);
    }
  }

  /** Such a stop is one call away: a call outlives its grace and is watched. */
  lemma StopUnderWatchIsReachable(id: string, c: Context)
    ensures var st := Run(INITIAL, [Enter(id, c), Register(0), PickUp]);
            StopsUnderWatch(st) && !NeverLeaks(Stopped(st))
  {
    var steps := [Enter(id, c), Register(0), PickUp];
    assert steps[..2] == [Enter(id, c), Register(0)] && steps[..2][..1] == [Enter(id, c)] && steps[..1][..0] == [];
    var entered := Entered(INITIAL, id, c);
    assert Run(INITIAL, steps[..1]) == entered;
    assert Run(INITIAL, steps[..2]) == Registered(entered, 0);
    var st := Run(INITIAL, steps);
    assert st == PickedUp(Registered(entered, 0));
    assert st.pending == {};
    StopUnderWatchLeaks(st);
  }

  // -- idle questions wait -------------------------------------------------------------------------------------

  predicate Live(st: State, r: int) {
    0 <= r < |st.calls| && st.calls[r].phase != Done
  }

  /** No id in use is a spelling of another. */
  ghost predicate Apart(st: State) {
    && (forall r, q :: Live(st, r) && Live(st, q) && r != q ==> st.calls[q].id !in Spellings(st.calls[r].id))
    && (forall g, r :: 0 <= g < |st.guards| && st.guards[g].open && st.guards[g].reserved && Live(st, r) ==>
          st.calls[r].id !in Spellings(st.guards[g].id))
  }

  /** Every call inside `run` and every unjudged one is monitored or holds its slot. */
  ghost predicate Slotted(st: State) {
    forall r :: Live(st, r) ==>
      && !st.calls[r].abandoned
      && ((st.calls[r].waiting && st.active.Some? && st.active.value.call == r)
          || (!st.calls[r].waiting && st.calls[r].id in st.pending))
  }

  /** A step in an undisturbed life: no death, respawn, disconnect or stop; new ids are
      new, a judge judges what has returned, and a protective result is followed for a
      call that holds its slot or under an id of its own. */
  ghost predicate Gentle(st: State, step: Step) {
    match step
    case Stop => false
    case Process(own, native, dead) =>
      var events := Sensed(st, native, dead).events;
      own ==> Death !in events && Respawned !in events && WorldDisconnected !in events
    case Enter(id, _) =>
      && (forall r :: Live(st, r) ==> st.calls[r].id !in Spellings(id) && id !in Spellings(st.calls[r].id))
      && (forall g :: 0 <= g < |st.guards| && st.guards[g].open && st.guards[g].reserved ==>
          id !in Spellings(st.guards[g].id))
    case Judge(node) => forall r :: Live(st, r) && st.calls[r].phase == Inside ==> st.calls[r].id !in Spellings(node)
    case Protect(id) => id in st.pending || forall r :: Live(st, r) ==> st.calls[r].id !in Spellings(id)
    case _ => true
  }

  ghost predicate GentleRun(st: State, steps: seq<Step>)
    decreases |steps|
  {
    steps == [] || (GentleRun(st, steps[..|steps| - 1]) && Gentle(Run(st, steps[..|steps| - 1]), steps[|steps| - 1]))
  }

  ghost predicate Orderly(st: State) {
    Apart(st) && Slotted(st) && Tied(st) && (st.watching.Some? ==> st.watching.value.call < |st.calls|)
    && (st.active.Some? ==> st.active.value.call < |st.calls|)
  }

  lemma {:induction false} GentleDrain(st: State)
    requires Death !in st.events && Respawned !in st.events && WorldDisconnected !in st.events
    ensures Drained(st) == st.(events := [], mode := Drained(st).mode)
    decreases |st.events|
  {
    if st.events != [] {
      assert st.events == [st.events[0]] + st.events[1..];
      GentleDrain(Handled(st.(events := st.events[1..]), st.events[0]));
    }
  }

  lemma FieldsKeepOrderly(a: State, b: State)
    requires Orderly(a) && b.calls == a.calls && b.guards == a.guards && b.pending == a.pending
    requires b.active == a.active && b.watching == a.watching
    ensures Orderly(b)
  {
    assert forall r :: Live(b, r) ==> Live(a, r);
  }

  lemma EnterKeepsOrderly(st: State, id: string, c: Context)
    requires Orderly(st) && Gentle(st, Enter(id, c))
    ensures Orderly(Entered(st, id, c))
  {
    var after := Entered(st, id, c);
    assert forall r :: Live(after, r) && r < |st.calls| ==> Live(st, r) && after.calls[r] == st.calls[r];
  }

  lemma RegisterKeepsOrderly(st: State, r: nat)
    requires Orderly(st)
    ensures Orderly(Registered(st, r))
  {
    assert forall q :: Live(Registered(st, r), q) ==> Live(st, q);
  }

  lemma UnwatchKeepsOrderly(st: State)
    requires Orderly(st)
    ensures Orderly(PickedUp(st)) && Orderly(Unwatched(st))
  {
    assert forall q :: Live(PickedUp(st), q) ==> Live(st, q);
    assert forall q :: Live(Unwatched(st), q) ==> Live(st, q);
  }

  lemma LeaveKeepsOrderly(st: State, r: nat, raised: bool, decided: bool)
    requires Orderly(st)
    ensures Orderly(Left(st, r, raised, decided))
  {
    assert forall q :: Live(Left(st, r, raised, decided), q) ==> Live(st, q);
  }

  lemma JudgeKeepsOrderly(st: State, node: string)
    requires Orderly(st) && Gentle(st, Judge(node))
    ensures Orderly(Judged(st, node))
  {
    var after := Judged(st, node);
    assert forall r :: Live(after, r) ==> Live(st, r) && after.calls[r] == st.calls[r];
  }

  lemma GuardKeepsOrderly(st: State, id: string, g: nat)
    requires Orderly(st)
    ensures Gentle(st, Protect(id)) ==> Orderly(Guarded(st, id))
    ensures Orderly(Unguarded(st, g))
  {
    var (a, b) := (Guarded(st, id), Unguarded(st, g));
    assert forall r :: Live(a, r) || Live(b, r) ==> Live(st, r);
    assert forall h :: 0 <= h < |st.guards| ==> a.guards[h] == st.guards[h];
    assert forall h :: 0 <= h < |b.guards| && b.guards[h].open ==> b.guards[h] == st.guards[h];
  }

  lemma StepKeepsOrderly(st: State, step: Step)
    requires Orderly(st) && Gentle(st, step)
    ensures Orderly(Apply(st, step))
  {
    match step
    case Queue(e) => FieldsKeepOrderly(st, Queued(st, e));
    case Process(own, native, dead) =>
      var sensed := Sensed(st, native, dead);
      if own {
        GentleDrain(sensed);
      }
      FieldsKeepOrderly(st, Apply(st, step));
    case Enter(id, c) => EnterKeepsOrderly(st, id, c);
    case Register(r) => RegisterKeepsOrderly(st, r);
    case PickUp => UnwatchKeepsOrderly(st);
    case Unwatch => UnwatchKeepsOrderly(st);
    case Leave(r, raised, decided) => LeaveKeepsOrderly(st, r, raised, decided);
    case Judge(node) => JudgeKeepsOrderly(st, node);
    case Protect(id) => GuardKeepsOrderly(st, id, 0);
    case Unprotect(g) => GuardKeepsOrderly(st, "", g);
    case Decide(_) => FieldsKeepOrderly(st, Apply(st, step));
  }

  lemma {:induction false} RunKeepsOrderly(steps: seq<Step>)
    requires GentleRun(INITIAL, steps)
    ensures Orderly(Run(INITIAL, steps))
  {
    if steps != [] {
      RunKeepsOrderly(steps[..|steps| - 1]);
      StepKeepsOrderly(Run(INITIAL, steps[..|steps| - 1]), steps[|steps| - 1]);
    }
  }

  /** The other half: in an undisturbed life no idle question is asked while a call is
      inside `run` or a returned plan call waits for its judge. */
  lemma IdleWaitsForResults(steps: seq<Step>, r: nat)
    requires GentleRun(INITIAL, steps) && MayAskIdle(Run(INITIAL, steps)) && r < |Run(INITIAL, steps).calls|
    ensures Run(INITIAL, steps).calls[r].phase == Done
  {
    RunKeepsOrderly(steps);
    assert !Live(Run(INITIAL, steps), r);
  }

  // -- when idle questions do not wait ----------------------------------------------------------------------

  predicate Monitored(st: State, r: nat) {
    st.active.Some? && st.active.value.call == r
  }

  /** What keeps idle questions away on behalf of a call: its monitor or its slot. */
  predicate Covered(st: State, r: nat)
    requires r < |st.calls|
  {
    Monitored(st, r) || st.calls[r].id in st.pending
  }

  /** The queue holds an event that clears the slots: a disconnect, a respawn, or the
      death of a Body not yet dead. */
  predicate ClearingEvents(st: State) {
    WorldDisconnected in st.events || Respawned in st.events || (Death in st.events && st.mode != Dead)
  }

  /** The step clears every slot. */
  predicate ClearsSlots(st: State, step: Step) {
    step.Stop? || (step.Process? && step.own && ClearingEvents(Sensed(st, step.native, step.dead)))
  }

  /** The step lets go of the registered monitor. */
  predicate DropsMonitor(st: State, step: Step) {
    step.Stop? || (step.Process? && step.own && WorldDisconnected in Sensed(st, step.native, step.dead).events)
  }

  predicate Registers(st: State, step: Step, r: nat) {
    step.Register? && step.r == r && r < |st.calls| && st.calls[r].phase == Inside && st.active.None?
  }

  /** The ids whose slots the step gives up. */
  function GivenUp(st: State, step: Step): set<string> {
    match step
    case Register(r) => if Registers(st, step, r) then {st.calls[r].id} else {}
    case Leave(r, raised, decided) =>
      if r < |st.calls| && st.calls[r].phase == Inside && (raised || !st.calls[r].waiting)
         && (raised || !st.calls[r].context.plan || decided)
      then Spellings(st.calls[r].id) else {}
    case Judge(node) => Spellings(node)
    case Unprotect(g) =>
      if g < |st.guards| && st.guards[g].open && st.guards[g].reserved then Spellings(st.guards[g].id) else {}
    case _ => {}
  }

  /** The ids whose slots the step takes. */
  function TakenUp(st: State, step: Step): set<string> {
    match step
    case Enter(id, _) => if st.connected && !SeesDeath(st) then {id} else {}
    case Unwatch =>
      if st.watching.Some? && st.watching.value.call < |st.calls| && !st.calls[st.watching.value.call].abandoned
      then {st.calls[st.watching.value.call].id} else {}
    case Protect(id) => {id}
    case _ => {}
  }

  predicate Covers(st: State, step: Step, r: nat)
    requires r < |st.calls|
  {
    Registers(st, step, r) || st.calls[r].id in TakenUp(st, step)
  }

  predicate Uncovers(st: State, step: Step, r: nat)
    requires r < |st.calls|
  {
    && (Monitored(st, r) ==> DropsMonitor(st, step))
    && (ClearsSlots(st, step) || st.calls[r].id in GivenUp(st, step))
  }

  /** The same calls, of which some may have been abandoned. */
  predicate SameCalls(a: seq<Call>, b: seq<Call>) {
    |a| == |b| && forall r :: 0 <= r < |a| ==>
      b[r].id == a[r].id && b[r].phase == a[r].phase && (a[r].abandoned ==> b[r].abandoned)
  }

  lemma AbandonShape(st: State)
    ensures SameCalls(st.calls, Abandoned(st).calls) && Abandoned(st) == st.(calls := Abandoned(st).calls)
  {
  }

  lemma StopShape(st: State)
    ensures SameCalls(st.calls, Stopped(st).calls)
    ensures Stopped(st) == st.(calls := Stopped(st).calls, active := None, pending := {})
  {
  }

  lemma HandleShape(st: State, e: Event)
    ensures var after := Handled(st, e);
            && SameCalls(st.calls, after.calls)
            && after.pending == (if ClearingEvents(st.(events := [e])) then {} else st.pending)
            && after.active == (if e == WorldDisconnected then None else st.active)
            && (after.mode == Dead <==> e == Death || (st.mode == Dead && e != Respawned))
  {
    match e
    case Death =>
      AbandonShape(st.(mode := Dead, deaths := st.deaths + 1, deathSeen := true, pending := {}));
    case WorldDisconnected =>
      AbandonShape(st);
      StopShape(Abandoned(st));
    case _ =>
  }

  lemma {:induction false} DrainShape(st: State)
    ensures var after := Drained(st);
            && SameCalls(st.calls, after.calls)
            && after.pending == (if ClearingEvents(st) then {} else st.pending)
            && after.active == (if WorldDisconnected in st.events then None else st.active)
    decreases |st.events|
  {
    if st.events != [] {
      var rest := st.(events := st.events[1..]);
      assert st.events == [st.events[0]] + rest.events;
      HandleShape(rest, st.events[0]);
      if st.events[0] != WorldDisconnected {
        DrainShape(Handled(rest, st.events[0]));
      }
    }
  }

  /** A call that is still live and not abandoned after a step is covered exactly when
      the step covers it, or it was covered and the step does not uncover it. */
  predicate CoverFollows(st: State, step: Step, after: State, r: nat)
    requires r < |st.calls| <= |after.calls|
  {
    Kept(after, r) ==>
      (Covered(after, r) <==> Covers(st, step, r) || (Covered(st, r) && !Uncovers(st, step, r)))
  }

  lemma LeaveCovers(st: State, q: nat, raised: bool, decided: bool, r: nat)
    requires r < |st.calls|
    ensures CoverFollows(st, Leave(q, raised, decided), Left(st, q, raised, decided), r)
  {
  }

  lemma MonitorCovers(st: State, q: nat, r: nat)
    requires r < |st.calls|
    ensures CoverFollows(st, Register(q), Registered(st, q), r)
    ensures CoverFollows(st, PickUp, PickedUp(st), r) && CoverFollows(st, Unwatch, Unwatched(st), r)
  {
  }

  lemma EnterCovers(st: State, id: string, c: Context, r: nat)
    requires r < |st.calls|
    ensures CoverFollows(st, Enter(id, c), Entered(st, id, c), r)
  {
  }

  lemma JudgeCovers(st: State, node: string, r: nat)
    requires r < |st.calls|
    ensures CoverFollows(st, Judge(node), Judged(st, node), r)
  {
  }

  lemma GuardCovers(st: State, id: string, g: nat, r: nat)
    requires r < |st.calls|
    ensures CoverFollows(st, Protect(id), Guarded(st, id), r) && CoverFollows(st, Unprotect(g), Unguarded(st, g), r)
  {
  }

  lemma ProcessCovers(st: State, own: bool, native: bool, dead: bool, r: nat)
    requires r < |st.calls| <= |Apply(st, Process(own, native, dead)).calls|
    ensures CoverFollows(st, Process(own, native, dead), Apply(st, Process(own, native, dead)), r)
  {
    DrainShape(Sensed(st, native, dead));
  }

  lemma StopCovers(st: State, r: nat)
    requires r < |st.calls|
    ensures CoverFollows(st, Stop, Stopped(st), r)
  {
    StopShape(st);
  }

  lemma StepCoversIff(st: State, step: Step, r: nat)
    requires r < |st.calls| <= |Apply(st, step).calls|
    ensures CoverFollows(st, step, Apply(st, step), r)
  {
    match step
    case Process(own, native, dead) => ProcessCovers(st, own, native, dead, r);
    case Enter(id, c) => EnterCovers(st, id, c, r);
    case Register(q) => MonitorCovers(st, q, r);
    case PickUp => MonitorCovers(st, r, r);
    case Unwatch => MonitorCovers(st, r, r);
    case Leave(q, raised, decided) => LeaveCovers(st, q, raised, decided, r);
    case Judge(node) => JudgeCovers(st, node, r);
    case Protect(id) => GuardCovers(st, id, 0, r);
    case Unprotect(g) => GuardCovers(st, "", g, r);
    case Stop => StopCovers(st, r);
    case Queue(e) =>
    case Decide(_) =>
  }

  /** Some step of the run uncovered the call, and none since covered it again. */
  predicate SlotLost(steps: seq<Step>, r: nat)
    decreases |steps|
  {
    steps != [] &&
    var (front, step) := (steps[..|steps| - 1], steps[|steps| - 1]);
    var st := Run(INITIAL, front);
    r < |st.calls| && !Covers(st, step, r) && (Uncovers(st, step, r) || SlotLost(front, r))
  }

  lemma CallsOnlyGrow(st: State, step: Step)
    ensures var after := Apply(st, step);
            && |st.calls| <= |after.calls|
            && (forall r :: |st.calls| <= r < |after.calls| ==> Covered(after, r))
            && (forall r :: 0 <= r < |st.calls| && Kept(after, r) ==> Kept(st, r))
  {
    if step.Process? && step.own {
      DrainShape(Sensed(st, step.native, step.dead));
    } else if step.Stop? {
      StopShape(st);
    }
  }

  /** A call inside `run` or unjudged, and not abandoned. */
  predicate Kept(st: State, r: nat) {
    Live(st, r) && !st.calls[r].abandoned
  }

  lemma OneMoreStep(st: State, step: Step, r: nat, lost: bool)
    requires Kept(Apply(st, step), r)
    requires Kept(st, r) ==> (Covered(st, r) <==> !lost)
    ensures Covered(Apply(st, step), r)
            <==> !(r < |st.calls| && !Covers(st, step, r) && (Uncovers(st, step, r) || lost))
  {
    CallsOnlyGrow(st, step);
    if r < |st.calls| {
      StepCoversIff(st, step, r);
    }
  }

  /** Over every run, deaths, respawns, disconnects and stops included: a call that is
      inside `run` or unjudged, and not abandoned, keeps idle questions away exactly
      unless some step uncovered it and none since covered it again. */
  lemma {:induction false} CoveredUnlessSlotLost(steps: seq<Step>, r: nat)
    requires Kept(Run(INITIAL, steps), r)
    ensures Covered(Run(INITIAL, steps), r) <==> !SlotLost(steps, r)
  {
    if steps != [] {
      var (front, step) := (steps[..|steps| - 1], steps[|steps| - 1]);
      if Kept(Run(INITIAL, front), r) {
        CoveredUnlessSlotLost(front, r);
      }
      OneMoreStep(Run(INITIAL, front), step, r, SlotLost(front, r));
    }
  }

  /** So an idle question asked while such a call is not done tells that it lost its slot. */
  lemma IdleMeansSlotLost(steps: seq<Step>, r: nat)
    requires MayAskIdle(Run(INITIAL, steps)) && r < |Run(INITIAL, steps).calls|
    ensures Kept(Run(INITIAL, steps), r) ==> SlotLost(steps, r)
  {
    if Kept(Run(INITIAL, steps), r) {
      CoveredUnlessSlotLost(steps, r);
    }
  }

  // -- the death fence ----------------------------------------------------------------------------------------

  /** `_judge_frame` passes its answer on: no death since it asked, none now. */
  predicate AnswerIsReal(asked: State, now: State) {
    now.deaths == asked.deaths && !SeesDeath(now)
  }

  predicate Announces(st: State, step: Step) {
    step == Queue(Death) || (step.Process? && Sensed(st, step.native, step.dead) != st)
  }

  predicate NoDeathAnnounced(st: State, steps: seq<Step>)
    decreases |steps|
  {
    steps == [] ||
    (NoDeathAnnounced(st, steps[..|steps| - 1]) && !Announces(Run(st, steps[..|steps| - 1]), steps[|steps| - 1]))
  }

  /** As long as no death was handled since asking, the Body lives. */
  predicate Fence(asked: State, st: State) {
    st.deaths >= asked.deaths && (st.deaths == asked.deaths ==> st.mode != Dead)
  }

  lemma {:induction false} DrainKeepsFence(asked: State, st: State)
    requires Fence(asked, st)
    ensures Fence(asked, Drained(st))
    ensures AnswerIsReal(asked, st) <==> AnswerIsReal(asked, Drained(st))
    decreases |st.events|
  {
    if st.events != [] {
      assert st.events == [st.events[0]] + st.events[1..];
      if st.events[0] != WorldDisconnected {
        DrainKeepsFence(asked, Handled(st.(events := st.events[1..]), st.events[0]));
      }
    }
  }

  lemma StepKeepsFence(asked: State, st: State, step: Step)
    requires Fence(asked, st)
    ensures Fence(asked, Apply(st, step))
    ensures AnswerIsReal(asked, Apply(st, step)) <==> AnswerIsReal(asked, st) && !Announces(st, step)
  {
    if step.Process? {
      DrainKeepsFence(asked, Sensed(st, step.native, step.dead));
    }
  }

  /** Death fence: an answer is passed on as a real choice exactly when no death was
      announced between asking and answering -- handled or not, respawned or not. */
  lemma {:induction false} DeathFencesAnswers(asked: State, steps: seq<Step>)
    requires !SeesDeath(asked)
    ensures Fence(asked, Run(asked, steps))
    ensures AnswerIsReal(asked, Run(asked, steps)) <==> NoDeathAnnounced(asked, steps)
  {
    if steps != [] {
      DeathFencesAnswers(asked, steps[..|steps| - 1]);
      StepKeepsFence(asked, Run(asked, steps[..|steps| - 1]), steps[|steps| - 1]);
    }
  }

  /** The same check made by the task that handles the events itself: it counts the
      deaths before it handles what is queued. */
  predicate OwnAnswerIsReal(asked: State, now: State) {
    now.deaths == asked.deaths && Drained(now).mode != Dead && !Disconnects(now)
  }

  /** There the fence has a gap: a death and its respawn both still queued slip
      through.  It is why questions are asked from tasks of their own. */
  lemma OwnAnswerMissesQueuedRespawn(asked: State)
    requires !SeesDeath(asked)
    ensures var now := asked.(events := [Death, Respawned]); OwnAnswerIsReal(asked, now) && !AnswerIsReal(asked, now)
  {
    var now := asked.(events := [Death, Respawned]);
    var first := Handled(now.(events := [Respawned]), Death);
    assert now.events[1..] == [Respawned] && [Respawned][1..] == [];
    assert Drained(now) == Drained(first);
    assert first.events[0] == Respawned;
    assert Drained(first) == Handled(first.(events := []), Respawned);
  }

  lemma {:induction false} DrainStaysDead(st: State)
    requires st.mode == Dead && Respawned !in st.events
    ensures Drained(st).mode == Dead && Respawned !in Drained(st).events
    decreases |st.events|
  {
    if st.events != [] && st.events[0] != WorldDisconnected {
      DrainStaysDead(Handled(st.(events := st.events[1..]), st.events[0]));
    }
  }

  /** Between a handled death and its respawn the loop stays dead, whatever else
      happens: no decision, no new call and no call that ends revives it. */
  lemma {:induction false} DeadUntilRespawned(st: State, steps: seq<Step>)
    requires st.mode == Dead && Respawned !in st.events && Queue(Respawned) !in steps
    ensures Run(st, steps).mode == Dead && Respawned !in Run(st, steps).events
  {
    if steps != [] {
      var before, step := Run(st, steps[..|steps| - 1]), steps[|steps| - 1];
      DeadUntilRespawned(st, steps[..|steps| - 1]);
      assert step in steps;
      if step.Process? {
        DrainStaysDead(Sensed(before, step.native, step.dead));
      }
    }
  }

  // -- the loop itself ---------------------------------------------------------------------------------------------

  class Loop {
    var loopState: Mode
    var deathCount: nat
    var deathSeen: bool
    var connected: bool
    var lifecycleEvents: seq<Event>
    var resultPending: set<string>
    var calls: seq<Call>
    var guards: seq<Guard>
    var current: Option<nat>
    var activeMonitor: Option<Watch>
    var watching: Option<Watch>
    var tickets: nat

    function Abs(): State
      reads this
    {
      State(loopState, deathCount, deathSeen, connected, lifecycleEvents, resultPending, calls, guards, current,
            activeMonitor, watching, tickets)
    }

    constructor ()
      ensures Abs() == INITIAL
    {
      loopState, deathCount, deathSeen, connected, lifecycleEvents, resultPending := Idle, 0, false, true, [], {};
      calls, guards, current, activeMonitor, watching, tickets := [], [], None, None, None, 0;
    }

    method SetState(mode: Mode, respawned: bool)
      modifies this`loopState
      ensures loopState == Moved(old(loopState), mode, respawned)
    {
      if loopState == Dead && !respawned {
        return;
      }
      loopState := mode;
    }

    method QueueLifecycleEvent(e: Event)
      modifies this
      ensures Abs() == Queued(old(Abs()), e)
    {
      if e == WorldReady {
        connected := true;
      } else if e == WorldDisconnected {
        connected := false;
      }
      lifecycleEvents := lifecycleEvents + [e];
    }

    method AbandonCurrent()
      modifies this`calls
      ensures Abs() == Abandoned(old(Abs()))
    {
      if current.Some? && current.value < |calls| {
        calls := calls[current.value := calls[current.value].(abandoned := true)];
      }
    }

    method StopLoop()
      modifies this
      ensures Abs() == Stopped(old(Abs()))
    {
      var monitored := activeMonitor;
      activeMonitor, resultPending := None, {};
      if monitored.Some? && monitored.value.call < |calls| {
        calls := calls[monitored.value.call := calls[monitored.value.call].(waiting := false)];
      }
    }

    method HandleEvent(e: Event)
      modifies this
      ensures Abs() == Handled(old(Abs()), e)
    {
      match e
      case WorldDisconnected =>
        AbandonCurrent();
        StopLoop();
      case WorldReady => SetState(Idle, false);
      case Death =>
        if loopState != Dead {
          SetState(Dead, false);
          deathCount, deathSeen, resultPending := deathCount + 1, true, {};
          AbandonCurrent();
        }
      case Respawned =>
        resultPending := {};
        SetState(Idle, true);
      case Unhandled =>
    }

    /** True when the Body is dead, or about to be, or the world is gone. */
    method ProcessLifecycleEvents(own: bool, native: bool, dead: bool) returns (r: bool)
      modifies this
      ensures Abs() == Apply(old(Abs()), Process(own, native, dead))
      ensures r == if own then Abs().mode == Dead || Disconnects(Sensed(old(Abs()), native, dead)) else SeesDeath(Abs())
    {
      if lifecycleEvents == [] && dead && loopState != Dead && !(native && deathSeen) {
        lifecycleEvents := [Death];
      }
      if !own {
        return loopState == Dead || Death in lifecycleEvents;
      }
      ghost var sensed := Abs();
      while lifecycleEvents != []
        invariant Drained(Abs()) == Drained(sensed) && Disconnects(Abs()) == Disconnects(sensed)
        decreases |lifecycleEvents|
      {
        var e := lifecycleEvents[0];
        assert lifecycleEvents == [e] + lifecycleEvents[1..];
        lifecycleEvents := lifecycleEvents[1..];
        HandleEvent(e);
        if e == WorldDisconnected {
          return true;
        }
      }
      return loopState == Dead;
    }

    /** Entering `run`: None when the world is gone or the Body is dead. */
    method EnterRun(id: string, c: Context) returns (r: Option<nat>)
      modifies this
      ensures Abs() == Entered(old(Abs()), id, c)
      ensures r == if old(connected && !SeesDeath(Abs())) then Some(|old(calls)|) else None
    {
      if !connected || loopState == Dead || Death in lifecycleEvents {
        return None;
      }
      r := Some(|calls|);
      calls := calls + [Call(id, c, Inside, false, false, loopState, deathCount, current)];
      resultPending := resultPending + {id};
      current := r;
      SetState(Target(c), false);
    }

    method StartMonitor(r: nat) returns (ok: bool)
      requires r < |calls| && calls[r].phase == Inside
      modifies this
      ensures ok == old(activeMonitor).None? && Abs() == Registered(old(Abs()), r)
    {
      if activeMonitor.Some? {
        return false;
      }
      calls := calls[r := calls[r].(waiting := true)];
      resultPending := resultPending - {calls[r].id};
      activeMonitor, tickets := Some(Watch(r, tickets)), tickets + 1;
      return true;
    }

    /** The end of a monitor in `_idle_frames`. */
    method EndMonitor()
      requires watching.Some? && watching.value.call < |calls|
      modifies this
      ensures Abs() == Unwatched(old(Abs()))
    {
      var r := watching.value.call;
      if activeMonitor == watching {
        activeMonitor := None;
      }
      if !calls[r].abandoned {
        resultPending := resultPending + {calls[r].id};
      }
      calls := calls[r := calls[r].(waiting := false)];
      watching := None;
    }

    method ReleaseResultPending(id: string)
      modifies this`resultPending
      ensures resultPending == old(resultPending) - Spellings(id)
    {
      var keys := {id, "plan-" + id};
      if "plan-" <= id {
        keys := keys + {id[5..]};
      }
      resultPending := resultPending - keys;
    }

    /** The end of `CallSupervisor.run`, which does not yet know of any judge. */
    method LeaveSupervisor(r: nat, raised: bool)
      requires r < |calls|
      modifies this`calls, this`resultPending, this`current
      ensures calls == old(calls)[r := old(calls)[r].(abandoned := old(calls)[r].abandoned || raised)]
      ensures resultPending == if raised || !calls[r].context.plan then old(resultPending) - Spellings(calls[r].id)
              else old(resultPending)
      ensures current == if old(current) == Some(r) then calls[r].outer else old(current)
    {
      if raised {
        calls := calls[r := calls[r].(abandoned := true)];
        ReleaseResultPending(calls[r].id);
      }
      if !calls[r].context.plan {
        ReleaseResultPending(calls[r].id);
      }
      if current == Some(r) {
        current := calls[r].outer;
      }
    }

    method LeaveRun(r: nat, raised: bool, decided: bool)
      requires r < |calls| && calls[r].phase == Inside && (raised || !calls[r].waiting)
      modifies this
      ensures Abs() == Left(old(Abs()), r, raised, decided)
    {
      LeaveSupervisor(r, raised);
      var call := calls[r];
      if !call.context.reflex && call.deaths == deathCount {
        SetState(call.previous, false);
      }
      var judged := raised || !call.context.plan || decided;
      if judged {
        ReleaseResultPending(call.id);
      }
      ghost var slots := old(resultPending) - Spellings(call.id);
      assert slots - Spellings(call.id) == slots;
      calls := calls[r := call.(phase := if judged then Done else Unjudged)];
      assert calls == old(calls)[r := call.(phase := if judged then Done else Unjudged)];
    }

    /** The end of `decide_plan_result`. */
    method ReleaseJudged(node: string)
      modifies this
      ensures Abs() == Judged(old(Abs()), node)
    {
      ReleaseResultPending(node);
      calls := JudgedCalls(calls, Spellings(node));
    }

    method ReserveForResult(id: string)
      modifies this
      ensures Abs() == Guarded(old(Abs()), id)
    {
      var reservedHere := id !in resultPending;
      if reservedHere {
        resultPending := resultPending + {id};
      }
      guards := guards + [Guard(id, reservedHere, true)];
    }

    method FollowedResult(g: nat)
      requires g < |guards| && guards[g].open
      modifies this
      ensures Abs() == Unguarded(old(Abs()), g)
    {
      if guards[g].reserved {
        ReleaseResultPending(guards[g].id);
      }
      guards := guards[g := guards[g].(open := false)];
    }
  }
}
