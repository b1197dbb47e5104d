/** Replaying a durable progress epoch (`replay_progress_epoch`): the record is read
    back from JSON, checked, and committed on a fresh authority. */
module ProgressRecovery {
  import opened Lists
  import opened Options
  import opened ProgressAuthority

  /** The names a record's objects use, one constructor a name. */
  datatype Field =
    | GoalKey
    | LastAction
    | StagnantSteps
    | StalledSteps
    | FailureSteps
    | EpistemicSteps
    | LastFingerprint
    | CurrentFingerprint
    | RecentEvents
    | LastEpistemicKeys
    | KindKey
    | ActionKey
    | FingerprintKey
    | SuccessKey
    | NeutralKey
    | EpochId
    | NovelEpistemicKeys
    | MaterialChanged
    | ProgressAborted
    | ProgressStopReason
    | CommitInput
    | Version
    | ApplyKey
    | AuthorityBefore
    | StepsKey
    | PendingStopReasons

  datatype Json =
    | JNull
    | JBool(b: bool)
    | JInt(n: int)
    | JFloat(f: Float)
    | JText(s: string)
    | JArray(items: seq<Json>)
    | JObject(fields: map<Field, Json>)

  type Record = map<Field, Json>

  // -- writing ---------------------------------------------------------------------------------

  /** `json.dumps` of an action key: tuples and lists become arrays, dictionaries objects. */
  function Dumped(v: Value): Json {
    match v
    case VNone => JNull
    case VBool(b) => JBool(b)
    case VInt(n) => JInt(n)
    case VFloat(f) => JFloat(f)
    case VText(s) => JText(s)
    case VTuple(items) => JArray(DumpedAll(items))
    case VList(items) => JArray(DumpedAll(items))
    case VDict => JObject(map[])
  }

  function DumpedAll(items: seq<Value>): (r: seq<Json>)
    ensures |r| == |items|
  {
    if items == [] then [] else [Dumped(items[0])] + DumpedAll(items[1..])
  }

  function TextJson(s: string): Json {
    JText(s)
  }

  function Texts(texts: seq<string>): seq<Json> {
    Mapped(texts, TextJson)
  }

  function DumpedFacts(f: Facts): Json {
    JObject(map[GoalKey := JText(f.goal),
                LastAction := if f.lastAction.None? then JNull else Dumped(f.lastAction.value),
                StagnantSteps := JInt(f.stagnantSteps), StalledSteps := JInt(f.stalledSteps),
                FailureSteps := JInt(f.failureSteps), EpistemicSteps := JInt(f.epistemicSteps),
                LastFingerprint := JText(f.lastFingerprint), CurrentFingerprint := JText(f.currentFingerprint),
                RecentEvents := JArray(Texts(f.recentEvents)), LastEpistemicKeys := JArray(Texts(f.lastEpistemicKeys))])
  }

  function DumpedStep(s: Step): Json {
    JObject(map[KindKey := JText(if s.kind == Note then "note" else "observe"),
                ActionKey := Dumped(s.actionKey), FingerprintKey := JText(s.fingerprint),
                SuccessKey := if s.success.None? then JNull else JBool(s.success.value),
                NeutralKey := JBool(s.neutral)])
  }

  function DumpedSteps(steps: seq<Step>): seq<Json> {
    Mapped(steps, DumpedStep)
  }

  function ReasonText(r: StopReason): string {
    match r
    case Unknown => "unknown"
    case NoProgress => "no_progress"
    case EpistemicBudget => "epistemic_budget"
    case BodyTransport => "body_transport"
  }

  function ReasonTexts(reasons: seq<StopReason>): seq<string> {
    Mapped(reasons, ReasonText)
  }

  /** What one settled epoch leaves behind: `task` is the task it was opened for, and
      `apply` is false for bookkeeping alone. */
  datatype Epoch = Epoch(id: string, task: Option<string>, before: Facts, apply: bool, steps: seq<Step>,
                         novel: seq<string>,
                         materialChanged: bool, pending: seq<StopReason>)

  function DumpedCommit(e: Epoch): map<Field, Json> {
    map[Version := JInt(1), ApplyKey := JBool(e.apply), AuthorityBefore := DumpedFacts(e.before),
        StepsKey := JArray(DumpedSteps(e.steps)), PendingStopReasons := JArray(Texts(ReasonTexts(e.pending)))]
  }

  /** The durable record as the archive first stores it. */
  function Stored(e: Epoch): Record {
    map[EpochId := JText(e.id), NovelEpistemicKeys := JArray(Texts(e.novel)),
        MaterialChanged := JBool(e.materialChanged),
        ProgressAborted := JBool(false), ProgressStopReason := JNull, CommitInput := JObject(DumpedCommit(e))]
  }

  /** The record after `mark_progress_aborted`, which keeps a reason already there. */
  function Marked(record: Record, reason: StopReason): Record {
    record[ProgressAborted := JBool(true)]
          [ProgressStopReason := if ProgressStopReason in record && record[ProgressStopReason] != JNull
                                     then record[ProgressStopReason] else JText(ReasonText(reason))]
  }

  // -- reading ---------------------------------------------------------------------------------

  /** `_action_key`: arrays of arrays become tuples of tuples again. */
  function Loaded(j: Json): Option<Value> {
    if !j.JArray? then None
    else
      match LoadedAll(j.items)
      case None => None
      case Some(items) => Some(VTuple(items))
  }

  function LoadedAll(items: seq<Json>): (r: Option<seq<Value>>) {
    if items == [] then Some([])
    else
      var first :=
        match items[0]
        case JArray(_) => Loaded(items[0])
        case JNull => Some(VNone)
        case JBool(b) => Some(VBool(b))
        case JInt(n) => Some(VInt(n))
        case JFloat(f) => if f.Finite? then Some(VFloat(f)) else None
        case JText(s) => Some(VText(s))
        case JObject(_) => None;
      match (first, LoadedAll(items[1..]))
      case (Some(v), Some(rest)) => Some([v] + rest)
      case _ => None
  }

  function Get(fields: map<Field, Json>, key: Field): Json {
    if key in fields then fields[key] else JNull
  }

  function LoadedTexts(j: Json): Option<seq<string>> {
    if j.JArray? then AllTexts(j.items) else None
  }

  function TextIn(j: Json): Option<string> {
    if j.JText? then Some(j.s) else None
  }

  function AllTexts(items: seq<Json>): Option<seq<string>> {
    AllOf(items, TextIn)
  }

  predicate Counter(j: Json) {
    j.JInt? && j.n >= 0
  }

  function LoadedFacts(j: Json): Option<Facts> {
    if !j.JObject? || LastAction !in j.fields then None
    else
      var before := j.fields;
      var (stagnant, stalled, failure, epistemic) :=
        (Get(before, StagnantSteps), Get(before, StalledSteps), Get(before, FailureSteps), Get(before, EpistemicSteps));
      var (goal, last, current) := (Get(before, GoalKey), Get(before, LastFingerprint),
                                    Get(before, CurrentFingerprint));
      var key := Loaded(before[LastAction]);
      var (events, keys) := (LoadedTexts(Get(before, RecentEvents)), LoadedTexts(Get(before, LastEpistemicKeys)));
      if !Counter(stagnant) || !Counter(stalled) || !Counter(failure) || !Counter(epistemic)
         || !goal.JText? || !last.JText? || !current.JText?
         || (before[LastAction] != JNull && key.None?) || events.None? || keys.None?
      then None
      else Some(Facts(goal.s, if before[LastAction] == JNull then None else key, stagnant.n, stalled.n, failure.n,
                      last.s, current.s, events.value, epistemic.n, keys.value))
  }

  function LoadedStep(j: Json): (r: Option<Step>)
    ensures r.Some? ==> WellTyped(r.value)
  {
    if !j.JObject? then None
    else
      var (kind, success) := (Get(j.fields, KindKey), Get(j.fields, SuccessKey));
      var (fingerprint, neutral) := (Get(j.fields, FingerprintKey), Get(j.fields, NeutralKey));
      var key := Loaded(Get(j.fields, ActionKey));
      if (kind != JText("note") && kind != JText("observe")) || !fingerprint.JText? || !neutral.JBool?
         || (kind == JText("note") && !success.JBool?) || (kind == JText("observe") && success != JNull) || key.None?
      then None
      else Some(Step(if kind == JText("note") then Note else Observe, key.value, fingerprint.s,
                     if success.JBool? then Some(success.b) else None, neutral.b))
  }

  function LoadedSteps(items: seq<Json>): (r: Option<seq<Step>>)
    ensures r.Some? ==> forall s :: s in r.value ==> WellTyped(s)
  {
    AllOf(items, LoadedStep)
  }

  function LoadedReason(text: string): Option<StopReason> {
    if text == "unknown" then Some(Unknown)
    else if text == "no_progress" then Some(NoProgress)
    else if text == "epistemic_budget" then Some(EpistemicBudget)
    else if text == "body_transport" then Some(BodyTransport)
    else None
  }

  function LoadedReasons(texts: seq<string>): Option<seq<StopReason>> {
    AllOf(texts, LoadedReason)
  }

  function Lasting(reasons: seq<StopReason>): (r: seq<StopReason>)
    ensures forall x :: x in r <==> x in reasons && !x.Reviewable()
  {
    if reasons == [] then []
    else Lasting(reasons[..|reasons| - 1]) + if reasons[|reasons| - 1].Reviewable() then []
      else [reasons[|reasons| - 1]]
  }

  datatype Commit = Commit(before: Facts, apply: bool, steps: seq<Step>, reasonTexts: seq<string>)

  /** The inputs a record must hold, read back; None where the source refuses it. */
  datatype Inputs = Inputs(commit: Commit, novel: seq<string>, materialChanged: bool, reasons: seq<StopReason>)

  function LoadedCommit(fields: map<Field, Json>): (r: Option<Commit>)
    ensures r.Some? ==> forall s :: s in r.value.steps ==> WellTyped(s)
  {
    var (apply, rawSteps) := (Get(fields, ApplyKey), Get(fields, StepsKey));
    if Get(fields, Version) != JInt(1) || !apply.JBool? || !rawSteps.JArray? || (!apply.b && rawSteps.items != [])
    then None
    else
      var (facts, steps) := (LoadedFacts(Get(fields, AuthorityBefore)), LoadedSteps(rawSteps.items));
      var texts := LoadedTexts(Get(fields, PendingStopReasons));
      if facts.None? || steps.None? || texts.None? then None
      else Some(Commit(facts.value, apply.b, steps.value, texts.value))
  }

  function ReadBack(record: Record): (r: Option<Inputs>)
    ensures r.Some? ==> forall s :: s in r.value.commit.steps ==> WellTyped(s)
  {
    var commit := Get(record, CommitInput);
    Assembled(if commit.JObject? then LoadedCommit(commit.fields) else None,
              LoadedTexts(Get(record, NovelEpistemicKeys)),
              Get(record, MaterialChanged), Get(record, ProgressAborted), Get(record, ProgressStopReason))
  }

  function Assembled(commit: Option<Commit>, novel: Option<seq<string>>, material: Json, aborted: Json,
                     stop: Json): (r: Option<Inputs>)
    ensures r.Some? ==> commit.Some? && r.value.commit == commit.value
  {
    if commit.None? || novel.None? || !material.JBool? || !aborted.JBool? then None
    else
      var marked := if aborted.b then [if stop.JText? then stop.s else "None"] else [];
      var reasons := LoadedReasons(commit.value.reasonTexts + marked);
      if reasons.None? then None else Some(Inputs(commit.value, novel.value, material.b, reasons.value))
  }

  /** The facts and the stop a record restores. */
  function Replayed(record: Record): Option<(Facts, Option<StopReason>)> {
    match ReadBack(record)
    case None => None
    case Some(i) =>
      var c := i.commit;
      var facts := if c.apply then Committed(c.before, c.steps, i.novel, i.materialChanged) else c.before;
      Some((facts, Dominant(Lasting(i.reasons))))
  }

  method ReplaySteps(items: seq<Json>) returns (steps: Option<seq<Step>>)
    ensures steps == LoadedSteps(items)
  {
    var read: seq<Step> := [];
    for i := 0 to |items|
      invariant AllOf(items[..i], LoadedStep) == Some(read)
    {
      var step := LoadedStep(items[i]);
      if step.None? {
        return None;
      }
      AllOfAppend(items[..i], items[i], LoadedStep);
      assert items[..i] + [items[i]] == items[..i + 1];
      read := read + [step.value];
    }
    assert items[..|items|] == items;
    return Some(read);
  }

  method ReadCommit(fields: map<Field, Json>) returns (r: Option<Commit>)
    ensures r == LoadedCommit(fields)
  {
    var (apply, rawSteps) := (Get(fields, ApplyKey), Get(fields, StepsKey));
    if Get(fields, Version) != JInt(1) || !apply.JBool? {
      return None;
    }
    var facts := LoadedFacts(Get(fields, AuthorityBefore));
    if facts.None? || !rawSteps.JArray? || (!apply.b && rawSteps.items != []) {
      return None;
    }
    var steps := ReplaySteps(rawSteps.items);
    var texts := LoadedTexts(Get(fields, PendingStopReasons));
    if steps.None? || texts.None? {
      return None;
    }
    return Some(Commit(facts.value, apply.b, steps.value, texts.value));
  }

  method ReadInputs(record: Record) returns (r: Option<Inputs>)
    ensures r == ReadBack(record)
  {
    var field := Get(record, CommitInput);
    if !field.JObject? {
      return None;
    }
    var commit := ReadCommit(field.fields);
    r := Assembled(commit, LoadedTexts(Get(record, NovelEpistemicKeys)), Get(record, MaterialChanged),
                   Get(record, ProgressAborted), Get(record, ProgressStopReason));
  }

  /** Checks the record, then restores and commits on an authority of its own. */
  method ReplayEpoch(record: Record) returns (r: Option<(Facts, Option<StopReason>)>)
    ensures r == Replayed(record)
  {
    var inputs := ReadInputs(record);
    if inputs.None? {
      return None;
    }
    var i, c := inputs.value, inputs.value.commit;
    var authority := new Authority();
    authority.RestoreFacts(c.before);
    CommittedKeepsGoal(authority.FactsFor(""), c.steps, i.novel, i.materialChanged, c.before.goal);
    if c.apply {
      authority.CommitSteps(c.steps, i.novel, i.materialChanged);
    }
    r := Some((authority.FactsFor(c.before.goal), Dominant(Lasting(i.reasons))));
  }

  // -- which records are accepted, on their JSON ------------------------------------------------------

  /** An array of plain values, finite numbers and such arrays again. */
  predicate SoundKey(j: Json)
    decreases j, 1
  {
    j.JArray? && SoundItems(j.items)
  }

  predicate SoundItems(items: seq<Json>)
    decreases items, 0
  {
    items == [] || (SoundItem(items[0]) && SoundItems(items[1..]))
  }

  predicate SoundItem(j: Json)
    decreases j, 2
  {
    j.JNull? || j.JBool? || j.JInt? || j.JText? || (j.JFloat? && j.f.Finite?) || SoundKey(j)
  }

  /** A key is read exactly when it is such an array, and is then written the same. */
  lemma {:induction false} KeyReadIff(j: Json)
    ensures Loaded(j).Some? <==> SoundKey(j)
    ensures Loaded(j).Some? ==> Loaded(j).value.VTuple? && Dumped(Loaded(j).value) == j
    decreases j, 1
  {
    if j.JArray? {
      ItemsReadIff(j.items);
    }
  }

  lemma {:induction false} ItemsReadIff(items: seq<Json>)
    ensures LoadedAll(items).Some? <==> SoundItems(items)
    ensures LoadedAll(items).Some? ==> DumpedAll(LoadedAll(items).value) == items
    decreases items, 0
  {
    if items != [] {
      if items[0].JArray? {
        KeyReadIff(items[0]);
      }
      ItemsReadIff(items[1..]);
      assert items == [items[0]] + items[1..];
      assert SoundItems(items) <==> SoundItem(items[0]) && SoundItems(items[1..]);
      assert LoadedAll([items[0]]).Some? <==> SoundItem(items[0]);
      if LoadedAll(items).Some? {
        assert LoadedAll(items).value[1..] == LoadedAll(items[1..]).value;
      }
    }
  }

  predicate IsTextList(j: Json) {
    j.JArray? && forall i :: 0 <= i < |j.items| ==> j.items[i].JText?
  }

  lemma TextsReadIff(j: Json)
    ensures LoadedTexts(j).Some? <==> IsTextList(j)
    ensures LoadedTexts(j).Some? ==> JArray(Texts(LoadedTexts(j).value)) == j
  {
    if IsTextList(j) {
      assert Texts(AllTexts(j.items).value) == j.items;
    } else if j.JArray? {
      var i :| 0 <= i < |j.items| && !j.items[i].JText?;
      assert TextIn(j.items[i]).None?;
    }
  }

  predicate IsCount(j: Json) {
    match j
    case JInt(n) => n >= 0
    case _ => false
  }

  predicate SoundFacts(fields: map<Field, Json>) {
    && LastAction in fields && (fields[LastAction] == JNull || SoundKey(fields[LastAction]))
    && IsCount(Get(fields, StagnantSteps)) && IsCount(Get(fields, StalledSteps))
    && IsCount(Get(fields, FailureSteps)) && IsCount(Get(fields, EpistemicSteps))
    && Get(fields, GoalKey).JText? && Get(fields, LastFingerprint).JText? && Get(fields, CurrentFingerprint).JText?
    && IsTextList(Get(fields, RecentEvents)) && IsTextList(Get(fields, LastEpistemicKeys))
  }

  /** The facts are what the fields say. */
  predicate SaysFacts(fields: map<Field, Json>, f: Facts) {
    && LastAction in fields
    && fields[LastAction] == (if f.lastAction.None? then JNull else Dumped(f.lastAction.value))
    && Get(fields, StagnantSteps) == JInt(f.stagnantSteps) && Get(fields, StalledSteps) == JInt(f.stalledSteps)
    && Get(fields, FailureSteps) == JInt(f.failureSteps) && Get(fields, EpistemicSteps) == JInt(f.epistemicSteps)
    && Get(fields, GoalKey) == JText(f.goal) && Get(fields, LastFingerprint) == JText(f.lastFingerprint)
    && Get(fields, CurrentFingerprint) == JText(f.currentFingerprint)
    && Get(fields, RecentEvents) == JArray(Texts(f.recentEvents))
    && Get(fields, LastEpistemicKeys) == JArray(Texts(f.lastEpistemicKeys))
  }

  /** A baseline is accepted exactly when it has a last action, null or a sound key, four
      counts, three texts and two lists of texts; it is then what they say. */
  lemma FactsReadIff(j: Json)
    ensures LoadedFacts(j).Some? <==> j.JObject? && SoundFacts(j.fields)
    ensures LoadedFacts(j).Some? ==> SaysFacts(j.fields, LoadedFacts(j).value)
  {
    if j.JObject? && LastAction in j.fields {
      KeyReadIff(j.fields[LastAction]);
      TextsReadIff(Get(j.fields, RecentEvents));
      TextsReadIff(Get(j.fields, LastEpistemicKeys));
    }
  }

  predicate SoundStep(fields: map<Field, Json>) {
    && SoundKey(Get(fields, ActionKey)) && Get(fields, FingerprintKey).JText? && Get(fields, NeutralKey).JBool?
    && ((Get(fields, KindKey) == JText("note") && Get(fields, SuccessKey).JBool?)
        || (Get(fields, KindKey) == JText("observe") && Get(fields, SuccessKey).JNull?))
  }

  /** A step is accepted exactly when it is a note with a verdict or an observation
      without one, with a sound key, a mark and a neutrality. */
  lemma StepReadIff(j: Json)
    ensures LoadedStep(j).Some? <==> j.JObject? && SoundStep(j.fields)
    ensures LoadedStep(j).Some? ==>
              var s := LoadedStep(j).value;
              && Get(j.fields, KindKey) == JText(if s.kind == Note then "note" else "observe")
              && Get(j.fields, ActionKey) == Dumped(s.actionKey)
              && Get(j.fields, FingerprintKey) == JText(s.fingerprint)
              && Get(j.fields, SuccessKey) == (if s.success.None? then JNull else JBool(s.success.value))
              && Get(j.fields, NeutralKey) == JBool(s.neutral)
  {
    if j.JObject? {
      KeyReadIff(Get(j.fields, ActionKey));
    }
  }

  predicate SoundSteps(j: Json) {
    j.JArray? && forall i :: 0 <= i < |j.items| ==> j.items[i].JObject? && SoundStep(j.items[i].fields)
  }

  predicate SoundCommit(fields: map<Field, Json>) {
    && Get(fields, Version) == JInt(1) && Get(fields, ApplyKey).JBool?
    && Get(fields, AuthorityBefore).JObject? && SoundFacts(Get(fields, AuthorityBefore).fields)
    && SoundSteps(Get(fields, StepsKey))
    && (Get(fields, ApplyKey) == JBool(false) ==> Get(fields, StepsKey) == JArray([]))
    && IsTextList(Get(fields, PendingStopReasons))
  }

  lemma StepsReadIff(items: seq<Json>)
    ensures LoadedSteps(items).Some? <==> SoundSteps(JArray(items))
  {
    forall i | 0 <= i < |items|
      ensures LoadedStep(items[i]).Some? <==> items[i].JObject? && SoundStep(items[i].fields)
    {
      StepReadIff(items[i]);
    }
  }

  lemma CommitReadIff(fields: map<Field, Json>)
    ensures LoadedCommit(fields).Some? <==> SoundCommit(fields)
    ensures LoadedCommit(fields).Some? ==>
              var c := LoadedCommit(fields).value;
              && Get(fields, ApplyKey) == JBool(c.apply) && LoadedFacts(Get(fields, AuthorityBefore)) == Some(c.before)
              && LoadedSteps(Get(fields, StepsKey).items) == Some(c.steps)
              && LoadedTexts(Get(fields, PendingStopReasons)) == Some(c.reasonTexts)
  {
    FactsReadIff(Get(fields, AuthorityBefore));
    if Get(fields, StepsKey).JArray? {
      StepsReadIff(Get(fields, StepsKey).items);
    }
    TextsReadIff(Get(fields, PendingStopReasons));
  }

  predicate IsReason(text: string) {
    text in {"unknown", "no_progress", "epistemic_budget", "body_transport"}
  }

  predicate AreReasons(items: seq<Json>) {
    forall i :: 0 <= i < |items| ==> items[i].JText? && IsReason(items[i].s)
  }

  /** What the parts of a record outside its commit must be. */
  predicate SoundOutcome(record: Record) {
    && IsTextList(Get(record, NovelEpistemicKeys)) && Get(record, MaterialChanged).JBool?
    && Get(record, ProgressAborted).JBool?
    && (Get(record, ProgressAborted) == JBool(true) ==>
          Get(record, ProgressStopReason).JText? && IsReason(Get(record, ProgressStopReason).s))
  }

  lemma ReasonsReadIff(texts: seq<string>)
    ensures LoadedReasons(texts).Some? <==> forall i :: 0 <= i < |texts| ==> IsReason(texts[i])
  {
    assert forall i :: 0 <= i < |texts| ==> (LoadedReason(texts[i]).Some? <==> IsReason(texts[i]));
  }

  /** A record is replayed exactly when its commit, its outcome and all its stops are sound;
      every other one is refused. */
  lemma RecordReadIff(record: Record)
    ensures Replayed(record).Some?
            <==> && Get(record, CommitInput).JObject? && SoundCommit(Get(record, CommitInput).fields)
                 && SoundOutcome(record)
                 && AreReasons(Get(Get(record, CommitInput).fields, PendingStopReasons).items)
  {
    var commit := Get(record, CommitInput);
    TextsReadIff(Get(record, NovelEpistemicKeys));
    if commit.JObject? {
      CommitReadIff(commit.fields);
      var c := LoadedCommit(commit.fields);
      if c.Some? {
        var texts := c.value.reasonTexts;
        TextsReadIff(Get(commit.fields, PendingStopReasons));
        assert Texts(texts) == Get(commit.fields, PendingStopReasons).items;
        if Get(record, ProgressAborted).JBool? {
          StopsReadIff(texts, Get(record, ProgressAborted), Get(record, ProgressStopReason));
        }
        assert AreReasons(Texts(texts)) <==> forall i :: 0 <= i < |texts| ==> IsReason(texts[i]) by {
          assert forall i :: 0 <= i < |texts| ==> Texts(texts)[i] == JText(texts[i]);
        }
      }
    }
  }

  lemma StopsReadIff(texts: seq<string>, aborted: Json, stop: Json)
    requires aborted.JBool?
    ensures var marked := if aborted.b then [if stop.JText? then stop.s else "None"] else [];
            LoadedReasons(texts + marked).Some?
            <==> (forall i :: 0 <= i < |texts| ==> IsReason(texts[i]))
                 && (aborted.b ==> stop.JText? && IsReason(stop.s))
  {
    var marked := if aborted.b then [if stop.JText? then stop.s else "None"] else [];
    ReasonsReadIff(texts + marked);
    assert forall i :: 0 <= i < |texts| ==> (texts + marked)[i] == texts[i];
    assert aborted.b ==> (texts + marked)[|texts|] == marked[0];
  }

  // -- round trips ---------------------------------------------------------------------------------

  /** What comes back of a key that comes back: every list in it has become a tuple. */
  function Tupled(v: Value): Value {
    match v
    case VTuple(items) => VTuple(TupledAll(items))
    case VList(items) => VTuple(TupledAll(items))
    case _ => v
  }

  function TupledAll(items: seq<Value>): (r: seq<Value>)
    ensures |r| == |items|
  {
    if items == [] then [] else [Tupled(items[0])] + TupledAll(items[1..])
  }

  /** A tuple or list of plain values, finite numbers and such tuples and lists again. */
  predicate Readable(v: Value)
    decreases v, 1
  {
    (v.VTuple? || v.VList?) && AllReadable(v.items)
  }

  predicate AllReadable(items: seq<Value>)
    decreases items, 0
  {
    items == [] || (ReadableItem(items[0]) && AllReadable(items[1..]))
  }

  predicate ReadableItem(v: Value)
    decreases v, 2
  {
    match v
    case VTuple(_) => Readable(v)
    case VList(_) => Readable(v)
    case VFloat(f) => f.Finite?
    case VDict => false
    case _ => true
  }

  predicate Listless(v: Value) {
    match v
    case VTuple(items) => AllListless(items)
    case VList(_) => false
    case _ => true
  }

  predicate AllListless(items: seq<Value>) {
    items == [] || (Listless(items[0]) && AllListless(items[1..]))
  }

  lemma {:induction false} TupledIff(v: Value)
    ensures Tupled(v) == v <==> Listless(v)
    decreases v, 1
  {
    if v.VTuple? {
      TupledAllIff(v.items);
    }
  }

  lemma {:induction false} TupledAllIff(items: seq<Value>)
    ensures TupledAll(items) == items <==> AllListless(items)
    decreases items, 0
  {
    if items != [] {
      TupledIff(items[0]);
      TupledAllIff(items[1..]);
      assert items == [items[0]] + items[1..];
      assert TupledAll(items)[1..] == TupledAll(items[1..]);
    }
  }

  /** A key of any depth has one of three fates: it comes back unchanged, it comes back
      with its lists turned into tuples, or it is refused. */
  lemma {:induction false} KeyRoundTrip(v: Value)
    ensures Loaded(Dumped(v)) == if Readable(v) then Some(Tupled(v)) else None
    ensures Tupled(v) == v <==> Listless(v)
    decreases v, 1
  {
    TupledIff(v);
    if v.VTuple? || v.VList? {
      KeysRoundTrip(v.items);
    }
  }

  lemma {:induction false} KeysRoundTrip(items: seq<Value>)
    ensures LoadedAll(DumpedAll(items)) == if AllReadable(items) then Some(TupledAll(items)) else None
    decreases items, 0
  {
    if items != [] {
      if items[0].VTuple? || items[0].VList? {
        KeyRoundTrip(items[0]);
      }
      KeysRoundTrip(items[1..]);
      assert DumpedAll(items)[1..] == DumpedAll(items[1..]);
    }
  }

  lemma TextsRoundTrip(texts: seq<string>)
    ensures AllTexts(Texts(texts)) == Some(texts)
  {
    MappedBack(texts, TextJson, TextIn);
  }

  /** The action the facts remember, if any, is a tuple; its type says so. */
  predicate TupleAction(f: Facts) {
    f.lastAction.Some? ==> f.lastAction.value.VTuple?
  }

  predicate ReadableFacts(f: Facts) {
    f.lastAction.Some? ==> Readable(f.lastAction.value)
  }

  function TupledFacts(f: Facts): Facts {
    f.(lastAction := if f.lastAction.Some? then Some(Tupled(f.lastAction.value)) else None)
  }

  predicate ReadableStep(s: Step) {
    Readable(s.actionKey) && (s.kind == Note <==> s.success.Some?)
  }

  function TupledStep(s: Step): Step {
    s.(actionKey := Tupled(s.actionKey))
  }

  lemma FactsFields(f: Facts)
    ensures var d := DumpedFacts(f).fields;
            && LastAction in d && d[LastAction] == (if f.lastAction.None? then JNull else Dumped(f.lastAction.value))
            && Get(d, StagnantSteps) == JInt(f.stagnantSteps) && Get(d, StalledSteps) == JInt(f.stalledSteps)
            && Get(d, FailureSteps) == JInt(f.failureSteps) && Get(d, EpistemicSteps) == JInt(f.epistemicSteps)
            && Get(d, GoalKey) == JText(f.goal) && Get(d, LastFingerprint) == JText(f.lastFingerprint)
            && Get(d, CurrentFingerprint) == JText(f.currentFingerprint)
            && Get(d, RecentEvents) == JArray(Texts(f.recentEvents))
            && Get(d, LastEpistemicKeys) == JArray(Texts(f.lastEpistemicKeys))
  {
  }

  lemma FactsRoundTrip(f: Facts)
    requires TupleAction(f)
    ensures LoadedFacts(DumpedFacts(f)) == if ReadableFacts(f) then Some(TupledFacts(f)) else None
  {
    FactsFields(f);
    TextsRoundTrip(f.recentEvents);
    TextsRoundTrip(f.lastEpistemicKeys);
    if f.lastAction.Some? {
      KeyRoundTrip(f.lastAction.value);
    }
  }

  lemma StepRoundTrip(s: Step)
    ensures LoadedStep(DumpedStep(s)) == if ReadableStep(s) then Some(TupledStep(s)) else None
  {
    KeyRoundTrip(s.actionKey);
  }

  predicate AllStepsReadable(steps: seq<Step>) {
    forall i :: 0 <= i < |steps| ==> ReadableStep(steps[i])
  }

  lemma StepsRoundTrip(steps: seq<Step>)
    ensures LoadedSteps(DumpedSteps(steps)) == if AllStepsReadable(steps) then Some(Mapped(steps, TupledStep)) else None
  {
    var items := DumpedSteps(steps);
    forall i | 0 <= i < |steps|
      ensures LoadedStep(items[i]) == if ReadableStep(steps[i]) then Some(TupledStep(steps[i])) else None
    {
      StepRoundTrip(steps[i]);
    }
    if AllStepsReadable(steps) {
      assert AllOf(items, LoadedStep).value == Mapped(steps, TupledStep);
    }
  }

  lemma ReasonRoundTrip(reason: StopReason)
    ensures LoadedReason(ReasonText(reason)) == Some(reason)
  {
  }

  lemma ReasonsRoundTrip(reasons: seq<StopReason>)
    ensures LoadedReasons(ReasonTexts(reasons)) == Some(reasons)
  {
    forall i | 0 <= i < |reasons| ensures LoadedReason(ReasonText(reasons[i])) == Some(reasons[i]) {
      ReasonRoundTrip(reasons[i]);
    }
    MappedBack(reasons, ReasonText, LoadedReason);
  }

  // -- crash equivalence ------------------------------------------------------------------------------

  predicate TypedSteps(steps: seq<Step>) {
    forall s :: s in steps ==> WellTyped(s)
  }

  /** The authority facts the live run holds once it has committed the epoch. */
  function LiveFacts(e: Epoch): Facts
    requires TypedSteps(e.steps)
  {
    if e.apply then Committed(e.before, e.steps, e.novel, e.materialChanged) else e.before
  }

  /** What is left of these stops after a restart: the dominant one, unless it is one
      that restoring never brings back. */
  function LastingStop(reasons: seq<StopReason>): Option<StopReason> {
    var stop := Dominant(reasons);
    if stop.None? || stop.value.Reviewable() then None else stop
  }

  /** The stop the live run raises, as far as it lasts. */
  function LiveStop(e: Epoch): Option<StopReason> {
    LastingStop(e.pending)
  }

  /** Every key in the epoch can be read back, and bookkeeping commits nothing. */
  predicate ReadableEpoch(e: Epoch) {
    ReadableFacts(e.before) && AllStepsReadable(e.steps) && (!e.apply ==> e.steps == [])
  }

  /** The epoch as storage gives it back. */
  function TupledEpoch(e: Epoch): Epoch {
    e.(before := TupledFacts(e.before), steps := Mapped(e.steps, TupledStep))
  }

  lemma TupledStaysTyped(e: Epoch)
    requires ReadableEpoch(e)
    ensures TypedSteps(e.steps) && TypedSteps(TupledEpoch(e).steps)
  {
    assert forall s :: s in e.steps ==> exists i :: 0 <= i < |e.steps| && e.steps[i] == s;
  }

  lemma LastingDominates(reasons: seq<StopReason>)
    ensures Dominant(Lasting(reasons)) == LastingStop(reasons)
  {
    var best, lasting := Dominant(reasons), Lasting(reasons);
    var kept := Dominant(lasting);
    assert kept.Some? ==> kept.value in reasons;
    if best.Some? && !best.value.Reviewable() {
      assert best.value in lasting;
      PrioritiesTellApart(best.value, kept.value);
    }
  }

  /** What is brought back after a restart: a lost transport before "unknown", either only
      when it was raised, and never any other stop. */
  lemma LastingStopIs(reasons: seq<StopReason>)
    ensures LastingStop(reasons)
            == if BodyTransport in reasons then Some(BodyTransport)
               else if Unknown in reasons then Some(Unknown) else None
  {
    assert BodyTransport.Priority() > Unknown.Priority() > EpistemicBudget.Priority() > NoProgress.Priority();
  }

  lemma PrioritiesTellApart(a: StopReason, b: StopReason)
    ensures a.Priority() == b.Priority() <==> a == b
  {
  }

  lemma CommitFields(e: Epoch)
    ensures var d := DumpedCommit(e);
            && Get(d, Version) == JInt(1) && Get(d, ApplyKey) == JBool(e.apply)
            && Get(d, AuthorityBefore) == DumpedFacts(e.before)
            && Get(d, StepsKey) == JArray(DumpedSteps(e.steps))
            && Get(d, PendingStopReasons) == JArray(Texts(ReasonTexts(e.pending)))
  {
  }

  lemma CommitRoundTrip(e: Epoch)
    requires TupleAction(e.before)
    ensures LoadedCommit(DumpedCommit(e))
            == if ReadableEpoch(e)
               then Some(Commit(TupledFacts(e.before), e.apply, Mapped(e.steps, TupledStep), ReasonTexts(e.pending)))
               else None
  {
    CommitFields(e);
    FactsRoundTrip(e.before);
    StepsRoundTrip(e.steps);
    TextsRoundTrip(ReasonTexts(e.pending));
    assert LoadedTexts(JArray(Texts(ReasonTexts(e.pending)))) == Some(ReasonTexts(e.pending));
    assert DumpedSteps(e.steps) == [] <==> e.steps == [];
  }

  /** The fields of a stored and of a marked record. */
  lemma StoredFields(e: Epoch, reason: StopReason)
    ensures ReadBack(Stored(e)) == Assembled(LoadedCommit(DumpedCommit(e)), AllTexts(Texts(e.novel)),
                                             JBool(e.materialChanged), JBool(false), JNull)
    ensures ReadBack(Marked(Stored(e), reason)) == Assembled(LoadedCommit(DumpedCommit(e)), AllTexts(Texts(e.novel)),
                                                             JBool(e.materialChanged), JBool(true),
                                                               JText(ReasonText(reason)))
  {
  }

  lemma ReasonsAgain(reasons: seq<StopReason>, reason: StopReason)
    ensures LoadedReasons(ReasonTexts(reasons) + []) == Some(reasons)
    ensures LoadedReasons(ReasonTexts(reasons) + [ReasonText(reason)]) == Some(reasons + [reason])
  {
    ReasonsRoundTrip(reasons);
    assert ReasonTexts(reasons) + [] == ReasonTexts(reasons);
    ReasonsRoundTrip(reasons + [reason]);
    MappedAppend(reasons, reason, ReasonText);
  }

  /** What a stored epoch reads back as, unmarked and marked. */
  lemma ReadBackStored(e: Epoch, reason: StopReason)
    requires TupleAction(e.before)
    ensures var c := Commit(TupledFacts(e.before), e.apply, Mapped(e.steps, TupledStep), ReasonTexts(e.pending));
            && ReadBack(Stored(e))
               == (if ReadableEpoch(e) then Some(Inputs(c, e.novel, e.materialChanged, e.pending)) else None)
            && ReadBack(Marked(Stored(e), reason))
               == (if ReadableEpoch(e) then Some(Inputs(c, e.novel, e.materialChanged, e.pending + [reason])) else None)
  {
    CommitRoundTrip(e);
    TextsRoundTrip(e.novel);
    StoredFields(e, reason);
    ReasonsAgain(e.pending, reason);
  }

  lemma DominantAgain(reasons: seq<StopReason>, reason: StopReason)
    requires Dominant(reasons) == Some(reason)
    ensures Dominant(reasons + [reason]) == Some(reason)
  {
    assert (reasons + [reason])[..|reasons|] == reasons;
  }

  /** What replaying the record of any epoch gives, unmarked or marked: nothing when a
      key in it cannot be read, else the facts and the stop of the live run on the keys
      as storage gives them back. */
  lemma ReplayOf(e: Epoch, reason: StopReason)
    requires TupleAction(e.before)
    ensures ReadableEpoch(e) ==> TypedSteps(TupledEpoch(e).steps)
    ensures Replayed(Stored(e)) == if ReadableEpoch(e) then Some((LiveFacts(TupledEpoch(e)), LiveStop(e))) else None
    ensures Replayed(Marked(Stored(e), reason))
            == if ReadableEpoch(e) then Some((LiveFacts(TupledEpoch(e)), LastingStop(e.pending + [reason]))) else None
  {
    ReadBackStored(e, reason);
    LastingDominates(e.pending);
    LastingDominates(e.pending + [reason]);
    if ReadableEpoch(e) {
      TupledStaysTyped(e);
    }
  }

  lemma ListlessSteps(steps: seq<Step>)
    requires forall i :: 0 <= i < |steps| ==> Listless(steps[i].actionKey)
    ensures Mapped(steps, TupledStep) == steps
  {
    forall i | 0 <= i < |steps| ensures TupledStep(steps[i]) == steps[i] {
      TupledIff(steps[i].actionKey);
    }
  }

  predicate ListlessEpoch(e: Epoch) {
    && (e.before.lastAction.Some? ==> Listless(e.before.lastAction.value))
    && (forall i :: 0 <= i < |e.steps| ==> Listless(e.steps[i].actionKey))
  }

  lemma ListlessComesBack(e: Epoch)
    requires ListlessEpoch(e)
    ensures TupledEpoch(e) == e
  {
    ListlessSteps(e.steps);
    if e.before.lastAction.Some? {
      TupledIff(e.before.lastAction.value);
    }
  }

  /** Marking the record with the epoch's own stop does not change what it replays to. */
  lemma MarkingChangesNothing(e: Epoch)
    requires TupleAction(e.before) && Dominant(e.pending).Some?
    ensures Replayed(Marked(Stored(e), Dominant(e.pending).value)) == Replayed(Stored(e))
  {
    ReplayOf(e, Dominant(e.pending).value);
    DominantAgain(e.pending, Dominant(e.pending).value);
  }

  /** Crash equivalence.  Wherever the program stops after an epoch was stored --
      before its commit, after it, before or after the stop was marked -- the record
      replays if and only if every key in it can be read; and without lists in the keys
      it gives the facts the live commit reaches and the stop it raises. */
  lemma CrashEquivalence(e: Epoch)
    requires TupleAction(e.before)
    ensures Replayed(Stored(e)).Some? <==> ReadableEpoch(e)
    ensures ReadableEpoch(e) ==> TypedSteps(e.steps)
    ensures ReadableEpoch(e) && ListlessEpoch(e) ==> Replayed(Stored(e)) == Some((LiveFacts(e), LiveStop(e)))
    ensures Dominant(e.pending).Some? ==> Replayed(Marked(Stored(e), Dominant(e.pending).value)) == Replayed(Stored(e))
  {
    ReplayOf(e, Unknown);
    if ReadableEpoch(e) {
      TupledStaysTyped(e);
    }
    if ListlessEpoch(e) {
      ListlessComesBack(e);
    }
    if Dominant(e.pending).Some? {
      MarkingChangesNothing(e);
    }
  }

  /** A record replays or not whatever stop it is marked with. */
  lemma MarkedReplaysIff(e: Epoch, reason: StopReason)
    requires TupleAction(e.before)
    ensures Replayed(Marked(Stored(e), reason)).Some? <==> ReadableEpoch(e)
  {
    ReplayOf(e, reason);
  }

  // -- when lists do matter ---------------------------------------------------------------------------

  /** Whether the step moves the remembered action. */
  predicate Remembers(s: Step) {
    !(s.kind == Note && s.neutral)
  }

  /** The step counts stagnation by comparing its key with the remembered action. */
  predicate Compares(f: Facts, s: Step) {
    && (s.kind == Observe || (!s.neutral && s.success == Some(false)))
    && f.lastFingerprint != "" && s.fingerprint == f.lastFingerprint
  }

  /** The remembered action becomes the step's key by losing its lists. */
  predicate Confused(f: Facts, s: Step) {
    && Compares(f, s) && f.lastAction.Some?
    && f.lastAction.value != s.actionKey && Tupled(f.lastAction.value) == s.actionKey
  }

  /** New evidence without material change starts the count afresh. */
  predicate StartsAfresh(e: Epoch) {
    !e.materialChanged && Distinct(e.novel) != []
  }

  /** Storage leaves the outcome alone: the action remembered afterwards holds no list,
      and no count of stagnation that lasts rests on a list having become a tuple. */
  predicate KeepsKeys(e: Epoch) {
    if e.steps == [] || !Remembers(e.steps[0]) then e.before.lastAction.Some? ==> Listless(e.before.lastAction.value)
    else Listless(e.steps[0].actionKey) && (Confused(e.before, e.steps[0]) ==> StartsAfresh(e))
  }

  lemma OneStep(f: Facts, s: Step)
    requires WellTyped(s)
    ensures TakenAll(f, [s]) == Taken(f, s)
  {
    assert [s][..0] == [];
  }

  /** One step taken on the keys as they are and as storage gives them back. */
  lemma TakenOnTupled(f: Facts, s: Step)
    requires WellTyped(s)
    ensures var (live, back) := (Taken(f, s), Taken(TupledFacts(f), TupledStep(s)));
            && back == live.(lastAction := back.lastAction, stagnantSteps := back.stagnantSteps)
            && live.lastAction == (if Remembers(s) then Some(s.actionKey) else f.lastAction)
            && back.lastAction == (if Remembers(s) then Some(Tupled(s.actionKey)) else TupledFacts(f).lastAction)
            && (Listless(s.actionKey) ==> (back.stagnantSteps == live.stagnantSteps <==> !Confused(f, s)))
            && (!Remembers(s) ==> back.stagnantSteps == live.stagnantSteps)
  {
    TupledIff(s.actionKey);
  }

  /** Crediting is the same on both sides but for a count it starts afresh. */
  lemma CreditedAlike(live: Facts, back: Facts, novel: seq<string>, materialChanged: bool)
    requires back == live.(lastAction := back.lastAction, stagnantSteps := back.stagnantSteps)
    ensures Credited(back, novel, materialChanged) == Credited(live, novel, materialChanged)
            <==> && back.lastAction == live.lastAction
                 && (back.stagnantSteps == live.stagnantSteps || (!materialChanged && Distinct(novel) != []))
  {
  }

  lemma OutcomeKeptIff(e: Epoch)
    requires TypedSteps(e.steps) && |e.steps| <= 1 && (!e.apply ==> e.steps == []) && TypedSteps(TupledEpoch(e).steps)
    ensures LiveFacts(TupledEpoch(e)) == LiveFacts(e) <==> KeepsKeys(e)
  {
    var (live, back) := (TakenAll(e.before, e.steps), TakenAll(TupledFacts(e.before), TupledEpoch(e).steps));
    if e.before.lastAction.Some? {
      TupledIff(e.before.lastAction.value);
    }
    if e.steps != [] {
      var s := e.steps[0];
      assert s in e.steps && e.steps == [s] && TupledEpoch(e).steps == [TupledStep(s)];
      TupledIff(s.actionKey);
      OneStep(e.before, s);
      OneStep(TupledFacts(e.before), TupledStep(s));
      TakenOnTupled(e.before, s);
    }
    CreditedAlike(live, back, e.novel, e.materialChanged);
  }

  /** An epoch of at most one step, as every stored one is, replays to exactly the live
      outcome if and only if its keys can be read and storage leaves the outcome alone. */
  lemma ExactReplayIff(e: Epoch)
    requires TupleAction(e.before) && TypedSteps(e.steps) && |e.steps| <= 1
    ensures Replayed(Stored(e)) == Some((LiveFacts(e), LiveStop(e))) <==> ReadableEpoch(e) && KeepsKeys(e)
  {
    ReplayOf(e, Unknown);
    if ReadableEpoch(e) {
      OutcomeKeptIff(e);
    }
  }

  lemma {:induction false} DictIsUnreadable(items: seq<Value>, i: nat)
    requires i < |items| && items[i] == VDict
    ensures !AllReadable(items)
  {
    if i > 0 {
      DictIsUnreadable(items[1..], i - 1);
    }
  }

  /** The key the server navigator notes for a finished segment: it holds its goal as a
      dictionary. */
  function NavigationKey(start: Value, reason: string, anchor: Value): Value {
    VTuple([VText("navigate.segment"), start, VDict, VText(reason), anchor])
  }

  lemma NavigationKeyIsUnreadable(start: Value, reason: string, anchor: Value)
    ensures !ReadableItem(NavigationKey(start, reason, anchor))
  {
    DictIsUnreadable(NavigationKey(start, reason, anchor).items, 2);
  }

  /** An ordinary step that no stored epoch survives: the live run commits it, and the
      record is refused. */
  lemma NavigationStepIsRefused(e: Epoch, s: Step, start: Value, reason: string, anchor: Value)
    requires TupleAction(e.before) && s in e.steps && s.actionKey == NavigationKey(start, reason, anchor)
    ensures Replayed(Stored(e)).None?
  {
    NavigationKeyIsUnreadable(start, reason, anchor);
    var i :| 0 <= i < |e.steps| && e.steps[i] == s;
    assert !ReadableStep(e.steps[i]);
    CrashEquivalence(e);
  }

  /** A list comes back as a tuple, which no longer equals it. */
  lemma ListComesBackAsTuple(text: string)
    ensures var key := VTuple([VText(text), VList([])]);
            Loaded(Dumped(key)) == Some(VTuple([VText(text), VTuple([])])) && Tupled(key) != key
  {
    var items := [VText(text), VList([])];
    KeyRoundTrip(VTuple(items));
    assert items[1..] == [VList([])] && items[1..][1..] == [];
    assert ReadableItem(VList([]));
    assert AllReadable(items[1..]) && AllReadable(items);
    assert TupledAll(items[1..]) == [VTuple([])];
    assert TupledAll(items) == [VText(text), VTuple([])];
  }
}
