/** The versioned store of the life profile (`LifeStore`): writers name the revision
    they read, and a write is whole or nothing. */
module LifeStore {
  import opened LifeProfile
  import opened Options

  datatype Reason =
    | UnknownFields
    | NoChanges
    | RevisionConflict
    | BadShape
    | BadOperation
    | BadProjectId
    | NoSuchProject
    | TooManyProjects
    | WriteRefused
    | NoReasonGiven
    | TooLong

  datatype Outcome = Accepted(record: Record) | Rejected(reason: Reason)

  const EMPTY_RECORD := Record(0, NO_PROFILE, [])

  const PROFILE_FIELDS := {HomeKey, MineKey, RoutineKey, RelationshipsKey, PersonalityKey}

  // -- commit -----------------------------------------------------------------------------------

  function LastOf<T>(items: seq<T>, n: nat): seq<T> {
    if |items| <= n then items else items[|items| - n..]
  }

  function Shortened(s: string, n: nat): string {
    if |s| <= n then s else s[..n]
  }

  function Committed(env: Env, record: Record, profile: Profile, reason: string, author: string): Outcome {
    if Strip(reason) == "" then Rejected(NoReasonGiven)
    else
      var change := Change(record.revision + 1, author, Shortened(Strip(reason), MAX_TEXT_CHARS));
      var next := Record(record.revision + 1, profile, LastOf(record.changes + [change], KEPT_CHANGES));
      if env.size(next) > MAX_PROFILE_CHARS then Rejected(TooLong) else Accepted(next)
  }

  // -- updating fields -----------------------------------------------------------------------------

  /** A null change removes its field, which then reads the same. */
  function Updated(env: Env, record: Record, changes: Fields, expected: int, reason: string, author: string): Outcome {
    if exists key :: key in changes && key !in PROFILE_FIELDS then Rejected(UnknownFields)
    else if changes == map[] then Rejected(NoChanges)
    else if expected != record.revision then Rejected(RevisionConflict)
    else
      match NormalProfile(env, Shown(record.profile) + changes)
      case Some(profile) => Committed(env, record, profile, reason, author)
      case None => Rejected(BadShape)
  }

  // -- updating a project -----------------------------------------------------------------------------

  datatype Operation = Upsert | Remove | OtherOperation

  function Projects(p: Profile): seq<Project> {
    if p.projects.Some? then p.projects.value else []
  }

  function Others(projects: seq<Project>, id: string): (r: seq<Project>)
    ensures |r| <= |projects|
    ensures forall p :: p in r <==> p in projects && p.id != id
  {
    if projects == [] then []
    else
      var last := projects[|projects| - 1];
      Others(projects[..|projects| - 1], id) + if last.id == id then [] else [last]
  }

  /** The place of the first project with this id. */
  function PlaceOf(projects: seq<Project>, id: string): (r: Option<nat>)
    ensures r.Some? ==> r.value < |projects| && projects[r.value].id == id
    ensures forall i :: 0 <= i < |projects| && (r.None? || i < r.value) ==> projects[i].id != id
  {
    if projects == [] then None
    else
      var front := PlaceOf(projects[..|projects| - 1], id);
      if front.Some? then front
      else if projects[|projects| - 1].id == id then Some(|projects| - 1) else None
  }

  /** Fields given replace those of the project as it stands; null ones do not. */
  function Merged(previous: Fields, given: Fields): Fields {
    previous + (map key | key in given && given[key] != JNull :: given[key])
  }

  function Inserted(projects: seq<Project>, place: nat, p: Project): seq<Project> {
    if place <= |projects| then projects[..place] + [p] + projects[place..] else projects + [p]
  }

  function PlaceFor(projects: seq<Project>, id: string): nat {
    var place := PlaceOf(projects, id);
    if place.Some? then place.value else |Others(projects, id)|
  }

  function Placed(projects: seq<Project>, p: Project): seq<Project> {
    Inserted(Others(projects, p.id), PlaceFor(projects, p.id), p)
  }

  function Previous(projects: seq<Project>, id: string): Fields {
    var place := PlaceOf(projects, id);
    if place.Some? then ShownProject(projects[place.value]) else map[]
  }

  /** The project list after the operation, or why there is none. */
  datatype Edited = Edited(projects: seq<Project>) | Refused(reason: Reason)

  function Edit(env: Env, profile: Profile, operation: Operation, id: string, given: Fields): Edited {
    var projects := Projects(profile);
    if operation == Upsert then
      match NormalProject(env, Merged(Previous(projects, id), given), NamesOf(profile.mine))
      case None => Refused(BadShape)
      case Some(checked) => if env.mayWrite(checked, profile) then Edited(Placed(projects, checked))
        else Refused(WriteRefused)
    else if |Others(projects, id)| == |projects| then Refused(NoSuchProject)
    else Edited(Others(projects, id))
  }

  function WithProjects(profile: Profile, projects: seq<Project>): Profile {
    profile.(projects := if projects == [] then None else Some(projects))
  }

  function ProjectUpdated(env: Env, record: Record, operation: Operation, given: Fields, expected: int, reason: string,
                          author: string): Outcome
  {
    var id := StrOr(env, Get(given, IdKey), "");
    if operation == OtherOperation then Rejected(BadOperation)
    else if !IsProjectId(id) then Rejected(BadProjectId)
    else if expected != record.revision then Rejected(RevisionConflict)
    else
      match Edit(env, record.profile, operation, id, given)
      case Refused(why) => Rejected(why)
      case Edited(projects) => ListCommitted(env, record, projects, reason, author)
  }

  /** The record with another project list. */
  function ListCommitted(env: Env, record: Record, projects: seq<Project>, reason: string, author: string): Outcome {
    if |projects| > MAX_PROJECTS then Rejected(TooManyProjects)
    else
      match NormalProfile(env, Shown(WithProjects(record.profile, projects)))
      case Some(profile) => Committed(env, record, profile, reason, author)
      case None => Rejected(BadShape)
  }

  // -- the store -----------------------------------------------------------------------------------------

  class Store {
    const env: Env
    var file: Option<Record>

    function Current(): Record
      reads this
    {
      if file.Some? then file.value else EMPTY_RECORD
    }

    constructor (env: Env, seed: Option<Record>)
      ensures this.env == env && file == seed
    {
      this.env, file := env, seed;
    }

    method Commit(record: Record, profile: Profile, reason: string, author: string) returns (r: Outcome)
      modifies this
      ensures r == Committed(env, record, profile, reason, author)
      ensures file == if r.Accepted? then Some(r.record) else old(file)
    {
      var said := Strip(reason);
      if said == "" {
        return Rejected(NoReasonGiven);
      }
      var revision := record.revision + 1;
      var changes := LastOf(record.changes + [Change(revision, author, Shortened(said, MAX_TEXT_CHARS))], KEPT_CHANGES);
      var value := Record(revision, profile, changes);
      if env.size(value) > MAX_PROFILE_CHARS {
        return Rejected(TooLong);
      }
      file := Some(value);
      return Accepted(value);
    }

    method Update(changes: Fields, expected: int, reason: string, author: string) returns (r: Outcome)
      modifies this
      ensures r == Updated(env, old(Current()), changes, expected, reason, author)
      ensures file == if r.Accepted? then Some(r.record) else old(file)
    {
      if exists key :: key in changes && key !in PROFILE_FIELDS {
        return Rejected(UnknownFields);
      }
      if changes == map[] {
        return Rejected(NoChanges);
      }
      var record := Current();
      if expected != record.revision {
        return Rejected(RevisionConflict);
      }
      var profile := NormalProfile(env, Shown(record.profile) + changes);
      if profile.None? {
        return Rejected(BadShape);
      }
      r := Commit(record, profile.value, reason, author);
    }

    method UpdateProject(operation: Operation, given: Fields, expected: int, reason: string, author: string)
        returns (r: Outcome)
      modifies this
      ensures r == ProjectUpdated(env, old(Current()), operation, given, expected, reason, author)
      ensures file == if r.Accepted? then Some(r.record) else old(file)
    {
      if operation == OtherOperation {
        return Rejected(BadOperation);
      }
      var id := StrOr(env, Get(given, IdKey), "");
      if !IsProjectId(id) {
        return Rejected(BadProjectId);
      }
      var record := Current();
      if expected != record.revision {
        return Rejected(RevisionConflict);
      }
      var edited := EditProjects(record.profile, operation, id, given);
      if edited.Refused? {
        return Rejected(edited.reason);
      }
      if |edited.projects| > MAX_PROJECTS {
        return Rejected(TooManyProjects);
      }
      var profile := NormalProfile(env, Shown(WithProjects(record.profile, edited.projects)));
      if profile.None? {
        return Rejected(BadShape);
      }
      r := Commit(record, profile.value, reason, author);
    }

    method EditProjects(profile: Profile, operation: Operation, id: string, given: Fields) returns (r: Edited)
      requires operation != OtherOperation
      ensures r == Edit(env, profile, operation, id, given)
    {
      var projects := Projects(profile);
      var others := Others(projects, id);
      if operation == Upsert {
        var checked := NormalProject(env, Merged(Previous(projects, id), given), NamesOf(profile.mine));
        if checked.None? {
          return Refused(BadShape);
        }
        if !env.mayWrite(checked.value, profile) {
          return Refused(WriteRefused);
        }
        return Edited(Placed(projects, checked.value));
      } else if |others| == |projects| {
        return Refused(NoSuchProject);
      }
      return Edited(others);
    }
  }

  // -- upsert as a map update --------------------------------------------------------------------------------

  predicate UniqueIds(projects: seq<Project>) {
    forall i, j :: 0 <= i < j < |projects| ==> projects[i].id != projects[j].id
  }

  predicate Lacks(projects: seq<Project>, id: string) {
    forall i :: 0 <= i < |projects| ==> projects[i].id != id
  }

  lemma {:induction false} NothingToDrop(projects: seq<Project>, id: string)
    requires Lacks(projects, id)
    ensures Others(projects, id) == projects
  {
    if projects != [] {
      NothingToDrop(projects[..|projects| - 1], id);
    }
  }

  lemma {:induction false} OthersOneByOne(a: seq<Project>, b: seq<Project>, id: string)
    ensures Others(a + b, id) == Others(a, id) + Others(b, id)
  {
    if b == [] {
      assert a + b == a;
    } else {
      var n := |b| - 1;
      assert (a + b)[..|a + b| - 1] == a + b[..n];
      OthersOneByOne(a, b[..n], id);
    }
  }

  lemma Split(projects: seq<Project>, i: nat)
    requires i < |projects|
    ensures projects == projects[..i] + [projects[i]] + projects[i + 1..]
  {
  }

  lemma OthersOfOne(p: Project)
    ensures Others([p], p.id) == []
  {
    assert [p][..0] == [];
  }

  lemma OthersAround(a: seq<Project>, p: Project, b: seq<Project>)
    requires Lacks(a, p.id) && Lacks(b, p.id)
    ensures Others(a + [p] + b, p.id) == a + b
  {
    OthersOneByOne(a + [p], b, p.id);
    OthersOneByOne(a, [p], p.id);
    OthersOfOne(p);
    NothingToDrop(a, p.id);
    NothingToDrop(b, p.id);
    assert a + [] == a;
  }

  lemma OthersOfUnique(projects: seq<Project>, i: nat)
    requires UniqueIds(projects) && i < |projects|
    ensures Others(projects, projects[i].id) == projects[..i] + projects[i + 1..]
  {
    Split(projects, i);
    OthersAround(projects[..i], projects[i], projects[i + 1..]);
  }

  lemma InsertedAtTheGap(projects: seq<Project>, i: nat, p: Project)
    requires i < |projects|
    ensures Inserted(projects[..i] + projects[i + 1..], i, p) == projects[i := p]
  {
    var gap := projects[..i] + projects[i + 1..];
    assert gap[..i] == projects[..i] && gap[i..] == projects[i + 1..];
  }

  /** With unique ids an upsert replaces the project where it stands, or appends it. */
  lemma UpsertInPlace(projects: seq<Project>, p: Project)
    requires UniqueIds(projects)
    ensures Placed(projects, p)
            == match PlaceOf(projects, p.id)
               case None => projects + [p]
               case Some(i) => projects[i := p]
  {
    var place := PlaceOf(projects, p.id);
    if place.Some? {
      OthersOfUnique(projects, place.value);
      InsertedAtTheGap(projects, place.value, p);
    } else {
      NothingToDrop(projects, p.id);
      assert projects[..|projects|] == projects && projects[|projects|..] == [];
    }
  }

  lemma UpsertKeepsUnique(projects: seq<Project>, p: Project)
    requires UniqueIds(projects)
    ensures UniqueIds(Placed(projects, p))
  {
    UpsertInPlace(projects, p);
  }

  lemma {:induction false} OthersStayUnique(projects: seq<Project>, id: string)
    requires UniqueIds(projects)
    ensures UniqueIds(Others(projects, id))
  {
    if projects != [] {
      var (n, front) := (|projects| - 1, Others(projects[..|projects| - 1], id));
      OthersStayUnique(projects[..n], id);
      forall i | 0 <= i < |front| ensures front[i].id != projects[n].id {
        assert front[i] in projects[..n];
      }
    }
  }

  lemma MembersOfInserted(projects: seq<Project>, place: nat, p: Project, q: Project)
    ensures q in Inserted(projects, place, p) <==> q in projects || q == p
  {
    if place <= |projects| {
      assert projects == projects[..place] + projects[place..];
    }
  }

  function Lookup(projects: seq<Project>, id: string): Option<Project> {
    var place := PlaceOf(projects, id);
    if place.Some? then Some(projects[place.value]) else None
  }

  lemma LookupByMembership(projects: seq<Project>, id: string)
    requires UniqueIds(projects)
    ensures forall p :: p in projects && p.id == id <==> Lookup(projects, id) == Some(p)
  {
  }

  lemma LookupsAgree(a: seq<Project>, b: seq<Project>, id: string)
    requires UniqueIds(a) && UniqueIds(b) && forall p: Project :: p.id == id ==> (p in a <==> p in b)
    ensures Lookup(a, id) == Lookup(b, id)
  {
    LookupByMembership(a, id);
    LookupByMembership(b, id);
    if Lookup(a, id).Some? {
      assert Lookup(a, id).value in a;
    } else if Lookup(b, id).Some? {
      assert Lookup(b, id).value in b;
    }
  }

  /** The list is an ordered map: an upsert changes the value at its id alone. */
  lemma UpsertIsMapUpdate(projects: seq<Project>, p: Project, id: string)
    requires UniqueIds(projects)
    ensures Lookup(Placed(projects, p), id) == if id == p.id then Some(p) else Lookup(projects, id)
  {
    UpsertKeepsUnique(projects, p);
    forall q: Project {
      MembersOfInserted(Others(projects, p.id), PlaceFor(projects, p.id), p, q);
    }
    if id == p.id {
      LookupByMembership(Placed(projects, p), id);
    } else {
      LookupsAgree(Placed(projects, p), projects, id);
    }
  }

  /** And a removal drops the value at its id alone. */
  lemma RemovalIsMapRemoval(projects: seq<Project>, gone: string, id: string)
    requires UniqueIds(projects)
    ensures Lookup(Others(projects, gone), id) == if id == gone then None else Lookup(projects, id)
  {
    OthersStayUnique(projects, gone);
    if id == gone {
      var after := Others(projects, gone);
      assert forall i :: 0 <= i < |after| ==> after[i] in after;
    } else {
      LookupsAgree(Others(projects, gone), projects, id);
    }
  }

  // -- what an accepted write leaves --------------------------------------------------------------------------

  predicate Given(given: Fields, key: Key) {
    key in given && given[key] != JNull
  }

  /** The text of a field given, or the text it had, if any. */
  predicate TextTaken(given: Fields, key: Key, before: Option<string>, after: Option<string>) {
    if Given(given, key) then given[key].JText? && after == Some(Strip(given[key].s)) else after == before
  }

  /** Field by field: what was given, as checked, else what the project had before, else
      the default of a new project. */
  predicate FieldsTaken(env: Env, given: Fields, before: Option<Project>, after: Project) {
    && TextTaken(given, IntentKey, if before.Some? then Some(before.value.intent) else None, Some(after.intent))
    && TextTaken(given, NoteKey, if before.Some? then before.value.note else None, after.note)
    && StatusText(after.status) == (if Given(given, StatusKey) then StrOr(env, given[StatusKey], "active")
                                    else if before.Some? then StatusText(before.value.status) else "active")
    && (if Given(given, AreaKey) then after.area == StrOr(env, given[AreaKey], "")
        else before.Some? && after.area == before.value.area)
    && (if Given(given, WorkKey) then given[WorkKey] == JObject(after.work)
        else before.Some? && after.work == before.value.work)
  }

  lemma MergedFields(previous: Fields, given: Fields, key: Key)
    ensures Get(Merged(previous, given), key) == if Given(given, key) then given[key] else Get(previous, key)
  {
  }

  lemma CheckedTakesFields(env: Env, projects: seq<Project>, id: string, given: Fields, names: set<string>)
    requires Faithful(env) && GoodProjects(env, projects, names) && "" !in names
    requires NormalProject(env, Merged(Previous(projects, id), given), names).Some?
    ensures FieldsTaken(env, given, Lookup(projects, id),
                        NormalProject(env, Merged(Previous(projects, id), given), names).value)
  {
    var (previous, before) := (Previous(projects, id), Lookup(projects, id));
    MergedFields(previous, given, IntentKey);
    MergedFields(previous, given, StatusKey);
    MergedFields(previous, given, NoteKey);
    MergedFields(previous, given, AreaKey);
    MergedFields(previous, given, WorkKey);
    if before.Some? {
      KeptFieldsAgain(env, before.value, names);
    }
  }

  /** What a kept project shows is read back as it is. */
  lemma KeptFieldsAgain(env: Env, p: Project, names: set<string>)
    requires Faithful(env) && GoodProject(env, p, names) && "" !in names
    ensures var f := ShownProject(p);
            && NormalText(Get(f, IntentKey)) == Some(p.intent) && OptionalText(Get(f, NoteKey)) == Some(p.note)
            && StrOr(env, Get(f, StatusKey), "active") == StatusText(p.status)
            && StrOr(env, Get(f, AreaKey), "") == p.area && Get(f, WorkKey) == JObject(p.work)
  {
    ShownFields(p);
    StatusIsSaid(p.status);
    TextIsItself(env, p.area, "");
    TextIsItself(env, StatusText(p.status), "active");
    OptionalAgain(p.note);
  }

  /** What an accepted write adds to the record besides the profile. */
  predicate Logged(env: Env, record: Record, next: Record, reason: string, author: string) {
    && next.revision == record.revision + 1 && env.size(next) <= MAX_PROFILE_CHARS
    && Strip(reason) != "" && next.changes != []
    && next.changes[|next.changes| - 1].author == author
    && next.changes[|next.changes| - 1].revision == next.revision
    && next.changes[|next.changes| - 1].reason <= Strip(reason)
    && (|Strip(reason)| <= MAX_TEXT_CHARS ==> next.changes[|next.changes| - 1].reason == Strip(reason))
  }

  lemma CommitIsLogged(env: Env, record: Record, profile: Profile, reason: string, author: string)
    requires Committed(env, record, profile, reason, author).Accepted?
    ensures Logged(env, record, Committed(env, record, profile, reason, author).record, reason, author)
    ensures Committed(env, record, profile, reason, author).record.profile == profile
  {
  }

  /** The projects of a profile are those of another, but for the one with this id. */
  ghost predicate OnlyChangedAt(before: Profile, after: Profile, id: string) {
    && after == before.(projects := after.projects)
    && forall other :: other != id ==> Lookup(Projects(after), other) == Lookup(Projects(before), other)
  }

  /** An accepted upsert.  The project with the id given holds, field by field, what was
      given or what it held before; every other project, and every other part of the
      profile, is what it was. */
  lemma AcceptedUpsert(env: Env, record: Record, given: Fields, expected: int, reason: string, author: string)
    requires Faithful(env) && Sound(env, record)
    requires ProjectUpdated(env, record, Upsert, given, expected, reason, author).Accepted?
    ensures var id := StrOr(env, Get(given, IdKey), "");
            var next := ProjectUpdated(env, record, Upsert, given, expected, reason, author).record;
            var after := Lookup(Projects(next.profile), id);
            && IsProjectId(id) && OnlyChangedAt(record.profile, next.profile, id)
            && after.Some? && after.value.id == id && env.mayWrite(after.value, record.profile)
            && FieldsTaken(env, given, Lookup(Projects(record.profile), id), after.value)
            && |Projects(next.profile)| <= MAX_PROJECTS && Logged(env, record, next, reason, author)
  {
    var id := StrOr(env, Get(given, IdKey), "");
    var edited := Edit(env, record.profile, Upsert, id, given);
    EditUpserts(env, record.profile, id, given);
    EditStaysGood(env, record.profile, Upsert, id, given);
    CommitIsLogged(env, record, WithProjects(record.profile, edited.projects), reason, author);
    assert Projects(WithProjects(record.profile, edited.projects)) == edited.projects;
  }

  /** What an upsert makes of the project list. */
  lemma EditUpserts(env: Env, profile: Profile, id: string, given: Fields)
    requires Faithful(env) && Good(env, profile) && UniqueIds(Projects(profile))
    requires IsProjectId(id) && id == StrOr(env, Get(given, IdKey), "")
    requires Edit(env, profile, Upsert, id, given).Edited?
    ensures var (before, projects) := (Projects(profile), Edit(env, profile, Upsert, id, given).projects);
            var after := Lookup(projects, id);
            && after.Some? && after.value.id == id && env.mayWrite(after.value, profile)
            && FieldsTaken(env, given, Lookup(before, id), after.value)
            && forall other :: other != id ==> Lookup(projects, other) == Lookup(before, other)
  {
    var (projects, names) := (Projects(profile), NamesOf(profile.mine));
    var checked := NormalProject(env, Merged(Previous(projects, id), given), names).value;
    UpsertKeepsId(env, projects, id, given, names);
    NamesAreNotEmpty(profile.mine);
    GoodProjectsOf(env, profile);
    CheckedTakesFields(env, projects, id, given, names);
    forall other
      ensures Lookup(Placed(projects, checked), other) == if other == id then Some(checked) else Lookup(projects, other)
    {
      UpsertIsMapUpdate(projects, checked, other);
    }
  }

  /** The checked project has the id that was looked up. */
  lemma UpsertKeepsId(env: Env, projects: seq<Project>, id: string, given: Fields, names: set<string>)
    requires IsProjectId(id) && id == StrOr(env, Get(given, IdKey), "")
    requires NormalProject(env, Merged(Previous(projects, id), given), names).Some?
    ensures NormalProject(env, Merged(Previous(projects, id), given), names).value.id == id
  {
    MergedFields(Previous(projects, id), given, IdKey);
  }

  /** An accepted removal drops the project with that id, which there was, and no other. */
  lemma AcceptedRemoval(env: Env, record: Record, given: Fields, expected: int, reason: string, author: string)
    requires Faithful(env) && Sound(env, record)
    requires ProjectUpdated(env, record, Remove, given, expected, reason, author).Accepted?
    ensures var id := StrOr(env, Get(given, IdKey), "");
            var next := ProjectUpdated(env, record, Remove, given, expected, reason, author).record;
            && OnlyChangedAt(record.profile, next.profile, id) && Logged(env, record, next, reason, author)
            && Lookup(Projects(record.profile), id).Some? && Lookup(Projects(next.profile), id).None?
  {
    var id := StrOr(env, Get(given, IdKey), "");
    var projects := Projects(record.profile);
    EditStaysGood(env, record.profile, Remove, id, given);
    GoodProjectsOf(env, record.profile);
    EditKeepsList(env, record.profile, Remove, id, given);
    GoodWithProjects(env, record.profile, Others(projects, id));
    CommitIsLogged(env, record, WithProjects(record.profile, Others(projects, id)), reason, author);
    forall other ensures Lookup(Others(projects, id), other) == if other == id then None else Lookup(projects, other) {
      RemovalIsMapRemoval(projects, id, other);
    }
    if Lookup(projects, id).None? {
      NothingToDrop(projects, id);
    }
  }

  /** An accepted field update: a field named holds the checked value given, or nothing
      when that is null; a field not named, and every project, is what it was. */
  lemma AcceptedUpdate(env: Env, record: Record, changes: Fields, expected: int, reason: string, author: string)
    requires Faithful(env) && Sound(env, record)
    requires Updated(env, record, changes, expected, reason, author).Accepted?
    ensures var next := Updated(env, record, changes, expected, reason, author).record;
            var (before, after) := (record.profile, next.profile);
            && (if HomeKey in changes then Optional(changes[HomeKey], NormalHome) == Some(after.home)
                else after.home == before.home)
            && (if MineKey in changes then Optional(changes[MineKey], NormalMine) == Some(after.mine)
                else after.mine == before.mine)
            && (if RoutineKey in changes then OptionalText(changes[RoutineKey]) == Some(after.routine)
                else after.routine == before.routine)
            && (if PersonalityKey in changes then OptionalText(changes[PersonalityKey]) == Some(after.personality)
                else after.personality == before.personality)
            && (if RelationshipsKey in changes
                then Optional(changes[RelationshipsKey], NormalRelationships) == Some(after.relationships)
                else after.relationships == before.relationships)
            && after.projects == before.projects && Logged(env, record, next, reason, author)
  {
    FieldWritesKeepProjects(env, record, changes);
    ShownProfileFields(record.profile);
    RestAgain(env, record.profile);
    var profile := NormalProfile(env, Shown(record.profile) + changes).value;
    CommitIsLogged(env, record, profile, reason, author);
  }

  /** The record a write would leave. */
  function Proposed(record: Record, profile: Profile, reason: string, author: string): Record {
    var change := Change(record.revision + 1, author, Shortened(Strip(reason), MAX_TEXT_CHARS));
    Record(record.revision + 1, profile, LastOf(record.changes + [change], KEPT_CHANGES))
  }

  lemma CommitRefusesIff(env: Env, record: Record, profile: Profile, reason: string, author: string)
    ensures var r := Committed(env, record, profile, reason, author);
            var next := Proposed(record, profile, reason, author);
            && (r == Rejected(NoReasonGiven) <==> Strip(reason) == "")
            && (r == Rejected(TooLong) <==> Strip(reason) != "" && env.size(next) > MAX_PROFILE_CHARS)
            && (r == Accepted(next) <==> Strip(reason) != "" && env.size(next) <= MAX_PROFILE_CHARS)
  {
  }

  /** When a field update is refused, and for which of its faults. */
  lemma UpdateRefusesIff(env: Env, record: Record, changes: Fields, expected: int, reason: string, author: string)
    ensures var r := Updated(env, record, changes, expected, reason, author);
            var known := forall key :: key in changes ==>
                           key in {HomeKey, MineKey, RoutineKey, RelationshipsKey, PersonalityKey};
            var profile := NormalProfile(env, Shown(record.profile) + changes);
            && (r == Rejected(UnknownFields) <==> !known)
            && (r == Rejected(NoChanges) <==> changes == map[])
            && (r == Rejected(RevisionConflict) <==> known && changes != map[] && expected != record.revision)
            && (r == Rejected(BadShape) <==>
                  known && changes != map[] && expected == record.revision && profile.None?)
            && (r.Accepted? <==>
                  && known && changes != map[] && expected == record.revision && profile.Some?
                  && Committed(env, record, profile.value, reason, author).Accepted?)
  {
  }

  /** The project the fields given make of the one there is, as checked. */
  function Checked(env: Env, profile: Profile, id: string, given: Fields): Option<Project> {
    NormalProject(env, Merged(Previous(Projects(profile), id), given), NamesOf(profile.mine))
  }

  /** An edited list is committed when it is not too long and there is a reason. */
  lemma ListCommitsIff(env: Env, record: Record, projects: seq<Project>, reason: string, author: string)
    requires NormalProfile(env, Shown(WithProjects(record.profile, projects)))
             == Some(WithProjects(record.profile, projects))
    ensures var r := ListCommitted(env, record, projects, reason, author);
            && (r == Rejected(TooManyProjects) <==> |projects| > MAX_PROJECTS)
            && (r.Accepted? <==>
                  && |projects| <= MAX_PROJECTS
                  && Committed(env, record, WithProjects(record.profile, projects), reason, author).Accepted?)
  {
  }

  /** When an upsert is accepted: a sound project id, the current revision, fields that
      pass the check, a write the caller may make, room for one project more when it is
      new, and a reason. */
  lemma UpsertAcceptedIff(env: Env, record: Record, given: Fields, expected: int, reason: string, author: string)
    requires Faithful(env) && Sound(env, record)
    ensures var (r, id) := (ProjectUpdated(env, record, Upsert, given, expected, reason, author),
                            StrOr(env, Get(given, IdKey), ""));
            var (checked, projects) := (Checked(env, record.profile, id, given), Projects(record.profile));
            r.Accepted?
            <==> && IsProjectId(id) && expected == record.revision && checked.Some?
                 && env.mayWrite(checked.value, record.profile)
                 && (if Lookup(projects, id).Some? then |projects| else |projects| + 1) <= MAX_PROJECTS
                 && Committed(env, record, WithProjects(record.profile, Placed(projects, checked.value)), reason,
                              author).Accepted?
  {
    var id := StrOr(env, Get(given, IdKey), "");
    var (projects, checked) := (Projects(record.profile), Checked(env, record.profile, id, given));
    if IsProjectId(id) && checked.Some? {
      UpsertKeepsId(env, projects, id, given, NamesOf(record.profile.mine));
      RoomFor(projects, checked.value);
      if env.mayWrite(checked.value, record.profile) {
        assert Edit(env, record.profile, Upsert, id, given) == Edited(Placed(projects, checked.value));
        EditStaysGood(env, record.profile, Upsert, id, given);
        ListCommitsIff(env, record, Placed(projects, checked.value), reason, author);
      }
    }
  }

  /** When a removal is accepted: a sound project id that there is, the current revision,
      and a reason. */
  lemma RemovalAcceptedIff(env: Env, record: Record, given: Fields, expected: int, reason: string, author: string)
    requires Faithful(env) && Sound(env, record)
    ensures var (r, id) := (ProjectUpdated(env, record, Remove, given, expected, reason, author),
                            StrOr(env, Get(given, IdKey), ""));
            var rest := Others(Projects(record.profile), id);
            r.Accepted?
            <==> && IsProjectId(id) && expected == record.revision && Lookup(Projects(record.profile), id).Some?
                 && |rest| <= MAX_PROJECTS
                 && Committed(env, record, WithProjects(record.profile, rest), reason, author).Accepted?
  {
    var id := StrOr(env, Get(given, IdKey), "");
    var (projects, rest) := (Projects(record.profile), Others(Projects(record.profile), id));
    DroppedIff(projects, id);
    if Lookup(projects, id).Some? {
      assert Edit(env, record.profile, Remove, id, given) == Edited(rest);
      EditStaysGood(env, record.profile, Remove, id, given);
      ListCommitsIff(env, record, rest, reason, author);
    }
  }

  lemma DroppedIff(projects: seq<Project>, id: string)
    requires UniqueIds(projects)
    ensures |Others(projects, id)| == |projects| <==> Lookup(projects, id).None?
  {
    if Lookup(projects, id).Some? {
      OthersOfUnique(projects, PlaceOf(projects, id).value);
    } else {
      NothingToDrop(projects, id);
    }
  }

  /** Which fault an edit of the project list is refused for, when it has one of these. */
  lemma ProjectRefusals(env: Env, record: Record, operation: Operation, given: Fields, expected: int, reason: string,
                        author: string)
    ensures var (r, id) := (ProjectUpdated(env, record, operation, given, expected, reason, author),
                            StrOr(env, Get(given, IdKey), ""));
            && (r == Rejected(BadOperation) <==> operation == OtherOperation)
            && (r == Rejected(BadProjectId) <==> operation != OtherOperation && !IsProjectId(id))
            && (r == Rejected(RevisionConflict) <==>
                  operation != OtherOperation && IsProjectId(id) && expected != record.revision)
  {
    var id := StrOr(env, Get(given, IdKey), "");
    var edited := Edit(env, record.profile, operation, id, given);
    assert edited.Refused? ==> edited.reason in {BadShape, WriteRefused, NoSuchProject};
    if edited.Edited? {
      ListRefusals(env, record, edited.projects, reason, author);
    }
  }

  lemma ListRefusals(env: Env, record: Record, projects: seq<Project>, reason: string, author: string)
    ensures var r := ListCommitted(env, record, projects, reason, author);
            r.Rejected? ==> r.reason in {TooManyProjects, BadShape, NoReasonGiven, TooLong}
  {
  }

  lemma RoomFor(projects: seq<Project>, p: Project)
    requires UniqueIds(projects)
    ensures |Placed(projects, p)| == if Lookup(projects, p.id).Some? then |projects| else |projects| + 1
  {
    UpsertInPlace(projects, p);
  }

  // -- runs ----------------------------------------------------------------------------------------------------

  /** The kept changes are the last revisions, one each. */
  predicate Trail(record: Record) {
    && |record.changes| <= KEPT_CHANGES && |record.changes| <= record.revision
    && forall i :: 0 <= i < |record.changes| ==>
       record.changes[i].revision == record.revision - |record.changes| + 1 + i
  }

  predicate Sound(env: Env, record: Record) {
    Good(env, record.profile) && UniqueIds(Projects(record.profile)) && Trail(record)
  }

  datatype Write =
    | FieldWrite(changes: Fields, expected: int, reason: string, author: string)
    | ProjectWrite(operation: Operation, given: Fields, expected: int, reason: string, author: string)

  function Written(env: Env, record: Record, w: Write): Outcome {
    match w
    case FieldWrite(changes, expected, reason, author) => Updated(env, record, changes, expected, reason, author)
    case ProjectWrite(operation, given, expected, reason, author) =>
      ProjectUpdated(env, record, operation, given, expected, reason, author)
  }

  function After(env: Env, record: Record, w: Write): Record {
    var r := Written(env, record, w);
    if r.Accepted? then r.record else record
  }

  function Run(env: Env, record: Record, writes: seq<Write>): Record
    decreases |writes|
  {
    if writes == [] then record else After(env, Run(env, record, writes[..|writes| - 1]), writes[|writes| - 1])
  }

  lemma CommitKeepsTrail(env: Env, record: Record, profile: Profile, reason: string, author: string)
    requires Trail(record)
    ensures var r := Committed(env, record, profile, reason, author);
            r.Accepted? ==> Trail(r.record) && r.record.revision == record.revision + 1 && r.record.profile == profile
  {
  }

  /** Updating fields cannot change a project: it keeps them all or is refused. */
  lemma FieldWritesKeepProjects(env: Env, record: Record, changes: Fields)
    requires Faithful(env) && Good(env, record.profile) && forall key :: key in changes ==> key in PROFILE_FIELDS
    ensures var r := NormalProfile(env, Shown(record.profile) + changes);
            r.Some? ==> Good(env, r.value) && r.value.projects == record.profile.projects
  {
    var fields := Shown(record.profile) + changes;
    NormalProfileIsGood(env, fields);
    NamesAreNotEmpty(record.profile.mine);
    ShownProfileFields(record.profile);
    assert ProjectsKey !in changes;
    assert Get(fields, ProjectsKey) == ShownIf(record.profile.projects, ShownProjects);
    var mine := Optional(Get(fields, MineKey), NormalMine);
    if mine.Some? {
      ProjectListAgain(env, record.profile.projects, NamesOf(record.profile.mine), NamesOf(mine.value));
    }
  }

  lemma GoodMembers(env: Env, before: seq<Project>, after: seq<Project>, added: Project, names: set<string>)
    requires GoodProjects(env, before, names) && GoodProject(env, added, names)
    requires forall p :: p in after ==> p in before || p == added
    ensures GoodProjects(env, after, names)
  {
    forall i | 0 <= i < |after| ensures GoodProject(env, after[i], names) {
      assert after[i] in after;
    }
  }

  /** The edited list keeps its ids unique and its projects in normal form. */
  lemma EditKeepsList(env: Env, profile: Profile, operation: Operation, id: string, given: Fields)
    requires GoodProjects(env, Projects(profile), NamesOf(profile.mine)) && UniqueIds(Projects(profile))
    ensures var r := Edit(env, profile, operation, id, given);
            r.Edited? ==> UniqueIds(r.projects) && GoodProjects(env, r.projects, NamesOf(profile.mine))
  {
    var (r, projects, names) := (Edit(env, profile, operation, id, given), Projects(profile), NamesOf(profile.mine));
    if r.Edited? && operation == Upsert {
      var checked := NormalProject(env, Merged(Previous(projects, id), given), names).value;
      UpsertKeepsUnique(projects, checked);
      forall q: Project {
        MembersOfInserted(Others(projects, checked.id), PlaceFor(projects, checked.id), checked, q);
      }
      GoodMembers(env, projects, r.projects, checked, names);
    } else if r.Edited? {
      OthersStayUnique(projects, id);
      if projects != [] {
        GoodMembers(env, projects, r.projects, projects[0], names);
      }
    }
  }

  lemma GoodWithProjects(env: Env, profile: Profile, projects: seq<Project>)
    requires Good(env, profile) && GoodProjects(env, projects, NamesOf(profile.mine))
    ensures Good(env, WithProjects(profile, projects)) && Projects(WithProjects(profile, projects)) == projects
  {
  }

  lemma GoodProjectsOf(env: Env, profile: Profile)
    requires Good(env, profile)
    ensures GoodProjects(env, Projects(profile), NamesOf(profile.mine))
  {
  }

  /** An edited profile is its own normal form already. */
  lemma EditStaysGood(env: Env, profile: Profile, operation: Operation, id: string, given: Fields)
    requires Faithful(env) && Good(env, profile) && UniqueIds(Projects(profile))
    ensures var r := Edit(env, profile, operation, id, given);
            r.Edited? ==>
              && UniqueIds(r.projects)
              && Good(env, WithProjects(profile, r.projects))
              && NormalProfile(env, Shown(WithProjects(profile, r.projects))) == Some(WithProjects(profile, r.projects))
  {
    GoodProjectsOf(env, profile);
    EditKeepsList(env, profile, operation, id, given);
    var r := Edit(env, profile, operation, id, given);
    if r.Edited? {
      GoodWithProjects(env, profile, r.projects);
      FixedPointIff(env, WithProjects(profile, r.projects));
    }
  }

  /** What an accepted write leaves: the invariants, under the next revision. */
  predicate Steps(env: Env, record: Record, expected: int, r: Outcome) {
    r.Accepted? ==> Sound(env, r.record) && expected == record.revision && r.record.revision == record.revision + 1
  }

  lemma FieldWriteStaysSound(env: Env, record: Record, changes: Fields, expected: int, reason: string, author: string)
    requires Faithful(env) && Sound(env, record)
    ensures Steps(env, record, expected, Updated(env, record, changes, expected, reason, author))
  {
    if forall key :: key in changes ==> key in PROFILE_FIELDS {
      var profile := NormalProfile(env, Shown(record.profile) + changes);
      FieldWritesKeepProjects(env, record, changes);
      if profile.Some? {
        CommitKeepsTrail(env, record, profile.value, reason, author);
      }
    }
  }

  lemma ProjectWriteStaysSound(env: Env, record: Record, operation: Operation, given: Fields, expected: int,
                               reason: string,
                               author: string)
    requires Faithful(env) && Sound(env, record)
    ensures Steps(env, record, expected, ProjectUpdated(env, record, operation, given, expected, reason, author))
  {
    var id := StrOr(env, Get(given, IdKey), "");
    EditStaysGood(env, record.profile, operation, id, given);
    var edited := Edit(env, record.profile, operation, id, given);
    if edited.Edited? {
      CommitKeepsTrail(env, record, WithProjects(record.profile, edited.projects), reason, author);
    }
  }

  /** An accepted write names the current revision, raises it by one and keeps every
      invariant; a rejected one changes nothing. */
  lemma WriteStaysSound(env: Env, record: Record, w: Write)
    requires Faithful(env) && Sound(env, record)
    ensures Sound(env, After(env, record, w))
    ensures if Written(env, record, w).Accepted?
            then w.expected == record.revision && After(env, record, w).revision == record.revision + 1
            else After(env, record, w) == record
  {
    match w
    case FieldWrite(changes, expected, reason, author) =>
      FieldWriteStaysSound(env, record, changes, expected, reason, author);
    case ProjectWrite(operation, given, expected, reason, author) =>
      ProjectWriteStaysSound(env, record, operation, given, expected, reason, author);
  }

  /** Over every run from a sound record, every stored profile is a fixed point of the
      shape check, ids stay unique, and the revision counts the accepted writes. */
  lemma {:induction false} RunsStaySound(env: Env, record: Record, writes: seq<Write>)
    requires Faithful(env) && Sound(env, record)
    ensures var r := Run(env, record, writes);
            && Sound(env, r) && NormalProfile(env, Shown(r.profile)) == Some(r.profile)
            && record.revision <= r.revision <= record.revision + |writes|
  {
    if writes != [] {
      var front := Run(env, record, writes[..|writes| - 1]);
      RunsStaySound(env, record, writes[..|writes| - 1]);
      WriteStaysSound(env, front, writes[|writes| - 1]);
    }
    FixedPointIff(env, Run(env, record, writes).profile);
  }

  /** Of all the writers that read one revision, one at most is ever accepted. */
  lemma OneWriterPerRevision(env: Env, record: Record, first: Write, between: seq<Write>, second: Write)
    requires Faithful(env) && Sound(env, record)
    requires Written(env, record, first).Accepted? && second.expected == first.expected
    ensures Written(env, Run(env, After(env, record, first), between), second).Rejected?
  {
    WriteStaysSound(env, record, first);
    RunsStaySound(env, After(env, record, first), between);
    WriteStaysSound(env, Run(env, After(env, record, first), between), second);
  }

  /** Both starting points are sound: an empty store, and an imported seed whose project
      ids are unique -- which the shape check does not look at. */
  lemma SeedIsSoundIff(env: Env, seed: Fields, author: string, reason: string)
    requires NormalProfile(env, seed).Some?
    ensures Sound(env, EMPTY_RECORD)
    ensures var profile := NormalProfile(env, seed).value;
            Sound(env, Record(1, profile, [Change(1, author, reason)])) <==> UniqueIds(Projects(profile))
  {
    NormalProfileIsGood(env, seed);
  }
}
