/** The Agent's life profile (`LifeStore`): shape checks that leave a normal form, and
    a versioned record whose writers name the revision they read. */
module LifeProfile {
  import opened Lists
  import opened Options
  import opened Whitespace

  const MAX_TEXT_CHARS: nat := 1000
  const MAX_RELATIONSHIPS: nat := 20
  const MAX_AREAS: nat := 16
  const MAX_CONTAINERS: nat := 32
  const MAX_PROJECTS: nat := 12
  const MAX_PROFILE_CHARS: nat := 64000
  const KEPT_CHANGES: nat := 20

  // -- values as they are submitted -------------------------------------------------------------

  datatype Key =
    | HomeKey
    | MineKey
    | RoutineKey
    | RelationshipsKey
    | PersonalityKey
    | ProjectsKey
    | PosKey
    | DimensionKey
    | NoteKey
    | AreasKey
    | ContainersKey
    | NameKey
    | FromKey
    | ToKey
    | PlayerKey
    | IdKey
    | IntentKey
    | StatusKey
    | AreaKey
    | WorkKey
    | OtherKey(name: string)

  datatype Number = Number(r: real, isFloat: bool)

  /** `JNumber` is finite. */
  datatype Json =
    | JNull
    | JBool(b: bool)
    | JNumber(n: Number)
    | JNotFinite
    | JText(s: string)
    | JList(items: seq<Json>)
    | JObject(fields: Fields)

  type Fields = map<Key, Json>

  /** A missing key and a null one read the same. */
  function Get(fields: Fields, key: Key): Json {
    if key in fields then fields[key] else JNull
  }

  predicate Falsy(j: Json) {
    match j
    case JNull => true
    case JBool(b) => !b
    case JNumber(n) => n.r == 0.0
    case JNotFinite => false
    case JText(s) => s == ""
    case JList(items) => items == []
    case JObject(fields) => fields == map[]
  }

  /** What Python takes for false. */
  lemma FalsyIff(j: Json)
    ensures Falsy(j) <==> j in {JNull, JBool(false), JText(""), JList([]), JObject(map[])}
                          || (j.JNumber? && j.n.r == 0.0)
  {
  }

  // -- values as they are kept ---------------------------------------------------------------------

  datatype Point = Point(x: Number, y: Number, z: Number)

  datatype Home = Home(pos: Point, dimension: Option<string>, note: Option<string>)

  datatype Area = Area(name: string, low: Point, high: Point, dimension: Option<string>)

  datatype Mine = Mine(areas: seq<Area>, containers: seq<Point>)

  datatype Relationship = Relationship(player: string, note: Option<string>)

  datatype Status = Active | Paused | Finished

  datatype Project = Project(id: string, intent: string, status: Status, note: Option<string>, area: string,
                             work: Fields)

  datatype Profile = Profile(home: Option<Home>, mine: Option<Mine>, routine: Option<string>,
                             personality: Option<string>,
                             relationships: Option<seq<Relationship>>, projects: Option<seq<Project>>)

  const NO_PROFILE := Profile(None, None, None, None, None, None)

  datatype Change = Change(revision: nat, author: string, reason: string)

  datatype Record = Record(revision: nat, profile: Profile, changes: seq<Change>)

  /** What is not modelled further: Python's `str`, the plan validator, the write check
      of a project and the length of the file. */
  datatype Env = Env(str: Json -> string, validPlan: (string, string, Fields) -> bool,
                     mayWrite: (Project, Profile) -> bool, size: Record -> nat)

  ghost predicate Faithful(env: Env) {
    forall s: string :: env.str(JText(s)) == s
  }

  // -- texts -----------------------------------------------------------------------------------------

  function StripLeft(s: string): (r: string)
    ensures |r| <= |s| && (r != "" ==> !IsSpace(r[0]))
    ensures s != "" && !IsSpace(s[0]) ==> r == s
  {
    if s != "" && IsSpace(s[0]) then StripLeft(s[1..]) else s
  }

  function StripRight(s: string): (r: string)
    ensures r <= s && (r != "" ==> !IsSpace(r[|r| - 1]))
    ensures s != "" && !IsSpace(s[|s| - 1]) ==> r == s
  {
    if s != "" && IsSpace(s[|s| - 1]) then StripRight(s[..|s| - 1]) else s
  }

  function Strip(s: string): string {
    StripRight(StripLeft(s))
  }

  predicate Clean(s: string) {
    s != "" && Strip(s) == s && |s| <= MAX_TEXT_CHARS
  }

  lemma StripCleans(s: string)
    requires Strip(s) != "" && |s| <= MAX_TEXT_CHARS
    ensures Clean(Strip(s))
  {
    var r := Strip(s);
    assert r[0] == StripLeft(s)[0];
    assert StripLeft(r) == r;
  }

  predicate AllSpace(s: string) {
    forall c :: c in s ==> IsSpace(c)
  }

  predicate NoSpaceAround(s: string) {
    s != "" ==> !IsSpace(s[0]) && !IsSpace(s[|s| - 1])
  }

  lemma {:induction false} StripLeftIs(s: string) returns (left: string)
    ensures s == left + StripLeft(s) && AllSpace(left)
  {
    if s != "" && IsSpace(s[0]) {
      var more := StripLeftIs(s[1..]);
      left := [s[0]] + more;
    } else {
      left := "";
    }
  }

  lemma {:induction false} StripRightIs(s: string) returns (right: string)
    ensures s == StripRight(s) + right && AllSpace(right)
  {
    if s != "" && IsSpace(s[|s| - 1]) {
      var more := StripRightIs(s[..|s| - 1]);
      right := more + [s[|s| - 1]];
    } else {
      right := "";
    }
  }

  /** Stripping takes white space off both ends, all of it and nothing else. */
  lemma StripIs(s: string) returns (left: string, right: string)
    ensures s == left + Strip(s) + right
    ensures AllSpace(left) && AllSpace(right) && NoSpaceAround(Strip(s))
  {
    left := StripLeftIs(s);
    right := StripRightIs(StripLeft(s));
  }

  function NormalText(j: Json): (r: Option<string>)
    ensures r.Some? ==> Clean(r.value)
  {
    if j.JText? && Strip(j.s) != "" && |j.s| <= MAX_TEXT_CHARS then
      StripCleans(j.s);
      Some(Strip(j.s))
    else None
  }

  /** A text passes the check when it is not blank and not too long, and is then kept
      without the white space around it. */
  lemma NormalTextIs(j: Json)
    ensures NormalText(j) == if j.JText? && !AllSpace(j.s) && |j.s| <= 1000 then Some(Strip(j.s)) else None
  {
    if j.JText? {
      var left, right := StripIs(j.s);
      assert forall c :: c in Strip(j.s) ==> c in j.s;
    }
  }

  predicate CleanOption(o: Option<string>) {
    o.Some? ==> Clean(o.value)
  }

  /** An optional text is missing, good or refused (None). */
  function OptionalText(j: Json): (r: Option<Option<string>>)
    ensures r.Some? ==> CleanOption(r.value)
  {
    if j == JNull then Some(None)
    else
      match NormalText(j)
      case Some(t) => Some(Some(t))
      case None => None
  }

  function ShownOption(o: Option<string>): Json {
    if o.Some? then JText(o.value) else JNull
  }

  lemma OptionalAgain(o: Option<string>)
    requires CleanOption(o)
    ensures OptionalText(ShownOption(o)) == Some(o)
  {
  }

  // -- points ------------------------------------------------------------------------------------------

  function NormalPoint(j: Json): Option<Point> {
    if j.JList? && |j.items| == 3 && j.items[0].JNumber? && j.items[1].JNumber? && j.items[2].JNumber?
    then Some(Point(j.items[0].n, j.items[1].n, j.items[2].n))
    else None
  }

  function ShownPoint(p: Point): Json {
    JList([JNumber(p.x), JNumber(p.y), JNumber(p.z)])
  }

  // -- home and mine -------------------------------------------------------------------------------------

  function NormalHome(j: Json): (r: Option<Home>)
    ensures r.Some? ==> CleanOption(r.value.dimension) && CleanOption(r.value.note)
  {
    if !j.JObject? then None
    else
      match (NormalPoint(Get(j.fields, PosKey)), OptionalText(Get(j.fields, DimensionKey)),
             OptionalText(Get(j.fields, NoteKey)))
      case (Some(pos), Some(dimension), Some(note)) => Some(Home(pos, dimension, note))
      case _ => None
  }

  function ShownHome(h: Home): Json {
    JObject(map[PosKey := ShownPoint(h.pos), DimensionKey := ShownOption(h.dimension), NoteKey := ShownOption(h.note)])
  }

  predicate GoodArea(a: Area) {
    Clean(a.name) && CleanOption(a.dimension)
  }

  function NormalArea(j: Json): (r: Option<Area>)
    ensures r.Some? ==> GoodArea(r.value)
  {
    if !j.JObject? then None
    else
      match (NormalText(Get(j.fields, NameKey)), NormalPoint(Get(j.fields, FromKey)), NormalPoint(Get(j.fields, ToKey)),
             OptionalText(Get(j.fields, DimensionKey)))
      case (Some(name), Some(low), Some(high), Some(dimension)) => Some(Area(name, low, high, dimension))
      case _ => None
  }

  function ShownArea(a: Area): Json {
    JObject(map[NameKey := JText(a.name), FromKey := ShownPoint(a.low), ToKey := ShownPoint(a.high),
                DimensionKey := ShownOption(a.dimension)])
  }

  function Names(areas: seq<Area>): set<string> {
    set i | 0 <= i < |areas| :: areas[i].name
  }

  predicate Distinct(areas: seq<Area>) {
    forall i, j :: 0 <= i < j < |areas| ==> areas[i].name != areas[j].name
  }

  predicate GoodAreas(areas: seq<Area>) {
    (forall i :: 0 <= i < |areas| ==> GoodArea(areas[i])) && Distinct(areas)
  }

  lemma AreaAgain(a: Area)
    requires GoodArea(a)
    ensures NormalArea(ShownArea(a)) == Some(a)
  {
  }

  /** `value or []`: a falsy value stands for the empty list. */
  function ListOrEmpty(j: Json): Option<seq<Json>> {
    if Falsy(j) then Some([]) else if j.JList? then Some(j.items) else None
  }

  predicate GoodMine(m: Mine) {
    GoodAreas(m.areas) && |m.areas| <= MAX_AREAS && |m.containers| <= MAX_CONTAINERS
  }

  function NormalMine(j: Json): (r: Option<Mine>)
    ensures r.Some? ==> GoodMine(r.value)
  {
    if !j.JObject? then None
    else
      match (ListOrEmpty(Get(j.fields, AreasKey)), ListOrEmpty(Get(j.fields, ContainersKey)))
      case (Some(areas), Some(containers)) =>
        if |areas| > MAX_AREAS || |containers| > MAX_CONTAINERS then None
        else
          (match (AllOf(areas, NormalArea), AllOf(containers, NormalPoint))
           case (Some(a), Some(c)) => if Distinct(a) then Some(Mine(a, c)) else None
           case _ => None)
      case _ => None
  }

  function ShownMine(m: Mine): Json {
    JObject(map[AreasKey := JList(Mapped(m.areas, ShownArea)),
                ContainersKey := JList(Mapped(m.containers, ShownPoint))])
  }

  lemma MineAgain(m: Mine)
    requires GoodMine(m)
    ensures NormalMine(ShownMine(m)) == Some(m)
  {
    forall i | 0 <= i < |m.areas| ensures NormalArea(ShownArea(m.areas[i])) == Some(m.areas[i]) {
      AreaAgain(m.areas[i]);
    }
    MappedBack(m.areas, ShownArea, NormalArea);
    MappedBack(m.containers, ShownPoint, NormalPoint);
  }

  // -- relationships ----------------------------------------------------------------------------------------

  predicate GoodRelationship(r: Relationship) {
    Clean(r.player) && CleanOption(r.note)
  }

  function NormalRelationship(j: Json): (r: Option<Relationship>)
    ensures r.Some? ==> GoodRelationship(r.value)
  {
    if !j.JObject? then None
    else
      match (NormalText(Get(j.fields, PlayerKey)), OptionalText(Get(j.fields, NoteKey)))
      case (Some(player), Some(note)) => Some(Relationship(player, note))
      case _ => None
  }

  function ShownRelationship(r: Relationship): Json {
    JObject(map[PlayerKey := JText(r.player), NoteKey := ShownOption(r.note)])
  }

  predicate GoodRelationships(rows: seq<Relationship>) {
    |rows| <= MAX_RELATIONSHIPS && forall i :: 0 <= i < |rows| ==> GoodRelationship(rows[i])
  }

  lemma RelationshipAgain(r: Relationship)
    requires GoodRelationship(r)
    ensures NormalRelationship(ShownRelationship(r)) == Some(r)
  {
  }

  lemma RelationshipsAgain(rows: seq<Relationship>)
    requires GoodRelationships(rows)
    ensures AllOf(Mapped(rows, ShownRelationship), NormalRelationship) == Some(rows)
  {
    forall i | 0 <= i < |rows| ensures NormalRelationship(ShownRelationship(rows[i])) == Some(rows[i]) {
      RelationshipAgain(rows[i]);
    }
    MappedBack(rows, ShownRelationship, NormalRelationship);
  }

  // -- projects -----------------------------------------------------------------------------------------------

  predicate IdChar(c: char) {
    'a' <= c <= 'z' || '0' <= c <= '9'
  }

  predicate IsProjectId(s: string) {
    1 <= |s| <= 48 && IdChar(s[0]) && forall i :: 1 <= i < |s| ==> IdChar(s[i]) || s[i] == '-'
  }

  /** A small letter or a digit, by its ASCII code. */
  predicate SmallOrDigit(c: char) {
    97 <= c as int <= 122 || 48 <= c as int <= 57
  }

  /** A project id: one to forty-eight small letters, digits and hyphens, no hyphen first. */
  lemma ProjectIdIff(s: string)
    ensures IsProjectId(s)
            <==> 0 < |s| < 49 && s[0] != '-' && forall c :: c in s ==> c == '-' || SmallOrDigit(c)
  {
    assert forall c :: IdChar(c) <==> SmallOrDigit(c);
    assert forall i :: 0 <= i < |s| ==> s[i] in s;
  }

  function StatusText(s: Status): string {
    match s
    case Active => "active"
    case Paused => "paused"
    case Finished => "done"
  }

  function NormalStatus(text: string): (r: Option<Status>)
    ensures r.Some? ==> StatusText(r.value) == text
    ensures forall s: Status :: text == StatusText(s) ==> r == Some(s)
  {
    if text == "active" then Some(Active)
    else if text == "paused" then Some(Paused)
    else if text == "done" then Some(Finished) else None
  }

  /** `str(value or default)`. */
  function StrOr(env: Env, j: Json, default: string): string {
    if Falsy(j) then default else env.str(j)
  }

  predicate GoodWork(env: Env, id: string, intent: string, work: Fields) {
    Strip(StrOr(env, Get(work, IntentKey), "")) != "" && env.validPlan(id, intent, work)
  }

  predicate GoodProject(env: Env, p: Project, names: set<string>) {
    IsProjectId(p.id) && Clean(p.intent) && CleanOption(p.note) && p.area in names
      && GoodWork(env, p.id, p.intent, p.work)
  }

  /** A project from its parts, checked against the names of the Agent's areas. */
  function ProjectOf(env: Env, names: set<string>, id: string, intent: Json, status: string, note: Json, area: string,
                     work: Json): (r: Option<Project>)
    ensures r.Some? ==> GoodProject(env, r.value, names) && r.value.id == id
  {
    if !IsProjectId(id) || area !in names || !work.JObject? then None
    else
      match (NormalText(intent), NormalStatus(status), OptionalText(note))
      case (Some(text), Some(s), Some(n)) =>
        if GoodWork(env, id, text, work.fields) then Some(Project(id, text, s, n, area, work.fields)) else None
      case _ => None
  }

  function NormalProject(env: Env, fields: Fields, names: set<string>): (r: Option<Project>)
    ensures r.Some? ==> GoodProject(env, r.value, names) && r.value.id == StrOr(env, Get(fields, IdKey), "")
  {
    ProjectOf(env, names, StrOr(env, Get(fields, IdKey), ""), Get(fields, IntentKey),
              StrOr(env, Get(fields, StatusKey), "active"),
              Get(fields, NoteKey), StrOr(env, Get(fields, AreaKey), ""), Get(fields, WorkKey))
  }

  function ShownProject(p: Project): Fields {
    map[IdKey := JText(p.id), IntentKey := JText(p.intent), StatusKey := JText(StatusText(p.status)),
        NoteKey := ShownOption(p.note), AreaKey := JText(p.area), WorkKey := JObject(p.work)]
  }

  lemma ShownFields(p: Project)
    ensures var f := ShownProject(p);
            && Get(f, IdKey) == JText(p.id) && Get(f, IntentKey) == JText(p.intent)
            && Get(f, StatusKey) == JText(StatusText(p.status))
            && Get(f, NoteKey) == ShownOption(p.note) && Get(f, AreaKey) == JText(p.area)
            && Get(f, WorkKey) == JObject(p.work)
  {
  }

  lemma TextIsItself(env: Env, s: string, default: string)
    requires Faithful(env) && s != ""
    ensures StrOr(env, JText(s), default) == s
  {
  }

  lemma StatusIsSaid(s: Status)
    ensures StatusText(s) != ""
  {
  }

  /** A kept project comes back unchanged, or is refused because its area is gone. */
  lemma ProjectAgain(env: Env, p: Project, before: set<string>, names: set<string>)
    requires Faithful(env) && GoodProject(env, p, before) && "" !in before
    ensures NormalProject(env, ShownProject(p), names) == if p.area in names then Some(p) else None
  {
    ShownFields(p);
    StatusIsSaid(p.status);
    TextIsItself(env, p.id, "");
    TextIsItself(env, p.area, "");
    TextIsItself(env, StatusText(p.status), "active");
    OptionalAgain(p.note);
  }

  /** The check of one item of the project list. */
  function ItemCheck(env: Env, names: set<string>): Json -> Option<Project> {
    (j: Json) => if j.JObject? then NormalProject(env, j.fields, names) else None
  }

  function ShownItem(p: Project): Json {
    JObject(ShownProject(p))
  }

  predicate GoodProjects(env: Env, projects: seq<Project>, names: set<string>) {
    forall i :: 0 <= i < |projects| ==> GoodProject(env, projects[i], names)
  }

  predicate AreasNamed(projects: seq<Project>, names: set<string>) {
    forall i :: 0 <= i < |projects| ==> projects[i].area in names
  }

  /** Kept projects come back unchanged, or are refused because an area is gone. */
  lemma ProjectsAgain(env: Env, projects: seq<Project>, before: set<string>, names: set<string>)
    requires Faithful(env) && GoodProjects(env, projects, before) && "" !in before
    ensures AllOf(Mapped(projects, ShownItem), ItemCheck(env, names))
            == if AreasNamed(projects, names) then Some(projects) else None
  {
    var (items, check) := (Mapped(projects, ShownItem), ItemCheck(env, names));
    forall i | 0 <= i < |projects|
      ensures check(items[i]) == if projects[i].area in names then Some(projects[i]) else None
    {
      ProjectAgain(env, projects[i], before, names);
    }
    if AreasNamed(projects, names) {
      MappedBack(projects, ShownItem, check);
    }
  }

  // -- the profile ------------------------------------------------------------------------------------------------

  /** A field that may be missing: missing, in normal form or refused (None). */
  function Optional<T>(j: Json, normal: Json -> Option<T>): (r: Option<Option<T>>)
    ensures r.Some? && r.value.Some? ==> normal(j) == r.value
    ensures r.None? ==> normal(j).None?
    ensures r == Some(None) <==> j == JNull
  {
    if j == JNull then Some(None) else if normal(j).Some? then Some(normal(j)) else None
  }

  function ShownIf<T>(o: Option<T>, shown: T -> Json): Json {
    if o.Some? then shown(o.value) else JNull
  }

  function NormalRelationships(j: Json): (r: Option<seq<Relationship>>)
    ensures r.Some? ==> GoodRelationships(r.value)
  {
    if j.JList? && |j.items| <= MAX_RELATIONSHIPS then AllOf(j.items, NormalRelationship) else None
  }

  function ShownRelationships(rows: seq<Relationship>): Json {
    JList(Mapped(rows, ShownRelationship))
  }

  /** The check of the whole project list. */
  function ListCheck(env: Env, names: set<string>): Json -> Option<seq<Project>> {
    (j: Json) => if j.JList? then AllOf(j.items, ItemCheck(env, names)) else None
  }

  function ShownProjects(projects: seq<Project>): Json {
    JList(Mapped(projects, ShownItem))
  }

  function NamesOf(mine: Option<Mine>): set<string> {
    if mine.Some? then Names(mine.value.areas) else {}
  }

  predicate GoodHome(h: Home) {
    CleanOption(h.dimension) && CleanOption(h.note)
  }

  /** A profile in normal form: every project names one of its areas. */
  predicate Good(env: Env, p: Profile) {
    && (p.home.Some? ==> GoodHome(p.home.value))
    && (p.mine.Some? ==> GoodMine(p.mine.value))
    && CleanOption(p.routine) && CleanOption(p.personality)
    && (p.relationships.Some? ==> GoodRelationships(p.relationships.value))
    && (p.projects.Some? ==> GoodProjects(env, p.projects.value, NamesOf(p.mine)))
  }

  function ProfileOf(env: Env, home: Json, mine: Json, routine: Json, personality: Json, relationships: Json,
                     projects: Json): (r: Option<Profile>)
  {
    match (Optional(home, NormalHome), Optional(mine, NormalMine), OptionalText(routine), OptionalText(personality),
           Optional(relationships, NormalRelationships))
    case (Some(h), Some(m), Some(r), Some(p), Some(rs)) =>
      (match Optional(projects, ListCheck(env, NamesOf(m)))
       case Some(ps) => Some(Profile(h, m, r, p, rs, ps))
       case None => None)
    case _ => None
  }

  function NormalProfile(env: Env, fields: Fields): Option<Profile> {
    ProfileOf(env, Get(fields, HomeKey), Get(fields, MineKey), Get(fields, RoutineKey), Get(fields, PersonalityKey),
              Get(fields, RelationshipsKey), Get(fields, ProjectsKey))
  }

  function Shown(p: Profile): Fields {
    map[HomeKey := ShownIf(p.home, ShownHome), MineKey := ShownIf(p.mine, ShownMine),
        RoutineKey := ShownOption(p.routine),
        PersonalityKey := ShownOption(p.personality), RelationshipsKey := ShownIf(p.relationships, ShownRelationships),
        ProjectsKey := ShownIf(p.projects, ShownProjects)]
  }

  lemma NormalProfileIsGood(env: Env, fields: Fields)
    ensures NormalProfile(env, fields).Some? ==> Good(env, NormalProfile(env, fields).value)
  {
    var r := NormalProfile(env, fields);
    if r.Some? && r.value.projects.Some? {
      var (items, names) := (Get(fields, ProjectsKey), NamesOf(r.value.mine));
      assert ListCheck(env, names)(items) == r.value.projects;
    }
  }

  lemma ShownProfileFields(p: Profile)
    ensures var f := Shown(p);
            && Get(f, HomeKey) == ShownIf(p.home, ShownHome) && Get(f, MineKey) == ShownIf(p.mine, ShownMine)
            && Get(f, RoutineKey) == ShownOption(p.routine) && Get(f, PersonalityKey) == ShownOption(p.personality)
            && Get(f, RelationshipsKey) == ShownIf(p.relationships, ShownRelationships)
            && Get(f, ProjectsKey) == ShownIf(p.projects, ShownProjects)
  {
  }

  lemma HomeAgain(h: Home)
    requires GoodHome(h)
    ensures NormalHome(ShownHome(h)) == Some(h)
  {
  }

  lemma NamesAreNotEmpty(mine: Option<Mine>)
    requires mine.Some? ==> GoodMine(mine.value)
    ensures "" !in NamesOf(mine)
  {
    assert mine.Some? ==> forall i :: 0 <= i < |mine.value.areas| ==> GoodArea(mine.value.areas[i]);
  }

  /** The rest of a profile in normal form, read back with any list of projects. */
  lemma RestAgain(env: Env, p: Profile)
    requires Good(env, p)
    ensures Optional(ShownIf(p.home, ShownHome), NormalHome) == Some(p.home)
    ensures Optional(ShownIf(p.mine, ShownMine), NormalMine) == Some(p.mine)
    ensures OptionalText(ShownOption(p.routine)) == Some(p.routine)
    ensures OptionalText(ShownOption(p.personality)) == Some(p.personality)
    ensures Optional(ShownIf(p.relationships, ShownRelationships), NormalRelationships) == Some(p.relationships)
  {
    if p.home.Some? {
      HomeAgain(p.home.value);
    }
    if p.mine.Some? {
      MineAgain(p.mine.value);
    }
    if p.relationships.Some? {
      RelationshipsAgain(p.relationships.value);
    }
    OptionalAgain(p.routine);
    OptionalAgain(p.personality);
  }

  /** Kept projects against the areas of another profile. */
  lemma ProjectListAgain(env: Env, projects: Option<seq<Project>>, before: set<string>, names: set<string>)
    requires Faithful(env) && "" !in before
    requires projects.Some? ==> GoodProjects(env, projects.value, before)
    ensures Optional(ShownIf(projects, ShownProjects), ListCheck(env, names))
            == if projects.Some? && !AreasNamed(projects.value, names) then None else Some(projects)
  {
    if projects.Some? {
      ProjectsAgain(env, projects.value, before, names);
    }
  }

  /** The normal forms are exactly the fixed points of the shape check. */
  lemma FixedPointIff(env: Env, p: Profile)
    requires Faithful(env)
    ensures Good(env, p) <==> NormalProfile(env, Shown(p)) == Some(p)
  {
    if Good(env, p) {
      ShownProfileFields(p);
      RestAgain(env, p);
      NamesAreNotEmpty(p.mine);
      ProjectListAgain(env, p.projects, NamesOf(p.mine), NamesOf(p.mine));
    }
    NormalProfileIsGood(env, Shown(p));
  }

  /** What a profile that passed the check can be relied on for: no two of its areas share a
      name, every project is for one of them and has a plan that states its intent, and
      the lists keep to their limits. */
  lemma NormalProfileMeans(env: Env, fields: Fields)
    requires NormalProfile(env, fields).Some?
    ensures var p := NormalProfile(env, fields).value;
            && (p.mine.Some? ==> MineMeans(p.mine.value)) && (p.relationships.Some? ==> |p.relationships.value| <= 20)
            && (p.projects.Some? ==> forall q :: q in p.projects.value ==> ProjectMeans(env, p, q))
  {
    NormalProfileIsGood(env, fields);
    var p := NormalProfile(env, fields).value;
    if p.mine.Some? {
      OnceEach(p.mine.value.areas);
    }
    if p.projects.Some? {
      forall q | q in p.projects.value ensures ProjectMeans(env, p, q) {
        var i :| 0 <= i < |p.projects.value| && p.projects.value[i] == q;
        GoodProjectMeans(env, p, q);
      }
    }
  }

  predicate MineMeans(m: Mine) {
    && |m.areas| <= 16 && |m.containers| <= 32 && multiset(m.areas) <= multiset(set a | a in m.areas)
    && forall a, b :: a in m.areas && b in m.areas && a.name == b.name ==> a == b
  }

  predicate ProjectMeans(env: Env, p: Profile, q: Project) {
    && p.mine.Some? && (exists a :: a in p.mine.value.areas && a.name == q.area)
    && env.validPlan(q.id, q.intent, q.work) && Strip(StrOr(env, Get(q.work, IntentKey), "")) != ""
  }

  lemma GoodProjectMeans(env: Env, p: Profile, q: Project)
    requires GoodProject(env, q, NamesOf(p.mine))
    ensures ProjectMeans(env, p, q)
  {
    var k :| 0 <= k < |p.mine.value.areas| && p.mine.value.areas[k].name == q.area;
    assert p.mine.value.areas[k] in p.mine.value.areas;
  }

  lemma {:induction false} OnceEach(areas: seq<Area>)
    requires Distinct(areas)
    ensures multiset(areas) <= multiset(set a | a in areas)
  {
    if areas != [] {
      var n := |areas| - 1;
      OnceEach(areas[..n]);
      assert areas == areas[..n] + [areas[n]];
      assert areas[n] !in areas[..n];
      assert (set a | a in areas) == (set a | a in areas[..n]) + {areas[n]};
    }
  }

  /** Areas and containers the Agent calls its own: which submissions pass. */
  lemma MineIff(j: Json)
    ensures NormalMine(j).Some?
            <==> && j.JObject? && ListOrEmpty(Get(j.fields, AreasKey)).Some?
                 && ListOrEmpty(Get(j.fields, ContainersKey)).Some?
                 && var (areas, containers) := (ListOrEmpty(Get(j.fields, AreasKey)).value,
                                                ListOrEmpty(Get(j.fields, ContainersKey)).value);
                    && |areas| <= 16 && |containers| <= 32
                    && (forall i :: 0 <= i < |areas| ==> NormalArea(areas[i]).Some?)
                    && (forall i :: 0 <= i < |containers| ==> NormalPoint(containers[i]).Some?)
                    && (forall i, k :: 0 <= i < k < |areas| ==>
                          NormalArea(areas[i]).value.name != NormalArea(areas[k]).value.name)
  {
  }

  /** So checking a profile that passed the check once changes nothing. */
  lemma NormalProfileIsIdempotent(env: Env, fields: Fields)
    requires Faithful(env) && NormalProfile(env, fields).Some?
    ensures NormalProfile(env, Shown(NormalProfile(env, fields).value)) == NormalProfile(env, fields)
  {
    NormalProfileIsGood(env, fields);
    FixedPointIff(env, NormalProfile(env, fields).value);
  }
}
