/** `app/api/endpoints/profile.py`: the lookup of the signed-in user, the profile page, the
    partial profile update, the create, update and delete endpoints of the four record
    kinds, and the resume history. Every handler first resolves the caller with
    `get_current_user_id`, which may create the caller's `users` row; that row is committed
    before the handler goes on, so it stays even when the handler then answers 404. */
module Profiles {
  import opened Base
  import opened Text
  import opened Tables
  import opened Db

  // ---- get_current_user_id ----

  const NotAuthenticated := HttpError(401, "Not authenticated")

  /** An exception no handler catches (here the unique-constraint failure of an insert):
      the server answers with a 500. */
  const InternalError := HttpError(500, "Internal Server Error")

  /** Position of the first user at or after `from` with this email. */
  function FindUserFrom(users: seq<User>, email: string, from: nat): (r: Option<nat>)
    decreases |users| - from
    ensures r.Some? ==> from <= r.value < |users| && users[r.value].email == email
    ensures r.Some? ==> forall j | from <= j < r.value :: users[j].email != email
    ensures r.None? ==> forall j | from <= j < |users| :: users[j].email != email
  {
    if from >= |users| then None
    else if users[from].email == email then Some(from)
    else FindUserFrom(users, email, from + 1)
  }

  /** `db.query(User).filter(User.email == email).first()`, as a position. */
  function FindUser(users: seq<User>, email: string): (r: Option<nat>)
    ensures r.Some? ==> r.value < |users| && users[r.value].email == email
    ensures r.None? <==> forall j | 0 <= j < |users| :: users[j].email != email
  {
    FindUserFrom(users, email, 0)
  }

  function MaxUserId(users: seq<User>): (m: nat)
    ensures forall i | 0 <= i < |users| :: users[i].id <= m
  {
    if users == [] then 0
    else
      var m := MaxUserId(users[..|users| - 1]);
      if users[|users| - 1].id <= m then m else users[|users| - 1].id
  }

  /** `user_data.get("name", email.split('@')[0])` */
  function NewUsername(u: SessionUser): string {
    u.name.GetOr(Before(u.email, "@"))
  }

  predicate NameTaken(users: seq<User>, name: string) {
    exists i | 0 <= i < |users| :: users[i].username == name
  }

  /** The users table after the lookup, and the caller's id. */
  datatype Caller = Caller(users: seq<User>, id: nat)

  /** `get_current_user_id`: 401 without a session user; the user with the session email
      when there is one; otherwise a new user named after the session (an insert that fails
      when another user already has that name, `username` being a unique column). */
  function CurrentUser(users: seq<User>, session: SessionData): (r: Result<Caller, HttpError>)
    ensures session.user.None? ==> r == Err(NotAuthenticated)
    ensures r.Err? <==> (session.user.None? ||
      (FindUser(users, session.user.value.email).None? && NameTaken(users, NewUsername(session.user.value))))
    ensures r.Err? ==> r.error == NotAuthenticated || r.error == InternalError
    ensures r.Ok? && session.user.Some? && FindUser(users, session.user.value.email).Some? ==>
      r.value == Caller(users, users[FindUser(users, session.user.value.email).value].id)
    ensures r.Ok? && session.user.Some? && FindUser(users, session.user.value.email).None? ==>
      && r.value.users == users + [User(r.value.id, NewUsername(session.user.value), session.user.value.email)]
      && forall i | 0 <= i < |users| :: users[i].id < r.value.id
    ensures r.Ok? && UniqueUsers(users) ==> UniqueUsers(r.value.users)
  {
    match session.user
    case None => Err(NotAuthenticated)
    case Some(u) =>
      match FindUser(users, u.email)
      case Some(i) => Ok(Caller(users, users[i].id))
      case None =>
        var name := NewUsername(u);
        if NameTaken(users, name) then Err(InternalError)
        else
          var id := MaxUserId(users) + 1;
          var r := users + [User(id, name, u.email)];
          assert forall i | 0 <= i < |users| :: r[i] == users[i];
          Ok(Caller(r, id))
  }

  lemma {:induction false} FindUserAfter(users: seq<User>, x: User, from: nat)
    requires from <= |users|
    requires forall j | from <= j < |users| :: users[j].email != x.email
    ensures FindUserFrom(users + [x], x.email, from) == Some(|users|)
    decreases |users| - from
  {
    if from < |users| {
      FindUserAfter(users, x, from + 1);
    }
  }

  /** The lookup settles: asking again with the table it left gives the same caller and
      creates nothing. */
  lemma CurrentUserSettles(users: seq<User>, session: SessionData)
    requires CurrentUser(users, session).Ok?
    ensures var c := CurrentUser(users, session).value; CurrentUser(c.users, session) == Ok(c)
  {
    var u := session.user.value;
    var c := CurrentUser(users, session).value;
    if FindUser(users, u.email).None? {
      FindUserAfter(users, User(c.id, NewUsername(u), u.email), 0);
    }
  }

  /** The caller's row exists after a successful lookup and carries the session email. */
  lemma CallerHasSessionEmail(users: seq<User>, session: SessionData)
    requires CurrentUser(users, session).Ok?
    ensures var c := CurrentUser(users, session).value;
      exists i | 0 <= i < |c.users| :: c.users[i].id == c.id && c.users[i].email == session.user.value.email
  {
    var c := CurrentUser(users, session).value;
    match FindUser(users, session.user.value.email)
    case Some(i) => assert c.users[i].id == c.id;
    case None => assert c.users[|users|].id == c.id;
  }

  method GetCurrentUserId(db: Database, session: Session) returns (r: Result<nat, HttpError>)
    requires db.Valid()
    modifies db
    ensures db.Valid()
    ensures var c := CurrentUser(old(db.users), session.data);
      && (c.Err? ==> r == Err(c.error) && db.State() == old(db.State()))
      && (c.Ok? ==> r == Ok(c.value.id) && db.State() == old(db.State()).(users := c.value.users))
  {
    var c := CurrentUser(db.users, session.data);
    if c.Err? {
      return Err(c.error);
    }
    db.users := c.value.users;
    r := Ok(c.value.id);
  }

  // ---- get_profile ----

  /** `UserProfile(user_id=...)` is added when the user has none. */
  function WithProfile(profiles: map<nat, Profile>, user: nat): (r: map<nat, Profile>)
    ensures r.Keys == profiles.Keys + {user}
    ensures r[user] == if user in profiles then profiles[user] else EmptyProfile
    ensures forall u | u in profiles :: r[u] == profiles[u]
  {
    if user in profiles then profiles else profiles[user := EmptyProfile]
  }

  function OrderOf<T>(row: Row<Ordered<T>>): int {
    row.data.order
  }

  function ShowRow<T>(row: Row<Ordered<T>>, show: T -> T): Row<Ordered<T>> {
    row.(data := row.data.(record := show(row.data.record)))
  }

  /** The user's rows ordered by `order` (`filter(X.user_id == user_id).order_by(X.order)`),
      each shown through `show`. */
  function Listing<T(!new)>(rows: seq<Row<Ordered<T>>>, user: nat, show: T -> T): seq<Row<Ordered<T>>> {
    var sorted := SortBy(Owned(rows, user), OrderOf);
    seq(|sorted|, i requires 0 <= i < |sorted| => ShowRow(sorted[i], show))
  }

  /** A listing shows every row of the user, and only those, in `order` order. */
  lemma ListingFacts<T(!new)>(rows: seq<Row<Ordered<T>>>, user: nat, show: T -> T)
    ensures var l := Listing(rows, user, show);
      && |l| == |Owned(rows, user)|
      && (forall i, j | 0 <= i < j < |l| :: l[i].data.order <= l[j].data.order)
      && (forall x | x in Owned(rows, user) :: ShowRow(x, show) in l)
      && (forall i | 0 <= i < |l| :: exists x | x in Owned(rows, user) :: l[i] == ShowRow(x, show))
  {
    var owned := Owned(rows, user);
    var sorted := SortBy(owned, OrderOf);
    var l := Listing(rows, user, show);
    assert forall i | 0 <= i < |l| :: l[i] == ShowRow(sorted[i], show);
    ListingFrom(owned, sorted, l, show);
    ListingCovers(owned, sorted, l, show);
  }

  lemma ListingCovers<T(!new)>(owned: seq<Row<Ordered<T>>>, sorted: seq<Row<Ordered<T>>>, l: seq<Row<Ordered<T>>>, show: T -> T)
    requires multiset(sorted) == multiset(owned)
    requires |l| == |sorted| && forall i | 0 <= i < |l| :: l[i] == ShowRow(sorted[i], show)
    ensures forall x | x in owned :: ShowRow(x, show) in l
  {
    forall x | x in owned ensures ShowRow(x, show) in l {
      assert x in multiset(sorted);
      var k :| 0 <= k < |sorted| && sorted[k] == x;
      assert l[k] == ShowRow(x, show);
    }
  }

  lemma ListingFrom<T(!new)>(owned: seq<Row<Ordered<T>>>, sorted: seq<Row<Ordered<T>>>, l: seq<Row<Ordered<T>>>, show: T -> T)
    requires multiset(sorted) == multiset(owned) && SortedBy(sorted, OrderOf)
    requires |l| == |sorted| && forall i | 0 <= i < |l| :: l[i] == ShowRow(sorted[i], show)
    ensures |l| == |owned|
    ensures forall i, j | 0 <= i < j < |l| :: l[i].data.order <= l[j].data.order
    ensures forall i | 0 <= i < |l| :: exists x | x in owned :: l[i] == ShowRow(x, show)
  {
    assert |multiset(sorted)| == |multiset(owned)|;
    forall i | 0 <= i < |l| ensures exists x | x in owned :: l[i] == ShowRow(x, show) {
      assert sorted[i] in multiset(sorted);
    }
  }

  /** The JSON list columns are shown as `[]` when null. */
  function ShowExperience(e: Experience): Experience { e.(achievements := Some(e.achievements.GetOr([]))) }
  function ShowEducation(e: Education): Education { e }
  function ShowSkill(s: Skill): Skill { s.(skills := Some(s.skills.GetOr([]))) }
  function ShowProject(p: Project): Project { p.(technologies := Some(p.technologies.GetOr([]))) }

  /** The answer of `GET /profile/`: the profile's shown columns and the four listings. */
  datatype ProfileView = ProfileView(
    personal: seq<Option<string>>, summary: Option<string>, selectedTemplate: Option<string>,
    experiences: seq<Row<Ordered<Experience>>>, education: seq<Row<Ordered<Education>>>,
    skills: seq<Row<Ordered<Skill>>>, projects: seq<Row<Ordered<Project>>>)

  function ProfilePage(s: DbState, user: nat): ProfileView
    requires user in s.profiles
  {
    var p := s.profiles[user];
    ProfileView(PersonalFields(p), p.summary, p.selectedTemplate,
      Listing(s.experiences, user, ShowExperience), Listing(s.education, user, ShowEducation),
      Listing(s.skills, user, ShowSkill), Listing(s.projects, user, ShowProject))
  }

  /** No list of the page is null, and a stored list is shown as stored. */
  lemma ProfilePageLists(s: DbState, user: nat)
    requires user in s.profiles
    ensures var v := ProfilePage(s, user);
      && (forall i | 0 <= i < |v.experiences| :: v.experiences[i].data.record.achievements.Some?)
      && (forall i | 0 <= i < |v.skills| :: v.skills[i].data.record.skills.Some?)
      && (forall i | 0 <= i < |v.projects| :: v.projects[i].data.record.technologies.Some?)
      && (forall x | x in Owned(s.skills, user) && x.data.record.skills.Some? :: x in v.skills)
  {
    var v := ProfilePage(s, user);
    ListingFacts(s.experiences, user, ShowExperience);
    ListingFacts(s.skills, user, ShowSkill);
    ListingFacts(s.projects, user, ShowProject);
    forall x | x in Owned(s.skills, user) && x.data.record.skills.Some? ensures x in v.skills {
      assert ShowRow(x, ShowSkill) == x;
    }
  }

  method GetProfile(db: Database, session: Session) returns (r: Result<ProfileView, HttpError>)
    requires db.Valid()
    modifies db
    ensures db.Valid()
    ensures var c := CurrentUser(old(db.users), session.data);
      && (c.Err? ==> r == Err(c.error) && db.State() == old(db.State()))
      && (c.Ok? ==> db.State() == old(db.State()).(users := c.value.users, profiles := WithProfile(old(db.profiles), c.value.id))
                    && r == Ok(ProfilePage(db.State(), c.value.id)))
  {
    var login := GetCurrentUserId(db, session);
    if login.Err? {
      return Err(login.error);
    }
    var user := login.value;
    if user !in db.profiles {
      db.profiles := db.profiles[user := EmptyProfile];
    }
    r := Ok(ProfilePage(db.State(), user));
  }

  // ---- update_profile ----

  /** The body of `PUT /profile/`: each field unset, set to null, or set to a string. */
  datatype ProfileUpdate = ProfileUpdate(
    fullName: Field<string>, email: Field<string>, phone: Field<string>, location: Field<string>,
    linkedin: Field<string>, github: Field<string>, portfolio: Field<string>, summary: Field<string>)
  {
    /** The fields in declaration order, which is the order of `dict(exclude_unset=True)`. */
    function Fields(): (r: seq<Field<string>>)
      ensures |r| == 8
    {
      [fullName, email, phone, location, linkedin, github, portfolio, summary]
    }
  }

  /** The eight columns an update can write: the seven personal columns, then `summary`. */
  function Column(p: Profile, k: nat): Option<string>
    requires k < 8
  {
    if k < 7 then PersonalFields(p)[k] else p.summary
  }

  function WithColumn(p: Profile, k: nat, v: Option<string>): (r: Profile)
    requires k < 8
    ensures forall j | 0 <= j < 8 :: Column(r, j) == if j == k then v else Column(p, j)
    ensures r.languages == p.languages && r.hobbies == p.hobbies && r.selectedTemplate == p.selectedTemplate
  {
    if k < 7 then WithPersonalField(p, k, v) else p.(summary := v)
  }

  /** Two profiles that agree on the eight columns and on the other three are equal. */
  lemma ProfileByColumns(p: Profile, q: Profile)
    requires forall k | 0 <= k < 8 :: Column(p, k) == Column(q, k)
    requires p.languages == q.languages && p.hobbies == q.hobbies && p.selectedTemplate == q.selectedTemplate
    ensures p == q
  {
    assert Column(p, 7) == Column(q, 7);
    assert forall k | 0 <= k < 7 :: PersonalFields(p)[k] == Column(p, k);
    assert forall k | 0 <= k < 7 :: PersonalFields(q)[k] == Column(q, k);
    ProfileByFields(p, q);
  }

  /** The profile after the `setattr` loop has visited the first `n` fields. */
  function UpdatedTo(p: Profile, u: ProfileUpdate, n: nat): Profile
    requires n <= 8
  {
    if n == 0 then p
    else
      var q := UpdatedTo(p, u, n - 1);
      var f := u.Fields()[n - 1];
      if f.Absent? then q else WithColumn(q, n - 1, f.Get())
  }

  lemma {:induction false} UpdatedToColumns(p: Profile, u: ProfileUpdate, n: nat)
    requires n <= 8
    ensures var q := UpdatedTo(p, u, n);
      && (forall k | 0 <= k < 8 :: Column(q, k) == if k < n && !u.Fields()[k].Absent? then u.Fields()[k].Get() else Column(p, k))
      && q.languages == p.languages && q.hobbies == p.hobbies && q.selectedTemplate == p.selectedTemplate
  {
    if n > 0 {
      UpdatedToColumns(p, u, n - 1);
    }
  }

  /** `update_profile` on the stored profile. */
  function UpdatedProfile(p: Profile, u: ProfileUpdate): (r: Profile)
    ensures forall k | 0 <= k < 8 :: Column(r, k) == if u.Fields()[k].Absent? then Column(p, k) else u.Fields()[k].Get()
    ensures r.languages == p.languages && r.hobbies == p.hobbies && r.selectedTemplate == p.selectedTemplate
  {
    UpdatedToColumns(p, u, 8);
    UpdatedTo(p, u, 8)
  }

  /** Sending the same update twice changes nothing the first did not. */
  lemma UpdateProfileIdempotent(p: Profile, u: ProfileUpdate)
    ensures UpdatedProfile(UpdatedProfile(p, u), u) == UpdatedProfile(p, u)
  {
    ProfileByColumns(UpdatedProfile(UpdatedProfile(p, u), u), UpdatedProfile(p, u));
  }

  /** An update with no field set leaves the profile as it was. */
  lemma EmptyUpdateKeeps(p: Profile)
    ensures UpdatedProfile(p, ProfileUpdate(Absent, Absent, Absent, Absent, Absent, Absent, Absent, Absent)) == p
  {
    ProfileByColumns(UpdatedProfile(p, ProfileUpdate(Absent, Absent, Absent, Absent, Absent, Absent, Absent, Absent)), p);
  }

  method UpdateProfile(db: Database, session: Session, u: ProfileUpdate) returns (r: Result<(), HttpError>)
    requires db.Valid()
    modifies db
    ensures db.Valid()
    ensures var c := CurrentUser(old(db.users), session.data);
      && (c.Err? ==> r == Err(c.error) && db.State() == old(db.State()))
      && (c.Ok? ==> r == Ok(()) && db.State() == old(db.State()).(users := c.value.users,
            profiles := old(db.profiles)[c.value.id := UpdatedProfile(WithProfile(old(db.profiles), c.value.id)[c.value.id], u)]))
  {
    var login := GetCurrentUserId(db, session);
    if login.Err? {
      return Err(login.error);
    }
    var user := login.value;
    var p := if user in db.profiles then db.profiles[user] else EmptyProfile;
    ghost var p0 := p;
    var fields := u.Fields();
    var k := 0;
    while k < 8
      invariant 0 <= k <= 8
      invariant p == UpdatedTo(p0, u, k)
    {
      if !fields[k].Absent? {
        p := WithColumn(p, k, fields[k].Get());
      }
      k := k + 1;
    }
    db.profiles := db.profiles[user := p];
    r := Ok(());
  }

  // ---- The four record kinds ----

  /** The request bodies: the required fields are plain values. */
  datatype ExperienceCreate = ExperienceCreate(
    title: string, company: string, location: Option<string>, startDate: string, endDate: string,
    isCurrent: bool, description: Option<string>, achievements: seq<string>)

  datatype EducationCreate = EducationCreate(
    degree: string, institution: string, location: Option<string>, graduationDate: string, gpa: Option<string>)

  datatype SkillCreate = SkillCreate(category: string, skills: seq<string>)

  datatype ProjectCreate = ProjectCreate(
    name: string, description: string, date: Option<string>, url: Option<string>, technologies: seq<string>)

  function ExperienceOf(c: ExperienceCreate): Experience {
    Experience(Some(c.title), Some(c.company), c.location, Some(c.startDate), Some(c.endDate),
      Some(c.isCurrent), c.description, Some(c.achievements))
  }

  function EducationOf(c: EducationCreate): Education {
    Education(Some(c.degree), Some(c.institution), c.location, Some(c.graduationDate), c.gpa)
  }

  function SkillOf(c: SkillCreate): Skill {
    Skill(Some(c.category), Some(c.skills))
  }

  function ProjectOf(c: ProjectCreate): Project {
    Project(Some(c.name), Some(c.description), c.date, c.url, Some(c.technologies))
  }

  /** A change to the caller's row with key `id`; 404 with `missing` when the caller has no
      such row, in which case nothing changes. */
  function ChangeRow<T>(rows: seq<Row<T>>, id: nat, user: nat, f: T -> T, missing: string): (r: Result<seq<Row<T>>, HttpError>)
    ensures r.Err? <==> FindOwned(rows, id, user).None?
    ensures r.Err? ==> r.error == HttpError(404, missing)
    ensures r.Ok? ==> |r.value| == |rows|
    ensures r.Ok? ==> forall j | 0 <= j < |rows| :: r.value[j].id == rows[j].id && r.value[j].userId == rows[j].userId
    ensures r.Ok? ==> forall j | 0 <= j < |rows| && !(rows[j].id == id && rows[j].userId == user) :: r.value[j] == rows[j]
    ensures r.Ok? ==> var i := FindOwned(rows, id, user).value; r.value[i] == rows[i].(data := f(rows[i].data))
    ensures r.Ok? && UniqueIds(rows) ==> UniqueIds(r.value)
  {
    match UpdateOwned(rows, id, user, f)
    case None => Err(HttpError(404, missing))
    case Some(rs) => Ok(rs)
  }

  /** `db.delete` of the caller's row with key `id`; 404 with `missing` when there is none. */
  function RemoveRow<T(!new)>(rows: seq<Row<T>>, id: nat, user: nat, missing: string): (r: Result<seq<Row<T>>, HttpError>)
    ensures r.Err? <==> FindOwned(rows, id, user).None?
    ensures r.Err? ==> r.error == HttpError(404, missing)
    ensures r.Ok? ==> |r.value| == |rows| - 1
    ensures r.Ok? && UniqueIds(rows) ==> UniqueIds(r.value) && forall x :: x in r.value <==> x in rows && x.id != id
  {
    match DeleteOwned(rows, id, user)
    case None => Err(HttpError(404, missing))
    case Some(rs) => Ok(rs)
  }

  /** The `setattr` loop over every request field: the record is replaced, `order` is kept. */
  function Replace<T>(record: T): Ordered<T> -> Ordered<T> {
    (o: Ordered<T>) => Ordered(o.order, record)
  }

  /** Replacing a record twice with the same request is replacing it once. */
  lemma ReplaceIdempotent<T>(rows: seq<Row<Ordered<T>>>, id: nat, user: nat, record: T, missing: string)
    requires ChangeRow(rows, id, user, Replace(record), missing).Ok?
    ensures var once := ChangeRow(rows, id, user, Replace(record), missing).value;
      ChangeRow(once, id, user, Replace(record), missing) == Ok(once)
  {
    var once := ChangeRow(rows, id, user, Replace(record), missing).value;
    FindFromSameKeys(rows, once, id, user, 0);
    var twice := ChangeRow(once, id, user, Replace(record), missing).value;
    assert twice == once;
  }

  /** The reply of an update or delete endpoint. */
  function Outcome<T>(change: Result<seq<Row<T>>, HttpError>): Result<(), HttpError> {
    if change.Err? then Err(change.error) else Ok(())
  }

  /** The table after an update or delete endpoint. */
  function Applied<T>(rows: seq<Row<T>>, change: Result<seq<Row<T>>, HttpError>): seq<Row<T>> {
    if change.Err? then rows else change.value
  }

  method AddExperience(db: Database, session: Session, req: ExperienceCreate) returns (r: Result<nat, HttpError>)
    requires db.Valid()
    modifies db
    ensures db.Valid()
    ensures var c := CurrentUser(old(db.users), session.data);
      && (c.Err? ==> r == Err(c.error) && db.State() == old(db.State()))
      && (c.Ok? ==> r == Ok(NextId(old(db.experiences))) && db.State() == old(db.State()).(users := c.value.users,
            experiences := AddOrdered(old(db.experiences), c.value.id, ExperienceOf(req))))
  {
    var login := GetCurrentUserId(db, session);
    if login.Err? {
      return Err(login.error);
    }
    r := Ok(NextId(db.experiences));
    db.experiences := AddOrdered(db.experiences, login.value, ExperienceOf(req));
  }

  method UpdateExperience(db: Database, session: Session, id: nat, req: ExperienceCreate) returns (r: Result<(), HttpError>)
    requires db.Valid()
    modifies db
    ensures db.Valid()
    ensures var c := CurrentUser(old(db.users), session.data);
      && (c.Err? ==> r == Err(c.error) && db.State() == old(db.State()))
      && (c.Ok? ==> var change := ChangeRow(old(db.experiences), id, c.value.id, Replace(ExperienceOf(req)), "Experience not found");
            r == Outcome(change)
            && db.State() == old(db.State()).(users := c.value.users, experiences := Applied(old(db.experiences), change)))
  {
    var login := GetCurrentUserId(db, session);
    if login.Err? {
      return Err(login.error);
    }
    var change := ChangeRow(db.experiences, id, login.value, Replace(ExperienceOf(req)), "Experience not found");
    if change.Err? {
      return Err(change.error);
    }
    db.experiences := change.value;
    r := Ok(());
  }

  method DeleteExperience(db: Database, session: Session, id: nat) returns (r: Result<(), HttpError>)
    requires db.Valid()
    modifies db
    ensures db.Valid()
    ensures var c := CurrentUser(old(db.users), session.data);
      && (c.Err? ==> r == Err(c.error) && db.State() == old(db.State()))
      && (c.Ok? ==> var change := RemoveRow(old(db.experiences), id, c.value.id, "Experience not found");
            r == Outcome(change)
            && db.State() == old(db.State()).(users := c.value.users, experiences := Applied(old(db.experiences), change)))
  {
    var login := GetCurrentUserId(db, session);
    if login.Err? {
      return Err(login.error);
    }
    var change := RemoveRow(db.experiences, id, login.value, "Experience not found");
    if change.Err? {
      return Err(change.error);
    }
    db.experiences := change.value;
    r := Ok(());
  }

  method AddEducation(db: Database, session: Session, req: EducationCreate) returns (r: Result<nat, HttpError>)
    requires db.Valid()
    modifies db
    ensures db.Valid()
    ensures var c := CurrentUser(old(db.users), session.data);
      && (c.Err? ==> r == Err(c.error) && db.State() == old(db.State()))
      && (c.Ok? ==> r == Ok(NextId(old(db.education))) && db.State() == old(db.State()).(users := c.value.users,
            education := AddOrdered(old(db.education), c.value.id, EducationOf(req))))
  {
    var login := GetCurrentUserId(db, session);
    if login.Err? {
      return Err(login.error);
    }
    r := Ok(NextId(db.education));
    db.education := AddOrdered(db.education, login.value, EducationOf(req));
  }

  method UpdateEducation(db: Database, session: Session, id: nat, req: EducationCreate) returns (r: Result<(), HttpError>)
    requires db.Valid()
    modifies db
    ensures db.Valid()
    ensures var c := CurrentUser(old(db.users), session.data);
      && (c.Err? ==> r == Err(c.error) && db.State() == old(db.State()))
      && (c.Ok? ==> var change := ChangeRow(old(db.education), id, c.value.id, Replace(EducationOf(req)), "Education not found");
            r == Outcome(change)
            && db.State() == old(db.State()).(users := c.value.users, education := Applied(old(db.education), change)))
  {
    var login := GetCurrentUserId(db, session);
    if login.Err? {
      return Err(login.error);
    }
    var change := ChangeRow(db.education, id, login.value, Replace(EducationOf(req)), "Education not found");
    if change.Err? {
      return Err(change.error);
    }
    db.education := change.value;
    r := Ok(());
  }

  method DeleteEducation(db: Database, session: Session, id: nat) returns (r: Result<(), HttpError>)
    requires db.Valid()
    modifies db
    ensures db.Valid()
    ensures var c := CurrentUser(old(db.users), session.data);
      && (c.Err? ==> r == Err(c.error) && db.State() == old(db.State()))
      && (c.Ok? ==> var change := RemoveRow(old(db.education), id, c.value.id, "Education not found");
            r == Outcome(change)
            && db.State() == old(db.State()).(users := c.value.users, education := Applied(old(db.education), change)))
  {
    var login := GetCurrentUserId(db, session);
    if login.Err? {
      return Err(login.error);
    }
    var change := RemoveRow(db.education, id, login.value, "Education not found");
    if change.Err? {
      return Err(change.error);
    }
    db.education := change.value;
    r := Ok(());
  }

  method AddSkillCategory(db: Database, session: Session, req: SkillCreate) returns (r: Result<nat, HttpError>)
    requires db.Valid()
    modifies db
    ensures db.Valid()
    ensures var c := CurrentUser(old(db.users), session.data);
      && (c.Err? ==> r == Err(c.error) && db.State() == old(db.State()))
      && (c.Ok? ==> r == Ok(NextId(old(db.skills))) && db.State() == old(db.State()).(users := c.value.users,
            skills := AddOrdered(old(db.skills), c.value.id, SkillOf(req))))
  {
    var login := GetCurrentUserId(db, session);
    if login.Err? {
      return Err(login.error);
    }
    r := Ok(NextId(db.skills));
    db.skills := AddOrdered(db.skills, login.value, SkillOf(req));
  }

  method UpdateSkillCategory(db: Database, session: Session, id: nat, req: SkillCreate) returns (r: Result<(), HttpError>)
    requires db.Valid()
    modifies db
    ensures db.Valid()
    ensures var c := CurrentUser(old(db.users), session.data);
      && (c.Err? ==> r == Err(c.error) && db.State() == old(db.State()))
      && (c.Ok? ==> var change := ChangeRow(old(db.skills), id, c.value.id, Replace(SkillOf(req)), "Skill category not found");
            r == Outcome(change)
            && db.State() == old(db.State()).(users := c.value.users, skills := Applied(old(db.skills), change)))
  {
    var login := GetCurrentUserId(db, session);
    if login.Err? {
      return Err(login.error);
    }
    var change := ChangeRow(db.skills, id, login.value, Replace(SkillOf(req)), "Skill category not found");
    if change.Err? {
      return Err(change.error);
    }
    db.skills := change.value;
    r := Ok(());
  }

  method DeleteSkillCategory(db: Database, session: Session, id: nat) returns (r: Result<(), HttpError>)
    requires db.Valid()
    modifies db
    ensures db.Valid()
    ensures var c := CurrentUser(old(db.users), session.data);
      && (c.Err? ==> r == Err(c.error) && db.State() == old(db.State()))
      && (c.Ok? ==> var change := RemoveRow(old(db.skills), id, c.value.id, "Skill category not found");
            r == Outcome(change)
            && db.State() == old(db.State()).(users := c.value.users, skills := Applied(old(db.skills), change)))
  {
    var login := GetCurrentUserId(db, session);
    if login.Err? {
      return Err(login.error);
    }
    var change := RemoveRow(db.skills, id, login.value, "Skill category not found");
    if change.Err? {
      return Err(change.error);
    }
    db.skills := change.value;
    r := Ok(());
  }

  method AddProject(db: Database, session: Session, req: ProjectCreate) returns (r: Result<nat, HttpError>)
    requires db.Valid()
    modifies db
    ensures db.Valid()
    ensures var c := CurrentUser(old(db.users), session.data);
      && (c.Err? ==> r == Err(c.error) && db.State() == old(db.State()))
      && (c.Ok? ==> r == Ok(NextId(old(db.projects))) && db.State() == old(db.State()).(users := c.value.users,
            projects := AddOrdered(old(db.projects), c.value.id, ProjectOf(req))))
  {
    var login := GetCurrentUserId(db, session);
    if login.Err? {
      return Err(login.error);
    }
    r := Ok(NextId(db.projects));
    db.projects := AddOrdered(db.projects, login.value, ProjectOf(req));
  }

  method UpdateProject(db: Database, session: Session, id: nat, req: ProjectCreate) returns (r: Result<(), HttpError>)
    requires db.Valid()
    modifies db
    ensures db.Valid()
    ensures var c := CurrentUser(old(db.users), session.data);
      && (c.Err? ==> r == Err(c.error) && db.State() == old(db.State()))
      && (c.Ok? ==> var change := ChangeRow(old(db.projects), id, c.value.id, Replace(ProjectOf(req)), "Project not found");
            r == Outcome(change)
            && db.State() == old(db.State()).(users := c.value.users, projects := Applied(old(db.projects), change)))
  {
    var login := GetCurrentUserId(db, session);
    if login.Err? {
      return Err(login.error);
    }
    var change := ChangeRow(db.projects, id, login.value, Replace(ProjectOf(req)), "Project not found");
    if change.Err? {
      return Err(change.error);
    }
    db.projects := change.value;
    r := Ok(());
  }

  method DeleteProject(db: Database, session: Session, id: nat) returns (r: Result<(), HttpError>)
    requires db.Valid()
    modifies db
    ensures db.Valid()
    ensures var c := CurrentUser(old(db.users), session.data);
      && (c.Err? ==> r == Err(c.error) && db.State() == old(db.State()))
      && (c.Ok? ==> var change := RemoveRow(old(db.projects), id, c.value.id, "Project not found");
            r == Outcome(change)
            && db.State() == old(db.State()).(users := c.value.users, projects := Applied(old(db.projects), change)))
  {
    var login := GetCurrentUserId(db, session);
    if login.Err? {
      return Err(login.error);
    }
    var change := RemoveRow(db.projects, id, login.value, "Project not found");
    if change.Err? {
      return Err(change.error);
    }
    db.projects := change.value;
    r := Ok(());
  }

  // ---- Resume history ----

  /** `filter(ResumeHistory.user_id == user_id).order_by(ResumeHistory.created_at.desc())` */
  function NewestFirst(rows: seq<Row<ResumeEntry>>, user: nat): (r: seq<Row<ResumeEntry>>)
    ensures forall i, j | 0 <= i < j < |r| :: r[i].data.createdAt >= r[j].data.createdAt
    ensures multiset(r) == multiset(Owned(rows, user))
  {
    var key := (e: Row<ResumeEntry>) => -e.data.createdAt;
    var r := SortBy(Owned(rows, user), key);
    assert SortedBy(r, key);
    r
  }

  function ToggleFavorite(e: ResumeEntry): ResumeEntry {
    e.(isFavorite := !e.isFavorite)
  }

  const ResumeMissing := "Resume not found"

  /** Toggling the same resume twice restores the table. */
  lemma ToggleTwiceRestores(rows: seq<Row<ResumeEntry>>, id: nat, user: nat)
    requires ChangeRow(rows, id, user, ToggleFavorite, ResumeMissing).Ok?
    ensures var once := ChangeRow(rows, id, user, ToggleFavorite, ResumeMissing).value;
      ChangeRow(once, id, user, ToggleFavorite, ResumeMissing) == Ok(rows)
  {
    var once := ChangeRow(rows, id, user, ToggleFavorite, ResumeMissing).value;
    FindFromSameKeys(rows, once, id, user, 0);
    var twice := ChangeRow(once, id, user, ToggleFavorite, ResumeMissing).value;
    var i := FindOwned(rows, id, user).value;
    assert FindOwned(once, id, user) == Some(i);
    assert once[i] == rows[i].(data := ToggleFavorite(rows[i].data));
    assert twice[i] == once[i].(data := ToggleFavorite(once[i].data));
    assert twice[i] == rows[i];
    assert forall j | 0 <= j < |rows| :: twice[j] == rows[j];
    assert twice == rows;
  }

  /** `resume.notes = notes_data.notes` */
  function SetNotes(notes: string): ResumeEntry -> ResumeEntry {
    (e: ResumeEntry) => e.(notes := Some(notes))
  }

  method GetResumeHistory(db: Database, session: Session) returns (r: Result<seq<Row<ResumeEntry>>, HttpError>)
    requires db.Valid()
    modifies db
    ensures db.Valid()
    ensures var c := CurrentUser(old(db.users), session.data);
      && (c.Err? ==> r == Err(c.error) && db.State() == old(db.State()))
      && (c.Ok? ==> r == Ok(NewestFirst(old(db.resumes), c.value.id)) && db.State() == old(db.State()).(users := c.value.users))
  {
    var login := GetCurrentUserId(db, session);
    if login.Err? {
      return Err(login.error);
    }
    r := Ok(NewestFirst(db.resumes, login.value));
  }

  method DeleteResume(db: Database, session: Session, id: nat) returns (r: Result<(), HttpError>)
    requires db.Valid()
    modifies db
    ensures db.Valid()
    ensures var c := CurrentUser(old(db.users), session.data);
      && (c.Err? ==> r == Err(c.error) && db.State() == old(db.State()))
      && (c.Ok? ==> var change := RemoveRow(old(db.resumes), id, c.value.id, ResumeMissing);
            r == Outcome(change)
            && db.State() == old(db.State()).(users := c.value.users, resumes := Applied(old(db.resumes), change)))
  {
    var login := GetCurrentUserId(db, session);
    if login.Err? {
      return Err(login.error);
    }
    var change := RemoveRow(db.resumes, id, login.value, ResumeMissing);
    if change.Err? {
      return Err(change.error);
    }
    db.resumes := change.value;
    r := Ok(());
  }

  /** `toggle_favorite`; the answer carries the new flag. */
  method ToggleResumeFavorite(db: Database, session: Session, id: nat) returns (r: Result<bool, HttpError>)
    requires db.Valid()
    modifies db
    ensures db.Valid()
    ensures var c := CurrentUser(old(db.users), session.data);
      && (c.Err? ==> r == Err(c.error) && db.State() == old(db.State()))
      && (c.Ok? ==> var change := ChangeRow(old(db.resumes), id, c.value.id, ToggleFavorite, ResumeMissing);
            && db.State() == old(db.State()).(users := c.value.users, resumes := Applied(old(db.resumes), change))
            && (change.Err? ==> r == Err(change.error))
            && (change.Ok? ==> var i := FindOwned(old(db.resumes), id, c.value.id).value;
                  r == Ok(!old(db.resumes)[i].data.isFavorite)))
  {
    var login := GetCurrentUserId(db, session);
    if login.Err? {
      return Err(login.error);
    }
    var change := ChangeRow(db.resumes, id, login.value, ToggleFavorite, ResumeMissing);
    if change.Err? {
      return Err(change.error);
    }
    var i := FindOwned(db.resumes, id, login.value).value;
    db.resumes := change.value;
    r := Ok(db.resumes[i].data.isFavorite);
  }

  method UpdateResumeNotes(db: Database, session: Session, id: nat, notes: string) returns (r: Result<(), HttpError>)
    requires db.Valid()
    modifies db
    ensures db.Valid()
    ensures var c := CurrentUser(old(db.users), session.data);
      && (c.Err? ==> r == Err(c.error) && db.State() == old(db.State()))
      && (c.Ok? ==> var change := ChangeRow(old(db.resumes), id, c.value.id, SetNotes(notes), ResumeMissing);
            r == Outcome(change)
            && db.State() == old(db.State()).(users := c.value.users, resumes := Applied(old(db.resumes), change)))
  {
    var login := GetCurrentUserId(db, session);
    if login.Err? {
      return Err(login.error);
    }
    var change := ChangeRow(db.resumes, id, login.value, SetNotes(notes), ResumeMissing);
    if change.Err? {
      return Err(change.error);
    }
    db.resumes := change.value;
    r := Ok(());
  }
}
