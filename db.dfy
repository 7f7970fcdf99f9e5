/** The tables of `app/models/models.py` that the handlers read and write, and the cookie
    session of the web application. Each record datatype holds a table's columns other
    than the primary key, the owner and `order`; a nullable column is an `Option`. */
module Db {
  import opened Base
  import opened Tables

  /** A `users` row (`username` and `email` are unique columns). */
  datatype User = User(id: nat, username: string, email: string)

  datatype Profile = Profile(
    fullName: Option<string>, email: Option<string>, phone: Option<string>,
    location: Option<string>, linkedin: Option<string>, github: Option<string>,
    portfolio: Option<string>, summary: Option<string>,
    languages: Option<string>, hobbies: Option<string>, selectedTemplate: Option<string>)

  /** A new `UserProfile(user_id=...)` once committed: every column null except the
      template, whose column default is "professional". */
  const EmptyProfile := Profile(None, None, None, None, None, None, None, None, None, None, Some("professional"))

  /** The seven personal-information columns, in the order of the fragment schema. */
  function PersonalFields(p: Profile): (r: seq<Option<string>>)
    ensures |r| == 7
  {
    [p.fullName, p.email, p.phone, p.location, p.linkedin, p.github, p.portfolio]
  }

  /** `setattr(profile, key, v)` for the `k`-th personal-information column. */
  function WithPersonalField(p: Profile, k: nat, v: Option<string>): (r: Profile)
    requires k < 7
    ensures PersonalFields(r) == PersonalFields(p)[k := v]
    ensures r.summary == p.summary && r.languages == p.languages && r.hobbies == p.hobbies
    ensures r.selectedTemplate == p.selectedTemplate
  {
    if k == 0 then p.(fullName := v)
    else if k == 1 then p.(email := v)
    else if k == 2 then p.(phone := v)
    else if k == 3 then p.(location := v)
    else if k == 4 then p.(linkedin := v)
    else if k == 5 then p.(github := v)
    else p.(portfolio := v)
  }

  /** Two profiles with the same personal columns and the same other columns are equal. */
  lemma ProfileByFields(p: Profile, q: Profile)
    requires PersonalFields(p) == PersonalFields(q)
    requires p.summary == q.summary && p.languages == q.languages && p.hobbies == q.hobbies
    requires p.selectedTemplate == q.selectedTemplate
    ensures p == q
  {
    assert PersonalFields(p)[0] == PersonalFields(q)[0];
    assert PersonalFields(p)[1] == PersonalFields(q)[1];
    assert PersonalFields(p)[2] == PersonalFields(q)[2];
    assert PersonalFields(p)[3] == PersonalFields(q)[3];
    assert PersonalFields(p)[4] == PersonalFields(q)[4];
    assert PersonalFields(p)[5] == PersonalFields(q)[5];
    assert PersonalFields(p)[6] == PersonalFields(q)[6];
  }

  datatype Experience = Experience(
    title: Option<string>, company: Option<string>, location: Option<string>,
    startDate: Option<string>, endDate: Option<string>, isCurrent: Option<bool>,
    description: Option<string>, achievements: Option<seq<string>>)

  datatype Education = Education(
    degree: Option<string>, institution: Option<string>, location: Option<string>,
    graduationDate: Option<string>, gpa: Option<string>)

  datatype Skill = Skill(category: Option<string>, skills: Option<seq<string>>)

  datatype Project = Project(
    name: Option<string>, description: Option<string>, date: Option<string>,
    url: Option<string>, technologies: Option<seq<string>>)

  /** A `resume_history` row; `createdAt` stands for its creation timestamp. */
  datatype ResumeEntry = ResumeEntry(
    title: Option<string>, templateUsed: Option<string>, filePath: Option<string>,
    isFavorite: bool, notes: Option<string>, createdAt: int)

  /** A `saved_jobs` row; `appliedDate` and `createdAt` stand for timestamps. */
  datatype SavedJob = SavedJob(
    title: Option<string>, company: Option<string>, location: Option<string>,
    url: Option<string>, remote: Option<bool>, description: Option<string>,
    source: Option<string>, status: Option<string>, appliedDate: Option<int>,
    notes: Option<string>, createdAt: int)

  /** The profile part of the database: what the chat merge reads and writes. */
  datatype ProfileTables = ProfileTables(
    profiles: map<nat, Profile>,
    experiences: seq<Row<Ordered<Experience>>>,
    education: seq<Row<Ordered<Education>>>,
    skills: seq<Row<Ordered<Skill>>>,
    projects: seq<Row<Ordered<Project>>>)
  {
    predicate Valid() {
      UniqueIds(experiences) && UniqueIds(education) && UniqueIds(skills) && UniqueIds(projects)
    }
  }

  predicate UniqueUsers(users: seq<User>) {
    forall i, j | 0 <= i < j < |users| ::
      users[i].id != users[j].id && users[i].email != users[j].email && users[i].username != users[j].username
  }

  /** The whole database as a value: what a handler's effect is stated on. */
  datatype DbState = DbState(
    users: seq<User>, profiles: map<nat, Profile>,
    experiences: seq<Row<Ordered<Experience>>>, education: seq<Row<Ordered<Education>>>,
    skills: seq<Row<Ordered<Skill>>>, projects: seq<Row<Ordered<Project>>>,
    resumes: seq<Row<ResumeEntry>>, savedJobs: seq<Row<SavedJob>>)

  /** The committed state of the SQLite database. `profiles` maps a user id to that user's
      single `user_profiles` row (`user_id` is unique there). */
  class Database {
    var users: seq<User>
    var profiles: map<nat, Profile>
    var experiences: seq<Row<Ordered<Experience>>>
    var education: seq<Row<Ordered<Education>>>
    var skills: seq<Row<Ordered<Skill>>>
    var projects: seq<Row<Ordered<Project>>>
    var resumes: seq<Row<ResumeEntry>>
    var savedJobs: seq<Row<SavedJob>>

    /** The key and uniqueness constraints of the schema. */
    ghost predicate Valid()
      reads this
    {
      UniqueUsers(users) && Tables().Valid() && UniqueIds(resumes) && UniqueIds(savedJobs)
    }

    function Tables(): ProfileTables
      reads this
    {
      ProfileTables(profiles, experiences, education, skills, projects)
    }

    function State(): DbState
      reads this
    {
      DbState(users, profiles, experiences, education, skills, projects, resumes, savedJobs)
    }

    constructor ()
      ensures Valid()
      ensures users == [] && profiles == map[] && experiences == [] && education == []
      ensures skills == [] && projects == [] && resumes == [] && savedJobs == []
    {
      users := [];
      profiles := map[];
      experiences := [];
      education := [];
      skills := [];
      projects := [];
      resumes := [];
      savedJobs := [];
    }
  }

  /** The `user` entry of the session cookie; `name` is None when the entry has no such key. */
  datatype SessionUser = SessionUser(id: string, name: Option<string>, email: string, picture: string)

  /** The session dictionary: its `user` and `selected_template` keys. */
  datatype SessionData = SessionData(user: Option<SessionUser>, selectedTemplate: Option<string>)

  const EmptySession := SessionData(None, None)

  /** The signed-cookie session of one browser (`request.session`). */
  class Session {
    var data: SessionData

    constructor ()
      ensures data == EmptySession
    {
      data := EmptySession;
    }
  }
}
