/** `app/api/endpoints/templates.py`: the table of resume templates, their preview,
    and the template a user has selected. */
module Templates {
  import opened Base
  import opened Db
  import Profiles

  /** `TEMPLATE_NAMES`: template id to display name. */
  const TemplateNames: map<string, string> := map["professional" := "Professional"]
  /** The keys of `TemplateNames` in the dictionary's order. */
  const TemplateOrder: seq<string> := ["professional"]

  const DefaultTemplate := "professional"
  const FallbackDisplay := "Modern Clean"
  const NotFound := HttpError(404, "Template not found")
  const InvalidName := HttpError(400, "Invalid template name")

  datatype TemplateInfo = TemplateInfo(id: string, name: string, description: string)

  /** `list_templates`: one entry per template, in the dictionary's order. */
  function ListTemplates(): (r: seq<TemplateInfo>)
    ensures |r| == |TemplateNames|
    ensures forall i | 0 <= i < |r| ::
      (r[i].id in TemplateNames && r[i].name == TemplateNames[r[i].id] && r[i].description == r[i].name + " resume template")
    ensures forall id | id in TemplateNames :: exists i | 0 <= i < |r| :: r[i].id == id
  {
    var r := seq(|TemplateOrder|, i requires 0 <= i < |TemplateOrder| =>
      TemplateInfo(TemplateOrder[i], TemplateNames[TemplateOrder[i]], TemplateNames[TemplateOrder[i]] + " resume template"));
    assert r[0].id == "professional";
    assert forall id | id in TemplateNames :: id == r[0].id;
    r
  }

  /** `preview_template` up to rendering: the page it renders, or 404 for an unknown name. */
  function PreviewPath(name: string): (r: Result<string, HttpError>)
    ensures r.Err? <==> name !in TemplateNames
    ensures r.Err? ==> r.error == NotFound
    ensures r.Ok? ==> r.value == "resume_templates/" + name + ".html"
  {
    if name !in TemplateNames then Err(NotFound) else Ok("resume_templates/" + name + ".html")
  }

  /** The session after `select_template`: the name is checked before the login. */
  function SelectSession(s: SessionData, name: string): (r: Result<SessionData, HttpError>)
    ensures r.Err? <==> name !in TemplateNames || s.user.None?
    ensures name !in TemplateNames ==> r == Err(InvalidName)
    ensures name in TemplateNames && s.user.None? ==> r == Err(Profiles.NotAuthenticated)
    ensures r.Ok? ==> r.value.user == s.user && r.value.selectedTemplate == Some(name)
  {
    if name !in TemplateNames then Err(InvalidName)
    else if s.user.None? then Err(Profiles.NotAuthenticated)
    else Ok(s.(selectedTemplate := Some(name)))
  }

  /** The profiles after `select_template` for the session's email: only a user row that
      exists gets the selection, in a new profile row when it had none. */
  function SelectedProfiles(users: seq<User>, profiles: map<nat, Profile>, email: string, name: string): (r: map<nat, Profile>)
    ensures Profiles.FindUser(users, email).None? ==> r == profiles
    ensures Profiles.FindUser(users, email).Some? ==>
      var u := users[Profiles.FindUser(users, email).value].id;
      && r.Keys == profiles.Keys + {u}
      && r[u] == (if u in profiles then profiles[u] else EmptyProfile).(selectedTemplate := Some(name))
      && forall v | v in profiles && v != u :: r[v] == profiles[v]
  {
    match Profiles.FindUser(users, email)
    case None => profiles
    case Some(i) =>
      var u := users[i].id;
      var withRow := Profiles.WithProfile(profiles, u);
      withRow[u := withRow[u].(selectedTemplate := Some(name))]
  }

  /** The reply of `get_current_template`. */
  datatype Current = Current(name: string, display: string)

  /** `get_current_template`: the session's template, "professional" when none was chosen,
      and "Modern Clean" as the display name of an unknown one. */
  function CurrentTemplate(s: SessionData): (r: Result<Current, HttpError>)
    ensures r.Err? <==> s.user.None?
    ensures r.Err? ==> r.error == Profiles.NotAuthenticated
    ensures r.Ok? && s.selectedTemplate.None? ==> r.value == Current(DefaultTemplate, TemplateNames[DefaultTemplate])
    ensures r.Ok? ==> r.value.display == (if r.value.name in TemplateNames then TemplateNames[r.value.name] else FallbackDisplay)
  {
    if s.user.None? then Err(Profiles.NotAuthenticated)
    else
      var name := s.selectedTemplate.GetOr(DefaultTemplate);
      Ok(Current(name, if name in TemplateNames then TemplateNames[name] else FallbackDisplay))
  }

  /** After a successful selection the current template is the selected one. */
  lemma SelectThenCurrent(s: SessionData, name: string)
    requires SelectSession(s, name).Ok?
    ensures CurrentTemplate(SelectSession(s, name).value) == Ok(Current(name, TemplateNames[name]))
  {
  }

  /** The session's template is unset or one of the table's. */
  predicate KnownTemplate(s: SessionData) {
    s.selectedTemplate.None? || s.selectedTemplate.value in TemplateNames
  }

  /** Selecting keeps the session's template known, and with a known template the
      "Modern Clean" fallback is never shown. */
  lemma KnownTemplateKept(s: SessionData, name: string)
    requires KnownTemplate(s)
    ensures SelectSession(s, name).Ok? ==> KnownTemplate(SelectSession(s, name).value)
    ensures CurrentTemplate(s).Ok? ==> CurrentTemplate(s).value.name in TemplateNames
  {
  }

  /** `select_template`: the reply message, the session's template and the stored profile. */
  method SelectTemplate(db: Database, session: Session, name: string) returns (r: Result<string, HttpError>)
    requires db.Valid()
    modifies db, session
    ensures db.Valid()
    ensures var sel := SelectSession(old(session.data), name);
      && (sel.Err? ==> r == Err(sel.error) && session.data == old(session.data) && db.State() == old(db.State()))
      && (sel.Ok? ==> (r == Ok("Template switched to " + TemplateNames[name]) && session.data == sel.value
            && db.State() == old(db.State()).(profiles := SelectedProfiles(old(db.users), old(db.profiles), old(session.data).user.value.email, name))))
  {
    if name !in TemplateNames {
      return Err(InvalidName);
    }
    if session.data.user.None? {
      return Err(Profiles.NotAuthenticated);
    }
    var email := session.data.user.value.email;
    session.data := session.data.(selectedTemplate := Some(name));
    var found := Profiles.FindUser(db.users, email);
    if found.Some? {
      var u := db.users[found.value].id;
      var profile := if u in db.profiles then db.profiles[u] else EmptyProfile;
      db.profiles := db.profiles[u := profile.(selectedTemplate := Some(name))];
    }
    r := Ok("Template switched to " + TemplateNames[name]);
  }
}
