/** `app/api/endpoints/jobs.py`: the recommendation selection of `/jobs/ai-recommendations`
    and the saved-jobs table of the demo user. */
module Jobs {
  import opened Base
  import opened Text
  import opened Tables
  import opened Db
  import opened JobService
  import Profiles

  // ---- get_ai_recommendations ----

  const MaxRecommendations := 5
  const PerCategory := 2
  const SkillCategories := 3
  const MaxShown := 150

  /** One entry of the `recommendations` list. `role` is the job's title, which is known to
      be a string once it has been lowered. */
  datatype Recommendation = Recommendation(
    role: string, company: Option<string>, location: Option<string>, description: string,
    url: Option<string>, remote: Option<bool>, reason: string)

  /** A description longer than 150 characters is cut to 150 and "..." is added. */
  function Truncated(d: string): (r: string)
    ensures |d| <= MaxShown ==> r == d
    ensures |d| > MaxShown ==> |r| == MaxShown + |Ellipsis| && r[..MaxShown] == d[..MaxShown] && r[MaxShown..] == Ellipsis
  {
    if |d| > MaxShown then d[..MaxShown] + Ellipsis else d
  }

  /** The entry built from a search result. The result carries every key, so the
      `job.get(key, default)` defaults never apply. */
  function Pick(job: Job, title: string, reason: string): Recommendation {
    Recommendation(title, job.company, job.location, Truncated(job.description), job.url, job.remote, reason)
  }

  /** `job_title in seen or seen in job_title` */
  predicate Similar(a: string, b: string) {
    Contains(a, b) || Contains(b, a)
  }

  /** The lowered titles picked so far (`seen_titles`). */
  function Titles(recs: seq<Recommendation>): set<string> {
    set i | 0 <= i < |recs| :: Lower(recs[i].role)
  }

  /** `is_duplicate`, stated on the picks themselves. */
  predicate Duplicate(t: string, recs: seq<Recommendation>) {
    exists i | 0 <= i < |recs| :: Similar(t, Lower(recs[i].role))
  }

  /** No lowered title contains another one. */
  predicate NonContaining(recs: seq<Recommendation>) {
    forall i, j | 0 <= i < j < |recs| :: !Similar(Lower(recs[i].role), Lower(recs[j].role))
  }

  lemma TitlesSnoc(recs: seq<Recommendation>, x: Recommendation)
    ensures Titles(recs + [x]) == Titles(recs) + {Lower(x.role)}
  {
    var r := recs + [x];
    assert forall i | 0 <= i < |recs| :: r[i] == recs[i];
    assert r[|recs|] == x;
    forall s | s in Titles(r) ensures s in Titles(recs) + {Lower(x.role)} {
      var i :| 0 <= i < |r| && s == Lower(r[i].role);
      if i < |recs| {
        assert s == Lower(recs[i].role);
      }
    }
  }

  /** Checking against `seen_titles` is checking against the picks. */
  lemma DuplicateBySeen(t: string, recs: seq<Recommendation>)
    ensures (exists s | s in Titles(recs) :: Similar(t, s)) <==> Duplicate(t, recs)
  {
    if exists s | s in Titles(recs) :: Similar(t, s) {
      var s :| s in Titles(recs) && Similar(t, s);
      var i :| 0 <= i < |recs| && s == Lower(recs[i].role);
    }
    if Duplicate(t, recs) {
      var i :| 0 <= i < |recs| && Similar(t, Lower(recs[i].role));
      assert Lower(recs[i].role) in Titles(recs);
    }
  }

  /** Appending a title that is not a duplicate keeps the picks non-containing. */
  lemma NonContainingSnoc(recs: seq<Recommendation>, x: Recommendation)
    requires NonContaining(recs) && !Duplicate(Lower(x.role), recs)
    ensures NonContaining(recs + [x])
  {
    var r := recs + [x];
    forall i, j | 0 <= i < j < |r| ensures !Similar(Lower(r[i].role), Lower(r[j].role)) {
      if j == |recs| {
        assert r[i] == recs[i];
      } else {
        assert r[i] == recs[i] && r[j] == recs[j];
      }
    }
  }

  /** Non-containing titles are distinct, since every title contains itself. */
  lemma NonContainingDistinct(recs: seq<Recommendation>)
    requires NonContaining(recs)
    ensures forall i, j | 0 <= i < j < |recs| :: recs[i].role != recs[j].role
  {
    forall i, j | 0 <= i < j < |recs| ensures recs[i].role != recs[j].role {
      ContainsItself(Lower(recs[i].role));
    }
  }

  /** The inner loop over one category's search results, after `added` picks of that
      category. None when a title is null (`None.lower()` raises). */
  function CategoryPass(recs: seq<Recommendation>, added: nat, jobs: seq<Job>, reason: string): Option<seq<Recommendation>>
    decreases |jobs|
  {
    if jobs == [] then Some(recs)
    else
      match jobs[0].title
      case None => None
      case Some(title) =>
        var take := !Duplicate(Lower(title), recs) && added < PerCategory;
        var next := if take then recs + [Pick(jobs[0], title, reason)] else recs;
        if |next| >= MaxRecommendations then Some(next)
        else CategoryPass(next, if take then added + 1 else added, jobs[1..], reason)
  }

  /** Every pick after `from` carries `reason`. */
  predicate ReasonFrom(r: seq<Recommendation>, from: nat, reason: string) {
    forall k | from <= k < |r| :: r[k].reason == reason
  }

  /** One category adds at most its remaining two picks, all with its reason, after the
      earlier ones, and it keeps the picks non-containing and within five. */
  lemma {:induction false} CategoryPassFacts(recs: seq<Recommendation>, added: nat, jobs: seq<Job>, reason: string)
    requires |recs| < MaxRecommendations && added <= PerCategory && NonContaining(recs)
    requires CategoryPass(recs, added, jobs, reason).Some?
    ensures var r := CategoryPass(recs, added, jobs, reason).value;
      && |recs| <= |r| <= MaxRecommendations && r[..|recs|] == recs
      && |r| - |recs| <= PerCategory - added
      && ReasonFrom(r, |recs|, reason)
      && NonContaining(r)
    decreases |jobs|
  {
    if jobs != [] {
      var title := jobs[0].title.value;
      var take := !Duplicate(Lower(title), recs) && added < PerCategory;
      var next := if take then recs + [Pick(jobs[0], title, reason)] else recs;
      if take {
        NonContainingSnoc(recs, Pick(jobs[0], title, reason));
      }
      if |next| < MaxRecommendations {
        CategoryPassFacts(next, if take then added + 1 else added, jobs[1..], reason);
        assert next[..|recs|] == recs;
        PrefixOfPrefix(CategoryPass(recs, added, jobs, reason).value, next, recs);
      }
    }
  }

  function CategoryReason(s: Skill): string {
    "Matches your " + PyStr(s.category) + " expertise"
  }

  function ExperienceReason(e: Experience): string {
    "Similar to your role as " + PyStr(e.title)
  }

  /** What the board answers to each search request; every search is its own request. */
  type Listings = Option<string> -> Fetch

  /** `job_service.search_jobs(query, "Remote")`, with the default limit of five. */
  function Search(fetch: Listings, query: Option<string>): seq<Job> {
    SearchResult(query, 5, fetch(query))
  }

  /** `skill.skills if isinstance(skill.skills, list) else []` */
  function SkillList(s: Skill): seq<string> {
    s.skills.GetOr([])
  }

  /** The loop over the consulted skill rows: a row with an empty list is skipped, any
      other one is searched by its first skill. */
  function SkillPhase(recs: seq<Recommendation>, skills: seq<Skill>, fetch: Listings): Option<seq<Recommendation>>
    decreases |skills|
  {
    if skills == [] then Some(recs)
    else
      var list := SkillList(skills[0]);
      if list == [] then SkillPhase(recs, skills[1..], fetch)
      else
        match CategoryPass(recs, 0, Search(fetch, Some(list[0])), CategoryReason(skills[0]))
        case None => None
        case Some(next) => if |next| >= MaxRecommendations then Some(next) else SkillPhase(next, skills[1..], fetch)
  }

  /** How many picks carry `reason`. */
  function Picked(recs: seq<Recommendation>, reason: string): nat {
    if recs == [] then 0
    else Picked(recs[..|recs| - 1], reason) + (if recs[|recs| - 1].reason == reason then 1 else 0)
  }

  /** How many of the skill rows are searched and give `reason`. */
  function Searched(skills: seq<Skill>, reason: string): nat {
    if skills == [] then 0
    else (if SkillList(skills[0]) != [] && CategoryReason(skills[0]) == reason then 1 else 0) + Searched(skills[1..], reason)
  }

  lemma {:induction false} PickedAppend(a: seq<Recommendation>, b: seq<Recommendation>, reason: string)
    ensures Picked(a + b, reason) == Picked(a, reason) + Picked(b, reason)
  {
    if b == [] {
      assert a + b == a;
    } else {
      PickedAppend(a, b[..|b| - 1], reason);
      assert (a + b)[..|a + b| - 1] == a + b[..|b| - 1];
    }
  }

  lemma {:induction false} PickedOfReason(b: seq<Recommendation>, reason: string, other: string)
    requires ReasonFrom(b, 0, reason)
    ensures Picked(b, other) == if other == reason then |b| else 0
  {
    if b != [] {
      PickedOfReason(b[..|b| - 1], reason, other);
    }
  }

  lemma PrefixOfPrefix(a: seq<Recommendation>, b: seq<Recommendation>, c: seq<Recommendation>)
    requires |c| <= |b| <= |a| && a[..|b|] == b && b[..|c|] == c
    ensures a[..|c|] == c
  {
    assert a[..|c|] == a[..|b|][..|c|];
  }

  /** The consulted rows add picks after the earlier ones and keep them non-containing and
      within five. */
  lemma {:induction false} SkillPhaseFacts(recs: seq<Recommendation>, skills: seq<Skill>, fetch: Listings)
    requires |recs| < MaxRecommendations && NonContaining(recs)
    requires SkillPhase(recs, skills, fetch).Some?
    ensures var r := SkillPhase(recs, skills, fetch).value;
      && |recs| <= |r| <= MaxRecommendations && r[..|recs|] == recs
      && NonContaining(r)
    decreases |skills|
  {
    if skills != [] {
      var list := SkillList(skills[0]);
      if list == [] {
        SkillPhaseFacts(recs, skills[1..], fetch);
      } else {
        var jobs := Search(fetch, Some(list[0]));
        CategoryPassFacts(recs, 0, jobs, CategoryReason(skills[0]));
        var next := CategoryPass(recs, 0, jobs, CategoryReason(skills[0])).value;
        if |next| < MaxRecommendations {
          SkillPhaseFacts(next, skills[1..], fetch);
          PrefixOfPrefix(SkillPhase(recs, skills, fetch).value, next, recs);
        }
      }
    }
  }

  /** Each consulted row adds at most two picks, and those carry its category's reason. */
  lemma {:induction false} SkillPhaseCount(recs: seq<Recommendation>, skills: seq<Skill>, fetch: Listings, reason: string)
    requires |recs| < MaxRecommendations && NonContaining(recs)
    requires SkillPhase(recs, skills, fetch).Some?
    ensures Picked(SkillPhase(recs, skills, fetch).value, reason) <= Picked(recs, reason) + PerCategory * Searched(skills, reason)
    decreases |skills|
  {
    if skills != [] {
      var list := SkillList(skills[0]);
      if list == [] {
        SkillPhaseCount(recs, skills[1..], fetch, reason);
      } else {
        var own := CategoryReason(skills[0]);
        var jobs := Search(fetch, Some(list[0]));
        CategoryPassFacts(recs, 0, jobs, own);
        var next := CategoryPass(recs, 0, jobs, own).value;
        var added := next[|recs|..];
        assert next == recs + added;
        PickedAppend(recs, added, reason);
        PickedOfReason(added, own, reason);
        if |next| < MaxRecommendations {
          SkillPhaseCount(next, skills[1..], fetch, reason);
        }
      }
    }
  }

  /** The experience loop: no per-category cap, and it stops at the top once five are picked. */
  function ExperiencePass(recs: seq<Recommendation>, jobs: seq<Job>, reason: string): Option<seq<Recommendation>>
    decreases |jobs|
  {
    if jobs == [] || |recs| >= MaxRecommendations then Some(recs)
    else
      match jobs[0].title
      case None => None
      case Some(title) =>
        var next := if Duplicate(Lower(title), recs) then recs else recs + [Pick(jobs[0], title, reason)];
        ExperiencePass(next, jobs[1..], reason)
  }

  lemma {:induction false} ExperiencePassFacts(recs: seq<Recommendation>, jobs: seq<Job>, reason: string)
    requires |recs| <= MaxRecommendations && NonContaining(recs)
    requires ExperiencePass(recs, jobs, reason).Some?
    ensures var r := ExperiencePass(recs, jobs, reason).value;
      && |recs| <= |r| <= MaxRecommendations && r[..|recs|] == recs
      && ReasonFrom(r, |recs|, reason)
      && NonContaining(r)
    decreases |jobs|
  {
    if jobs != [] && |recs| < MaxRecommendations {
      var title := jobs[0].title.value;
      var next := if Duplicate(Lower(title), recs) then recs else recs + [Pick(jobs[0], title, reason)];
      if !Duplicate(Lower(title), recs) {
        NonContainingSnoc(recs, Pick(jobs[0], title, reason));
      }
      ExperiencePassFacts(next, jobs[1..], reason);
      assert next[..|recs|] == recs;
      PrefixOfPrefix(ExperiencePass(recs, jobs, reason).value, next, recs);
    }
  }

  /** The whole selection over the user's skill rows and experiences (table order); None
      when it raised. Only the first three skill rows are consulted, and the experience
      search runs only when fewer than five were picked. */
  function Selection(skills: seq<Skill>, experiences: seq<Experience>, fetch: Listings): Option<seq<Recommendation>> {
    match SkillPhase([], PyPrefix(skills, SkillCategories), fetch)
    case None => None
    case Some(recs) =>
      if experiences != [] && |recs| < MaxRecommendations then
        ExperiencePass(recs, Search(fetch, experiences[0].title), ExperienceReason(experiences[0]))
      else Some(recs)
  }

  /** The endpoint's list: any exception gives `[]`. */
  function Recommendations(skills: seq<Skill>, experiences: seq<Experience>, fetch: Listings): seq<Recommendation> {
    match Selection(skills, experiences, fetch)
    case None => []
    case Some(recs) => PyPrefix(recs, MaxRecommendations)
  }

  /** A selection that did not raise has at most five picks with pairwise non-containing
      lowered titles. */
  lemma SelectionFacts(skills: seq<Skill>, experiences: seq<Experience>, fetch: Listings)
    requires Selection(skills, experiences, fetch).Some?
    ensures var r := Selection(skills, experiences, fetch).value;
      |r| <= MaxRecommendations && NonContaining(r)
  {
    var consulted := PyPrefix(skills, SkillCategories);
    var recs := SkillPhase([], consulted, fetch).value;
    SkillPhaseFacts([], consulted, fetch);
    if experiences != [] && |recs| < MaxRecommendations {
      var e := experiences[0];
      ExperiencePassFacts(recs, Search(fetch, e.title), ExperienceReason(e));
    }
  }

  /** At most five recommendations, with pairwise non-containing lowered titles; the final
      `[:5]` cuts nothing. */
  lemma RecommendationsFacts(skills: seq<Skill>, experiences: seq<Experience>, fetch: Listings)
    ensures var r := Recommendations(skills, experiences, fetch);
      && |r| <= MaxRecommendations
      && NonContaining(r)
      && (Selection(skills, experiences, fetch).Some? ==> r == Selection(skills, experiences, fetch).value)
  {
    if Selection(skills, experiences, fetch).Some? {
      SelectionFacts(skills, experiences, fetch);
    }
  }

  /** No two recommendations share a role. */
  lemma RecommendedRolesDistinct(skills: seq<Skill>, experiences: seq<Experience>, fetch: Listings)
    ensures var r := Recommendations(skills, experiences, fetch);
      forall i, j | 0 <= i < j < |r| :: r[i].role != r[j].role
  {
    RecommendationsFacts(skills, experiences, fetch);
    NonContainingDistinct(Recommendations(skills, experiences, fetch));
  }

  /** Each of the first three skill rows yields at most two skill picks with its reason. */
  lemma SkillPicksPerCategory(skills: seq<Skill>, fetch: Listings, reason: string)
    requires SkillPhase([], PyPrefix(skills, SkillCategories), fetch).Some?
    ensures Picked(SkillPhase([], PyPrefix(skills, SkillCategories), fetch).value, reason)
        <= PerCategory * Searched(PyPrefix(skills, SkillCategories), reason)
  {
    SkillPhaseCount([], PyPrefix(skills, SkillCategories), fetch, reason);
  }

  /** When the skill rows already give five picks, the experiences are never read. */
  lemma FullSkillsIgnoreExperiences(skills: seq<Skill>, e1: seq<Experience>, e2: seq<Experience>, fetch: Listings)
    requires var s := SkillPhase([], PyPrefix(skills, SkillCategories), fetch); s.Some? && |s.value| >= MaxRecommendations
    ensures Recommendations(skills, e1, fetch) == Recommendations(skills, e2, fetch)
  {
  }

  /** The experience picks all carry the experience's reason and follow the skill picks. */
  lemma ExperiencePicksFollow(skills: seq<Skill>, experiences: seq<Experience>, fetch: Listings)
    requires experiences != []
    requires var s := SkillPhase([], PyPrefix(skills, SkillCategories), fetch); s.Some? && |s.value| < MaxRecommendations
    requires Selection(skills, experiences, fetch).Some?
    ensures var recs := SkillPhase([], PyPrefix(skills, SkillCategories), fetch).value;
      var r := Recommendations(skills, experiences, fetch);
      |recs| <= |r| && r[..|recs|] == recs && ReasonFrom(r, |recs|, ExperienceReason(experiences[0]))
  {
    var recs := SkillPhase([], PyPrefix(skills, SkillCategories), fetch).value;
    SkillPhaseFacts([], PyPrefix(skills, SkillCategories), fetch);
    ExperiencePassFacts(recs, Search(fetch, experiences[0].title), ExperienceReason(experiences[0]));
  }

  /** The selection reads the board only through the searches for the first skill of each
      consulted row. */
  predicate SameSearches(skills: seq<Skill>, f: Listings, g: Listings) {
    forall j | 0 <= j < |skills| && SkillList(skills[j]) != [] ::
      Search(f, Some(SkillList(skills[j])[0])) == Search(g, Some(SkillList(skills[j])[0]))
  }

  lemma {:induction false} SkillPhaseReadsFirstSkills(recs: seq<Recommendation>, skills: seq<Skill>, f: Listings, g: Listings)
    requires SameSearches(skills, f, g)
    ensures SkillPhase(recs, skills, f) == SkillPhase(recs, skills, g)
    decreases |skills|
  {
    if skills != [] {
      assert SameSearches(skills[1..], f, g) by {
        forall j | 0 <= j < |skills[1..]| && SkillList(skills[1..][j]) != []
          ensures Search(f, Some(SkillList(skills[1..][j])[0])) == Search(g, Some(SkillList(skills[1..][j])[0])) {
          assert skills[1..][j] == skills[j + 1];
        }
      }
      var list := SkillList(skills[0]);
      if list == [] {
        SkillPhaseReadsFirstSkills(recs, skills[1..], f, g);
      } else {
        var next := CategoryPass(recs, 0, Search(f, Some(list[0])), CategoryReason(skills[0]));
        if next.Some? {
          SkillPhaseReadsFirstSkills(next.value, skills[1..], f, g);
        }
      }
    }
  }

  /** A null title in the first search result of the first consulted row makes the whole
      answer empty. */
  lemma NullTitleGivesNothing(skills: seq<Skill>, experiences: seq<Experience>, fetch: Listings)
    requires skills != [] && SkillList(skills[0]) != []
    requires var jobs := Search(fetch, Some(SkillList(skills[0])[0])); jobs != [] && jobs[0].title.None?
    ensures Recommendations(skills, experiences, fetch) == []
  {
    assert PyPrefix(skills, SkillCategories)[0] == skills[0];
  }

  // ---- The loops of get_ai_recommendations ----

  method CategoryLoop(recs0: seq<Recommendation>, seen0: set<string>, jobs: seq<Job>, reason: string)
      returns (raised: bool, recs: seq<Recommendation>, seen: set<string>)
    requires seen0 == Titles(recs0)
    ensures raised <==> CategoryPass(recs0, 0, jobs, reason).None?
    ensures !raised ==> CategoryPass(recs0, 0, jobs, reason) == Some(recs) && seen == Titles(recs)
  {
    recs, seen := recs0, seen0;
    var added := 0;
    var i := 0;
    while i < |jobs|
      invariant 0 <= i <= |jobs|
      invariant seen == Titles(recs)
      invariant CategoryPass(recs, added, jobs[i..], reason) == CategoryPass(recs0, 0, jobs, reason)
    {
      var job := jobs[i];
      assert jobs[i..][0] == job && jobs[i..][1..] == jobs[i + 1..];
      if job.title.None? {
        return true, recs, seen;
      }
      var title := job.title.value;
      var t := Lower(title);
      DuplicateBySeen(t, recs);
      var duplicate := exists s | s in seen :: Similar(t, s);
      if !duplicate && added < PerCategory {
        TitlesSnoc(recs, Pick(job, title, reason));
        recs := recs + [Pick(job, title, reason)];
        seen := seen + {t};
        added := added + 1;
      }
      if |recs| >= MaxRecommendations {
        return false, recs, seen;
      }
      i := i + 1;
    }
    raised := false;
  }

  method ExperienceLoop(recs0: seq<Recommendation>, seen0: set<string>, jobs: seq<Job>, reason: string)
      returns (raised: bool, recs: seq<Recommendation>)
    requires seen0 == Titles(recs0)
    ensures raised <==> ExperiencePass(recs0, jobs, reason).None?
    ensures !raised ==> ExperiencePass(recs0, jobs, reason) == Some(recs)
  {
    recs := recs0;
    var seen := seen0;
    var i := 0;
    while i < |jobs|
      invariant 0 <= i <= |jobs|
      invariant seen == Titles(recs)
      invariant ExperiencePass(recs, jobs[i..], reason) == ExperiencePass(recs0, jobs, reason)
    {
      var job := jobs[i];
      assert jobs[i..][0] == job && jobs[i..][1..] == jobs[i + 1..];
      if |recs| >= MaxRecommendations {
        break;
      }
      if job.title.None? {
        return true, recs;
      }
      var title := job.title.value;
      var t := Lower(title);
      DuplicateBySeen(t, recs);
      var duplicate := exists s | s in seen :: Similar(t, s);
      if !duplicate {
        TitlesSnoc(recs, Pick(job, title, reason));
        recs := recs + [Pick(job, title, reason)];
        seen := seen + {t};
      }
      i := i + 1;
    }
    raised := false;
  }

  method SkillLoop(skills: seq<Skill>, fetch: Listings) returns (raised: bool, recs: seq<Recommendation>, seen: set<string>)
    ensures raised <==> SkillPhase([], skills, fetch).None?
    ensures !raised ==> SkillPhase([], skills, fetch) == Some(recs) && seen == Titles(recs)
  {
    recs, seen := [], {};
    var k := 0;
    while k < |skills|
      invariant 0 <= k <= |skills|
      invariant seen == Titles(recs) && |recs| < MaxRecommendations
      invariant SkillPhase(recs, skills[k..], fetch) == SkillPhase([], skills, fetch)
    {
      assert skills[k..][0] == skills[k] && skills[k..][1..] == skills[k + 1..];
      var list := SkillList(skills[k]);
      if list != [] {
        var query := Some(list[0]);
        var jobs := SearchJobs(query, 5, fetch(query));
        var failed, next, nextSeen := CategoryLoop(recs, seen, jobs, CategoryReason(skills[k]));
        if failed {
          return true, [], {};
        }
        recs, seen := next, nextSeen;
        if |recs| >= MaxRecommendations {
          return false, recs, seen;
        }
      }
      k := k + 1;
    }
    raised := false;
  }

  /** `get_ai_recommendations`. Any exception, the 401 of `get_current_user_id` included,
      gives the empty list; a user row that lookup created stays. */
  method GetAiRecommendations(db: Database, session: Session, fetch: Listings) returns (recs: seq<Recommendation>)
    requires db.Valid()
    modifies db
    ensures db.Valid()
    ensures var c := Profiles.CurrentUser(old(db.users), session.data);
      && (c.Err? ==> recs == [] && db.State() == old(db.State()))
      && (c.Ok? ==> (db.State() == old(db.State()).(users := c.value.users)
            && recs == Recommendations(Records(Owned(old(db.skills), c.value.id)),
                                       Records(Owned(old(db.experiences), c.value.id)), fetch)))
  {
    var login := Profiles.GetCurrentUserId(db, session);
    if login.Err? {
      return [];
    }
    var skills := Records(Owned(db.skills, login.value));
    var experiences := Records(Owned(db.experiences, login.value));
    var raised, picked, seen := SkillLoop(PyPrefix(skills, SkillCategories), fetch);
    if raised {
      return [];
    }
    if experiences != [] && |picked| < MaxRecommendations {
      var latest := experiences[0];
      var jobs := SearchJobs(latest.title, 5, fetch(latest.title));
      raised, picked := ExperienceLoop(picked, seen, jobs, ExperienceReason(latest));
      if raised {
        return [];
      }
    }
    recs := PyPrefix(picked, MaxRecommendations);
  }

  /** The records of rows, in table order. */
  function Records<T>(rows: seq<Row<Ordered<T>>>): (r: seq<T>)
    ensures |r| == |rows| && forall i | 0 <= i < |rows| :: r[i] == rows[i].data.record
  {
    seq(|rows|, i requires 0 <= i < |rows| => rows[i].data.record)
  }

  // ---- The saved-jobs table ----

  /** The handlers use the hard-coded `user_id = 1`. */
  const DemoUser := 1

  /** The body of `POST /jobs/save`: each key missing, null or present. */
  datatype JobData = JobData(
    title: Field<string>, company: Field<string>, location: Field<string>, url: Field<string>,
    remote: Field<bool>, description: Field<string>, source: Field<string>)

  /** Position of the demo user's first saved job at or after `from` whose url equals
      `url`; a missing url is compared as NULL (`SavedJob.url == None` is `IS NULL`). */
  function FindUrlFrom(rows: seq<Row<SavedJob>>, url: Option<string>, from: nat): (r: Option<nat>)
    decreases |rows| - from
    ensures r.Some? ==> from <= r.value < |rows| && rows[r.value].userId == DemoUser && rows[r.value].data.url == url
    ensures r.None? ==> forall i | from <= i < |rows| :: !(rows[i].userId == DemoUser && rows[i].data.url == url)
  {
    if from >= |rows| then None
    else if rows[from].userId == DemoUser && rows[from].data.url == url then Some(from)
    else FindUrlFrom(rows, url, from + 1)
  }

  /** The row a new save inserts at time `now`. A null `remote` is left out of the INSERT,
      so the column default false applies; `status` takes its default "saved". */
  function NewSavedJob(d: JobData, now: int): SavedJob {
    SavedJob(d.title.Get(), d.company.Get(), d.location.Get(), d.url.Get(),
      Some(d.remote.Get().GetOr(false)), d.description.Get(), d.source.GetOr("unknown"),
      Some("saved"), None, None, now)
  }

  datatype SaveReply = AlreadySaved(id: nat) | Saved(id: nat)

  /** `save_job`: the saved table after the call, and the reply. */
  function SaveJob(rows: seq<Row<SavedJob>>, d: JobData, now: int): (r: (seq<Row<SavedJob>>, SaveReply))
    ensures r.1.AlreadySaved? <==> exists i | 0 <= i < |rows| :: rows[i].userId == DemoUser && rows[i].data.url == d.url.Get()
    ensures r.1.AlreadySaved? ==> (r.0 == rows &&
      exists i | 0 <= i < |rows| :: rows[i] == Row(r.1.id, DemoUser, rows[i].data) && rows[i].data.url == d.url.Get())
    ensures r.1.Saved? ==> (r.0 == rows + [Row(r.1.id, DemoUser, NewSavedJob(d, now))]
      && forall i | 0 <= i < |rows| :: rows[i].id != r.1.id)
    ensures UniqueIds(rows) ==> UniqueIds(r.0)
  {
    match FindUrlFrom(rows, d.url.Get(), 0)
    case Some(i) => (rows, AlreadySaved(rows[i].id))
    case None => (Insert(rows, DemoUser, NewSavedJob(d, now)), Saved(NextId(rows)))
  }

  /** A saved row's columns follow the request: the url is kept, `source` defaults to
      "unknown" only when the key is missing, and `remote` is never null. */
  lemma NewSavedJobColumns(d: JobData, now: int)
    ensures var j := NewSavedJob(d, now);
      && j.url == d.url.Get()
      && j.remote == Some(d.remote.Value? && d.remote.value)
      && (d.source.Absent? ==> j.source == Some("unknown"))
      && (d.source.Null? ==> j.source == None)
      && j.status == Some("saved") && j.appliedDate == None && j.notes == None
  {
  }

  lemma {:induction false} FindUrlLast(rows: seq<Row<SavedJob>>, x: Row<SavedJob>, from: nat)
    requires from <= |rows| && x.userId == DemoUser
    requires forall i | from <= i < |rows| :: !(rows[i].userId == DemoUser && rows[i].data.url == x.data.url)
    ensures FindUrlFrom(rows + [x], x.data.url, from) == Some(|rows|)
    decreases |rows| - from
  {
    if from < |rows| {
      FindUrlLast(rows, x, from + 1);
    }
  }

  /** Saving the same job again, at any time, answers with the id of the first save and
      creates nothing. */
  lemma SaveJobIdempotent(rows: seq<Row<SavedJob>>, d: JobData, now: int, later: int)
    ensures var (once, reply) := SaveJob(rows, d, now);
      SaveJob(once, d, later) == (once, AlreadySaved(reply.id))
  {
    var (once, reply) := SaveJob(rows, d, now);
    if reply.Saved? {
      FindUrlLast(rows, Row(reply.id, DemoUser, NewSavedJob(d, now)), 0);
    }
  }

  const JobMissing := "Job not found"

  /** `unsave_job`: the row is removed, or the error reply "Job not found" is given and
      nothing changes. */
  function UnsaveJob(rows: seq<Row<SavedJob>>, id: nat): (r: Result<seq<Row<SavedJob>>, string>)
    ensures r.Err? <==> FindOwned(rows, id, DemoUser).None?
    ensures r.Err? ==> r.error == JobMissing
    ensures r.Ok? ==> |r.value| == |rows| - 1
    ensures r.Ok? && UniqueIds(rows) ==> UniqueIds(r.value) && forall x :: x in r.value <==> x in rows && x.id != id
  {
    match DeleteOwned(rows, id, DemoUser)
    case None => Err(JobMissing)
    case Some(rs) => Ok(rs)
  }

  /** `get_saved_jobs`: the demo user's saved jobs, newest first. */
  function SavedJobs(rows: seq<Row<SavedJob>>): (r: seq<Row<SavedJob>>)
    ensures forall i, j | 0 <= i < j < |r| :: r[i].data.createdAt >= r[j].data.createdAt
    ensures multiset(r) == multiset(Owned(rows, DemoUser))
  {
    var key := (j: Row<SavedJob>) => -j.data.createdAt;
    var r := SortBy(Owned(rows, DemoUser), key);
    assert SortedBy(r, key);
    r
  }

  /** The body of `PATCH /jobs/update-status/{id}`. */
  datatype StatusData = StatusData(status: Field<string>, notes: Field<string>)

  /** The row after an update at time `now`. */
  function WithStatus(j: SavedJob, data: StatusData, now: int): SavedJob {
    var j1 := if data.status.Absent? then j else j.(status := data.status.Get());
    var j2 := if data.status == Value("applied") && j.appliedDate.None? then j1.(appliedDate := Some(now)) else j1;
    if data.notes.Absent? then j2 else j2.(notes := data.notes.Get())
  }

  /** Only the status, the applied date and the notes can change; the status and the notes
      change only when their key is sent; the applied date is set only by a status of
      "applied" on a job that had none. */
  lemma WithStatusColumns(j: SavedJob, data: StatusData, now: int)
    ensures var r := WithStatus(j, data, now);
      && r.(status := j.status, appliedDate := j.appliedDate, notes := j.notes) == j
      && r.status == (if data.status.Absent? then j.status else data.status.Get())
      && r.notes == (if data.notes.Absent? then j.notes else data.notes.Get())
      && (j.appliedDate.Some? ==> r.appliedDate == j.appliedDate)
      && (r.appliedDate != j.appliedDate <==> data.status == Value("applied") && j.appliedDate.None?)
  {
  }

  /** A run of updates: each is a request body and the time it arrives. */
  function WithStatuses(j: SavedJob, updates: seq<(StatusData, int)>): SavedJob {
    if updates == [] then j
    else WithStatus(WithStatuses(j, updates[..|updates| - 1]), updates[|updates| - 1].0, updates[|updates| - 1].1)
  }

  /** Once set, the applied date is never overwritten; it is the time of the first update
      whose status was "applied". */
  lemma {:induction false} AppliedDateSetOnce(j: SavedJob, updates: seq<(StatusData, int)>, k: nat)
    requires j.appliedDate == None && k < |updates| && updates[k].0.status == Value("applied")
    requires forall i | 0 <= i < k :: updates[i].0.status != Value("applied")
    ensures WithStatuses(j, updates).appliedDate == Some(updates[k].1)
    decreases |updates|
  {
    if |updates| - 1 == k {
      NeverApplied(j, updates[..k]);
    } else {
      AppliedDateSetOnce(j, updates[..|updates| - 1], k);
    }
  }

  lemma {:induction false} NeverApplied(j: SavedJob, updates: seq<(StatusData, int)>)
    requires j.appliedDate == None
    requires forall i | 0 <= i < |updates| :: updates[i].0.status != Value("applied")
    ensures WithStatuses(j, updates).appliedDate == None
  {
    if updates != [] {
      NeverApplied(j, updates[..|updates| - 1]);
    }
  }

  /** `update_job_status`: the row is changed, or the error reply "Job not found" is given
      and nothing changes. */
  function UpdateJobStatus(rows: seq<Row<SavedJob>>, id: nat, data: StatusData, now: int): (r: Result<seq<Row<SavedJob>>, string>)
    ensures r.Err? <==> FindOwned(rows, id, DemoUser).None?
    ensures r.Err? ==> r.error == JobMissing
    ensures r.Ok? ==> |r.value| == |rows| && var i := FindOwned(rows, id, DemoUser).value;
      r.value == rows[i := rows[i].(data := WithStatus(rows[i].data, data, now))]
    ensures r.Ok? && UniqueIds(rows) ==> UniqueIds(r.value)
  {
    match UpdateOwned(rows, id, DemoUser, (j: SavedJob) => WithStatus(j, data, now))
    case None => Err(JobMissing)
    case Some(rs) => Ok(rs)
  }

  method SaveJobData(db: Database, d: JobData, now: int) returns (reply: SaveReply)
    requires db.Valid()
    modifies db
    ensures db.Valid()
    ensures (db.savedJobs, reply) == SaveJob(old(db.savedJobs), d, now)
    ensures db.State() == old(db.State()).(savedJobs := db.savedJobs)
  {
    var i := FindUrlFrom(db.savedJobs, d.url.Get(), 0);
    if i.Some? {
      return AlreadySaved(db.savedJobs[i.value].id);
    }
    reply := Saved(NextId(db.savedJobs));
    db.savedJobs := Insert(db.savedJobs, DemoUser, NewSavedJob(d, now));
  }

  method Unsave(db: Database, id: nat) returns (r: Result<(), string>)
    requires db.Valid()
    modifies db
    ensures db.Valid()
    ensures var u := UnsaveJob(old(db.savedJobs), id);
      && (u.Err? ==> r == Err(u.error) && db.State() == old(db.State()))
      && (u.Ok? ==> r == Ok(()) && db.State() == old(db.State()).(savedJobs := u.value))
  {
    var u := UnsaveJob(db.savedJobs, id);
    if u.Err? {
      return Err(u.error);
    }
    db.savedJobs := u.value;
    r := Ok(());
  }

  method UpdateStatus(db: Database, id: nat, data: StatusData, now: int) returns (r: Result<(), string>)
    requires db.Valid()
    modifies db
    ensures db.Valid()
    ensures var u := UpdateJobStatus(old(db.savedJobs), id, data, now);
      && (u.Err? ==> r == Err(u.error) && db.State() == old(db.State()))
      && (u.Ok? ==> r == Ok(()) && db.State() == old(db.State()).(savedJobs := u.value))
  {
    var u := UpdateJobStatus(db.savedJobs, id, data, now);
    if u.Err? {
      return Err(u.error);
    }
    db.savedJobs := u.value;
    r := Ok(());
  }
}
