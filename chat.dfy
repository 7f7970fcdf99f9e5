/** `app/api/endpoints/chat.py`: merging the profile fragment the chat model extracted into
    the stored profile, and the reply the chat endpoint returns.

    The database session is created with `autoflush=False`, so the duplicate lookups the
    merge runs see only the rows committed before it; the rows it adds are written by the
    single commit at its end, and an exception anywhere discards them all. The model
    therefore compares every fragment item against the pre-merge snapshot. */
module Chat {
  import opened Base
  import opened Tables
  import opened Db
  import opened AiService
  import Profiles

  // ---- Personal information and summary: written only where the stored column is empty ----

  /** One column of `if value and not getattr(profile, key): setattr(profile, key, value)`. */
  function FillIfEmpty(stored: Option<string>, incoming: Option<string>): (r: Option<string>)
    ensures Filled(stored) ==> r == stored
    ensures r != stored <==> Filled(incoming) && !Filled(stored)
    ensures r != stored ==> r == incoming
  {
    if Filled(incoming) && !Filled(stored) then incoming else stored
  }

  /** The seven personal-information keys of the extracted record, in the order of
      `Db.PersonalFields`. The two lists read different records (the schema's `PersonalInfo`
      and the `UserProfile` row) whose fields share names, and the merge loop pairs them by
      name, so index `j` of both names the same key. */
  function InfoFields(info: PersonalInfo): (r: seq<Option<string>>)
    ensures |r| == 7
  {
    [info.fullName, info.email, info.phone, info.location, info.linkedin, info.github, info.portfolio]
  }

  /** The `setattr` loop after it has visited the first `k` keys of the fragment. */
  function FillFirst(p: Profile, values: seq<Option<string>>, k: nat): Profile
    requires |values| == 7 && k <= 7
  {
    if k == 0 then p
    else
      var q := FillFirst(p, values, k - 1);
      if Filled(values[k - 1]) && !Filled(PersonalFields(q)[k - 1]) then WithPersonalField(q, k - 1, values[k - 1])
      else q
  }

  lemma {:induction false} FillFirstFields(p: Profile, values: seq<Option<string>>, k: nat)
    requires |values| == 7 && k <= 7
    ensures var q := FillFirst(p, values, k);
      && (forall j | 0 <= j < k :: PersonalFields(q)[j] == FillIfEmpty(PersonalFields(p)[j], values[j]))
      && (forall j | k <= j < 7 :: PersonalFields(q)[j] == PersonalFields(p)[j])
      && q.summary == p.summary && q.languages == p.languages && q.hobbies == p.hobbies
      && q.selectedTemplate == p.selectedTemplate
  {
    if k > 0 {
      FillFirstFields(p, values, k - 1);
      var q := FillFirst(p, values, k - 1);
      assert PersonalFields(q)[k - 1] == PersonalFields(p)[k - 1];
      if Filled(values[k - 1]) && !Filled(PersonalFields(q)[k - 1]) {
        assert PersonalFields(FillFirst(p, values, k)) == PersonalFields(q)[k - 1 := values[k - 1]];
      } else {
        assert FillFirst(p, values, k) == q;
      }
    }
  }

  /** The personal-information part of the merge: a column changes only when it was empty
      and the fragment value is non-empty, and then takes that value. */
  function FillPersonal(p: Profile, info: PersonalInfo): (r: Profile)
    ensures forall j | 0 <= j < 7 :: PersonalFields(r)[j] == FillIfEmpty(PersonalFields(p)[j], InfoFields(info)[j])
    ensures forall j | 0 <= j < 7 && Filled(PersonalFields(p)[j]) :: PersonalFields(r)[j] == PersonalFields(p)[j]
    ensures forall j | 0 <= j < 7 ::
      PersonalFields(r)[j] != PersonalFields(p)[j] <==> Filled(InfoFields(info)[j]) && !Filled(PersonalFields(p)[j])
    ensures r.summary == p.summary && r.languages == p.languages && r.hobbies == p.hobbies
    ensures r.selectedTemplate == p.selectedTemplate
  {
    FillFirstFields(p, InfoFields(info), 7);
    FillFirst(p, InfoFields(info), 7)
  }

  /** `if extracted['summary'] and not profile.summary: profile.summary = extracted['summary']` */
  function FillSummary(p: Profile, summary: Field<string>): (r: Profile)
    ensures r == p.(summary := r.summary)
    ensures Filled(p.summary) ==> r == p
    ensures r != p <==> summary.Value? && summary.value != "" && !Filled(p.summary)
    ensures r != p ==> r.summary == Some(summary.value)
  {
    if summary.Value? && summary.value != "" && !Filled(p.summary) then p.(summary := Some(summary.value))
    else p
  }

  lemma FillPersonalIdempotent(p: Profile, info: PersonalInfo)
    ensures FillPersonal(FillPersonal(p, info), info) == FillPersonal(p, info)
  {
    var q := FillPersonal(p, info);
    var q2 := FillPersonal(q, info);
    assert PersonalFields(q2) == PersonalFields(q) by {
      forall j | 0 <= j < 7 ensures PersonalFields(q2)[j] == PersonalFields(q)[j] {
        assert PersonalFields(q)[j] == FillIfEmpty(PersonalFields(p)[j], InfoFields(info)[j]);
      }
    }
    ProfileByFields(q2, q);
  }

  // ---- Records built from fragment items: `Experience(user_id=user_id, **exp_data)` ----

  /** A missing or null `is_current` takes the column default false: the ORM leaves a None
      attribute out of the INSERT, so the default applies. */
  function ExperienceRecord(e: RawExperience): (r: Experience)
    ensures r.isCurrent == Some(if e.isCurrent.Value? then e.isCurrent.value else false)
    ensures r.title == e.title && r.company == e.company
  {
    Experience(e.title, e.company, e.location, e.startDate, e.endDate, Some(e.isCurrent.Get().GetOr(false)),
      e.description, e.achievements)
  }

  function EducationRecord(e: EducationItem): Education {
    Education(e.degree, e.institution, e.location, e.graduationDate, e.gpa)
  }

  function ProjectRecord(p: RawProject): Project {
    Project(p.name, p.description, p.date, p.url, p.technologies)
  }

  /** A new skill group keeps the item's list; without one (missing or null) the column is null. */
  function SkillRecord(s: RawSkills): (r: Skill)
    ensures r.category == s.category && r.skills == s.skills.Get()
  {
    Skill(s.category, s.skills.Get())
  }

  function ExperienceRecords(items: seq<RawExperience>): (r: seq<Experience>)
    ensures |r| == |items| && forall i | 0 <= i < |items| :: r[i] == ExperienceRecord(items[i])
  {
    seq(|items|, i requires 0 <= i < |items| => ExperienceRecord(items[i]))
  }

  function EducationRecords(items: seq<EducationItem>): (r: seq<Education>)
    ensures |r| == |items| && forall i | 0 <= i < |items| :: r[i] == EducationRecord(items[i])
  {
    seq(|items|, i requires 0 <= i < |items| => EducationRecord(items[i]))
  }

  function ProjectRecords(items: seq<RawProject>): (r: seq<Project>)
    ensures |r| == |items| && forall i | 0 <= i < |items| :: r[i] == ProjectRecord(items[i])
  {
    seq(|items|, i requires 0 <= i < |items| => ProjectRecord(items[i]))
  }

  /** The identity keys of the duplicate checks. A null key column is compared with
      `IS NULL`, so None matches None. */
  function ExperienceKey(e: Experience): (Option<string>, Option<string>) { (e.title, e.company) }
  function EducationKey(e: Education): (Option<string>, Option<string>) { (e.degree, e.institution) }
  function ProjectKey(p: Project): Option<string> { p.name }

  // ---- Experience, education, projects: append the items no stored row already has ----

  /** The keys of the rows of `user` in the committed snapshot `rows`. */
  function StoredKeys<T, K(==)>(rows: seq<Row<Ordered<T>>>, user: nat, key: T -> K): set<K> {
    set i | 0 <= i < |rows| && rows[i].userId == user :: key(rows[i].data.record)
  }

  /** The records whose key is not among `stored`, in fragment order. Keys are compared with
      the snapshot only, so equal records of one fragment are all kept. */
  function Unseen<T, K(==)>(records: seq<T>, stored: set<K>, key: T -> K): (r: seq<T>)
    ensures |r| <= |records|
    ensures forall i | 0 <= i < |r| :: key(r[i]) !in stored
  {
    if records == [] then []
    else
      var last := records[|records| - 1];
      Unseen(records[..|records| - 1], stored, key) + (if key(last) in stored then [] else [last])
  }

  /** `db.add` of one new row per record, owned by `user`, with the column default order 0. */
  function AppendAll<T>(rows: seq<Row<Ordered<T>>>, user: nat, records: seq<T>): (r: seq<Row<Ordered<T>>>)
    ensures |r| == |rows| + |records| && r[..|rows|] == rows
    ensures forall j | |rows| <= j < |r| :: r[j].userId == user && r[j].data == Ordered(0, records[j - |rows|])
    ensures UniqueIds(rows) ==> UniqueIds(r)
  {
    if records == [] then rows
    else
      var prev := AppendAll(rows, user, records[..|records| - 1]);
      var r := Insert(prev, user, Ordered(0, records[|records| - 1]));
      assert r[..|rows|] == prev[..|rows|];
      assert forall j | |rows| <= j < |prev| :: r[j] == prev[j];
      r
  }

  /** One of the three de-duplicating loops of the merge. */
  function AddUnseen<T, K(==)>(rows: seq<Row<Ordered<T>>>, user: nat, records: seq<T>, key: T -> K): seq<Row<Ordered<T>>> {
    AppendAll(rows, user, Unseen(records, StoredKeys(rows, user, key), key))
  }

  /** How often a record is added: never when the user already has its key, otherwise as
      often as the fragment lists it (two equal items are both added). */
  lemma {:induction false} UnseenCount<T, K>(records: seq<T>, stored: set<K>, key: T -> K, x: T)
    ensures Count(Unseen(records, stored, key), x) == if key(x) in stored then 0 else Count(records, x)
  {
    if records != [] {
      var pre := records[..|records| - 1];
      var last := records[|records| - 1];
      UnseenCount(pre, stored, key, x);
      var u := Unseen(pre, stored, key);
      if key(last) !in stored {
        assert (u + [last])[..|u + [last]| - 1] == u;
      } else {
        assert u + [] == u;
      }
    }
  }

  /** What `AddUnseen` does to a table: the stored rows are kept, and every added row belongs
      to `user`, has order 0 and a record whose key the user did not have before. */
  lemma AddUnseenAppends<T, K>(rows: seq<Row<Ordered<T>>>, user: nat, records: seq<T>, key: T -> K)
    ensures var r := AddUnseen(rows, user, records, key);
      && |rows| <= |r| && r[..|rows|] == rows
      && (forall i | |rows| <= i < |r| ::
            r[i].userId == user && r[i].data.order == 0 && key(r[i].data.record) !in StoredKeys(rows, user, key))
  {
    var u := Unseen(records, StoredKeys(rows, user, key), key);
    var r := AddUnseen(rows, user, records, key);
    forall i | |rows| <= i < |r|
      ensures r[i].userId == user && r[i].data.order == 0 && key(r[i].data.record) !in StoredKeys(rows, user, key)
    {
    }
  }

  /** After the merge, the user has the key of every record of the fragment. */
  lemma AddUnseenCovers<T, K>(rows: seq<Row<Ordered<T>>>, user: nat, records: seq<T>, key: T -> K)
    ensures var r := AddUnseen(rows, user, records, key);
      forall i | 0 <= i < |records| :: key(records[i]) in StoredKeys(r, user, key)
  {
    var stored := StoredKeys(rows, user, key);
    var u := Unseen(records, stored, key);
    var r := AddUnseen(rows, user, records, key);
    forall i | 0 <= i < |records| ensures key(records[i]) in StoredKeys(r, user, key) {
      var x := records[i];
      if key(x) in stored {
        var j :| 0 <= j < |rows| && rows[j].userId == user && key(rows[j].data.record) == key(x);
        assert r[j] == r[..|rows|][j];
      } else {
        UnseenCount(records, stored, key, x);
        CountIn(records, x);
        CountIn(u, x);
        var k :| 0 <= k < |u| && u[k] == x;
        assert r[|rows| + k].data == Ordered(0, x);
      }
    }
  }

  lemma {:induction false} UnseenOfCovered<T, K>(records: seq<T>, stored: set<K>, key: T -> K)
    requires forall i | 0 <= i < |records| :: key(records[i]) in stored
    ensures Unseen(records, stored, key) == []
  {
    if records != [] {
      UnseenOfCovered(records[..|records| - 1], stored, key);
    }
  }

  /** Re-running one of the de-duplicating loops on its own result adds nothing. */
  lemma AddUnseenIdempotent<T, K>(rows: seq<Row<Ordered<T>>>, user: nat, records: seq<T>, key: T -> K)
    ensures var r := AddUnseen(rows, user, records, key);
      AddUnseen(r, user, records, key) == r
  {
    var r := AddUnseen(rows, user, records, key);
    AddUnseenCovers(rows, user, records, key);
    UnseenOfCovered(records, StoredKeys(r, user, key), key);
  }

  // ---- Skills: union by category ----

  predicate IsCategoryRow(row: Row<Ordered<Skill>>, user: nat, c: Option<string>) {
    row.userId == user && row.data.record.category == c
  }

  function FindCategoryFrom(rows: seq<Row<Ordered<Skill>>>, n: nat, user: nat, c: Option<string>, from: nat): (r: Option<nat>)
    decreases n - from
    ensures r.Some? ==> from <= r.value < n && r.value < |rows| && IsCategoryRow(rows[r.value], user, c)
    ensures r.Some? ==> forall j | from <= j < r.value :: !IsCategoryRow(rows[j], user, c)
    ensures r.None? ==> forall j | from <= j < n && j < |rows| :: !IsCategoryRow(rows[j], user, c)
  {
    if from >= n || from >= |rows| then None
    else if IsCategoryRow(rows[from], user, c) then Some(from)
    else FindCategoryFrom(rows, n, user, c, from + 1)
  }

  /** `db.query(Skill).filter(user_id, category).first()`: the first of the `n` committed rows
      of `rows` owned by `user` with category `c`. The later rows were added by this merge
      and are not flushed, so the query cannot see them. */
  function FindCategory(rows: seq<Row<Ordered<Skill>>>, n: nat, user: nat, c: Option<string>): (r: Option<nat>)
    ensures r.Some? ==> r.value < n && r.value < |rows| && IsCategoryRow(rows[r.value], user, c)
    ensures r.Some? ==> forall j | 0 <= j < r.value :: !IsCategoryRow(rows[j], user, c)
    ensures r.None? <==> forall j | 0 <= j < n && j < |rows| :: !IsCategoryRow(rows[j], user, c)
  {
    FindCategoryFrom(rows, n, user, c, 0)
  }

  /** The first match is determined by the position of the first matching row. */
  lemma FindCategoryIs(rows: seq<Row<Ordered<Skill>>>, n: nat, user: nat, c: Option<string>, i: nat)
    requires i < n && i < |rows| && IsCategoryRow(rows[i], user, c)
    requires forall j | 0 <= j < i :: !IsCategoryRow(rows[j], user, c)
    ensures FindCategory(rows, n, user, c) == Some(i)
  {
  }

  /** `list(set(current_skills + new_skills))`: each skill once. Python leaves the order of
      the list unspecified; the model keeps first occurrences. */
  function Dedup(s: seq<string>): (r: seq<string>)
    ensures forall i, j | 0 <= i < j < |r| :: r[i] != r[j]
    ensures forall x :: x in r <==> x in s
  {
    if s == [] then []
    else
      var d := Dedup(s[..|s| - 1]);
      if s[|s| - 1] in d then d else d + [s[|s| - 1]]
  }

  function SkillUnion(current: Option<seq<string>>, incoming: seq<string>): (r: seq<string>)
    ensures forall i, j | 0 <= i < j < |r| :: r[i] != r[j]
    ensures forall x :: x in r <==> x in current.GetOr([]) || x in incoming
  {
    Dedup(current.GetOr([]) + incoming)
  }

  /** Why a merge raised. Iterating a null list (`for x in None`) or adding one to a list
      (`current_skills + None`) is a TypeError. */
  datatype MergeError = NullList(key: string) | NullSkillList

  /** The skill groups after one skill item. An item whose category the user has (among the
      `n` committed rows) unions its list into that group (`skill_data.get('skills', [])`:
      none when the key is missing, a TypeError when it is null); any other item becomes a
      new group. */
  function SkillStep(rows: seq<Row<Ordered<Skill>>>, n: nat, user: nat, item: RawSkills): Result<seq<Row<Ordered<Skill>>>, MergeError> {
    match FindCategory(rows, n, user, item.category)
    case Some(i) =>
      (match item.skills.GetOr([])
       case None => Err(NullSkillList)
       case Some(incoming) =>
         var row := rows[i];
         Ok(rows[i := row.(data := row.data.(record := row.data.record.(skills := Some(SkillUnion(row.data.record.skills, incoming)))))]))
    case None => Ok(Insert(rows, user, Ordered(0, SkillRecord(item))))
  }

  /** Two rows are the same group: same key, owner, order and category. */
  predicate SameGroup(a: Row<Ordered<Skill>>, b: Row<Ordered<Skill>>) {
    a.id == b.id && a.userId == b.userId && a.data.order == b.data.order
    && a.data.record.category == b.data.record.category
  }

  /** `b` keeps the groups of `a` in place and may have more after them. */
  predicate KeepsGroups(a: seq<Row<Ordered<Skill>>>, b: seq<Row<Ordered<Skill>>>) {
    |a| <= |b| && forall j | 0 <= j < |a| :: SameGroup(a[j], b[j])
  }

  /** The skill loop over `items`, with the lookups against the `n` committed rows. */
  function MergeSkills(rows: seq<Row<Ordered<Skill>>>, n: nat, user: nat, items: seq<RawSkills>): (r: Result<seq<Row<Ordered<Skill>>>, MergeError>)
    requires n <= |rows|
    ensures r.Ok? ==> KeepsGroups(rows, r.value)
    ensures r.Ok? ==> forall j | |rows| <= j < |r.value| :: r.value[j].userId == user && r.value[j].data.order == 0
    ensures r.Ok? && UniqueIds(rows) ==> UniqueIds(r.value)
    ensures r.Ok? ==> forall j | 0 <= j < |rows| && rows[j].userId != user :: r.value[j] == rows[j]
  {
    if items == [] then Ok(rows)
    else
      var prev :- MergeSkills(rows, n, user, items[..|items| - 1]);
      var r := SkillStep(prev, n, user, items[|items| - 1]);
      SkillStepKeeps(prev, n, user, items[|items| - 1]);
      r
  }

  /** One skill step keeps every group in place, adds only groups of `user` with order 0,
      and leaves the other users' rows alone. */
  lemma SkillStepKeeps(prev: seq<Row<Ordered<Skill>>>, n: nat, user: nat, item: RawSkills)
    ensures var r := SkillStep(prev, n, user, item);
      r.Ok? ==>
        && KeepsGroups(prev, r.value)
        && (forall j | |prev| <= j < |r.value| :: r.value[j].userId == user && r.value[j].data.order == 0)
        && (forall j | 0 <= j < |prev| && prev[j].userId != user :: r.value[j] == prev[j])
        && (UniqueIds(prev) ==> UniqueIds(r.value))
  {
    var r := SkillStep(prev, n, user, item);
    if r.Ok? {
      if FindCategory(prev, n, user, item.category).None? {
        assert forall j | 0 <= j < |prev| :: r.value[j] == prev[j];
      } else {
        assert forall j | 0 <= j < |prev| :: r.value[j].id == prev[j].id;
      }
    }
  }

  /** The skill loop unrolled by its last item. */
  lemma MergeSkillsLast(rows: seq<Row<Ordered<Skill>>>, n: nat, user: nat, items: seq<RawSkills>)
    requires n <= |rows| && items != []
    ensures var p := MergeSkills(rows, n, user, items[..|items| - 1]);
      MergeSkills(rows, n, user, items) == if p.Err? then Err(p.error) else SkillStep(p.value, n, user, items[|items| - 1])
  {
  }

  lemma SkillStepFails(rows: seq<Row<Ordered<Skill>>>, n: nat, user: nat, item: RawSkills)
    ensures SkillStep(rows, n, user, item).Err? <==> item.skills.Null? && FindCategory(rows, n, user, item.category).Some?
  {
  }

  /** Rows that keep each other's groups give the same lookup answers. */
  lemma FindCategoryKept(a: seq<Row<Ordered<Skill>>>, b: seq<Row<Ordered<Skill>>>, n: nat, user: nat, c: Option<string>)
    requires KeepsGroups(a, b) && n <= |a|
    ensures FindCategory(a, n, user, c) == FindCategory(b, n, user, c)
  {
    assert forall j | 0 <= j < |a| :: IsCategoryRow(a[j], user, c) == IsCategoryRow(b[j], user, c) by {
      forall j | 0 <= j < |a| ensures IsCategoryRow(a[j], user, c) == IsCategoryRow(b[j], user, c) {
        assert SameGroup(a[j], b[j]);
      }
    }
    var r := FindCategory(a, n, user, c);
    if r.Some? {
      FindCategoryIs(b, n, user, c, r.value);
    }
  }

  /** The set of skills a group holds. */
  function SkillSet(row: Row<Ordered<Skill>>): set<string> {
    set x | x in row.data.record.skills.GetOr([])
  }

  /** A skill item whose category the user already has adds its skills to that group, which
      ends up holding exactly the union of the old and the new skills, each once; the
      other groups are untouched. */
  lemma SkillStepUnion(rows: seq<Row<Ordered<Skill>>>, n: nat, user: nat, item: RawSkills)
    requires FindCategory(rows, n, user, item.category).Some? && !item.skills.Null?
    ensures var i := FindCategory(rows, n, user, item.category).value;
      var r := SkillStep(rows, n, user, item);
      && r.Ok? && |r.value| == |rows| && SameGroup(r.value[i], rows[i])
      && SkillSet(r.value[i]) == SkillSet(rows[i]) + set x | x in item.skills.GetOr([]).GetOr([])
      && (forall a, b | 0 <= a < b < |r.value[i].data.record.skills.GetOr([])| ::
            r.value[i].data.record.skills.GetOr([])[a] != r.value[i].data.record.skills.GetOr([])[b])
      && forall j | 0 <= j < |rows| && j != i :: r.value[j] == rows[j]
  {
  }

  /** A skill item with a category the user does not have becomes a new group at the end. */
  lemma SkillStepNewGroup(rows: seq<Row<Ordered<Skill>>>, n: nat, user: nat, item: RawSkills)
    requires FindCategory(rows, n, user, item.category).None?
    ensures var r := SkillStep(rows, n, user, item);
      && r.Ok? && |r.value| == |rows| + 1 && r.value[..|rows|] == rows
      && r.value[|rows|].userId == user && r.value[|rows|].data == Ordered(0, SkillRecord(item))
  {
  }

  // ---- The whole merge block ----

  /** The profile columns after the merge: personal information, then the summary, each
      written only where empty. */
  function MergeProfile(stored: Profile, d: Fragment): (r: Profile)
    ensures r.languages == stored.languages && r.hobbies == stored.hobbies
    ensures r.selectedTemplate == stored.selectedTemplate
    ensures Filled(stored.summary) ==> r.summary == stored.summary
    ensures forall j | 0 <= j < 7 && Filled(PersonalFields(stored)[j]) :: PersonalFields(r)[j] == PersonalFields(stored)[j]
  {
    var withInfo := if d.personalInfo.Value? then FillPersonal(stored, d.personalInfo.value) else stored;
    FillSummary(withInfo, d.summary)
  }

  lemma MergeProfileIdempotent(stored: Profile, d: Fragment)
    ensures MergeProfile(MergeProfile(stored, d), d) == MergeProfile(stored, d)
  {
    var p1 := MergeProfile(stored, d);
    var w1 := if d.personalInfo.Value? then FillPersonal(stored, d.personalInfo.value) else stored;
    var w2 := if d.personalInfo.Value? then FillPersonal(p1, d.personalInfo.value) else p1;
    assert PersonalFields(p1) == PersonalFields(w1);
    if d.personalInfo.Value? {
      var info := d.personalInfo.value;
      assert PersonalFields(w2) == PersonalFields(p1) by {
        forall j | 0 <= j < 7 ensures PersonalFields(w2)[j] == PersonalFields(p1)[j] {
          assert PersonalFields(w1)[j] == FillIfEmpty(PersonalFields(stored)[j], InfoFields(info)[j]);
        }
      }
      ProfileByFields(w2, p1);
    }
    assert w2 == p1;
  }

  /** The merge block of the chat endpoint up to its commit, on the committed tables: the
      new tables, or the error it raises. The profile row is created when the user has none.
      `'experience'` is guarded by truthiness, the other three lists by `in` only, so a null
      value there is iterated and raises. */
  function MergeFragment(t: ProfileTables, user: nat, d: Fragment): Result<ProfileTables, MergeError> {
    var stored := if user in t.profiles then t.profiles[user] else EmptyProfile;
    var experiences :=
      if d.experience.Value? then AddUnseen(t.experiences, user, ExperienceRecords(d.experience.value), ExperienceKey)
      else t.experiences;
    if d.education.Null? then Err(NullList("education"))
    else
      var education :=
        if d.education.Value? then AddUnseen(t.education, user, EducationRecords(d.education.value), EducationKey)
        else t.education;
      if d.skills.Null? then Err(NullList("skills"))
      else
        var skills :- if d.skills.Value? then MergeSkills(t.skills, |t.skills|, user, d.skills.value) else Ok(t.skills);
        if d.projects.Null? then Err(NullList("projects"))
        else
          var projects :=
            if d.projects.Value? then AddUnseen(t.projects, user, ProjectRecords(d.projects.value), ProjectKey)
            else t.projects;
          Ok(ProfileTables(t.profiles[user := MergeProfile(stored, d)], experiences, education, skills, projects))
  }

  /** The merge block as the endpoint runs it: an empty fragment is skipped, and a merge that
      raises is discarded, leaving the committed tables as they were. */
  function ChatMerge(t: ProfileTables, user: nat, d: Fragment): (r: ProfileTables)
    ensures d.IsEmptyObject() || MergeFragment(t, user, d).Err? ==> r == t
    ensures !d.IsEmptyObject() && MergeFragment(t, user, d).Ok? ==> r == MergeFragment(t, user, d).value
  {
    if d.IsEmptyObject() then t
    else match MergeFragment(t, user, d)
      case Ok(merged) => merged
      case Err(_) => t
  }

  /** A skill item with a null list fails on a category the user already has. */
  predicate NullListForStoredCategory(rows: seq<Row<Ordered<Skill>>>, user: nat, items: seq<RawSkills>) {
    exists k | 0 <= k < |items| :: items[k].skills.Null? && FindCategory(rows, |rows|, user, items[k].category).Some?
  }

  /** The failing item is among the earlier ones or is the last. */
  lemma NullListLast(rows: seq<Row<Ordered<Skill>>>, user: nat, items: seq<RawSkills>)
    requires items != []
    ensures var y := items[|items| - 1];
      NullListForStoredCategory(rows, user, items) <==>
        NullListForStoredCategory(rows, user, items[..|items| - 1])
        || (y.skills.Null? && FindCategory(rows, |rows|, user, y.category).Some?)
  {
    var pre := items[..|items| - 1];
    if NullListForStoredCategory(rows, user, pre) {
      var k :| 0 <= k < |pre| && pre[k].skills.Null? && FindCategory(rows, |rows|, user, pre[k].category).Some?;
      assert items[k] == pre[k];
    }
    if NullListForStoredCategory(rows, user, items) {
      var k :| 0 <= k < |items| && items[k].skills.Null? && FindCategory(rows, |rows|, user, items[k].category).Some?;
      if k < |pre| {
        assert items[k] == pre[k];
      }
    }
  }

  lemma {:induction false} MergeSkillsFails(rows: seq<Row<Ordered<Skill>>>, user: nat, items: seq<RawSkills>)
    ensures MergeSkills(rows, |rows|, user, items).Err? <==> NullListForStoredCategory(rows, user, items)
  {
    if items != [] {
      var pre := items[..|items| - 1];
      var y := items[|items| - 1];
      MergeSkillsFails(rows, user, pre);
      MergeSkillsLast(rows, |rows|, user, items);
      NullListLast(rows, user, items);
      if MergeSkills(rows, |rows|, user, pre).Ok? {
        var prev := MergeSkills(rows, |rows|, user, pre).value;
        FindCategoryKept(rows, prev, |rows|, user, y.category);
        SkillStepFails(prev, |rows|, user, y);
      }
    }
  }

  /** The merge raises exactly when one of 'education', 'skills', 'projects' is null, or
      when a skill item with a null list names a category the user already has. */
  lemma MergeFragmentFails(t: ProfileTables, user: nat, d: Fragment)
    ensures MergeFragment(t, user, d).Err? <==>
      d.education.Null? || d.skills.Null? || d.projects.Null?
      || (d.skills.Value? && NullListForStoredCategory(t.skills, user, d.skills.value))
  {
    if d.skills.Value? {
      MergeSkillsFails(t.skills, user, d.skills.value);
    }
  }

  /** A merge touches only the user's data: other users' profiles and rows stay as they
      were, committed rows are never removed, and every added row belongs to the user. */
  lemma MergeFragmentScope(t: ProfileTables, user: nat, d: Fragment)
    requires MergeFragment(t, user, d).Ok?
    ensures var r := MergeFragment(t, user, d).value;
      && user in r.profiles
      && (forall u | u != user :: (u in r.profiles <==> u in t.profiles) && (u in t.profiles ==> r.profiles[u] == t.profiles[u]))
      && |t.experiences| <= |r.experiences| && r.experiences[..|t.experiences|] == t.experiences
      && (forall j | |t.experiences| <= j < |r.experiences| :: r.experiences[j].userId == user)
      && |t.education| <= |r.education| && r.education[..|t.education|] == t.education
      && (forall j | |t.education| <= j < |r.education| :: r.education[j].userId == user)
      && |t.projects| <= |r.projects| && r.projects[..|t.projects|] == t.projects
      && (forall j | |t.projects| <= j < |r.projects| :: r.projects[j].userId == user)
      && KeepsGroups(t.skills, r.skills)
      && (forall j | 0 <= j < |t.skills| && t.skills[j].userId != user :: r.skills[j] == t.skills[j])
      && (forall j | |t.skills| <= j < |r.skills| :: r.skills[j].userId == user)
      && (t.Valid() ==> r.Valid())
  {
    MergeFragmentOk(t, user, d);
    if d.experience.Value? { AddUnseenAppends(t.experiences, user, ExperienceRecords(d.experience.value), ExperienceKey); }
    if d.education.Value? { AddUnseenAppends(t.education, user, EducationRecords(d.education.value), EducationKey); }
    if d.projects.Value? { AddUnseenAppends(t.projects, user, ProjectRecords(d.projects.value), ProjectKey); }
  }

  // ---- Re-applying a committed fragment ----

  predicate HasGroup(rows: seq<Row<Ordered<Skill>>>, user: nat, item: RawSkills) {
    FindCategory(rows, |rows|, user, item.category).Some?
  }

  /** The user has a group for the item's category holding every skill of its list. */
  predicate Covers(rows: seq<Row<Ordered<Skill>>>, user: nat, item: RawSkills) {
    var f := FindCategory(rows, |rows|, user, item.category);
    f.Some? && (item.skills.Value? ==> forall x | x in item.skills.value :: x in SkillSet(rows[f.value]))
  }

  predicate NamesCategory(items: seq<RawSkills>, c: Option<string>) {
    exists k | 0 <= k < |items| :: items[k].category == c
  }

  /** Every category the fragment names more than once is one the user already has: the
      condition under which a second merge of the fragment keeps every skill set. */
  predicate RepeatsOnlyStored(rows: seq<Row<Ordered<Skill>>>, user: nat, items: seq<RawSkills>) {
    forall a, b | 0 <= a < b < |items| && items[a].category == items[b].category ::
      FindCategory(rows, |rows|, user, items[a].category).Some?
  }

  /** What one pass of the skill loop leaves behind, from `rows` to `r`. */
  predicate PassFacts(rows: seq<Row<Ordered<Skill>>>, user: nat, items: seq<RawSkills>, r: seq<Row<Ordered<Skill>>>) {
    && (forall k | 0 <= k < |items| :: HasGroup(r, user, items[k]))
    && (forall j | |rows| <= j < |r| :: NamesCategory(items, r[j].data.record.category))
    && (RepeatsOnlyStored(rows, user, items) ==> forall k | 0 <= k < |items| :: Covers(r, user, items[k]))
  }

  lemma RepeatsOnlyStoredPrefix(rows: seq<Row<Ordered<Skill>>>, user: nat, items: seq<RawSkills>)
    requires items != [] && RepeatsOnlyStored(rows, user, items)
    ensures RepeatsOnlyStored(rows, user, items[..|items| - 1])
  {
    var pre := items[..|items| - 1];
    forall a, b | 0 <= a < b < |pre| && pre[a].category == pre[b].category
      ensures FindCategory(rows, |rows|, user, pre[a].category).Some?
    {
      assert items[a] == pre[a] && items[b] == pre[b];
    }
  }

  /** A step on an item whose category the user has keeps every group in place and only
      grows skill sets; the item's group then covers it. */
  lemma ExistingStepGrows(prev: seq<Row<Ordered<Skill>>>, n: nat, user: nat, y: RawSkills)
    requires n <= |prev| && FindCategory(prev, n, user, y.category).Some? && !y.skills.Null?
    ensures var r := SkillStep(prev, n, user, y);
      r.Ok? && |r.value| == |prev| && KeepsGroups(prev, r.value)
    ensures var r := SkillStep(prev, n, user, y).value;
      forall j | 0 <= j < |prev| :: SkillSet(prev[j]) <= SkillSet(r[j])
    ensures var r := SkillStep(prev, n, user, y).value;
      forall j | n <= j < |prev| :: r[j] == prev[j]
    ensures HasGroup(prev, user, y)
    ensures Covers(SkillStep(prev, n, user, y).value, user, y)
  {
    var i := FindCategory(prev, n, user, y.category).value;
    SkillStepUnion(prev, n, user, y);
    FindCategoryIs(prev, |prev|, user, y.category, i);
    var r := SkillStep(prev, n, user, y).value;
    FindCategoryKept(prev, r, |prev|, user, y.category);
  }

  /** Rows with the same groups answer every lookup alike. */
  lemma LookupsKept(a: seq<Row<Ordered<Skill>>>, b: seq<Row<Ordered<Skill>>>, user: nat)
    requires KeepsGroups(a, b) && |a| == |b|
    ensures forall c :: FindCategory(b, |b|, user, c) == FindCategory(a, |a|, user, c)
  {
    forall c ensures FindCategory(b, |b|, user, c) == FindCategory(a, |a|, user, c) {
      FindCategoryKept(a, b, |a|, user, c);
    }
  }

  /** Growing skill sets in place keeps what each group covers. */
  lemma CoversKept(a: seq<Row<Ordered<Skill>>>, b: seq<Row<Ordered<Skill>>>, user: nat, item: RawSkills)
    requires KeepsGroups(a, b) && |a| == |b|
    requires forall j | 0 <= j < |a| :: SkillSet(a[j]) <= SkillSet(b[j])
    requires Covers(a, user, item)
    ensures Covers(b, user, item)
  {
    FindCategoryKept(a, b, |a|, user, item.category);
  }

  /** The last item of a pass finds its category among the committed rows: every item
      still has its group ... */
  lemma PassExistingGroups(rows: seq<Row<Ordered<Skill>>>, user: nat, items: seq<RawSkills>, prev: seq<Row<Ordered<Skill>>>)
    requires items != [] && KeepsGroups(rows, prev)
    requires PassFacts(rows, user, items[..|items| - 1], prev)
    requires FindCategory(prev, |rows|, user, items[|items| - 1].category).Some?
    requires !items[|items| - 1].skills.Null?
    ensures var r := SkillStep(prev, |rows|, user, items[|items| - 1]).value;
      forall k | 0 <= k < |items| :: HasGroup(r, user, items[k])
  {
    var pre := items[..|items| - 1];
    var y := items[|items| - 1];
    ExistingStepGrows(prev, |rows|, user, y);
    var r := SkillStep(prev, |rows|, user, y).value;
    LookupsKept(prev, r, user);
    forall k | 0 <= k < |items| ensures HasGroup(r, user, items[k]) {
      if k < |pre| {
        assert items[k] == pre[k];
        assert HasGroup(prev, user, pre[k]);
      }
    }
  }

  /** ... the groups after the committed rows are still named by the items ... */
  lemma PassExistingNames(rows: seq<Row<Ordered<Skill>>>, user: nat, items: seq<RawSkills>, prev: seq<Row<Ordered<Skill>>>)
    requires items != [] && KeepsGroups(rows, prev)
    requires PassFacts(rows, user, items[..|items| - 1], prev)
    requires FindCategory(prev, |rows|, user, items[|items| - 1].category).Some?
    requires !items[|items| - 1].skills.Null?
    ensures var r := SkillStep(prev, |rows|, user, items[|items| - 1]).value;
      forall j | |rows| <= j < |r| :: NamesCategory(items, r[j].data.record.category)
  {
    var pre := items[..|items| - 1];
    ExistingStepGrows(prev, |rows|, user, items[|items| - 1]);
    var r := SkillStep(prev, |rows|, user, items[|items| - 1]).value;
    forall j | |rows| <= j < |r| ensures NamesCategory(items, r[j].data.record.category) {
      assert r[j] == prev[j];
      assert NamesCategory(pre, prev[j].data.record.category);
      var k :| 0 <= k < |pre| && pre[k].category == prev[j].data.record.category;
      assert items[k] == pre[k];
    }
  }

  /** ... and, when only stored categories repeat, every item is covered. */
  lemma PassExistingCovers(rows: seq<Row<Ordered<Skill>>>, user: nat, items: seq<RawSkills>, prev: seq<Row<Ordered<Skill>>>)
    requires items != [] && KeepsGroups(rows, prev)
    requires PassFacts(rows, user, items[..|items| - 1], prev)
    requires FindCategory(prev, |rows|, user, items[|items| - 1].category).Some?
    requires !items[|items| - 1].skills.Null?
    requires RepeatsOnlyStored(rows, user, items)
    ensures var r := SkillStep(prev, |rows|, user, items[|items| - 1]).value;
      forall k | 0 <= k < |items| :: Covers(r, user, items[k])
  {
    var pre := items[..|items| - 1];
    var y := items[|items| - 1];
    ExistingStepGrows(prev, |rows|, user, y);
    var r := SkillStep(prev, |rows|, user, y).value;
    RepeatsOnlyStoredPrefix(rows, user, items);
    forall k | 0 <= k < |items| ensures Covers(r, user, items[k]) {
      if k < |pre| {
        assert items[k] == pre[k];
        assert Covers(prev, user, pre[k]);
        CoversKept(prev, r, user, pre[k]);
      }
    }
  }

  /** The last item of a pass names a category the committed rows lack: it becomes a group
      at the end, and the earlier items keep theirs ... */
  lemma PassNewGroups(rows: seq<Row<Ordered<Skill>>>, user: nat, items: seq<RawSkills>, prev: seq<Row<Ordered<Skill>>>)
    requires items != [] && KeepsGroups(rows, prev)
    requires PassFacts(rows, user, items[..|items| - 1], prev)
    requires FindCategory(prev, |rows|, user, items[|items| - 1].category).None?
    ensures var r := SkillStep(prev, |rows|, user, items[|items| - 1]).value;
      forall k | 0 <= k < |items| :: HasGroup(r, user, items[k])
  {
    var pre := items[..|items| - 1];
    var y := items[|items| - 1];
    var r := SkillStep(prev, |rows|, user, y).value;
    SkillStepNewGroup(prev, |rows|, user, y);
    assert forall j | 0 <= j < |prev| :: r[j] == prev[j];
    assert IsCategoryRow(r[|prev|], user, y.category);
    forall k | 0 <= k < |items| ensures HasGroup(r, user, items[k]) {
      if k < |pre| {
        assert items[k] == pre[k];
        assert HasGroup(prev, user, pre[k]);
        var i := FindCategory(prev, |prev|, user, pre[k].category).value;
        FindCategoryIs(r, |r|, user, pre[k].category, i);
      }
    }
  }

  /** ... and every group after the committed rows is named by an item ... */
  lemma PassNewNames(rows: seq<Row<Ordered<Skill>>>, user: nat, items: seq<RawSkills>, prev: seq<Row<Ordered<Skill>>>)
    requires items != [] && KeepsGroups(rows, prev)
    requires PassFacts(rows, user, items[..|items| - 1], prev)
    requires FindCategory(prev, |rows|, user, items[|items| - 1].category).None?
    ensures var r := SkillStep(prev, |rows|, user, items[|items| - 1]).value;
      forall j | |rows| <= j < |r| :: NamesCategory(items, r[j].data.record.category)
  {
    var pre := items[..|items| - 1];
    var y := items[|items| - 1];
    var r := SkillStep(prev, |rows|, user, y).value;
    SkillStepNewGroup(prev, |rows|, user, y);
    forall j | |rows| <= j < |r| ensures NamesCategory(items, r[j].data.record.category) {
      if j < |prev| {
        assert r[j] == prev[j];
        assert NamesCategory(pre, prev[j].data.record.category);
        var k :| 0 <= k < |pre| && pre[k].category == prev[j].data.record.category;
        assert items[k] == pre[k];
      } else {
        assert items[|items| - 1].category == r[j].data.record.category;
      }
    }
  }

  /** ... when the fragment names that category only once, the new group is the one the
      lookup finds ... */
  lemma PassNewFound(rows: seq<Row<Ordered<Skill>>>, user: nat, items: seq<RawSkills>, prev: seq<Row<Ordered<Skill>>>)
    requires items != [] && KeepsGroups(rows, prev)
    requires FindCategory(rows, |rows|, user, items[|items| - 1].category).None?
    requires PassFacts(rows, user, items[..|items| - 1], prev)
    requires FindCategory(prev, |rows|, user, items[|items| - 1].category).None?
    requires RepeatsOnlyStored(rows, user, items)
    ensures var r := SkillStep(prev, |rows|, user, items[|items| - 1]).value;
      FindCategory(r, |r|, user, items[|items| - 1].category) == Some(|prev|)
  {
    var pre := items[..|items| - 1];
    var y := items[|items| - 1];
    var r := SkillStep(prev, |rows|, user, y).value;
    SkillStepNewGroup(prev, |rows|, user, y);
    forall j | 0 <= j < |prev| ensures !IsCategoryRow(r[j], user, y.category) {
      assert r[j] == prev[j];
      if j >= |rows| {
        assert NamesCategory(pre, prev[j].data.record.category);
        var k :| 0 <= k < |pre| && pre[k].category == prev[j].data.record.category;
        assert k < |items| - 1 && items[k] == pre[k];
      }
    }
    FindCategoryIs(r, |r|, user, y.category, |prev|);
  }

  /** ... and the earlier items stay covered. */
  lemma PassNewCoversEarlier(rows: seq<Row<Ordered<Skill>>>, user: nat, items: seq<RawSkills>, prev: seq<Row<Ordered<Skill>>>)
    requires items != [] && KeepsGroups(rows, prev)
    requires PassFacts(rows, user, items[..|items| - 1], prev)
    requires FindCategory(prev, |rows|, user, items[|items| - 1].category).None?
    requires RepeatsOnlyStored(rows, user, items)
    ensures var r := SkillStep(prev, |rows|, user, items[|items| - 1]).value;
      forall k | 0 <= k < |items| - 1 :: Covers(r, user, items[k])
  {
    var pre := items[..|items| - 1];
    var y := items[|items| - 1];
    var r := SkillStep(prev, |rows|, user, y).value;
    SkillStepNewGroup(prev, |rows|, user, y);
    RepeatsOnlyStoredPrefix(rows, user, items);
    forall k | 0 <= k < |pre| ensures Covers(r, user, items[k]) {
      assert items[k] == pre[k];
      assert Covers(prev, user, pre[k]);
      var i := FindCategory(prev, |prev|, user, pre[k].category).value;
      assert r[i] == prev[i];
      FindCategoryIs(r, |r|, user, pre[k].category, i);
    }
  }

  lemma PassStepNewCovers(rows: seq<Row<Ordered<Skill>>>, user: nat, items: seq<RawSkills>, prev: seq<Row<Ordered<Skill>>>)
    requires items != [] && KeepsGroups(rows, prev)
    requires FindCategory(rows, |rows|, user, items[|items| - 1].category).None?
    requires PassFacts(rows, user, items[..|items| - 1], prev)
    requires FindCategory(prev, |rows|, user, items[|items| - 1].category).None?
    requires RepeatsOnlyStored(rows, user, items)
    ensures var r := SkillStep(prev, |rows|, user, items[|items| - 1]).value;
      forall k | 0 <= k < |items| :: Covers(r, user, items[k])
  {
    var y := items[|items| - 1];
    var r := SkillStep(prev, |rows|, user, y).value;
    SkillStepNewGroup(prev, |rows|, user, y);
    PassNewFound(rows, user, items, prev);
    PassNewCoversEarlier(rows, user, items, prev);
    assert Covers(r, user, y);
  }

  lemma {:induction false} FirstPass(rows: seq<Row<Ordered<Skill>>>, user: nat, items: seq<RawSkills>)
    requires MergeSkills(rows, |rows|, user, items).Ok?
    ensures PassFacts(rows, user, items, MergeSkills(rows, |rows|, user, items).value)
  {
    if items == [] { return; }
    var n := |rows|;
    var pre := items[..|items| - 1];
    var y := items[|items| - 1];
    MergeSkillsLast(rows, n, user, items);
    var prev := MergeSkills(rows, n, user, pre).value;
    FirstPass(rows, user, pre);
    FindCategoryKept(rows, prev, n, user, y.category);
    if FindCategory(prev, n, user, y.category).Some? {
      SkillStepFails(prev, n, user, y);
      PassExistingGroups(rows, user, items, prev);
      PassExistingNames(rows, user, items, prev);
      if RepeatsOnlyStored(rows, user, items) {
        PassExistingCovers(rows, user, items, prev);
      }
    } else {
      PassNewGroups(rows, user, items, prev);
      PassNewNames(rows, user, items, prev);
      if RepeatsOnlyStored(rows, user, items) {
        PassStepNewCovers(rows, user, items, prev);
      }
    }
  }

  /** One step of the second pass: the item's category is stored, so its group is found in
      place, and a covered item adds no skill to it. */
  lemma SecondStep(rows: seq<Row<Ordered<Skill>>>, prev: seq<Row<Ordered<Skill>>>, user: nat, y: RawSkills)
    requires KeepsGroups(rows, prev) && |prev| == |rows| && HasGroup(rows, user, y)
    requires SkillStep(prev, |rows|, user, y).Ok?
    ensures var r := SkillStep(prev, |rows|, user, y).value;
      |r| == |rows| && KeepsGroups(rows, r)
    ensures var r := SkillStep(prev, |rows|, user, y).value;
      Covers(rows, user, y) && (forall j | 0 <= j < |rows| :: SkillSet(prev[j]) == SkillSet(rows[j])) ==>
        forall j | 0 <= j < |rows| :: SkillSet(r[j]) == SkillSet(rows[j])
  {
    FindCategoryKept(rows, prev, |rows|, user, y.category);
    SkillStepFails(prev, |rows|, user, y);
    SkillStepUnion(prev, |rows|, user, y);
  }

  lemma {:induction false} SecondPass(rows: seq<Row<Ordered<Skill>>>, user: nat, items: seq<RawSkills>)
    requires forall k | 0 <= k < |items| :: HasGroup(rows, user, items[k])
    ensures var r := MergeSkills(rows, |rows|, user, items);
      r.Ok? ==> |r.value| == |rows| && KeepsGroups(rows, r.value)
    ensures var r := MergeSkills(rows, |rows|, user, items);
      r.Ok? && (forall k | 0 <= k < |items| :: Covers(rows, user, items[k])) ==>
        forall j | 0 <= j < |rows| :: SkillSet(r.value[j]) == SkillSet(rows[j])
  {
    if items == [] { return; }
    var n := |rows|;
    var pre := items[..|items| - 1];
    var y := items[|items| - 1];
    assert forall k | 0 <= k < |pre| :: items[k] == pre[k];
    SecondPass(rows, user, pre);
    MergeSkillsLast(rows, n, user, items);
    if MergeSkills(rows, n, user, items).Ok? {
      var prev := MergeSkills(rows, n, user, pre).value;
      SecondStep(rows, prev, user, y);
    }
  }

  /** The columns a merge that does not raise leaves behind, one table at a time. */
  lemma MergeFragmentOk(t: ProfileTables, user: nat, d: Fragment)
    requires MergeFragment(t, user, d).Ok?
    ensures var r := MergeFragment(t, user, d).value;
      var stored := if user in t.profiles then t.profiles[user] else EmptyProfile;
      && r.profiles == t.profiles[user := MergeProfile(stored, d)]
      && r.experiences == (if d.experience.Value? then AddUnseen(t.experiences, user, ExperienceRecords(d.experience.value), ExperienceKey) else t.experiences)
      && r.education == (if d.education.Value? then AddUnseen(t.education, user, EducationRecords(d.education.value), EducationKey) else t.education)
      && r.projects == (if d.projects.Value? then AddUnseen(t.projects, user, ProjectRecords(d.projects.value), ProjectKey) else t.projects)
      && (d.skills.Value? ==> MergeSkills(t.skills, |t.skills|, user, d.skills.value) == Ok(r.skills))
      && (!d.skills.Value? ==> r.skills == t.skills)
  {
  }

  /** Merging `d` into the tables a merge of `d` produced, when both do not raise, changes
      no profile column and adds no experience, education or project row. */
  lemma SecondMergeKeepsRows(t: ProfileTables, user: nat, d: Fragment)
    requires MergeFragment(t, user, d).Ok?
    requires MergeFragment(MergeFragment(t, user, d).value, user, d).Ok?
    ensures var t1 := MergeFragment(t, user, d).value; var t2 := MergeFragment(t1, user, d).value;
      && t2.profiles == t1.profiles && t2.experiences == t1.experiences
      && t2.education == t1.education && t2.projects == t1.projects
  {
    var t1 := MergeFragment(t, user, d).value;
    MergeFragmentOk(t, user, d);
    MergeFragmentOk(t1, user, d);
    var stored := if user in t.profiles then t.profiles[user] else EmptyProfile;
    MergeProfileIdempotent(stored, d);
    if d.experience.Value? { AddUnseenIdempotent(t.experiences, user, ExperienceRecords(d.experience.value), ExperienceKey); }
    if d.education.Value? { AddUnseenIdempotent(t.education, user, EducationRecords(d.education.value), EducationKey); }
    if d.projects.Value? { AddUnseenIdempotent(t.projects, user, ProjectRecords(d.projects.value), ProjectKey); }
  }

  /** ... and keeps the skill groups in place, with their skill sets when every category
      the fragment repeats was already stored. */
  lemma SecondMergeKeepsGroups(t: ProfileTables, user: nat, d: Fragment)
    requires MergeFragment(t, user, d).Ok?
    requires MergeFragment(MergeFragment(t, user, d).value, user, d).Ok?
    ensures var t1 := MergeFragment(t, user, d).value; var t2 := MergeFragment(t1, user, d).value;
      && |t2.skills| == |t1.skills| && KeepsGroups(t1.skills, t2.skills)
      && ((d.skills.Value? ==> RepeatsOnlyStored(t.skills, user, d.skills.value)) ==>
            forall j | 0 <= j < |t1.skills| :: SkillSet(t2.skills[j]) == SkillSet(t1.skills[j]))
  {
    var t1 := MergeFragment(t, user, d).value;
    MergeFragmentOk(t, user, d);
    MergeFragmentOk(t1, user, d);
    if d.skills.Value? {
      FirstPass(t.skills, user, d.skills.value);
      SecondPass(t1.skills, user, d.skills.value);
    }
  }

  /** Re-applying a fragment right after it was committed adds no row and changes no
      profile column; the skill groups keep their places and categories, and, when every
      category the fragment repeats was already stored, their skill sets too. */
  lemma ChatMergeIdempotent(t: ProfileTables, user: nat, d: Fragment)
    ensures var t1 := ChatMerge(t, user, d); var t2 := ChatMerge(t1, user, d);
      && t2.profiles == t1.profiles && t2.experiences == t1.experiences
      && t2.education == t1.education && t2.projects == t1.projects
      && |t2.skills| == |t1.skills| && KeepsGroups(t1.skills, t2.skills)
      && ((d.skills.Value? ==> RepeatsOnlyStored(t.skills, user, d.skills.value)) ==>
            forall j | 0 <= j < |t1.skills| :: SkillSet(t2.skills[j]) == SkillSet(t1.skills[j]))
  {
    var t1 := ChatMerge(t, user, d);
    if d.IsEmptyObject() || MergeFragment(t, user, d).Err? || MergeFragment(t1, user, d).Err? {
      assert ChatMerge(t1, user, d) == t1;
      assert KeepsGroups(t1.skills, t1.skills);
    } else {
      SecondMergeKeepsRows(t, user, d);
      SecondMergeKeepsGroups(t, user, d);
    }
  }

  /** Two new skill items with the same category give two groups; merging the fragment
      again unions the second list into the first group, so its skill set grows. */
  lemma RepeatedNewCategoryGrowsSkills()
    ensures var d := Fragment(Absent, Absent, Absent, Absent,
        Value([RawSkills(Some("Languages"), Value(["Go"])), RawSkills(Some("Languages"), Value(["Rust"]))]), Absent);
      var t := ProfileTables(map[], [], [], [], []);
      var t1 := ChatMerge(t, 1, d);
      var t2 := ChatMerge(t1, 1, d);
      |t1.skills| == 2 && SkillSet(t1.skills[0]) == {"Go"} && SkillSet(t2.skills[0]) == {"Go", "Rust"}
  {
    var go := RawSkills(Some("Languages"), Value(["Go"]));
    var rust := RawSkills(Some("Languages"), Value(["Rust"]));
    var d := Fragment(Absent, Absent, Absent, Absent, Value([go, rust]), Absent);
    var t := ProfileTables(map[], [], [], [], []);
    assert [go, rust][..1] == [go];
    var s1 := Insert([], 1, Ordered(0, SkillRecord(go)));
    assert MergeSkills([], 0, 1, [go]) == Ok(s1);
    var s2 := Insert(s1, 1, Ordered(0, SkillRecord(rust)));
    assert MergeSkills([], 0, 1, [go, rust]) == Ok(s2);
    var t1 := ChatMerge(t, 1, d);
    assert t1.skills == s2;
    FindCategoryIs(s2, 2, 1, Some("Languages"), 0);
    var u1 := s2[0 := s2[0].(data := s2[0].data.(record := Skill(Some("Languages"), Some(Dedup(["Go"] + ["Go"])))))];
    assert MergeSkills(s2, 2, 1, [go]) == Ok(u1);
    FindCategoryIs(u1, 2, 1, Some("Languages"), 0);
    var u2 := u1[0 := u1[0].(data := u1[0].data.(record := Skill(Some("Languages"), Some(Dedup(Dedup(["Go"] + ["Go"]) + ["Rust"])))))];
    assert MergeSkills(s2, 2, 1, [go, rust]) == Ok(u2);
    assert SkillSet(u2[0]) == {"Go", "Rust"} by {
      assert "Rust" in u2[0].data.record.skills.value;
    }
  }

  // ---- The handler, on the database ----

  /** One of the de-duplicating loops: each record whose key is not among the user's
      committed rows is queued as a new row. */
  lemma UnseenSnoc<T, K>(records: seq<T>, i: nat, stored: set<K>, key: T -> K)
    requires i < |records|
    ensures Unseen(records[..i + 1], stored, key)
      == Unseen(records[..i], stored, key) + (if key(records[i]) in stored then [] else [records[i]])
  {
    assert records[..i + 1][..i] == records[..i];
  }

  lemma AppendAllSnoc<T>(rows: seq<Row<Ordered<T>>>, user: nat, u: seq<T>, x: T)
    ensures AppendAll(rows, user, u + [x]) == Insert(AppendAll(rows, user, u), user, Ordered(0, x))
  {
    assert (u + [x])[..|u|] == u;
  }

  method AddUnseenRows<T, K(==)>(rows: seq<Row<Ordered<T>>>, user: nat, records: seq<T>, key: T -> K) returns (r: seq<Row<Ordered<T>>>)
    ensures r == AddUnseen(rows, user, records, key)
  {
    var stored := StoredKeys(rows, user, key);
    r := rows;
    var i := 0;
    while i < |records|
      invariant 0 <= i <= |records|
      invariant r == AppendAll(rows, user, Unseen(records[..i], stored, key))
    {
      UnseenSnoc(records, i, stored, key);
      if key(records[i]) !in stored {
        AppendAllSnoc(rows, user, Unseen(records[..i], stored, key), records[i]);
        r := Insert(r, user, Ordered(0, records[i]));
      } else {
        assert Unseen(records[..i], stored, key) + [] == Unseen(records[..i], stored, key);
      }
      i := i + 1;
    }
    assert records[..i] == records;
  }


  lemma MergeSkillsFailurePersists(rows: seq<Row<Ordered<Skill>>>, n: nat, user: nat, items: seq<RawSkills>, k: nat)
    requires n <= |rows| && k <= |items| && MergeSkills(rows, n, user, items[..k]).Err?
    ensures MergeSkills(rows, n, user, items) == Err(MergeSkills(rows, n, user, items[..k]).error)
    decreases |items| - k
  {
    if k < |items| {
      assert items[..k + 1][..k] == items[..k];
      MergeSkillsFailurePersists(rows, n, user, items, k + 1);
    } else {
      assert items[..k] == items;
    }
  }

  /** The skill loop: each item looks its category up among the committed groups; a found
      group takes the union of its current and the new skills, any other item is queued
      as a new group. Returns the error the loop raises, if any. */
  method MergeSkillRows(rows: seq<Row<Ordered<Skill>>>, user: nat, items: seq<RawSkills>) returns (r: Result<seq<Row<Ordered<Skill>>>, MergeError>)
    ensures r == MergeSkills(rows, |rows|, user, items)
  {
    var current := rows;
    var i := 0;
    while i < |items|
      invariant 0 <= i <= |items|
      invariant MergeSkills(rows, |rows|, user, items[..i]) == Ok(current)
    {
      MergeSkillsLast(rows, |rows|, user, items[..i + 1]);
      assert items[..i + 1][..i] == items[..i];
      var found := FindCategory(current, |rows|, user, items[i].category);
      if found.Some? {
        var row := current[found.value];
        var incoming := items[i].skills.GetOr([]);
        if incoming.None? {
          MergeSkillsFailurePersists(rows, |rows|, user, items, i + 1);
          return Err(NullSkillList);
        }
        var updated := SkillUnion(row.data.record.skills, incoming.value);
        current := current[found.value := row.(data := row.data.(record := row.data.record.(skills := Some(updated))))];
      } else {
        current := Insert(current, user, Ordered(0, SkillRecord(items[i])));
      }
      i := i + 1;
    }
    assert items[..i] == items;
    return Ok(current);
  }

  /** The profile columns: the personal-information loop over the seven keys (`setattr`
      only where the incoming value is truthy and the stored one is not), then the summary. */
  method MergeProfileColumns(stored: Profile, d: Fragment) returns (profile: Profile)
    ensures profile == MergeProfile(stored, d)
  {
    profile := stored;
    if d.personalInfo.Value? {
      var values := InfoFields(d.personalInfo.value);
      var k := 0;
      while k < 7
        invariant 0 <= k <= 7
        invariant profile == FillFirst(stored, values, k)
      {
        if Filled(values[k]) && !Filled(PersonalFields(profile)[k]) {
          profile := WithPersonalField(profile, k, values[k]);
        }
        k := k + 1;
      }
    }
    if d.summary.Value? && d.summary.value != "" && !Filled(profile.summary) {
      profile := profile.(summary := Some(d.summary.value));
    }
  }

  /** The four list loops, queued in the session in that order; an error stops the block
      at the list that raises it. */
  method MergeTables(t: ProfileTables, user: nat, d: Fragment) returns (r: Result<ProfileTables, MergeError>)
    ensures r == MergeFragment(t, user, d)
  {
    var stored := if user in t.profiles then t.profiles[user] else EmptyProfile;
    var profile := MergeProfileColumns(stored, d);
    var experiences := t.experiences;
    if d.experience.Value? {
      experiences := AddUnseenRows(t.experiences, user, ExperienceRecords(d.experience.value), ExperienceKey);
    }
    if d.education.Null? {
      return Err(NullList("education"));
    }
    var education := t.education;
    if d.education.Value? {
      education := AddUnseenRows(t.education, user, EducationRecords(d.education.value), EducationKey);
    }
    if d.skills.Null? {
      return Err(NullList("skills"));
    }
    var skills := t.skills;
    if d.skills.Value? {
      var merged := MergeSkillRows(t.skills, user, d.skills.value);
      if merged.Err? {
        return Err(merged.error);
      }
      skills := merged.value;
    }
    if d.projects.Null? {
      return Err(NullList("projects"));
    }
    var projects := t.projects;
    if d.projects.Value? {
      projects := AddUnseenRows(t.projects, user, ProjectRecords(d.projects.value), ProjectKey);
    }
    return Ok(ProfileTables(t.profiles[user := profile], experiences, education, skills, projects));
  }

  /** The merge block on the database: skipped for an empty fragment; otherwise the merged
      tables are written by the commit, and a merge that raises writes nothing. */
  method ApplyFragment(db: Database, user: nat, d: Fragment)
    requires db.Valid()
    modifies db
    ensures db.Valid()
    ensures db.Tables() == ChatMerge(old(db.Tables()), user, d)
    ensures db.users == old(db.users) && db.resumes == old(db.resumes) && db.savedJobs == old(db.savedJobs)
  {
    if d.IsEmptyObject() {
      return;
    }
    var merged := MergeTables(db.Tables(), user, d);
    if merged.Err? {
      return;
    }
    MergeFragmentScope(db.Tables(), user, d);
    var t := merged.value;
    db.profiles, db.experiences, db.education, db.skills, db.projects := t.profiles, t.experiences, t.education, t.skills, t.projects;
  }

  // ---- The chat reply ----

  /** A stored chat message (`role` and `content` are nullable columns). */
  datatype Message = Message(role: Option<string>, content: Option<string>)

  /** A history turn as sent to the model: `types.Content(role, parts=[Part(text)])`. */
  datatype Content = Content(role: string, text: Option<string>)

  /** The stored history as the model receives it: "user" stays "user", every other role
      becomes "model", and the contents are kept in order. */
  function ModelHistory(stored: seq<Message>): (r: seq<Content>)
    ensures |r| == |stored|
    ensures forall i | 0 <= i < |stored| :: r[i].text == stored[i].content
    ensures forall i | 0 <= i < |stored| :: r[i].role == "user" <==> stored[i].role == Some("user")
    ensures forall i | 0 <= i < |stored| :: r[i].role == "user" || r[i].role == "model"
  {
    seq(|stored|, i requires 0 <= i < |stored| =>
      Content(if stored[i].role == Some("user") then "user" else "model", stored[i].content))
  }

  const FallbackReply := "Sorry, I encountered an error."

  /** The part of the endpoint's answer this model covers: the reply text and the history. */
  datatype ChatResponse = ChatResponse(message: Option<string>, history: seq<Message>)

  /** The reply is the answer's `message` (the fallback text when the key is missing), and
      the returned history is the stored one followed by this turn's two messages. */
  function Respond(stored: seq<Message>, userText: string, reply: ChatReply): (r: ChatResponse)
    ensures reply.message.Value? ==> r.message == Some(reply.message.value)
    ensures reply.message.Absent? ==> r.message == Some(FallbackReply)
    ensures reply.message.Null? ==> r.message == None
    ensures |r.history| == |stored| + 2 && r.history[..|stored|] == stored
    ensures r.history[|stored|] == Message(Some("user"), Some(userText))
    ensures r.history[|stored| + 1] == Message(Some("model"), r.message)
  {
    var text := reply.message.GetOr(FallbackReply);
    ChatResponse(text, stored + [Message(Some("user"), Some(userText)), Message(Some("model"), text)])
  }

  /** The profile tables after a chat turn: the answer's `extracted_data`, when present and
      not null, is merged. */
  function TurnTables(t: ProfileTables, user: nat, reply: ChatReply): ProfileTables {
    match reply.extractedData
    case Value(d) => ChatMerge(t, user, d)
    case _ => t
  }

  /** Whenever the service cannot ask the model, or the model's text does not decode, the
      turn changes no profile data and still answers with a message. */
  lemma DegradedTurnKeepsProfile(t: ProfileTables, user: nat, stored: seq<Message>, userText: string,
                                 configured: bool, call: ModelCall, parse: string -> Option<ChatReply>)
    requires !configured || call.Raised? || parse(call.text).None?
    ensures var reply := GenerateChatResponse(configured, call, parse);
      TurnTables(t, user, reply) == t && Respond(stored, userText, reply).message.Some?
  {
  }

  /** A merge that raises is discarded, and the reply is the same as if the answer had
      carried no data at all. */
  lemma FailedMergeStillReplies(t: ProfileTables, user: nat, stored: seq<Message>, userText: string, reply: ChatReply)
    requires reply.extractedData.Value? && MergeFragment(t, user, reply.extractedData.value).Err?
    ensures TurnTables(t, user, reply) == t
    ensures Respond(stored, userText, reply) == Respond(stored, userText, reply.(extractedData := Null))
  {
  }

  /** A complete answer of the schema's shape is always merged: no list in it is null, so
      the merge block cannot raise, the tables end as the committed merge of its data, and
      the reply is the answer's message. An answer with null data changes nothing. */
  lemma CompleteAnswerMerges(t: ProfileTables, user: nat, stored: seq<Message>, userText: string,
                             call: ModelCall, parse: string -> Option<ChatReply>, answer: ChatAndExtractResponse)
    requires call.Answered? && parse(call.text) == Some(DumpReply(answer))
    ensures var reply := GenerateChatResponse(true, call, parse);
      && Respond(stored, userText, reply).message == Some(answer.message)
      && (answer.extractedData.None? ==> TurnTables(t, user, reply) == t)
      && (answer.extractedData.Some? ==>
            MergeFragment(t, user, Dump(answer.extractedData.value)).Ok?
            && TurnTables(t, user, reply) == MergeFragment(t, user, Dump(answer.extractedData.value)).value)
  {
    if answer.extractedData.Some? {
      var d := Dump(answer.extractedData.value);
      MergeFragmentFails(t, user, d);
      assert !NullListForStoredCategory(t.skills, user, d.skills.value);
    }
  }

  /** The chat turn after the stored messages are read: the answer's data is merged into
      the database, and the reply does not depend on whether that merge succeeded. */
  method ChatTurn(db: Database, user: nat, stored: seq<Message>, userText: string, reply: ChatReply) returns (response: ChatResponse)
    requires db.Valid()
    modifies db
    ensures db.Valid()
    ensures response == Respond(stored, userText, reply)
    ensures db.Tables() == TurnTables(old(db.Tables()), user, reply)
    ensures db.users == old(db.users) && db.resumes == old(db.resumes) && db.savedJobs == old(db.savedJobs)
  {
    response := Respond(stored, userText, reply);
    if reply.extractedData.Value? {
      ApplyFragment(db, user, reply.extractedData.value);
    }
  }

  /** `chat_message` after the chat session is found or created: the caller is looked up
      (or created) by the session's email as `get_current_user_id` does, then the turn runs
      for that user. `stored` is the chat session's committed history. */
  method ChatMessage(db: Database, session: Session, stored: seq<Message>, userText: string, reply: ChatReply)
      returns (r: Result<ChatResponse, HttpError>)
    requires db.Valid()
    modifies db
    ensures db.Valid()
    ensures var c := Profiles.CurrentUser(old(db.users), session.data);
      && (c.Err? ==> r == Err(c.error) && db.State() == old(db.State()))
      && (c.Ok? ==> (r == Ok(Respond(stored, userText, reply)) && db.users == c.value.users
            && db.Tables() == TurnTables(old(db.Tables()), c.value.id, reply)
            && db.resumes == old(db.resumes) && db.savedJobs == old(db.savedJobs)))
  {
    var login := Profiles.GetCurrentUserId(db, session);
    if login.Err? {
      return Err(login.error);
    }
    var response := ChatTurn(db, login.value, stored, userText, reply);
    r := Ok(response);
  }
}
