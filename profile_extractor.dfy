/** `app/services/profile_extractor.py`: the post-processing of the extraction model's
    answer, and `merge_profile_data`, a merge policy of its own on decoded JSON dictionaries
    (truthy values overwrite, lists are concatenated). */
module ProfileExtractor {
  import opened Base
  import opened Text
  import opened AiService

  // ---- Decoded JSON ----

  /** A value `json.loads` returns. An object keeps its entries in order, as a Python dict
      does; numbers are integers. */
  datatype Json = JNull | JBool(b: bool) | JNum(n: int) | JStr(s: string)
                | JArr(items: seq<Json>) | JObj(entries: seq<(string, Json)>)

  /** Python truthiness: null, false, 0 and empty strings, lists and objects are false. */
  predicate Truthy(j: Json) {
    match j
    case JNull => false
    case JBool(b) => b
    case JNum(n) => n != 0
    case JStr(s) => s != ""
    case JArr(xs) => xs != []
    case JObj(es) => es != []
  }

  // ---- extract_from_message ----

  const Fence := "```"

  /** The answer text made ready for `json.loads`: stripped and, when it opens with a fence,
      cut to what lies between the first two fences (`split('```')[1]`), without a leading
      `json` tag, stripped again. */
  function CleanResponse(text: string): (r: string)
    ensures Stripped(r)
    ensures !StartsWith(Strip(text), Fence) ==> r == Strip(text)
  {
    var t := Strip(text);
    if StartsWith(t, Fence) then
      var inner := Before(t[|Fence|..], Fence);
      var untagged := if StartsWith(inner, "json") then inner[4..] else inner;
      Strip(untagged)
    else t
  }

  /** Splitting at a fence that no earlier backtick can start gives the text before it. */
  lemma BeforeFence(u: string, v: string)
    requires '`' !in u
    ensures Before(u + Fence + v, Fence) == u
  {
    var s := u + Fence + v;
    assert s[|u|..|u| + 3] == Fence;
    assert OccursAt(s, Fence, |u|);
    forall k | 0 <= k < |u| ensures !OccursAt(s, Fence, k) {
      assert s[k] == u[k];
    }
  }

  /** A fenced text with white space before it strips to the fenced core followed by
      whatever of the rest `rstrip` keeps. */
  lemma StripFenced(before: string, u: string, after: string)
    requires AllSpace(before)
    ensures StartsWith(Strip(before + (Fence + u + Fence) + after), Fence + u + Fence)
  {
    var core := Fence + u + Fence;
    assert core[0] == '`' && core[|core| - 1] == '`';
    assert before + core + after == before + (core + after);
    TrimStartPadded(before, core + after);
    TrimEndKeeps(core, after);
  }

  lemma NoBacktick(tag: string, sp1: string, p: string, sp2: string)
    requires AllSpace(sp1) && AllSpace(sp2) && '`' !in p && '`' !in tag
    ensures '`' !in tag + sp1 + p + sp2
  {
    assert '`' !in sp1 by {
      forall k | 0 <= k < |sp1| ensures sp1[k] != '`' { assert IsSpace(sp1[k]); }
    }
    assert '`' !in sp2 by {
      forall k | 0 <= k < |sp2| ensures sp2[k] != '`' { assert IsSpace(sp2[k]); }
    }
  }

  /** Without a tag, a payload that does not open with 'j' cannot be mistaken for one. */
  lemma NoTag(sp1: string, p: string, sp2: string)
    requires AllSpace(sp1) && AllSpace(sp2)
    requires p == [] || p[0] != 'j'
    ensures !StartsWith(sp1 + p + sp2, "json")
  {
    var u := sp1 + p + sp2;
    if |u| >= 4 {
      if sp1 != [] {
        assert u[0] == sp1[0] && IsSpace(sp1[0]);
      } else if p != [] {
        assert u[0] == p[0];
      } else {
        assert u[0] == sp2[0] && IsSpace(sp2[0]);
      }
      assert u[..4][0] == u[0];
    }
  }

  /** A text opening with a fenced core splits, after the opening fence, to the core's
      payload. */
  lemma InnerOfFenced(t: string, u: string)
    requires '`' !in u && StartsWith(t, Fence + u + Fence)
    ensures StartsWith(t, Fence) && Before(t[|Fence|..], Fence) == u
  {
    var core := Fence + u + Fence;
    var tail := t[|core|..];
    assert t == core + tail;
    assert t[|Fence|..] == u + Fence + tail;
    BeforeFence(u, tail);
  }

  /** Cleaning a fenced text keeps what lies between the first two fences, untagged and
      stripped; whatever follows the closing fence is ignored. */
  lemma CleanFenced(before: string, u: string, after: string)
    requires AllSpace(before) && '`' !in u
    ensures CleanResponse(before + (Fence + u + Fence) + after) == Strip(if StartsWith(u, "json") then u[4..] else u)
  {
    StripFenced(before, u, after);
    InnerOfFenced(Strip(before + (Fence + u + Fence) + after), u);
  }

  /** A payload wrapped in a fence, with or without the `json` tag and with any white space
      around, comes out of the cleaning unchanged. */
  lemma FencedPayload(before: string, tag: string, sp1: string, p: string, sp2: string, after: string)
    requires AllSpace(before) && AllSpace(sp1) && AllSpace(sp2)
    requires Stripped(p) && '`' !in p
    requires tag == "json" || (tag == "" && (p == [] || p[0] != 'j'))
    ensures CleanResponse(before + Fence + tag + sp1 + p + sp2 + Fence + after) == p
  {
    var w := sp1 + p + sp2;
    var u := tag + w;
    assert before + Fence + tag + sp1 + p + sp2 + Fence + after == before + (Fence + u + Fence) + after;
    NoBacktick(tag, sp1, p, sp2);
    CleanFenced(before, u, after);
    if tag == "json" {
      assert StartsWith(u, "json");
      assert u[|tag|..] == w;
    } else {
      assert u == w;
      NoTag(sp1, p, sp2);
    }
    StripPadded(sp1, p, sp2);
  }

  /** `extract_from_message` after the model call: any exception of the call, a decode
      error (`parse` returns None) and a falsy result all give None; it never raises. */
  function ExtractFromMessage(call: ModelCall, parse: string -> Option<Json>): (r: Option<Json>)
    ensures r.Some? ==> Truthy(r.value)
    ensures r.Some? <==> call.Answered? && parse(CleanResponse(call.text)).Some? && Truthy(parse(CleanResponse(call.text)).value)
    ensures r.Some? ==> r == parse(CleanResponse(call.text))
  {
    match call
    case Raised(_) => None
    case Answered(text) =>
      match parse(CleanResponse(text))
      case None => None
      case Some(data) => if !Truthy(data) then None else Some(data)
  }

  /** A fenced answer is read exactly as the bare payload would be. */
  lemma FencedAnswerExtractsPayload(before: string, tag: string, sp1: string, p: string, sp2: string, after: string,
                                    parse: string -> Option<Json>)
    requires AllSpace(before) && AllSpace(sp1) && AllSpace(sp2)
    requires Stripped(p) && '`' !in p
    requires tag == "json" || (tag == "" && (p == [] || p[0] != 'j'))
    ensures ExtractFromMessage(Answered(before + Fence + tag + sp1 + p + sp2 + Fence + after), parse)
         == ExtractFromMessage(Answered(p), parse)
  {
    var text := before + Fence + tag + sp1 + p + sp2 + Fence + after;
    FencedPayload(before, tag, sp1, p, sp2, after);
    CleanBare(p);
    SameCleanSameResult(text, p, parse);
  }

  /** A stripped payload that does not open with a fence is already clean. */
  lemma CleanBare(p: string)
    requires Stripped(p) && '`' !in p
    ensures CleanResponse(p) == p
  {
    StrippedIsFixed(p);
    NoFence(p);
  }

  lemma NoFence(p: string)
    requires '`' !in p
    ensures !StartsWith(p, Fence)
  {
    if |p| >= 3 {
      assert p[0] in p;
      assert p[..3][0] != Fence[0];
    }
  }

  lemma SameCleanSameResult(a: string, b: string, parse: string -> Option<Json>)
    requires CleanResponse(a) == CleanResponse(b)
    ensures ExtractFromMessage(Answered(a), parse) == ExtractFromMessage(Answered(b), parse)
  {
  }

  // ---- merge_profile_data ----

  /** A mutable dict object (the nested `personal_info`). */
  class PyDict {
    var entries: map<string, Json>
    constructor ()
      ensures entries == map[]
    {
      entries := map[];
    }
  }

  /** A mutable list object. */
  class PyList {
    var items: seq<Json>
    constructor ()
      ensures items == []
    {
      items := [];
    }
  }

  /** The value under one key of a top-level dictionary: a reference to a dict or list
      object, or any other value. Copying a `map<string, Slot>` is `dict.copy()`: the copy
      holds the same objects. */
  datatype Slot = Plain(value: Json) | Dict(dict: PyDict) | List(list: PyList)

  /** Every dict and list of the dictionary is held as an object. */
  predicate Boxed(m: map<string, Slot>) {
    forall k | k in m && m[k].Plain? :: !m[k].value.JArr? && !m[k].value.JObj?
  }

  /** The list objects the dictionary refers to. */
  function Lists(m: map<string, Slot>): set<PyList> {
    set k | k in m && m[k].List? :: m[k].list
  }

  /** The objects the dictionary refers to. */
  function Dicts(m: map<string, Slot>): set<PyDict> {
    set k | k in m && m[k].Dict? :: m[k].dict
  }
  function Objects(m: map<string, Slot>): set<object> {
    Dicts(m) + Lists(m)
  }

  datatype PyException = TypeError | AttributeError

  const ListFields := ["experience", "education", "skills", "projects", "languages", "hobbies"]

  /** Some entry has a truthy value. */
  predicate HasTruthy(entries: seq<(string, Json)>) {
    exists i | 0 <= i < |entries| :: Truthy(entries[i].1)
  }

  /** `for key, value in entries: if value: d[key] = value`. */
  function AssignTruthy(m: map<string, Json>, entries: seq<(string, Json)>): map<string, Json> {
    if entries == [] then m
    else
      var prev := AssignTruthy(m, entries[..|entries| - 1]);
      var last := entries[|entries| - 1];
      if Truthy(last.1) then prev[last.0 := last.1] else prev
  }

  /** A key is written by a truthy entry. */
  predicate WritesKey(entries: seq<(string, Json)>, k: string) {
    exists i | 0 <= i < |entries| :: entries[i].0 == k && Truthy(entries[i].1)
  }

  lemma WritesKeyAppend(a: seq<(string, Json)>, x: (string, Json), k: string)
    ensures WritesKey(a + [x], k) <==> WritesKey(a, k) || (x.0 == k && Truthy(x.1))
  {
    if WritesKey(a + [x], k) {
      var i :| 0 <= i < |a + [x]| && (a + [x])[i].0 == k && Truthy((a + [x])[i].1);
      if i < |a| { assert a[i] == (a + [x])[i]; }
    }
    if WritesKey(a, k) {
      var i :| 0 <= i < |a| && a[i].0 == k && Truthy(a[i].1);
      assert (a + [x])[i] == a[i];
    }
    if x.0 == k && Truthy(x.1) {
      assert (a + [x])[|a|] == x;
    }
  }

  /** Truthy values overwrite whatever the key held, the last one for a repeated key;
      falsy values change nothing. */
  lemma {:induction false} AssignTruthyFacts(m: map<string, Json>, entries: seq<(string, Json)>)
    ensures var r := AssignTruthy(m, entries);
      && (forall k :: k in r <==> k in m || WritesKey(entries, k))
      && (forall k | k in m && !WritesKey(entries, k) :: r[k] == m[k])
      && (forall i | 0 <= i < |entries| && Truthy(entries[i].1) && !WritesKey(entries[i + 1..], entries[i].0) ::
            r[entries[i].0] == entries[i].1)
  {
    if entries != [] {
      var init := entries[..|entries| - 1];
      var last := entries[|entries| - 1];
      AssignTruthyFacts(m, init);
      assert entries == init + [last];
      forall k ensures WritesKey(entries, k) <==> WritesKey(init, k) || (last.0 == k && Truthy(last.1)) {
        WritesKeyAppend(init, last, k);
      }
      forall i | 0 <= i < |entries| && Truthy(entries[i].1) && !WritesKey(entries[i + 1..], entries[i].0)
        ensures AssignTruthy(m, entries)[entries[i].0] == entries[i].1
      {
        if i < |init| {
          assert entries[i + 1..] == init[i + 1..] + [last];
          WritesKeyAppend(init[i + 1..], last, entries[i].0);
          assert init[i] == entries[i];
        }
      }
    }
  }

  /** What `list.extend(v)` appends: a list's items, a string's characters, an object's
      keys; None when `v` is not iterable (TypeError). */
  function Iterated(v: Json): (r: Option<seq<Json>>)
    ensures v.JArr? ==> r == Some(v.items)
    ensures r.None? <==> !(v.JArr? || v.JStr? || v.JObj?)
  {
    match v
    case JArr(xs) => Some(xs)
    case JStr(s) => Some(seq(|s|, i requires 0 <= i < |s| => JStr([s[i]])))
    case JObj(es) => Some(seq(|es|, i requires 0 <= i < |es| => JStr(es[i].0)))
    case _ => None
  }

  /** The `personal_info` step raises: the new value is not an object (`.items()`), or the
      stored value is not a dict and some new value is truthy (item assignment). */
  predicate PersonalInfoFails(existing: map<string, Slot>, newData: map<string, Json>) {
    "personal_info" in newData &&
    (!newData["personal_info"].JObj? ||
     ("personal_info" in existing && !existing["personal_info"].Dict? && HasTruthy(newData["personal_info"].entries)))
  }

  /** The new list of field `f` is extended onto the stored value. */
  predicate Extends(newData: map<string, Json>, f: string) {
    f in newData && Truthy(newData[f])
  }

  /** The list step of field `f` raises: the stored value has no `extend`, or the new value
      is not iterable. */
  predicate ListFieldFails(existing: map<string, Slot>, newData: map<string, Json>, f: string) {
    Extends(newData, f) && (Iterated(newData[f]).None? || (f in existing && !existing[f].List?))
  }

  /** The number of fields of `fields` the loop completes: up to the first that raises. */
  function FieldsDone(existing: map<string, Slot>, newData: map<string, Json>, fields: seq<string>, i: nat): (n: nat)
    requires i <= |fields|
    decreases |fields| - i
    ensures i <= n <= |fields|
    ensures forall j | i <= j < n :: !ListFieldFails(existing, newData, fields[j])
    ensures n < |fields| ==> ListFieldFails(existing, newData, fields[n])
  {
    if i == |fields| || ListFieldFails(existing, newData, fields[i]) then i
    else FieldsDone(existing, newData, fields, i + 1)
  }

  /** The loop stops at the first field that raises. */
  lemma {:induction false} FieldsDoneIs(existing: map<string, Slot>, newData: map<string, Json>, fields: seq<string>, i: nat, n: nat)
    requires n <= i <= |fields|
    requires forall j | n <= j < i :: !ListFieldFails(existing, newData, fields[j])
    requires i == |fields| || ListFieldFails(existing, newData, fields[i])
    ensures FieldsDone(existing, newData, fields, n) == i
    decreases i - n
  {
    if n < i {
      FieldsDoneIs(existing, newData, fields, i, n + 1);
    }
  }

  /** What the first `n` fields append to the stored list object `l`, in field order:
      several keys may refer to the same list. */
  function Appended(existing: map<string, Slot>, newData: map<string, Json>, fields: seq<string>, l: PyList, n: nat): seq<Json>
    requires n <= |fields|
  {
    if n == 0 then []
    else
      var f := fields[n - 1];
      Appended(existing, newData, fields, l, n - 1) + AppendedBy(existing, newData, f, l)
  }

  /** The stored dicts after the merge: the `personal_info` dict has had the truthy new
      values assigned, unless that step raised. */
  function DictAfter(existing: map<string, Slot>, newData: map<string, Json>, d: PyDict, before: map<string, Json>): map<string, Json> {
    if "personal_info" in newData && !PersonalInfoFails(existing, newData)
       && "personal_info" in existing && existing["personal_info"] == Dict(d)
    then AssignTruthy(before, newData["personal_info"].entries)
    else before
  }

  predicate SummaryReplaced(newData: map<string, Json>) {
    "summary" in newData && Truthy(newData["summary"])
  }

  /** The keys the first `n` fields add. */
  function FieldKeys(newData: map<string, Json>, fields: seq<string>, n: nat): set<string>
    requires n <= |fields|
  {
    if n == 0 then {}
    else FieldKeys(newData, fields, n - 1) + (if Extends(newData, fields[n - 1]) then {fields[n - 1]} else {})
  }

  method AssignEntries(d: PyDict, entries: seq<(string, Json)>)
    modifies d
    ensures d.entries == AssignTruthy(old(d.entries), entries)
  {
    ghost var start := d.entries;
    var j := 0;
    while j < |entries|
      invariant 0 <= j <= |entries|
      invariant d.entries == AssignTruthy(start, entries[..j])
    {
      assert entries[..j + 1][..j] == entries[..j];
      if Truthy(entries[j].1) {
        d.entries := d.entries[entries[j].0 := entries[j].1];
      }
      j := j + 1;
    }
    assert entries[..j] == entries;
  }

  /** The stored `personal_info` dict, the only dict the merge writes to. */
  function InfoDict(m: map<string, Slot>): set<PyDict> {
    if "personal_info" in m && m["personal_info"].Dict? then {m["personal_info"].dict} else {}
  }

  /** The `personal_info` and `summary` steps on the copy `merged` of `existing`. */
  method MergeScalars(existing: map<string, Slot>, newData: map<string, Json>) returns (r: Result<map<string, Slot>, PyException>)
    requires Boxed(existing)
    modifies InfoDict(existing)
    ensures r.Err? <==> PersonalInfoFails(existing, newData)
    ensures forall k | k in existing && existing[k].List? :: existing[k].list.items == old(existing[k].list.items)
    ensures forall k | k in existing && existing[k].Dict? ::
      existing[k].dict.entries == DictAfter(existing, newData, existing[k].dict, old(existing[k].dict.entries))
    ensures r.Ok? ==> r.value.Keys == existing.Keys + (if "personal_info" in newData then {"personal_info"} else {})
                                      + (if SummaryReplaced(newData) then {"summary"} else {})
    ensures r.Ok? ==> forall k | k in existing && !(k == "summary" && SummaryReplaced(newData)) :: r.value[k] == existing[k]
    ensures r.Ok? && SummaryReplaced(newData) ==> r.value["summary"] == Plain(newData["summary"])
    ensures r.Ok? && "personal_info" in newData && "personal_info" !in existing ==>
      r.value["personal_info"].Dict? && fresh(r.value["personal_info"].dict)
      && r.value["personal_info"].dict.entries == AssignTruthy(map[], newData["personal_info"].entries)
  {
    var merged := existing;
    if "personal_info" in newData {
      if "personal_info" !in merged {
        var d := new PyDict();
        merged := merged["personal_info" := Dict(d)];
      }
      var info := newData["personal_info"];
      if !info.JObj? {
        return Err(AttributeError);
      }
      var target := merged["personal_info"];
      if target.Dict? {
        assert "personal_info" in existing ==> target.dict in InfoDict(existing);
        AssignEntries(target.dict, info.entries);
      } else if HasTruthy(info.entries) {
        return Err(TypeError);
      }
    }
    if SummaryReplaced(newData) {
      merged := merged["summary" := Plain(newData["summary"])];
    }
    return Ok(merged);
  }

  predicate Distinct(fields: seq<string>) {
    forall i, j | 0 <= i < j < |fields| :: fields[i] != fields[j]
  }

  lemma {:induction false} FieldKeysBelow(newData: map<string, Json>, fields: seq<string>, n: nat, i: nat)
    requires Distinct(fields) && n <= i < |fields|
    ensures fields[i] !in FieldKeys(newData, fields, n)
  {
    if n > 0 {
      FieldKeysBelow(newData, fields, n - 1, i);
    }
  }

  /** What the list step of field `f` appends to the stored list object `l`. */
  function AppendedBy(existing: map<string, Slot>, newData: map<string, Json>, f: string, l: PyList): seq<Json> {
    if Extends(newData, f) && f in existing && existing[f] == List(l) && Iterated(newData[f]).Some?
    then Iterated(newData[f]).value else []
  }

  /** What the loop has done to list objects by field `i`: each stored list is its `start` contents extended by the fields before `i`, and each
      of those fields that was missing holds a list of its own with the new items. */
  ghost predicate Progress(existing: map<string, Slot>, newData: map<string, Json>, fields: seq<string>,
                           m: map<string, Slot>, i: nat, start: map<string, seq<Json>>)
    requires i <= |fields|
    reads Lists(existing), Lists(m)
  {
    && (forall k | k in existing && existing[k].List? ::
          k in start && existing[k].list.items == start[k] + Appended(existing, newData, fields, existing[k].list, i))
    && (forall j | 0 <= j < i && Extends(newData, fields[j]) && fields[j] !in existing ::
          fields[j] in m && m[fields[j]].List? && m[fields[j]].list !in Lists(existing)
          && Iterated(newData[fields[j]]).Some? && m[fields[j]].list.items == Iterated(newData[fields[j]]).value)
  }

  /** One pass of the list loop, for field `fields[i]`: when the new value is truthy,
      `merged[f]` (a new empty list when the key is missing) is extended with it. */
  method ExtendField(existing: map<string, Slot>, m: map<string, Slot>, newData: map<string, Json>, fields: seq<string>, i: nat,
                     ghost start: map<string, seq<Json>>)
    returns (r: Result<map<string, Slot>, PyException>)
    requires Distinct(fields) && i < |fields|
    requires fields[i] in m <==> fields[i] in existing
    requires fields[i] in existing ==> m[fields[i]] == existing[fields[i]]
    requires Progress(existing, newData, fields, m, i, start)
    modifies if fields[i] in existing && existing[fields[i]].List? then {existing[fields[i]].list} else {}
    ensures r.Err? <==> ListFieldFails(existing, newData, fields[i])
    ensures r.Err? ==> Progress(existing, newData, fields, m, i, start)
    ensures r.Ok? ==> Progress(existing, newData, fields, r.value, i + 1, start)
    ensures r.Ok? ==> forall k :: k in r.value <==> k in m || (Extends(newData, fields[i]) && k == fields[i])
    ensures r.Ok? ==> forall k | k in m :: k in r.value && r.value[k] == m[k]
  {
    var f := fields[i];
    if !Extends(newData, f) {
      return Ok(m);
    }
    var merged := m;
    if f !in merged {
      var l := new PyList();
      merged := merged[f := List(l)];
    }
    var slot := merged[f];
    if !slot.List? {
      return Err(AttributeError);
    }
    var ext := Iterated(newData[f]);
    if ext.None? {
      return Err(TypeError);
    }
    slot.list.items := slot.list.items + ext.value;
    forall k | k in existing && existing[k].List?
      ensures existing[k].list.items == start[k] + Appended(existing, newData, fields, existing[k].list, i + 1)
    {
      var l := existing[k].list;
      var done := Appended(existing, newData, fields, l, i);
      if f in existing && existing[f] == List(l) {
        assert l.items == (start[k] + done) + ext.value;
      } else {
        assert l.items == start[k] + done;
      }
    }
    return Ok(merged);
  }

  /** The list loop `for list_field in fields: if list_field in new_data and
      new_data[list_field]: merged[list_field].extend(...)` from field `i` on, with `m` the
      copy as the passes before `i` left it: `merged` agrees with `existing` on every field. */
  method ExtendFrom(existing: map<string, Slot>, newData: map<string, Json>, fields: seq<string>,
                    merged: map<string, Slot>, m: map<string, Slot>, i: nat, ghost start: map<string, seq<Json>>)
    returns (r: Result<map<string, Slot>, PyException>)
    requires Distinct(fields) && i <= |fields|
    requires forall j | 0 <= j < |fields| :: (fields[j] in merged <==> fields[j] in existing)
    requires forall j | 0 <= j < |fields| && fields[j] in existing :: merged[fields[j]] == existing[fields[j]]
    requires forall j | 0 <= j < i :: !ListFieldFails(existing, newData, fields[j])
    requires Progress(existing, newData, fields, m, i, start)
    requires forall k :: k in m <==> k in merged || k in FieldKeys(newData, fields, i)
    requires forall k | k in merged :: m[k] == merged[k]
    modifies Lists(existing)
    decreases |fields| - i
    ensures r.Err? <==> FieldsDone(existing, newData, fields, 0) < |fields|
    ensures forall k | k in existing && existing[k].List? ::
      existing[k].list.items == start[k] + Appended(existing, newData, fields, existing[k].list, FieldsDone(existing, newData, fields, 0))
    ensures r.Ok? ==> forall k :: k in r.value <==> k in merged || k in FieldKeys(newData, fields, |fields|)
    ensures r.Ok? ==> forall k | k in merged :: r.value[k] == merged[k]
    ensures r.Ok? ==> Progress(existing, newData, fields, r.value, |fields|, start)
  {
    if i == |fields| {
      FieldsDoneIs(existing, newData, fields, i, 0);
      return Ok(m);
    }
    FieldKeysBelow(newData, fields, i, i);
    assert fields[i] in existing && existing[fields[i]].List? ==> existing[fields[i]].list in Lists(existing);
    var next := ExtendField(existing, m, newData, fields, i, start);
    if next.Err? {
      FieldsDoneIs(existing, newData, fields, i, 0);
      return Err(next.error);
    }
    r := ExtendFrom(existing, newData, fields, merged, next.value, i + 1, start);
  }

  /** The whole list loop, on the copy `merged` of `existing`. */
  method ExtendFields(existing: map<string, Slot>, newData: map<string, Json>, fields: seq<string>, merged: map<string, Slot>)
    returns (r: Result<map<string, Slot>, PyException>)
    requires Distinct(fields)
    requires forall j | 0 <= j < |fields| :: (fields[j] in merged <==> fields[j] in existing)
    requires forall j | 0 <= j < |fields| && fields[j] in existing :: merged[fields[j]] == existing[fields[j]]
    modifies Lists(existing)
    ensures r.Err? <==> FieldsDone(existing, newData, fields, 0) < |fields|
    ensures forall k | k in existing && existing[k].List? ::
      existing[k].list.items == old(existing[k].list.items) + Appended(existing, newData, fields, existing[k].list, FieldsDone(existing, newData, fields, 0))
    ensures forall k | k in existing && existing[k].Dict? :: existing[k].dict.entries == old(existing[k].dict.entries)
    ensures r.Ok? ==> r.value.Keys == merged.Keys + FieldKeys(newData, fields, |fields|)
    ensures r.Ok? ==> forall k | k in merged :: r.value[k] == merged[k]
    ensures r.Ok? ==> forall j | 0 <= j < |fields| && Extends(newData, fields[j]) && fields[j] !in existing ::
      fields[j] in r.value && r.value[fields[j]].List? && r.value[fields[j]].list !in Lists(existing)
      && r.value[fields[j]].list.items == Iterated(newData[fields[j]]).value
  {
    ghost var start := map k | k in existing && existing[k].List? :: existing[k].list.items;
    r := ExtendFrom(existing, newData, fields, merged, merged, 0, start);
    if r.Ok? {
      assert r.value.Keys == merged.Keys + FieldKeys(newData, fields, |fields|);
    }
  }

  /** The list field names are distinct from each other and from the other two keys. */
  lemma FieldNames()
    ensures Distinct(ListFields)
    ensures "summary" !in ListFields && "personal_info" !in ListFields
  {
  }

  /** `merge_profile_data(existing, new_data)`: raising is the Err result. Since the copy is
      shallow, the stored `personal_info` dict and list objects are changed in place and the
      change is seen through `existing` too, including the lists extended before a later
      list field raises. */
  method MergeProfileData(existing: map<string, Slot>, newData: map<string, Json>) returns (r: Result<map<string, Slot>, PyException>)
    requires Boxed(existing)
    modifies Objects(existing)
    ensures r.Err? <==> PersonalInfoFails(existing, newData) || FieldsDone(existing, newData, ListFields, 0) < |ListFields|
    ensures forall k | k in existing && existing[k].Dict? ::
      existing[k].dict.entries == DictAfter(existing, newData, existing[k].dict, old(existing[k].dict.entries))
    ensures PersonalInfoFails(existing, newData) ==>
      forall k | k in existing && existing[k].List? :: existing[k].list.items == old(existing[k].list.items)
    ensures !PersonalInfoFails(existing, newData) ==> forall k | k in existing && existing[k].List? ::
      existing[k].list.items == old(existing[k].list.items) + Appended(existing, newData, ListFields, existing[k].list, FieldsDone(existing, newData, ListFields, 0))
    ensures r.Ok? ==> r.value.Keys == existing.Keys + (if "personal_info" in newData then {"personal_info"} else {})
                                      + (if SummaryReplaced(newData) then {"summary"} else {})
                                      + FieldKeys(newData, ListFields, |ListFields|)
    ensures r.Ok? ==> forall k | k in existing && !(k == "summary" && SummaryReplaced(newData)) :: r.value[k] == existing[k]
    ensures r.Ok? && SummaryReplaced(newData) ==> r.value["summary"] == Plain(newData["summary"])
    ensures r.Ok? && "personal_info" in newData && "personal_info" !in existing ==>
      r.value["personal_info"].Dict? && fresh(r.value["personal_info"].dict)
      && r.value["personal_info"].dict.entries == AssignTruthy(map[], newData["personal_info"].entries)
    ensures r.Ok? ==> forall j | 0 <= j < |ListFields| && Extends(newData, ListFields[j]) && ListFields[j] !in existing ::
      ListFields[j] in r.value && r.value[ListFields[j]].List? && r.value[ListFields[j]].list !in Lists(existing)
      && r.value[ListFields[j]].list.items == Iterated(newData[ListFields[j]]).value
  {
    var step := MergeScalars(existing, newData);
    if step.Err? {
      return Err(step.error);
    }
    FieldNames();
    r := ExtendFields(existing, newData, ListFields, step.value);
  }

  /** No two keys of the dictionary refer to the same list object. */
  predicate UnsharedLists(m: map<string, Slot>) {
    forall a, b | a in m && b in m && a != b && m[a].List? && m[b].List? :: m[a].list != m[b].list
  }

  /** With no shared lists, a stored list field ends as the stored list followed by the new
      list: nothing is de-duplicated, so its length is the sum of both. */
  lemma {:induction false} AppendedUnshared(existing: map<string, Slot>, newData: map<string, Json>, fields: seq<string>, j: nat, n: nat)
    requires UnsharedLists(existing) && Distinct(fields) && j < n <= |fields|
    requires fields[j] in existing && existing[fields[j]].List?
    requires Extends(newData, fields[j]) && newData[fields[j]].JArr?
    ensures Appended(existing, newData, fields, existing[fields[j]].list, n) == newData[fields[j]].items
  {
    if n - 1 > j {
      AppendedUnshared(existing, newData, fields, j, n - 1);
      AppendedOtherStep(existing, newData, fields, j, n);
    } else {
      AppendedOthers(existing, newData, fields, j, j);
      AppendedOwnStep(existing, newData, fields, j);
    }
  }

  /** The step of another field leaves an unshared list alone. */
  lemma AppendedOtherStep(existing: map<string, Slot>, newData: map<string, Json>, fields: seq<string>, j: nat, n: nat)
    requires UnsharedLists(existing) && Distinct(fields) && 0 < n <= |fields| && j < |fields| && j != n - 1
    requires fields[j] in existing && existing[fields[j]].List?
    ensures Appended(existing, newData, fields, existing[fields[j]].list, n)
      == Appended(existing, newData, fields, existing[fields[j]].list, n - 1)
  {
    var f := fields[n - 1];
    assert f != fields[j];
    if f in existing && existing[f].List? {
      assert existing[f].list != existing[fields[j]].list;
    }
    assert AppendedBy(existing, newData, f, existing[fields[j]].list) == [];
  }

  /** The step of the field itself appends the new list. */
  lemma AppendedOwnStep(existing: map<string, Slot>, newData: map<string, Json>, fields: seq<string>, j: nat)
    requires j < |fields| && fields[j] in existing && existing[fields[j]].List?
    requires Extends(newData, fields[j]) && newData[fields[j]].JArr?
    ensures Appended(existing, newData, fields, existing[fields[j]].list, j + 1)
      == Appended(existing, newData, fields, existing[fields[j]].list, j) + newData[fields[j]].items
  {
  }

  lemma {:induction false} AppendedOthers(existing: map<string, Slot>, newData: map<string, Json>, fields: seq<string>, j: nat, n: nat)
    requires UnsharedLists(existing) && Distinct(fields) && j < |fields| && n <= j
    requires fields[j] in existing && existing[fields[j]].List?
    ensures Appended(existing, newData, fields, existing[fields[j]].list, n) == []
  {
    if n > 0 {
      AppendedOthers(existing, newData, fields, j, n - 1);
      AppendedOtherStep(existing, newData, fields, j, n);
    }
  }

}
