/** Rows of a relational table that belong to a user, and the owner-scoped queries the
    handlers run on them (`filter(X.id == id, X.user_id == user_id).first()`, `.count()`,
    `order_by(...)`). A table is a `seq` of rows in insertion order. */
module Tables {
  import opened Base

  /** One row: its primary key, its owner (`user_id`) and its other columns. */
  datatype Row<T> = Row(id: nat, userId: nat, data: T)

  /** The columns of a profile record together with its `order` column. */
  datatype Ordered<T> = Ordered(order: int, record: T)

  function MaxId<T>(rows: seq<Row<T>>): (m: nat)
    ensures forall i | 0 <= i < |rows| :: rows[i].id <= m
  {
    if rows == [] then 0
    else
      var m := MaxId(rows[..|rows| - 1]);
      if rows[|rows| - 1].id <= m then m else rows[|rows| - 1].id
  }

  /** The key SQLite gives the next inserted row: one more than the largest key in the table. */
  function NextId<T>(rows: seq<Row<T>>): (id: nat)
    ensures forall i | 0 <= i < |rows| :: rows[i].id < id
  {
    MaxId(rows) + 1
  }

  /** The primary-key constraint. */
  predicate UniqueIds<T>(rows: seq<Row<T>>) {
    forall i, j | 0 <= i < j < |rows| :: rows[i].id != rows[j].id
  }

  /** `db.add(row)` followed by a commit: the row is appended under a fresh key. */
  function Insert<T>(rows: seq<Row<T>>, user: nat, data: T): (r: seq<Row<T>>)
    ensures |r| == |rows| + 1 && r[..|rows|] == rows
    ensures r[|rows|].userId == user && r[|rows|].data == data
    ensures forall i | 0 <= i < |rows| :: rows[i].id != r[|rows|].id
    ensures UniqueIds(rows) ==> UniqueIds(r)
  {
    rows + [Row(NextId(rows), user, data)]
  }

  /** The rows of `user`, in table order (`filter(X.user_id == user_id)`). */
  function Owned<T(!new)>(rows: seq<Row<T>>, user: nat): (r: seq<Row<T>>)
    ensures |r| <= |rows|
    ensures forall x :: x in r <==> x in rows && x.userId == user
  {
    if rows == [] then []
    else
      var last := rows[|rows| - 1];
      Owned(rows[..|rows| - 1], user) + (if last.userId == user then [last] else [])
  }

  lemma OwnedAppend<T(!new)>(rows: seq<Row<T>>, user: nat, x: Row<T>)
    ensures Owned(rows + [x], user) == Owned(rows, user) + (if x.userId == user then [x] else [])
  {
    assert (rows + [x])[..|rows + [x]| - 1] == rows;
  }

  /** The first row of `user` with key `id`, at or after position `from`. */
  function FindFrom<T>(rows: seq<Row<T>>, id: nat, user: nat, from: nat): (r: Option<nat>)
    decreases |rows| - from
    ensures r.Some? ==> from <= r.value < |rows| && rows[r.value].id == id && rows[r.value].userId == user
    ensures r.None? ==> forall i | from <= i < |rows| :: !(rows[i].id == id && rows[i].userId == user)
  {
    if from >= |rows| then None
    else if rows[from].id == id && rows[from].userId == user then Some(from)
    else FindFrom(rows, id, user, from + 1)
  }

  /** `filter(X.id == id, X.user_id == user_id).first()`, as a position. */
  function FindOwned<T>(rows: seq<Row<T>>, id: nat, user: nat): (r: Option<nat>)
    ensures r.Some? ==> r.value < |rows| && rows[r.value].id == id && rows[r.value].userId == user
    ensures r.None? <==> forall i | 0 <= i < |rows| :: !(rows[i].id == id && rows[i].userId == user)
  {
    FindFrom(rows, id, user, 0)
  }

  /** The lookup reads only the keys and the owners of the rows. */
  lemma {:induction false} FindFromSameKeys<T, U>(a: seq<Row<T>>, b: seq<Row<U>>, id: nat, user: nat, from: nat)
    requires |a| == |b|
    requires forall j | 0 <= j < |a| :: a[j].id == b[j].id && a[j].userId == b[j].userId
    ensures FindFrom(a, id, user, from) == FindFrom(b, id, user, from)
    decreases |a| - from
  {
    if from < |a| {
      FindFromSameKeys(a, b, id, user, from + 1);
    }
  }

  /** A row of another user is never found under the caller's id, even by its own key. */
  lemma ForeignRowNotFound<T>(rows: seq<Row<T>>, i: nat, user: nat)
    requires UniqueIds(rows) && i < |rows| && rows[i].userId != user
    ensures FindOwned(rows, rows[i].id, user).None?
  {
  }

  /** Change the columns of the row with key `id` owned by `user`; None when there is none
      (the handler's 404), in which case nothing changes. */
  function UpdateOwned<T>(rows: seq<Row<T>>, id: nat, user: nat, f: T -> T): (r: Option<seq<Row<T>>>)
    ensures r.None? <==> FindOwned(rows, id, user).None?
    ensures r.Some? ==> |r.value| == |rows|
    ensures r.Some? ==> forall j | 0 <= j < |rows| :: r.value[j].id == rows[j].id && r.value[j].userId == rows[j].userId
    ensures r.Some? ==> forall j | 0 <= j < |rows| && !(rows[j].id == id && rows[j].userId == user) :: r.value[j] == rows[j]
    ensures r.Some? ==> var i := FindOwned(rows, id, user).value; r.value[i].data == f(rows[i].data)
    ensures r.Some? && UniqueIds(rows) ==> UniqueIds(r.value)
  {
    match FindOwned(rows, id, user)
    case None => None
    case Some(i) => Some(rows[i := rows[i].(data := f(rows[i].data))])
  }

  /** Removing the row at position `i` keeps exactly the other rows. */
  lemma RemoveAt<T(!new)>(rows: seq<Row<T>>, i: nat)
    requires i < |rows|
    ensures var r := rows[..i] + rows[i + 1..];
      && |r| == |rows| - 1
      && (forall x :: x in r <==> exists j | 0 <= j < |rows| && j != i :: rows[j] == x)
      && (UniqueIds(rows) ==> UniqueIds(r))
  {
    var r := rows[..i] + rows[i + 1..];
    assert forall j | 0 <= j < |r| :: r[j] == if j < i then rows[j] else rows[j + 1];
    forall x ensures x in r <==> exists j | 0 <= j < |rows| && j != i :: rows[j] == x {
      if x in r {
        var k :| 0 <= k < |r| && r[k] == x;
        if k < i { assert rows[k] == x; } else { assert rows[k + 1] == x; }
      }
      if exists j | 0 <= j < |rows| && j != i :: rows[j] == x {
        var j :| 0 <= j < |rows| && j != i && rows[j] == x;
        if j < i { assert r[j] == x; } else { assert r[j - 1] == x; }
      }
    }
  }

  /** `db.delete(row)` of the row with key `id` owned by `user`; None when there is none. */
  function DeleteOwned<T(!new)>(rows: seq<Row<T>>, id: nat, user: nat): (r: Option<seq<Row<T>>>)
    ensures r.None? <==> FindOwned(rows, id, user).None?
    ensures r.Some? ==> |r.value| == |rows| - 1
    ensures r.Some? ==> forall x :: x in r.value ==> x in rows
    ensures r.Some? && UniqueIds(rows) ==> UniqueIds(r.value)
    ensures r.Some? && UniqueIds(rows) ==> forall x :: x in r.value <==> x in rows && x.id != id
  {
    match FindOwned(rows, id, user)
    case None => None
    case Some(i) =>
      RemoveAt(rows, i);
      Some(rows[..i] + rows[i + 1..])
  }

  /** Appending a profile record (`add_experience`, `add_education`, ...): its `order` is the
      number of records of that kind the user already has. */
  function AddOrdered<T(!new)>(rows: seq<Row<Ordered<T>>>, user: nat, record: T): seq<Row<Ordered<T>>> {
    Insert(rows, user, Ordered(|Owned(rows, user)|, record))
  }

  lemma AddOrderedIsCount<T(!new)>(rows: seq<Row<Ordered<T>>>, user: nat, record: T)
    ensures var r := AddOrdered(rows, user, record);
      && r[|rows|].data == Ordered(|Owned(rows, user)|, record)
      && r[|rows|].userId == user
      && |Owned(r, user)| == |Owned(rows, user)| + 1
      && forall other | other != user :: Owned(r, other) == Owned(rows, other)
  {
    var r := AddOrdered(rows, user, record);
    assert r == rows + [r[|rows|]];
    OwnedAppend(rows, user, r[|rows|]);
    forall other | other != user ensures Owned(r, other) == Owned(rows, other) {
      OwnedAppend(rows, other, r[|rows|]);
    }
  }

  predicate SortedBy<T>(s: seq<T>, key: T -> int) {
    forall i, j | 0 <= i < j < |s| :: key(s[i]) <= key(s[j])
  }

  /** What is inserted after the head of a sorted sequence is not below the head. */
  lemma HeadBelowRest<T>(s: seq<T>, x: T, rest: seq<T>, key: T -> int)
    requires s != [] && SortedBy(s, key) && key(s[0]) <= key(x)
    requires multiset(rest) == multiset(s[1..]) + multiset{x}
    ensures forall k | 0 <= k < |rest| :: key(s[0]) <= key(rest[k])
  {
    forall k | 0 <= k < |rest| ensures key(s[0]) <= key(rest[k]) {
      var y := rest[k];
      assert y in multiset(rest);
      if y != x {
        assert y in multiset(s[1..]);
        var j :| 0 <= j < |s[1..]| && s[1..][j] == y;
        assert s[j + 1] == y;
      }
    }
  }

  /** Place `x` before the first element whose key is not smaller than its own. */
  function InsertByKey<T>(x: T, s: seq<T>, key: T -> int): (r: seq<T>)
    requires SortedBy(s, key)
    ensures SortedBy(r, key)
    ensures multiset(r) == multiset(s) + multiset{x}
  {
    if s == [] || key(x) <= key(s[0]) then [x] + s
    else
      var rest := InsertByKey(x, s[1..], key);
      assert multiset(s) == multiset{s[0]} + multiset(s[1..]) by { assert s == [s[0]] + s[1..]; }
      HeadBelowRest(s, x, rest, key);
      [s[0]] + rest
  }

  /** `order_by(key)` with ties kept in table order. */
  function SortBy<T>(s: seq<T>, key: T -> int): (r: seq<T>)
    ensures SortedBy(r, key)
    ensures multiset(r) == multiset(s)
  {
    if s == [] then []
    else
      assert s == [s[0]] + s[1..];
      InsertByKey(s[0], SortBy(s[1..], key), key)
  }
}
