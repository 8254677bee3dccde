/**
 * The generic repository: reads that hide soft-deleted rows when the entity
 * type has a boolean `IsDeleted` property, and the add, remove and soft-delete
 * writes on one table.
 */
module GenericRepositories {
  import opened Options
  import opened Linq

  /**
   * Whether an entity type has a boolean `IsDeleted` property, found by
   * reflection in the source; when it has one, how to read it and how to set it.
   */
  datatype DeletedFlag<!T> = HasIsDeleted(isDeleted: T -> bool, markDeleted: T -> T) | NoIsDeleted

  /** A row the reads return: the type has no flag, or the flag is false. */
  predicate Visible<T>(flag: DeletedFlag<T>, e: T)
  {
    flag.NoIsDeleted? || !flag.isDeleted(e)
  }

  /** `GetAllAsync`: the visible rows, in table order. */
  function GetAll<T>(rows: seq<T>, flag: DeletedFlag<T>): (r: seq<T>)
    ensures forall e | e in r :: e in rows && Visible(flag, e)
    ensures forall e | e in rows && Visible(flag, e) :: e in r
    ensures flag.NoIsDeleted? ==> r == rows
  {
    Where(rows, e => Visible(flag, e))
  }

  /**
   * `GetByIdAsync`: the first visible row with that key, if any (the filter
   * followed by `FirstOrDefault`, walked row by row).
   */
  function GetById<T, K(==)>(rows: seq<T>, flag: DeletedFlag<T>, key: T -> K, id: K): (r: Option<T>)
    ensures r.Some? ==> r.value in rows && Visible(flag, r.value) && key(r.value) == id
    ensures r.None? <==> forall e | e in rows :: !(Visible(flag, e) && key(e) == id)
  {
    if rows == [] then None
    else if Visible(flag, rows[0]) && key(rows[0]) == id then Some(rows[0])
    else GetById(rows[1..], flag, key, id)
  }

  /** The table after `Remove(entity)` is saved: the rows with the entity's key are gone. */
  function WithoutKey<T, K(==)>(rows: seq<T>, key: T -> K, id: K): (r: seq<T>)
    ensures forall e | e in r :: e in rows && key(e) != id
    ensures forall e | e in rows && key(e) != id :: e in r
  {
    if rows == [] then []
    else (if key(rows[0]) != id then [rows[0]] else []) + WithoutKey(rows[1..], key, id)
  }

  /**
   * The table after `SoftDelete(entity)` is saved: the row with the entity's key
   * holds the entity with its flag set; without a flag nothing changes.
   */
  function SoftDeleted<T, K(==)>(rows: seq<T>, flag: DeletedFlag<T>, key: T -> K, e: T): (r: seq<T>)
    ensures |r| == |rows|
    ensures flag.NoIsDeleted? ==> r == rows
  {
    match flag
    case NoIsDeleted => rows
    case HasIsDeleted(_, mark) =>
      Select(rows, x => if key(x) == key(e) then mark(e) else x)
  }

  /**
   * After a soft delete the row is still stored (the table keeps its length and
   * holds the flagged entity), but neither read returns anything with its key.
   */
  lemma SoftDeleteHides<T, K>(rows: seq<T>, flag: DeletedFlag<T>, key: T -> K, e: T)
    requires flag.HasIsDeleted?
    requires flag.isDeleted(flag.markDeleted(e)) && key(flag.markDeleted(e)) == key(e)
    requires exists i | 0 <= i < |rows| :: key(rows[i]) == key(e)
    ensures flag.markDeleted(e) in SoftDeleted(rows, flag, key, e)
    ensures GetById(SoftDeleted(rows, flag, key, e), flag, key, key(e)) == None
    ensures forall x | x in GetAll(SoftDeleted(rows, flag, key, e), flag) :: key(x) != key(e)
  {
    var r := SoftDeleted(rows, flag, key, e);
    var i :| 0 <= i < |rows| && key(rows[i]) == key(e);
    assert r[i] == flag.markDeleted(e);
    forall x | x in r
      ensures !(Visible(flag, x) && key(x) == key(e))
    {
      var j :| 0 <= j < |r| && r[j] == x;
      if key(rows[j]) == key(e) {
        assert x == flag.markDeleted(e);
      } else {
        assert x == rows[j];
      }
    }
  }

  /** Rows with other keys are neither hidden nor altered by a soft delete. */
  lemma SoftDeleteKeepsOthers<T, K>(rows: seq<T>, flag: DeletedFlag<T>, key: T -> K, e: T, id: K)
    requires id != key(e)
    requires flag.HasIsDeleted? ==> key(flag.markDeleted(e)) == key(e)
    ensures GetById(SoftDeleted(rows, flag, key, e), flag, key, id) == GetById(rows, flag, key, id)
  {
    if flag.HasIsDeleted? {
      var r := SoftDeleted(rows, flag, key, e);
      forall j | 0 <= j < |rows|
        ensures (Visible(flag, r[j]) && key(r[j]) == id) == (Visible(flag, rows[j]) && key(rows[j]) == id)
        ensures Visible(flag, rows[j]) && key(rows[j]) == id ==> r[j] == rows[j]
      {
        if key(rows[j]) == key(e) {
          assert r[j] == flag.markDeleted(e);
        } else {
          assert r[j] == rows[j];
        }
      }
      FirstVisibleAgree(rows, r, flag, key, id);
    }
  }

  /**
   * Reading by key after an add: an earlier visible row with that key still
   * wins; otherwise the added entity is found when it is visible and has the key.
   */
  lemma {:induction false} GetByIdAfterAdd<T, K>(rows: seq<T>, flag: DeletedFlag<T>, key: T -> K, e: T, id: K)
    ensures GetById(rows + [e], flag, key, id)
      == if GetById(rows, flag, key, id).Some? then GetById(rows, flag, key, id)
         else if Visible(flag, e) && key(e) == id then Some(e)
         else None
  {
    if rows != [] {
      assert (rows + [e])[1..] == rows[1..] + [e];
      GetByIdAfterAdd(rows[1..], flag, key, e, id);
    }
  }

  /** After a remove, nothing with that key is read again; other keys read as before. */
  lemma {:induction false} GetByIdAfterRemove<T, K>(rows: seq<T>, flag: DeletedFlag<T>, key: T -> K, removed: K, id: K)
    ensures GetById(WithoutKey(rows, key, removed), flag, key, id)
      == if id == removed then None else GetById(rows, flag, key, id)
  {
    if rows != [] {
      GetByIdAfterRemove(rows[1..], flag, key, removed, id);
      var rest := WithoutKey(rows[1..], key, removed);
      if key(rows[0]) != removed {
        var w := [rows[0]] + rest;
        assert WithoutKey(rows, key, removed) == w;
        assert w[0] == rows[0] && w[1..] == rest;
        assert GetById(w, flag, key, id)
          == if Visible(flag, rows[0]) && key(rows[0]) == id then Some(rows[0]) else GetById(rest, flag, key, id);
      } else {
        assert WithoutKey(rows, key, removed) == rest;
      }
    }
  }

  /**
   * Two tables of one length that agree on which rows are visible with key
   * `id`, and on those rows themselves, give the same `GetById`.
   */
  lemma {:induction false} FirstVisibleAgree<T, K>(a: seq<T>, b: seq<T>, flag: DeletedFlag<T>, key: T -> K, id: K)
    requires |a| == |b|
    requires forall j | 0 <= j < |a| ::
      (Visible(flag, a[j]) && key(a[j]) == id) == (Visible(flag, b[j]) && key(b[j]) == id)
    requires forall j | 0 <= j < |a| && Visible(flag, a[j]) && key(a[j]) == id :: a[j] == b[j]
    ensures GetById(a, flag, key, id) == GetById(b, flag, key, id)
  {
    if a != [] {
      forall j | 0 <= j < |a[1..]|
        ensures (Visible(flag, a[1..][j]) && key(a[1..][j]) == id) == (Visible(flag, b[1..][j]) && key(b[1..][j]) == id)
        ensures Visible(flag, a[1..][j]) && key(a[1..][j]) == id ==> a[1..][j] == b[1..][j]
      {
        assert a[1..][j] == a[j + 1] && b[1..][j] == b[j + 1];
      }
      FirstVisibleAgree(a[1..], b[1..], flag, key, id);
    }
  }

  /**
   * One table of the store. `flag` and `key` stand for what reflection finds on
   * the entity type: the `IsDeleted` property and the `Id` property.
   */
  class Repository<T(==), K(==)> {
    var rows: seq<T>
    const flag: DeletedFlag<T>
    const key: T -> K

    constructor(rows0: seq<T>, flag0: DeletedFlag<T>, key0: T -> K)
      ensures rows == rows0 && flag == flag0 && key == key0
    {
      rows := rows0;
      flag := flag0;
      key := key0;
    }

    /** `AddAsync` followed by a save: the entity is appended; nothing else changes. */
    method Add(e: T)
      modifies this
      ensures rows == old(rows) + [e]
    {
      rows := rows + [e];
    }

    /** `Remove` followed by a save: the rows with the entity's key are deleted for good. */
    method Remove(e: T)
      modifies this
      ensures rows == WithoutKey(old(rows), key, key(e))
      ensures forall x | x in rows :: key(x) != key(e)
    {
      rows := WithoutKey(rows, key, key(e));
    }

    /**
     * `SoftDelete` followed by a save: with a flag, the entity's row now holds
     * the entity marked deleted; without one, nothing happens.
     */
    method SoftDelete(e: T)
      modifies this
      ensures rows == SoftDeleted(old(rows), flag, key, e)
      ensures flag.NoIsDeleted? ==> rows == old(rows)
      ensures |rows| == |old(rows)|
    {
      rows := SoftDeleted(rows, flag, key, e);
    }
  }
}
