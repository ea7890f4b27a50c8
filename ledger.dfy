/** The connection repository as a value: the stored rows in insertion order,
    at most one per (userId, challengeId, connectionType) key. Its queries are
    the derived finders the connection service calls. */
module Ledger {
  import opened Base
  import opened ConnectionEntity
  import Lists

  /** A stored connection row; the timestamp column is non-nullable. */
  datatype ConnectionRow = ConnectionRow(
    userId: UserId,
    challengeId: ChallengeId,
    connectionType: ConnectionType,
    timestamp: Timestamp)

  function KeyOf(row: ConnectionRow): Pk {
    Pk(row.userId, row.challengeId, row.connectionType)
  }

  /** The primary-key constraint: no two rows share a key. */
  ghost predicate KeysDistinct(rows: seq<ConnectionRow>) {
    forall i, j :: 0 <= i < j < |rows| ==> KeyOf(rows[i]) != KeyOf(rows[j])
  }

  function Keys(rows: seq<ConnectionRow>): set<Pk> {
    set row | row in rows :: KeyOf(row)
  }

  /** `existsByUserIdAndChallengeIdAndConnectionType`. */
  predicate Exists(rows: seq<ConnectionRow>, key: Pk) {
    key in Keys(rows)
  }

  /** `save`: a row whose key is already stored leaves the table as it is
      (the timestamp column is not updatable); a new key is appended. */
  function Save(rows: seq<ConnectionRow>, row: ConnectionRow): seq<ConnectionRow> {
    if KeyOf(row) in Keys(rows) then rows else rows + [row]
  }

  /** The rows that survive a delete by `key`. */
  function Without(rows: seq<ConnectionRow>, key: Pk): seq<ConnectionRow> {
    Lists.Filter(rows, (row: ConnectionRow) => KeyOf(row) != key)
  }

  /** `deleteByUserIdAndChallengeIdAndConnectionType`: the remaining rows and
      the number of rows deleted. */
  function DeleteByKey(rows: seq<ConnectionRow>, key: Pk): (seq<ConnectionRow>, int) {
    var rest := Without(rows, key);
    (rest, |rows| - |rest|)
  }

  /** `findByChallengeIdAndConnectionType`, in table order. */
  function FindByChallengeAndType(rows: seq<ConnectionRow>, challengeId: ChallengeId, t: ConnectionType): seq<ConnectionRow> {
    Lists.Filter(rows, (row: ConnectionRow) => row.challengeId == challengeId && row.connectionType == t)
  }

  /** `findByUserIdAndConnectionType`, in table order. */
  function FindByUserAndType(rows: seq<ConnectionRow>, userId: UserId, t: ConnectionType): seq<ConnectionRow> {
    Lists.Filter(rows, (row: ConnectionRow) => row.userId == userId && row.connectionType == t)
  }

  /** How many rows give `userId` the role `t`. */
  function CountOf(rows: seq<ConnectionRow>, userId: UserId, t: ConnectionType): nat {
    |FindByUserAndType(rows, userId, t)|
  }

  /** The author resolution of `getAuthorForChallenge`: the user of the first
      AUTHOR row for the challenge; `getFirst` on no rows throws. */
  function AuthorOf(rows: seq<ConnectionRow>, challengeId: ChallengeId): (r: Result<UserId>)
    ensures r.Err? <==> forall row :: row in rows ==> !(row.challengeId == challengeId && row.connectionType == Author)
    ensures r.Err? ==> r.error == NoSuchElement
    ensures r.Ok? ==> Pk(r.value, challengeId, Author) in Keys(rows)
    ensures r.Ok? ==>
              exists i :: 0 <= i < |rows| && rows[i].challengeId == challengeId && rows[i].connectionType == Author &&
                          rows[i].userId == r.value &&
                          forall j :: 0 <= j < i ==> !(rows[j].challengeId == challengeId && rows[j].connectionType == Author)
  {
    var found := FindByChallengeAndType(rows, challengeId, Author);
    forall row ensures row in found <==> row in rows && row.challengeId == challengeId && row.connectionType == Author {
      Lists.FilterMembership(rows, (row: ConnectionRow) => row.challengeId == challengeId && row.connectionType == Author, row);
    }
    if found == [] then Err(NoSuchElement)
    else
      assert found[0] in found;
      Lists.FilterHead(rows, (row: ConnectionRow) => row.challengeId == challengeId && row.connectionType == Author);
      assert KeyOf(found[0]) == Pk(found[0].userId, challengeId, Author);
      Ok(found[0].userId)
  }

  // ---------------------------------------------------------------------
  // Facts about the key set

  lemma KeysAppend(rows: seq<ConnectionRow>, row: ConnectionRow)
    ensures Keys(rows + [row]) == Keys(rows) + {KeyOf(row)}
  {
    assert forall r :: r in rows + [row] <==> r in rows || r == row;
  }

  lemma KeysCons(rows: seq<ConnectionRow>)
    requires rows != []
    ensures Keys(rows) == {KeyOf(rows[0])} + Keys(rows[1..])
  {
    assert forall r :: r in rows <==> r == rows[0] || r in rows[1..];
  }

  /** Under the key constraint the first row's key is not among the others. */
  lemma DistinctCons(rows: seq<ConnectionRow>)
    requires rows != [] && KeysDistinct(rows)
    ensures KeysDistinct(rows[1..])
    ensures KeyOf(rows[0]) !in Keys(rows[1..])
  {
  }

  lemma {:induction false} KeysWithout(rows: seq<ConnectionRow>, key: Pk)
    ensures Keys(Without(rows, key)) == Keys(rows) - {key}
  {
    var p := (row: ConnectionRow) => KeyOf(row) != key;
    forall r ensures r in Without(rows, key) <==> r in rows && p(r) {
      Lists.FilterMembership(rows, p, r);
    }
  }

  /** `save` keeps the key constraint, leaves exactly the old keys plus the
      new one, and stores an already-present triple only once. */
  lemma SaveProperties(rows: seq<ConnectionRow>, row: ConnectionRow)
    requires KeysDistinct(rows)
    ensures KeysDistinct(Save(rows, row))
    ensures Keys(Save(rows, row)) == Keys(rows) + {KeyOf(row)}
    ensures KeyOf(row) in Keys(rows) ==> Save(rows, row) == rows
    ensures KeyOf(row) !in Keys(rows) ==> Save(rows, row) == rows + [row]
  {
    KeysAppend(rows, row);
    if KeyOf(row) !in Keys(rows) {
      var s := rows + [row];
      forall i, j | 0 <= i < j < |s| ensures KeyOf(s[i]) != KeyOf(s[j]) {
        if j == |rows| {
          assert s[i] in rows;
        }
      }
    }
  }

  lemma {:induction false} WithoutDistinct(rows: seq<ConnectionRow>, key: Pk)
    requires KeysDistinct(rows)
    ensures KeysDistinct(Without(rows, key))
  {
    if rows != [] {
      DistinctCons(rows);
      WithoutDistinct(rows[1..], key);
      var rest := Without(rows[1..], key);
      KeysWithout(rows[1..], key);
      if KeyOf(rows[0]) != key {
        var s := [rows[0]] + rest;
        assert Without(rows, key) == s;
        forall j | 0 < j < |s| ensures KeyOf(s[0]) != KeyOf(s[j]) {
          assert s[j] in rest;
          assert KeyOf(s[j]) in Keys(rest);
        }
      }
    }
  }

  lemma {:induction false} WithoutAbsent(rows: seq<ConnectionRow>, key: Pk)
    requires key !in Keys(rows)
    ensures Without(rows, key) == rows
  {
    Lists.FilterKeepsAll(rows, (row: ConnectionRow) => KeyOf(row) != key);
  }

  lemma {:induction false} WithoutCount(rows: seq<ConnectionRow>, key: Pk)
    requires KeysDistinct(rows)
    ensures |rows| - |Without(rows, key)| == if key in Keys(rows) then 1 else 0
  {
    if rows != [] {
      DistinctCons(rows);
      KeysCons(rows);
      WithoutCount(rows[1..], key);
    }
  }

  /** A delete removes exactly the given key, if stored, and reports how many
      rows went: one if the key was stored, zero otherwise. Every other row
      stays, in its order. */
  lemma DeleteProperties(rows: seq<ConnectionRow>, key: Pk)
    requires KeysDistinct(rows)
    ensures KeysDistinct(DeleteByKey(rows, key).0)
    ensures Keys(DeleteByKey(rows, key).0) == Keys(rows) - {key}
    ensures DeleteByKey(rows, key).1 == if key in Keys(rows) then 1 else 0
    ensures key !in Keys(rows) ==> DeleteByKey(rows, key).0 == rows
    ensures Lists.IsSubsequence(DeleteByKey(rows, key).0, rows)
  {
    WithoutDistinct(rows, key);
    KeysWithout(rows, key);
    WithoutCount(rows, key);
    if key !in Keys(rows) {
      WithoutAbsent(rows, key);
    }
    Lists.FilterIsSubsequence(rows, (row: ConnectionRow) => KeyOf(row) != key);
  }

  /** Saving a triple that was not stored and then deleting it gives back
      exactly the rows there were before. */
  lemma SaveThenDeleteRestores(rows: seq<ConnectionRow>, row: ConnectionRow)
    requires KeyOf(row) !in Keys(rows)
    ensures DeleteByKey(Save(rows, row), KeyOf(row)) == (rows, 1)
  {
    var p := (r: ConnectionRow) => KeyOf(r) != KeyOf(row);
    Lists.FilterAppend(rows, [row], p);
    WithoutAbsent(rows, KeyOf(row));
    assert [row][1..] == [];
    assert Lists.Filter([row], p) == [];
    assert Without(rows + [row], KeyOf(row)) == rows;
  }

  // ---------------------------------------------------------------------
  // Facts about the per-user counts of each role

  /** Saving a new row adds one to the count of its own (user, type) and to
      no other; saving a stored key changes no count. */
  lemma CountAfterSave(rows: seq<ConnectionRow>, row: ConnectionRow, userId: UserId, t: ConnectionType)
    ensures CountOf(Save(rows, row), userId, t) ==
              CountOf(rows, userId, t) +
              (if KeyOf(row) !in Keys(rows) && row.userId == userId && row.connectionType == t then 1 else 0)
  {
    if KeyOf(row) !in Keys(rows) {
      Lists.FilterAppend(rows, [row], (r: ConnectionRow) => r.userId == userId && r.connectionType == t);
    }
  }

  lemma {:induction false} CountAfterDelete(rows: seq<ConnectionRow>, key: Pk, userId: UserId, t: ConnectionType)
    requires KeysDistinct(rows)
    ensures CountOf(Without(rows, key), userId, t) ==
              CountOf(rows, userId, t) -
              (if key in Keys(rows) && key.userId == userId && key.connectionType == t then 1 else 0)
  {
    if rows != [] {
      DistinctCons(rows);
      KeysCons(rows);
      CountAfterDelete(rows[1..], key, userId, t);
      var q := (r: ConnectionRow) => r.userId == userId && r.connectionType == t;
      assert CountOf(rows, userId, t) == (if q(rows[0]) then 1 else 0) + CountOf(rows[1..], userId, t);
      if KeyOf(rows[0]) == key {
        assert Without(rows, key) == Without(rows[1..], key);
      } else {
        var w := [rows[0]] + Without(rows[1..], key);
        assert Without(rows, key) == w;
        assert w[1..] == Without(rows[1..], key);
        assert CountOf(w, userId, t) == (if q(rows[0]) then 1 else 0) + CountOf(w[1..], userId, t);
      }
    }
  }
}
