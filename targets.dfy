/** The push_targets table: one row per registered device. */
module PushTargets {
  import opened Outcomes

  /** A row of push_targets; the timestamp column is not modelled. */
  datatype Row = Row(user: int, deviceId: string, endpoint: string, platform: string)

  /** The table invariant: no two rows share a device_id. */
  ghost predicate UniqueDevices(rows: seq<Row>) {
    forall i, j :: 0 <= i < j < |rows| ==> rows[i].deviceId != rows[j].deviceId
  }

  /** `SELECT * FROM push_targets WHERE device_id = ?` read with query_single: the first match. */
  function ForDevice(rows: seq<Row>, deviceId: string): (r: Option<Row>)
    ensures r.None? <==> forall i :: 0 <= i < |rows| ==> rows[i].deviceId != deviceId
    ensures r.Some? ==> r.value in rows && r.value.deviceId == deviceId
  {
    if rows == [] then None
    else if rows[0].deviceId == deviceId then Some(rows[0])
    else
      var r := ForDevice(rows[1..], deviceId);
      assert forall i :: 1 <= i < |rows| ==> rows[i] == rows[1..][i - 1];
      r
  }

  /** The rows that `DELETE FROM push_targets WHERE device_id = ?` leaves, in table order. */
  function WithoutDevice(rows: seq<Row>, deviceId: string): (r: seq<Row>)
    ensures forall row :: row in r <==> row in rows && row.deviceId != deviceId
  {
    if rows == [] then []
    else (if rows[0].deviceId != deviceId then [rows[0]] else []) + WithoutDevice(rows[1..], deviceId)
  }

  /** The rows with a given device_id, in table order. */
  function RowsFor(rows: seq<Row>, deviceId: string): (r: seq<Row>)
    ensures forall row :: row in r <==> row in rows && row.deviceId == deviceId
  {
    if rows == [] then []
    else (if rows[0].deviceId == deviceId then [rows[0]] else []) + RowsFor(rows[1..], deviceId)
  }

  /** `SELECT * FROM push_targets WHERE user = ?`, in table order. */
  function OfUser(rows: seq<Row>, user: int): (r: seq<Row>)
    ensures forall row :: row in r <==> row in rows && row.user == user
    ensures |r| <= |rows|
  {
    if rows == [] then []
    else (if rows[0].user == user then [rows[0]] else []) + OfUser(rows[1..], user)
  }

  /** Under the invariant, the row query_single returns is the only row of that device. */
  lemma {:induction false} ForDeviceIsTheRow(rows: seq<Row>, row: Row)
    requires UniqueDevices(rows)
    requires row in rows
    ensures ForDevice(rows, row.deviceId) == Some(row)
  {
    if rows[0] != row {
      assert rows[0].deviceId != row.deviceId by {
        var j :| 0 <= j < |rows| && rows[j] == row;
        assert j > 0;
      }
      assert row in rows[1..];
      ForDeviceIsTheRow(rows[1..], row);
    }
  }

  /** Deleting a device's rows keeps the invariant. */
  lemma {:induction false} WithoutDeviceKeepsUnique(rows: seq<Row>, deviceId: string)
    requires UniqueDevices(rows)
    ensures UniqueDevices(WithoutDevice(rows, deviceId))
  {
    if rows != [] {
      WithoutDeviceKeepsUnique(rows[1..], deviceId);
      var rest := WithoutDevice(rows[1..], deviceId);
      if rows[0].deviceId != deviceId {
        forall j | 0 <= j < |rest| ensures rows[0].deviceId != rest[j].deviceId {
          assert rest[j] in rows[1..];
        }
        var r := [rows[0]] + rest;
        forall i, j | 0 <= i < j < |r| ensures r[i].deviceId != r[j].deviceId {
          if i > 0 { assert r[i] == rest[i - 1] && r[j] == rest[j - 1]; }
          else { assert r[j] == rest[j - 1]; }
        }
      }
    }
  }

  /** Appending a row for a device the table does not hold keeps the invariant. */
  lemma AppendKeepsUnique(rows: seq<Row>, row: Row)
    requires UniqueDevices(rows)
    requires forall r :: r in rows ==> r.deviceId != row.deviceId
    ensures UniqueDevices(rows + [row])
  {
    var r := rows + [row];
    forall i, j | 0 <= i < j < |r| ensures r[i].deviceId != r[j].deviceId {
      if j == |rows| { assert r[i] in rows; }
    }
  }

  /** After deleting a device's rows and inserting one for it, that row is its only one. */
  lemma {:induction false} ReplacedRowIsOnlyRow(rows: seq<Row>, row: Row)
    ensures RowsFor(WithoutDevice(rows, row.deviceId) + [row], row.deviceId) == [row]
  {
    var kept := WithoutDevice(rows, row.deviceId);
    RowsForAppend(kept, [row], row.deviceId);
    RowsForAbsent(kept, row.deviceId);
    assert RowsFor([row], row.deviceId) == [row] + RowsFor([], row.deviceId);
  }

  lemma {:induction false} RowsForAppend(a: seq<Row>, b: seq<Row>, deviceId: string)
    ensures RowsFor(a + b, deviceId) == RowsFor(a, deviceId) + RowsFor(b, deviceId)
  {
    if a != [] {
      assert (a + b)[1..] == a[1..] + b;
      RowsForAppend(a[1..], b, deviceId);
    } else {
      assert a + b == b;
    }
  }

  lemma {:induction false} RowsForAbsent(rows: seq<Row>, deviceId: string)
    requires forall r :: r in rows ==> r.deviceId != deviceId
    ensures RowsFor(rows, deviceId) == []
  {
    if rows != [] {
      assert rows[0] in rows;
      RowsForAbsent(rows[1..], deviceId);
    }
  }
}
