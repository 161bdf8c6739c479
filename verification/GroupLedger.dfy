// The ledger of group actions (internal/dedupe/store.go): one row for every group of every command,
// updated in place by single statements.
module GroupLedger {
  import opened Database
  import opened Options

  datatype Key = Key(command: string, group: string)

  datatype Status = Pending | Sent | Failed

  datatype Row = Row(status: Status, removed: Option<int>, failure: Option<string>, halts: nat)

  datatype Record = Record(finished: bool, removed: Option<int>, failure: string)

  function At(rows: map<Key, Row>, key: Key): Option<Row> {
    if key in rows then Some(rows[key]) else None
  }

  // The row that beginning an action leaves: the one that is there, or a fresh one.
  function Opened(row: Option<Row>): Row {
    if row.Some? then row.value else Row(Pending, None, None, 0)
  }

  predicate HasFailure(row: Row) {
    row.status == Failed && row.failure.Some? && row.failure.value != ""
  }

  function RecordOf(row: Row): Record {
    if HasFailure(row) then Record(true, None, row.failure.value)
    else Record(row.status == Sent, row.removed, "")
  }

  predicate Finished(row: Option<Row>) {
    row.Some? && RecordOf(row.value).finished
  }

  function Finish(row: Row, status: Status, removed: Option<int>, failure: Option<string>): Row {
    row.(status := status, removed := removed, failure := failure)
  }

  class Store {
    var rows: map<Key, Row>

    constructor ()
      ensures rows == map[]
    {
      rows := map[];
    }

    method BeginAction(key: Key, reply: Reply) returns (record: Option<Record>)
      modifies this
      ensures rows == if reply.Down? then old(rows) else old(rows)[key := Opened(At(old(rows), key))]
      ensures record == if reply.Stored? then Some(RecordOf(Opened(At(old(rows), key)))) else None
    {
      if reply.Down? {
        return None;
      }
      if key !in rows {
        rows := rows[key := Row(Pending, None, None, 0)];
      } else {
        rows := rows[key := rows[key]];
      }
      if reply.Lost? {
        return None;
      }
      var row := rows[key];
      if row.status == Failed && row.failure.Some? && row.failure.value != "" {
        return Some(Record(true, None, row.failure.value));
      }
      record := Some(Record(row.status == Sent, row.removed, ""));
    }

    method MarkActionDone(key: Key, removed: Option<int>, reply: Reply) returns (ok: bool)
      modifies this
      ensures rows == if reply.Down? || key !in old(rows) then old(rows)
                      else old(rows)[key := Finish(old(rows)[key], Sent, removed, None)]
      ensures ok == (reply.Stored? && key in old(rows))
    {
      ok := FinishAction(key, Sent, removed, None, reply);
    }

    method MarkActionFailed(key: Key, failure: string, reply: Reply) returns (ok: bool)
      modifies this
      ensures rows == if failure == "" || reply.Down? || key !in old(rows) then old(rows)
                      else old(rows)[key := Finish(old(rows)[key], Failed, None, Some(failure))]
      ensures ok == (failure != "" && reply.Stored? && key in old(rows))
    {
      if failure == "" {
        return false;
      }
      ok := FinishAction(key, Failed, None, Some(failure), reply);
    }

    method RecordActionHalt(key: Key, reply: Reply) returns (halts: Option<nat>)
      modifies this
      ensures rows == if reply.Down? || key !in old(rows) then old(rows)
                      else old(rows)[key := old(rows)[key].(halts := old(rows)[key].halts + 1)]
      ensures halts == if reply.Stored? && key in old(rows) then Some(old(rows)[key].halts + 1) else None
    {
      if reply.Down? || key !in rows {
        return None;
      }
      var row := rows[key];
      rows := rows[key := row.(halts := row.halts + 1)];
      halts := if reply.Lost? then None else Some(row.halts + 1);
    }

    method FinishAction(key: Key, status: Status, removed: Option<int>, failure: Option<string>, reply: Reply)
        returns (ok: bool)
      modifies this
      ensures rows == if reply.Down? || key !in old(rows) then old(rows)
                      else old(rows)[key := Finish(old(rows)[key], status, removed, failure)]
      ensures ok == (reply.Stored? && key in old(rows))
    {
      if reply.Down? || key !in rows {
        return false;
      }
      var row := rows[key];
      rows := rows[key := row.(status := status, removed := removed, failure := failure)];
      ok := reply.Stored?;
    }
  }
}
