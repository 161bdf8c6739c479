// The row of a channel's history import (internal/registry/history.go): each method is one SQL
// statement on it.
module ImportRegistry {
  import opened Database
  import opened Options

  // Import ids are only ever compared.
  type ImportId = nat

  const QUIET_PERIOD := 30 * 60

  datatype Row = Row(importId: ImportId, batches: nat, skipped: set<string>, finished: bool, touched: int)

  datatype Active = Active(importId: ImportId, batches: nat, skippedChats: nat, finished: bool)

  datatype Found<T> = Answer(value: T) | NoImport | Unknown

  predicate Live(row: Row, now: int) {
    !row.finished || row.touched > now - QUIET_PERIOD
  }

  // The condition of the statements that update the row of one import.
  predicate Accepts(row: Option<Row>, id: ImportId, now: int) {
    row.Some? && row.value.importId == id && Live(row.value, now)
  }

  function Begun(id: ImportId, now: int): Row {
    Row(id, 0, {}, false, now)
  }

  function ActiveOf(row: Option<Row>, now: int): Option<Active> {
    if row.Some? && Live(row.value, now) then
      Some(Active(row.value.importId, row.value.batches, |row.value.skipped|, row.value.finished))
    else None
  }

  function Counted(row: Row, now: int): Row {
    row.(batches := row.batches + 1, touched := now)
  }

  function Skipped(row: Row, chats: set<string>, now: int): Row {
    row.(skipped := row.skipped + chats, touched := now)
  }

  function Finished(row: Option<Row>, id: ImportId, now: int): Option<Row> {
    if row.Some? && row.value.importId == id && !row.value.finished then
      Some(row.value.(finished := true, touched := now))
    else row
  }

  class Registry {
    var rows: map<string, Row>

    constructor ()
      ensures rows == map[]
    {
      rows := map[];
    }

    function At(channel: string): Option<Row>
      reads this
    {
      if channel in rows then Some(rows[channel]) else None
    }

    // Nothing but the row of this channel may differ from before.
    twostate predicate OnlyChanged(channel: string)
      reads this
    {
      rows - {channel} == old(rows) - {channel}
    }

    method BeginHistoryImport(channel: string, id: ImportId, now: int, reply: Reply) returns (ok: bool)
      modifies this
      ensures At(channel) == (if reply.Down? then old(At(channel)) else Some(Begun(id, now))) && OnlyChanged(channel)
      ensures ok == reply.Stored?
    {
      if !reply.Down? {
        rows := rows[channel := Row(id, 0, {}, false, now)];
      }
      ok := reply.Stored?;
    }

    method ActiveHistoryImport(channel: string, now: int, reply: Reply) returns (active: Found<Active>)
      ensures active == if !reply.Stored? then Unknown
                        else if ActiveOf(At(channel), now).Some? then Answer(ActiveOf(At(channel), now).value)
                        else NoImport
    {
      if !reply.Stored? {
        return Unknown;
      }
      if channel !in rows || !Live(rows[channel], now) {
        return NoImport;
      }
      var row := rows[channel];
      active := Answer(Active(row.importId, row.batches, |row.skipped|, row.finished));
    }

    method CountHistoryBatch(channel: string, id: ImportId, now: int, reply: Reply) returns (total: Found<nat>)
      modifies this
      ensures At(channel) == (if !reply.Down? && Accepts(old(At(channel)), id, now) then Some(Counted(old(At(channel)).value, now))
                              else old(At(channel))) && OnlyChanged(channel)
      ensures total == if !reply.Stored? then Unknown
                       else if Accepts(old(At(channel)), id, now) then Answer(old(At(channel)).value.batches + 1)
                       else NoImport
    {
      if reply.Down? {
        return Unknown;
      }
      if !Accepts(At(channel), id, now) {
        return if reply.Lost? then Unknown else NoImport;
      }
      var row := rows[channel];
      rows := rows[channel := row.(batches := row.batches + 1, touched := now)];
      total := if reply.Lost? then Unknown else Answer(row.batches + 1);
    }

    method SkipHistoryChats(channel: string, id: ImportId, chats: set<string>, now: int, reply: Reply) returns (total: Found<nat>)
      modifies this
      ensures At(channel) == (if !reply.Down? && Accepts(old(At(channel)), id, now) then Some(Skipped(old(At(channel)).value, chats, now))
                              else old(At(channel))) && OnlyChanged(channel)
      ensures total == if !reply.Stored? then Unknown
                       else if Accepts(old(At(channel)), id, now) then Answer(|old(At(channel)).value.skipped + chats|)
                       else NoImport
    {
      if reply.Down? {
        return Unknown;
      }
      if !Accepts(At(channel), id, now) {
        return if reply.Lost? then Unknown else NoImport;
      }
      var row := rows[channel];
      rows := rows[channel := row.(skipped := row.skipped + chats, touched := now)];
      total := if reply.Lost? then Unknown else Answer(|row.skipped + chats|);
    }

    method FinishHistoryImport(channel: string, id: ImportId, now: int, reply: Reply) returns (ok: bool)
      modifies this
      ensures At(channel) == (if reply.Down? then old(At(channel)) else Finished(old(At(channel)), id, now)) && OnlyChanged(channel)
      ensures ok == reply.Stored?
    {
      if !reply.Down? && channel in rows && rows[channel].importId == id && !rows[channel].finished {
        rows := rows[channel := rows[channel].(finished := true, touched := now)];
      }
      ok := reply.Stored?;
    }

    method ClearHistoryImport(channel: string, reply: Reply) returns (ok: bool)
      modifies this
      ensures At(channel) == (if reply.Down? then old(At(channel)) else None) && OnlyChanged(channel)
      ensures ok == reply.Stored?
    {
      if !reply.Down? {
        rows := rows - {channel};
      }
      ok := reply.Stored?;
    }
  }
}
