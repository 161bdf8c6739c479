// The handler of group commands (internal/gateway/groups.go): one command is applied to its groups
// one after the other, every outcome is kept in the ledger, and a command that comes back is taken up
// where it stopped.
module GroupCommands {
  import opened Database
  import opened Options
  import Sequences
  import opened GroupLedger

  const GROUP_HALT_LIMIT := 3
  const UNAVAILABLE := "unavailable"

  // A classified error: its text is never empty.
  datatype Error = Error(code: string, message: string) {
    function Text(): (text: string)
      ensures text != ""
    {
      code + ": " + message
    }

    predicate Unavailable() {
      code == UNAVAILABLE
    }
  }

  // What WhatsApp made of the action on one group.
  datatype Outcome = Applied(removed: Option<int>) | NotApplied(error: Error)

  // What the handler sees while it works on one group. The three flags are the state of the shutdown
  // when the group is taken up, when the outcome of the action arises and when the handler looks again.
  datatype Turn = Turn(
    atCheck: bool,
    begin: Reply,
    parse: Option<Error>,
    interrupted: bool,
    atApply: bool,
    outcome: Outcome,
    atReturn: bool,
    halt: Reply,
    mark: Reply,
    confirmed: bool)

  // What the outside sees of an answer for one group.
  datatype Report = Report(ok: bool, error: string, removed: Option<int>)

  datatype Event =
    | Tried(key: Key, outcome: Outcome, stopping: bool)
    | HaltWrite(key: Key, reply: Reply)
    | MarkWrite(key: Key, reply: Reply)
    | Published(key: Key, report: Report, confirmed: bool)

  // How a delivery ends: acknowledged, kept for requeueing, or rejected for a later replay.
  datatype Verdict = Ack | Requeue | Reject

  function ReportOf(record: Record): Report {
    Report(record.failure == "", record.failure, record.removed)
  }

  // ---- One group, as a function of its row ----

  datatype Turned = Turned(row: Option<Row>, log: seq<Event>, stop: Option<Verdict>)

  function Answer(key: Key, row: Row, report: Report, turn: Turn): Turned {
    Turned(Some(row), [Published(key, report, turn.confirmed)], if turn.confirmed then None else Some(Reject))
  }

  function Failing(key: Key, row: Row, error: Error, turn: Turn): Turned {
    var marked := if turn.mark.Down? then row else Finish(row, Failed, None, Some(error.Text()));
    var answer := Answer(key, marked, Report(false, error.Text(), None), turn);
    answer.(log := [MarkWrite(key, turn.mark)] + answer.log)
  }

  function Halting(key: Key, row: Row, error: Error, turn: Turn): Turned {
    var halted := if turn.halt.Down? then row else row.(halts := row.halts + 1);
    if !turn.halt.Stored? || halted.halts < GROUP_HALT_LIMIT then
      Turned(Some(halted), [HaltWrite(key, turn.halt)], Some(Reject))
    else
      var failing := Failing(key, halted, error, turn);
      failing.(log := [HaltWrite(key, turn.halt)] + failing.log)
  }

  function Applying(key: Key, row: Row, turn: Turn): Turned {
    var tried := [Tried(key, turn.outcome, turn.atReturn)];
    match turn.outcome
    case Applied(removed) =>
      var marked := if turn.mark.Down? then row else Finish(row, Sent, removed, None);
      var answer := Answer(key, marked, Report(true, "", removed), turn);
      answer.(log := tried + [MarkWrite(key, turn.mark)] + answer.log)
    case NotApplied(error) =>
      if error.Unavailable() && turn.atReturn then
        Turned(Some(row), tried, Some(Requeue))
      else
        var rest := if error.Unavailable() then Halting(key, row, error, turn) else Failing(key, row, error, turn);
        rest.(log := tried + rest.log)
  }

  function Working(key: Key, row: Row, setup: Option<Error>, turn: Turn): Turned {
    if setup.Some? then Failing(key, row, setup.value, turn)
    else if turn.parse.Some? then Failing(key, row, turn.parse.value, turn)
    else if turn.interrupted then Turned(Some(row), [], Some(Requeue))
    else Applying(key, row, turn)
  }

  function TurnOn(key: Key, row: Option<Row>, setup: Option<Error>, turn: Turn): Turned {
    if turn.atCheck then Turned(row, [], Some(Requeue))
    else
      match turn.begin
      case Down => Turned(row, [], Some(Reject))
      case Lost => Turned(Some(Opened(row)), [], Some(Reject))
      case Stored =>
        var record := RecordOf(Opened(row));
        if record.finished then Answer(key, Opened(row), ReportOf(record), turn)
        else Working(key, Opened(row), setup, turn)
  }

  // ---- One delivery ----

  datatype Command = Command(id: string, channel: string, setPhoto: bool, groups: seq<string>)

  // What reopening the channel and fetching the photo come to. The flags are the state of the shutdown
  // when the channel is about to be reopened and when the setup is through.
  datatype Setup = Setup(stopping: bool, late: bool, connect: Option<Error>, client: Option<Error>, photo: Option<Error>)

  datatype Delivery = Delivery(command: Command, atStart: bool, setup: Setup, turns: seq<Turn>)

  datatype Delivered = Delivered(rows: map<Key, Row>, log: seq<Event>, verdict: Verdict)

  const NO_CHANNEL := Error("invalid_request", "channelId is required")
  const STOPPING := Error(UNAVAILABLE, "gateway is shutting down, the channel is not reopened here")

  function SetupError(command: Command, setup: Setup): Option<Error> {
    if command.channel == "" then Some(NO_CHANNEL)
    else if setup.stopping then Some(STOPPING)
    else if setup.connect.Some? then setup.connect
    else if setup.client.Some? then setup.client
    else if command.setPhoto then setup.photo
    else None
  }

  function WithRow(rows: map<Key, Row>, key: Key, row: Option<Row>): map<Key, Row> {
    if row.Some? then rows[key := row.value] else rows
  }

  function Remaining(rows: map<Key, Row>, id: string, groups: seq<string>, setup: Option<Error>, turns: seq<Turn>): Delivered
    requires |turns| == |groups|
    decreases |groups|
  {
    if groups == [] then Delivered(rows, [], Ack)
    else
      var key := Key(id, groups[0]);
      var done := TurnOn(key, At(rows, key), setup, turns[0]);
      var rows' := WithRow(rows, key, done.row);
      if done.stop.Some? then Delivered(rows', done.log, done.stop.value)
      else
        var rest := Remaining(rows', id, groups[1..], setup, turns[1..]);
        rest.(log := done.log + rest.log)
  }

  // Every group has its turn, and the shutdown never goes back: once it has begun, every later look
  // of the same delivery sees it.
  ghost predicate WellFormed(d: Delivery) {
    && |d.turns| == |d.command.groups|
    && (d.setup.stopping ==> d.setup.late)
    && (d.setup.late && d.turns != [] ==> d.turns[0].atCheck)
    && (forall i :: 0 <= i < |d.turns| ==> (d.turns[i].atCheck ==> d.turns[i].atApply) && (d.turns[i].atApply ==> d.turns[i].atReturn))
    && (forall i :: 0 < i < |d.turns| ==> (d.turns[i - 1].atReturn ==> d.turns[i].atCheck))
  }

  function Deliver(rows: map<Key, Row>, d: Delivery): Delivered
    requires |d.turns| == |d.command.groups|
  {
    if d.atStart then Delivered(rows, [], Requeue)
    else Remaining(rows, d.command.id, d.command.groups, SetupError(d.command, d.setup), d.turns)
  }

  // ---- The handler ----

  class Gateway {
    const store: Store
    var log: seq<Event>

    constructor (store: Store)
      ensures this.store == store && log == []
    {
      this.store := store;
      log := [];
    }

    method PublishGroupAction(key: Key, report: Report, confirmed: bool) returns (ok: bool)
      modifies this`log
      ensures log == old(log) + [Published(key, report, confirmed)] && ok == confirmed
    {
      log := log + [Published(key, report, confirmed)];
      ok := confirmed;
    }

    // The common way to give up on one group: the failure is kept in the ledger and the command goes on.
    method Fail(key: Key, error: Error, turn: Turn) returns (report: Report)
      requires key in store.rows
      modifies this`log, store
      ensures log == old(log) + [MarkWrite(key, turn.mark)]
      ensures store.rows == old(store.rows)[key :=
        if turn.mark.Down? then old(store.rows)[key] else Finish(old(store.rows)[key], Failed, None, Some(error.Text()))]
      ensures report == Report(false, error.Text(), None)
    {
      report := Report(false, error.Text(), None);
      var _ := store.MarkActionFailed(key, report.error, turn.mark);
      log := log + [MarkWrite(key, turn.mark)];
    }

    method HaltOrGiveUp(key: Key, error: Error, turn: Turn) returns (report: Option<Report>)
      requires key in store.rows
      modifies this`log, store
      ensures var done := Halting(key, old(store.rows)[key], error, turn);
        && store.rows == old(store.rows)[key := done.row.value]
        && (if report.None? then log == old(log) + done.log && done.stop == Some(Reject)
            else Completes(log, old(log), key, report.value, turn, done))
    {
      ghost var row := store.rows[key];
      var halts := store.RecordActionHalt(key, turn.halt);
      log := log + [HaltWrite(key, turn.halt)];
      if halts.None? || halts.value < GROUP_HALT_LIMIT {
        return None;
      }
      var failed := Fail(key, error, turn);
      report := Some(failed);
      assert log + [Published(key, failed, turn.confirmed)] == old(log) + Halting(key, row, error, turn).log;
    }

    method ApplyGroupAction(key: Key, setup: Option<Error>, turn: Turn) returns (report: Option<Report>, stop: Verdict)
      requires key in store.rows
      modifies this`log, store
      ensures var done := Working(key, old(store.rows)[key], setup, turn);
        && store.rows == old(store.rows)[key := done.row.value]
        && (if report.None? then log == old(log) + done.log && done.stop == Some(stop)
            else Completes(log, old(log), key, report.value, turn, done))
    {
      stop := Reject;
      ghost var row := store.rows[key];
      if setup.Some? {
        var failed := Fail(key, setup.value, turn);
        report := Some(failed);
        assert log + [Published(key, failed, turn.confirmed)] == old(log) + Failing(key, row, setup.value, turn).log;
        return;
      }
      if turn.parse.Some? {
        var failed := Fail(key, turn.parse.value, turn);
        report := Some(failed);
        assert log + [Published(key, failed, turn.confirmed)] == old(log) + Failing(key, row, turn.parse.value, turn).log;
        return;
      }
      if turn.interrupted {
        return None, Requeue;
      }
      log := log + [Tried(key, turn.outcome, turn.atReturn)];
      match turn.outcome {
        case NotApplied(error) =>
          if error.Unavailable() && turn.atReturn {
            return None, Requeue;
          }
          if error.Unavailable() {
            report := HaltOrGiveUp(key, error, turn);
            ghost var rest := Halting(key, row, error, turn);
            assert old(log) + ([Tried(key, turn.outcome, turn.atReturn)] + rest.log)
                == old(log) + [Tried(key, turn.outcome, turn.atReturn)] + rest.log;
          } else {
            var failed := Fail(key, error, turn);
            report := Some(failed);
            ghost var rest := Failing(key, row, error, turn);
            assert log + [Published(key, failed, turn.confirmed)]
                == old(log) + ([Tried(key, turn.outcome, turn.atReturn)] + rest.log);
          }
        case Applied(removed) =>
          report := Some(Report(true, "", removed));
          var _ := store.MarkActionDone(key, removed, turn.mark);
          log := log + [MarkWrite(key, turn.mark)];
          assert log + [Published(key, report.value, turn.confirmed)] == old(log) + Applying(key, row, turn).log;
      }
    }

    // One round of the handler's loop; without a verdict the command goes on with the next group.
    method HandleGroup(key: Key, setup: Option<Error>, turn: Turn) returns (stop: Option<Verdict>)
      modifies this`log, store
      ensures var done := TurnOn(key, At(old(store.rows), key), setup, turn);
        && store.rows == WithRow(old(store.rows), key, done.row)
        && log == old(log) + done.log && stop == done.stop
    {
      if turn.atCheck {
        return Some(Requeue);
      }
      var record := store.BeginAction(key, turn.begin);
      if record.None? {
        return Some(Reject);
      }
      var result := ReportOf(record.value);
      if !record.value.finished {
        var report, verdict := ApplyGroupAction(key, setup, turn);
        if report.None? {
          return Some(verdict);
        }
        result := report.value;
      }
      var ok := PublishGroupAction(key, result, turn.confirmed);
      stop := if ok then None else Some(Reject);
    }

    method GroupHandler(d: Delivery) returns (verdict: Verdict)
      requires |d.turns| == |d.command.groups|
      modifies this`log, store
      ensures var done := Deliver(old(store.rows), d);
        store.rows == done.rows && log == old(log) + done.log && verdict == done.verdict
    {
      if d.atStart {
        return Requeue;
      }
      var setup := SetupError(d.command, d.setup);
      var groups := d.command.groups;
      ghost var all := Deliver(store.rows, d);
      assert groups[0..] == groups && d.turns[0..] == d.turns;
      for i := 0 to |groups|
        invariant Going(store.rows, log, old(log), d, i, setup, all)
      {
        GoesOn(store.rows, log, old(log), d, i, setup, all);
        var stop := HandleGroup(Key(d.command.id, groups[i]), setup, d.turns[i]);
        if stop.Some? {
          return stop.value;
        }
      }
      verdict := Ack;
    }
  }

  // The report is what the whole turn publishes once everything before it was done.
  ghost predicate Completes(log: seq<Event>, before: seq<Event>, key: Key, report: Report, turn: Turn, done: Turned) {
    && log + [Published(key, report, turn.confirmed)] == before + done.log
    && done.stop == (if turn.confirmed then None else Some(Reject))
  }

  // The loop of the handler has done the groups before i and the rest is still to come.
  ghost predicate Going(rows: map<Key, Row>, log: seq<Event>, before: seq<Event>, d: Delivery, i: nat, setup: Option<Error>,
                        all: Delivered)
    requires |d.turns| == |d.command.groups|
  {
    && i <= |d.turns|
    && var rest := Remaining(rows, d.command.id, d.command.groups[i..], setup, d.turns[i..]);
       all.rows == rest.rows && all.verdict == rest.verdict && before + all.log == log + rest.log
  }

  lemma RemainingFrom(rows: map<Key, Row>, d: Delivery, i: nat, setup: Option<Error>)
    requires |d.turns| == |d.command.groups| && i < |d.turns|
    ensures var key := Key(d.command.id, d.command.groups[i]);
      var done := TurnOn(key, At(rows, key), setup, d.turns[i]);
      var rows' := WithRow(rows, key, done.row);
      Remaining(rows, d.command.id, d.command.groups[i..], setup, d.turns[i..])
      == if done.stop.Some? then Delivered(rows', done.log, done.stop.value)
         else
           var rest := Remaining(rows', d.command.id, d.command.groups[i + 1..], setup, d.turns[i + 1..]);
           rest.(log := done.log + rest.log)
  {
    var groups, turns := d.command.groups[i..], d.turns[i..];
    assert groups[0] == d.command.groups[i] && turns[0] == d.turns[i];
    assert groups[1..] == d.command.groups[i + 1..] && turns[1..] == d.turns[i + 1..];
  }

  lemma GoesOn(rows: map<Key, Row>, log: seq<Event>, before: seq<Event>, d: Delivery, i: nat, setup: Option<Error>, all: Delivered)
    requires |d.turns| == |d.command.groups| && i < |d.turns|
    requires Going(rows, log, before, d, i, setup, all)
    ensures var key := Key(d.command.id, d.command.groups[i]);
      var done := TurnOn(key, At(rows, key), setup, d.turns[i]);
      if done.stop.Some? then all.rows == WithRow(rows, key, done.row) && all.verdict == done.stop.value && before + all.log == log + done.log
      else Going(WithRow(rows, key, done.row), log + done.log, before, d, i + 1, setup, all)
  {
    RemainingFrom(rows, d, i, setup);
    var key := Key(d.command.id, d.command.groups[i]);
    var done := TurnOn(key, At(rows, key), setup, d.turns[i]);
    if done.stop.None? {
      var rest := Remaining(WithRow(rows, key, done.row), d.command.id, d.command.groups[i + 1..], setup, d.turns[i + 1..]);
      Sequences.Regroup(log, done.log, rest.log);
    }
  }
}
