// What the reports of group commands stand for, over any run of turns: a success is the outcome of a
// try, a failure is an error that some turn met, and nothing else is ever published.
module GroupOutcomes {
  import opened Database
  import opened Options
  import Sequences
  import opened GroupLedger
  import opened GroupCommands
  import opened GroupReplay

  // The turn takes the group up: the shutdown is not seen yet and the row is begun and unfinished.
  predicate TakesUp(row: Option<Row>, turn: Turn) {
    !turn.atCheck && turn.begin.Stored? && !Finished(row)
  }

  // The error a turn meets on a group it takes up: first that of the setup, then that of the group's
  // name, and last that of the action, unless the pacing before it was interrupted.
  ghost predicate Meets(m: Move, error: Error) {
    && !m.turn.atCheck && m.turn.begin.Stored?
    && (m.setup == Some(error)
        || (m.setup.None? && m.turn.parse == Some(error))
        || (m.setup.None? && m.turn.parse.None? && !m.turn.interrupted && m.turn.outcome == NotApplied(error)))
  }

  ghost predicate AppliedBefore(log: seq<Event>, i: nat, key: Key, removed: Option<int>) {
    exists j :: 0 <= j < i <= |log| && log[j].Tried? && log[j].key == key && log[j].outcome == Applied(removed)
  }

  ghost predicate MetFor(moves: seq<Move>, key: Key, text: string) {
    exists k, error :: 0 <= k < |moves| && moves[k].key == key && Meets(moves[k], error) && error.Text() == text
  }

  // What the report says has happened.
  ghost predicate Earned(log: seq<Event>, i: nat, moves: seq<Move>, key: Key, report: Report) {
    if report.ok then report.error == "" && AppliedBefore(log, i, key, report.removed)
    else report.removed.None? && MetFor(moves, key, report.error)
  }

  ghost predicate AllEarned(log: seq<Event>, moves: seq<Move>, key: Key) {
    forall i :: 0 <= i < |log| && log[i].Published? && log[i].key == key ==> Earned(log, i, moves, key, log[i].report)
  }

  // The same of what a finished row keeps.
  ghost predicate RowEarned(row: Option<Row>, log: seq<Event>, moves: seq<Move>, key: Key) {
    Finished(row) ==> Earned(log, |log|, moves, key, ReportOf(RecordOf(row.value)))
  }

  lemma EarnedLater(log: seq<Event>, more: seq<Event>, moves: seq<Move>, m: Move, key: Key, i: nat, report: Report)
    requires i <= |log| && Earned(log, i, moves, key, report)
    ensures forall n :: i <= n <= |log + more| ==> Earned(log + more, n, moves + [m], key, report)
  {
    if report.ok {
      var j :| 0 <= j < i && log[j].Tried? && log[j].key == key && log[j].outcome == Applied(report.removed);
      assert (log + more)[j] == log[j];
    } else {
      var k, error :| 0 <= k < |moves| && moves[k].key == key && Meets(moves[k], error) && error.Text() == report.error;
      assert (moves + [m])[k] == moves[k];
    }
  }

  lemma LastMet(moves: seq<Move>, m: Move, error: Error)
    requires Meets(m, error)
    ensures MetFor(moves + [m], m.key, error.Text())
  {
    assert (moves + [m])[|moves|] == m;
  }

  lemma JustApplied(log: seq<Event>, more: seq<Event>, key: Key, removed: Option<int>)
    requires more != [] && more[0].Tried? && more[0].key == key && more[0].outcome == Applied(removed)
    ensures forall i :: |log| < i <= |log + more| ==> AppliedBefore(log + more, i, key, removed)
  {
    assert (log + more)[|log|] == more[0];
  }

  // What a turn publishes, or leaves in the row, on a row that was not finished.
  ghost predicate NewlyEarned(m: Move, log: seq<Event>, report: Report) {
    if report.ok then report.error == "" && log != [] && log[0] == Tried(m.key, Applied(report.removed), m.turn.atReturn)
    else report.removed.None? && exists error :: Meets(m, error) && error.Text() == report.error
  }

  ghost predicate TurnEarns(m: Move, done: Turned) {
    && (forall i :: 0 <= i < |done.log| && done.log[i].Published? ==>
          NewlyEarned(m, done.log, done.log[i].report) && (done.log[i].report.ok ==> i > 0))
    && (Finished(done.row) ==> NewlyEarned(m, done.log, ReportOf(RecordOf(done.row.value))))
  }

  lemma FailingEarns(m: Move, row: Row, error: Error, done: Turned)
    requires Meets(m, error) && !Finished(Some(row))
    requires done == Failing(m.key, row, error, m.turn) || done == Halting(m.key, row, error, m.turn)
    ensures forall i :: 0 <= i < |done.log| && done.log[i].Published? ==> done.log[i].report == Report(false, error.Text(), None)
    ensures Finished(done.row) ==> RecordOf(done.row.value) == Record(true, None, error.Text())
    ensures forall i :: 0 <= i < |done.log| ==> !done.log[i].Tried?
  {
  }

  lemma ApplyingEarns(m: Move, row: Row, done: Turned)
    requires !m.turn.atCheck && m.turn.begin.Stored? && m.setup.None? && m.turn.parse.None? && !m.turn.interrupted
    requires !Finished(Some(row)) && done == Applying(m.key, row, m.turn)
    ensures TurnEarns(m, done)
  {
    match m.turn.outcome
    case Applied(_) =>
    case NotApplied(error) =>
      assert Meets(m, error);
      if !(error.Unavailable() && m.turn.atReturn) {
        FailingEarns(m, row, error, if error.Unavailable() then Halting(m.key, row, error, m.turn) else Failing(m.key, row, error, m.turn));
      }
  }

  lemma UnfinishedEarns(m: Move, row: Option<Row>, done: Turned)
    requires !Finished(row) && done == TurnOn(m.key, row, m.setup, m.turn)
    ensures TurnEarns(m, done)
  {
    if !m.turn.atCheck && m.turn.begin.Stored? {
      if m.setup.Some? {
        FailingEarns(m, Opened(row), m.setup.value, done);
      } else if m.turn.parse.Some? {
        FailingEarns(m, Opened(row), m.turn.parse.value, done);
      } else if !m.turn.interrupted {
        ApplyingEarns(m, Opened(row), done);
      }
    }
  }

  lemma NewlyIsEarned(log: seq<Event>, more: seq<Event>, moves: seq<Move>, m: Move, report: Report, i: nat)
    requires NewlyEarned(m, more, report) && |log| <= i <= |log + more| && (report.ok ==> |log| < i)
    ensures Earned(log + more, i, moves + [m], m.key, report)
  {
    if report.ok {
      JustApplied(log, more, m.key, report.removed);
    } else {
      var error :| Meets(m, error) && error.Text() == report.error;
      LastMet(moves, m, error);
    }
  }

  lemma MoveEarns(w: World, moves: seq<Move>, m: Move, w': World, key: Key)
    requires w' == Moved(w, m) && AllEarned(w.log, moves, key) && RowEarned(At(w.rows, key), w.log, moves, key)
    ensures AllEarned(w'.log, moves + [m], key) && RowEarned(At(w'.rows, key), w'.log, moves + [m], key)
  {
    var row := At(w.rows, m.key);
    var done := TurnOn(m.key, row, m.setup, m.turn);
    TurnTouchesItsKey(m.key, row, m.setup, m.turn, done.log);
    if m.key == key && !Finished(row) {
      UnfinishedEarns(m, row, done);
      if Finished(done.row) {
        NewlyIsEarned(w.log, done.log, moves, m, ReportOf(RecordOf(done.row.value)), |w'.log|);
      }
    } else if Finished(At(w.rows, key)) {
      EarnedLater(w.log, done.log, moves, m, key, |w.log|, ReportOf(RecordOf(w.rows[key])));
    }
    forall i | 0 <= i < |w'.log| && w'.log[i].Published? && w'.log[i].key == key
      ensures Earned(w'.log, i, moves + [m], key, w'.log[i].report)
    {
      if i < |w.log| {
        EarnedLater(w.log, done.log, moves, m, key, i, w.log[i].report);
      } else if Finished(row) {
        assert done.log[i - |w.log|].report == ReportOf(RecordOf(row.value));
      } else {
        NewlyIsEarned(w.log, done.log, moves, m, done.log[i - |w.log|].report, i);
      }
    }
  }

  lemma {:induction false} RunEarns(rows: map<Key, Row>, moves: seq<Move>, key: Key)
    requires key !in rows
    ensures var w := Play(World(rows, []), moves);
      AllEarned(w.log, moves, key) && RowEarned(At(w.rows, key), w.log, moves, key)
  {
    if moves != [] {
      var n := |moves| - 1;
      RunEarns(rows, moves[..n], key);
      MoveEarns(Play(World(rows, []), moves[..n]), moves[..n], moves[n], Play(World(rows, []), moves), key);
      Sequences.LastJoins(moves);
    }
  }

  // A success is published only after a try that succeeded, with what that try removed, and a failure
  // only with the text of an error that some turn on this group met: no report is made up.
  lemma ReportsAreEarned(rows: map<Key, Row>, moves: seq<Move>, key: Key, i: nat)
    requires key !in rows
    requires var log := Play(World(rows, []), moves).log; i < |log| && log[i].Published? && log[i].key == key
    ensures var log := Play(World(rows, []), moves).log; var report := log[i].report;
      if report.ok then
        exists j :: 0 <= j < i && log[j].Tried? && log[j].key == key && log[j].outcome == Applied(report.removed)
      else
        exists k, error: Error :: 0 <= k < |moves| && moves[k].key == key && Meets(moves[k], error)
          && report == Report(false, error.code + ": " + error.message, None)
  {
    RunEarns(rows, moves, key);
    var log := Play(World(rows, []), moves).log;
    assert Earned(log, i, moves, key, log[i].report);
  }

  // ---- What a turn does before it tries ----

  // The row says for good that the group failed with this text.
  predicate FailedWith(row: Option<Row>, text: string) {
    row.Some? && row.value.status == Failed && row.value.failure == Some(text)
  }

  // An error of the setup, or else of the group's name, is published at once, without a try, and kept in
  // the row unless that write never ran.
  lemma FailsBeforeTheTry(key: Key, row: Option<Row>, setup: Option<Error>, turn: Turn, error: Error)
    requires TakesUp(row, turn) && (if setup.Some? then setup == Some(error) else turn.parse == Some(error))
    ensures var done, text := TurnOn(key, row, setup, turn), error.code + ": " + error.message;
      && done.log == [MarkWrite(key, turn.mark), Published(key, Report(false, text, None), turn.confirmed)]
      && done.stop == (if turn.confirmed then None else Some(Reject))
      && (if turn.mark.Down? then done.row == Some(Opened(row)) else FailedWith(done.row, text) && Finished(done.row))
  {
  }

  // An interruption before the try leaves the row as it was opened and publishes nothing.
  lemma InterruptedIsRequeued(key: Key, row: Option<Row>, turn: Turn)
    requires TakesUp(row, turn) && turn.parse.None? && turn.interrupted
    ensures TurnOn(key, row, None, turn) == Turned(Some(Opened(row)), [], Some(Requeue))
  {
  }

  // ---- Halts ----

  lemma HaltedTurn(key: Key, row: Option<Row>, turn: Turn, error: Error, done: Turned)
    requires TakesUp(row, turn) && turn.parse.None? && !turn.interrupted && turn.outcome == NotApplied(error)
    requires error.code == "unavailable" && !turn.atReturn && Halts(row) < 2 && done == TurnOn(key, row, None, turn)
    ensures done.log == [Tried(key, turn.outcome, false), HaltWrite(key, turn.halt)] && done.stop == Some(Reject) && !Finished(done.row)
  {
  }

  // A group is not given up before its third unavailability: the first two leave it open, publish nothing
  // and send the command to a later replay, whatever becomes of the writes.
  lemma FirstHaltsAreReplayed(rows: map<Key, Row>, moves: seq<Move>, m: Move, error: Error)
    requires m.key !in rows && Count(Play(World(rows, []), moves).log, Unavailability, m.key) < 2
    requires TakesUp(At(Play(World(rows, []), moves).rows, m.key), m.turn)
    requires m.setup.None? && m.turn.parse.None? && !m.turn.interrupted && m.turn.outcome == NotApplied(error)
    requires error.code == "unavailable" && !m.turn.atReturn
    ensures var w, w' := Play(World(rows, []), moves), Play(World(rows, []), moves + [m]);
      && w'.log == w.log + [Tried(m.key, m.turn.outcome, false), HaltWrite(m.key, m.turn.halt)]
      && TurnOn(m.key, At(w.rows, m.key), m.setup, m.turn).stop == Some(Reject)
      && !Finished(At(w'.rows, m.key))
  {
    var w := Play(World(rows, []), moves);
    RunAccounts(World(rows, []), moves, m.key);
    PlayInParts(World(rows, []), moves, [m]);
    HaltedTurn(m.key, At(w.rows, m.key), m.turn, error, TurnOn(m.key, At(w.rows, m.key), None, m.turn));
  }

  // ---- Whole deliveries ----

  // The errors of the setup, in the order in which it meets them.
  ghost predicate IsSetupError(c: Command, s: Setup, error: Error) {
    if c.channel == "" then error == Error("invalid_request", "channelId is required")
    else if s.stopping then error == Error("unavailable", "gateway is shutting down, the channel is not reopened here")
    else
      || s.connect == Some(error)
      || (s.connect.None? && s.client == Some(error))
      || (s.connect.None? && s.client.None? && c.setPhoto && s.photo == Some(error))
  }

  lemma SetupErrorIsFirst(c: Command, s: Setup, error: Error)
    ensures SetupError(c, s) == Some(error) <==> IsSetupError(c, s, error)
  {
  }

  // Rows that were finished are as they were; the others failed with this text, or are still open.
  ghost predicate OnlyFailed(before: map<Key, Row>, rows: map<Key, Row>, text: string) {
    forall key :: if Finished(At(before, key)) then At(rows, key) == At(before, key)
                  else Finished(At(rows, key)) ==> FailedWith(At(rows, key), text)
  }

  // What is answered for a group whose action cannot be tried.
  function FailedReport(before: Option<Row>, text: string): Report {
    if Finished(before) then ReportOf(RecordOf(before.value)) else Report(false, text, None)
  }

  ghost predicate AnswersFailed(before: map<Key, Row>, log: seq<Event>, text: string) {
    forall i :: 0 <= i < |log| ==>
      !log[i].Tried? && (log[i].Published? ==> log[i].report == FailedReport(At(before, log[i].key), text))
  }

  lemma TurnAnswersFailed(before: map<Key, Row>, rows: map<Key, Row>, key: Key, error: Error, turn: Turn, done: Turned)
    requires OnlyFailed(before, rows, error.Text()) && done == TurnOn(key, At(rows, key), Some(error), turn)
    ensures OnlyFailed(before, WithRow(rows, key, done.row), error.Text()) && AnswersFailed(before, done.log, error.Text())
  {
    var row := At(rows, key);
    if TakesUp(row, turn) {
      FailsBeforeTheTry(key, row, Some(error), turn, error);
    }
  }

  lemma {:induction false} RestAnswersFailed(before: map<Key, Row>, rows: map<Key, Row>, id: string, groups: seq<string>, error: Error, turns: seq<Turn>)
    requires |turns| == |groups| && OnlyFailed(before, rows, error.Text())
    ensures var rest := Remaining(rows, id, groups, Some(error), turns);
      AnswersFailed(before, rest.log, error.Text()) && OnlyFailed(before, rest.rows, error.Text())
    decreases |groups|
  {
    if groups != [] {
      var key := Key(id, groups[0]);
      var done := TurnOn(key, At(rows, key), Some(error), turns[0]);
      TurnAnswersFailed(before, rows, key, error, turns[0], done);
      if done.stop.None? {
        RestAnswersFailed(before, WithRow(rows, key, done.row), id, groups[1..], error, turns[1..]);
      }
    }
  }

  // When the setup fails, nothing is tried in the whole delivery: a group that was finished before is
  // answered as its row says, every other one with the error that the setup met first.
  lemma FailedSetupFailsEveryGroup(rows: map<Key, Row>, d: Delivery, error: Error)
    requires |d.turns| == |d.command.groups| && IsSetupError(d.command, d.setup, error)
    ensures var done, text := Deliver(rows, d), error.code + ": " + error.message;
      && (forall i :: 0 <= i < |done.log| ==> !done.log[i].Tried?)
      && (forall i :: 0 <= i < |done.log| && done.log[i].Published? ==>
            done.log[i].report == FailedReport(At(rows, done.log[i].key), text))
      && OnlyFailed(rows, done.rows, text)
  {
    SetupErrorIsFirst(d.command, d.setup, error);
    RestAnswersFailed(rows, rows, d.command.id, d.command.groups, error, d.turns);
  }

  // A delivery comes as far as group j, takes it up and has an error for it before any try: it is published
  // next, the row keeps it unless that write never ran, and the next group follows if it was confirmed.
  lemma ReachedGroupFails(rows: map<Key, Row>, d: Delivery, j: nat, error: Error)
    requires |d.turns| == |d.command.groups| && !d.atStart && j < |d.turns| && Before(rows, d, j).verdict == Ack
    requires TakesUp(At(Before(rows, d, j).rows, Key(d.command.id, d.command.groups[j])), d.turns[j])
    requires IsSetupError(d.command, d.setup, error)
          || ((forall e :: !IsSetupError(d.command, d.setup, e)) && d.turns[j].parse == Some(error))
    ensures var before, key, text := Before(rows, d, j), Key(d.command.id, d.command.groups[j]), error.code + ": " + error.message;
      var mark, answer := MarkWrite(key, d.turns[j].mark), Published(key, Report(false, text, None), d.turns[j].confirmed);
      && before.log + [mark, answer] <= Deliver(rows, d).log
      && (!d.turns[j].confirmed ==> Deliver(rows, d).log == before.log + [mark, answer] && Deliver(rows, d).verdict == Reject)
      && (!d.turns[j].mark.Down? ==> FailedWith(At(Before(rows, d, j + 1).rows, key), text))
  {
    var before, key, setup := Before(rows, d, j), Key(d.command.id, d.command.groups[j]), SetupError(d.command, d.setup);
    SetupErrorIsFirst(d.command, d.setup, error);
    if setup.Some? {
      SetupErrorIsFirst(d.command, d.setup, setup.value);
    }
    FailsBeforeTheTry(key, At(before.rows, key), setup, d.turns[j], error);
    RemainingInParts(rows, d.command.id, d.command.groups, setup, d.turns, j);
    assert d.command.groups[j..][0] == d.command.groups[j] && d.turns[j..][0] == d.turns[j];
    NextIsThere(rows, d, j, setup);
  }

  // The rows after group j are those of its turn on the rows before it.
  lemma NextIsThere(rows: map<Key, Row>, d: Delivery, j: nat, setup: Option<Error>)
    requires |d.turns| == |d.command.groups| && j < |d.turns| && setup == SetupError(d.command, d.setup)
    requires Before(rows, d, j).verdict == Ack
    ensures var before, key := Before(rows, d, j), Key(d.command.id, d.command.groups[j]);
      Before(rows, d, j + 1).rows == WithRow(before.rows, key, TurnOn(key, At(before.rows, key), setup, d.turns[j]).row)
  {
    var groups, turns := d.command.groups[..j + 1], d.turns[..j + 1];
    assert groups[..j] == d.command.groups[..j] && turns[..j] == d.turns[..j];
    RemainingInParts(rows, d.command.id, groups, setup, turns, j);
    assert groups[j..] == [d.command.groups[j]] && turns[j..] == [d.turns[j]];
  }

  // The handler sees the shutdown at group j: before it takes the group up, in the pacing before the
  // try, or behind an unavailability.
  ghost predicate SeesShutdown(row: Option<Row>, setup: Option<Error>, turn: Turn) {
    || turn.atCheck
    || (TakesUp(row, turn) && setup.None? && turn.parse.None?
        && (turn.interrupted
            || (turn.outcome.NotApplied? && turn.outcome.error.code == "unavailable" && turn.atReturn)))
  }

  lemma TurnRequeues(key: Key, row: Option<Row>, setup: Option<Error>, turn: Turn)
    ensures TurnOn(key, row, setup, turn).stop == Some(Requeue) <==> SeesShutdown(row, setup, turn)
    ensures TurnOn(key, row, setup, turn).stop != Some(Ack)
  {
  }

  // The groups before j are through, and at j the shutdown is seen.
  ghost predicate StopsAt(rows: map<Key, Row>, id: string, groups: seq<string>, setup: Option<Error>, turns: seq<Turn>, j: nat)
    requires |turns| == |groups|
  {
    && j < |groups|
    && var before := Remaining(rows, id, groups[..j], setup, turns[..j]);
       before.verdict == Ack && SeesShutdown(At(before.rows, Key(id, groups[j])), setup, turns[j])
  }

  lemma StopsLater(rows: map<Key, Row>, id: string, groups: seq<string>, setup: Option<Error>, turns: seq<Turn>, j: nat)
    requires |turns| == |groups| && groups != [] && j < |groups| - 1
    requires var done := TurnOn(Key(id, groups[0]), At(rows, Key(id, groups[0])), setup, turns[0]); done.stop.None?
    ensures var rows' := WithRow(rows, Key(id, groups[0]), TurnOn(Key(id, groups[0]), At(rows, Key(id, groups[0])), setup, turns[0]).row);
      StopsAt(rows, id, groups, setup, turns, j + 1) <==> StopsAt(rows', id, groups[1..], setup, turns[1..], j)
  {
    assert groups[..j + 1][0] == groups[0] && turns[..j + 1][0] == turns[0];
    assert groups[..j + 1][1..] == groups[1..][..j] && turns[..j + 1][1..] == turns[1..][..j];
  }

  lemma {:induction false} RestRequeues(rows: map<Key, Row>, id: string, groups: seq<string>, setup: Option<Error>, turns: seq<Turn>)
    requires |turns| == |groups|
    ensures Remaining(rows, id, groups, setup, turns).verdict == Requeue <==> exists j :: StopsAt(rows, id, groups, setup, turns, j)
    decreases |groups|
  {
    if groups != [] {
      var key := Key(id, groups[0]);
      var done := TurnOn(key, At(rows, key), setup, turns[0]);
      var rows' := WithRow(rows, key, done.row);
      TurnRequeues(key, At(rows, key), setup, turns[0]);
      assert groups[..0] == [] && turns[..0] == [];
      if done.stop == Some(Requeue) {
        assert StopsAt(rows, id, groups, setup, turns, 0);
      } else if done.stop.None? {
        RestRequeues(rows', id, groups[1..], setup, turns[1..]);
        forall j: nat | j < |groups| - 1
          ensures StopsAt(rows, id, groups, setup, turns, j + 1) <==> StopsAt(rows', id, groups[1..], setup, turns[1..], j)
        {
          StopsLater(rows, id, groups, setup, turns, j);
        }
        if j: nat :| StopsAt(rows', id, groups[1..], setup, turns[1..], j) {
          assert StopsAt(rows, id, groups, setup, turns, j + 1);
        }
        if j: nat :| StopsAt(rows, id, groups, setup, turns, j) {
          assert j > 0;
          assert StopsAt(rows', id, groups[1..], setup, turns[1..], j - 1);
        }
      } else {
        forall j: nat
          ensures !StopsAt(rows, id, groups, setup, turns, j)
        {
          if 0 < j < |groups| {
            assert groups[..j][0] == groups[0] && turns[..j][0] == turns[0];
          }
        }
      }
    }
  }

  // A command is kept for requeueing exactly when its handler sees the shutdown; any other end that is
  // not an acknowledgement sends it to a later replay.
  lemma RequeuedExactlyInShutdown(rows: map<Key, Row>, d: Delivery)
    requires |d.turns| == |d.command.groups|
    ensures Deliver(rows, d).verdict == Requeue
       <==> d.atStart || exists j :: StopsAt(rows, d.command.id, d.command.groups, SetupError(d.command, d.setup), d.turns, j)
  {
    RestRequeues(rows, d.command.id, d.command.groups, SetupError(d.command, d.setup), d.turns);
  }
}
