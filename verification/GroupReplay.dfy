// What holds of group commands over any run of deliveries, redeliveries and restarts: the ledger is
// all that survives between them, and each group of each command is worked on one turn at a time.
module GroupReplay {
  import opened Database
  import opened Options
  import opened GroupLedger
  import opened GroupCommands
  import Sequences

  // One turn of one delivery on one group. A run is any sequence of moves: deliveries of different
  // commands may interleave, may break off anywhere and may come back any number of times. A process
  // that dies inside a turn is a turn whose remaining statements are Down, or Lost if they ran, and
  // whose publication is not confirmed.
  datatype Move = Move(key: Key, setup: Option<Error>, turn: Turn)

  datatype World = World(rows: map<Key, Row>, log: seq<Event>)

  function Moved(w: World, m: Move): World {
    var done := TurnOn(m.key, At(w.rows, m.key), m.setup, m.turn);
    World(WithRow(w.rows, m.key, done.row), w.log + done.log)
  }

  function Play(w: World, moves: seq<Move>): World
    decreases |moves|
  {
    if moves == [] then w else Moved(Play(w, moves[..|moves| - 1]), moves[|moves| - 1])
  }

  lemma {:induction false} PlayInParts(w: World, a: seq<Move>, b: seq<Move>)
    ensures Play(w, a + b) == Play(Play(w, a), b)
    decreases |b|
  {
    if b == [] {
      assert a + b == a;
    } else {
      var n := |b| - 1;
      assert (a + b)[..|a + b| - 1] == a + b[..n];
      PlayInParts(w, a, b[..n]);
    }
  }

  lemma PlayFirst(w: World, m: Move, more: seq<Move>)
    ensures Play(w, [m] + more) == Play(Moved(w, m), more)
  {
    PlayInParts(w, [m], more);
  }

  // ---- Deliveries are runs ----

  lemma {:induction false} RemainingIsPlay(w: World, id: string, groups: seq<string>, setup: Option<Error>, turns: seq<Turn>)
      returns (moves: seq<Move>)
    requires |turns| == |groups|
    ensures var rest := Remaining(w.rows, id, groups, setup, turns);
      Play(w, moves) == World(rest.rows, w.log + rest.log)
    ensures |moves| <= |groups|
    ensures forall i :: 0 <= i < |moves| ==> moves[i] == Move(Key(id, groups[i]), setup, turns[i])
    decreases |groups|
  {
    moves := [];
    if groups != [] {
      var m := Move(Key(id, groups[0]), setup, turns[0]);
      var done := TurnOn(m.key, At(w.rows, m.key), setup, turns[0]);
      var w' := World(WithRow(w.rows, m.key, done.row), w.log + done.log);
      moves := [m];
      if done.stop.None? {
        var more := RemainingIsPlay(w', id, groups[1..], setup, turns[1..]);
        moves := [m] + more;
        PlayFirst(w, m, more);
        Sequences.Regroup(w.log, done.log, Remaining(w'.rows, id, groups[1..], setup, turns[1..]).log);
      }
    }
  }

  function DeliverAll(rows: map<Key, Row>, ds: seq<Delivery>): World
    requires forall d :: d in ds ==> |d.turns| == |d.command.groups|
    decreases |ds|
  {
    if ds == [] then World(rows, [])
    else
      var before := DeliverAll(rows, ds[..|ds| - 1]);
      var done := Deliver(before.rows, ds[|ds| - 1]);
      World(done.rows, before.log + done.log)
  }

  // Whatever one handler does over any sequence of deliveries is a run of moves.
  lemma {:induction false} DeliveriesArePlay(rows: map<Key, Row>, ds: seq<Delivery>) returns (moves: seq<Move>)
    requires forall d :: d in ds ==> |d.turns| == |d.command.groups|
    ensures DeliverAll(rows, ds) == Play(World(rows, []), moves)
    decreases |ds|
  {
    moves := [];
    if ds != [] {
      var front := DeliveriesArePlay(rows, ds[..|ds| - 1]);
      var d := ds[|ds| - 1];
      var before := DeliverAll(rows, ds[..|ds| - 1]);
      if d.atStart {
        return front;
      }
      var more := RemainingIsPlay(before, d.command.id, d.command.groups, SetupError(d.command, d.setup), d.turns);
      PlayInParts(World(rows, []), front, more);
      moves := front + more;
    }
  }

  // ---- A finished row ----

  // Nothing happens for the key but publications of this very report.
  ghost predicate OnlyRepublishes(log: seq<Event>, from: nat, key: Key, report: Report) {
    forall i :: from <= i < |log| && log[i].key == key ==> log[i].Published? && log[i].report == report
  }

  lemma TurnTouchesItsKey(key: Key, row: Option<Row>, setup: Option<Error>, turn: Turn, log: seq<Event>)
    requires log == TurnOn(key, row, setup, turn).log
    ensures forall i :: 0 <= i < |log| ==> log[i].key == key
  {
  }

  lemma {:induction false} FinishedStays(w: World, moves: seq<Move>, key: Key)
    requires Finished(At(w.rows, key))
    ensures var w' := Play(w, moves);
      && At(w'.rows, key) == At(w.rows, key)
      && w.log <= w'.log
      && OnlyRepublishes(w'.log, |w.log|, key, ReportOf(RecordOf(w.rows[key])))
    decreases |moves|
  {
    if moves != [] {
      var front, m := moves[..|moves| - 1], moves[|moves| - 1];
      FinishedStays(w, front, key);
      var w1 := Play(w, front);
      TurnTouchesItsKey(m.key, At(w1.rows, m.key), m.setup, m.turn, TurnOn(m.key, At(w1.rows, m.key), m.setup, m.turn).log);
    }
  }

  // If the turn leaves a finished row, it publishes nothing but what the row will say from then on.
  ghost predicate Agrees(done: Turned) {
    Finished(done.row) ==> forall i :: 0 <= i < |done.log| && done.log[i].Published? ==> done.log[i].report == ReportOf(RecordOf(done.row.value))
  }

  lemma FailingAgrees(key: Key, row: Row, error: Error, turn: Turn)
    requires !Finished(Some(row))
    ensures Agrees(Failing(key, row, error, turn)) && Agrees(Halting(key, row, error, turn))
  {
  }

  lemma ApplyingAgrees(key: Key, row: Row, turn: Turn)
    requires !Finished(Some(row))
    ensures Agrees(Applying(key, row, turn))
  {
    if turn.outcome.NotApplied? {
      FailingAgrees(key, row, turn.outcome.error, turn);
    }
  }

  lemma FinishingTurnAgrees(key: Key, row: Option<Row>, setup: Option<Error>, turn: Turn)
    requires !Finished(row)
    ensures Agrees(TurnOn(key, row, setup, turn))
  {
    if setup.Some? {
      FailingAgrees(key, Opened(row), setup.value, turn);
    } else if turn.parse.Some? {
      FailingAgrees(key, Opened(row), turn.parse.value, turn);
    } else {
      ApplyingAgrees(key, Opened(row), turn);
    }
  }

  // The action is tried in this turn.
  predicate Attempts(row: Option<Row>, setup: Option<Error>, turn: Turn) {
    && !turn.atCheck && turn.begin.Stored? && !Finished(row)
    && setup.None? && turn.parse.None? && !turn.interrupted
  }

  // An action is tried only on a row that is not finished. What is published after that is what it
  // came to, and a command goes past the group only once its row is finished, unless the write of the
  // outcome never ran.
  lemma OutcomeIsReported(key: Key, row: Option<Row>, setup: Option<Error>, turn: Turn)
    ensures var done := TurnOn(key, row, setup, turn);
      && (Attempts(row, setup, turn) <==> exists i :: 0 <= i < |done.log| && done.log[i].Tried?)
      && (Attempts(row, setup, turn) ==> Reports(done, turn))
  {
    var done := TurnOn(key, row, setup, turn);
    if Attempts(row, setup, turn) {
      assert done.log[0].Tried?;
    }
  }

  ghost predicate Reports(done: Turned, turn: Turn) {
    && (forall i :: 0 <= i < |done.log| && done.log[i].Published? ==>
          done.log[i].report == match turn.outcome
                                case Applied(removed) => Report(true, "", removed)
                                case NotApplied(error) => Report(false, error.Text(), None))
    && ((done.stop.None? || turn.outcome.Applied?) && !turn.mark.Down? ==> Finished(done.row))
  }

  // Once a row is done or failed the action is never applied again, the row never changes, and
  // everything published for it, from the turn that finished it on, is the same report.
  lemma FinishedOnce(w: World, a: seq<Move>, m: Move, b: seq<Move>)
    requires !Finished(At(Play(w, a).rows, m.key)) && Finished(At(Play(w, a + [m]).rows, m.key))
    ensures var w1, w2, w3 := Play(w, a), Play(w, a + [m]), Play(w, a + [m] + b);
      && At(w3.rows, m.key) == At(w2.rows, m.key)
      && |w1.log| <= |w2.log| && w2.log <= w3.log
      && (forall i :: |w2.log| <= i < |w3.log| && w3.log[i].key == m.key ==> w3.log[i].Published?)
      && (forall i :: |w1.log| <= i < |w3.log| && w3.log[i].key == m.key && w3.log[i].Published? ==>
            w3.log[i].report == ReportOf(RecordOf(w2.rows[m.key])))
  {
    var w1, w2, w3 := Play(w, a), Play(w, a + [m]), Play(w, a + [m] + b);
    PlayInParts(w, a, [m]);
    PlayInParts(w, a + [m], b);
    FinishingTurnAgrees(m.key, At(w1.rows, m.key), m.setup, m.turn);
    FinishedStays(w2, b, m.key);
    var done := TurnOn(m.key, At(w1.rows, m.key), m.setup, m.turn);
    forall i | |w1.log| <= i < |w3.log| && w3.log[i].key == m.key && w3.log[i].Published?
      ensures w3.log[i].report == ReportOf(RecordOf(w2.rows[m.key]))
    {
      if i < |w2.log| {
        assert w3.log[i] == w2.log[i] == done.log[i - |w1.log|];
      }
    }
  }

  // ---- Halts ----

  datatype Kind = Unavailability | MissedHalt | UnheededWrite

  // An unavailability met outside a shutdown; a halt that did not reach the ledger; a write of a halt
  // or of an outcome whose answer was an error.
  predicate Is(kind: Kind, key: Key, e: Event) {
    && e.key == key
    && match kind
       case Unavailability => e.Tried? && e.outcome.NotApplied? && e.outcome.error.code == "unavailable" && !e.stopping
       case MissedHalt => e.HaltWrite? && e.reply == Down
       case UnheededWrite => (e.HaltWrite? || e.MarkWrite?) && e.reply != Stored
  }

  function Count(log: seq<Event>, kind: Kind, key: Key): nat {
    if log == [] then 0 else Count(log[..|log| - 1], kind, key) + if Is(kind, key, log[|log| - 1]) then 1 else 0
  }

  lemma {:induction false} CountInParts(a: seq<Event>, b: seq<Event>, kind: Kind, key: Key)
    ensures Count(a + b, kind, key) == Count(a, kind, key) + Count(b, kind, key)
    decreases |b|
  {
    if b == [] {
      assert a + b == a;
    } else {
      assert (a + b)[..|a + b| - 1] == a + b[..|b| - 1];
      CountInParts(a, b[..|b| - 1], kind, key);
    }
  }

  function Halts(row: Option<Row>): nat {
    if row.Some? then row.value.halts else 0
  }

  // How the halts of a row account for the unavailabilities the log shows.
  ghost predicate Accounts(row: Option<Row>, unavailable: nat, missed: nat, unheeded: nat) {
    && unavailable <= GROUP_HALT_LIMIT + unheeded
    && missed <= unheeded
    && (!Finished(row) ==> unavailable == Halts(row) + missed && unavailable < GROUP_HALT_LIMIT + unheeded)
  }

  lemma CountTwo(e: Event, f: Event, kind: Kind, key: Key)
    ensures Count([e] + [f], kind, key) == (if Is(kind, key, e) then 1 else 0) + if Is(kind, key, f) then 1 else 0
  {
    CountInParts([e], [f], kind, key);
  }

  // What one turn adds to the accounts of its own row.
  lemma FailingCounts(key: Key, row: Row, error: Error, turn: Turn, kind: Kind)
    ensures Count(Failing(key, row, error, turn).log, kind, key)
         == if kind.UnheededWrite? && turn.mark != Stored then 1 else 0
  {
    CountTwo(MarkWrite(key, turn.mark), Published(key, Report(false, error.Text(), None), turn.confirmed), kind, key);
  }

  lemma HaltingCounts(key: Key, row: Row, error: Error, turn: Turn, kind: Kind)
    ensures var halt := if Is(kind, key, HaltWrite(key, turn.halt)) then 1 else 0;
      Count(Halting(key, row, error, turn).log, kind, key)
         == halt + if turn.halt.Stored? && row.halts + 1 >= GROUP_HALT_LIMIT && kind.UnheededWrite? && turn.mark != Stored then 1 else 0
  {
    var e := HaltWrite(key, turn.halt);
    var halted := if turn.halt.Down? then row else row.(halts := row.halts + 1);
    FailingCounts(key, halted, error, turn, kind);
    CountInParts([e], Failing(key, halted, error, turn).log, kind, key);
  }

  function CountAfterTry(key: Key, row: Row, turn: Turn, kind: Kind): nat {
    match turn.outcome
    case Applied(_) => if kind.UnheededWrite? && turn.mark != Stored then 1 else 0
    case NotApplied(error) =>
      if !error.Unavailable() then Count(Failing(key, row, error, turn).log, kind, key)
      else if turn.atReturn then 0
      else Count(Halting(key, row, error, turn).log, kind, key)
  }

  lemma ApplyingCounts(key: Key, row: Row, turn: Turn, kind: Kind)
    ensures var tried := if Is(kind, key, Tried(key, turn.outcome, turn.atReturn)) then 1 else 0;
      Count(Applying(key, row, turn).log, kind, key) == tried + CountAfterTry(key, row, turn, kind)
  {
    var e := Tried(key, turn.outcome, turn.atReturn);
    match turn.outcome
    case Applied(removed) =>
      var f, g := MarkWrite(key, turn.mark), Published(key, Report(true, "", removed), turn.confirmed);
      CountTwo(f, g, kind, key);
      CountInParts([e], [f] + [g], kind, key);
      assert Applying(key, row, turn).log == [e] + ([f] + [g]);
    case NotApplied(error) =>
      if error.Unavailable() && !turn.atReturn {
        CountInParts([e], Halting(key, row, error, turn).log, kind, key);
      } else if !error.Unavailable() {
        CountInParts([e], Failing(key, row, error, turn).log, kind, key);
      }
  }

  lemma FailingAccounts(key: Key, row: Row, error: Error, turn: Turn, u: nat, d: nat, b: nat)
    requires Accounts(Some(row), u, d, b) && !Finished(Some(row))
    ensures var done := Failing(key, row, error, turn);
      Accounts(done.row, u + Count(done.log, Unavailability, key), d + Count(done.log, MissedHalt, key), b + Count(done.log, UnheededWrite, key))
  {
    FailingCounts(key, row, error, turn, Unavailability);
    FailingCounts(key, row, error, turn, MissedHalt);
    FailingCounts(key, row, error, turn, UnheededWrite);
  }

  lemma HaltingAccounts(key: Key, row: Row, turn: Turn, u: nat, d: nat, b: nat)
    requires Accounts(Some(row), u, d, b) && !Finished(Some(row))
    requires turn.outcome.NotApplied? && turn.outcome.error.Unavailable() && !turn.atReturn
    ensures var done := Applying(key, row, turn);
      Accounts(done.row, u + Count(done.log, Unavailability, key), d + Count(done.log, MissedHalt, key), b + Count(done.log, UnheededWrite, key))
  {
    var error := turn.outcome.error;
    ApplyingCounts(key, row, turn, Unavailability);
    ApplyingCounts(key, row, turn, MissedHalt);
    ApplyingCounts(key, row, turn, UnheededWrite);
    HaltingCounts(key, row, error, turn, Unavailability);
    HaltingCounts(key, row, error, turn, MissedHalt);
    HaltingCounts(key, row, error, turn, UnheededWrite);
    assert Applying(key, row, turn).row == Halting(key, row, error, turn).row;
  }

  lemma ApplyingAccounts(key: Key, row: Row, turn: Turn, u: nat, d: nat, b: nat)
    requires Accounts(Some(row), u, d, b) && !Finished(Some(row))
    ensures var done := Applying(key, row, turn);
      Accounts(done.row, u + Count(done.log, Unavailability, key), d + Count(done.log, MissedHalt, key), b + Count(done.log, UnheededWrite, key))
  {
    if turn.outcome.NotApplied? && turn.outcome.error.Unavailable() && !turn.atReturn {
      HaltingAccounts(key, row, turn, u, d, b);
    } else {
      ApplyingCounts(key, row, turn, Unavailability);
      ApplyingCounts(key, row, turn, MissedHalt);
      ApplyingCounts(key, row, turn, UnheededWrite);
      if turn.outcome.NotApplied? && !turn.outcome.error.Unavailable() {
        FailingAccounts(key, row, turn.outcome.error, turn, u, d, b);
      }
    }
  }

  lemma WorkingAccounts(key: Key, row: Row, setup: Option<Error>, turn: Turn, u: nat, d: nat, b: nat)
    requires Accounts(Some(row), u, d, b) && !Finished(Some(row))
    ensures var done := Working(key, row, setup, turn);
      Accounts(done.row, u + Count(done.log, Unavailability, key), d + Count(done.log, MissedHalt, key), b + Count(done.log, UnheededWrite, key))
  {
    if setup.Some? {
      FailingAccounts(key, row, setup.value, turn, u, d, b);
    } else if turn.parse.Some? {
      FailingAccounts(key, row, turn.parse.value, turn, u, d, b);
    } else if !turn.interrupted {
      ApplyingAccounts(key, row, turn, u, d, b);
    }
  }

  lemma TurnAccounts(key: Key, row: Option<Row>, setup: Option<Error>, turn: Turn, u: nat, d: nat, b: nat)
    requires Accounts(row, u, d, b)
    ensures var done := TurnOn(key, row, setup, turn);
      Accounts(done.row, u + Count(done.log, Unavailability, key), d + Count(done.log, MissedHalt, key), b + Count(done.log, UnheededWrite, key))
  {
    if !turn.atCheck && turn.begin.Stored? && !Finished(row) {
      WorkingAccounts(key, Opened(row), setup, turn, u, d, b);
    }
  }

  lemma {:induction false} OthersCountNothing(log: seq<Event>, kind: Kind, key: Key)
    requires forall i :: 0 <= i < |log| ==> log[i].key != key
    ensures Count(log, kind, key) == 0
  {
    if log != [] {
      OthersCountNothing(log[..|log| - 1], kind, key);
    }
  }

  ghost predicate LogAccounts(row: Option<Row>, log: seq<Event>, key: Key) {
    Accounts(row, Count(log, Unavailability, key), Count(log, MissedHalt, key), Count(log, UnheededWrite, key))
  }

  lemma OtherTurnCountsNothing(key: Key, row: Option<Row>, setup: Option<Error>, turn: Turn, other: Key)
    requires key != other
    ensures forall kind :: Count(TurnOn(key, row, setup, turn).log, kind, other) == 0
  {
    TurnTouchesItsKey(key, row, setup, turn, TurnOn(key, row, setup, turn).log);
    forall kind
      ensures Count(TurnOn(key, row, setup, turn).log, kind, other) == 0
    {
      OthersCountNothing(TurnOn(key, row, setup, turn).log, kind, other);
    }
  }

  lemma MoveAccounts(w: World, m: Move, key: Key)
    requires LogAccounts(At(w.rows, key), w.log, key)
    ensures LogAccounts(At(Moved(w, m).rows, key), Moved(w, m).log, key)
  {
    var row := At(w.rows, m.key);
    var added := TurnOn(m.key, row, m.setup, m.turn).log;
    CountInParts(w.log, added, Unavailability, key);
    CountInParts(w.log, added, MissedHalt, key);
    CountInParts(w.log, added, UnheededWrite, key);
    if m.key == key {
      TurnAccounts(key, row, m.setup, m.turn, Count(w.log, Unavailability, key), Count(w.log, MissedHalt, key),
                   Count(w.log, UnheededWrite, key));
    } else {
      OtherTurnCountsNothing(m.key, row, m.setup, m.turn, key);
    }
  }

  lemma {:induction false} RunAccounts(w: World, moves: seq<Move>, key: Key)
    requires key !in w.rows && w.log == []
    ensures LogAccounts(At(Play(w, moves).rows, key), Play(w, moves).log, key)
    decreases |moves|
  {
    if moves != [] {
      RunAccounts(w, moves[..|moves| - 1], key);
      MoveAccounts(Play(w, moves[..|moves| - 1]), moves[|moves| - 1], key);
    }
  }

  // Outside a shutdown a group meets at most three unavailabilities over any run, plus one
  // for every ledger write that came back as an error or never ran; at the limit its row is finished.
  lemma HaltLimit(rows: map<Key, Row>, moves: seq<Move>, key: Key)
    requires key !in rows
    ensures var w := Play(World(rows, []), moves);
      var unavailable, unheeded := Count(w.log, Unavailability, key), Count(w.log, UnheededWrite, key);
      && unavailable <= 3 + unheeded
      && (unavailable == 3 + unheeded ==> Finished(At(w.rows, key)))
  {
    RunAccounts(World(rows, []), moves, key);
  }

  // When every write succeeds, the last of these unavailabilities gives the group up: the row keeps it
  // as the failure and it is what the same turn publishes.
  lemma LastHaltGivesUp(rows: map<Key, Row>, moves: seq<Move>, m: Move)
    requires m.key !in rows
    requires var w, w' := Play(World(rows, []), moves), Play(World(rows, []), moves + [m]);
      && Count(w'.log, UnheededWrite, m.key) == 0
      && Count(w.log, Unavailability, m.key) == 2
      && Count(w'.log, Unavailability, m.key) == 3
    ensures var w' := Play(World(rows, []), moves + [m]);
      && m.turn.outcome.NotApplied?
      && var error := m.turn.outcome.error.Text();
         && At(w'.rows, m.key) == Some(Row(Failed, None, Some(error), 3))
         && w'.log != []
         && w'.log[|w'.log| - 1] == Published(m.key, Report(false, error, None), m.turn.confirmed)
  {
    var w := Play(World(rows, []), moves);
    PlayInParts(World(rows, []), moves, [m]);
    RunAccounts(World(rows, []), moves, m.key);
    var row := At(w.rows, m.key);
    var done := TurnOn(m.key, row, m.setup, m.turn);
    CountInParts(w.log, done.log, Unavailability, m.key);
    CountInParts(w.log, done.log, UnheededWrite, m.key);
    GivesUpAtLimit(m.key, row, m.setup, m.turn);
  }

  lemma GivesUpAtLimit(key: Key, row: Option<Row>, setup: Option<Error>, turn: Turn)
    requires var log := TurnOn(key, row, setup, turn).log;
      Count(log, Unavailability, key) == 1 && Count(log, UnheededWrite, key) == 0
    requires !Finished(row) ==> Halts(row) == GROUP_HALT_LIMIT - 1
    ensures var done := TurnOn(key, row, setup, turn);
      && turn.outcome.NotApplied?
      && var error := turn.outcome.error.Text();
         && done.row == Some(Row(Failed, None, Some(error), GROUP_HALT_LIMIT))
         && done.log != []
         && done.log[|done.log| - 1] == Published(key, Report(false, error, None), turn.confirmed)
  {
    OneUnavailability(key, row, setup, turn);
  }

  // The only turn that meets an unavailability outside a shutdown is one that gets as far as a halt.
  lemma OneUnavailability(key: Key, row: Option<Row>, setup: Option<Error>, turn: Turn)
    requires Count(TurnOn(key, row, setup, turn).log, Unavailability, key) == 1
    ensures !Finished(row)
    ensures turn.outcome.NotApplied?
    ensures var rest := Halting(key, Opened(row), turn.outcome.error, turn);
      TurnOn(key, row, setup, turn) == rest.(log := [Tried(key, turn.outcome, turn.atReturn)] + rest.log)
    ensures Count(TurnOn(key, row, setup, turn).log, UnheededWrite, key) == 0
            ==> turn.halt.Stored? && (Opened(row).halts + 1 >= GROUP_HALT_LIMIT ==> turn.mark.Stored?)
  {
    var r := Opened(row);
    if Finished(row) {
    } else if setup.Some? {
      FailingCounts(key, r, setup.value, turn, Unavailability);
    } else if turn.parse.Some? {
      FailingCounts(key, r, turn.parse.value, turn, Unavailability);
    } else {
      ApplyingCounts(key, r, turn, Unavailability);
      ApplyingCounts(key, r, turn, UnheededWrite);
      if turn.outcome.NotApplied? {
        FailingCounts(key, r, turn.outcome.error, turn, Unavailability);
        HaltingCounts(key, r, turn.outcome.error, turn, Unavailability);
        HaltingCounts(key, r, turn.outcome.error, turn, UnheededWrite);
      }
    }
  }

  // ---- Shutdown ----

  ghost predicate MetInShutdown(e: Event) {
    e.Tried? && e.outcome.NotApplied? && e.outcome.error.code == "unavailable" && e.stopping
  }

  // An unavailability met in a shutdown is the last thing that happens, and the command is requeued.
  ghost predicate ShutdownIsLast(log: seq<Event>, stop: Option<Verdict>) {
    forall i :: 0 <= i < |log| && MetInShutdown(log[i]) ==> i == |log| - 1 && stop == Some(Requeue)
  }

  lemma LastInParts(a: seq<Event>, b: seq<Event>, stop: Option<Verdict>)
    requires ShutdownIsLast(a, None) && ShutdownIsLast(b, stop)
    ensures ShutdownIsLast(a + b, stop)
  {
    forall i | 0 <= i < |a|
      ensures !MetInShutdown((a + b)[i])
    {
      assert (a + b)[i] == a[i];
    }
    forall i | |a| <= i < |a + b| && MetInShutdown((a + b)[i])
      ensures i == |a + b| - 1 && stop == Some(Requeue)
    {
      assert MetInShutdown(b[i - |a|]);
    }
  }

  lemma GivingUpMeetsNoShutdown(key: Key, row: Row, error: Error, turn: Turn, stop: Option<Verdict>)
    ensures ShutdownIsLast(Failing(key, row, error, turn).log, stop)
    ensures ShutdownIsLast(Halting(key, row, error, turn).log, stop)
  {
  }

  lemma ApplyingMeetsShutdown(key: Key, row: Row, turn: Turn)
    ensures ShutdownIsLast(Applying(key, row, turn).log, Applying(key, row, turn).stop)
  {
    var e := Tried(key, turn.outcome, turn.atReturn);
    var done := Applying(key, row, turn);
    if turn.outcome.NotApplied? && !MetInShutdown(e) {
      var error := turn.outcome.error;
      GivingUpMeetsNoShutdown(key, row, error, turn, done.stop);
      LastInParts([e], if error.Unavailable() then Halting(key, row, error, turn).log else Failing(key, row, error, turn).log, done.stop);
    }
  }

  lemma ShutdownEndsTheTurn(key: Key, row: Option<Row>, setup: Option<Error>, turn: Turn)
    ensures ShutdownIsLast(TurnOn(key, row, setup, turn).log, TurnOn(key, row, setup, turn).stop)
  {
    var r, done := Opened(row), TurnOn(key, row, setup, turn);
    ApplyingMeetsShutdown(key, r, turn);
    if setup.Some? {
      GivingUpMeetsNoShutdown(key, r, setup.value, turn, done.stop);
    } else if turn.parse.Some? {
      GivingUpMeetsNoShutdown(key, r, turn.parse.value, turn, done.stop);
    }
  }

  lemma {:induction false} ShutdownEndsTheRest(rows: map<Key, Row>, id: string, groups: seq<string>, setup: Option<Error>, turns: seq<Turn>)
    requires |turns| == |groups|
    ensures var all := Remaining(rows, id, groups, setup, turns);
      ShutdownIsLast(all.log, Some(all.verdict))
    decreases |groups|
  {
    if groups != [] {
      var key := Key(id, groups[0]);
      var done := TurnOn(key, At(rows, key), setup, turns[0]);
      ShutdownEndsTheTurn(key, At(rows, key), setup, turns[0]);
      if done.stop.None? {
        var rest := Remaining(WithRow(rows, key, done.row), id, groups[1..], setup, turns[1..]);
        ShutdownEndsTheRest(WithRow(rows, key, done.row), id, groups[1..], setup, turns[1..]);
        LastInParts(done.log, rest.log, Some(rest.verdict));
      }
    }
  }

  // A delivery taken on group by group: once the first j groups are through, the rest goes on from there.
  lemma {:induction false} RemainingInParts(rows: map<Key, Row>, id: string, groups: seq<string>, setup: Option<Error>, turns: seq<Turn>, j: nat)
    requires |turns| == |groups| && j <= |groups|
    requires Remaining(rows, id, groups[..j], setup, turns[..j]).verdict == Ack
    ensures var before := Remaining(rows, id, groups[..j], setup, turns[..j]);
      var rest := Remaining(before.rows, id, groups[j..], setup, turns[j..]);
      Remaining(rows, id, groups, setup, turns) == rest.(log := before.log + rest.log)
    decreases j
  {
    if j == 0 {
      assert groups[..0] == [] && turns[..0] == [] && groups[0..] == groups && turns[0..] == turns;
    } else {
      var key := Key(id, groups[0]);
      var done := TurnOn(key, At(rows, key), setup, turns[0]);
      var rows' := WithRow(rows, key, done.row);
      TurnAnswers(key, At(rows, key), setup, turns[0]);
      assert groups[..j][0] == groups[0] && turns[..j][0] == turns[0];
      assert groups[..j][1..] == groups[1..][..j - 1] && turns[..j][1..] == turns[1..][..j - 1];
      assert groups[1..][j - 1..] == groups[j..] && turns[1..][j - 1..] == turns[j..];
      RemainingInParts(rows', id, groups[1..], setup, turns[1..], j - 1);
      var middle := Remaining(rows', id, groups[..j][1..], setup, turns[..j][1..]);
      var rest := Remaining(middle.rows, id, groups[j..], setup, turns[j..]);
      Sequences.Regroup(done.log, middle.log, rest.log);
    }
  }

  // What the delivery has done before its group number j.
  function Before(rows: map<Key, Row>, d: Delivery, j: nat): Delivered
    requires |d.turns| == |d.command.groups| && j <= |d.turns|
  {
    Remaining(rows, d.command.id, d.command.groups[..j], SetupError(d.command, d.setup), d.turns[..j])
  }

  // The delivery comes as far as group j and tries its action, which turns out unavailable when the
  // shutdown has begun.
  ghost predicate MeetsShutdown(rows: map<Key, Row>, d: Delivery, j: nat)
    requires |d.turns| == |d.command.groups|
  {
    && j < |d.turns|
    && var before := Before(rows, d, j);
       && before.verdict == Ack
       && Attempts(At(before.rows, Key(d.command.id, d.command.groups[j])), SetupError(d.command, d.setup), d.turns[j])
       && d.turns[j].outcome.NotApplied? && d.turns[j].outcome.error.code == "unavailable" && d.turns[j].atApply
  }

  // Nothing but the attempt itself is left of it: the group's row is only opened, everything before is
  // as it was, and the command is requeued.
  ghost predicate LeavesNoTrace(rows: map<Key, Row>, d: Delivery, j: nat)
    requires |d.turns| == |d.command.groups| && j < |d.turns|
  {
    var before, key := Before(rows, d, j), Key(d.command.id, d.command.groups[j]);
    Deliver(rows, d) == Delivered(before.rows[key := Opened(At(before.rows, key))],
                                  before.log + [Tried(key, d.turns[j].outcome, true)], Requeue)
  }

  lemma LateUnavailability(rows: map<Key, Row>, d: Delivery, j: nat)
    requires WellFormed(d) && !d.atStart && MeetsShutdown(rows, d, j)
    ensures LeavesNoTrace(rows, d, j)
  {
    var setup := SetupError(d.command, d.setup);
    RemainingInParts(rows, d.command.id, d.command.groups, setup, d.turns, j);
    assert d.command.groups[j..][0] == d.command.groups[j] && d.turns[j..][0] == d.turns[j];
  }

  // A shutdown is never taken for a failure. A setup that was not through before it leaves no trace at
  // all: the command is requeued, unless it names no group and there is nothing to do. An
  // unavailability that arises once it has begun leaves the group's row only opened, publishes nothing
  // for it and requeues the command. And whatever the handler meets in a shutdown is the last thing that
  // happens in the delivery.
  lemma ShutdownIsNoFailure(rows: map<Key, Row>, d: Delivery)
    requires WellFormed(d) && !d.atStart
    ensures var done := Deliver(rows, d);
      && (d.setup.late ==> done.rows == rows && done.log == [] && done.verdict == if d.command.groups == [] then Ack else Requeue)
      && ShutdownIsLast(done.log, Some(done.verdict))
    ensures forall j: nat :: MeetsShutdown(rows, d, j) ==> LeavesNoTrace(rows, d, j)
  {
    ShutdownEndsTheRest(rows, d.command.id, d.command.groups, SetupError(d.command, d.setup), d.turns);
    forall j: nat | MeetsShutdown(rows, d, j)
      ensures LeavesNoTrace(rows, d, j)
    {
      LateUnavailability(rows, d, j);
    }
  }

  // ---- Answers ----

  // The groups for which the broker confirmed an answer, in order.
  function Answered(log: seq<Event>): seq<string> {
    if log == [] then []
    else (if log[0].Published? && log[0].confirmed then [log[0].key.group] else []) + Answered(log[1..])
  }

  lemma {:induction false} AnsweredInParts(a: seq<Event>, b: seq<Event>)
    ensures Answered(a + b) == Answered(a) + Answered(b)
  {
    if a == [] {
      assert a + b == b;
    } else {
      assert (a + b)[1..] == a[1..] + b;
      AnsweredInParts(a[1..], b);
    }
  }

  // A turn answers its group at the very end, and only then does the command go on.
  predicate Answers(done: Turned, key: Key) {
    && Answered(done.log) == (if done.stop.None? then [key.group] else [])
    && done.stop != Some(Ack)
  }

  lemma AnswerAnswers(key: Key, row: Row, report: Report, turn: Turn)
    ensures Answers(Answer(key, row, report, turn), key)
  {
    assert [Published(key, report, turn.confirmed)][1..] == [];
  }

  lemma FailingAnswers(key: Key, row: Row, error: Error, turn: Turn)
    ensures Answers(Failing(key, row, error, turn), key)
  {
    var marked := if turn.mark.Down? then row else Finish(row, Failed, None, Some(error.Text()));
    var report := Report(false, error.Text(), None);
    AnswerAnswers(key, marked, report, turn);
  }

  lemma HaltingAnswers(key: Key, row: Row, error: Error, turn: Turn)
    ensures Answers(Halting(key, row, error, turn), key)
  {
    var halted := if turn.halt.Down? then row else row.(halts := row.halts + 1);
    FailingAnswers(key, halted, error, turn);
    assert [HaltWrite(key, turn.halt)][1..] == [];
  }

  lemma ApplyingAnswers(key: Key, row: Row, turn: Turn)
    ensures Answers(Applying(key, row, turn), key)
  {
    var e := Tried(key, turn.outcome, turn.atReturn);
    match turn.outcome
    case Applied(removed) =>
      var marked := if turn.mark.Down? then row else Finish(row, Sent, removed, None);
      var answer := Answer(key, marked, Report(true, "", removed), turn);
      var mark := MarkWrite(key, turn.mark);
      AnswerAnswers(key, marked, Report(true, "", removed), turn);
      assert [e] + [mark] + answer.log == [e] + ([mark] + answer.log);
    case NotApplied(error) =>
      assert [e][1..] == [];
      HaltingAnswers(key, row, error, turn);
      FailingAnswers(key, row, error, turn);
  }

  lemma TurnAnswers(key: Key, row: Option<Row>, setup: Option<Error>, turn: Turn)
    ensures Answers(TurnOn(key, row, setup, turn), key)
  {
    var r := Opened(row);
    if Finished(row) {
      AnswerAnswers(key, r, ReportOf(RecordOf(r)), turn);
    } else {
      WorkingAnswers(key, r, setup, turn);
    }
  }

  lemma WorkingAnswers(key: Key, row: Row, setup: Option<Error>, turn: Turn)
    ensures Answers(Working(key, row, setup, turn), key)
  {
    if setup.Some? {
      FailingAnswers(key, row, setup.value, turn);
    } else if turn.parse.Some? {
      FailingAnswers(key, row, turn.parse.value, turn);
    } else {
      ApplyingAnswers(key, row, turn);
    }
  }

  lemma {:induction false} RestAnswers(rows: map<Key, Row>, id: string, groups: seq<string>, setup: Option<Error>, turns: seq<Turn>)
    requires |turns| == |groups|
    ensures var all := Remaining(rows, id, groups, setup, turns);
      && Answered(all.log) <= groups
      && (all.verdict == Ack <==> Answered(all.log) == groups)
    decreases |groups|
  {
    if groups != [] {
      var key := Key(id, groups[0]);
      var done := TurnOn(key, At(rows, key), setup, turns[0]);
      TurnAnswers(key, At(rows, key), setup, turns[0]);
      if done.stop.None? {
        var rest := Remaining(WithRow(rows, key, done.row), id, groups[1..], setup, turns[1..]);
        RestAnswers(WithRow(rows, key, done.row), id, groups[1..], setup, turns[1..]);
        AnsweredInParts(done.log, rest.log);
        assert groups == [groups[0]] + groups[1..];
      }
    }
  }

  // A delivery answers its groups in their order and is acknowledged exactly when it answered them all.
  lemma AckedMeansAnswered(rows: map<Key, Row>, d: Delivery)
    requires WellFormed(d)
    ensures var done := Deliver(rows, d);
      && Answered(done.log) <= d.command.groups
      && (done.verdict == Ack <==> !d.atStart && Answered(done.log) == d.command.groups)
  {
    if !d.atStart {
      RestAnswers(rows, d.command.id, d.command.groups, SetupError(d.command, d.setup), d.turns);
    }
  }
}
