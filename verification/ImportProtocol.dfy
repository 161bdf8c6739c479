// The importer of a channel's history (internal/history/importer.go) against its registry row: the
// importer looks the row up, checks it again before every publication and counts every batch the
// broker confirmed, while the row may be replaced, cleared, finished or expire between any two steps.
module ImportProtocol {
  import opened Database
  import opened ImportRegistry
  import opened Options

  const STORE_ATTEMPTS := 5

  // A translated and split chunk: how many batches it has, whether it is the one that ends the import,
  // and the chats of it that have no phone.
  datatype Chunk = Chunk(batches: nat, final: bool, withoutPhone: set<string>)

  // What one run over a chunk keeps: the row as it was looked up, the batches already confirmed, the
  // running total, the number of skipped chats. The other fields are for accounting only: how far the
  // total is known to be off and how many batches were confirmed before this chunk.
  datatype Local = Local(active: Active, chunk: Chunk, n: nat, total: nat, skipped: nat, drift: int, before: nat)

  datatype Pc =
    | Skipping(attempt: nat)
    | Checking
    | Sending
    | Counting(attempt: nat, applied: nat)
    | CheckingDone
    | SendingDone
    | Finishing(attempt: nat)

  datatype Run = Idle | On(pc: Pc, l: Local)

  // What an observer counts for one import: publish attempts, confirmed batches, confirmed batches the
  // row missed because their counting was given up, confirmed batches it refused, increments of the row
  // beyond one for a batch, confirmed ends, and ends whose bookkeeping was given up.
  datatype Tally = Tally(attempts: nat, confirmed: nat, missed: nat, refused: nat, extra: nat, dones: nat, unfinished: nat)

  const ZERO := Tally(0, 0, 0, 0, 0, 0, 0)

  datatype State = State(row: Option<Row>, now: int, used: set<ImportId>, run: Run, tallies: map<ImportId, Tally>)

  datatype Event =
    | Begin(id: ImportId)
    | Clear
    | EndElsewhere(id: ImportId)
    | Tick(seconds: nat)
    | Take(chunk: Chunk, ok: bool)
    | Skip(reply: Reply)
    | Check(ok: bool)
    | Publish(confirmed: bool)
    | Count(reply: Reply)
    | Finish(reply: Reply)
    | Cancel

  function TallyOf(s: State, id: ImportId): Tally {
    if id in s.tallies then s.tallies[id] else ZERO
  }

  function WithTally(s: State, id: ImportId, t: Tally): State {
    s.(tallies := s.tallies[id := t])
  }

  // ---- The steps of the importer ----

  // What follows once n batches of the chunk are dealt with.
  function Next(l: Local): Run {
    if l.n < l.chunk.batches then On(Checking, l)
    else if l.active.finished || !l.chunk.final then Idle
    else On(CheckingDone, l)
  }

  function TakeStep(s: State, chunk: Chunk, ok: bool): State {
    var active := ActiveOf(s.row, s.now);
    if !ok || active.None? then s
    else
      var t := TallyOf(s, active.value.importId);
      var l := Local(active.value, chunk, 0, active.value.batches, active.value.skippedChats, t.extra - t.missed - t.refused, t.confirmed);
      s.(run := if chunk.withoutPhone != {} then On(Skipping(1), l) else Next(l))
  }

  function SkipStep(s: State, attempt: nat, l: Local, reply: Reply): State {
    var accepts := Accepts(s.row, l.active.importId, s.now);
    var s' := if accepts && !reply.Down? then s.(row := Some(Skipped(s.row.value, l.chunk.withoutPhone, s.now))) else s;
    if reply.Stored? then
      if accepts then s'.(run := Next(l.(skipped := |s'.row.value.skipped|))) else s'.(run := Idle)
    else if attempt >= STORE_ATTEMPTS then s'.(run := Next(l))
    else s'.(run := On(Skipping(attempt + 1), l))
  }

  // The check in front of a publication: an error means another try, a row that is not this import's
  // ends the chunk.
  function CheckStep(s: State, l: Local, ok: bool, sending: Pc): State {
    if !ok then s
    else
      var active := ActiveOf(s.row, s.now);
      s.(run := if active.Some? && active.value.importId == l.active.importId then On(sending, l) else Idle)
  }

  function PublishStep(s: State, l: Local, confirmed: bool): State {
    var id, t := l.active.importId, TallyOf(s, l.active.importId);
    if confirmed then
      WithTally(s.(run := On(Counting(1, 0), l)), id, t.(attempts := t.attempts + 1, confirmed := t.confirmed + 1))
    else
      WithTally(s.(run := On(Checking, l)), id, t.(attempts := t.attempts + 1))
  }

  function PublishDoneStep(s: State, l: Local, confirmed: bool): State {
    var id, t := l.active.importId, TallyOf(s, l.active.importId);
    if confirmed then
      WithTally(s.(run := On(Finishing(1), l)), id, t.(attempts := t.attempts + 1, dones := t.dones + 1))
    else
      WithTally(s.(run := On(CheckingDone, l)), id, t.(attempts := t.attempts + 1))
  }

  // The counting of a batch ends without an answer, after the row took it `applied` times.
  function Uncounted(t: Tally, applied: nat): Tally {
    if applied == 0 then t.(missed := t.missed + 1) else t.(extra := t.extra + applied - 1)
  }

  // The row is no longer this import's, after it took the batch `applied` times.
  function Refused(t: Tally, applied: nat): Tally {
    if applied == 0 then t.(refused := t.refused + 1) else t.(extra := t.extra + applied - 1)
  }

  function CountFails(s: State, attempt: nat, applied: nat, l: Local): State {
    if attempt >= STORE_ATTEMPTS then
      WithTally(s.(run := Next(l.(n := l.n + 1, total := l.total + 1))), l.active.importId,
                Uncounted(TallyOf(s, l.active.importId), applied))
    else s.(run := On(Counting(attempt + 1, applied), l))
  }

  function CountStep(s: State, attempt: nat, applied: nat, l: Local, reply: Reply): State {
    var id, t := l.active.importId, TallyOf(s, l.active.importId);
    if reply.Down? then CountFails(s, attempt, applied, l)
    else if !Accepts(s.row, id, s.now) then
      if reply.Lost? then CountFails(s, attempt, applied, l)
      else WithTally(s.(run := Idle), id, Refused(t, applied))
    else
      var row := Counted(s.row.value, s.now);
      var s' := s.(row := Some(row));
      if reply.Lost? then CountFails(s', attempt, applied + 1, l)
      else
        var t' := t.(extra := t.extra + applied);
        WithTally(s'.(run := Next(l.(n := l.n + 1, total := row.batches, drift := t'.extra - t'.missed - t'.refused))), id, t')
  }

  function FinishStep(s: State, attempt: nat, l: Local, reply: Reply): State {
    var id, t := l.active.importId, TallyOf(s, l.active.importId);
    var s' := if reply.Down? then s else s.(row := Finished(s.row, id, s.now));
    if reply.Stored? then s'.(run := Idle)
    else if attempt >= STORE_ATTEMPTS then WithTally(s'.(run := Idle), id, t.(unfinished := t.unfinished + 1))
    else s'.(run := On(Finishing(attempt + 1), l))
  }

  function CancelStep(s: State): State {
    match s.run
    case Idle => s
    case On(pc, l) =>
      var id, t := l.active.importId, TallyOf(s, l.active.importId);
      match pc
      case Counting(_, applied) => WithTally(s.(run := Idle), id, Uncounted(t, applied))
      case Finishing(_) => WithTally(s.(run := Idle), id, t.(unfinished := t.unfinished + 1))
      case _ => s.(run := Idle)
  }

  // ---- The machine ----

  // Every import gets an id that was never used before.
  predicate Enabled(s: State, e: Event) {
    match e
    case Begin(id) => id !in s.used
    case Take(_, _) => s.run.Idle?
    case Skip(_) => s.run.On? && s.run.pc.Skipping?
    case Check(_) => s.run.On? && (s.run.pc.Checking? || s.run.pc.CheckingDone?)
    case Publish(_) => s.run.On? && (s.run.pc.Sending? || s.run.pc.SendingDone?)
    case Count(_) => s.run.On? && s.run.pc.Counting?
    case Finish(_) => s.run.On? && s.run.pc.Finishing?
    case _ => true
  }

  function Step(s: State, e: Event): State
    requires Enabled(s, e)
  {
    match e
    case Begin(id) => s.(row := Some(Begun(id, s.now)), used := s.used + {id})
    case Clear => s.(row := None)
    case EndElsewhere(id) => s.(row := Finished(s.row, id, s.now))
    case Tick(seconds) => s.(now := s.now + seconds)
    case Take(chunk, ok) => TakeStep(s, chunk, ok)
    case Skip(reply) => SkipStep(s, s.run.pc.attempt, s.run.l, reply)
    case Check(ok) => CheckStep(s, s.run.l, ok, if s.run.pc.Checking? then Sending else SendingDone)
    case Publish(confirmed) =>
      if s.run.pc.Sending? then PublishStep(s, s.run.l, confirmed) else PublishDoneStep(s, s.run.l, confirmed)
    case Count(reply) => CountStep(s, s.run.pc.attempt, s.run.pc.applied, s.run.l, reply)
    case Finish(reply) => FinishStep(s, s.run.pc.attempt, s.run.l, reply)
    case Cancel => CancelStep(s)
  }

  const START := State(None, 0, {}, Idle, map[])

  ghost predicate IsRun(s: State, events: seq<Event>)
    decreases |events|
  {
    events == [] || (Enabled(s, events[0]) && IsRun(Step(s, events[0]), events[1..]))
  }

  ghost function After(s: State, events: seq<Event>): State
    requires IsRun(s, events)
    decreases |events|
  {
    if events == [] then s else After(Step(s, events[0]), events[1..])
  }

  // ---- What every step keeps ----

  // The importer works for this import.
  predicate Works(s: State, id: ImportId) {
    s.run.On? && s.run.l.active.importId == id
  }

  predicate Holds(s: State, id: ImportId) {
    s.row.Some? && s.row.value.importId == id
  }

  // A confirmed batch whose counting is under way, less what the row has already taken of it.
  function Pending(s: State, id: ImportId): int {
    if Works(s, id) && s.run.pc.Counting? then 1 - s.run.pc.applied else 0
  }

  ghost predicate RowAccounts(s: State, id: ImportId) {
    var t := TallyOf(s, id);
    Holds(s, id) ==> s.row.value.batches + Pending(s, id) + t.missed + t.refused == t.confirmed + t.extra
  }

  ghost predicate RunAccounts(s: State, id: ImportId) {
    Works(s, id) ==>
      var l, t, counting := s.run.l, TallyOf(s, id), if s.run.pc.Counting? then 1 else 0;
      && l.total + counting == t.confirmed + l.drift
      && (t.missed == 0 && t.extra == 0 ==> l.drift == 0)
      && l.before + l.n + counting == t.confirmed
      && l.n <= l.chunk.batches
      && (s.run.pc.Counting? || s.run.pc.Sending? || s.run.pc.Checking? ==> l.n < l.chunk.batches)
      && (s.run.pc.CheckingDone? || s.run.pc.SendingDone? || s.run.pc.Finishing? ==>
            l.n == l.chunk.batches && l.chunk.final && !l.active.finished)
  }

  ghost predicate DoneAccounts(s: State, id: ImportId) {
    var t := TallyOf(s, id);
    var finishing := if Works(s, id) && s.run.pc.Finishing? then 1 else 0;
    && t.dones <= 1 + t.unfinished
    && (Holds(s, id) && !s.row.value.finished ==> t.dones <= t.unfinished + finishing)
    && (Works(s, id) && !s.run.l.active.finished ==> t.dones <= t.unfinished + finishing)
  }

  // The row is another import's, or gone, or finished for so long that nothing can be added: this
  // stays so, as no id is used again.
  predicate Over(s: State, id: ImportId) {
    id in s.used && !Accepts(s.row, id, s.now)
  }

  ghost predicate RefusedWhenOver(s: State, id: ImportId) {
    TallyOf(s, id).refused > 0 ==> Over(s, id) && !Works(s, id)
  }

  ghost predicate Unused(s: State, id: ImportId) {
    id !in s.used ==> !Holds(s, id) && !Works(s, id) && TallyOf(s, id) == ZERO
  }

  ghost predicate Sound(s: State, id: ImportId) {
    Unused(s, id) && RowAccounts(s, id) && RunAccounts(s, id) && DoneAccounts(s, id) && RefusedWhenOver(s, id)
  }

  // The importer works for another import: nothing of this one's accounts moves.
  ghost predicate Elsewhere(s: State, s': State, id: ImportId) {
    && !Works(s, id) && !Works(s', id) && TallyOf(s', id) == TallyOf(s, id) && s'.used == s.used
    && (Holds(s', id) ==> Holds(s, id) && s'.row.value.batches == s.row.value.batches
                          && (s.row.value.finished ==> s'.row.value.finished))
    && (Over(s, id) ==> Over(s', id))
  }

  lemma ElsewhereKeeps(s: State, s': State, id: ImportId)
    requires Sound(s, id) && Elsewhere(s, s', id)
    ensures Sound(s', id)
  {
  }

  // The row and the clock may change under the importer, but the row does not become this import's.
  lemma OutsideKeeps(s: State, e: Event, s': State, id: ImportId)
    requires Sound(s, id) && Enabled(s, e) && (e.Begin? || e.Clear? || e.EndElsewhere? || e.Tick?) && s' == Step(s, e)
    ensures Sound(s', id)
  {
  }

  lemma TakeKeeps(s: State, chunk: Chunk, ok: bool, s': State, id: ImportId)
    requires Sound(s, id) && s.run.Idle? && s' == TakeStep(s, chunk, ok)
    ensures Sound(s', id)
  {
  }

  lemma SkipKeeps(s: State, reply: Reply, s': State, id: ImportId)
    requires Sound(s, id) && s.run.On? && s.run.pc.Skipping?
    requires s' == SkipStep(s, s.run.pc.attempt, s.run.l, reply)
    ensures Sound(s', id)
  {
    if !Works(s, id) {
      ElsewhereKeeps(s, s', id);
    } else {
      OwnSkipKeeps(s, s.run.pc.attempt, s.run.l, reply, s', id);
    }
  }

  lemma OwnSkipKeeps(s: State, attempt: nat, l: Local, reply: Reply, s': State, id: ImportId)
    requires s.run == On(Skipping(attempt), l) && l.active.importId == id && Sound(s, id) && s' == SkipStep(s, attempt, l, reply)
    ensures Sound(s', id)
  {
    var accepts := Accepts(s.row, l.active.importId, s.now);
    var taken := if accepts && !reply.Down? then s.(row := Some(Skipped(s.row.value, l.chunk.withoutPhone, s.now))) else s;
    SkippedRowKeeps(s, taken, l.chunk.withoutPhone, id);
    if reply.Stored? && accepts {
      NextKeeps(taken, attempt, l, l.(skipped := |taken.row.value.skipped|), s', id);
    } else if !reply.Stored? && attempt >= STORE_ATTEMPTS {
      NextKeeps(taken, attempt, l, l, s', id);
    }
  }

  lemma SkippedRowKeeps(s: State, s': State, chats: set<string>, id: ImportId)
    requires Sound(s, id) && (s' == s || (Accepts(s.row, id, s.now) && s' == s.(row := Some(Skipped(s.row.value, chats, s.now)))))
    ensures Sound(s', id)
  {
  }

  lemma NextKeeps(s: State, attempt: nat, l: Local, l': Local, s': State, id: ImportId)
    requires s.run == On(Skipping(attempt), l) && l.active.importId == id && Sound(s, id)
    requires l' == l.(skipped := l'.skipped) && s' == s.(run := Next(l'))
    ensures Sound(s', id)
  {
  }

  lemma CheckKeeps(s: State, ok: bool, s': State, id: ImportId)
    requires Sound(s, id) && Enabled(s, Check(ok)) && s' == Step(s, Check(ok))
    ensures Sound(s', id)
  {
  }

  lemma PublishKeeps(s: State, confirmed: bool, s': State, id: ImportId)
    requires Sound(s, id) && Enabled(s, Publish(confirmed)) && s' == Step(s, Publish(confirmed))
    ensures Sound(s', id)
  {
    if !Works(s, id) {
      ElsewhereKeeps(s, s', id);
    } else if s.run.pc.Sending? {
      BatchSentKeeps(s, s.run.l, confirmed, s', id);
    } else {
      DoneSentKeeps(s, s.run.l, confirmed, s', id);
    }
  }

  lemma BatchSentKeeps(s: State, l: Local, confirmed: bool, s': State, id: ImportId)
    requires Sound(s, id) && s.run == On(Sending, l) && l.active.importId == id && s' == PublishStep(s, l, confirmed)
    ensures Sound(s', id)
  {
  }

  lemma DoneSentKeeps(s: State, l: Local, confirmed: bool, s': State, id: ImportId)
    requires Sound(s, id) && s.run == On(SendingDone, l) && l.active.importId == id && s' == PublishDoneStep(s, l, confirmed)
    ensures Sound(s', id)
  {
  }

  lemma CountFailsKeeps(s: State, attempt: nat, applied: nat, l: Local, s': State, id: ImportId)
    requires s.run == On(Counting(attempt, applied), l) && Sound(s, id) && s' == CountFails(s, attempt, applied, l)
    ensures Sound(s', id)
  {
    if !Works(s, id) {
      ElsewhereKeeps(s, s', id);
    } else {
      OwnCountFailsKeeps(s, attempt, applied, l, s', id);
    }
  }

  lemma OwnCountFailsKeeps(s: State, attempt: nat, applied: nat, l: Local, s': State, id: ImportId)
    requires s.run == On(Counting(attempt, applied), l) && l.active.importId == id && Sound(s, id)
    requires s' == CountFails(s, attempt, applied, l)
    ensures Sound(s', id)
  {
  }

  // The row takes the batch once more.
  lemma AppliedKeeps(s: State, attempt: nat, applied: nat, l: Local, s': State, id: ImportId)
    requires s.run == On(Counting(attempt, applied), l) && Sound(s, id) && Accepts(s.row, l.active.importId, s.now)
    requires s' == s.(row := Some(Counted(s.row.value, s.now)), run := On(Counting(attempt, applied + 1), l))
    ensures Sound(s', id)
  {
  }

  lemma CountAnsweredKeeps(s: State, attempt: nat, applied: nat, l: Local, s': State, id: ImportId)
    requires s.run == On(Counting(attempt, applied), l) && Sound(s, id) && s' == CountStep(s, attempt, applied, l, Stored)
    ensures Sound(s', id)
  {
    if !Works(s, id) {
      ElsewhereKeeps(s, s', id);
    } else {
      OwnCountAnsweredKeeps(s, attempt, applied, l, s', id);
    }
  }

  lemma OwnCountAnsweredKeeps(s: State, attempt: nat, applied: nat, l: Local, s': State, id: ImportId)
    requires s.run == On(Counting(attempt, applied), l) && l.active.importId == id && Sound(s, id)
    requires s' == CountStep(s, attempt, applied, l, Stored)
    ensures Sound(s', id)
  {
  }

  lemma CountKeeps(s: State, attempt: nat, applied: nat, l: Local, reply: Reply, s': State, id: ImportId)
    requires s.run == On(Counting(attempt, applied), l) && Sound(s, id) && s' == CountStep(s, attempt, applied, l, reply)
    ensures Sound(s', id)
  {
    if reply.Stored? {
      CountAnsweredKeeps(s, attempt, applied, l, s', id);
    } else if reply.Lost? && Accepts(s.row, l.active.importId, s.now) {
      var taken := s.(row := Some(Counted(s.row.value, s.now)), run := On(Counting(attempt, applied + 1), l));
      AppliedKeeps(s, attempt, applied, l, taken, id);
      CountFailsKeeps(taken, attempt, applied + 1, l, s', id);
    } else {
      CountFailsKeeps(s, attempt, applied, l, s', id);
    }
  }

  lemma FinishKeeps(s: State, reply: Reply, s': State, id: ImportId)
    requires Sound(s, id) && s.run.On? && s.run.pc.Finishing?
    requires s' == FinishStep(s, s.run.pc.attempt, s.run.l, reply)
    ensures Sound(s', id)
  {
    if !Works(s, id) {
      ElsewhereKeeps(s, s', id);
    } else {
      OwnFinishKeeps(s, s.run.pc.attempt, s.run.l, reply, s', id);
    }
  }

  lemma OwnFinishKeeps(s: State, attempt: nat, l: Local, reply: Reply, s': State, id: ImportId)
    requires s.run == On(Finishing(attempt), l) && l.active.importId == id && Sound(s, id) && s' == FinishStep(s, attempt, l, reply)
    ensures Sound(s', id)
  {
  }

  lemma CancelKeeps(s: State, s': State, id: ImportId)
    requires Sound(s, id) && s' == CancelStep(s)
    ensures Sound(s', id)
  {
  }

  lemma StepKeeps(s: State, e: Event, s': State, id: ImportId)
    requires Sound(s, id) && Enabled(s, e) && s' == Step(s, e)
    ensures Sound(s', id)
  {
    match e
    case Take(chunk, ok) => TakeKeeps(s, chunk, ok, s', id);
    case Skip(reply) => SkipKeeps(s, reply, s', id);
    case Check(ok) => CheckKeeps(s, ok, s', id);
    case Publish(confirmed) => PublishKeeps(s, confirmed, s', id);
    case Count(reply) => CountKeeps(s, s.run.pc.attempt, s.run.pc.applied, s.run.l, reply, s', id);
    case Finish(reply) => FinishKeeps(s, reply, s', id);
    case Cancel => CancelKeeps(s, s', id);
    case _ => OutsideKeeps(s, e, s', id);
  }

  lemma {:induction false} RunKeeps(s: State, events: seq<Event>, id: ImportId)
    requires Sound(s, id) && IsRun(s, events)
    ensures Sound(After(s, events), id)
    decreases |events|
  {
    if events != [] {
      StepKeeps(s, events[0], Step(s, events[0]), id);
      RunKeeps(Step(s, events[0]), events[1..], id);
    }
  }

  lemma Reachable(events: seq<Event>, id: ImportId)
    requires IsRun(START, events)
    ensures Sound(After(START, events), id)
  {
    RunKeeps(START, events, id);
  }

  // ---- The total of the end message ----

  // The step reads the count of the row: it looks the row up for a chunk, or a batch is counted and the
  // answer arrives.
  predicate Reads(s: State, e: Event)
    requires Enabled(s, e)
  {
    match e
    case Take(_, _) => Step(s, e).run.On?
    case Count(reply) => reply.Stored? && Accepts(s.row, s.run.l.active.importId, s.now)
    case _ => false
  }

  lemma {:induction false} RunInParts(s: State, events: seq<Event>, k: nat)
    requires IsRun(s, events) && k <= |events|
    ensures IsRun(s, events[..k]) && IsRun(After(s, events[..k]), events[k..])
    ensures After(s, events) == After(After(s, events[..k]), events[k..])
    decreases k
  {
    if k == 0 {
      assert events[..0] == [] && events[0..] == events;
    } else {
      assert events[..k][0] == events[0] && events[..k][1..] == events[1..][..k - 1] && events[1..][k - 1..] == events[k..];
      RunInParts(Step(s, events[0]), events[1..], k - 1);
    }
  }

  lemma RunToLast(s: State, events: seq<Event>)
    requires IsRun(s, events) && events != []
    ensures var front, e := events[..|events| - 1], events[|events| - 1];
      IsRun(s, front) && Enabled(After(s, front), e) && After(s, events) == Step(After(s, front), e)
  {
    var n := |events| - 1;
    RunInParts(s, events, n);
    assert events[n..][0] == events[n] && events[n..][1..] == [];
  }

  // A reading step leaves the run off by as much as the row is.
  lemma ReadingSetsDrift(s: State, e: Event, s': State, id: ImportId)
    requires Sound(s, id) && Enabled(s, e) && Reads(s, e) && s' == Step(s, e) && Works(s', id)
    ensures Holds(s', id) && s'.run.l.drift == s'.row.value.batches - TallyOf(s', id).confirmed
  {
    StepKeeps(s, e, s', id);
  }

  lemma OthersKeepDrift(s: State, e: Event, s': State, id: ImportId)
    requires Enabled(s, e) && !Reads(s, e) && s' == Step(s, e) && Works(s', id)
    ensures Works(s, id) && s'.run.l.drift == s.run.l.drift
  {
    match e
    case Skip(reply) => assert s' == SkipStep(s, s.run.pc.attempt, s.run.l, reply);
    case Count(reply) => assert s' == CountStep(s, s.run.pc.attempt, s.run.pc.applied, s.run.l, reply);
    case Finish(reply) => assert s' == FinishStep(s, s.run.pc.attempt, s.run.l, reply);
    case _ =>
  }

  // Every beginning of the run is a run, and each is one step of the one before.
  ghost predicate Prefixes(events: seq<Event>) {
    && (forall j :: 0 <= j <= |events| ==> IsRun(START, events[..j]))
    && (forall j :: 0 <= j < |events| ==>
          && Enabled(After(START, events[..j]), events[j])
          && After(START, events[..j + 1]) == Step(After(START, events[..j]), events[j]))
  }

  // The k-th state of a run is the one in which the row was last read for this import.
  ghost predicate LastReadAt(events: seq<Event>, id: ImportId, k: nat)
    requires Prefixes(events)
  {
    && 0 < k <= |events|
    && Reads(After(START, events[..k - 1]), events[k - 1])
    && NoReadFrom(events, k)
    && Holds(After(START, events[..k]), id)
  }

  ghost predicate NoReadFrom(events: seq<Event>, k: nat)
    requires Prefixes(events)
  {
    forall j :: k <= j < |events| ==> !Reads(After(START, events[..j]), events[j])
  }

  lemma {:induction false} FindLastRead(events: seq<Event>, m: nat, s: State, id: ImportId) returns (k: nat)
    requires Prefixes(events) && 0 < m <= |events| && s == After(START, events[..m]) && Works(s, id) && NoReadFrom(events, m)
    ensures LastReadAt(events, id, k)
    ensures var read := After(START, events[..k]); s.run.l.drift == read.row.value.batches - TallyOf(read, id).confirmed
    decreases m
  {
    assert events[..0] == [];
    var before, e := After(START, events[..m - 1]), events[m - 1];
    Reachable(events[..m - 1], id);
    if Reads(before, e) {
      k := m;
      ReadingSetsDrift(before, e, s, id);
    } else {
      OthersKeepDrift(before, e, s, id);
      k := FindLastRead(events, m - 1, before, id);
    }
  }

  lemma EveryPrefixRuns(events: seq<Event>)
    requires IsRun(START, events)
    ensures Prefixes(events)
  {
    forall j | 0 <= j <= |events|
      ensures IsRun(START, events[..j])
    {
      RunInParts(START, events, j);
    }
    forall j | 0 <= j < |events|
      ensures Enabled(After(START, events[..j]), events[j]) && After(START, events[..j + 1]) == Step(After(START, events[..j]), events[j])
    {
      RunToLast(START, events[..j + 1]);
      assert events[..j + 1][..j] == events[..j];
    }
  }

  // Whenever an end is about to be sent, every batch of the chunk that ends the import was confirmed,
  // and the total it carries is off by exactly as much as the count of the row was when it was last
  // read: everything since then was confirmed and added alike, whether or not it reached the row.
  lemma DoneTotal(events: seq<Event>) returns (k: nat)
    requires IsRun(START, events)
    requires After(START, events).run.On? && After(START, events).run.pc.SendingDone?
    ensures var s := After(START, events); var id := s.run.l.active.importId;
      && s.run.l.chunk.final && s.run.l.n == s.run.l.chunk.batches
      && TallyOf(s, id).confirmed == s.run.l.before + s.run.l.chunk.batches
      && Prefixes(events) && LastReadAt(events, id, k)
      && var read := After(START, events[..k]);
         s.run.l.total - TallyOf(s, id).confirmed == read.row.value.batches - TallyOf(read, id).confirmed
  {
    var id := After(START, events).run.l.active.importId;
    Reachable(events, id);
    EveryPrefixRuns(events);
    assert events[..|events|] == events;
    k := FindLastRead(events, |events|, After(START, events), id);
  }

  // The row itself counts every confirmed batch, but for those missed or refused and those taken twice.
  lemma RowCountsBatches(events: seq<Event>, id: ImportId)
    requires IsRun(START, events) && Holds(After(START, events), id) && !Works(After(START, events), id)
    ensures var s := After(START, events); var t := TallyOf(s, id);
      s.row.value.batches == t.confirmed + t.extra - t.missed - t.refused
  {
    Reachable(events, id);
  }

  // An end is confirmed once, and once more at most for every end whose bookkeeping was given up.
  lemma DoneOnce(events: seq<Event>, id: ImportId)
    requires IsRun(START, events)
    ensures var t := TallyOf(After(START, events), id);
      t.dones <= 1 + t.unfinished
  {
    Reachable(events, id);
  }

  // ---- Runs in which no write gives up ----

  // The step does not give up a write that counts or finishes.
  predicate Tries(s: State, e: Event)
    requires Enabled(s, e)
  {
    match e
    case Count(reply) => !reply.Stored? ==> s.run.pc.attempt < 5
    case Finish(reply) => !reply.Stored? ==> s.run.pc.attempt < 5
    case Cancel => s.run.On? ==> !s.run.pc.Counting? && !s.run.pc.Finishing?
    case _ => true
  }

  ghost predicate AllTry(s: State, events: seq<Event>)
    requires IsRun(s, events)
    decreases |events|
  {
    events == [] || (Tries(s, events[0]) && AllTry(Step(s, events[0]), events[1..]))
  }

  // The row of this import counts a batch and the answer is lost.
  predicate Loses(s: State, e: Event, id: ImportId)
    requires Enabled(s, e)
  {
    e == Count(Lost) && s.run.l.active.importId == id && Accepts(s.row, id, s.now)
  }

  ghost function Losses(s: State, events: seq<Event>, id: ImportId): nat
    requires IsRun(s, events)
    decreases |events|
  {
    if events == [] then 0
    else (if Loses(s, events[0], id) then 1 else 0) + Losses(Step(s, events[0]), events[1..], id)
  }

  // How often the row has taken the batch that is being counted.
  function Applied(s: State, id: ImportId): nat {
    if Works(s, id) && s.run.pc.Counting? then s.run.pc.applied else 0
  }

  // After n lost answers, and no other failure, the row has n increments too many, and so has the run.
  ghost predicate OffByLosses(s: State, id: ImportId, n: nat) {
    var t := TallyOf(s, id);
    && t.missed == 0 && t.unfinished == 0
    && (id !in s.used ==> n == 0)
    && (Works(s, id) ==> s.run.l.drift == t.extra && t.extra + Applied(s, id) == n && t.refused == 0)
    && (Accepts(s.row, id, s.now) ==> t.extra + Applied(s, id) == n && t.refused == 0)
  }

  lemma CountStepOff(s: State, attempt: nat, applied: nat, l: Local, reply: Reply, s': State, id: ImportId, n: nat)
    requires s.run == On(Counting(attempt, applied), l) && Sound(s, id) && OffByLosses(s, id, n) && Tries(s, Count(reply))
    requires s' == CountStep(s, attempt, applied, l, reply)
    ensures OffByLosses(s', id, n + if Loses(s, Count(reply), id) then 1 else 0)
  {
  }

  predicate SameCounts(t: Tally, t': Tally) {
    t'.missed == t.missed && t'.unfinished == t.unfinished && t'.extra == t.extra && t'.refused == t.refused
  }

  // What other steps leave alone: they take nothing to the row, and leave nothing uncounted.
  ghost predicate CountsNothing(s: State, s': State, id: ImportId) {
    && SameCounts(TallyOf(s, id), TallyOf(s', id))
    && Applied(s', id) == Applied(s, id) && s.used <= s'.used
    && (Works(s', id) ==> Works(s, id) && s'.run.l.drift == s.run.l.drift)
    && (Accepts(s'.row, id, s'.now) ==> Accepts(s.row, id, s.now) || id !in s.used)
  }

  lemma CountsNothingIsOff(s: State, s': State, id: ImportId, n: nat)
    requires Sound(s, id) && OffByLosses(s, id, n) && CountsNothing(s, s', id)
    ensures OffByLosses(s', id, n)
  {
  }

  lemma TakeIsOff(s: State, chunk: Chunk, ok: bool, s': State, id: ImportId, n: nat)
    requires Sound(s, id) && OffByLosses(s, id, n) && s.run.Idle? && s' == TakeStep(s, chunk, ok)
    ensures OffByLosses(s', id, n)
  {
  }

  lemma OthersCountNothing(s: State, e: Event, s': State, id: ImportId)
    requires Sound(s, id) && Enabled(s, e) && Tries(s, e) && !e.Take? && !e.Count? && s' == Step(s, e)
    ensures CountsNothing(s, s', id)
  {
    match e
    case Skip(reply) => assert s' == SkipStep(s, s.run.pc.attempt, s.run.l, reply);
    case Finish(reply) => assert s' == FinishStep(s, s.run.pc.attempt, s.run.l, reply);
    case _ =>
  }

  lemma OffByLossesStep(s: State, e: Event, s': State, id: ImportId, n: nat)
    requires Sound(s, id) && OffByLosses(s, id, n) && Enabled(s, e) && Tries(s, e) && s' == Step(s, e)
    ensures OffByLosses(s', id, n + if Loses(s, e, id) then 1 else 0)
  {
    match e
    case Take(chunk, ok) => TakeIsOff(s, chunk, ok, s', id, n);
    case Count(reply) => CountStepOff(s, s.run.pc.attempt, s.run.pc.applied, s.run.l, reply, s', id, n);
    case _ =>
      OthersCountNothing(s, e, s', id);
      CountsNothingIsOff(s, s', id, n);
  }

  lemma {:induction false} OffByLossesRun(s: State, events: seq<Event>, id: ImportId, n: nat)
    requires Sound(s, id) && OffByLosses(s, id, n) && IsRun(s, events) && AllTry(s, events)
    ensures OffByLosses(After(s, events), id, n + Losses(s, events, id))
    decreases |events|
  {
    if events != [] {
      StepKeeps(s, events[0], Step(s, events[0]), id);
      OffByLossesStep(s, events[0], Step(s, events[0]), id, n);
      OffByLossesRun(Step(s, events[0]), events[1..], id, n + if Loses(s, events[0], id) then 1 else 0);
    }
  }

  // When no write of the row gives up, the total of the end is the number of batches the broker
  // confirmed for the import, over all its chunks, plus the number of answers to counts that were lost.
  // So it is right exactly when none was lost. The end itself is confirmed once at most.
  lemma TotalIsConfirmed(events: seq<Event>, id: ImportId)
    requires IsRun(START, events) && AllTry(START, events)
    ensures var s, lost := After(START, events), Losses(START, events, id); var confirmed := TallyOf(s, id).confirmed;
      && TallyOf(s, id).dones <= 1
      && (Works(s, id) && s.run.pc.SendingDone? ==>
            && s.run.l.total == confirmed + lost
            && (s.run.l.total == confirmed <==> lost == 0))
  {
    OffByLossesRun(START, events, id, 0);
    Reachable(events, id);
  }

  lemma OneMoreStep(s: State, e: Event, rest: seq<Event>)
    requires Enabled(s, e) && Tries(s, e) && IsRun(Step(s, e), rest) && AllTry(Step(s, e), rest)
    ensures IsRun(s, [e] + rest) && AllTry(s, [e] + rest) && After(s, [e] + rest) == After(Step(s, e), rest)
  {
    assert ([e] + rest)[1..] == rest;
  }

  // The states of a run over a single batch whose first count loses its answer.
  function LostAnswer(): seq<State> {
    var s1 := Step(START, Begin(0));
    var s2 := Step(s1, Take(Chunk(1, true, {}), true));
    var s3 := Step(s2, Check(true));
    var s4 := Step(s3, Publish(true));
    var s5 := Step(s4, Count(Lost));
    var s6 := Step(s5, Count(Stored));
    [s1, s2, s3, s4, s5, s6, Step(s6, Check(true))]
  }

  // From the confirmed batch on.
  lemma LostAnswerEnds() returns (events: seq<Event>)
    ensures var s := LostAnswer()[3];
      IsRun(s, events) && AllTry(s, events) && After(s, events) == LostAnswer()[6]
  {
    var s := LostAnswer();
    OneMoreStep(s[5], Check(true), []);
    OneMoreStep(s[4], Count(Stored), [Check(true)]);
    events := [Count(Stored)] + [Check(true)];
    OneMoreStep(s[3], Count(Lost), events);
    events := [Count(Lost)] + events;
  }

  lemma LostAnswerBegins(rest: seq<Event>) returns (events: seq<Event>)
    requires var s := LostAnswer(); IsRun(s[3], rest) && AllTry(s[3], rest)
    ensures IsRun(START, events) && AllTry(START, events) && After(START, events) == After(LostAnswer()[3], rest)
  {
    var s := LostAnswer();
    OneMoreStep(s[2], Publish(true), rest);
    events := [Publish(true)] + rest;
    OneMoreStep(s[1], Check(true), events);
    events := [Check(true)] + events;
    OneMoreStep(s[0], Take(Chunk(1, true, {}), true), events);
    events := [Take(Chunk(1, true, {}), true)] + events;
    OneMoreStep(START, Begin(0), events);
    events := [Begin(0)] + events;
  }

  lemma LostAnswerTotal()
    ensures var s := LostAnswer()[6];
      s.run.On? && s.run.pc.SendingDone? && s.run.l.total == 2 && TallyOf(s, 0).confirmed == 1
  {
  }

  // A lost answer is enough to send a wrong total, although no write gives up: the row takes the only
  // batch twice.
  lemma LostAnswerOvercounts() returns (events: seq<Event>)
    ensures IsRun(START, events) && AllTry(START, events)
    ensures var s := After(START, events);
      s.run.On? && s.run.pc.SendingDone? && s.run.l.total == 2 && TallyOf(s, 0).confirmed == 1
  {
    var rest := LostAnswerEnds();
    events := LostAnswerBegins(rest);
    LostAnswerTotal();
  }

  // ---- A replaced import ----

  // The publications this import may still see: the one that is already past its check.
  function PastCheck(s: State, id: ImportId): nat {
    if Works(s, id) && (s.run.pc.Sending? || s.run.pc.SendingDone?) then 1 else 0
  }

  lemma StaysReplaced(s: State, e: Event, s': State, id: ImportId)
    requires Enabled(s, e) && id in s.used && !Holds(s, id) && s' == Step(s, e)
    ensures id in s'.used && !Holds(s', id)
  {
    match e
    case Take(chunk, ok) => assert s' == TakeStep(s, chunk, ok);
    case Skip(reply) => assert s' == SkipStep(s, s.run.pc.attempt, s.run.l, reply);
    case Count(reply) => assert s' == CountStep(s, s.run.pc.attempt, s.run.pc.applied, s.run.l, reply);
    case Finish(reply) => assert s' == FinishStep(s, s.run.pc.attempt, s.run.l, reply);
    case _ =>
  }

  // Only a publication is an attempt, and only a check that finds the row leads to one.
  lemma WritesAttemptNothing(s: State, e: Event, s': State, id: ImportId)
    requires Enabled(s, e) && !e.Publish? && !e.Check? && s' == Step(s, e)
    ensures TallyOf(s', id).attempts == TallyOf(s, id).attempts && PastCheck(s', id) <= PastCheck(s, id)
  {
    match e
    case Take(chunk, ok) => assert s' == TakeStep(s, chunk, ok);
    case Skip(reply) => assert s' == SkipStep(s, s.run.pc.attempt, s.run.l, reply);
    case Count(reply) => CountAttemptsNothing(s, s.run.pc.attempt, s.run.pc.applied, s.run.l, reply, s', id);
    case Finish(reply) => assert s' == FinishStep(s, s.run.pc.attempt, s.run.l, reply);
    case _ =>
  }

  lemma CountAttemptsNothing(s: State, attempt: nat, applied: nat, l: Local, reply: Reply, s': State, id: ImportId)
    requires s.run == On(Counting(attempt, applied), l) && s' == CountStep(s, attempt, applied, l, reply)
    ensures TallyOf(s', id).attempts == TallyOf(s, id).attempts && PastCheck(s', id) == 0
  {
  }

  lemma ReplacedStep(s: State, e: Event, s': State, id: ImportId)
    requires Enabled(s, e) && id in s.used && !Holds(s, id) && s' == Step(s, e)
    ensures id in s'.used && !Holds(s', id)
    ensures TallyOf(s', id).attempts + PastCheck(s', id) <= TallyOf(s, id).attempts + PastCheck(s, id)
  {
    StaysReplaced(s, e, s', id);
    if !e.Publish? && !e.Check? {
      WritesAttemptNothing(s, e, s', id);
    }
  }

  // Once an import was replaced or cleared, it sees no more than one further publish attempt, and none
  // unless one was already past its check, whatever the stores and the broker do.
  lemma {:induction false} ReplacedImportStops(s: State, events: seq<Event>, id: ImportId)
    requires IsRun(s, events) && id in s.used && !Holds(s, id)
    ensures TallyOf(After(s, events), id).attempts <= TallyOf(s, id).attempts + PastCheck(s, id)
    decreases |events|
  {
    if events != [] {
      ReplacedStep(s, events[0], Step(s, events[0]), id);
      ReplacedImportStops(Step(s, events[0]), events[1..], id);
    }
  }
}
