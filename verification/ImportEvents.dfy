// What the events of a run say of an import, held against its registry row and its end message: the
// chats that were skipped, how long the row takes writes, and when the work on a chunk may stop.
module ImportEvents {
  import opened Database
  import opened ImportRegistry
  import opened ImportProtocol
  import opened Options

  // Read off the events alone: the chats that reached the row, those of all chunks taken up, whether the
  // writing of the chunk's chats was given up, whether that happened to any chunk of the import or one was
  // cancelled before it, whether the import ended and when its row was last written, and the batches
  // confirmed since the chunk was taken up, whether an end was, and how often the
  // row took a batch.
  datatype Past = Past(written: set<string>, taken: set<string>, gaveUp: bool, cut: bool, ended: bool, at: int, sent: nat, endSent: bool, counted: nat)

  const NOTHING := Past({}, {}, false, false, false, 0, 0, false, 0)

  function NoteSkip(s: State, reply: Reply, id: ImportId, h: Past): Past
    requires s.run.On? && s.run.pc.Skipping? && Works(s, id)
  {
    var wrote := if !reply.Down? && Accepts(s.row, id, s.now) then h.(written := h.written + s.run.l.chunk.withoutPhone, at := s.now) else h;
    if !reply.Stored? && s.run.pc.attempt >= 5 then wrote.(gaveUp := true, cut := true) else wrote
  }

  function NoteEnd(s: State, id: ImportId, h: Past): Past {
    if Holds(s, id) && !h.ended then h.(ended := true, at := s.now) else h
  }

  function NoteTake(s': State, chunk: Chunk, h: Past): Past {
    h.(taken := h.taken + chunk.withoutPhone, gaveUp := false, sent := 0, endSent := false)
  }

  function NotePublish(s: State, h: Past): Past
    requires s.run.On?
  {
    if s.run.pc.Sending? then h.(sent := h.sent + 1) else h.(endSent := true)
  }

  function Note(s: State, e: Event, id: ImportId, h: Past): Past
    requires Enabled(s, e)
  {
    match e
    case Begin(begun) => if begun == id then h.(at := s.now) else h
    case EndElsewhere(ended) => if ended == id then NoteEnd(s, id, h) else h
    case Take(chunk, _) => if Works(Step(s, e), id) then NoteTake(s, chunk, h) else h
    case Skip(reply) => if Works(s, id) then NoteSkip(s, reply, id, h) else h
    case Publish(confirmed) => if Works(s, id) && confirmed then NotePublish(s, h) else h
    case Count(reply) => if Works(s, id) && !reply.Down? && Accepts(s.row, id, s.now) then h.(at := s.now, counted := h.counted + 1) else h
    case Finish(reply) => if Works(s, id) && !reply.Down? then NoteEnd(s, id, h) else h
    case Cancel => if Works(s, id) && s.run.pc.Skipping? then h.(cut := true) else h
    case _ => h
  }

  ghost function Recall(s: State, events: seq<Event>, id: ImportId, h: Past): Past
    requires IsRun(s, events)
    decreases |events|
  {
    if events == [] then h else Recall(Step(s, events[0]), events[1..], id, Note(s, events[0], id, h))
  }

  ghost predicate RowKnown(s: State, id: ImportId, h: Past) {
    Holds(s, id) ==>
      && s.row.value.skipped == h.written && s.row.value.batches == h.counted
      && s.row.value.finished == h.ended && s.row.value.touched == h.at
  }

  ghost predicate SkipsKnown(s: State, id: ImportId, h: Past) {
    && h.written <= h.taken
    && (h.gaveUp ==> h.cut || !Works(s, id))
    && (Works(s, id) ==>
          && s.run.l.skipped <= |h.written| && s.run.l.chunk.withoutPhone <= h.taken
          && (s.run.pc.Skipping? ==> !h.gaveUp && (!h.cut ==> h.taken == h.written + s.run.l.chunk.withoutPhone))
          && (!s.run.pc.Skipping? ==>
                && (!h.gaveUp ==> s.run.l.skipped == |h.written| && s.run.l.chunk.withoutPhone <= h.written)
                && (!h.cut ==> h.taken == h.written)))
    && (!Works(s, id) && !Over(s, id) && !h.cut ==> h.taken == h.written)
  }

  ghost predicate SentKnown(s: State, id: ImportId, h: Past) {
    Works(s, id) ==> h.sent == s.run.l.n + (if s.run.pc.Counting? then 1 else 0) && (s.run.pc.Finishing? ==> h.endSent)
  }

  ghost predicate Known(s: State, id: ImportId, h: Past) {
    && RowKnown(s, id, h) && SkipsKnown(s, id, h) && SentKnown(s, id, h)
    && (id !in s.used ==> h == NOTHING && !Holds(s, id) && !Works(s, id))
  }

  lemma OutsideKnown(s: State, e: Event, s': State, id: ImportId, h: Past, h': Past)
    requires Known(s, id, h) && Enabled(s, e) && (e.Begin? || e.Clear? || e.EndElsewhere? || e.Tick?)
    requires s' == Step(s, e) && h' == Note(s, e, id, h)
    ensures Known(s', id, h')
  {
  }

  // The importer works for another import, before and after.
  lemma ElsewhereKnown(s: State, s': State, id: ImportId, h: Past)
    requires Known(s, id, h) && !Works(s, id) && !Works(s', id) && s'.used == s.used
    requires Holds(s', id) ==> Holds(s, id) && s'.row.value == s.row.value
    requires Over(s, id) ==> Over(s', id)
    ensures Known(s', id, h)
  {
  }

  lemma TakeKnown(s: State, chunk: Chunk, ok: bool, s': State, id: ImportId, h: Past, h': Past)
    requires Known(s, id, h) && s.run.Idle? && s' == TakeStep(s, chunk, ok)
    requires h' == if Works(s', id) then NoteTake(s, chunk, h) else h
    ensures Known(s', id, h')
  {
  }

  lemma {:induction false} UnionIsNoSmaller(a: set<string>, b: set<string>)
    ensures |a| <= |a + b|
    decreases b
  {
    if x :| x in b {
      UnionIsNoSmaller(a, b - {x});
      var smaller := a + (b - {x});
      assert a + b == smaller + {x};
      assert x in smaller ==> smaller + {x} == smaller;
    } else {
      assert a + b == a;
    }
  }

  // The chats reach the row, and the run is still waiting for the answer.
  lemma WrittenKnown(s: State, l: Local, s': State, id: ImportId, h: Past, h': Past)
    requires s.run.On? && s.run.pc.Skipping? && s.run.l == l && l.active.importId == id && Known(s, id, h)
    requires Accepts(s.row, id, s.now) && s' == s.(row := Some(Skipped(s.row.value, l.chunk.withoutPhone, s.now)))
    requires h' == h.(written := h.written + l.chunk.withoutPhone, at := s.now)
    ensures Known(s', id, h')
  {
    UnionIsNoSmaller(h.written, l.chunk.withoutPhone);
  }

  // What follows the answer, or the last attempt.
  lemma AnsweredKnown(s: State, l: Local, skipped: nat, s': State, id: ImportId, h: Past)
    requires s.run.On? && s.run.pc.Skipping? && s.run.l == l && l.active.importId == id && Known(s, id, h)
    requires s' == s.(run := Next(l.(skipped := skipped)))
    requires l.chunk.withoutPhone <= h.written && skipped == |h.written|
    ensures Known(s', id, h)
  {
  }

  lemma GivenUpKnown(s: State, l: Local, s': State, id: ImportId, h: Past)
    requires s.run.On? && s.run.pc.Skipping? && s.run.l == l && l.active.importId == id && Known(s, id, h)
    requires s' == s.(run := Next(l))
    ensures Known(s', id, h.(gaveUp := true, cut := true))
  {
  }

  lemma RefusedKnown(s: State, s': State, id: ImportId, h: Past)
    requires Works(s, id) && Known(s, id, h) && !Accepts(s.row, id, s.now) && id in s.used && s' == s.(run := Idle)
    ensures Known(s', id, h)
  {
  }

  lemma OwnSkipKnown(s: State, attempt: nat, l: Local, reply: Reply, s': State, id: ImportId, h: Past, h': Past)
    requires s.run == On(Skipping(attempt), l) && l.active.importId == id && Known(s, id, h)
    requires s' == SkipStep(s, attempt, l, reply) && h' == NoteSkip(s, reply, id, h)
    ensures Known(s', id, h')
  {
    var s1, h1 := s, h;
    if Accepts(s.row, id, s.now) && !reply.Down? {
      s1 := s.(row := Some(Skipped(s.row.value, l.chunk.withoutPhone, s.now)));
      h1 := h.(written := h.written + l.chunk.withoutPhone, at := s.now);
      WrittenKnown(s, l, s1, id, h, h1);
    }
    if reply.Stored? {
      if Accepts(s.row, id, s.now) {
        AnsweredKnown(s1, l, |s1.row.value.skipped|, s', id, h1);
      } else {
        RefusedKnown(s, s', id, h);
      }
    } else if attempt >= STORE_ATTEMPTS {
      GivenUpKnown(s1, l, s', id, h1);
    }
  }

  lemma SkipKnown(s: State, reply: Reply, s': State, id: ImportId, h: Past, h': Past)
    requires Known(s, id, h) && Enabled(s, Skip(reply)) && s' == SkipStep(s, s.run.pc.attempt, s.run.l, reply)
    requires h' == if Works(s, id) then NoteSkip(s, reply, id, h) else h
    ensures Known(s', id, h')
  {
    if Works(s, id) {
      OwnSkipKnown(s, s.run.pc.attempt, s.run.l, reply, s', id, h, h');
    } else {
      ElsewhereKnown(s, s', id, h);
    }
  }

  lemma CheckKnown(s: State, ok: bool, s': State, id: ImportId, h: Past)
    requires Known(s, id, h) && Enabled(s, Check(ok)) && s' == Step(s, Check(ok))
    ensures Known(s', id, h)
  {
  }

  lemma PublishKnown(s: State, confirmed: bool, s': State, id: ImportId, h: Past, h': Past)
    requires Known(s, id, h) && Enabled(s, Publish(confirmed)) && s' == Step(s, Publish(confirmed))
    requires h' == Note(s, Publish(confirmed), id, h)
    ensures Known(s', id, h')
  {
    if !Works(s, id) {
      ElsewhereKnown(s, s', id, h);
    }
  }

  lemma OwnCountKnown(s: State, attempt: nat, applied: nat, l: Local, reply: Reply, s': State, id: ImportId, h: Past, h': Past)
    requires s.run == On(Counting(attempt, applied), l) && l.active.importId == id && Known(s, id, h)
    requires s' == CountStep(s, attempt, applied, l, reply)
    requires h' == if !reply.Down? && Accepts(s.row, id, s.now) then h.(at := s.now, counted := h.counted + 1) else h
    ensures Known(s', id, h')
  {
  }

  lemma CountKnown(s: State, reply: Reply, s': State, id: ImportId, h: Past, h': Past)
    requires Known(s, id, h) && Enabled(s, Count(reply))
    requires s' == CountStep(s, s.run.pc.attempt, s.run.pc.applied, s.run.l, reply) && h' == Note(s, Count(reply), id, h)
    ensures Known(s', id, h')
  {
    if Works(s, id) {
      OwnCountKnown(s, s.run.pc.attempt, s.run.pc.applied, s.run.l, reply, s', id, h, h');
    } else {
      ElsewhereKnown(s, s', id, h);
    }
  }

  lemma FinishKnown(s: State, reply: Reply, s': State, id: ImportId, h: Past, h': Past)
    requires Known(s, id, h) && Enabled(s, Finish(reply))
    requires s' == FinishStep(s, s.run.pc.attempt, s.run.l, reply) && h' == Note(s, Finish(reply), id, h)
    ensures Known(s', id, h')
  {
    if !Works(s, id) {
      ElsewhereKnown(s, s', id, h);
    }
  }

  lemma CancelKnown(s: State, s': State, id: ImportId, h: Past, h': Past)
    requires Known(s, id, h) && s' == CancelStep(s) && h' == Note(s, Cancel, id, h)
    ensures Known(s', id, h')
  {
  }

  lemma StepKnown(s: State, e: Event, s': State, id: ImportId, h: Past, h': Past)
    requires Known(s, id, h) && Enabled(s, e) && s' == Step(s, e) && h' == Note(s, e, id, h)
    ensures Known(s', id, h')
  {
    match e
    case Take(chunk, ok) => TakeKnown(s, chunk, ok, s', id, h, h');
    case Skip(reply) => SkipKnown(s, reply, s', id, h, h');
    case Check(ok) => CheckKnown(s, ok, s', id, h);
    case Publish(confirmed) => PublishKnown(s, confirmed, s', id, h, h');
    case Count(reply) => CountKnown(s, reply, s', id, h, h');
    case Finish(reply) => FinishKnown(s, reply, s', id, h, h');
    case Cancel => CancelKnown(s, s', id, h, h');
    case _ => OutsideKnown(s, e, s', id, h, h');
  }

  lemma {:induction false} RunKnown(s: State, events: seq<Event>, id: ImportId, h: Past)
    requires Known(s, id, h) && IsRun(s, events)
    ensures Known(After(s, events), id, Recall(s, events, id, h))
    decreases |events|
  {
    if events != [] {
      var s', h' := Step(s, events[0]), Note(s, events[0], id, h);
      StepKnown(s, events[0], s', id, h, h');
      RunKnown(s', events[1..], id, h');
    }
  }

  // ---- What the events say ----

  // The chats in the row are those of the writes that ran while the row took them, and so are its batches.
  lemma RowKeepsEveryWrite(events: seq<Event>, id: ImportId)
    requires IsRun(START, events) && Holds(After(START, events), id)
    ensures After(START, events).row.value.skipped == Recall(START, events, id, NOTHING).written
    ensures After(START, events).row.value.batches == Recall(START, events, id, NOTHING).counted
  {
    RunKnown(START, events, id, NOTHING);
  }

  // The end carries the number of different chats that reached the row, unless the writing of the last
  // chunk's chats was given up. When that never happened to a chunk of the import, and none was cancelled
  // before it, that is the number of different chats without a phone over all its chunks. It is never more.
  lemma DoneSkipped(events: seq<Event>, id: ImportId)
    requires IsRun(START, events) && Works(After(START, events), id) && After(START, events).run.pc.SendingDone?
    ensures var h, skipped := Recall(START, events, id, NOTHING), After(START, events).run.l.skipped;
      && (!h.gaveUp ==> skipped == |h.written|)
      && (!h.cut ==> skipped == |h.taken|)
      && skipped <= |h.written| && h.written <= h.taken
  {
    RunKnown(START, events, id, NOTHING);
  }

  // The row of an import is found, and takes its writes, until it has been quiet for thirty minutes after
  // the import ended.
  lemma QuietAfterTheEnd(events: seq<Event>, id: ImportId)
    requires IsRun(START, events)
    ensures var s, h := After(START, events), Recall(START, events, id, NOTHING);
      var takes := Holds(s, id) && (!h.ended || s.now - h.at < 30 * 60);
      && (Accepts(s.row, id, s.now) <==> takes)
      && (ActiveOf(s.row, s.now).Some? && ActiveOf(s.row, s.now).value.importId == id <==> takes)
  {
    RunKnown(START, events, id, NOTHING);
  }

  // The importer leaves a chunk only when it is cancelled, when it finds that the row is not this import's
  // any more or takes nothing, or when all of the chunk's batches were confirmed and nothing is left to
  // send: the chunk does not end the import, the import had ended before, or the end was confirmed too and
  // the row was told, or the fifth attempt at that got no answer. No failure to publish or to look the row up makes it leave.
  lemma ChunkIsCarriedThrough(events: seq<Event>, e: Event, id: ImportId)
    requires IsRun(START, events) && Enabled(After(START, events), e)
    requires Works(After(START, events), id) && !Works(Step(After(START, events), e), id)
    ensures var s, h := After(START, events), Recall(START, events, id, NOTHING);
      var gone := !(Holds(s, id) && (!h.ended || s.now - h.at < 30 * 60));
      || e.Cancel?
      || (gone && (e == Check(true) || e == Skip(Stored) || e == Count(Stored)))
      || (h.sent == s.run.l.chunk.batches && (h.endSent || s.run.l.active.finished || !s.run.l.chunk.final)
          && (s.run.pc.Finishing? ==> e == Finish(Stored) || s.run.pc.attempt == 5))
  {
    QuietAfterTheEnd(events, id);
    RunKnown(START, events, id, NOTHING);
    Reachable(events, id);
    FiveAttempts(START, events);
  }

  // A chunk is taken up exactly when the row is found and there is something to do for it.
  lemma ChunkIsTakenUp(events: seq<Event>, chunk: Chunk, ok: bool, id: ImportId)
    requires IsRun(START, events) && After(START, events).run.Idle?
    ensures var s, h := After(START, events), Recall(START, events, id, NOTHING);
      var takes := Holds(s, id) && (!h.ended || s.now - h.at < 30 * 60);
      Works(Step(s, Take(chunk, ok)), id)
      <==> ok && takes && (chunk.withoutPhone != {} || chunk.batches > 0 || (chunk.final && !h.ended))
  {
    QuietAfterTheEnd(events, id);
    RunKnown(START, events, id, NOTHING);
  }

  // A check that finds the row leads to the publication, and a publication that is not confirmed to
  // another check.
  lemma KeepsTrying(events: seq<Event>, id: ImportId)
    requires IsRun(START, events) && Works(After(START, events), id)
    ensures var s, h := After(START, events), Recall(START, events, id, NOTHING);
      var takes := Holds(s, id) && (!h.ended || s.now - h.at < 30 * 60);
      && (s.run.pc.Checking? && takes ==> Step(s, Check(true)).run == On(Sending, s.run.l))
      && (s.run.pc.CheckingDone? && takes ==> Step(s, Check(true)).run == On(SendingDone, s.run.l))
      && (s.run.pc.Checking? || s.run.pc.CheckingDone? ==> Step(s, Check(false)).run == s.run)
      && (s.run.pc.Sending? ==> Step(s, Publish(false)).run == On(Checking, s.run.l))
      && (s.run.pc.SendingDone? ==> Step(s, Publish(false)).run == On(CheckingDone, s.run.l))
  {
    QuietAfterTheEnd(events, id);
  }

  // ---- The tally counts the events ----

  datatype Kind = Attempts | Batches | Ends

  // Publish attempts for this import, those of a batch that were confirmed, and those of an end.
  predicate Is(kind: Kind, s: State, e: Event, id: ImportId)
    requires Enabled(s, e)
  {
    && e.Publish? && Works(s, id)
    && match kind
       case Attempts => true
       case Batches => e.confirmed && s.run.pc.Sending?
       case Ends => e.confirmed && s.run.pc.SendingDone?
  }

  ghost function Happened(kind: Kind, s: State, events: seq<Event>, id: ImportId): nat
    requires IsRun(s, events)
    decreases |events|
  {
    if events == [] then 0
    else (if Is(kind, s, events[0], id) then 1 else 0) + Happened(kind, Step(s, events[0]), events[1..], id)
  }

  function Of(kind: Kind, t: Tally): nat {
    match kind
    case Attempts => t.attempts
    case Batches => t.confirmed
    case Ends => t.dones
  }

  lemma CountTallies(s: State, attempt: nat, applied: nat, l: Local, reply: Reply, s': State, id: ImportId, kind: Kind)
    requires s.run == On(Counting(attempt, applied), l) && s' == CountStep(s, attempt, applied, l, reply)
    ensures Of(kind, TallyOf(s', id)) == Of(kind, TallyOf(s, id))
  {
  }

  lemma StepTallies(s: State, e: Event, s': State, id: ImportId, kind: Kind)
    requires Enabled(s, e) && s' == Step(s, e)
    ensures Of(kind, TallyOf(s', id)) == Of(kind, TallyOf(s, id)) + if Is(kind, s, e, id) then 1 else 0
  {
    match e
    case Take(chunk, ok) => assert s' == TakeStep(s, chunk, ok);
    case Skip(reply) => assert s' == SkipStep(s, s.run.pc.attempt, s.run.l, reply);
    case Count(reply) => CountTallies(s, s.run.pc.attempt, s.run.pc.applied, s.run.l, reply, s', id, kind);
    case Finish(reply) => assert s' == FinishStep(s, s.run.pc.attempt, s.run.l, reply);
    case _ =>
  }

  // What the tally of an import says of attempts, confirmed batches and confirmed ends is how often they
  // happened in the run.
  lemma {:induction false} TallyCountsEvents(s: State, events: seq<Event>, id: ImportId, kind: Kind)
    requires IsRun(s, events)
    ensures Of(kind, TallyOf(After(s, events), id)) == Of(kind, TallyOf(s, id)) + Happened(kind, s, events, id)
    decreases |events|
  {
    if events != [] {
      StepTallies(s, events[0], Step(s, events[0]), id, kind);
      TallyCountsEvents(Step(s, events[0]), events[1..], id, kind);
    }
  }

  // The total of the end against the events: with no write given up, it is the number of batches that were
  // confirmed in the run plus the number of counts whose answer was lost; and one end at most is confirmed.
  lemma TotalCountsBatches(events: seq<Event>, id: ImportId)
    requires IsRun(START, events) && AllTry(START, events)
    ensures Happened(Ends, START, events, id) <= 1
    ensures var s := After(START, events);
      Works(s, id) && s.run.pc.SendingDone? ==> s.run.l.total == Happened(Batches, START, events, id) + Losses(START, events, id)
  {
    TotalIsConfirmed(events, id);
    TallyCountsEvents(START, events, id, Batches);
    TallyCountsEvents(START, events, id, Ends);
  }

  // After a replacement at most the publication that was past its check is still attempted.
  lemma ReplacedImportPublishesOnce(s: State, events: seq<Event>, id: ImportId)
    requires IsRun(s, events) && id in s.used && !Holds(s, id)
    ensures Happened(Attempts, s, events, id) <= PastCheck(s, id)
  {
    ReplacedImportStops(s, events, id);
    TallyCountsEvents(s, events, id, Attempts);
  }

  // ---- Attempts of a write ----

  predicate WithinFive(run: Run) {
    run.On? ==>
      match run.pc
      case Skipping(attempt) => 1 <= attempt <= 5
      case Counting(attempt, _) => 1 <= attempt <= 5
      case Finishing(attempt) => 1 <= attempt <= 5
      case _ => true
  }

  lemma StepWithinFive(s: State, e: Event, s': State)
    requires WithinFive(s.run) && Enabled(s, e) && s' == Step(s, e)
    ensures WithinFive(s'.run)
  {
    match e
    case Take(chunk, ok) => assert s' == TakeStep(s, chunk, ok);
    case Skip(reply) => assert s' == SkipStep(s, s.run.pc.attempt, s.run.l, reply);
    case Count(reply) => assert s' == CountStep(s, s.run.pc.attempt, s.run.pc.applied, s.run.l, reply);
    case Finish(reply) => assert s' == FinishStep(s, s.run.pc.attempt, s.run.l, reply);
    case _ =>
  }

  // No write of the row is tried more than five times.
  lemma {:induction false} FiveAttempts(s: State, events: seq<Event>)
    requires WithinFive(s.run) && IsRun(s, events)
    ensures WithinFive(After(s, events).run)
    decreases |events|
  {
    if events != [] {
      StepWithinFive(s, events[0], Step(s, events[0]));
      FiveAttempts(Step(s, events[0]), events[1..]);
    }
  }
}
