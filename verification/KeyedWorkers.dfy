/** Keyed FIFO workers: the lanes of internal/amqp/group_lanes.go and the chunk queues of
    internal/history/importer.go. A key has an entry in the map exactly while one goroutine drains
    it; that goroutine deletes the entry, in the critical section that finds it empty, and ends. */
module KeyedQueues {
  import opened Options

  function Waiting<T>(pending: map<string, seq<T>>, key: string): seq<T> {
    if key in pending then pending[key] else []
  }

  function Append<T>(m: map<string, seq<T>>, key: string, x: T): map<string, seq<T>> {
    m[key := Waiting(m, key) + [x]]
  }

  /** `limit` is the lane's backlog; the importer's queues have none. */
  predicate Full<T>(pending: map<string, seq<T>>, limit: Option<int>, key: string) {
    limit.Some? && |Waiting(pending, key)| >= limit.value
  }

  /** The critical section that ends a job: the next one, or None after deleting the empty entry. */
  function Next<T>(pending: map<string, seq<T>>, key: string): (Option<T>, map<string, seq<T>>) {
    var queued := Waiting(pending, key);
    if queued == [] then (None, pending - {key}) else (Some(queued[0]), pending[key := queued[1..]])
  }

  /** The two critical sections over the real map. */
  class Queues<T> {
    const limit: Option<int>
    var closed: bool
    var pending: map<string, seq<T>>

    constructor (limit: Option<int>)
      ensures this.limit == limit && pending == map[] && !closed
    {
      this.limit, pending, closed := limit, map[], false;
    }

    /** `spawn`: a worker must be started for the key. */
    method Offer(key: string, job: T) returns (accepted: bool, spawn: bool)
      modifies this`pending
      ensures accepted <==> !closed && !Full(old(pending), limit, key)
      ensures spawn <==> accepted && key !in old(pending)
      ensures pending == if accepted then Append(old(pending), key, job) else old(pending)
    {
      if closed {
        return false, false;
      }
      var busy := key in pending;
      var queued := if busy then pending[key] else [];
      if limit.Some? && |queued| >= limit.value {
        return false, false;
      }
      pending := pending[key := queued + [job]];
      return true, !busy;
    }

    method Take(key: string) returns (job: Option<T>)
      modifies this`pending
      ensures (job, pending) == Next(old(pending), key)
    {
      var queued := if key in pending then pending[key] else [];
      if |queued| == 0 {
        pending := pending - {key};
        return None;
      }
      pending := pending[key := queued[1..]];
      return Some(queued[0]);
    }

    method Close()
      modifies this`closed
      ensures closed
    {
      closed := true;
    }
  }

}

/** The same workers as a step relation, goroutine by goroutine. */
module KeyedWorkers {
  import opened Options
  import opened KeyedQueues
  import Sequences

  /** A live goroutine and the job in its hand. */
  datatype Worker<T> = Worker(key: string, job: Option<T>)

  /** `accepted`, `started` and `finished` record, key by key, what has happened so far. */
  datatype Pool<T> = Pool(
    limit: Option<int>,
    closed: bool,
    pending: map<string, seq<T>>,
    workers: map<nat, Worker<T>>,
    born: nat,
    accepted: map<string, seq<T>>,
    started: map<string, seq<T>>,
    finished: map<string, seq<T>>)

  datatype Event<T> =
    | Offer(key: string, job: T)
    | Take(worker: nat)
    | Finish(worker: nat)
    | Close

  function Empty<T>(limit: Option<int>): Pool<T> {
    Pool(limit, false, map[], map[], 0, map[], map[], map[])
  }

  predicate Accepts<T>(p: Pool<T>, key: string) {
    !p.closed && !Full(p.pending, p.limit, key)
  }

  predicate Enabled<T>(p: Pool<T>, e: Event<T>) {
    match e
    case Offer(_, _) => true
    case Take(w) => w in p.workers && p.workers[w].job.None?
    case Finish(w) => w in p.workers && p.workers[w].job.Some?
    case Close => true
  }

  function Offered<T>(p: Pool<T>, key: string, job: T): Pool<T> {
    var busy := key in p.pending;
    p.(pending := Append(p.pending, key, job),
       accepted := Append(p.accepted, key, job),
       workers := if busy then p.workers else p.workers[p.born := Worker(key, None)],
       born := if busy then p.born else p.born + 1)
  }

  function Ended<T>(p: Pool<T>, w: nat): Pool<T>
    requires w in p.workers
  {
    p.(pending := p.pending - {p.workers[w].key}, workers := p.workers - {w})
  }

  function Started<T>(p: Pool<T>, w: nat, job: T, rest: seq<T>): Pool<T>
    requires w in p.workers
  {
    var key := p.workers[w].key;
    p.(pending := p.pending[key := rest],
       workers := p.workers[w := Worker(key, Some(job))],
       started := Append(p.started, key, job))
  }

  function Finished<T>(p: Pool<T>, w: nat, job: T): Pool<T>
    requires w in p.workers
  {
    var key := p.workers[w].key;
    p.(workers := p.workers[w := Worker(key, None)], finished := Append(p.finished, key, job))
  }

  function Step<T>(p: Pool<T>, e: Event<T>): Pool<T>
    requires Enabled(p, e)
  {
    match e
    case Offer(key, job) => if Accepts(p, key) then Offered(p, key, job) else p
    case Take(w) =>
      var queued := Waiting(p.pending, p.workers[w].key);
      if queued == [] then Ended(p, w) else Started(p, w, queued[0], queued[1..])
    case Finish(w) => Finished(p, w, p.workers[w].job.value)
    case Close => p.(closed := true)
  }

  /** The pool after the first |events| steps; a run is a sequence of events each enabled in turn. */
  ghost predicate IsRun<T>(p: Pool<T>, events: seq<Event<T>>)
    decreases |events|
  {
    events != [] ==> Enabled(p, events[0]) && IsRun(Step(p, events[0]), events[1..])
  }

  ghost function After<T>(p: Pool<T>, events: seq<Event<T>>): Pool<T>
    requires IsRun(p, events)
    decreases |events|
  {
    if events == [] then p else After(Step(p, events[0]), events[1..])
  }

  function InHand<T>(worker: Worker<T>): seq<T> {
    if worker.job.Some? then [worker.job.value] else []
  }

  ghost predicate HasWorker<T>(p: Pool<T>, key: string) {
    exists w :: w in p.workers && p.workers[w].key == key
  }

  /** Exactly one worker per entry of the map. */
  ghost predicate Owned<T>(p: Pool<T>) {
    && (forall w :: w in p.workers ==> w < p.born && p.workers[w].key in p.pending)
    && (forall v, w :: v in p.workers && w in p.workers && p.workers[v].key == p.workers[w].key ==> v == w)
    && (forall key {:trigger HasWorker(p, key)} :: key in p.pending ==> HasWorker(p, key))
  }

  /** Everything accepted was started, in that order, or still waits; everything started is finished,
      in that order, or is the one job in the hand of the key's worker. */
  ghost predicate InOrder<T>(p: Pool<T>) {
    && (forall key :: Waiting(p.accepted, key) == Waiting(p.started, key) + Waiting(p.pending, key))
    && (forall w :: w in p.workers ==>
          Waiting(p.started, p.workers[w].key) == Waiting(p.finished, p.workers[w].key) + InHand(p.workers[w]))
    && (forall key :: key !in p.pending ==> Waiting(p.started, key) == Waiting(p.finished, key))
  }

  ghost predicate Bounded<T>(p: Pool<T>) {
    p.limit.Some? ==> forall key :: key in p.pending ==> |p.pending[key]| <= Max(p.limit.value, 0)
  }

  function Max(a: int, b: int): int {
    if a > b then a else b
  }

  ghost predicate Sound<T>(p: Pool<T>) {
    Owned(p) && InOrder(p) && Bounded(p)
  }

  lemma OfferedKeepsOwned<T>(p: Pool<T>, key: string, job: T)
    requires Owned(p)
    ensures Owned(Offered(p, key, job))
  {
    var q := Offered(p, key, job);
    if key in p.pending {
      SameOwners(p, q);
    } else {
      assert q.workers[p.born].key == key;
      forall k | k in q.pending
        ensures HasWorker(q, k)
      {
        if k != key {
          assert HasWorker(p, k);
          var w :| w in p.workers && p.workers[w].key == k;
          assert w in q.workers && q.workers[w].key == k;
        }
      }
    }
  }

  lemma OfferedKeepsOrder<T>(p: Pool<T>, key: string, job: T)
    requires Owned(p) && InOrder(p)
    ensures InOrder(Offered(p, key, job))
  {
    var q := Offered(p, key, job);
    forall k
      ensures Waiting(q.accepted, k) == Waiting(q.started, k) + Waiting(q.pending, k)
    {
      assert Waiting(p.accepted, k) == Waiting(p.started, k) + Waiting(p.pending, k);
      if k == key {
        Sequences.Regroup(Waiting(p.started, k), Waiting(p.pending, k), [job]);
      }
    }
    forall w | w in q.workers
      ensures Waiting(q.started, q.workers[w].key) == Waiting(q.finished, q.workers[w].key) + InHand(q.workers[w])
    {
      if w !in p.workers {
        assert key !in p.pending;
      }
    }
  }

  lemma OfferedKeeps<T>(p: Pool<T>, key: string, job: T)
    requires Sound(p) && Accepts(p, key)
    ensures Sound(Offered(p, key, job))
  {
    OfferedKeepsOwned(p, key, job);
    OfferedKeepsOrder(p, key, job);
    var q := Offered(p, key, job);
    assert Bounded(q) by {
      assert Waiting(q.pending, key) == Waiting(p.pending, key) + [job];
    }
  }

  lemma EndedKeeps<T>(p: Pool<T>, w: nat)
    requires Sound(p) && w in p.workers && p.workers[w].job.None? && Waiting(p.pending, p.workers[w].key) == []
    ensures Sound(Ended(p, w))
  {
    var q := Ended(p, w);
    forall k | k in q.pending
      ensures HasWorker(q, k)
    {
      assert HasWorker(p, k);
      var v :| v in p.workers && p.workers[v].key == k;
      assert v in q.workers && q.workers[v].key == k;
    }
    forall k
      ensures Waiting(q.accepted, k) == Waiting(q.started, k) + Waiting(q.pending, k)
    {
      assert Waiting(p.accepted, k) == Waiting(p.started, k) + Waiting(p.pending, k);
    }
  }

  lemma StartedKeepsOrder<T>(p: Pool<T>, w: nat, job: T, rest: seq<T>)
    requires Owned(p) && InOrder(p) && w in p.workers && p.workers[w].job.None?
    requires Waiting(p.pending, p.workers[w].key) == [job] + rest
    ensures InOrder(Started(p, w, job, rest))
  {
    var q, key := Started(p, w, job, rest), p.workers[w].key;
    forall k
      ensures Waiting(q.accepted, k) == Waiting(q.started, k) + Waiting(q.pending, k)
    {
      assert Waiting(p.accepted, k) == Waiting(p.started, k) + Waiting(p.pending, k);
      if k == key {
        Sequences.Regroup(Waiting(p.started, k), [job], rest);
      }
    }
    assert Waiting(p.started, key) == Waiting(p.finished, key);
  }

  lemma StartedKeeps<T>(p: Pool<T>, w: nat, job: T, rest: seq<T>)
    requires Sound(p) && w in p.workers && p.workers[w].job.None?
    requires Waiting(p.pending, p.workers[w].key) == [job] + rest
    ensures Sound(Started(p, w, job, rest))
  {
    SameOwners(p, Started(p, w, job, rest));
    StartedKeepsOrder(p, w, job, rest);
  }

  lemma FinishedKeepsOrder<T>(p: Pool<T>, w: nat, job: T)
    requires Owned(p) && InOrder(p) && w in p.workers && p.workers[w].job == Some(job)
    ensures InOrder(Finished(p, w, job))
  {
    var q, key := Finished(p, w, job), p.workers[w].key;
    assert Waiting(p.started, key) == Waiting(p.finished, key) + [job];
  }

  lemma FinishedKeeps<T>(p: Pool<T>, w: nat, job: T)
    requires Sound(p) && w in p.workers && p.workers[w].job == Some(job)
    ensures Sound(Finished(p, w, job))
  {
    SameOwners(p, Finished(p, w, job));
    FinishedKeepsOrder(p, w, job);
  }

  /** Ownership looks at the keys of the map and of the workers only. */
  lemma SameOwners<T>(p: Pool<T>, q: Pool<T>)
    requires Owned(p) && q.born == p.born
    requires forall k :: k in p.pending <==> k in q.pending
    requires forall w :: w in p.workers <==> w in q.workers
    requires forall w :: w in p.workers ==> q.workers[w].key == p.workers[w].key
    ensures Owned(q)
  {
    forall k | k in q.pending
      ensures HasWorker(q, k)
    {
      assert HasWorker(p, k);
      var v :| v in p.workers && p.workers[v].key == k;
      assert v in q.workers && q.workers[v].key == k;
    }
  }

  lemma StepKeeps<T>(p: Pool<T>, e: Event<T>)
    requires Sound(p) && Enabled(p, e)
    ensures Sound(Step(p, e))
  {
    match e
    case Offer(key, job) =>
      if Accepts(p, key) {
        OfferedKeeps(p, key, job);
      }
    case Take(w) =>
      var queued := Waiting(p.pending, p.workers[w].key);
      if queued == [] {
        EndedKeeps(p, w);
      } else {
        StartedKeeps(p, w, queued[0], queued[1..]);
      }
    case Finish(w) =>
      FinishedKeeps(p, w, p.workers[w].job.value);
    case Close =>
      SameOwners(p, Step(p, e));
  }

  /** In every run, from the empty pool on: a key is in the map exactly while one worker owns it, jobs
      of a key are started and finished one at a time in acceptance order, none is lost when a worker
      ends (an idle key has finished everything it accepted), and no lane waits longer than its limit. */
  lemma {:induction false} EveryRunKeepsOrder<T>(limit: Option<int>, events: seq<Event<T>>)
    requires IsRun(Empty<T>(limit), events)
    ensures var p := After(Empty<T>(limit), events);
            Owned(p) && InOrder(p) && Bounded(p)
  {
    RunKeepsOrder(Empty<T>(limit), events);
  }

  lemma {:induction false} RunKeepsOrder<T>(p: Pool<T>, events: seq<Event<T>>)
    requires Sound(p) && IsRun(p, events)
    ensures Sound(After(p, events))
    decreases |events|
  {
    if events != [] {
      StepKeeps(p, events[0]);
      RunKeepsOrder(Step(p, events[0]), events[1..]);
    }
  }

  lemma StepKeepsLimit<T>(p: Pool<T>, e: Event<T>)
    requires Enabled(p, e)
    ensures Step(p, e).limit == p.limit && (Step(p, e).closed <==> p.closed || e.Close?)
  {
  }

  lemma {:induction false} LimitAndClosing<T>(p: Pool<T>, events: seq<Event<T>>)
    requires IsRun(p, events)
    ensures After(p, events).limit == p.limit
    ensures After(p, events).closed <==> p.closed || exists i :: 0 <= i < |events| && events[i].Close?
    decreases |events|
  {
    if events != [] {
      StepKeepsLimit(p, events[0]);
      LimitAndClosing(Step(p, events[0]), events[1..]);
      assert events == [events[0]] + events[1..];
    }
  }

  /** Jobs of the key that were accepted and not started. */
  function Unstarted<T>(p: Pool<T>, key: string): int {
    |Waiting(p.accepted, key)| - |Waiting(p.started, key)|
  }

  /** In every run an offer is refused, and leaves no trace, exactly when the pool was closed or as many jobs
      of the key as the limit allows are accepted and not started. Otherwise the job is accepted behind the
      earlier ones, and the key has a worker. */
  lemma RefusedExactly<T>(limit: Option<int>, events: seq<Event<T>>, key: string, job: T)
    requires IsRun(Empty<T>(limit), events)
    ensures var p := After(Empty<T>(limit), events);
            var q := Step(p, Offer(key, job));
            var refused := (exists i :: 0 <= i < |events| && events[i].Close?) || (limit.Some? && Unstarted(p, key) >= limit.value);
            if refused then q == p
            else Waiting(q.accepted, key) == Waiting(p.accepted, key) + [job] && HasWorker(q, key)
  {
    var p := After(Empty<T>(limit), events);
    RunKeepsOrder(Empty<T>(limit), events);
    LimitAndClosing(Empty<T>(limit), events);
    assert Waiting(p.accepted, key) == Waiting(p.started, key) + Waiting(p.pending, key);
    var q := Step(p, Offer(key, job));
    if q != p {
      StepKeeps(p, Offer(key, job));
      assert key in q.pending;
    }
  }

  function KeyOf<T>(p: Pool<T>, e: Event<T>): string
    requires Enabled(p, e) && !e.Close?
  {
    match e
    case Offer(key, _) => key
    case Take(w) => p.workers[w].key
    case Finish(w) => p.workers[w].key
  }

  /** A run in which no event concerns `key`. */
  ghost predicate IsRunOfOthers<T>(p: Pool<T>, events: seq<Event<T>>, key: string)
    decreases |events|
  {
    events != [] ==>
      Enabled(p, events[0]) && !events[0].Close? && KeyOf(p, events[0]) != key
      && IsRunOfOthers(Step(p, events[0]), events[1..], key)
  }

  lemma OthersIsRun<T>(p: Pool<T>, events: seq<Event<T>>, key: string)
    requires IsRunOfOthers(p, events, key)
    ensures IsRun(p, events)
    decreases |events|
  {
  }

  lemma StepOfAnother<T>(p: Pool<T>, e: Event<T>, key: string)
    requires Enabled(p, e) && !e.Close? && KeyOf(p, e) != key
    ensures var q := Step(p, e);
            && q.limit == p.limit && q.closed == p.closed
            && Waiting(q.pending, key) == Waiting(p.pending, key)
            && (key in q.pending <==> key in p.pending)
  {
  }

  /** Keys never block each other: whatever the other keys do, for however long, a key accepts exactly
      what it would have accepted, and its queue is as it was. */
  lemma {:induction false} OthersNeverBlock<T>(p: Pool<T>, events: seq<Event<T>>, key: string)
    requires IsRunOfOthers(p, events, key)
    ensures IsRun(p, events)
    ensures var q := After(p, events);
            && Waiting(q.pending, key) == Waiting(p.pending, key)
            && (key in q.pending <==> key in p.pending)
            && (Accepts(q, key) <==> Accepts(p, key))
    decreases |events|
  {
    OthersIsRun(p, events, key);
    if events != [] {
      StepOfAnother(p, events[0], key);
      OthersNeverBlock(Step(p, events[0]), events[1..], key);
    }
  }
}
