// The pool that builds the messages of a chunk (internal/history/translate.go): a feeder hands the
// candidates out one after the other, each worker writes its result at the index it was given.
module BuildPool {
  import opened Options

  datatype Pool<T> = Pool(fed: nat, workers: seq<Option<nat>>, built: seq<Option<T>>, results: seq<Done<T>>)

  // A result that some worker produced for a candidate.
  datatype Done<T> = Done(index: nat, value: T)

  // The feeder hands the next index to a worker that waits; a worker stores what it built.
  datatype Event<T> = Feed(worker: nat) | Store(worker: nat, value: T)

  function Start<T>(candidates: nat, concurrency: nat): Pool<T> {
    Pool(0, Repeat(if concurrency < candidates then concurrency else candidates, None), Repeat(candidates, None), [])
  }

  function Repeat<T>(n: nat, value: T): (r: seq<T>)
    ensures |r| == n && forall i :: 0 <= i < n ==> r[i] == value
  {
    if n == 0 then [] else Repeat(n - 1, value) + [value]
  }

  predicate Enabled<T>(p: Pool<T>, e: Event<T>) {
    match e
    case Feed(w) => w < |p.workers| && p.workers[w].None? && p.fed < |p.built|
    case Store(w, _) => w < |p.workers| && p.workers[w].Some? && p.workers[w].value < |p.built|
  }

  function Step<T>(p: Pool<T>, e: Event<T>): Pool<T>
    requires Enabled(p, e)
  {
    match e
    case Feed(w) => p.(fed := p.fed + 1, workers := p.workers[w := Some(p.fed)])
    case Store(w, value) =>
      var n := p.workers[w].value;
      p.(workers := p.workers[w := None], built := p.built[n := Some(value)], results := p.results + [Done(n, value)])
  }

  ghost predicate IsRun<T>(p: Pool<T>, events: seq<Event<T>>)
    decreases |events|
  {
    events == [] || (Enabled(p, events[0]) && IsRun(Step(p, events[0]), events[1..]))
  }

  ghost function After<T>(p: Pool<T>, events: seq<Event<T>>): Pool<T>
    requires IsRun(p, events)
    decreases |events|
  {
    if events == [] then p else After(Step(p, events[0]), events[1..])
  }

  // The candidates were all handed out and no worker has one any more.
  predicate Over<T>(p: Pool<T>) {
    p.fed == |p.built| && forall w :: 0 <= w < |p.workers| ==> p.workers[w].None?
  }

  // ---- What every step keeps ----

  ghost predicate Working<T>(p: Pool<T>, n: nat) {
    exists w :: 0 <= w < |p.workers| && p.workers[w] == Some(n)
  }

  ghost predicate Produced<T>(p: Pool<T>, n: nat) {
    exists k :: 0 <= k < |p.results| && p.results[k].index == n
  }

  // A candidate was not handed out, or one worker has it, or its result was stored once.
  ghost predicate CandidateSound<T>(p: Pool<T>, n: nat)
    requires n < |p.built|
  {
    && (n >= p.fed ==> !Working(p, n) && !Produced(p, n))
    && (n < p.fed ==> (Working(p, n) <==> !Produced(p, n)))
    && (p.built[n].Some? <==> Produced(p, n))
  }

  ghost predicate Sound<T>(p: Pool<T>) {
    && p.fed <= |p.built| && (|p.built| > 0 ==> |p.workers| > 0)
    && (forall n: nat :: n < |p.built| ==> CandidateSound(p, n))
    && (forall w :: 0 <= w < |p.workers| && p.workers[w].Some? ==> p.workers[w].value < p.fed)
    && (forall v, w :: 0 <= v < w < |p.workers| && p.workers[v].Some? ==> p.workers[v] != p.workers[w])
    && (forall k :: 0 <= k < |p.results| ==> p.results[k].index < |p.built| && p.built[p.results[k].index] == Some(p.results[k].value))
    && (forall j, k :: 0 <= j < k < |p.results| ==> p.results[j].index != p.results[k].index)
  }

  lemma FeedKeeps<T>(p: Pool<T>, w: nat)
    requires Sound(p) && Enabled(p, Feed(w))
    ensures Sound(Step(p, Feed(w)))
  {
    var q := Step(p, Feed(w));
    assert q.workers[w] == Some(p.fed);
    assert CandidateSound(p, p.fed);
    forall n: nat | n < |q.built|
      ensures CandidateSound(q, n)
    {
      assert CandidateSound(p, n);
      assert Produced(q, n) <==> Produced(p, n);
      if Working(p, n) {
        var v :| 0 <= v < |p.workers| && p.workers[v] == Some(n);
        assert q.workers[v] == Some(n);
      }
    }
  }

  lemma StoreKeeps<T>(p: Pool<T>, w: nat, value: T)
    requires Sound(p) && Enabled(p, Store(w, value))
    ensures Sound(Step(p, Store(w, value)))
  {
    var q := Step(p, Store(w, value));
    var own := p.workers[w].value;
    assert Working(p, own);
    assert CandidateSound(p, own);
    assert q.results[|p.results|].index == own;
    forall n: nat | n < |q.built|
      ensures CandidateSound(q, n)
    {
      assert CandidateSound(p, n);
      StoredFor(p, w, value, n);
    }
  }

  lemma StoredFor<T>(p: Pool<T>, w: nat, value: T, n: nat)
    requires Sound(p) && Enabled(p, Store(w, value)) && n < |p.built|
    ensures var q := Step(p, Store(w, value));
      && (Produced(q, n) <==> Produced(p, n) || n == p.workers[w].value)
      && (Working(q, n) <==> Working(p, n) && n != p.workers[w].value)
  {
    var q := Step(p, Store(w, value));
    var own := p.workers[w].value;
    assert q.results[|p.results|].index == own;
    if Produced(p, n) {
      var k :| 0 <= k < |p.results| && p.results[k].index == n;
      assert q.results[k].index == n;
    }
    if Working(p, n) && n != own {
      var v :| 0 <= v < |p.workers| && p.workers[v] == Some(n);
      assert q.workers[v] == Some(n);
    }
    if Working(q, n) {
      var v :| 0 <= v < |q.workers| && q.workers[v] == Some(n);
      assert p.workers[v] == Some(n) && v != w;
    }
  }

  lemma {:induction false} RunKeeps<T>(p: Pool<T>, events: seq<Event<T>>)
    requires Sound(p) && IsRun(p, events)
    ensures Sound(After(p, events)) && |After(p, events).built| == |p.built|
    decreases |events|
  {
    if events != [] {
      match events[0] {
        case Feed(w) => FeedKeeps(p, w);
        case Store(w, value) => StoreKeeps(p, w, value);
      }
      RunKeeps(Step(p, events[0]), events[1..]);
    }
  }

  lemma StartIsSound<T>(candidates: nat, concurrency: nat)
    requires concurrency > 0
    ensures Sound(Start<T>(candidates, concurrency))
  {
    var p := Start<T>(candidates, concurrency);
    forall n: nat | n < |p.built|
      ensures CandidateSound(p, n)
    {
    }
  }

  // ---- Main results ----

  // For every schedule of the workers, once the pool is through each candidate was built exactly once
  // and the result of candidate n stands at index n.
  lemma EveryResultAtItsIndex<T>(candidates: nat, concurrency: nat, events: seq<Event<T>>, n: nat)
      returns (k: nat)
    requires concurrency > 0 && n < candidates
    requires IsRun(Start<T>(candidates, concurrency), events) && Over(After(Start<T>(candidates, concurrency), events))
    ensures var p := After(Start<T>(candidates, concurrency), events);
      && |p.built| == candidates
      && k < |p.results| && p.results[k].index == n && p.built[n] == Some(p.results[k].value)
      && (forall j :: 0 <= j < |p.results| && p.results[j].index == n ==> j == k)
  {
    StartIsSound<T>(candidates, concurrency);
    RunKeeps(Start<T>(candidates, concurrency), events);
    var p := After(Start<T>(candidates, concurrency), events);
    assert CandidateSound(p, n);
    k :| 0 <= k < |p.results| && p.results[k].index == n;
  }

  // Until the pool is through some step is always possible, so the feeder is never left waiting.
  lemma NeverStuck<T>(candidates: nat, concurrency: nat, events: seq<Event<T>>, value: T) returns (e: Event<T>)
    requires concurrency > 0
    requires IsRun(Start<T>(candidates, concurrency), events) && !Over(After(Start<T>(candidates, concurrency), events))
    ensures Enabled(After(Start<T>(candidates, concurrency), events), e)
  {
    StartIsSound<T>(candidates, concurrency);
    RunKeeps(Start<T>(candidates, concurrency), events);
    var p := After(Start<T>(candidates, concurrency), events);
    if exists w :: 0 <= w < |p.workers| && p.workers[w].Some? {
      var w :| 0 <= w < |p.workers| && p.workers[w].Some?;
      e := Store(w, value);
    } else {
      e := Feed(0);
    }
  }

  // No more messages are built at once than the concurrency allows, and none by a worker without one to build.
  lemma {:induction false} WithinConcurrency<T>(p: Pool<T>, events: seq<Event<T>>)
    requires IsRun(p, events)
    ensures |After(p, events).workers| == |p.workers|
    decreases |events|
  {
    if events != [] {
      WithinConcurrency(Step(p, events[0]), events[1..]);
    }
  }

  lemma AtMostConcurrency<T>(candidates: nat, concurrency: nat, events: seq<Event<T>>)
    requires IsRun(Start<T>(candidates, concurrency), events)
    ensures var workers := |After(Start<T>(candidates, concurrency), events).workers|;
      workers <= concurrency && workers <= candidates && (workers == concurrency || workers == candidates)
  {
    WithinConcurrency(Start<T>(candidates, concurrency), events);
  }
}
