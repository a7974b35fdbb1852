/**
 The sequencer's parallel batch pipeline as a step relation.

 The sequencer's own steps (receive, spawn, flush, collect, submit) are interleaved in any order with
 those of its surroundings: the block producer feeds and closes the channel, and each compression
 worker finishes, or fails, whenever it likes.
 */
module Pipeline {
  import opened Basics
  import opened Wire

  const MAX_BLOCKS_HEAVY_BACKLOG: nat := 100
  const MAX_BLOCKS_MODERATE_BACKLOG: nat := 50
  const MAX_BLOCKS_LIGHT_BACKLOG: nat := 25
  const HEAVY_BACKLOG_THRESHOLD: nat := 200
  const MODERATE_BACKLOG_THRESHOLD: nat := 50
  const LIGHT_BACKLOG_THRESHOLD: nat := 10
  const MAX_CONCURRENT_PREPARATIONS: nat := 4

  datatype Config = Config(maxBlocksPerBatch: nat, minBatchSize: nat)

  function DynamicMaxBlocks(cfg: Config, backlog: nat): nat {
    if backlog >= HEAVY_BACKLOG_THRESHOLD then MAX_BLOCKS_HEAVY_BACKLOG
    else if backlog >= MODERATE_BACKLOG_THRESHOLD then MAX_BLOCKS_MODERATE_BACKLOG
    else if backlog >= LIGHT_BACKLOG_THRESHOLD then MAX_BLOCKS_LIGHT_BACKLOG
    else cfg.maxBlocksPerBatch
  }

  /** The checkpoint's skip test; zero means that nothing was submitted yet. */
  predicate ShouldSkip(lastSubmitted: nat, number: nat) {
    lastSubmitted != 0 && number <= lastSubmitted
  }

  datatype Prepared = Prepared(number: nat, batch: CompressedBatch)

  /** A worker's message. The program's failure message carries no number; here it does, for the bookkeeping. */
  datatype Outcome = Done(prepared: Prepared) | Failed(failedNumber: nat) {
    function Number(): nat {
      if Done? then prepared.number else failedNumber
    }
  }

  /** One call of the sink and its answer. */
  datatype Attempt = Attempt(batch: CompressedBatch, accepted: bool)

  /**
   `incoming` is the block channel, `workers` the running compression tasks, `results` the channel of
   finished preparations and `ready` the heap's array. The rest of the first group are the sequencer's
   own counters. The second group is history: every block taken from the channel, the blocks of batch `n`
   at `cut[n - 1]`, every sink call, the numbers whose preparation failed, the number popped from the
   heap and then lost to an error, and whether the final flush happened.
   */
  datatype State = State(
    incoming: seq<Block>, closed: bool, pending: seq<Block>,
    workers: map<nat, seq<Block>>, results: seq<Outcome>, inFlight: nat, ready: seq<Prepared>,
    nextNumber: nat, nextSubmission: nat, lastSubmitted: nat,

    received: seq<Block>, cut: seq<seq<Block>>, attempts: seq<Attempt>,
    prepFailed: set<nat>, lost: set<nat>, flushed: bool)

  /** A fresh sequencer that resumed from a checkpoint with `n` submitted batches: numbering still starts at 1. */
  function Init(n: nat): State {
    State([], false, [], map[], [], 0, [], 1, 1, n, [], [], [], {}, {}, false)
  }

  datatype Event =
    | Feed(block: Block)
    | Close
    | Finish(number: nat, ok: bool)
    | Receive
    | SpawnCatchUp
    | SpawnNormal
    | Flush
    | Collect
    | Submit(at: nat, sinkOk: bool, saveOk: bool)

  /** `ready[at]` is what peeking into the heap shows. */
  predicate IsLeast(ready: seq<Prepared>, at: nat) {
    at < |ready| && forall i :: 0 <= i < |ready| ==> ready[at].number <= ready[i].number
  }

  predicate Enabled(c: Codec, cfg: Config, s: State, e: Event) {
    match e
    case Feed(_) => !s.closed
    case Close => !s.closed
    case Finish(n, ok) => n in s.workers && (ok ==> c.encode(s.workers[n]).Some?)
    case Receive => s.incoming != []
    case SpawnCatchUp =>
      && s.inFlight < MAX_CONCURRENT_PREPARATIONS && s.pending != []
      && |s.pending| >= Max(DynamicMaxBlocks(cfg, |s.pending| + |s.incoming|) / 2, 1)
    case SpawnNormal => s.inFlight < MAX_CONCURRENT_PREPARATIONS && s.pending != []
    case Flush => s.closed && s.incoming == [] && s.pending != []
    case Collect => s.results != []
    case Submit(at, _, _) => IsLeast(s.ready, at) && s.ready[at].number == s.nextSubmission
  }

  function ReceiveBlock(s: State): State
    requires s.incoming != []
  {
    s.(incoming := s.incoming[1..], pending := s.pending + [s.incoming[0]], received := s.received + [s.incoming[0]])
  }

  /** Assign the next number to the first `k` pending blocks and start a worker on them. */
  function Spawn(s: State, k: nat): State
    requires k <= |s.pending|
  {
    s.(pending := s.pending[k..], workers := s.workers[s.nextNumber := s.pending[..k]],
       cut := s.cut + [s.pending[..k]], nextNumber := s.nextNumber + 1, inFlight := s.inFlight + 1)
  }

  function FlushPending(s: State): State {
    Spawn(s, |s.pending|).(flushed := true)
  }

  function Remove<T>(xs: seq<T>, at: nat): seq<T>
    requires at < |xs|
  {
    xs[..at] + xs[at + 1..]
  }

  function SubmitReady(s: State, at: nat, sinkOk: bool, saveOk: bool): State
    requires at < |s.ready|
  {
    var p := s.ready[at];
    var t := s.(ready := Remove(s.ready, at));
    if ShouldSkip(s.lastSubmitted, p.number) then
      t.(nextSubmission := s.nextSubmission + 1)
    else if !sinkOk then
      t.(attempts := s.attempts + [Attempt(p.batch, false)], lost := s.lost + {p.number})
    else
      var u := t.(attempts := s.attempts + [Attempt(p.batch, true)], lastSubmitted := Max(s.lastSubmitted, p.number));
      if !saveOk then u.(lost := s.lost + {p.number}) else u.(nextSubmission := s.nextSubmission + 1)
  }

  function FinishWorker(c: Codec, s: State, n: nat, ok: bool): State
    requires n in s.workers && (ok ==> c.encode(s.workers[n]).Some?)
  {
    var outcome :=
      if ok then Done(Prepared(n, MakeBatch(n, s.workers[n], c.encode(s.workers[n]).value))) else Failed(n);
    s.(workers := s.workers - {n}, results := s.results + [outcome])
  }

  function CollectResult(s: State): State
    requires s.results != []
  {
    var t := s.(results := s.results[1..], inFlight := SaturatingSub(s.inFlight, 1));
    match s.results[0]
    case Done(p) => t.(ready := s.ready + [p])
    case Failed(n) => t.(prepFailed := s.prepFailed + {n})
  }

  function Next(c: Codec, cfg: Config, s: State, e: Event): State
    requires Enabled(c, cfg, s, e)
  {
    match e
    case Feed(b) => s.(incoming := s.incoming + [b])
    case Close => s.(closed := true)
    case Finish(n, ok) => FinishWorker(c, s, n, ok)
    case Receive => ReceiveBlock(s)
    case SpawnCatchUp => Spawn(s, Min(|s.pending|, DynamicMaxBlocks(cfg, |s.pending| + |s.incoming|)))
    case SpawnNormal => Spawn(s, Min(|s.pending|, cfg.maxBlocksPerBatch))
    case Flush => FlushPending(s)
    case Collect => CollectResult(s)
    case Submit(at, sinkOk, saveOk) => SubmitReady(s, at, sinkOk, saveOk)
  }

  predicate ValidRun(c: Codec, cfg: Config, s: State, es: seq<Event>)
    decreases |es|
  {
    es == [] || (Enabled(c, cfg, s, es[0]) && ValidRun(c, cfg, Next(c, cfg, s, es[0]), es[1..]))
  }

  function Exec(c: Codec, cfg: Config, s: State, es: seq<Event>): State
    requires ValidRun(c, cfg, s, es)
    decreases |es|
  {
    if es == [] then s else Exec(c, cfg, Next(c, cfg, s, es[0]), es[1..])
  }

  lemma {:induction false} RunSnoc(c: Codec, cfg: Config, s: State, es: seq<Event>, e: Event)
    requires ValidRun(c, cfg, s, es) && Enabled(c, cfg, Exec(c, cfg, s, es), e)
    ensures ValidRun(c, cfg, s, es + [e])
    ensures Exec(c, cfg, s, es + [e]) == Next(c, cfg, Exec(c, cfg, s, es), e)
    decreases |es|
  {
    if es == [] {
      assert es + [e] == [e] && [e][1..] == [];
    } else {
      assert (es + [e])[1..] == es[1..] + [e];
      RunSnoc(c, cfg, Next(c, cfg, s, es[0]), es[1..], e);
    }
  }

  lemma {:induction false} RunSplit(c: Codec, cfg: Config, s: State, a: seq<Event>, b: seq<Event>)
    requires ValidRun(c, cfg, s, a + b)
    ensures ValidRun(c, cfg, s, a) && ValidRun(c, cfg, Exec(c, cfg, s, a), b)
    ensures Exec(c, cfg, s, a + b) == Exec(c, cfg, Exec(c, cfg, s, a), b)
    decreases |a|
  {
    if a == [] {
      assert a + b == b;
    } else {
      assert (a + b)[1..] == a[1..] + b;
      RunSplit(c, cfg, Next(c, cfg, s, a[0]), a[1..], b);
    }
  }

  function Numbers(ps: seq<Prepared>): seq<nat> {
    seq(|ps|, i requires 0 <= i < |ps| => ps[i].number)
  }

  function OutcomeNumbers(os: seq<Outcome>): seq<nat> {
    seq(|os|, i requires 0 <= i < |os| => os[i].Number())
  }

  function One(b: bool): nat {
    if b then 1 else 0
  }

  function Count(xs: seq<nat>, n: nat): nat {
    if xs == [] then 0 else One(xs[0] == n) + Count(xs[1..], n)
  }

  /**
   How often a number occurs in all the places an assigned number can be: behind the submission counter, with
   a running worker, in the results channel, in the heap, failed in preparation, or popped and lost.
   */
  function Places(s: State, n: nat): nat {
    One(1 <= n < s.nextSubmission) + One(n in s.workers) + Count(OutcomeNumbers(s.results), n)
    + Count(Numbers(s.ready), n) + One(n in s.prepFailed) + One(n in s.lost)
  }

  /** Every assigned number is in exactly one place, and no other number is anywhere. */
  ghost predicate AllPlaced(s: State) {
    forall n: nat :: Places(s, n) == One(1 <= n <= |s.cut|)
  }

  /** `p` is the batch that belongs to its number. */
  ghost predicate IsPreparedFrom(c: Codec, cut: seq<seq<Block>>, p: Prepared) {
    && 1 <= p.number <= |cut|
    && c.encode(cut[p.number - 1]).Some?
    && p.batch == MakeBatch(p.number, cut[p.number - 1], c.encode(cut[p.number - 1]).value)
  }

  ghost predicate AllPrepared(c: Codec, cut: seq<seq<Block>>, ready: seq<Prepared>) {
    forall i :: 0 <= i < |ready| ==> IsPreparedFrom(c, cut, ready[i])
  }

  ghost predicate Contents(c: Codec, s: State) {
    && s.received == Flatten(s.cut) + s.pending
    && (forall n :: n in s.workers ==> 1 <= n <= |s.cut| && s.workers[n] == s.cut[n - 1])
    && (forall i :: 0 <= i < |s.results| && s.results[i].Done? ==> IsPreparedFrom(c, s.cut, s.results[i].prepared))
    && AllPrepared(c, s.cut, s.ready)
  }

  /** The counters agree with the collections. */
  ghost predicate Counters(s: State) {
    && s.nextNumber == |s.cut| + 1
    && 1 <= s.nextSubmission <= s.nextNumber
    && s.inFlight == |s.workers| + |s.results|
    && s.inFlight <= MAX_CONCURRENT_PREPARATIONS + One(s.flushed)
    && (s.flushed ==> s.closed && s.incoming == [] && s.pending == [])
    && s.lost <= {s.nextSubmission}
  }

  ghost predicate Inv(c: Codec, s: State) {
    Counters(s) && AllPlaced(s) && Contents(c, s)
  }

  lemma {:induction false} CountAppend(a: seq<nat>, b: seq<nat>, n: nat)
    ensures Count(a + b, n) == Count(a, n) + Count(b, n)
  {
    if a == [] {
      assert a + b == b;
    } else {
      assert (a + b)[1..] == a[1..] + b;
      CountAppend(a[1..], b, n);
    }
  }

  lemma CountSnoc(a: seq<nat>, x: nat, n: nat)
    ensures Count(a + [x], n) == Count(a, n) + One(x == n)
  {
    CountAppend(a, [x], n);
    assert [x][1..] == [];
  }

  lemma CountRemove(ps: seq<Prepared>, at: nat, n: nat)
    requires at < |ps|
    ensures Count(Numbers(ps), n) == Count(Numbers(Remove(ps, at)), n) + One(ps[at].number == n)
  {
    var ns := Numbers(ps);
    assert ns == (ns[..at] + [ns[at]]) + ns[at + 1..];
    CountAppend(ns[..at] + [ns[at]], ns[at + 1..], n);
    CountSnoc(ns[..at], ns[at], n);
    assert Numbers(Remove(ps, at)) == ns[..at] + ns[at + 1..];
    CountAppend(ns[..at], ns[at + 1..], n);
  }

  lemma SpawnKeepsContents(c: Codec, s: State, k: nat)
    requires Counters(s) && Contents(c, s) && k <= |s.pending|
    ensures Contents(c, Spawn(s, k))
  {
    FlattenSnoc(s.cut, s.pending[..k]);
    assert s.pending == s.pending[..k] + s.pending[k..];
    assert s.received == (Flatten(s.cut) + s.pending[..k]) + s.pending[k..];
  }

  lemma SpawnKeepsPlaces(s: State, k: nat)
    requires Counters(s) && AllPlaced(s) && k <= |s.pending|
    ensures AllPlaced(Spawn(s, k)) && |Spawn(s, k).workers| == |s.workers| + 1
  {
    var t := Spawn(s, k);
    assert Places(s, s.nextNumber) == 0;
    assert t.workers.Keys == s.workers.Keys + {s.nextNumber};
    forall n: nat ensures Places(t, n) == One(1 <= n <= |t.cut|) {
      assert Places(t, n) == Places(s, n) + One(n == s.nextNumber);
    }
  }

  lemma SpawnKeepsInv(c: Codec, s: State, k: nat)
    requires Inv(c, s) && k <= |s.pending|
    requires s.inFlight < MAX_CONCURRENT_PREPARATIONS && s.pending != []
    ensures Inv(c, Spawn(s, k))
  {
    SpawnKeepsContents(c, s, k);
    SpawnKeepsPlaces(s, k);
  }

  lemma FinishKeepsPlaces(c: Codec, s: State, n: nat, ok: bool)
    requires AllPlaced(s) && n in s.workers && (ok ==> c.encode(s.workers[n]).Some?)
    ensures AllPlaced(FinishWorker(c, s, n, ok))
  {
    var t := FinishWorker(c, s, n, ok);
    assert OutcomeNumbers(t.results) == OutcomeNumbers(s.results) + [n];
    forall m: nat ensures Places(t, m) == One(1 <= m <= |t.cut|) {
      CountSnoc(OutcomeNumbers(s.results), n, m);
      assert Places(t, m) == Places(s, m);
    }
  }

  lemma FinishKeepsInv(c: Codec, s: State, n: nat, ok: bool)
    requires Inv(c, s) && n in s.workers && (ok ==> c.encode(s.workers[n]).Some?)
    ensures Inv(c, FinishWorker(c, s, n, ok))
  {
    FinishKeepsPlaces(c, s, n, ok);
    assert FinishWorker(c, s, n, ok).workers.Keys == s.workers.Keys - {n};
  }

  lemma CollectKeepsPlaces(s: State)
    requires AllPlaced(s) && s.results != []
    ensures AllPlaced(CollectResult(s))
  {
    var t := CollectResult(s);
    var n := s.results[0].Number();
    var ns := OutcomeNumbers(s.results);
    assert ns[0] == n && ns[1..] == OutcomeNumbers(t.results);
    assert Places(s, n) <= 1;
    if s.results[0].Done? {
      assert Numbers(t.ready) == Numbers(s.ready) + [n];
    }
    forall m: nat ensures Places(t, m) == One(1 <= m <= |t.cut|) {
      CountSnoc(Numbers(s.ready), n, m);
      assert Places(t, m) == Places(s, m);
    }
  }

  lemma CollectKeepsInv(c: Codec, s: State)
    requires Inv(c, s) && s.results != []
    ensures Inv(c, CollectResult(s))
    ensures s.inFlight > 0
  {
    CollectKeepsPlaces(s);
  }

  /** The number that was lost cannot be in the heap, so after a loss nothing is submitted any more. */
  lemma NothingAfterLoss(s: State, at: nat)
    requires Counters(s) && AllPlaced(s) && IsLeast(s.ready, at) && s.ready[at].number == s.nextSubmission
    ensures s.lost == {} && s.nextSubmission < s.nextNumber
  {
    CountRemove(s.ready, at, s.nextSubmission);
    assert Places(s, s.nextSubmission) <= 1;
  }

  lemma SubmitKeepsPlaces(s: State, at: nat, sinkOk: bool, saveOk: bool)
    requires Counters(s) && AllPlaced(s) && IsLeast(s.ready, at) && s.ready[at].number == s.nextSubmission
    ensures AllPlaced(SubmitReady(s, at, sinkOk, saveOk))
  {
    var t := SubmitReady(s, at, sinkOk, saveOk);
    NothingAfterLoss(s, at);
    forall m: nat ensures Places(t, m) == One(1 <= m <= |t.cut|) {
      CountRemove(s.ready, at, m);
      assert Places(t, m) == Places(s, m);
    }
  }

  lemma SubmitKeepsContents(c: Codec, s: State, at: nat, sinkOk: bool, saveOk: bool)
    requires Contents(c, s) && at < |s.ready|
    ensures Contents(c, SubmitReady(s, at, sinkOk, saveOk))
  {
    RemoveKeepsPrepared(c, s.cut, s.ready, at);
  }

  lemma RemoveKeepsPrepared(c: Codec, cut: seq<seq<Block>>, ready: seq<Prepared>, at: nat)
    requires AllPrepared(c, cut, ready) && at < |ready|
    ensures AllPrepared(c, cut, Remove(ready, at))
  {
    var rest := Remove(ready, at);
    assert forall i :: 0 <= i < |rest| ==> rest[i] == if i < at then ready[i] else ready[i + 1];
  }

  lemma SubmitKeepsInv(c: Codec, s: State, at: nat, sinkOk: bool, saveOk: bool)
    requires Inv(c, s) && IsLeast(s.ready, at) && s.ready[at].number == s.nextSubmission
    ensures Inv(c, SubmitReady(s, at, sinkOk, saveOk))
  {
    NothingAfterLoss(s, at);
    SubmitKeepsPlaces(s, at, sinkOk, saveOk);
    SubmitKeepsContents(c, s, at, sinkOk, saveOk);
  }

  lemma ChannelKeepsPlaces(s: State, t: State)
    requires AllPlaced(s)
    requires t == s.(incoming := t.incoming, closed := t.closed, pending := t.pending, received := t.received)
    ensures AllPlaced(t)
  {
    forall n: nat ensures Places(t, n) == One(1 <= n <= |t.cut|) {
      assert Places(t, n) == Places(s, n);
    }
  }

  lemma ProducerKeepsInv(c: Codec, s: State, t: State)
    requires Inv(c, s) && !s.closed && t == s.(incoming := t.incoming, closed := t.closed)
    ensures Inv(c, t)
  {
    ChannelKeepsPlaces(s, t);
  }

  lemma ReceiveKeepsInv(c: Codec, s: State)
    requires Inv(c, s) && s.incoming != []
    ensures Inv(c, ReceiveBlock(s))
  {
    ChannelKeepsPlaces(s, ReceiveBlock(s));
    assert s.received + [s.incoming[0]] == Flatten(s.cut) + (s.pending + [s.incoming[0]]);
  }

  lemma FlushKeepsInv(c: Codec, s: State)
    requires Inv(c, s) && s.closed && s.incoming == [] && s.pending != []
    ensures Inv(c, FlushPending(s))
  {
    SpawnKeepsContents(c, s, |s.pending|);
    SpawnKeepsPlaces(s, |s.pending|);
    var t := FlushPending(s);
    forall n: nat ensures Places(t, n) == One(1 <= n <= |t.cut|) {
      assert Places(t, n) == Places(Spawn(s, |s.pending|), n);
    }
  }

  /** Each batch takes the oldest pending blocks; only the flush takes all of them, whatever their number. */
  lemma BatchesAreTakenInOrder(c: Codec, cfg: Config, s: State, e: Event)
    requires Enabled(c, cfg, s, e) && (e.SpawnCatchUp? || e.SpawnNormal? || e.Flush?)
    ensures var t := Next(c, cfg, s, e);
      && |t.cut| == |s.cut| + 1
      && t.cut[|s.cut|] + t.pending == s.pending
      && t.workers == s.workers[s.nextNumber := t.cut[|s.cut|]]
      && (e.SpawnNormal? ==> |t.cut[|s.cut|]| == Min(|s.pending|, cfg.maxBlocksPerBatch))
      && (e.Flush? ==> t.pending == [])
  {
  }

  /** A catch-up batch is at least half as large as the backlog allows, and as large as that if enough is pending. */
  lemma CatchUpBatchSizes(c: Codec, cfg: Config, s: State)
    requires Enabled(c, cfg, s, SpawnCatchUp)
    ensures var k, backlog := |Next(c, cfg, s, SpawnCatchUp).cut[|s.cut|]|, |s.pending| + |s.incoming|;
      && (backlog >= 200 ==> k == Min(|s.pending|, 100) >= 50)
      && (50 <= backlog < 200 ==> k == Min(|s.pending|, 50) >= 25)
      && (10 <= backlog < 50 ==> k == Min(|s.pending|, 25) >= 12)
      && (backlog < 10 ==> k == Min(|s.pending|, cfg.maxBlocksPerBatch) && 2 * k + 1 >= cfg.maxBlocksPerBatch)
  {
    var most := DynamicMaxBlocks(cfg, |s.pending| + |s.incoming|);
    assert |Next(c, cfg, s, SpawnCatchUp).cut[|s.cut|]| == Min(|s.pending|, most);
  }

  /** Each step, whoever takes it and in whatever order, keeps the invariant. */
  lemma StepKeepsInv(c: Codec, cfg: Config, s: State, e: Event)
    requires Inv(c, s) && Enabled(c, cfg, s, e)
    ensures Inv(c, Next(c, cfg, s, e))
  {
    match e
    case Feed(_) => ProducerKeepsInv(c, s, Next(c, cfg, s, e));
    case Close => ProducerKeepsInv(c, s, Next(c, cfg, s, e));
    case Finish(n, ok) => FinishKeepsInv(c, s, n, ok);
    case Receive => ReceiveKeepsInv(c, s);
    case SpawnCatchUp => SpawnKeepsInv(c, s, Min(|s.pending|, DynamicMaxBlocks(cfg, |s.pending| + |s.incoming|)));
    case SpawnNormal => SpawnKeepsInv(c, s, Min(|s.pending|, cfg.maxBlocksPerBatch));
    case Flush => FlushKeepsInv(c, s);
    case Collect => CollectKeepsInv(c, s);
    case Submit(at, sinkOk, saveOk) => SubmitKeepsInv(c, s, at, sinkOk, saveOk);
  }

  lemma {:induction false} RunKeepsInv(c: Codec, cfg: Config, s: State, es: seq<Event>)
    requires Inv(c, s) && ValidRun(c, cfg, s, es)
    ensures Inv(c, Exec(c, cfg, s, es))
    decreases |es|
  {
    if es != [] {
      StepKeepsInv(c, cfg, s, es[0]);
      RunKeepsInv(c, cfg, Next(c, cfg, s, es[0]), es[1..]);
    }
  }

  lemma InitInv(c: Codec, n: nat)
    ensures Inv(c, Init(n))
  {
    assert Flatten<Block>([]) == [];
  }

  /** The six places are pairwise disjoint, without repetition, and together hold the numbers 1 .. nextNumber - 1. */
  lemma NumbersPartition(c: Codec, cfg: Config, n0: nat, es: seq<Event>, n: nat)
    requires ValidRun(c, cfg, Init(n0), es)
    ensures var s := Exec(c, cfg, Init(n0), es); Places(s, n) == One(1 <= n < s.nextNumber)
  {
    InitInv(c, n0);
    RunKeepsInv(c, cfg, Init(n0), es);
  }

  /**
   The in-flight counter is exact in every reachable state, so its saturating subtraction never saturates;
   it stays within the worker limit and only the final flush can take it one over.
   */
  lemma InFlightIsExact(c: Codec, cfg: Config, n0: nat, es: seq<Event>)
    requires ValidRun(c, cfg, Init(n0), es)
    ensures var s := Exec(c, cfg, Init(n0), es);
      && s.inFlight == |s.workers| + |s.results|
      && s.inFlight <= 5
      && (s.inFlight == 5 ==> Flush in es)
      && (Enabled(c, cfg, s, Collect) ==> Next(c, cfg, s, Collect).inFlight + 1 == s.inFlight)
  {
    InitInv(c, n0);
    RunKeepsInv(c, cfg, Init(n0), es);
    FlushedByFlush(c, cfg, Init(n0), es);
  }

  lemma {:induction false} FlushedByFlush(c: Codec, cfg: Config, s: State, es: seq<Event>)
    requires ValidRun(c, cfg, s, es)
    ensures Exec(c, cfg, s, es).flushed ==> s.flushed || Flush in es
    decreases |es|
  {
    if es != [] {
      FlushedByFlush(c, cfg, Next(c, cfg, s, es[0]), es[1..]);
      assert es[0] in es && forall e :: e in es[1..] ==> e in es;
    }
  }
}
