/** What happens after the block channel closes: the drain loop's progress, its end, and when it cannot end. */
module Drain {
  import opened Basics
  import opened Wire
  import opened Pipeline
  import opened Sequential
  import opened Refinement

  /** The producer is gone and every block has been cut into some batch. */
  predicate Draining(s: State) {
    s.closed && s.incoming == [] && s.pending == []
  }

  /** How many steps are left: a running worker still has to finish, be collected and be submitted. */
  function Work(s: State): nat {
    3 * |s.workers| + 2 * |s.results| + |s.ready|
  }

  lemma DrainStep(c: Codec, cfg: Config, s: State, e: Event)
    requires Draining(s) && Enabled(c, cfg, s, e)
    ensures Draining(Next(c, cfg, s, e)) && Work(Next(c, cfg, s, e)) < Work(s)
  {
    if e.Finish? {
      assert (s.workers - {e.number}).Keys == s.workers.Keys - {e.number};
    }
  }

  /** With or without failures, a run that starts in a draining state is over after at most `Work(s)` steps. */
  lemma {:induction false} DrainIsBounded(c: Codec, cfg: Config, s: State, es: seq<Event>)
    requires Draining(s) && ValidRun(c, cfg, s, es)
    ensures |es| + Work(Exec(c, cfg, s, es)) <= Work(s)
    decreases |es|
  {
    if es != [] {
      DrainStep(c, cfg, s, es[0]);
      DrainIsBounded(c, cfg, Next(c, cfg, s, es[0]), es[1..]);
    }
  }

  lemma {:induction false} CountIsMember(xs: seq<nat>, n: nat)
    ensures Count(xs, n) > 0 <==> n in xs
  {
    if xs != [] {
      CountIsMember(xs[1..], n);
      assert xs == [xs[0]] + xs[1..];
    }
  }

  /** A batch in the heap is not behind the submission counter. */
  lemma ReadyIsAhead(s: State, i: nat)
    requires AllPlaced(s) && i < |s.ready|
    ensures s.nextSubmission <= s.ready[i].number <= |s.cut| || s.nextSubmission == 0
  {
    var n := s.ready[i].number;
    assert Numbers(s.ready)[i] == n;
    CountIsMember(Numbers(s.ready), n);
    assert Places(s, n) == One(1 <= n <= |s.cut|);
  }

  /** No ready batch is the next one to submit. */
  predicate NothingToSubmit(s: State) {
    forall at :: 0 <= at < |s.ready| ==> !(IsLeast(s.ready, at) && s.ready[at].number == s.nextSubmission)
  }

  /** No worker runs, nothing waits in the results channel, and no batch can be submitted. */
  ghost predicate Quiescent(s: State) {
    s.workers == map[] && s.results == [] && NothingToSubmit(s)
  }

  /** The head of the line cannot be waiting in the heap of a quiescent state. */
  lemma HeadNotReady(s: State)
    requires AllPlaced(s) && s.nextSubmission >= 1 && Quiescent(s)
    ensures Count(Numbers(s.ready), s.nextSubmission) == 0
  {
    CountIsMember(Numbers(s.ready), s.nextSubmission);
    if s.nextSubmission in Numbers(s.ready) {
      var at :| 0 <= at < |s.ready| && Numbers(s.ready)[at] == s.nextSubmission;
      forall i | 0 <= i < |s.ready| ensures s.ready[at].number <= s.ready[i].number {
        ReadyIsAhead(s, i);
      }
      assert false;
    }
  }

  /**
   When everything has come to rest, all cut batches have been submitted (and the heap is empty) exactly when no
   preparation failed and no popped batch was lost. One failure blocks every later batch for good.
   */
  lemma DrainedIffNoFailure(c: Codec, s: State)
    requires Inv(c, s) && Quiescent(s)
    ensures s.nextSubmission == s.nextNumber && s.ready == [] <==> s.prepFailed == {} && s.lost == {}
  {
    HeadNotReady(s);
    var head := s.nextSubmission;
    assert Places(s, head) == One(1 <= head <= |s.cut|);
    if s.ready != [] {
      ReadyIsAhead(s, 0);
    }
    if head == s.nextNumber {
      forall n: nat ensures n !in s.prepFailed && n !in s.lost {
        assert Places(s, n) == One(1 <= n <= |s.cut|);
      }
    }
  }

  /** The number's preparation failed, or it was popped and lost to an error. */
  predicate Unrecoverable(s: State, n: nat) {
    n in s.prepFailed || n in s.lost
  }

  /** A failed number stays failed, and the submission counter never passes it, however the run goes on. */
  lemma {:induction false} FailureCapsProgress(c: Codec, cfg: Config, s: State, es: seq<Event>, n: nat)
    requires Inv(c, s) && ValidRun(c, cfg, s, es) && Unrecoverable(s, n)
    ensures Unrecoverable(Exec(c, cfg, s, es), n) && Exec(c, cfg, s, es).nextSubmission <= n
    decreases |es|
  {
    if es == [] {
      assert Places(s, n) == One(1 <= n <= |s.cut|);
    } else {
      StepKeepsInv(c, cfg, s, es[0]);
      FailureCapsProgress(c, cfg, Next(c, cfg, s, es[0]), es[1..], n);
    }
  }

  /** At rest the heap holds exactly the numbers from the submission counter on that have not failed. */
  lemma RestingHeap(c: Codec, s: State, n: nat)
    requires Inv(c, s) && Quiescent(s)
    ensures n in Numbers(s.ready) <==> s.nextSubmission <= n < s.nextNumber && !Unrecoverable(s, n)
  {
    CountIsMember(Numbers(s.ready), n);
    assert Places(s, n) == One(1 <= n <= |s.cut|);
  }

  /** What the drain loop tests before each round. */
  predicate KeepsWaiting(s: State) {
    s.inFlight > 0 || s.ready != []
  }

  /** No step of the sequencer or of its surroundings is possible any more. */
  ghost predicate AtRest(c: Codec, cfg: Config, s: State) {
    forall e :: !Enabled(c, cfg, s, e)
  }

  lemma DrainedIsAtRest(c: Codec, cfg: Config, s: State)
    requires Draining(s) && Quiescent(s)
    ensures AtRest(c, cfg, s)
  {
    forall e ensures !Enabled(c, cfg, s, e) {
    }
  }

  /**
   When nothing moves any more, the drain loop leaves exactly when all batches from the submission counter on have
   failed; a single sound batch behind a failed one keeps it waiting for ever, because no step is possible.
   */
  lemma WaitsForeverIff(c: Codec, cfg: Config, s: State)
    requires Inv(c, s) && Draining(s) && Quiescent(s)
    ensures AtRest(c, cfg, s)
    ensures KeepsWaiting(s) <==> exists n :: s.nextSubmission <= n < s.nextNumber && !Unrecoverable(s, n)
  {
    DrainedIsAtRest(c, cfg, s);
    if KeepsWaiting(s) {
      RestingHeap(c, s, Numbers(s.ready)[0]);
    } else {
      forall n | s.nextSubmission <= n < s.nextNumber ensures Unrecoverable(s, n) {
        RestingHeap(c, s, n);
      }
    }
  }

  /** A run grown by one step. */
  lemma OneMore(c: Codec, cfg: Config, n0: nat, es: seq<Event>, s: State, e: Event)
    returns (es': seq<Event>, s': State)
    requires ValidRun(c, cfg, Init(n0), es) && Exec(c, cfg, Init(n0), es) == s && Enabled(c, cfg, s, e)
    ensures es' == es + [e] && s' == Next(c, cfg, s, e)
    ensures ValidRun(c, cfg, Init(n0), es') && Exec(c, cfg, Init(n0), es') == s'
  {
    RunSnoc(c, cfg, Init(n0), es, e);
    es', s' := es + [e], Next(c, cfg, s, e);
  }

  /** Two batches of one block each; the preparation of the first fails. */
  function BlockedRun(b: Block): seq<Event> {
    [Feed(b), Receive, SpawnNormal, Feed(b), Close, Receive, Flush]
    + [Finish(1, false), Finish(2, true), Collect, Collect]
  }

  /** The wait without end happens: the second batch sits in the heap, the first is nowhere, and nothing can move. */
  lemma BlockedRunWaitsForever(c: Codec, cfg: Config, b: Block)
    requires c.encode([b]).Some? && cfg.maxBlocksPerBatch >= 1
    ensures ValidRun(c, cfg, Init(0), BlockedRun(b))
    ensures var s := Exec(c, cfg, Init(0), BlockedRun(b));
      Draining(s) && AtRest(c, cfg, s) && KeepsWaiting(s) && s.attempts == [] && s.received == [b, b]
  {
    var es, s := TwoBatchesFlushed(c, cfg, b);
    es, s := OneMore(c, cfg, 0, es, s, Finish(1, false));
    assert s.workers == map[2 := [b]];
    es, s := OneMore(c, cfg, 0, es, s, Finish(2, true));
    var second := Prepared(2, MakeBatch(2, [b], c.encode([b]).value));
    assert s.workers == map[] && s.results == [Outcome.Failed(1), Done(second)];
    es, s := OneMore(c, cfg, 0, es, s, Collect);
    es, s := OneMore(c, cfg, 0, es, s, Collect);
    assert s.ready == [second] && s.results == [];
    assert es == BlockedRun(b);
    DrainedIsAtRest(c, cfg, s);
  }

  lemma OneBatchSpawned(c: Codec, cfg: Config, b: Block) returns (es: seq<Event>, s: State)
    requires cfg.maxBlocksPerBatch >= 1
    ensures es == [Feed(b), Receive, SpawnNormal]
    ensures ValidRun(c, cfg, Init(0), es) && Exec(c, cfg, Init(0), es) == s
    ensures s == Init(0).(workers := map[1 := [b]], received := [b], cut := [[b]], nextNumber := 2, inFlight := 1)
  {
    es, s := OneMore(c, cfg, 0, [], Init(0), Feed(b));
    es, s := OneMore(c, cfg, 0, es, s, Receive);
    assert s.pending == [b] && [b][..1] == [b] && [b][1..] == [];
    es, s := OneMore(c, cfg, 0, es, s, SpawnNormal);
  }

  lemma TwoBatchesFlushed(c: Codec, cfg: Config, b: Block) returns (es: seq<Event>, s: State)
    requires cfg.maxBlocksPerBatch >= 1
    ensures es == [Feed(b), Receive, SpawnNormal, Feed(b), Close, Receive, Flush]
    ensures ValidRun(c, cfg, Init(0), es) && Exec(c, cfg, Init(0), es) == s
    ensures Draining(s) && s.workers == map[1 := [b], 2 := [b]] && s.results == [] && s.ready == []
    ensures s.attempts == [] && s.received == [b, b] && s.nextSubmission == 1 && s.inFlight == 2
  {
    es, s := OneBatchSpawned(c, cfg, b);
    es, s := OneMore(c, cfg, 0, es, s, Feed(b));
    es, s := OneMore(c, cfg, 0, es, s, Close);
    es, s := OneMore(c, cfg, 0, es, s, Receive);
    assert s.pending == [b] && [b][..1] == [b] && [b][1..] == [];
    es, s := OneMore(c, cfg, 0, es, s, Flush);
    assert s.workers == map[1 := [b], 2 := [b]];
  }

  /** The loop can also leave with blocks lost: here the only batch fails, and the answer is Complete. */
  function LossyRun(b: Block): seq<Event> {
    [Feed(b), Close, Receive, Flush, Finish(1, false), Collect]
  }

  lemma CompleteWithLoss(c: Codec, cfg: Config, b: Block)
    ensures ValidRun(c, cfg, Init(0), LossyRun(b))
    ensures var s := Exec(c, cfg, Init(0), LossyRun(b));
      Draining(s) && !KeepsWaiting(s) && s.attempts == [] && s.received == [b]
  {
    var es, s := OneBatchFlushed(c, cfg, 0, b);
    es, s := OneMore(c, cfg, 0, es, s, Finish(1, false));
    es, s := OneMore(c, cfg, 0, es, s, Collect);
    assert es == LossyRun(b);
  }

  /**
   While the results channel is empty and the head of the line is not ready, a drain loop that does not yield gains
   nothing: only a worker can take a step.
   */
  lemma OnlyWorkersCanMove(c: Codec, cfg: Config, s: State, e: Event)
    requires Draining(s) && s.results == [] && NothingToSubmit(s) && Enabled(c, cfg, s, e)
    ensures e.Finish?
  {
  }

  /** This happens without any failure: the second of two batches is ready, the first is still with its worker. */
  function StarvingRun(b: Block): seq<Event> {
    [Feed(b), Receive, SpawnNormal, Feed(b), Close, Receive, Flush] + [Finish(2, true), Collect]
  }

  lemma StarvingRunNeedsAWorker(c: Codec, cfg: Config, b: Block)
    requires c.encode([b]).Some? && cfg.maxBlocksPerBatch >= 1
    ensures ValidRun(c, cfg, Init(0), StarvingRun(b)) && FaultFree(StarvingRun(b))
    ensures var s := Exec(c, cfg, Init(0), StarvingRun(b));
      && Draining(s) && s.workers != map[] && s.ready != []
      && forall e :: Enabled(c, cfg, s, e) ==> e.Finish?
  {
    StarvingRunEnds(c, cfg, b);
    var s := Exec(c, cfg, Init(0), StarvingRun(b));
    forall e | Enabled(c, cfg, s, e) ensures e.Finish? {
      OnlyWorkersCanMove(c, cfg, s, e);
    }
  }

  lemma StarvingRunEnds(c: Codec, cfg: Config, b: Block)
    requires c.encode([b]).Some? && cfg.maxBlocksPerBatch >= 1
    ensures ValidRun(c, cfg, Init(0), StarvingRun(b))
    ensures var s := Exec(c, cfg, Init(0), StarvingRun(b));
      Draining(s) && 1 in s.workers && s.results == [] && |s.ready| == 1 && NothingToSubmit(s)
  {
    var es, s := TwoBatchesFlushed(c, cfg, b);
    es, s := OneMore(c, cfg, 0, es, s, Finish(2, true));
    var second := Prepared(2, MakeBatch(2, [b], c.encode([b]).value));
    assert s.results == [Done(second)] && 1 in s.workers;
    es, s := OneMore(c, cfg, 0, es, s, Collect);
    assert s.ready == [second] && s.results == [];
    assert es == StarvingRun(b);
  }

  predicate FaultFree(es: seq<Event>) {
    forall e :: e in es ==> (e.Finish? ==> e.ok) && (e.Submit? ==> e.sinkOk && e.saveOk)
  }

  /** Every block the producer ever put into the channel, in order. */
  function FedBlocks(es: seq<Event>): seq<Block> {
    if es == [] then [] else (if es[0].Feed? then [es[0].block] else []) + FedBlocks(es[1..])
  }

  /** The blocks that have left the producer: those taken from the channel, then those still in it. */
  function Taken(s: State): seq<Block> {
    s.received + s.incoming
  }

  lemma FedStep(c: Codec, cfg: Config, s: State, e: Event)
    requires Enabled(c, cfg, s, e)
    ensures Taken(Next(c, cfg, s, e)) == Taken(s) + (if e.Feed? then [e.block] else [])
  {
    match e
    case Feed(b) => Regrouped(s.received, s.incoming, [b]);
    case Receive =>
      Regrouped(s.received, [s.incoming[0]], s.incoming[1..]);
      assert s.incoming == [s.incoming[0]] + s.incoming[1..];
    case _ =>
      SameTaken(s, Next(c, cfg, s, e));
  }

  lemma SameTaken(s: State, t: State)
    requires t.received == s.received && t.incoming == s.incoming
    ensures Taken(t) == Taken(s) + []
  {
  }

  lemma {:induction false} FedIsReceivedOrWaiting(c: Codec, cfg: Config, s: State, es: seq<Event>)
    requires ValidRun(c, cfg, s, es)
    ensures Taken(Exec(c, cfg, s, es)) == Taken(s) + FedBlocks(es)
    decreases |es|
  {
    if es == [] {
      assert Taken(s) + [] == Taken(s);
    } else {
      var fed := if es[0].Feed? then [es[0].block] else [];
      FedStep(c, cfg, s, es[0]);
      FedIsReceivedOrWaiting(c, cfg, Next(c, cfg, s, es[0]), es[1..]);
      Regrouped(Taken(s), fed, FedBlocks(es[1..]));
    }
  }

  /** Preparation failures are recorded only when a worker fails, losses only when the sink or the save fails. */
  ghost predicate Unharmed(s: State) {
    && s.prepFailed == {} && s.lost == {}
    && forall i :: 0 <= i < |s.results| ==> s.results[i].Done?
  }

  lemma {:induction false} FaultFreeIsUnharmed(c: Codec, cfg: Config, s: State, es: seq<Event>)
    requires Unharmed(s) && FaultFree(es) && ValidRun(c, cfg, s, es)
    ensures Unharmed(Exec(c, cfg, s, es))
    decreases |es|
  {
    if es != [] {
      assert es[0] in es && forall e :: e in es[1..] ==> e in es;
      assert Unharmed(Next(c, cfg, s, es[0]));
      FaultFreeIsUnharmed(c, cfg, Next(c, cfg, s, es[0]), es[1..]);
    }
  }

  lemma RestIsQuiescent(c: Codec, cfg: Config, s: State)
    requires AtRest(c, cfg, s)
    ensures Draining(s) && Quiescent(s)
  {
    assert !Enabled(c, cfg, s, Close);
    assert !Enabled(c, cfg, s, Receive);
    assert !Enabled(c, cfg, s, Flush);
    assert !Enabled(c, cfg, s, Collect);
    forall n: nat ensures n !in s.workers {
      assert !Enabled(c, cfg, s, Finish(n, false));
    }
    forall at | 0 <= at < |s.ready| ensures !(IsLeast(s.ready, at) && s.ready[at].number == s.nextSubmission) {
      assert !Enabled(c, cfg, s, Submit(at, true, true));
    }
  }

  /** All blocks in the first `n` batches, which a sequencer resumed from `n` skips. */
  function Skipped(s: State, n: nat): seq<Block> {
    Flatten(s.cut[..Min(n, |s.cut|)])
  }

  /** The sink calls were all accepted and carry every block ever fed but the skipped ones, each once and in order. */
  ghost predicate DeliveredAllBut(c: Codec, n0: nat, s: State, fed: seq<Block>) {
    && (forall i :: 0 <= i < |s.attempts| ==> s.attempts[i].accepted)
    && fed == Skipped(s, n0) + LoggedBlocks(c, s.attempts)
  }

  /**
   Without failures, from any checkpoint: when nothing is waiting or in flight any more, everything fed is on L1
   except the blocks of the first n0 batches.
   */
  lemma CompleteMeansDelivered(c: Codec, cfg: Config, n0: nat, es: seq<Event>)
    requires RoundTrips(c) && ValidRun(c, cfg, Init(n0), es) && FaultFree(es)
    requires var s := Exec(c, cfg, Init(n0), es);
      Draining(s) && s.inFlight == 0 && s.ready == []
    ensures DeliveredAllBut(c, n0, Exec(c, cfg, Init(n0), es), FedBlocks(es))
    ensures FedBlocks(es) == Flatten(Exec(c, cfg, Init(n0), es).cut)
  {
    var s := Exec(c, cfg, Init(n0), es);
    InitInv(c, n0);
    RunKeepsInv(c, cfg, Init(n0), es);
    assert s.workers == map[];
    FaultFreeIsUnharmed(c, cfg, Init(n0), es);
    DrainedIffNoFailure(c, s);
    PipelineRefinesSequential(c, cfg, n0, es);
    FedIsReceivedOrWaiting(c, cfg, Init(n0), es);
    assert s.received == Flatten(s.cut) && s.received == FedBlocks(es);
    LogIsTheRest(c, n0, s);
  }

  lemma LogIsTheRest(c: Codec, n0: nat, s: State)
    requires RoundTrips(c) && OrderInv(c, n0, Abs(s)) && s.lost == {} && s.nextSubmission == |s.cut| + 1
    ensures DeliveredAllBut(c, n0, s, Flatten(s.cut))
  {
    forall i | 0 <= i < |s.attempts| ensures s.attempts[i].accepted {
      assert EntryInOrder(c, n0, Abs(s), i);
    }
    if s.attempts == [] {
      assert LoggedBlocks(c, s.attempts) == [];
      assert s.cut[..Min(n0, |s.cut|)] == s.cut;
    } else {
      LogIsContiguous(c, n0, Abs(s));
      assert n0 + |s.attempts| == |s.cut|;
      assert s.cut[n0..|s.cut|] == s.cut[n0..];
      assert s.cut == s.cut[..n0] + s.cut[n0..];
      FlattenAppend(s.cut[..n0], s.cut[n0..]);
    }
  }

  /** With a positive batch limit no batch is empty. */
  lemma {:induction false} CutsAreNotEmpty(c: Codec, cfg: Config, s: State, es: seq<Event>)
    requires cfg.maxBlocksPerBatch >= 1 && ValidRun(c, cfg, s, es) && [] !in s.cut
    ensures [] !in Exec(c, cfg, s, es).cut
    decreases |es|
  {
    if es != [] {
      CutsAreNotEmpty(c, cfg, Next(c, cfg, s, es[0]), es[1..]);
    }
  }

  /** A completed run without failures has put everything fed on L1 exactly when it was fresh or nothing was fed. */
  lemma ResumeLosesNothingIff(c: Codec, cfg: Config, n0: nat, es: seq<Event>)
    requires RoundTrips(c) && ValidRun(c, cfg, Init(n0), es) && FaultFree(es) && cfg.maxBlocksPerBatch >= 1
    requires var s := Exec(c, cfg, Init(n0), es);
      Draining(s) && s.inFlight == 0 && s.ready == []
    ensures LoggedBlocks(c, Exec(c, cfg, Init(n0), es).attempts) == FedBlocks(es) <==> n0 == 0 || FedBlocks(es) == []
  {
    var s := Exec(c, cfg, Init(n0), es);
    CompleteMeansDelivered(c, cfg, n0, es);
    CutsAreNotEmpty(c, cfg, Init(n0), es);
    var first := s.cut[..Min(n0, |s.cut|)];
    if n0 > 0 && s.cut != [] {
      assert first[0] == s.cut[0] && Flatten(first) == first[0] + Flatten(first[1..]);
      assert |FedBlocks(es)| > |LoggedBlocks(c, s.attempts)|;
    } else {
      assert first == [];
    }
  }

  /** One block becomes one batch, up to the heap. */
  function OneBatchRun(b: Block): seq<Event> {
    [Feed(b), Close, Receive, Flush, Finish(1, true), Collect]
  }

  lemma OneBatchFlushed(c: Codec, cfg: Config, n0: nat, b: Block) returns (es: seq<Event>, s: State)
    ensures es == [Feed(b), Close, Receive, Flush]
    ensures ValidRun(c, cfg, Init(n0), es) && Exec(c, cfg, Init(n0), es) == s
    ensures s == Init(n0).(closed := true, flushed := true, workers := map[1 := [b]], received := [b], cut := [[b]],
                           nextNumber := 2, inFlight := 1)
  {
    es, s := OneMore(c, cfg, n0, [], Init(n0), Feed(b));
    es, s := OneMore(c, cfg, n0, es, s, Close);
    es, s := OneMore(c, cfg, n0, es, s, Receive);
    assert s.pending == [b] && [b][..1] == [b] && [b][1..] == [];
    es, s := OneMore(c, cfg, n0, es, s, Flush);
  }

  lemma OneBatchRunReady(c: Codec, cfg: Config, n0: nat, b: Block)
    requires c.encode([b]).Some?
    ensures ValidRun(c, cfg, Init(n0), OneBatchRun(b))
    ensures var s := Exec(c, cfg, Init(n0), OneBatchRun(b));
      && Draining(s) && s.inFlight == 0 && s.attempts == [] && s.received == [b]
      && s.ready == [Prepared(1, MakeBatch(1, [b], c.encode([b]).value))]
      && s.nextSubmission == 1 && s.lastSubmitted == n0 && s.lost == {}
  {
    var es, s := OneBatchFlushed(c, cfg, n0, b);
    es, s := OneMore(c, cfg, n0, es, s, Finish(1, true));
    es, s := OneMore(c, cfg, n0, es, s, Collect);
    assert es == OneBatchRun(b);
  }

  /** After a resume from one batch the only new batch is skipped, and its block is lost. */
  lemma SkippedBlockIsLost(c: Codec, cfg: Config, b: Block)
    requires c.encode([b]).Some?
    ensures var es := OneBatchRun(b) + [Submit(0, true, true)];
      && ValidRun(c, cfg, Init(1), es) && FaultFree(es)
      && var s := Exec(c, cfg, Init(1), es);
        Draining(s) && !KeepsWaiting(s) && s.attempts == [] && s.received == [b]
  {
    OneBatchRunReady(c, cfg, 1, b);
    var _, _ := OneMore(c, cfg, 1, OneBatchRun(b), Exec(c, cfg, Init(1), OneBatchRun(b)), Submit(0, true, true));
  }

  /**
   Liveness without failures: a run that has nothing left to do (and `DrainIsBounded` says that draining gets
   there) has emptied the heap and the workers and delivered every block ever fed but those skipped.
   */
  lemma RestMeansDelivered(c: Codec, cfg: Config, n0: nat, es: seq<Event>)
    requires RoundTrips(c) && ValidRun(c, cfg, Init(n0), es) && FaultFree(es)
    requires AtRest(c, cfg, Exec(c, cfg, Init(n0), es))
    ensures var s := Exec(c, cfg, Init(n0), es);
      && s.inFlight == 0 && s.ready == [] && s.pending == []
      && DeliveredAllBut(c, n0, s, FedBlocks(es))
  {
    var s := Exec(c, cfg, Init(n0), es);
    InitInv(c, n0);
    RunKeepsInv(c, cfg, Init(n0), es);
    RestIsQuiescent(c, cfg, s);
    FaultFreeIsUnharmed(c, cfg, Init(n0), es);
    DrainedIffNoFailure(c, s);
    CompleteMeansDelivered(c, cfg, n0, es);
  }
}
