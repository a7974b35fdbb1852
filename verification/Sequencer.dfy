/**
 The sequencer role itself, method by method. Each method is proved against the step relation of `Pipeline`:
 the ghost `trace` lists the steps taken so far and `Valid` says that replaying them gives the object's state.
 Between any two of its own steps the surroundings may take any number of theirs (`Interfere`).
 */
module SequencerRole {
  import opened Basics
  import opened Wire
  import opened Pipeline
  import opened Drain

  /** `StillDraining` reports that the drain loop was observed for a whole schedule of polls without leaving. */
  datatype TickResult = Progress | Idle | Complete | Failed | StillDraining

  /** How many polls of a schedule bring a delivery, if any worker is running then. */
  function Deliveries(schedule: seq<bool>): nat {
    if schedule == [] then 0 else Deliveries(schedule[1..]) + One(schedule[0])
  }

  function TotalSize(c: Codec, bs: seq<Block>): nat {
    if bs == [] then 0 else TotalSize(c, bs[..|bs| - 1]) + c.size(bs[|bs| - 1])
  }

  /** `s` is where the run `es` leads after a resume from `n0`; without faults none of its steps fails. */
  ghost predicate Reached(c: Codec, cfg: Config, n0: nat, faulty: bool, es: seq<Event>, s: State) {
    && ValidRun(c, cfg, Init(n0), es)
    && Exec(c, cfg, Init(n0), es) == s
    && (!faulty ==> FaultFree(es))
  }

  ghost predicate EncodesAll(c: Codec) {
    forall bs: seq<Block> :: c.encode(bs).Some?
  }

  /** Only the producer and the workers took steps between `a` and `b`. */
  predicate SameButSurroundings(a: State, b: State) {
    && b == a.(incoming := b.incoming, closed := b.closed, workers := b.workers, results := b.results)
    && a.incoming <= b.incoming
    && (a.closed ==> b.closed && b.incoming == a.incoming)
  }

  /** At some moment after `from` and not after `until` the results channel was empty. */
  ghost predicate CollectedAll(c: Codec, cfg: Config, n0: nat, from: seq<Event>, until: seq<Event>) {
    exists es, s :: from <= es <= until && Reached(c, cfg, n0, true, es, s) && s.results == []
  }

  /** At some such moment the block channel was open and empty. */
  ghost predicate ReceivedAll(c: Codec, cfg: Config, n0: nat, from: seq<Event>, until: seq<Event>) {
    exists es, s :: from <= es <= until && Reached(c, cfg, n0, true, es, s) && s.incoming == [] && !s.closed
  }

  /** At some such moment the draining state had work for at least that many deliveries. */
  ghost predicate WasBusy(c: Codec, cfg: Config, n0: nat, from: seq<Event>, until: seq<Event>, deliveries: nat) {
    exists es, s :: from <= es <= until && Reached(c, cfg, n0, true, es, s) && Draining(s) && deliveries <= Work(s)
  }

  lemma Witnessed(c: Codec, cfg: Config, n0: nat, faulty: bool, from: seq<Event>, es: seq<Event>, s: State,
                  until: seq<Event>, deliveries: nat)
    requires from <= es <= until && Reached(c, cfg, n0, faulty, es, s)
    ensures s.results == [] ==> CollectedAll(c, cfg, n0, from, until)
    ensures s.incoming == [] && !s.closed ==> ReceivedAll(c, cfg, n0, from, until)
    ensures Draining(s) && deliveries <= Work(s) ==> WasBusy(c, cfg, n0, from, until, deliveries)
  {
    assert Reached(c, cfg, n0, true, es, s);
  }

  /** Besides the surroundings' steps, results were collected. */
  predicate CollectedOnly(a: State, b: State) {
    SameButSurroundings(a, b.(inFlight := a.inFlight, ready := a.ready, prepFailed := a.prepFailed))
  }

  /** Besides the surroundings' steps, ready batches were skipped or handed to the sink. */
  predicate SubmittedOnly(a: State, b: State) {
    SameButSurroundings(a, b.(ready := a.ready, nextSubmission := a.nextSubmission, lastSubmitted := a.lastSubmitted,
                              attempts := a.attempts, lost := a.lost))
  }

  /** Besides the surroundings' steps, `n` batches were cut and given to workers. */
  predicate SpawnedOnly(a: State, b: State, n: nat) {
    && SameButSurroundings(a, b.(pending := a.pending, cut := a.cut, nextNumber := a.nextNumber,
                                 inFlight := a.inFlight))
    && (n == 0 ==> b.pending == a.pending)
    && |b.cut| == |a.cut| + n && b.cut[..|a.cut|] == a.cut && b.inFlight == a.inFlight + n
  }

  predicate Harmless(e: Event) {
    (e.Finish? ==> e.ok) && (e.Submit? ==> e.sinkOk && e.saveOk)
  }

  lemma ReachNext(c: Codec, cfg: Config, n0: nat, faulty: bool, es: seq<Event>, s: State, e: Event)
    requires Reached(c, cfg, n0, faulty, es, s) && Enabled(c, cfg, s, e) && (faulty || Harmless(e))
    ensures Reached(c, cfg, n0, faulty, es + [e], Next(c, cfg, s, e))
  {
    RunSnoc(c, cfg, Init(n0), es, e);
  }

  lemma ReachedInv(c: Codec, cfg: Config, n0: nat, faulty: bool, es: seq<Event>, s: State)
    requires Reached(c, cfg, n0, faulty, es, s)
    ensures Inv(c, s)
  {
    InitInv(c, n0);
    RunKeepsInv(c, cfg, Init(n0), es);
  }

  lemma SomethingInFlight(c: Codec, cfg: Config, n0: nat, faulty: bool, es: seq<Event>, s: State)
    requires Reached(c, cfg, n0, faulty, es, s) && s.results != []
    ensures s.inFlight > 0
  {
    ReachedInv(c, cfg, n0, faulty, es, s);
  }

  lemma StillSeen(c: Codec, cfg: Config, n0: nat, from: seq<Event>, a: seq<Event>, b: seq<Event>, until: seq<Event>)
    requires from <= a && b <= until
    ensures CollectedAll(c, cfg, n0, a, b) ==> CollectedAll(c, cfg, n0, from, until)
    ensures ReceivedAll(c, cfg, n0, a, b) ==> ReceivedAll(c, cfg, n0, from, until)
    ensures forall deliveries :: WasBusy(c, cfg, n0, a, b, deliveries) ==> WasBusy(c, cfg, n0, from, until, deliveries)
  {
  }

  class Sequencer {
    const codec: Codec
    const cfg: Config
    /** Whether this run's surroundings can make a preparation, a sink call or a checkpoint save fail. */
    const faulty: bool

    var pendingBlocks: seq<Block>
    var currentBatchSize: nat
    var nextBatchNumber: nat
    var nextSubmissionNumber: nat
    var lastBatchSubmitted: nat
    var inFlightPreparations: nat
    var readyBatches: seq<Prepared>

    // shared with the producer and the workers
    var blockRx: seq<Block>
    var producerGone: bool
    var workers: map<nat, seq<Block>>
    var preparedRx: seq<Outcome>

    /** Every call of the sink and its answer, in order. */
    ghost var sinkCalls: seq<Attempt>

    ghost var resumedFrom: nat
    ghost var trace: seq<Event>
    ghost var model: State

    /** The object's fields are those of the model state. */
    ghost predicate Match()
      reads this
    {
      && blockRx == model.incoming && producerGone == model.closed && pendingBlocks == model.pending
      && workers == model.workers && preparedRx == model.results && inFlightPreparations == model.inFlight
      && readyBatches == model.ready && nextBatchNumber == model.nextNumber
      && nextSubmissionNumber == model.nextSubmission && lastBatchSubmitted == model.lastSubmitted
      && sinkCalls == model.attempts
    }

    ghost predicate Valid()
      reads this
    {
      && Match()
      && Reached(codec, cfg, resumedFrom, faulty, trace, model)
      && currentBatchSize == TotalSize(codec, pendingBlocks)
      && (faulty || EncodesAll(codec))
    }

    constructor (codec: Codec, cfg: Config, faulty: bool)
      requires faulty || EncodesAll(codec)
      ensures Valid() && model == Init(0) && resumedFrom == 0 && trace == []
      ensures this.codec == codec && this.cfg == cfg && this.faulty == faulty
    {
      this.codec, this.cfg, this.faulty := codec, cfg, faulty;
      pendingBlocks, currentBatchSize := [], 0;
      nextBatchNumber, nextSubmissionNumber, lastBatchSubmitted := 1, 1, 0;
      inFlightPreparations, readyBatches := 0, [];
      blockRx, producerGone, workers, preparedRx := [], false, map[], [];
      sinkCalls, resumedFrom, trace, model := [], 0, [], Init(0);
    }

    /** Called once, before the first tick: only the checkpoint is restored, the numbering is not. */
    method Resume(checkpointed: nat)
      requires Valid() && trace == []
      modifies this`lastBatchSubmitted, this`resumedFrom, this`model
      ensures Valid() && model == Init(checkpointed) && resumedFrom == checkpointed
    {
      model := Init(checkpointed);
      lastBatchSubmitted := checkpointed;
      resumedFrom := checkpointed;
    }

    /** Takes step `e` in the model. */
    ghost method Record(e: Event)
      requires Reached(codec, cfg, resumedFrom, faulty, trace, model)
      requires Enabled(codec, cfg, model, e) && (faulty || Harmless(e))
      modifies this`trace, this`model
      ensures Reached(codec, cfg, resumedFrom, faulty, trace, model)
      ensures trace == old(trace) + [e] && model == Next(codec, cfg, old(model), e)
    {
      ReachNext(codec, cfg, resumedFrom, faulty, trace, model, e);
      trace, model := trace + [e], Next(codec, cfg, model, e);
    }

    // ------------------------------------------------------------ the surroundings

    method FeedBlock(b: Block)
      requires Valid() && !producerGone
      modifies this`blockRx, this`trace, this`model
      ensures Valid() && trace == old(trace) + [Feed(b)] && SameButSurroundings(old(model), model)
    {
      blockRx := blockRx + [b];
      Record(Feed(b));
    }

    method CloseChannel()
      requires Valid() && !producerGone
      modifies this`producerGone, this`trace, this`model
      ensures Valid() && trace == old(trace) + [Close] && SameButSurroundings(old(model), model)
    {
      producerGone := true;
      Record(Close);
    }

    /** One worker serialises and compresses its blocks and sends the result, or an error. */
    method WorkerFinishes()
      requires Valid() && workers != map[]
      modifies this`workers, this`preparedRx, this`trace, this`model
      ensures Valid() && old(trace) < trace && SameButSurroundings(old(model), model)
    {
      var n :| n in workers;
      var encoded := codec.encode(workers[n]);
      var breaks: bool := *;
      var ok := encoded.Some? && !(faulty && breaks);
      var outcome := Outcome.Failed(n);
      if ok {
        outcome := Done(Prepared(n, MakeBatch(n, workers[n], encoded.value)));
      }
      workers, preparedRx := workers - {n}, preparedRx + [outcome];
      Record(Finish(n, ok));
    }

    /** Any number of steps of the producer and the workers, in any order. */
    method Interfere()
      requires Valid()
      modifies this`blockRx, this`producerGone, this`workers, this`preparedRx, this`trace, this`model
      ensures Valid() && old(trace) <= trace && SameButSurroundings(old(model), model)
    {
      var steps: nat := *;
      while steps > 0
        invariant Valid() && old(trace) <= trace && SameButSurroundings(old(model), model)
      {
        var who: nat := *;
        if who == 0 && !producerGone {
          var b: Block := *;
          FeedBlock(b);
        } else if who == 1 && !producerGone {
          CloseChannel();
        } else if workers != map[] {
          WorkerFinishes();
        }
        steps := steps - 1;
      }
    }

    // ------------------------------------------------------------ the sequencer's own steps

    /** Takes the oldest message of the results channel. */
    method CollectOne()
      requires Valid() && preparedRx != []
      modifies this`preparedRx, this`inFlightPreparations, this`readyBatches, this`trace, this`model
      ensures Valid() && old(trace) < trace && model == CollectResult(old(model))
      ensures inFlightPreparations == old(inFlightPreparations) - 1
    {
      SomethingInFlight(codec, cfg, resumedFrom, faulty, trace, model);
      var message := preparedRx[0];
      preparedRx := preparedRx[1..];
      if message.Done? {
        readyBatches := readyBatches + [message.prepared];
      }
      inFlightPreparations := SaturatingSub(inFlightPreparations, 1);
      Record(Collect);
    }

    /** One result is taken, and the surroundings go on. */
    method CollectNext()
      requires Valid() && preparedRx != []
      modifies this`blockRx, this`producerGone, this`workers, this`preparedRx, this`trace, this`model
      modifies this`inFlightPreparations, this`readyBatches
      ensures Valid() && old(trace) <= trace && CollectedOnly(old(model), model)
      ensures inFlightPreparations == old(inFlightPreparations) - 1
    {
      CollectOne();
      Interfere();
    }

    method CollectPreparedBatches()
      requires Valid()
      modifies this`blockRx, this`producerGone, this`workers, this`preparedRx, this`trace, this`model
      modifies this`inFlightPreparations, this`readyBatches
      ensures Valid() && old(trace) <= trace && preparedRx == []
      ensures CollectedOnly(old(model), model)
      ensures CollectedAll(codec, cfg, resumedFrom, old(trace), trace)
    {
      Interfere();
      while preparedRx != []
        invariant Valid() && old(trace) <= trace
        invariant CollectedOnly(old(model), model)
        decreases inFlightPreparations
      {
        CollectNext();
      }
      Witnessed(codec, cfg, resumedFrom, faulty, old(trace), trace, model, trace, 0);
    }

    /** The index that peeking into the heap shows: a ready batch with the least number. */
    method PeekLeast() returns (at: nat)
      requires readyBatches != []
      ensures IsLeast(readyBatches, at)
    {
      at := 0;
      for i := 1 to |readyBatches|
        invariant at < i && forall j :: 0 <= j < i ==> readyBatches[at].number <= readyBatches[j].number
      {
        if readyBatches[i].number < readyBatches[at].number {
          at := i;
        }
      }
    }

    /** The sink accepts the batch, or reports an error. */
    method CallSink(batch: CompressedBatch) returns (accepted: bool)
      modifies this`sinkCalls
      ensures sinkCalls == old(sinkCalls) + [Attempt(batch, accepted)]
      ensures !accepted ==> faulty
    {
      var fails: bool := *;
      accepted := !(faulty && fails);
      sinkCalls := sinkCalls + [Attempt(batch, accepted)];
    }

    /** Pops and submits; on an error the batch is gone from the heap and the counter stays. */
    method SubmitPreparedBatch(at: nat) returns (ok: bool, ghost sinkOk: bool, ghost saveOk: bool)
      requires Valid() && IsLeast(readyBatches, at) && readyBatches[at].number == nextSubmissionNumber
      modifies this`readyBatches, this`nextSubmissionNumber, this`lastBatchSubmitted, this`trace, this`model
      modifies this`sinkCalls
      ensures Valid() && trace == old(trace) + [Submit(at, sinkOk, saveOk)]
      ensures model == SubmitReady(old(model), at, sinkOk, saveOk)
      ensures ok == (ShouldSkip(old(lastBatchSubmitted), old(nextSubmissionNumber)) || (sinkOk && saveOk))
      ensures !ok ==> faulty
    {
      var prepared := readyBatches[at];
      readyBatches := Remove(readyBatches, at);
      ok, sinkOk, saveOk := SkipOrSubmit(prepared);
      Record(Submit(at, sinkOk, saveOk));
    }

    /** A batch that the checkpoint covers is passed over; for any other the sink is called and the checkpoint saved. */
    method SkipOrSubmit(prepared: Prepared) returns (ok: bool, ghost sinkOk: bool, ghost saveOk: bool)
      modifies this`nextSubmissionNumber, this`lastBatchSubmitted, this`sinkCalls
      ensures !ok ==> faulty
      ensures ok ==> sinkOk && saveOk && nextSubmissionNumber == old(nextSubmissionNumber) + 1
      ensures !ok ==> !(sinkOk && saveOk) && nextSubmissionNumber == old(nextSubmissionNumber)
      ensures 0 < old(lastBatchSubmitted) && prepared.number <= old(lastBatchSubmitted) ==>
        ok && sinkCalls == old(sinkCalls) && lastBatchSubmitted == old(lastBatchSubmitted)
      ensures !(0 < old(lastBatchSubmitted) && prepared.number <= old(lastBatchSubmitted)) ==>
        && sinkCalls == old(sinkCalls) + [Attempt(prepared.batch, sinkOk)]
        && lastBatchSubmitted
           == if sinkOk then Max(old(lastBatchSubmitted), prepared.number) else old(lastBatchSubmitted)
    {
      sinkOk, saveOk := true, true;
      if !ShouldSkip(lastBatchSubmitted, prepared.number) {
        var accepted := CallSink(prepared.batch);
        if !accepted {
          sinkOk := false;
          return false, sinkOk, saveOk;
        }
        if prepared.number > lastBatchSubmitted {
          lastBatchSubmitted := prepared.number;
        }
        var saveFails: bool := *;
        if faulty && saveFails {
          saveOk := false;
          return false, sinkOk, saveOk;
        }
      }
      nextSubmissionNumber := nextSubmissionNumber + 1;
      ok := true;
    }

    /** One batch is submitted; unless that fails, the surroundings go on. */
    method SubmitNext(at: nat) returns (ok: bool)
      requires Valid() && IsLeast(readyBatches, at) && readyBatches[at].number == nextSubmissionNumber
      modifies this`blockRx, this`producerGone, this`workers, this`preparedRx, this`trace, this`model
      modifies this`readyBatches, this`nextSubmissionNumber, this`lastBatchSubmitted, this`sinkCalls
      ensures Valid() && old(trace) <= trace && SubmittedOnly(old(model), model)
      ensures ok ==> nextSubmissionNumber == old(nextSubmissionNumber) + 1
      ensures ok ==> |readyBatches| < |old(readyBatches)|
      ensures !ok ==> model.lost != {} && faulty
    {
      ghost var sinkOk, saveOk;
      ok, sinkOk, saveOk := SubmitPreparedBatch(at);
      if ok {
        Interfere();
      }
    }

    method SubmitReadyBatches() returns (ok: bool, submitted: nat)
      requires Valid()
      modifies this`blockRx, this`producerGone, this`workers, this`preparedRx, this`trace, this`model
      modifies this`readyBatches, this`nextSubmissionNumber, this`lastBatchSubmitted, this`sinkCalls
      ensures Valid() && old(trace) <= trace
      ensures SubmittedOnly(old(model), model)
      ensures ok ==> NothingToSubmit(model) && nextSubmissionNumber == old(nextSubmissionNumber) + submitted
      ensures ok && submitted == 0 ==> model == old(model)
      ensures !ok ==> model.lost != {} && faulty
    {
      submitted := 0;
      while readyBatches != []
        invariant Valid() && old(trace) <= trace
        invariant SubmittedOnly(old(model), model)
        invariant nextSubmissionNumber == old(nextSubmissionNumber) + submitted
        invariant submitted == 0 ==> model == old(model)
        decreases |readyBatches|
      {
        var at := PeekLeast();
        if readyBatches[at].number != nextSubmissionNumber {
          return true, submitted;
        }
        ok := SubmitNext(at);
        if !ok {
          return false, submitted;
        }
        submitted := submitted + 1;
      }
      return true, submitted;
    }

    /** Phases 1 and 2: collect what the workers have delivered, then submit what is next in line. */
    method CollectAndSubmit() returns (ok: bool, submitted: nat)
      requires Valid()
      modifies this`blockRx, this`producerGone, this`workers, this`preparedRx, this`trace, this`model
      modifies this`readyBatches, this`nextSubmissionNumber, this`lastBatchSubmitted, this`inFlightPreparations
      modifies this`sinkCalls
      ensures Valid() && old(trace) <= trace
      ensures CollectedAll(codec, cfg, resumedFrom, old(trace), trace)
      ensures model.received == old(model).received && model.cut == old(model).cut
      ensures ok ==> NothingToSubmit(model) && nextSubmissionNumber == old(nextSubmissionNumber) + submitted
      ensures ok && submitted == 0 ==> model.attempts == old(model).attempts
      ensures !ok ==> model.lost != {} && faulty
    {
      ghost var before := trace;
      CollectPreparedBatches();
      ghost var collected := trace;
      ok, submitted := SubmitReadyBatches();
      StillSeen(codec, cfg, resumedFrom, before, before, collected, trace);
    }

    method AccumulateBlock()
      requires Valid() && blockRx != []
      modifies this`blockRx, this`pendingBlocks, this`currentBatchSize, this`trace, this`model
      ensures Valid() && trace == old(trace) + [Receive] && model == ReceiveBlock(old(model))
    {
      var block := blockRx[0];
      blockRx := blockRx[1..];
      SizeOfSnoc(pendingBlocks, block);
      pendingBlocks := pendingBlocks + [block];
      currentBatchSize := currentBatchSize + codec.size(block);
      Record(Receive);
    }

    lemma SizeOfSnoc(bs: seq<Block>, b: Block)
      ensures TotalSize(codec, bs + [b]) == TotalSize(codec, bs) + codec.size(b)
    {
      assert (bs + [b])[..|bs|] == bs;
    }

    /** Phase 3: take blocks until the channel is empty, closed, or there are enough for one batch. */
    method AccumulateBlocks() returns (accumulated: nat, disconnected: bool)
      requires Valid()
      modifies this`blockRx, this`producerGone, this`workers, this`preparedRx, this`trace, this`model
      modifies this`pendingBlocks, this`currentBatchSize
      ensures Valid() && old(trace) <= trace
      ensures disconnected ==> producerGone && blockRx == []
      ensures blockRx == [] || |pendingBlocks| >= DynamicMaxBlocks(cfg, |old(blockRx)| + |old(pendingBlocks)|)
      ensures accumulated > 1 ==> |pendingBlocks| <= DynamicMaxBlocks(cfg, |old(blockRx)| + |old(pendingBlocks)|)
      ensures |model.received| == |old(model).received| + accumulated
      ensures accumulated == 0 ==> SameButSurroundings(old(model), model)
      ensures accumulated == 0 && !disconnected ==> ReceivedAll(codec, cfg, resumedFrom, old(trace), trace)
      ensures model.cut == old(model).cut && model.nextSubmission == old(model).nextSubmission
      ensures model.attempts == old(model).attempts && model.ready == old(model).ready
    {
      var dynamicMax := DynamicMaxBlocks(cfg, |blockRx| + |pendingBlocks|);
      accumulated, disconnected := 0, false;
      while true
        invariant Valid() && old(trace) <= trace && !disconnected
        invariant |model.received| == |old(model).received| + accumulated
        invariant accumulated == 0 ==> SameButSurroundings(old(model), model)
        invariant accumulated > 0 ==> |pendingBlocks| < dynamicMax
        invariant model.cut == old(model).cut && model.nextSubmission == old(model).nextSubmission
        invariant model.attempts == old(model).attempts && model.ready == old(model).ready
        decreases dynamicMax - |pendingBlocks|, accumulated == 0
      {
        Interfere();
        if blockRx == [] {
          disconnected := producerGone;
          Witnessed(codec, cfg, resumedFrom, faulty, old(trace), trace, model, trace, 0);
          return;
        }
        AccumulateBlock();
        accumulated := accumulated + 1;
        if |pendingBlocks| >= dynamicMax {
          return;
        }
      }
    }

    /** The serialised size of the blocks still pending, recomputed from scratch. */
    method RecalculateSize()
      modifies this`currentBatchSize
      ensures currentBatchSize == TotalSize(codec, pendingBlocks)
    {
      var size := 0;
      for i := 0 to |pendingBlocks|
        invariant size == TotalSize(codec, pendingBlocks[..i])
      {
        SizeOfSnoc(pendingBlocks[..i], pendingBlocks[i]);
        assert pendingBlocks[..i + 1] == pendingBlocks[..i] + [pendingBlocks[i]];
        size := size + codec.size(pendingBlocks[i]);
      }
      assert pendingBlocks[..|pendingBlocks|] == pendingBlocks;
      currentBatchSize := size;
    }

    /** Drains the first `k` pending blocks, numbers the batch and starts a worker on it. */
    method SpawnPreparationWorker(k: nat, ghost e: Event)
      requires Valid() && k <= |pendingBlocks| && Enabled(codec, cfg, model, e)
      requires Next(codec, cfg, model, e) == Spawn(model, k).(flushed := model.flushed || e == Flush)
      requires faulty || Harmless(e)
      modifies this`pendingBlocks, this`currentBatchSize, this`nextBatchNumber, this`workers, this`inFlightPreparations
      modifies this`trace, this`model
      ensures Valid() && trace == old(trace) + [e]
      ensures model == Spawn(old(model), k).(flushed := old(model).flushed || e == Flush)
    {
      StartWorker(k);
      RecalculateSize();
      Record(e);
    }

    method StartWorker(k: nat)
      requires k <= |pendingBlocks|
      modifies this`pendingBlocks, this`nextBatchNumber, this`workers, this`inFlightPreparations
      ensures pendingBlocks == old(pendingBlocks)[k..]
      ensures workers == old(workers)[old(nextBatchNumber) := old(pendingBlocks)[..k]]
      ensures nextBatchNumber == old(nextBatchNumber) + 1 && inFlightPreparations == old(inFlightPreparations) + 1
    {
      var blocks := pendingBlocks[..k];
      pendingBlocks := pendingBlocks[k..];
      workers := workers[nextBatchNumber := blocks];
      nextBatchNumber := nextBatchNumber + 1;
      inFlightPreparations := inFlightPreparations + 1;
    }

    predicate SizeOrCountReady()
      reads this
    {
      currentBatchSize >= cfg.minBatchSize || |pendingBlocks| >= cfg.maxBlocksPerBatch
    }

    /** Too few pending blocks to start another catch-up worker. */
    predicate BelowHalfBatch()
      reads this
    {
      |pendingBlocks| < Max(DynamicMaxBlocks(cfg, |pendingBlocks| + |blockRx|) / 2, 1)
    }

    /** The surroundings go on; then a catch-up worker is started unless less than half a batch is pending. */
    method SpawnNextCatchUp() returns (spawned: bool)
      requires Valid() && inFlightPreparations < MAX_CONCURRENT_PREPARATIONS && pendingBlocks != []
      modifies this`blockRx, this`producerGone, this`workers, this`preparedRx, this`trace, this`model
      modifies this`pendingBlocks, this`currentBatchSize, this`nextBatchNumber, this`inFlightPreparations
      ensures Valid() && old(trace) <= trace && SpawnedOnly(old(model), model, One(spawned))
      ensures spawned || BelowHalfBatch()
    {
      Interfere();
      spawned := !BelowHalfBatch();
      if spawned {
        SpawnPreparationWorker(Min(|pendingBlocks|, DynamicMaxBlocks(cfg, |pendingBlocks| + |blockRx|)), SpawnCatchUp);
      }
    }

    /** Catch-up mode: start workers until the slots are used up or less than half a batch is pending. */
    method SpawnCatchUpWorkers(slots: nat) returns (spawned: nat)
      requires Valid() && slots == SaturatingSub(MAX_CONCURRENT_PREPARATIONS, inFlightPreparations)
      modifies this`blockRx, this`producerGone, this`workers, this`preparedRx, this`trace, this`model
      modifies this`pendingBlocks, this`currentBatchSize, this`nextBatchNumber, this`inFlightPreparations
      ensures Valid() && old(trace) <= trace
      ensures SpawnedOnly(old(model), model, spawned)
      ensures spawned == slots || pendingBlocks == [] || BelowHalfBatch()
    {
      spawned := 0;
      while spawned < slots && pendingBlocks != []
        invariant Valid() && old(trace) <= trace && spawned <= slots
        invariant SpawnedOnly(old(model), model, spawned)
      {
        var one := SpawnNextCatchUp();
        if !one {
          return;
        }
        spawned := spawned + 1;
      }
    }

    /** No batch is due, or no worker is free to prepare it. */
    predicate NothingToSpawn()
      reads this
    {
      || inFlightPreparations >= MAX_CONCURRENT_PREPARATIONS || pendingBlocks == []
      || (if |blockRx| + |pendingBlocks| >= LIGHT_BACKLOG_THRESHOLD then BelowHalfBatch() else !SizeOrCountReady())
    }

    /** How many blocks may wait while a worker is free and no batch is due. */
    lemma WaitingBlocksAreFew()
      requires Valid() && NothingToSpawn() && inFlightPreparations < 4 && pendingBlocks != []
      ensures |blockRx| + |pendingBlocks| >= 200 ==> |pendingBlocks| < 50
      ensures 50 <= |blockRx| + |pendingBlocks| < 200 ==> |pendingBlocks| < 25
      ensures 10 <= |blockRx| + |pendingBlocks| < 50 ==> |pendingBlocks| < 12
      ensures |blockRx| + |pendingBlocks| < 10 ==>
        TotalSize(codec, pendingBlocks) < cfg.minBatchSize && |pendingBlocks| < cfg.maxBlocksPerBatch
    {
    }

    /**
     Phase 4: several workers when backlogged, at most one otherwise, and none only when no batch is due; one is due by
     its size, its number of blocks, the backlog or the time.
     */
    method SpawnWorkers(timeDue: bool) returns (spawned: nat)
      requires Valid()
      modifies this`blockRx, this`producerGone, this`workers, this`preparedRx, this`trace, this`model
      modifies this`pendingBlocks, this`currentBatchSize, this`nextBatchNumber, this`inFlightPreparations
      ensures Valid() && old(trace) <= trace
      ensures SpawnedOnly(old(model), model, spawned)
      ensures spawned == 0 ==> NothingToSpawn()
      ensures spawned == 0 && timeDue ==>
        inFlightPreparations >= 4 || pendingBlocks == [] || |blockRx| + |pendingBlocks| >= 10
      ensures spawned > 0 && !timeDue ==>
        || TotalSize(codec, old(pendingBlocks)) >= cfg.minBatchSize
        || |old(pendingBlocks)| >= cfg.maxBlocksPerBatch
        || |blockRx| + |old(pendingBlocks)| >= 10
      ensures |old(blockRx)| + |old(pendingBlocks)| >= 10 ==>
        inFlightPreparations >= 4 || pendingBlocks == [] || BelowHalfBatch()
    {
      spawned := 0;
      var slots := SaturatingSub(MAX_CONCURRENT_PREPARATIONS, inFlightPreparations);
      if slots == 0 || pendingBlocks == [] {
        return;
      }
      Interfere();
      if |blockRx| + |pendingBlocks| >= LIGHT_BACKLOG_THRESHOLD {
        spawned := SpawnCatchUpWorkers(slots);
      } else {
        if SizeOrCountReady() || timeDue {
          SpawnPreparationWorker(Min(|pendingBlocks|, cfg.maxBlocksPerBatch), SpawnNormal);
          spawned := 1;
        }
      }
    }

    /** Phases 3 and 4: take blocks, then start workers. */
    method AccumulateAndSpawn(timeDue: bool) returns (accumulated: nat, spawned: nat, disconnected: bool)
      requires Valid()
      modifies this`blockRx, this`producerGone, this`workers, this`preparedRx, this`trace, this`model
      modifies this`pendingBlocks, this`currentBatchSize, this`nextBatchNumber, this`inFlightPreparations
      ensures Valid() && old(trace) <= trace
      ensures disconnected ==> producerGone && blockRx == []
      ensures |model.received| == |old(model).received| + accumulated && |model.cut| == |old(model).cut| + spawned
      ensures accumulated == 0 ==> model.received == old(model).received
      ensures spawned == 0 ==> model.cut == old(model).cut && NothingToSpawn()
      ensures accumulated == 0 && !disconnected ==> ReceivedAll(codec, cfg, resumedFrom, old(trace), trace)
      ensures model.nextSubmission == old(model).nextSubmission && model.attempts == old(model).attempts
      ensures model.ready == old(model).ready
    {
      ghost var before := trace;
      accumulated, disconnected := AccumulateBlocks();
      ghost var received := trace;
      spawned := SpawnWorkers(timeDue);
      StillSeen(codec, cfg, resumedFrom, before, before, received, trace);
    }

    /** Before the next poll some running worker delivers, if there is one and the runtime lets it. */
    method AwaitWorker(delivers: bool)
      requires Valid()
      modifies this`workers, this`preparedRx, this`trace, this`model
      ensures Valid() && old(trace) <= trace && SameButSurroundings(old(model), model)
      ensures delivers ==> workers == map[] || trace != old(trace)
    {
      if workers != map[] && delivers {
        WorkerFinishes();
      }
    }

    /**
     The wait for all in-flight preparations, observed for one round per entry of `schedule`, which says whether the
     runtime lets a worker deliver in that round. The wait can be endless after a failure (see `Drain.WaitsForeverIff`),
     and while the workers are starved: the program does not even yield to them as long as the heap is not empty.
     Without failures it leaves before there have been more deliveries than there was work.
     */
    method DrainLoop(schedule: seq<bool>) returns (r: TickResult)
      requires Valid() && Draining(model)
      modifies this`workers, this`preparedRx, this`trace, this`model, this`blockRx, this`producerGone
      modifies this`inFlightPreparations, this`readyBatches
      modifies this`nextSubmissionNumber, this`lastBatchSubmitted, this`sinkCalls
      ensures Valid() && old(trace) <= trace && Draining(model)
      ensures r == Complete || r == TickResult.Failed || r == StillDraining
      ensures r == Complete ==> inFlightPreparations == 0 && readyBatches == []
      ensures r == StillDraining ==> inFlightPreparations > 0 || readyBatches != []
      ensures r == TickResult.Failed ==> faulty && model.lost != {}
      ensures !faulty && Deliveries(schedule) > Work(old(model)) ==> r == Complete
    {
      var left := schedule;
      while inFlightPreparations > 0 || readyBatches != []
        invariant Valid() && old(trace) <= trace && Draining(model) && Deliveries(left) <= Deliveries(schedule)
        invariant !faulty ==> |trace| >= |old(trace)| + Deliveries(schedule) - Deliveries(left)
        decreases |left|
      {
        BoundedTrace(codec, cfg, resumedFrom, faulty, old(trace), old(model), trace, model);
        if left == [] {
          return StillDraining;
        }
        ghost var start, startTrace := model, trace;
        AwaitWorker(left[0]);
        ghost var awaited := trace;
        CollectPreparedBatches();
        ghost var collected := trace;
        var ok, submitted := SubmitReadyBatches();
        if !ok {
          return TickResult.Failed;
        }
        if !faulty && left[0] && trace == startTrace {
          assert awaited == startTrace && collected == startTrace;
          StuckOnlyIfDone(codec, cfg, resumedFrom, trace, model);
          assert false;
        }
        left := left[1..];
      }
      return Complete;
    }

    /** The channel is closed: one last batch of everything pending, whatever its size, then the wait. */
    method FlushAndDrain(schedule: seq<bool>) returns (r: TickResult)
      requires Valid() && producerGone && blockRx == []
      modifies this
      ensures Valid() && old(trace) <= trace && Draining(model) && resumedFrom == old(resumedFrom)
      ensures r == Complete || r == TickResult.Failed || r == StillDraining
      ensures r == TickResult.Failed ==> faulty && model.lost != {}
      ensures r == Complete ==> inFlightPreparations == 0 && readyBatches == []
      ensures r == StillDraining && !faulty ==>
        WasBusy(codec, cfg, resumedFrom, old(trace), trace, Deliveries(schedule))
      ensures r == Complete && !faulty && RoundTrips(codec) ==>
        DeliveredAllBut(codec, resumedFrom, model, FedBlocks(trace))
    {
      if pendingBlocks != [] {
        SpawnPreparationWorker(|pendingBlocks|, Flush);
      }
      ghost var flushed, state := trace, model;
      r := DrainLoop(schedule);
      if r == StillDraining && !faulty {
        Witnessed(codec, cfg, resumedFrom, faulty, old(trace), flushed, state, trace, Deliveries(schedule));
      }
      if r == Complete && !faulty && RoundTrips(codec) {
        CompleteMeansDelivered(codec, cfg, resumedFrom, trace);
      }
    }

    /**
     One iteration of the role's main loop. Whatever happens meanwhile, what it did is a run of the step relation;
     the answers mean what they say, and a completed run without failures has put every block ever fed on L1, in
     order, but those in the batches it skipped after a resume.
     */
    method Tick(timeDue: bool, schedule: seq<bool>) returns (r: TickResult)
      requires Valid()
      modifies this
      ensures Valid() && old(trace) <= trace && resumedFrom == old(resumedFrom)
      ensures r == Idle ==>
        model.received == old(model).received && model.cut == old(model).cut
        && model.nextSubmission == old(model).nextSubmission && model.attempts == old(model).attempts
      ensures r == Progress ==>
        |model.received| > |old(model).received| || |model.cut| > |old(model).cut|
        || model.nextSubmission > old(model).nextSubmission
      ensures r == TickResult.Failed ==> faulty && model.lost != {}
      ensures r == Idle || r == Progress ==>
        CollectedAll(codec, cfg, resumedFrom, old(trace), trace) && NothingToSubmit(model)
      ensures r == Idle || r == Progress ==>
        ReceivedAll(codec, cfg, resumedFrom, old(trace), trace) || |model.received| > |old(model).received|
      ensures r == Idle || r == Progress ==> NothingToSpawn() || |model.cut| > |old(model).cut|
      ensures r == StillDraining ==>
        Draining(model) && (faulty || WasBusy(codec, cfg, resumedFrom, old(trace), trace, Deliveries(schedule)))
      ensures r == Complete ==> Draining(model) && inFlightPreparations == 0 && readyBatches == []
      ensures r == Complete && !faulty && RoundTrips(codec) ==>
        DeliveredAllBut(codec, resumedFrom, model, FedBlocks(trace))
    {
      ghost var before := trace;
      var ok, submitted := CollectAndSubmit();
      if !ok {
        return TickResult.Failed;
      }
      ghost var submittedAll := trace;
      var accumulated, spawned, disconnected := AccumulateAndSpawn(timeDue);
      StillSeen(codec, cfg, resumedFrom, before, before, submittedAll, trace);
      StillSeen(codec, cfg, resumedFrom, before, submittedAll, trace, trace);
      if disconnected {
        ghost var spawnedAll := trace;
        r := FlushAndDrain(schedule);
        StillSeen(codec, cfg, resumedFrom, before, spawnedAll, trace, trace);
        return;
      }
      return if submitted > 0 || accumulated > 0 || spawned > 0 then Progress else Idle;
    }
  }

  /** Without failures a drained state from which nothing moved has nothing left. */
  lemma StuckOnlyIfDone(c: Codec, cfg: Config, n0: nat, es: seq<Event>, s: State)
    requires Reached(c, cfg, n0, false, es, s) && s.workers == map[] && s.results == [] && NothingToSubmit(s)
    ensures s.inFlight == 0 && s.ready == []
  {
    ReachedInv(c, cfg, n0, false, es, s);
    FaultFreeIsUnharmed(c, cfg, Init(n0), es);
    DrainedIffNoFailure(c, s);
  }

  /** A draining run has no more steps than there was work when it began. */
  lemma BoundedTrace(c: Codec, cfg: Config, n0: nat, faulty: bool,
                     earlier: seq<Event>, since: State, es: seq<Event>, s: State)
    requires Reached(c, cfg, n0, faulty, earlier, since) && Reached(c, cfg, n0, faulty, es, s)
    requires earlier <= es && Draining(since)
    ensures |es| - |earlier| <= Work(since)
  {
    assert es == earlier + es[|earlier|..];
    RunSplit(c, cfg, Init(n0), earlier, es[|earlier|..]);
    DrainIsBounded(c, cfg, since, es[|earlier|..]);
  }
}
