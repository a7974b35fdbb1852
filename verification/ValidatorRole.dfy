/** The validator role: fetch batches, decompress them, hand their blocks to the executor, remember how far it got. */
module ValidatorRole {
  import opened Basics
  import opened Wire
  import opened Transport

  const MAX_BATCHES_PER_TICK: nat := 10

  /** How far derivation got, and every block handed to the executor so far. */
  datatype Progress = Progress(lastDerived: nat, executed: seq<Block>)

  /** The effect of one batch: nothing if it was derived before or cannot be decoded. */
  function Process(c: Codec, d: Progress, b: CompressedBatch): Progress {
    if b.number <= d.lastDerived then d
    else match c.decode(b.data)
      case None => d
      case Some(bs) => Progress(b.number, d.executed + bs)
  }

  function ProcessAll(c: Codec, d: Progress, bs: seq<CompressedBatch>): Progress {
    if bs == [] then d else Process(c, ProcessAll(c, d, bs[..|bs| - 1]), bs[|bs| - 1])
  }

  lemma ProcessAllSnoc(c: Codec, d: Progress, bs: seq<CompressedBatch>, b: CompressedBatch)
    ensures ProcessAll(c, d, bs + [b]) == Process(c, ProcessAll(c, d, bs), b)
  {
    assert (bs + [b])[..|bs|] == bs;
  }

  /** Derivation never goes back, and what was executed stays executed, whatever is delivered in whatever order. */
  lemma {:induction false} ProgressOnlyGrows(c: Codec, d: Progress, bs: seq<CompressedBatch>)
    ensures d.lastDerived <= ProcessAll(c, d, bs).lastDerived
    ensures IsPrefix(d.executed, ProcessAll(c, d, bs).executed)
  {
    if bs != [] {
      ProgressOnlyGrows(c, d, bs[..|bs| - 1]);
    }
  }

  /** A batch that was derived once has no effect when it is delivered again. */
  lemma RedeliveryIsHarmless(c: Codec, d: Progress, bs: seq<CompressedBatch>, b: CompressedBatch)
    ensures var once := Process(c, d, b); c.decode(b.data).Some? ==>
      Process(c, ProcessAll(c, once, bs), b) == ProcessAll(c, once, bs)
  {
    ProgressOnlyGrows(c, Process(c, d, b), bs);
  }

  /** The blocks missing at any of a tick's polls. */
  function EverMissing(q: nat -> Provider): set<nat> {
    set k, n | 0 <= k < MAX_BATCHES_PER_TICK && n in q(k).missing :: n
  }

  lemma SeenStillSince(was: seq<L1Block>, seen: seq<L1Block>, chain: seq<L1Block>, seen': seq<L1Block>,
                       chain': seq<L1Block>, q: nat -> Provider, k: nat)
    requires k < MAX_BATCHES_PER_TICK && chain <= chain'
    requires SeenSince(was, seen, chain, EverMissing(q)) && SeenSince(seen, seen', chain', q(k).missing)
    ensures SeenSince(was, seen', chain', EverMissing(q))
  {
    SeenSinceGrows(was, seen, chain, chain', EverMissing(q));
    forall n | n in q(k).missing ensures n in EverMissing(q) {
    }
  }

  class Validator {
    const codec: Codec
    const source: AnvilBatchSource
    /** Whether saving the checkpoint can fail. */
    const faulty: bool
    var lastBatchDerived: nat
    ghost var executed: seq<Block>

    ghost function State(): Progress
      reads this
    {
      Progress(lastBatchDerived, executed)
    }

    constructor (codec: Codec, source: AnvilBatchSource, faulty: bool)
      ensures this.codec == codec && this.source == source && this.faulty == faulty && State() == Progress(0, [])
    {
      this.codec, this.source, this.faulty := codec, source, faulty;
      lastBatchDerived, executed := 0, [];
    }

    /** Only the checkpoint is restored. */
    method Resume(checkpointed: nat)
      modifies this`lastBatchDerived
      ensures State() == old(State()).(lastDerived := checkpointed)
    {
      lastBatchDerived := checkpointed;
    }

    /** The executor's errors are ignored; a failed save is reported after everything else has happened. */
    method ProcessBatch(batch: CompressedBatch) returns (ok: bool)
      modifies this
      ensures State() == Process(codec, old(State()), batch)
      ensures ok ==> batch.number <= lastBatchDerived
      ensures batch.number <= old(lastBatchDerived) ==> ok
      ensures batch.number > old(lastBatchDerived) && codec.decode(batch.data).None? ==> !ok
      ensures !ok ==> batch.number > old(lastBatchDerived) && (codec.decode(batch.data).None? || faulty)
    {
      if batch.number <= lastBatchDerived {
        return true;
      }
      var decoded := codec.decode(batch.data);
      if decoded.None? {
        return false;
      }
      var blocks := decoded.value;
      for i := 0 to |blocks|
        invariant executed == old(executed) + blocks[..i] && lastBatchDerived == old(lastBatchDerived)
      {
        executed := executed + [blocks[i]];
      }
      if batch.number > lastBatchDerived {
        lastBatchDerived := batch.number;
      }
      var saveFails: bool := *;
      return !(faulty && saveFails);
    }

    /** One poll of the source, and what it delivers is processed at once. */
    method FetchAndProcess(q: Provider) returns (got: Option<CompressedBatch>, ok: bool)
      requires source.Valid()
      modifies this, source, source.node
      ensures source.Valid() && old(source.node.blocks) <= source.node.blocks
      ensures SeenSince(old(source.seen), source.seen, source.node.blocks, q.missing)
      ensures got.None? ==> source.delivered == old(source.delivered) && State() == old(State())
      ensures got.None? ==>
        || QueryFails(q, |source.seen|, |source.node.blocks|)
        || OnlyMissingLeft(|source.seen|, |old(source.node.blocks)|, q.missing)
      ensures got.Some? ==>
        source.delivered == old(source.delivered) + [got.value] && State() == Process(codec, old(State()), got.value)
      ensures got.Some? && !ok ==> Rejected(old(State()), got.value)
    {
      var r := source.NextBatch(q);
      if r.Err? || r.value.None? {
        return None, true;
      }
      got := r.value;
      ok := ProcessBatch(got.value);
    }

    /** The batch cannot be decoded, or a save can have failed. */
    predicate Rejected(d: Progress, batch: CompressedBatch) {
      batch.number > d.lastDerived && (codec.decode(batch.data).None? || faulty)
    }

    /**
     Drains at most ten batches; exactly the delivered ones take effect, in the order of delivery. It stops earlier only
     at a query that failed, at a batch that was rejected, or when every block there was at the call is scanned or
     missing.
     */
    method Tick(q: nat -> Provider) returns (ok: bool, processed: nat, ghost fetched: seq<CompressedBatch>)
      requires source.Valid()
      modifies this, source, source.node
      ensures source.Valid() && source.delivered == old(source.delivered) + fetched
      ensures State() == ProcessAll(codec, old(State()), fetched)
      ensures |fetched| <= 10 && processed == if ok then |fetched| else |fetched| - 1
      ensures old(source.node.blocks) <= source.node.blocks
      ensures SeenSince(old(source.seen), source.seen, source.node.blocks, EverMissing(q))
      ensures ok && processed < 10 ==>
        || QueryFails(q(processed), |source.seen|, |source.node.blocks|)
        || OnlyMissingLeft(|source.seen|, |old(source.node.blocks)|, q(processed).missing)
      ensures !ok ==> fetched != []
      ensures !ok ==> Rejected(ProcessAll(codec, old(State()), fetched[..|fetched| - 1]), fetched[|fetched| - 1])
    {
      processed, fetched := 0, [];
      ghost var start, was, chain0 := State(), source.seen, source.node.blocks;
      while processed < MAX_BATCHES_PER_TICK
        invariant source.Valid() && source.delivered == old(source.delivered) + fetched
        invariant processed == |fetched| <= MAX_BATCHES_PER_TICK
        invariant chain0 <= source.node.blocks && SeenSince(was, source.seen, source.node.blocks, EverMissing(q))
        invariant State() == ProcessAll(codec, start, fetched)
      {
        ghost var seen, chain := source.seen, source.node.blocks;
        var got;
        got, ok := FetchAndProcess(q(processed));
        SeenStillSince(was, seen, chain, source.seen, source.node.blocks, q, processed);
        if got.None? {
          ok := true;
          return;
        }
        ProcessAllSnoc(codec, start, fetched, got.value);
        fetched := fetched + [got.value];
        if !ok {
          assert fetched[..|fetched| - 1] == fetched[..processed];
          return;
        }
        processed := processed + 1;
      }
      ok := true;
    }
  }
}
