/** The polling batch runner: one pass of its endless loop, and any finite number of passes. */
module BatchRunner {
  import opened Basics
  import opened Wire

  const BYTES_PER_TX: nat := 256

  /** The blocks bear the consecutive numbers that begin with `start`. */
  predicate Consecutive(start: nat, blocks: seq<Block>) {
    forall i :: 0 <= i < |blocks| ==> blocks[i].number == start + i
  }

  function EstimatedSize(blocks: seq<Block>): nat {
    if blocks == [] then 0
    else EstimatedSize(blocks[..|blocks| - 1]) + blocks[|blocks| - 1].txCount * BYTES_PER_TX
  }

  /** Every transaction is taken for 256 bytes, wherever the blocks are cut. */
  lemma {:induction false} EstimateIsPerTransaction(a: seq<Block>, b: seq<Block>)
    ensures EstimatedSize(a + b) == EstimatedSize(a) + EstimatedSize(b)
    ensures |b| == 1 ==> EstimatedSize(b) == 256 * b[0].txCount
    ensures b == [] ==> EstimatedSize(b) == 0
  {
    if b == [] {
      assert a + b == a;
    } else {
      var n := |b| - 1;
      EstimateIsPerTransaction(a, b[..n]);
      assert (a + b)[..|a + b| - 1] == a + b[..n];
    }
  }

  /** One pass's view of the block source: its head, unless that query fails, and what it has under each number. */
  datatype Source = Source(head: Option<nat>, stored: nat -> Option<Block>) {
    /** The block of the asked number, or an error. */
    function Answer(number: nat): (r: Option<Block>)
      ensures r.Some? <==> number < TWO_64 && stored(number).Some?
      ensures r.Some? ==> r.value.number == number
    {
      if number < TWO_64 && stored(number).Some? then Some(stored(number).value.(number := number)) else None
    }

    /** The source has these blocks under the numbers from `first` on. */
    predicate Gives(first: nat, blocks: seq<Block>) {
      forall k :: 0 <= k < |blocks| ==> Answer(first + k) == Some(blocks[k])
    }
  }

  datatype SubmitError =
    | SourceError(text: string)
    | BlockNotFound(number: nat)
    | EncodingFailed(text: string)
    | CompressionFailed(text: string)
    | SinkError(text: string)

  predicate IsFatal(e: SubmitError) {
    e.EncodingFailed?
  }

  class BatchSubmissionRunner {
    const maxBlocks: nat
    const targetSize: nat
    const startBlock: nat
    /** Serialisation and compression, each with errors of its own. */
    const serialize: seq<Block> -> Result<Bytes, string>
    const compress: Bytes -> Result<Bytes, string>
    var currentBlock: nat
    var batchNumber: nat
    var pendingBlocks: seq<Block>
    var pendingSize: nat

    /** Every batch handed to the sink so far, whether it was accepted or not, in order. */
    ghost var attempted: seq<seq<Block>>
    /** Every batch the sink was called with, in order. */
    ghost var calls: seq<CompressedBatch>

    /** The compressed blocks, unless one of the two steps fails. */
    function Prepared(blocks: seq<Block>): Option<Bytes> {
      if serialize(blocks).Err? then None
      else
        var compressed := compress(serialize(blocks).value);
        if compressed.Err? then None else Some(compressed.value)
    }

    /** The batch is number `number` and made of exactly these blocks. */
    predicate Carries(b: CompressedBatch, number: nat, blocks: seq<Block>) {
      Prepared(blocks) == Some(b.data) && b.number == number && Describes(b, blocks)
    }

    /** The sink was called once for each batch that could be prepared, in order, and for no other. */
    predicate CalledFor(batches: seq<seq<Block>>, called: seq<CompressedBatch>) {
      if batches == [] then called == []
      else
        var n := |batches| - 1;
        if Prepared(batches[n]).None? then CalledFor(batches[..n], called)
        else
          called != [] && Carries(called[|called| - 1], n, batches[n])
          && CalledFor(batches[..n], called[..|called| - 1])
    }

    /** The sink was called for these blocks under this number, or not at all if they could not be prepared. */
    predicate Called(was: seq<CompressedBatch>, now: seq<CompressedBatch>, number: nat, blocks: seq<Block>) {
      if Prepared(blocks).None? then now == was
      else |now| == |was| + 1 && now[..|was|] == was && Carries(now[|was|], number, blocks)
    }

    lemma OneMoreBatch(batches: seq<seq<Block>>, was: seq<CompressedBatch>, now: seq<CompressedBatch>,
                       blocks: seq<Block>)
      requires CalledFor(batches, was) && Called(was, now, |batches|, blocks)
      ensures CalledFor(batches + [blocks], now)
    {
      assert (batches + [blocks])[..|batches|] == batches;
    }

    /** Attempted batches, then pending blocks, tile the fetched range, and every batch respects the limits. */
    ghost predicate Valid()
      reads this
    {
      && currentBlock == startBlock + |Flatten(attempted)| + |pendingBlocks|
      && Consecutive(startBlock, Flatten(attempted) + pendingBlocks)
      && pendingSize == EstimatedSize(pendingBlocks)
      && (forall i :: 0 <= i < |attempted| ==> 1 <= |attempted[i]| <= maxBlocks)
      && batchNumber == |attempted|
      && CalledFor(attempted, calls)
    }

    /** What holds whenever the loop starts over. */
    ghost predicate AtLoopHead()
      reads this
    {
      Valid() && |pendingBlocks| < maxBlocks && pendingSize < targetSize
    }

    constructor (start: nat, maxBlocks: nat, targetSize: nat,
                 serialize: seq<Block> -> Result<Bytes, string>, compress: Bytes -> Result<Bytes, string>)
      requires maxBlocks >= 1 && targetSize > 0
      ensures AtLoopHead() && startBlock == start && attempted == [] && calls == [] && pendingBlocks == []
      ensures this.maxBlocks == maxBlocks && this.targetSize == targetSize
      ensures this.serialize == serialize && this.compress == compress
    {
      this.serialize, this.compress := serialize, compress;
      this.maxBlocks, this.targetSize, startBlock := maxBlocks, targetSize, start;
      currentBlock, batchNumber, pendingBlocks, pendingSize := start, 0, [], 0;
      attempted, calls := [], [];
    }

    lemma SizeOfSnoc(blocks: seq<Block>, b: Block)
      ensures (blocks + [b])[..|blocks|] == blocks
      ensures EstimatedSize(blocks + [b]) == EstimatedSize(blocks) + b.txCount * BYTES_PER_TX
    {
      assert (blocks + [b])[..|blocks|] == blocks;
    }

    /** Without its last block the list is still below the size target. */
    predicate NeededLast(blocks: seq<Block>) {
      blocks != [] && EstimatedSize(blocks[..|blocks| - 1]) < targetSize
    }

    /** `fetched` has come behind `was`, block by block as the source has it; `before` was attempted earlier. */
    predicate InHand(source: Source, first: nat, before: seq<Block>, was: seq<Block>, fetched: seq<Block>, size: nat) {
      && source.Gives(first, fetched)
      && Consecutive(startBlock, before + (was + fetched))
      && first == startBlock + |before| + |was|
      && size == EstimatedSize(was + fetched)
    }

    lemma OneMoreInHand(source: Source, first: nat, before: seq<Block>, was: seq<Block>, fetched: seq<Block>, size: nat,
                        b: Block)
      requires InHand(source, first, before, was, fetched, size) && source.Answer(first + |fetched|) == Some(b)
      ensures InHand(source, first, before, was, fetched + [b], size + b.txCount * BYTES_PER_TX)
      ensures size < targetSize ==> NeededLast(was + (fetched + [b]))
    {
      var pending := was + fetched;
      Regrouped(was, fetched, [b]);
      Regrouped(before, pending, [b]);
      ConsecutiveSnoc(before + pending, b);
      GivesSnoc(source, first, fetched, b);
      SizeOfSnoc(pending, b);
    }

    lemma ConsecutiveSnoc(blocks: seq<Block>, b: Block)
      requires Consecutive(startBlock, blocks) && b.number == startBlock + |blocks|
      ensures Consecutive(startBlock, blocks + [b])
    {
    }

    lemma GivesSnoc(source: Source, first: nat, fetched: seq<Block>, b: Block)
      requires source.Gives(first, fetched) && source.Answer(first + |fetched|) == Some(b)
      ensures source.Gives(first, fetched + [b])
    {
    }

    method AddBlock(b: Block, ghost source: Source, ghost first: nat, ghost before: seq<Block>, ghost was: seq<Block>,
                    ghost fetched: seq<Block>)
      requires pendingBlocks == was + fetched && InHand(source, first, before, was, fetched, pendingSize)
      requires source.Answer(first + |fetched|) == Some(b)
      modifies this`pendingBlocks, this`pendingSize
      ensures pendingBlocks == was + (fetched + [b]) && InHand(source, first, before, was, fetched + [b], pendingSize)
      ensures old(pendingSize) < targetSize ==> NeededLast(pendingBlocks)
    {
      OneMoreInHand(source, first, before, was, fetched, pendingSize, b);
      Regrouped(was, fetched, [b]);
      pendingBlocks := pendingBlocks + [b];
      pendingSize := pendingSize + b.txCount * BYTES_PER_TX;
    }

    /**
     Fetches up to `count` blocks, each as the source has it, stopping early only at the first one that is not there or
     that brings the pending blocks to the size target.
     */
    method FetchBlocks(count: nat, source: Source) returns (ghost fetched: seq<Block>, failed: bool)
      requires Valid() && |pendingBlocks| + count <= maxBlocks
      modifies this`pendingBlocks, this`pendingSize, this`currentBlock
      ensures Valid() && |fetched| <= count
      ensures pendingBlocks == old(pendingBlocks) + fetched && currentBlock == old(currentBlock) + |fetched|
      ensures source.Gives(old(currentBlock), fetched)
      ensures failed ==> |fetched| < count && source.Answer(currentBlock) == None
      ensures failed && |fetched| > 0 ==> pendingSize < targetSize
      ensures |fetched| > 1 ==> NeededLast(pendingBlocks)
      ensures |fetched| < count && !failed ==> |fetched| > 0 && pendingSize >= targetSize
    {
      var blocksFetched;
      assert pendingBlocks + [] == pendingBlocks;
      fetched, blocksFetched, failed := TakeBlocks(count, source, Flatten(attempted), pendingBlocks);
      currentBlock := currentBlock + blocksFetched;
    }

    method TakeBlocks(count: nat, source: Source, ghost before: seq<Block>, ghost was: seq<Block>)
      returns (ghost fetched: seq<Block>, blocksFetched: nat, failed: bool)
      requires was == pendingBlocks && InHand(source, currentBlock, before, was, [], pendingSize)
      modifies this`pendingBlocks, this`pendingSize
      ensures |fetched| == blocksFetched <= count && pendingBlocks == was + fetched
      ensures InHand(source, currentBlock, before, was, fetched, pendingSize)
      ensures failed ==> blocksFetched < count && source.Answer(currentBlock + blocksFetched) == None
      ensures failed && blocksFetched > 0 ==> pendingSize < targetSize
      ensures blocksFetched > 1 ==> NeededLast(pendingBlocks)
      ensures blocksFetched < count && !failed ==> blocksFetched > 0 && pendingSize >= targetSize
    {
      failed, fetched, blocksFetched := false, [], 0;
      for offset := 0 to count
        invariant blocksFetched == offset == |fetched| && !failed && pendingBlocks == was + fetched
        invariant InHand(source, currentBlock, before, was, fetched, pendingSize)
        invariant (offset > 0 ==> pendingSize < targetSize) && (offset > 1 ==> NeededLast(pendingBlocks))
      {
        var answer := source.Answer(currentBlock + offset);
        if answer.None? {
          failed := true;
          break;
        }
        AddBlock(answer.value, source, currentBlock, before, was, fetched);
        fetched := fetched + [answer.value];
        blocksFetched := blocksFetched + 1;
        if pendingSize >= targetSize {
          break;
        }
      }
    }

    /** What the sink answers; its errors are its own. */
    method Send(batch: CompressedBatch) returns (r: Result<(), string>)
      modifies this`calls
      ensures calls == old(calls) + [batch]
    {
      calls := calls + [batch];
      var fails: bool := *;
      r := if fails then Err("refused") else Ok(());
    }

    /**
     Serialise, compress, send. Both early failures are reported as compression failures; the sink sees the batch of
     these blocks exactly when neither happened.
     */
    method SubmitBatch(number: nat, blocks: seq<Block>) returns (error: Option<SubmitError>)
      modifies this`calls
      ensures serialize(blocks).Err? ==>
        calls == old(calls) && error == Some(CompressionFailed("Serialization failed: " + serialize(blocks).error))
      ensures serialize(blocks).Ok? && compress(serialize(blocks).value).Err? ==>
        calls == old(calls) && error == Some(CompressionFailed(compress(serialize(blocks).value).error))
      ensures serialize(blocks).Ok? && compress(serialize(blocks).value).Ok? ==>
        && |calls| == |old(calls)| + 1 && calls[..|old(calls)|] == old(calls)
        && calls[|old(calls)|].data == compress(serialize(blocks).value).value
        && calls[|old(calls)|].number == number && Describes(calls[|old(calls)|], blocks)
        && (error.Some? ==> error.value.SinkError?)
    {
      var raw := serialize(blocks);
      if raw.Err? {
        return Some(CompressionFailed("Serialization failed: " + raw.error));
      }
      var compressed := compress(raw.value);
      if compressed.Err? {
        return Some(CompressionFailed(compressed.error));
      }
      var batch := MakeBatch(number, blocks, compressed.value);
      var receipt := Send(batch);
      error := if receipt.Err? then Some(SinkError(receipt.error)) else None;
    }

    /**
     Hands the pending blocks to the sink under the next number, unless they cannot be prepared, and forgets them,
     accepted or not, unless the error is fatal; that it never is follows from the errors that `SubmitBatch` reports.
     */
    method SubmitPending() returns (fatal: bool)
      requires Valid() && pendingBlocks != [] && |pendingBlocks| <= maxBlocks
      modifies this`attempted, this`batchNumber, this`pendingBlocks, this`pendingSize, this`calls
      ensures !fatal && Valid() && attempted == old(attempted) + [old(pendingBlocks)]
      ensures pendingBlocks == [] && batchNumber == old(batchNumber) + 1
      ensures Called(old(calls), calls, old(batchNumber), old(pendingBlocks))
    {
      ghost var was := calls;
      var error := SubmitBatch(batchNumber, pendingBlocks);
      fatal := error.Some? && IsFatal(error.value);
      if !fatal {
        assert Called(was, calls, batchNumber, pendingBlocks);
        OneMoreBatch(attempted, was, calls, pendingBlocks);
        FlattenSnoc(attempted, pendingBlocks);
        attempted := attempted + [pendingBlocks];
        assert Flatten(attempted) + [] == Flatten(attempted);
        batchNumber := batchNumber + 1;
        pendingBlocks, pendingSize := [], 0;
      }
    }

    /**
     One pass of the loop: fetch as many blocks as fit and the head promises, or one when there is no backlog; then
     submit everything pending exactly when a limit is reached, or when there is no backlog and the next block is not
     there.
     */
    method RunOnce(source: Source) returns (ghost fetched: seq<Block>, ghost failed: bool)
      requires AtLoopHead()
      modifies this
      ensures AtLoopHead() && old(calls) <= calls && currentBlock == old(currentBlock) + |fetched|
      ensures source.Gives(old(currentBlock), fetched)
      ensures failed ==> source.Answer(currentBlock) == None
      ensures failed && |fetched| > 0 ==> EstimatedSize(old(pendingBlocks) + fetched) < targetSize
      ensures |fetched| > 1 ==> NeededLast(old(pendingBlocks) + fetched)
      ensures var room := if Backlog(source.head, old(currentBlock)) == 0 then 1
                          else Min(maxBlocks - |old(pendingBlocks)|, Backlog(source.head, old(currentBlock)) + 1);
        && |fetched| <= room
        && (failed ==> |fetched| < room)
        && (|fetched| < room && !failed ==> EstimatedSize(old(pendingBlocks) + fetched) >= targetSize)
      ensures var gathered := old(pendingBlocks) + fetched;
        if |gathered| >= maxBlocks || EstimatedSize(gathered) >= targetSize
           || (Backlog(source.head, old(currentBlock)) == 0 && gathered != [] && failed)
        then attempted == old(attempted) + [gathered] && pendingBlocks == []
        else attempted == old(attempted) && pendingBlocks == gathered && calls == old(calls)
    {
      var head := if source.head.Some? then source.head.value else currentBlock;
      var behind := SaturatingSub(head, currentBlock);
      var backlogged := behind > 0;
      var toFetch := if backlogged then Min(maxBlocks - |pendingBlocks|, behind + 1) else 1;
      var fetchFailed;
      fetched, fetchFailed := FetchBlocks(toFetch, source);
      failed := fetchFailed;
      var due := |pendingBlocks| >= maxBlocks || pendingSize >= targetSize
        || (!backlogged && pendingBlocks != [] && fetchFailed);
      if due && pendingBlocks != [] {
        var _ := SubmitPending();
      }
    }

    /** How far the head is known to be beyond the next block. */
    static function Backlog(head: Option<nat>, next: nat): nat {
      if head.Some? && head.value > next then head.value - next else 0
    }

    /** Any number of passes of the endless loop, each with the source as it then is. */
    method Run(sources: seq<Source>)
      requires AtLoopHead()
      modifies this
      ensures AtLoopHead() && old(attempted) <= attempted && old(calls) <= calls && old(currentBlock) <= currentBlock
    {
      for i := 0 to |sources|
        invariant AtLoopHead() && old(attempted) <= attempted && old(calls) <= calls
        invariant old(currentBlock) <= currentBlock
      {
        var _, _ := RunOnce(sources[i]);
      }
    }

    /** Whatever the sink was called with carries the batch of its number, and the numbers increase. */
    lemma {:induction false} CallsCarryBatches(batches: seq<seq<Block>>, called: seq<CompressedBatch>)
      requires CalledFor(batches, called)
      ensures forall k :: 0 <= k < |called| ==>
        called[k].number < |batches| && Carries(called[k], called[k].number, batches[called[k].number])
      ensures forall j, k :: 0 <= j < k < |called| ==> called[j].number < called[k].number
    {
      if batches != [] {
        var n := |batches| - 1;
        if Prepared(batches[n]).None? {
          CallsCarryBatches(batches[..n], called);
        } else {
          var m := |called| - 1;
          CallsCarryBatches(batches[..n], called[..m]);
          assert forall k :: 0 <= k < m ==> called[k] == called[..m][k];
        }
      }
    }

    /** No batch that could be prepared is left out. */
    lemma {:induction false} PreparedIsCalled(batches: seq<seq<Block>>, called: seq<CompressedBatch>, i: nat)
      returns (k: nat)
      requires CalledFor(batches, called) && i < |batches| && Prepared(batches[i]).Some?
      ensures k < |called| && called[k].number == i
    {
      var n := |batches| - 1;
      if i == n {
        k := |called| - 1;
      } else if Prepared(batches[n]).None? {
        k := PreparedIsCalled(batches[..n], called, i);
      } else {
        k := PreparedIsCalled(batches[..n], called[..|called| - 1], i);
      }
    }

    /**
     The sink gets attempted batch `i` exactly when serialisation and compression succeed, and then once, under number
     `i`, with a header that names the blocks right after all earlier batches; a decoder that undoes the two steps
     reads exactly those blocks.
     */
    lemma SinkGetsBatch(decode: Bytes -> Option<seq<Block>>, i: nat)
      requires Valid() && i < |attempted|
      requires forall bs :: Prepared(bs).Some? ==> decode(Prepared(bs).value) == Some(bs)
      ensures (exists k :: 0 <= k < |calls| && calls[k].number == i) <==>
        serialize(attempted[i]).Ok? && compress(serialize(attempted[i]).value).Ok?
      ensures forall j, k :: 0 <= j < k < |calls| ==> calls[j].number < calls[k].number < |attempted|
      ensures forall k :: 0 <= k < |calls| && calls[k].number == i ==>
        && decode(calls[k].data) == Some(attempted[i])
        && calls[k].firstBlock == startBlock + |Flatten(attempted[..i])|
        && calls[k].lastBlock == startBlock + |Flatten(attempted[..i])| + |attempted[i]| - 1
    {
      CallsCarryBatches(attempted, calls);
      if Prepared(attempted[i]).Some? {
        var k := PreparedIsCalled(attempted, calls, i);
      }
      BatchesTile(i);
    }

    /** No gap and no overlap: attempted batch `i` starts right where the batches before it ended. */
    lemma BatchesTile(i: nat)
      requires Valid() && i < |attempted|
      ensures Consecutive(startBlock + |Flatten(attempted[..i])|, attempted[i])
      ensures startBlock + |Flatten(attempted[..i])| + |attempted[i]| <= currentBlock
    {
      var off := |Flatten(attempted[..i])|;
      FlattenSegment(attempted, i, i + 1);
      assert attempted[i..i + 1] == [attempted[i]];
      assert Flatten([attempted[i]]) == attempted[i] + Flatten([]) == attempted[i];
      assert IsSegment(attempted[i], Flatten(attempted), off);
      var all := Flatten(attempted) + pendingBlocks;
      forall j | 0 <= j < |attempted[i]| ensures attempted[i][j].number == startBlock + off + j {
        assert attempted[i][j] == Flatten(attempted)[off..off + |attempted[i]|][j] == all[off + j];
      }
    }
  }
}
