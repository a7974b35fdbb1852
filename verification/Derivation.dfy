/** The derivation runner: derive one batch at a time and assign block ranges to the ones that succeed. */
module Derivation {
  import opened Basics
  import opened Wire

  /** A success: the batch's number and the L2 block range it was given. */
  datatype Success = Success(number: nat, first: nat, last: nat)

  /** The ranges follow one another without gap or overlap from `start + 1` to `end`. */
  predicate Tile(start: nat, ss: seq<Success>, end: nat) {
    if ss == [] then start == end
    else
      var s := ss[|ss| - 1];
      s.last == end && s.first >= 1 && s.first <= s.last + 1 && Tile(start, ss[..|ss| - 1], s.first - 1)
  }

  /** Later successes have greater numbers; only number 0 can come more than once. */
  predicate Increasing(ss: seq<Success>) {
    forall i, j :: 0 <= i < j < |ss| ==> ss[i].number < ss[j].number || ss[i].number == ss[j].number == 0
  }

  predicate UpTo(ss: seq<Success>, last: nat) {
    forall i :: 0 <= i < |ss| ==> ss[i].number <= last
  }

  lemma OneMoreSuccess(ss: seq<Success>, s: Success, last: nat)
    requires Increasing(ss) && UpTo(ss, last) && (last == 0 || s.number > last)
    ensures Increasing(ss + [s]) && UpTo(ss + [s], Max(last, s.number))
  {
  }

  /** Two tiled ranges of distinct successes never share a block. */
  lemma {:induction false} TilesAreDisjoint(start: nat, ss: seq<Success>, end: nat, i: nat)
    requires Tile(start, ss, end) && i < |ss|
    ensures start < ss[i].first && ss[i].last <= end
    ensures forall j :: i < j < |ss| ==> ss[i].last < ss[j].first
  {
    var last := ss[|ss| - 1];
    if i < |ss| - 1 {
      TilesAreDisjoint(start, ss[..|ss| - 1], last.first - 1, i);
      forall j | i < j < |ss| ensures ss[i].last < ss[j].first {
        assert j < |ss| - 1 ==> ss[..|ss| - 1][j] == ss[j];
      }
    } else if i > 0 {
      TilesAreDisjoint(start, ss[..|ss| - 1], last.first - 1, i - 1);
    }
  }

  function Sum(ns: seq<nat>): nat {
    if ns == [] then 0 else Sum(ns[..|ns| - 1]) + ns[|ns| - 1]
  }

  /** Success `i` was given the range its blocks really have among the blocks of all successes. */
  predicate TrueRange(start: nat, ss: seq<Success>, lengths: seq<nat>, i: nat)
    requires |ss| == |lengths| && i < |ss|
  {
    ss[i].first == start + Sum(lengths[..i]) + 1 && ss[i].last == start + Sum(lengths[..i + 1])
  }

  predicate AllTrueRanges(start: nat, ss: seq<Success>, lengths: seq<nat>)
    requires |ss| == |lengths|
  {
    forall i :: 0 <= i < |ss| ==> TrueRange(start, ss, lengths, i)
  }

  predicate AllOwnCounts(ss: seq<Success>, lengths: seq<nat>)
    requires |ss| == |lengths|
  {
    forall i :: 0 <= i < |ss| ==> ss[i].last + 1 - ss[i].first == lengths[i]
  }

  /** The last of several ranges is true, and those before it are. */
  lemma SplitRanges(start: nat, ss: seq<Success>, lengths: seq<nat>)
    requires |ss| == |lengths| > 0
    ensures var n := |ss| - 1;
      && (AllTrueRanges(start, ss, lengths)
          <==> AllTrueRanges(start, ss[..n], lengths[..n]) && TrueRange(start, ss, lengths, n))
      && (AllOwnCounts(ss, lengths)
          <==> AllOwnCounts(ss[..n], lengths[..n]) && ss[n].last + 1 - ss[n].first == lengths[n])
  {
    var n := |ss| - 1;
    forall i | 0 <= i < n
      ensures TrueRange(start, ss[..n], lengths[..n], i) <==> TrueRange(start, ss, lengths, i)
    {
      assert lengths[..n][..i] == lengths[..i] && lengths[..n][..i + 1] == lengths[..i + 1];
    }
    forall i | 0 <= i < n ensures ss[..n][i] == ss[i] && lengths[..n][i] == lengths[i] {
    }
  }

  /**
   The reported ranges are those of the blocks really executed exactly when every success was counted with the number
   of its own blocks; then the derived blocks are the executed ones as a whole, too.
   */
  lemma {:induction false} RangesAreTrueIff(start: nat, ss: seq<Success>, end: nat, lengths: seq<nat>)
    requires Tile(start, ss, end) && |ss| == |lengths|
    ensures AllTrueRanges(start, ss, lengths) <==> AllOwnCounts(ss, lengths)
    ensures AllOwnCounts(ss, lengths) ==> end == start + Sum(lengths)
  {
    if ss != [] {
      var n := |ss| - 1;
      RangesAreTrueIff(start, ss[..n], ss[n].first - 1, lengths[..n]);
      SplitRanges(start, ss, lengths);
      assert lengths[..n + 1] == lengths;
    }
  }

  /** Everything the runner keeps track of. */
  datatype Book = Book(last: nat, counts: map<nat, nat>, finalized: nat, derived: nat,
                       successes: seq<Success>, lengths: seq<nat>, executed: seq<Block>)

  /** How many blocks the batch counts for: what was recorded, or one. */
  function CountOf(counts: map<nat, nat>, number: nat): nat {
    if number in counts then counts[number] else 1
  }

  /** The next range goes to the batch, and its recorded count is used up. */
  function Finalized(a: Book, number: nat, length: nat): Book {
    var end := a.finalized + CountOf(a.counts, number);
    a.(counts := a.counts - {number}, finalized := end, derived := a.derived + CountOf(a.counts, number),
       successes := a.successes + [Success(number, a.finalized + 1, end)], lengths := a.lengths + [length])
  }

  /** The batch's blocks are executed, it is the last one derived, and it gets its range. */
  function AfterSuccess(a: Book, number: nat, blocks: seq<Block>): Book {
    Finalized(a.(last := Max(a.last, number), executed := a.executed + blocks), number, |blocks|)
  }

  /** The successes bear increasing numbers up to `last`, and their ranges tile what is finalized. */
  ghost predicate ValidBook(start: nat, a: Book, last: nat) {
    && Tile(start, a.successes, a.finalized)
    && a.finalized == start + a.derived
    && |a.successes| == |a.lengths|
    && Increasing(a.successes)
    && UpTo(a.successes, last)
  }

  lemma FinalizedIsValid(start: nat, a: Book, number: nat, length: nat, last: nat)
    requires ValidBook(start, a, last) && (last == 0 || number > last)
    ensures ValidBook(start, Finalized(a, number, length), Max(last, number))
  {
    var b := Finalized(a, number, length);
    assert b.successes[..|a.successes|] == a.successes;
    OneMoreSuccess(a.successes, b.successes[|a.successes|], last);
  }

  /**
   The first success of a runner that no block counts were recorded with is counted as one block: the book stays valid,
   and its range is true exactly when the batch has just one.
   */
  lemma UnknownCountIsWrongUnlessOne(start: nat, a: Book, number: nat, length: nat, last: nat)
    requires ValidBook(start, a, last) && (last == 0 || number > last) && a.counts == map[] && a.successes == []
    ensures var b := Finalized(a, number, length);
      && ValidBook(start, b, Max(last, number))
      && (AllTrueRanges(start, b.successes, b.lengths) <==> length == 1)
  {
    var b := Finalized(a, number, length);
    FinalizedIsValid(start, a, number, length, last);
    RangesAreTrueIff(start, b.successes, b.finalized, b.lengths);
    assert b.successes == [Success(number, a.finalized + 1, a.finalized + 1)] && b.lengths == [length];
  }

  /** At most blocks were executed and a number recorded; no range was given. */
  predicate SameButRecord(a: Book, b: Book) {
    b == a.(last := b.last, executed := b.executed)
  }

  class DerivationRunner {
    const codec: Codec
    const startBlock: nat
    /** Whether a block's execution or saving the checkpoint can fail. */
    const faulty: bool
    var lastBatchDerived: nat
    var batchBlockCounts: map<nat, nat>
    var lastFinalizedBlock: nat
    var batchesDerived: nat
    var blocksDerived: nat

    ghost var successes: seq<Success>
    /** How many blocks each success executed. */
    ghost var lengths: seq<nat>
    /** Every block handed to the executor, those of failed batches included. */
    ghost var executed: seq<Block>

    ghost predicate Valid()
      reads this
    {
      ValidUpTo(lastBatchDerived)
    }

    ghost predicate ValidUpTo(last: nat)
      reads this
    {
      batchesDerived == |successes| && ValidBook(startBlock, Ledger(), last)
    }

    ghost function Ledger(): Book
      reads this
    {
      Book(lastBatchDerived, batchBlockCounts, lastFinalizedBlock, blocksDerived, successes, lengths, executed)
    }

    constructor (codec: Codec, startBlock: nat, checkpointed: nat, faulty: bool)
      ensures Valid() && this.codec == codec && this.startBlock == startBlock && this.faulty == faulty
      ensures lastBatchDerived == checkpointed && lastFinalizedBlock == startBlock && batchBlockCounts == map[]
      ensures successes == [] && lengths == [] && executed == []
    {
      this.codec, this.startBlock, this.faulty := codec, startBlock, faulty;
      lastBatchDerived, batchBlockCounts, lastFinalizedBlock := checkpointed, map[], startBlock;
      batchesDerived, blocksDerived, successes, lengths, executed := 0, 0, [], [], [];
    }

    /** The sequencer's side tells how many blocks a batch has. */
    method RecordBatchBlockCount(number: nat, count: nat)
      requires Valid()
      modifies this`batchBlockCounts
      ensures Valid() && batchBlockCounts == old(batchBlockCounts)[number := count]
    {
      batchBlockCounts := batchBlockCounts[number := count];
    }

    predicate ShouldSkip(number: nat)
      reads this
    {
      lastBatchDerived != 0 && number <= lastBatchDerived
    }

    /** Executes blocks in order until one fails. */
    method ExecuteBlocks(blocks: seq<Block>) returns (ok: bool)
      modifies this`executed
      ensures ok ==> executed == old(executed) + blocks
      ensures !faulty ==> ok
      ensures exists n: nat :: n <= |blocks| && executed == old(executed) + blocks[..n]
    {
      for i := 0 to |blocks|
        invariant executed == old(executed) + blocks[..i]
      {
        var fails: bool := *;
        if faulty && fails {
          return false;
        }
        executed := executed + [blocks[i]];
      }
      return true;
    }

    /** Executes the batch's blocks and records it, in memory even if the save then fails; returns how many they are. */
    method ExecuteAndRecord(batch: CompressedBatch) returns (r: Result<nat, ()>)
      modifies this`lastBatchDerived, this`executed
      ensures SameButRecord(old(Ledger()), Ledger())
      ensures r.Ok? ==>
        && codec.decode(batch.data).Some? && r.value == |codec.decode(batch.data).value|
        && executed == old(executed) + codec.decode(batch.data).value
        && lastBatchDerived == Max(old(lastBatchDerived), batch.number)
      ensures r.Err? ==> faulty || codec.decode(batch.data).None?
      ensures lastBatchDerived >= old(lastBatchDerived)
      ensures r.Err? && lastBatchDerived != old(lastBatchDerived) ==>
        && lastBatchDerived == batch.number > old(lastBatchDerived) && codec.decode(batch.data).Some?
        && executed == old(executed) + codec.decode(batch.data).value
    {
      var decoded := codec.decode(batch.data);
      if decoded.None? {
        return Err(());
      }
      var ok := ExecuteBlocks(decoded.value);
      if !ok {
        return Err(());
      }
      if batch.number > lastBatchDerived {
        lastBatchDerived := batch.number;
      }
      var saveFails: bool := *;
      return if faulty && saveFails then Err(()) else Ok(|decoded.value|);
    }

    /**
     Derives one batch in whatever order and however often batches come: a batch the checkpoint covers, and no other,
     changes nothing; a success has executed the batch's blocks and gets the next range, as long as the recorded count;
     a failure gets no range.
     */
    method DeriveBatch(batch: CompressedBatch) returns (r: Result<Option<Success>, ()>)
      requires Valid()
      modifies this`lastBatchDerived, this`batchBlockCounts, this`lastFinalizedBlock, this`batchesDerived
      modifies this`blocksDerived, this`successes, this`lengths, this`executed
      ensures Valid() && lastBatchDerived >= old(lastBatchDerived)
      ensures r == Ok(None) <==> 0 < old(lastBatchDerived) && batch.number <= old(lastBatchDerived)
      ensures r == Ok(None) ==> Ledger() == old(Ledger())
      ensures r.Err? ==> faulty || codec.decode(batch.data).None?
      ensures r.Ok? && r.value.Some? ==>
        && codec.decode(batch.data).Some?
        && Ledger() == AfterSuccess(old(Ledger()), batch.number, codec.decode(batch.data).value)
        && r.value.value == successes[|successes| - 1]
      ensures r.Ok? && r.value.Some? ==>
        && r.value.value.number == batch.number
        && r.value.value.last + 1 - r.value.value.first
           == (if batch.number in old(batchBlockCounts) then old(batchBlockCounts)[batch.number] else 1)
      ensures !(r.Ok? && r.value.Some?) ==> SameButRecord(old(Ledger()), Ledger())
      ensures r.Err? && lastBatchDerived != old(lastBatchDerived) ==>
        && lastBatchDerived == batch.number && codec.decode(batch.data).Some?
        && executed == old(executed) + codec.decode(batch.data).value
    {
      ghost var last := lastBatchDerived;
      if ShouldSkip(batch.number) {
        return Ok(None);
      }
      var done := ExecuteAndRecord(batch);
      if done.Err? {
        return Err(());
      }
      var success := FinalizeBatch(batch.number, done.value, last);
      return Ok(Some(success));
    }

    /** Gives the batch the next block range; a batch whose block count is not known counts as one block. */
    method FinalizeBatch(number: nat, ghost length: nat, ghost last: nat) returns (success: Success)
      requires ValidUpTo(last) && (last == 0 || number > last)
      modifies this`batchBlockCounts, this`lastFinalizedBlock, this`batchesDerived, this`blocksDerived
      modifies this`successes, this`lengths
      ensures ValidUpTo(Max(last, number))
      ensures Ledger() == Finalized(old(Ledger()), number, length)
      ensures successes == old(successes) + [success]
    {
      ghost var was := Ledger();
      FinalizedIsValid(startBlock, was, number, length, last);
      success := TakeRange(number);
      successes, lengths := successes + [success], lengths + [length];
      assert Ledger() == Finalized(was, number, length);
    }

    /** The counters move on by the batch's count. */
    method TakeRange(number: nat) returns (success: Success)
      modifies this`batchBlockCounts, this`lastFinalizedBlock, this`batchesDerived, this`blocksDerived
      ensures batchBlockCounts == old(batchBlockCounts) - {number} && batchesDerived == old(batchesDerived) + 1
      ensures lastFinalizedBlock == old(lastFinalizedBlock) + CountOf(old(batchBlockCounts), number)
      ensures blocksDerived == old(blocksDerived) + CountOf(old(batchBlockCounts), number)
      ensures success == Success(number, old(lastFinalizedBlock) + 1, lastFinalizedBlock)
    {
      var count := if number in batchBlockCounts then batchBlockCounts[number] else 1;
      batchBlockCounts := batchBlockCounts - {number};
      success := Success(number, lastFinalizedBlock + 1, lastFinalizedBlock + count);
      lastFinalizedBlock := lastFinalizedBlock + count;
      batchesDerived, blocksDerived := batchesDerived + 1, blocksDerived + count;
    }

    /** All batches can be decoded, and each has a greater number than those before it and than `last`. */
    predicate InOrder(last: nat, batches: seq<CompressedBatch>) {
      forall i :: 0 <= i < |batches| ==>
        codec.decode(batches[i].data).Some? && batches[i].number > LastNumberOf(last, batches[..i])
    }

    /** The number of the last batch, or `last` if there is none. */
    function LastNumberOf(last: nat, batches: seq<CompressedBatch>): nat {
      if batches == [] then last else batches[|batches| - 1].number
    }

    /** The blocks of all batches in order. */
    function BlocksOf(batches: seq<CompressedBatch>): seq<Block> {
      if batches == [] then []
      else
        var decoded := codec.decode(batches[|batches| - 1].data);
        BlocksOf(batches[..|batches| - 1]) + if decoded.Some? then decoded.value else []
    }

    /** Each of the batches succeeded once, in order, and their blocks were executed one after the other. */
    predicate AllSucceeded(a: Book, batches: seq<CompressedBatch>, b: Book) {
      && b.last == LastNumberOf(a.last, batches)
      && |b.successes| == |a.successes| + |batches|
      && (forall i :: 0 <= i < |batches| ==> b.successes[|a.successes| + i].number == batches[i].number)
      && b.executed == a.executed + BlocksOf(batches)
    }

    lemma OneMoreSucceeded(a: Book, batches: seq<CompressedBatch>, i: nat, b: Book)
      requires i < |batches| && InOrder(a.last, batches) && AllSucceeded(a, batches[..i], b)
      ensures batches[i].number > b.last && codec.decode(batches[i].data).Some?
      ensures AllSucceeded(a, batches[..i + 1], AfterSuccess(b, batches[i].number, codec.decode(batches[i].data).value))
    {
      var c := AfterSuccess(b, batches[i].number, codec.decode(batches[i].data).value);
      var done := batches[..i + 1];
      assert done[..i] == batches[..i];
      assert c.executed == a.executed + (BlocksOf(batches[..i]) + codec.decode(batches[i].data).value);
      forall k | 0 <= k < |done| ensures c.successes[|a.successes| + k].number == done[k].number {
        assert k < i ==> batches[..i][k] == done[k];
      }
    }

    /**
     Any sequence of deliveries, repeats and failures included. Without failures, decodable batches that come in order
     from the next one on succeed once each.
     */
    method DeriveMany(batches: seq<CompressedBatch>)
      requires Valid()
      modifies this`lastBatchDerived, this`batchBlockCounts, this`lastFinalizedBlock, this`batchesDerived
      modifies this`blocksDerived, this`successes, this`lengths, this`executed
      ensures Valid() && old(successes) <= successes && lastBatchDerived >= old(lastBatchDerived)
      ensures !faulty && InOrder(old(lastBatchDerived), batches) ==> AllSucceeded(old(Ledger()), batches, Ledger())
    {
      ghost var was := Ledger();
      for i := 0 to |batches|
        invariant Valid() && old(successes) <= successes && lastBatchDerived >= old(lastBatchDerived)
        invariant !faulty && InOrder(was.last, batches) ==> AllSucceeded(was, batches[..i], Ledger())
      {
        if !faulty && InOrder(was.last, batches) {
          OneMoreSucceeded(was, batches, i, Ledger());
        }
        var _ := DeriveBatch(batches[i]);
      }
      assert batches[..|batches|] == batches;
    }
  }
}
