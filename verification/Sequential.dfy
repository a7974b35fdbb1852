/**
 The reference batcher: no workers, no heap, no result channel. It cuts numbered batches from the received
 blocks and hands them to the sink one after another in the order of their numbers, stopping for good at the
 first error. Its log is easy to describe; `Refinement` shows that the parallel pipeline has the same log.
 */
module Sequential {
  import opened Basics
  import opened Wire
  import opened Pipeline

  datatype Batcher = Batcher(
    received: seq<Block>, pending: seq<Block>, cut: seq<seq<Block>>,
    next: nat, lastSubmitted: nat, attempts: seq<Attempt>, halted: bool)

  datatype Move = TakeBlock(block: Block) | CutBatch(size: nat) | SubmitNext(sinkOk: bool, saveOk: bool)

  predicate CanMove(c: Codec, q: Batcher, m: Move) {
    match m
    case TakeBlock(_) => true
    case CutBatch(k) => k <= |q.pending|
    case SubmitNext(_, _) => !q.halted && 1 <= q.next <= |q.cut| && c.encode(q.cut[q.next - 1]).Some?
  }

  function Made(c: Codec, cut: seq<seq<Block>>, n: nat): CompressedBatch
    requires 1 <= n <= |cut| && c.encode(cut[n - 1]).Some?
  {
    MakeBatch(n, cut[n - 1], c.encode(cut[n - 1]).value)
  }

  function SubmitInOrder(c: Codec, q: Batcher, sinkOk: bool, saveOk: bool): Batcher
    requires 1 <= q.next <= |q.cut| && c.encode(q.cut[q.next - 1]).Some?
  {
    if ShouldSkip(q.lastSubmitted, q.next) then q.(next := q.next + 1)
    else
      var t := q.(attempts := q.attempts + [Attempt(Made(c, q.cut, q.next), sinkOk)]);
      if !sinkOk then t.(halted := true)
      else
        var u := t.(lastSubmitted := Max(q.lastSubmitted, q.next));
        if !saveOk then u.(halted := true) else u.(next := q.next + 1)
  }

  function Step(c: Codec, q: Batcher, m: Move): Batcher
    requires CanMove(c, q, m)
  {
    match m
    case TakeBlock(b) => q.(received := q.received + [b], pending := q.pending + [b])
    case CutBatch(k) => q.(pending := q.pending[k..], cut := q.cut + [q.pending[..k]])
    case SubmitNext(sinkOk, saveOk) => SubmitInOrder(c, q, sinkOk, saveOk)
  }

  predicate CanRun(c: Codec, q: Batcher, ms: seq<Move>)
    decreases |ms|
  {
    ms == [] || (CanMove(c, q, ms[0]) && CanRun(c, Step(c, q, ms[0]), ms[1..]))
  }

  function Play(c: Codec, q: Batcher, ms: seq<Move>): Batcher
    requires CanRun(c, q, ms)
    decreases |ms|
  {
    if ms == [] then q else Play(c, Step(c, q, ms[0]), ms[1..])
  }

  lemma {:induction false} PlayAppend(c: Codec, q: Batcher, a: seq<Move>, b: seq<Move>)
    requires CanRun(c, q, a) && CanRun(c, Play(c, q, a), b)
    ensures CanRun(c, q, a + b) && Play(c, q, a + b) == Play(c, Play(c, q, a), b)
    decreases |a|
  {
    if a == [] {
      assert a + b == b;
    } else {
      assert (a + b)[1..] == a[1..] + b;
      PlayAppend(c, Step(c, q, a[0]), a[1..], b);
    }
  }

  function Start(n: nat): Batcher {
    Batcher([], [], [], 1, n, [], false)
  }

  /** Attempt `i` is batch `n0 + 1 + i`, made of the blocks cut for that number; only a halting one is refused. */
  ghost predicate EntryInOrder(c: Codec, n0: nat, q: Batcher, i: nat)
    requires i < |q.attempts|
  {
    var n := n0 + 1 + i;
    && n <= |q.cut| && c.encode(q.cut[n - 1]).Some?
    && q.attempts[i].batch == Made(c, q.cut, n)
    && (i < |q.attempts| - 1 || !q.halted ==> q.attempts[i].accepted)
  }

  ghost predicate LogInOrder(c: Codec, n0: nat, q: Batcher) {
    forall i :: 0 <= i < |q.attempts| ==> EntryInOrder(c, n0, q, i)
  }

  /** Where the counters stand after a resume from `n0` submitted batches. */
  ghost predicate CountersAt(n0: nat, q: Batcher) {
    && 1 <= q.next <= |q.cut| + 1
    && (q.halted ==>
      && n0 < q.next <= |q.cut| && |q.attempts| == q.next - n0
      && q.lastSubmitted == (if q.attempts[|q.attempts| - 1].accepted then q.next else q.next - 1))
    && (!q.halted ==> |q.attempts| == Max(0, q.next - 1 - n0) && q.lastSubmitted == Max(n0, q.next - 1))
  }

  ghost predicate OrderInv(c: Codec, n0: nat, q: Batcher) {
    && q.received == Flatten(q.cut) + q.pending
    && LogInOrder(c, n0, q)
    && CountersAt(n0, q)
  }

  /** More cuts behind the present ones leave the log in order. */
  lemma LogSurvives(c: Codec, n0: nat, q: Batcher, t: Batcher)
    requires LogInOrder(c, n0, q) && t.attempts == q.attempts && t.halted == q.halted
    requires |q.cut| <= |t.cut| && t.cut[..|q.cut|] == q.cut
    ensures LogInOrder(c, n0, t)
  {
    forall i | 0 <= i < |t.attempts| ensures EntryInOrder(c, n0, t, i) {
      assert EntryInOrder(c, n0, q, i);
      assert t.cut[n0 + i] == t.cut[..|q.cut|][n0 + i];
    }
  }

  lemma CutKeepsOrder(c: Codec, n0: nat, q: Batcher, k: nat)
    requires OrderInv(c, n0, q) && k <= |q.pending|
    ensures OrderInv(c, n0, Step(c, q, CutBatch(k)))
  {
    var t := q.(pending := q.pending[k..], cut := q.cut + [q.pending[..k]]);
    FlattenSnoc(q.cut, q.pending[..k]);
    assert q.pending == q.pending[..k] + q.pending[k..];
    assert t.received == (Flatten(q.cut) + q.pending[..k]) + q.pending[k..];
    LogSurvives(c, n0, q, t);
  }

  lemma TakeKeepsOrder(c: Codec, n0: nat, q: Batcher, b: Block)
    requires OrderInv(c, n0, q)
    ensures OrderInv(c, n0, Step(c, q, TakeBlock(b)))
  {
    var t := q.(received := q.received + [b], pending := q.pending + [b]);
    assert t.received == Flatten(q.cut) + t.pending;
    LogSurvives(c, n0, q, t);
  }

  lemma SubmitKeepsOrder(c: Codec, n0: nat, q: Batcher, sinkOk: bool, saveOk: bool)
    requires OrderInv(c, n0, q) && CanMove(c, q, SubmitNext(sinkOk, saveOk))
    ensures OrderInv(c, n0, SubmitInOrder(c, q, sinkOk, saveOk))
  {
    var t := SubmitInOrder(c, q, sinkOk, saveOk);
    assert q.next <= n0 <==> ShouldSkip(q.lastSubmitted, q.next);
    forall i | 0 <= i < |t.attempts| ensures EntryInOrder(c, n0, t, i) {
      if i < |q.attempts| {
        assert EntryInOrder(c, n0, q, i);
      }
    }
  }

  lemma MoveKeepsOrder(c: Codec, n0: nat, q: Batcher, m: Move)
    requires OrderInv(c, n0, q) && CanMove(c, q, m)
    ensures OrderInv(c, n0, Step(c, q, m))
  {
    match m
    case TakeBlock(b) => TakeKeepsOrder(c, n0, q, b);
    case CutBatch(k) => CutKeepsOrder(c, n0, q, k);
    case SubmitNext(sinkOk, saveOk) => SubmitKeepsOrder(c, n0, q, sinkOk, saveOk);
  }

  lemma {:induction false} PlayKeepsOrder(c: Codec, n0: nat, q: Batcher, ms: seq<Move>)
    requires OrderInv(c, n0, q) && CanRun(c, q, ms)
    ensures OrderInv(c, n0, Play(c, q, ms))
    decreases |ms|
  {
    if ms != [] {
      MoveKeepsOrder(c, n0, q, ms[0]);
      PlayKeepsOrder(c, n0, Step(c, q, ms[0]), ms[1..]);
    }
  }

  /** What decompressing a batch gives back; nothing when its data is not decodable. */
  function BlocksOf(c: Codec, b: CompressedBatch): seq<Block> {
    match c.decode(b.data)
    case Some(bs) => bs
    case None => []
  }

  /** The blocks of all sink calls, concatenated in the order of the calls. */
  function LoggedBlocks(c: Codec, attempts: seq<Attempt>): seq<Block> {
    Flatten(seq(|attempts|, i requires 0 <= i < |attempts| => BlocksOf(c, attempts[i].batch)))
  }

  lemma LoggedPartsAreCuts(c: Codec, n0: nat, q: Batcher)
    requires RoundTrips(c) && LogInOrder(c, n0, q) && n0 + |q.attempts| <= |q.cut|
    ensures LoggedBlocks(c, q.attempts) == Flatten(q.cut[n0..n0 + |q.attempts|])
  {
    var k := |q.attempts|;
    var parts := seq(k, i requires 0 <= i < k => BlocksOf(c, q.attempts[i].batch));
    forall i | 0 <= i < k ensures parts[i] == q.cut[n0..n0 + k][i] {
      assert EntryInOrder(c, n0, q, i);
    }
    assert parts == q.cut[n0..n0 + k];
  }

  /** The blocks in the log are those of the batches n0+1, n0+2, ... and form one contiguous piece of the input. */
  lemma LogIsContiguous(c: Codec, n0: nat, q: Batcher)
    requires RoundTrips(c) && OrderInv(c, n0, q) && q.attempts != []
    ensures n0 + |q.attempts| <= |q.cut|
    ensures LoggedBlocks(c, q.attempts) == Flatten(q.cut[n0..n0 + |q.attempts|])
    ensures IsSegment(LoggedBlocks(c, q.attempts), q.received, |Flatten(q.cut[..n0])|)
  {
    var k := |q.attempts|;
    assert EntryInOrder(c, n0, q, k - 1);
    LoggedPartsAreCuts(c, n0, q);
    FlattenSegment(q.cut, n0, n0 + k);
    SegmentOfLonger(LoggedBlocks(c, q.attempts), Flatten(q.cut), q.pending, |Flatten(q.cut[..n0])|);
  }
}
