/** L1 as the sink and the source see it: blocks of transactions, some of them sent to the batch inbox. */
module Transport {
  import opened Basics
  import opened Wire

  type Address = nat

  datatype Tx = Tx(to: Address, input: Bytes)

  type L1Block = seq<Tx>

  /** The calldata of the transactions sent to the inbox. */
  function InboxInputs(inbox: Address, block: L1Block): seq<Bytes> {
    if block == [] then []
    else (if block[0].to == inbox then [block[0].input] else []) + InboxInputs(inbox, block[1..])
  }

  /** The inbox calldata of a whole chain; `chain[i]` is L1 block `i + 1`, genesis is never scanned. */
  function AllInbox(inbox: Address, chain: seq<L1Block>): seq<Bytes> {
    if chain == [] then [] else AllInbox(inbox, chain[..|chain| - 1]) + InboxInputs(inbox, chain[|chain| - 1])
  }

  /** Only the first inbox transaction of a block is ever read. */
  function FirstOf(inbox: Address, block: L1Block): seq<Bytes> {
    var inputs := InboxInputs(inbox, block);
    if inputs == [] then [] else [inputs[0]]
  }

  function FirstInputs(inbox: Address, chain: seq<L1Block>): seq<Bytes> {
    if chain == [] then [] else FirstInputs(inbox, chain[..|chain| - 1]) + FirstOf(inbox, chain[|chain| - 1])
  }

  predicate AtMostOneEach(inbox: Address, chain: seq<L1Block>) {
    forall i :: 0 <= i < |chain| ==> |InboxInputs(inbox, chain[i])| <= 1
  }

  /** Block `c` holds at most one inbox transaction, and none if its answer `s` was empty. */
  predicate ReadInFull(inbox: Address, s: L1Block, c: L1Block) {
    |InboxInputs(inbox, c)| <= 1 && (s == [] ==> InboxInputs(inbox, c) == [])
  }

  /** `seen` is `chain` with some blocks answered by nothing. */
  ghost predicate IsViewOf(seen: seq<L1Block>, chain: seq<L1Block>) {
    |seen| <= |chain| && forall i :: 0 <= i < |seen| ==> seen[i] == chain[i] || seen[i] == []
  }

  /** Where `seen` goes beyond `was`, it shows the chain's blocks, but nothing for missing ones. */
  ghost predicate SeenSince(was: seq<L1Block>, seen: seq<L1Block>, chain: seq<L1Block>, missing: set<nat>) {
    && was <= seen && |seen| <= |chain|
    && forall i :: |was| <= i < |seen| ==> seen[i] == chain[i] || i + 1 in missing
  }

  lemma SeenSinceGrows(was: seq<L1Block>, seen: seq<L1Block>, chain: seq<L1Block>, chain': seq<L1Block>,
                       missing: set<nat>)
    requires SeenSince(was, seen, chain, missing) && chain <= chain'
    ensures SeenSince(was, seen, chain', missing)
  {
  }

  lemma {:induction false} ViewReadsNoMore(inbox: Address, seen: seq<L1Block>, chain: seq<L1Block>)
    requires IsViewOf(seen, chain) && |seen| == |chain|
    ensures |FirstInputs(inbox, seen)| <= |AllInbox(inbox, chain)|
  {
    if chain != [] {
      ViewReadsNoMore(inbox, seen[..|seen| - 1], chain[..|chain| - 1]);
    }
  }

  lemma SplitEqual<T>(a: seq<T>, b: seq<T>, c: seq<T>, d: seq<T>)
    requires |a| <= |c| && |b| <= |d|
    ensures a + b == c + d <==> a == c && b == d
  {
    if a + b == c + d {
      assert |a + b| == |c + d|;
      assert a == (a + b)[..|a|] && c == (c + d)[..|c|];
      assert b == (a + b)[|a|..] && d == (c + d)[|c|..];
    }
  }

  predicate AllReadInFull(inbox: Address, seen: seq<L1Block>, chain: seq<L1Block>)
    requires |seen| == |chain|
  {
    forall i :: 0 <= i < |chain| ==> ReadInFull(inbox, seen[i], chain[i])
  }

  lemma AllReadSplit(inbox: Address, seen: seq<L1Block>, chain: seq<L1Block>)
    requires |seen| == |chain| > 0
    ensures AllReadInFull(inbox, seen, chain) <==>
      AllReadInFull(inbox, seen[..|seen| - 1], chain[..|chain| - 1])
      && ReadInFull(inbox, seen[|seen| - 1], chain[|chain| - 1])
  {
    var n := |chain| - 1;
    assert forall i :: 0 <= i < n ==> seen[..n][i] == seen[i] && chain[..n][i] == chain[i];
  }

  /**
   The source reads every inbox transaction, in order, exactly when no block holds two of them and every block
   that was answered by nothing holds none.
   */
  lemma {:induction false} ReadsAllIff(inbox: Address, seen: seq<L1Block>, chain: seq<L1Block>)
    requires IsViewOf(seen, chain) && |seen| == |chain|
    ensures FirstInputs(inbox, seen) == AllInbox(inbox, chain) <==> AllReadInFull(inbox, seen, chain)
  {
    if chain != [] {
      var n := |chain| - 1;
      AllReadSplit(inbox, seen, chain);
      ReadsAllIff(inbox, seen[..n], chain[..n]);
      ViewReadsNoMore(inbox, seen[..n], chain[..n]);
      SplitEqual(FirstInputs(inbox, seen[..n]), FirstOf(inbox, seen[n]),
                 AllInbox(inbox, chain[..n]), InboxInputs(inbox, chain[n]));
    }
  }

  /** Counting is enough: it delivers as many as there are exactly when it reads all of them. */
  lemma {:induction false} CountsAgreeIff(inbox: Address, seen: seq<L1Block>, chain: seq<L1Block>)
    requires IsViewOf(seen, chain) && |seen| == |chain|
    ensures |FirstInputs(inbox, seen)| == |AllInbox(inbox, chain)| <==> AllReadInFull(inbox, seen, chain)
  {
    if chain != [] {
      var n := |chain| - 1;
      AllReadSplit(inbox, seen, chain);
      CountsAgreeIff(inbox, seen[..n], chain[..n]);
      ViewReadsNoMore(inbox, seen[..n], chain[..n]);
    }
  }

  /** The batches the source makes of a list of inputs: numbered from 1 in the order of reading. */
  function Decoded(inputs: seq<Bytes>): (r: seq<CompressedBatch>)
    ensures |r| == |inputs|
  {
    seq(|inputs|, i requires 0 <= i < |inputs| => DecodeCalldata(i + 1, inputs[i]))
  }

  lemma DecodedSnoc(inputs: seq<Bytes>, x: Bytes)
    ensures Decoded(inputs + [x]) == Decoded(inputs) + [DecodeCalldata(|inputs| + 1, x)]
  {
  }

  lemma InputsSnoc(inbox: Address, chain: seq<L1Block>, block: L1Block)
    ensures FirstInputs(inbox, chain + [block]) == FirstInputs(inbox, chain) + FirstOf(inbox, block)
    ensures AllInbox(inbox, chain + [block]) == AllInbox(inbox, chain) + InboxInputs(inbox, block)
  {
    assert (chain + [block])[..|chain|] == chain;
  }

  function Blanks(n: nat): seq<L1Block> {
    seq(n, _ => [])
  }

  lemma {:induction false} BlanksAddNothing(inbox: Address, chain: seq<L1Block>, n: nat)
    ensures FirstInputs(inbox, chain + Blanks(n)) == FirstInputs(inbox, chain)
  {
    if n == 0 {
      assert chain + Blanks(0) == chain;
    } else {
      assert chain + Blanks(n) == (chain + Blanks(n - 1)) + [[]];
      InputsSnoc(inbox, chain + Blanks(n - 1), []);
      BlanksAddNothing(inbox, chain, n - 1);
    }
  }

  /** An answer of the provider to a block query. */
  datatype Answer = Found(block: L1Block) | Nothing | RpcError

  lemma {:induction false} InboxAppend(inbox: Address, a: L1Block, b: L1Block)
    ensures InboxInputs(inbox, a + b) == InboxInputs(inbox, a) + InboxInputs(inbox, b)
  {
    if a == [] {
      assert a + b == b;
    } else {
      assert (a + b)[0] == a[0] && (a + b)[1..] == a[1..] + b;
      InboxAppend(inbox, a[1..], b);
      Regrouped(if a[0].to == inbox then [a[0].input] else [], InboxInputs(inbox, a[1..]), InboxInputs(inbox, b));
    }
  }

  predicate Foreign(inbox: Address, txs: seq<Tx>) {
    forall i :: 0 <= i < |txs| ==> txs[i].to != inbox
  }

  lemma {:induction false} ForeignHasNoInputs(inbox: Address, txs: seq<Tx>)
    requires Foreign(inbox, txs)
    ensures InboxInputs(inbox, txs) == []
  {
    if txs != [] {
      ForeignHasNoInputs(inbox, txs[1..]);
    }
  }

  function ToInbox(inbox: Address, inputs: seq<Bytes>): L1Block {
    seq(|inputs|, i requires 0 <= i < |inputs| => Tx(inbox, inputs[i]))
  }

  lemma {:induction false} ToInboxInputs(inbox: Address, inputs: seq<Bytes>)
    ensures InboxInputs(inbox, ToInbox(inbox, inputs)) == inputs
  {
    if inputs != [] {
      ToInboxInputs(inbox, inputs[1..]);
      assert ToInbox(inbox, inputs)[1..] == ToInbox(inbox, inputs[1..]);
    }
  }

  /** A block with the sink's transactions among those of others, none of which goes to the inbox. */
  function MinedBlock(inbox: Address, inputs: seq<Bytes>, before: seq<Tx>, after: seq<Tx>): L1Block {
    before + ToInbox(inbox, inputs) + after
  }

  lemma MinedInputs(inbox: Address, inputs: seq<Bytes>, before: seq<Tx>, after: seq<Tx>)
    requires Foreign(inbox, before) && Foreign(inbox, after)
    ensures InboxInputs(inbox, MinedBlock(inbox, inputs, before, after)) == inputs
  {
    InboxAppend(inbox, before + ToInbox(inbox, inputs), after);
    InboxAppend(inbox, before, ToInbox(inbox, inputs));
    ForeignHasNoInputs(inbox, before);
    ForeignHasNoInputs(inbox, after);
    ToInboxInputs(inbox, inputs);
  }

  /** The chain, and the sink's transactions that are not yet mined. */
  datatype L1State = L1State(blocks: seq<L1Block>, pool: seq<Bytes>)

  /** One mined block: how many of the waiting transactions it takes, and the foreign ones around them. */
  datatype Mining = Mining(k: nat, before: seq<Tx>, after: seq<Tx>)

  predicate CanMine(inbox: Address, l: L1State, x: Mining) {
    x.k <= |l.pool| && Foreign(inbox, x.before) && Foreign(inbox, x.after)
  }

  function MineOne(inbox: Address, l: L1State, x: Mining): L1State
    requires CanMine(inbox, l, x)
  {
    L1State(l.blocks + [MinedBlock(inbox, l.pool[..x.k], x.before, x.after)], l.pool[x.k..])
  }

  predicate CanMineAll(inbox: Address, l: L1State, xs: seq<Mining>)
    decreases |xs|
  {
    xs == [] || (CanMine(inbox, l, xs[0]) && CanMineAll(inbox, MineOne(inbox, l, xs[0]), xs[1..]))
  }

  function MineAll(inbox: Address, l: L1State, xs: seq<Mining>): L1State
    requires CanMineAll(inbox, l, xs)
    decreases |xs|
  {
    if xs == [] then l else MineAll(inbox, MineOne(inbox, l, xs[0]), xs[1..])
  }

  lemma {:induction false} MineAllSnoc(inbox: Address, l: L1State, xs: seq<Mining>, x: Mining)
    requires CanMineAll(inbox, l, xs) && CanMine(inbox, MineAll(inbox, l, xs), x)
    ensures CanMineAll(inbox, l, xs + [x]) && MineAll(inbox, l, xs + [x]) == MineOne(inbox, MineAll(inbox, l, xs), x)
    decreases |xs|
  {
    if xs == [] {
      assert [] + [x] == [x] && [x][1..] == [];
    } else {
      assert (xs + [x])[1..] == xs[1..] + [x];
      MineAllSnoc(inbox, MineOne(inbox, l, xs[0]), xs[1..], x);
    }
  }

  /** How the provider behaves during a poll: which queries fail, and which blocks it has no answer for. */
  datatype Provider = Provider(headFails: bool, missing: set<nat>, failing: set<nat>)

  class L1Node {
    var blocks: seq<L1Block>
    /** The calldata of the sink's transactions that are not yet mined. */
    var mempool: seq<Bytes>

    function State(): L1State
      reads this
    {
      L1State(blocks, mempool)
    }

    /** One block is mined; nobody but the sink posts to the inbox. */
    method Mine(inbox: Address) returns (ghost x: Mining)
      modifies this
      ensures CanMine(inbox, old(State()), x) && State() == MineOne(inbox, old(State()), x)
      ensures |blocks| == |old(blocks)| + 1 && old(blocks) <= blocks
      ensures InboxInputs(inbox, blocks[|blocks| - 1]) + mempool == old(mempool)
    {
      assert Foreign(inbox, []);
      var before: seq<Tx> :| Foreign(inbox, before);
      var after: seq<Tx> :| Foreign(inbox, after);
      var k: nat :| k <= |mempool|;
      MinedInputs(inbox, mempool[..k], before, after);
      var block := MinedBlock(inbox, mempool[..k], before, after);
      assert mempool[..k] + mempool[k..] == mempool;
      x := Mining(k, before, after);
      blocks, mempool := blocks + [block], mempool[k..];
    }

    /** Mining happens at any time and only appends. */
    method Grow()
      modifies this
      ensures old(blocks) <= blocks
    {
      var n: nat := *;
      while n > 0
        invariant old(blocks) <= blocks
      {
        var block: L1Block := *;
        blocks := blocks + [block];
        n := n - 1;
      }
    }

    method GetBlock(number: nat, q: Provider) returns (a: Answer)
      requires 1 <= number <= |blocks|
      ensures a == RpcError <==> number in q.failing
      ensures a == Nothing <==> number in q.missing && number !in q.failing
      ensures a.Found? ==> a.block == blocks[number - 1]
    {
      a := if number in q.failing then RpcError
           else if number in q.missing then Nothing
           else Found(blocks[number - 1]);
    }
  }

  /**
   From chain `was` with unmined `pool` to chain `blocks` with unmined `left`: `sent` came behind everything else,
   nothing was lost or repeated, and a lone transaction shares no block with another.
   */
  ghost predicate Posted(inbox: Address, was: seq<L1Block>, pool: seq<Bytes>,
                         blocks: seq<L1Block>, left: seq<Bytes>, sent: seq<Bytes>) {
    && AllInbox(inbox, blocks) + left == AllInbox(inbox, was) + pool + sent
    && (pool == [] && |sent| <= 1 ==> |left| <= 1 && (AtMostOneEach(inbox, was) ==> AtMostOneEach(inbox, blocks)))
  }

  lemma MiningKeepsPosted(inbox: Address, was: seq<L1Block>, pool: seq<Bytes>, blocks: seq<L1Block>, left: seq<Bytes>,
                          blocks': seq<L1Block>, left': seq<Bytes>, sent: seq<Bytes>)
    requires Posted(inbox, was, pool, blocks, left, sent)
    requires |blocks'| == |blocks| + 1 && blocks <= blocks'
    requires InboxInputs(inbox, blocks'[|blocks|]) + left' == left
    ensures Posted(inbox, was, pool, blocks', left', sent)
  {
    MiningConserves(inbox, blocks, blocks', left', left);
    if AtMostOneEach(inbox, blocks) && |left| <= 1 {
      MiningKeepsOneEach(inbox, blocks, blocks');
    }
  }

  lemma MiningConserves(inbox: Address, blocks: seq<L1Block>, blocks': seq<L1Block>,
                        left': seq<Bytes>, left: seq<Bytes>)
    requires |blocks'| == |blocks| + 1 && blocks <= blocks'
    requires InboxInputs(inbox, blocks'[|blocks|]) + left' == left
    ensures AllInbox(inbox, blocks') + left' == AllInbox(inbox, blocks) + left
    ensures |left'| <= |left| && |InboxInputs(inbox, blocks'[|blocks|])| <= |left|
  {
    var inputs := InboxInputs(inbox, blocks'[|blocks|]);
    assert |inputs + left'| == |inputs| + |left'|;
    assert blocks' == blocks + [blocks'[|blocks|]];
    InputsSnoc(inbox, blocks, blocks'[|blocks|]);
    assert (AllInbox(inbox, blocks) + inputs) + left' == AllInbox(inbox, blocks) + (inputs + left');
  }

  lemma MiningKeepsOneEach(inbox: Address, blocks: seq<L1Block>, blocks': seq<L1Block>)
    requires AtMostOneEach(inbox, blocks) && |blocks'| == |blocks| + 1 && blocks <= blocks'
    requires |InboxInputs(inbox, blocks'[|blocks|])| <= 1
    ensures AtMostOneEach(inbox, blocks')
  {
    forall i | 0 <= i < |blocks'| ensures |InboxInputs(inbox, blocks'[i])| <= 1 {
      assert i < |blocks| ==> blocks'[i] == blocks[i];
    }
  }

  class AnvilBatchSink {
    const inbox: Address
    const node: L1Node

    constructor (node: L1Node, inbox: Address)
      ensures this.node == node && this.inbox == inbox
    {
      this.node, this.inbox := node, inbox;
    }

    /**
     Sends the encoded batch and waits until it is mined; `patience` bounds the wait, and giving up on the receipt
     leaves the transaction where it is. A success has put this calldata behind all earlier ones. If nothing of
     the sink's was unmined before, it has a block of its own, and only a failure can leave it unmined. It fails only
     when the send does or after as many blocks as it has patience for.
     */
    method Submit(batch: CompressedBatch, sendFails: bool, patience: nat)
      returns (r: Result<nat, ()>, ghost sent: bool, ghost mined: seq<Mining>)
      modifies node
      ensures sent <==> !sendFails
      ensures sent && r.Err? ==> |mined| == patience && node.mempool != []
      ensures !sent ==> r.Err? && node.State() == old(node.State())
      ensures sent ==>
        var start := L1State(old(node.blocks), old(node.mempool) + [Calldata(batch)]);
        CanMineAll(inbox, start, mined) && node.State() == MineAll(inbox, start, mined)
      ensures old(node.blocks) <= node.blocks
      ensures r.Ok? ==>
        r.value == batch.number && node.mempool == [] &&
        Posted(inbox, old(node.blocks), old(node.mempool), node.blocks, node.mempool, [Calldata(batch)])
      ensures r.Err? ==>
        || Posted(inbox, old(node.blocks), old(node.mempool), node.blocks, node.mempool, [Calldata(batch)])
        || (node.blocks == old(node.blocks) && node.mempool == old(node.mempool))
    {
      sent, mined := false, [];
      var encoded := EncodeCalldata(batch);
      if sendFails {
        return Err(()), sent, mined;
      }
      ghost var was, pool := node.blocks, node.mempool;
      node.mempool := node.mempool + [encoded];
      sent := true;
      ghost var start := node.State();
      var left := patience;
      while node.mempool != []
        invariant CanMineAll(inbox, start, mined) && node.State() == MineAll(inbox, start, mined)
        invariant was <= node.blocks && Posted(inbox, was, pool, node.blocks, node.mempool, [encoded])
        invariant |mined| + left == patience
        decreases left
      {
        if left == 0 {
          return Err(()), sent, mined;
        }
        ghost var blocks, waiting := node.blocks, node.mempool;
        ghost var x := node.Mine(inbox);
        MineAllSnoc(inbox, start, mined, x);
        mined := mined + [x];
        MiningKeepsPosted(inbox, was, pool, blocks, waiting, node.blocks, node.mempool, [encoded]);
        left := left - 1;
      }
      return Ok(batch.number), sent, mined;
    }
  }

  /** The cursor moves to the answered block `number`; the blocks in between were answered by nothing. */
  function Advance(seen: seq<L1Block>, number: nat, block: L1Block): (r: seq<L1Block>)
    requires |seen| < number
    ensures |r| == number
  {
    seen + Blanks(number - 1 - |seen|) + [block]
  }

  lemma AdvanceIsView(seen: seq<L1Block>, chain: seq<L1Block>, number: nat)
    requires IsViewOf(seen, chain) && |seen| < number <= |chain|
    ensures IsViewOf(Advance(seen, number, chain[number - 1]), chain)
  {
  }

  /** The inbox transactions read grow by the first one of the block. */
  lemma AdvanceDelivers(inbox: Address, seen: seq<L1Block>, number: nat, block: L1Block)
    requires |seen| < number
    ensures var inputs := InboxInputs(inbox, block); var was := Decoded(FirstInputs(inbox, seen));
      Decoded(FirstInputs(inbox, Advance(seen, number, block)))
      == if inputs == [] then was else was + [DecodeCalldata(|was| + 1, inputs[0])]
  {
    var gap := Blanks(number - 1 - |seen|);
    BlanksAddNothing(inbox, seen, |gap|);
    InputsSnoc(inbox, seen + gap, block);
    DeliveryStep(inbox, seen, Advance(seen, number, block), block);
  }

  lemma DeliveryStep(inbox: Address, seen: seq<L1Block>, seen': seq<L1Block>, block: L1Block)
    requires FirstInputs(inbox, seen') == FirstInputs(inbox, seen) + FirstOf(inbox, block)
    ensures var inputs := InboxInputs(inbox, block); var was := Decoded(FirstInputs(inbox, seen));
      Decoded(FirstInputs(inbox, seen')) == if inputs == [] then was else was + [DecodeCalldata(|was| + 1, inputs[0])]
  {
    if InboxInputs(inbox, block) != [] {
      DecodedSnoc(FirstInputs(inbox, seen), InboxInputs(inbox, block)[0]);
    }
  }

  /** What the source has delivered, and under which number the next batch goes, follow from what it saw. */
  ghost predicate SourceState(inbox: Address, chain: seq<L1Block>, seen: seq<L1Block>,
                              delivered: seq<CompressedBatch>) {
    IsViewOf(seen, chain) && delivered == Decoded(FirstInputs(inbox, seen))
  }

  /** One answered block. */
  lemma SourceStep(inbox: Address, chain: seq<L1Block>, seen: seq<L1Block>, delivered: seq<CompressedBatch>,
                   number: nat)
    requires SourceState(inbox, chain, seen, delivered) && |seen| < number <= |chain|
    ensures var inputs := InboxInputs(inbox, chain[number - 1]);
      SourceState(inbox, chain, Advance(seen, number, chain[number - 1]),
                  if inputs == [] then delivered else delivered + [DecodeCalldata(|delivered| + 1, inputs[0])])
  {
    AdvanceIsView(seen, chain, number);
    AdvanceDelivers(inbox, seen, number, chain[number - 1]);
  }

  /** Every block beyond the cursor, up to the head, is one that the provider has no answer for. */
  predicate OnlyMissingLeft(cursor: nat, head: nat, missing: set<nat>) {
    forall n :: cursor < n <= head ==> n in missing
  }

  /** The head query fails, or that of a block which only missing ones come before. */
  predicate QueryFails(q: Provider, cursor: nat, head: nat) {
    q.headFails || exists n: nat :: cursor < n <= head && n in q.failing && OnlyMissingLeft(cursor, n - 1, q.missing)
  }

  lemma SeenOneMore(was: seq<L1Block>, seen: seq<L1Block>, chain: seq<L1Block>, number: nat, missing: set<nat>)
    requires SeenSince(was, seen, chain, missing) && |seen| < number <= |chain|
    requires OnlyMissingLeft(|seen|, number - 1, missing)
    ensures SeenSince(was, Advance(seen, number, chain[number - 1]), chain, missing)
  {
  }

  class AnvilBatchSource {
    const inbox: Address
    const node: L1Node
    var lastScannedBlock: nat
    var nextBatchNumber: nat

    /** Everything delivered so far, and the scanned blocks as the provider answered them. */
    ghost var delivered: seq<CompressedBatch>
    ghost var seen: seq<L1Block>

    ghost predicate Valid()
      reads this, node
    {
      && lastScannedBlock == |seen|
      && nextBatchNumber == |delivered| + 1
      && SourceState(inbox, node.blocks, seen, delivered)
    }

    constructor (node: L1Node, inbox: Address)
      ensures Valid() && this.node == node && this.inbox == inbox
      ensures delivered == [] && seen == []
    {
      this.node, this.inbox := node, inbox;
      lastScannedBlock, nextBatchNumber := 0, 1;
      delivered, seen := [], [];
    }

    /** The first transaction to the inbox, by a scan of the block. */
    method FindInboxTx(block: L1Block) returns (r: Option<Bytes>)
      ensures r == if InboxInputs(inbox, block) == [] then None else Some(InboxInputs(inbox, block)[0])
    {
      for i := 0 to |block|
        invariant InboxInputs(inbox, block[i..]) == InboxInputs(inbox, block)
      {
        assert block[i..][1..] == block[i + 1..];
        if block[i].to == inbox {
          return Some(block[i].input);
        }
      }
      return None;
    }

    /** The chain may have grown by the time the provider is asked again. */
    method LetChainGrow()
      requires Valid()
      modifies node
      ensures Valid() && old(node.blocks) <= node.blocks
    {
      ghost var before := node.blocks;
      node.Grow();
      assert forall i :: 0 <= i < |seen| ==> node.blocks[i] == before[i];
    }

    /** Scans one answered block: the cursor moves to it, and its first inbox transaction becomes the next batch. */
    method ScanBlock(number: nat, block: L1Block) returns (r: Option<CompressedBatch>)
      requires Valid() && lastScannedBlock < number <= |node.blocks| && block == node.blocks[number - 1]
      modifies this
      ensures Valid() && lastScannedBlock == number && old(seen) <= seen
      ensures delivered == if r.Some? then old(delivered) + [r.value] else old(delivered)
      ensures seen == Advance(old(seen), number, block)
    {
      var input := FindInboxTx(block);
      SourceStep(inbox, node.blocks, seen, delivered, number);
      MoveTo(number, block);
      if input.None? {
        return None;
      }
      var batch := Deliver(input.value);
      r := Some(batch);
    }

    method MoveTo(number: nat, ghost block: L1Block)
      requires |seen| < number
      modifies this`lastScannedBlock, this`seen
      ensures lastScannedBlock == number && seen == Advance(old(seen), number, block) && old(seen) <= seen
    {
      seen := Advance(seen, number, block);
      lastScannedBlock := number;
    }

    /** The calldata becomes the batch with the next number. */
    method Deliver(input: Bytes) returns (batch: CompressedBatch)
      modifies this`nextBatchNumber, this`delivered
      ensures batch == DecodeCalldata(old(nextBatchNumber), input)
      ensures nextBatchNumber == old(nextBatchNumber) + 1 && delivered == old(delivered) + [batch]
    {
      batch := DecodeCalldata(nextBatchNumber, input);
      nextBatchNumber := nextBatchNumber + 1;
      delivered := delivered + [batch];
    }

    /**
     One poll of L1. Whatever it answers, and however the chain grew and the provider failed before or during the
     call, what has been delivered is the decoding of the first inbox transactions of the scanned blocks. It fails only
     when a query does, and has nothing to deliver only when every block there was at the call is scanned or missing.
     */
    method NextBatch(q: Provider) returns (r: Result<Option<CompressedBatch>, ()>)
      requires Valid()
      modifies this, node
      ensures Valid() && old(node.blocks) <= node.blocks
      ensures SeenSince(old(seen), seen, node.blocks, q.missing)
      ensures r.Ok? && r.value.Some? ==> delivered == old(delivered) + [r.value.value]
      ensures !(r.Ok? && r.value.Some?) ==> delivered == old(delivered)
      ensures r.Err? ==> QueryFails(q, |seen|, |node.blocks|)
      ensures r == Ok(None) ==> OnlyMissingLeft(|seen|, |old(node.blocks)|, q.missing)
    {
      LetChainGrow();
      if q.headFails {
        return Err(());
      }
      var head := |node.blocks|;
      if head <= lastScannedBlock {
        return Ok(None);
      }
      ghost var was := seen;
      for number := lastScannedBlock + 1 to head + 1
        invariant Valid() && lastScannedBlock < number && head <= |node.blocks|
        invariant delivered == old(delivered) && old(node.blocks) <= node.blocks
        invariant SeenSince(was, seen, node.blocks, q.missing)
        invariant OnlyMissingLeft(lastScannedBlock, number - 1, q.missing)
      {
        ghost var blocks := node.blocks;
        LetChainGrow();
        SeenSinceGrows(was, seen, blocks, node.blocks, q.missing);
        var answer := node.GetBlock(number, q);
        if answer.RpcError? {
          return Err(());
        } else if answer.Found? {
          SeenOneMore(was, seen, node.blocks, number, q.missing);
          var batch := ScanBlock(number, answer.block);
          if batch.Some? {
            return Ok(batch);
          }
        }
      }
      return Ok(None);
    }
  }
}
