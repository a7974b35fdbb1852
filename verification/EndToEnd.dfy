/**
 Sequencer, sink, L1, source and validator together. The sequencer waits inside a sink call until the receipt is
 there; meanwhile the producer, the workers, L1 and the validator go on. A run starts after any earlier life: with any
 old transactions in the inbox, any left unmined, and with checkpoints that may or may not agree with them or with each
 other. The end of every run is such a start again.
 */
module EndToEnd {
  import opened Basics
  import opened Wire
  import opened Pipeline
  import opened Sequential
  import opened Refinement
  import opened Drain
  import opened Transport
  import opened ValidatorRole

  /**
   `waiting`: a sink call has sent its transaction and has no answer yet. `sent` lists the batches put on L1, `seen` the
   scanned blocks as the provider answered them.
   */
  datatype System = System(
    p: State, waiting: bool, sent: seq<CompressedBatch>,
    chain: seq<L1Block>, mempool: seq<Bytes>,
    seen: seq<L1Block>, delivered: seq<CompressedBatch>, d: Progress)

  datatype Action =
    | Inner(e: Event)
    | SkipBatch(at: nat)
    | SendFails(at: nat)
    | Send(at: nat)
    | MineBlock(k: nat, before: seq<Tx>, after: seq<Tx>)
    | Receipt(at: nat, saveOk: bool)
    | NoReceipt(at: nat)
    | ScanNext
    | ScanMissed

  /** `n0` and `v0` are the numbers in the sequencer's and in the validator's checkpoint. */
  datatype Params = Params(c: Codec, cfg: Config, inbox: Address, n0: nat, v0: nat)

  predicate IsHead(s: State, at: nat) {
    IsLeast(s.ready, at) && s.ready[at].number == s.nextSubmission
  }

  predicate SurroundingsStep(e: Event) {
    e.Feed? || e.Close? || e.Finish?
  }

  predicate Can(m: Params, s: System, a: Action) {
    match a
    case Inner(e) => !e.Submit? && Enabled(m.c, m.cfg, s.p, e) && (s.waiting ==> SurroundingsStep(e))
    case SkipBatch(at) => !s.waiting && IsHead(s.p, at) && ShouldSkip(s.p.lastSubmitted, s.p.nextSubmission)
    case SendFails(at) => !s.waiting && IsHead(s.p, at) && !ShouldSkip(s.p.lastSubmitted, s.p.nextSubmission)
    case Send(at) => !s.waiting && IsHead(s.p, at) && !ShouldSkip(s.p.lastSubmitted, s.p.nextSubmission)
    case MineBlock(k, before, after) => k <= |s.mempool| && Foreign(m.inbox, before) && Foreign(m.inbox, after)
    case Receipt(at, _) => s.waiting && s.mempool == [] && IsHead(s.p, at)
    case NoReceipt(at) => s.waiting && IsHead(s.p, at)
    case ScanNext => |s.seen| < |s.chain|
    case ScanMissed => |s.seen| < |s.chain|
  }

  /** The source gets an answer for the next L1 block; the first inbox transaction in it is processed as a batch. */
  function Scan(m: Params, s: System, answer: L1Block): System {
    var first := FirstOf(m.inbox, answer);
    var t := s.(seen := s.seen + [answer]);
    if first == [] then t
    else
      var batch := DecodeCalldata(|s.delivered| + 1, first[0]);
      t.(delivered := s.delivered + [batch], d := Process(m.c, s.d, batch))
  }

  function Do(m: Params, s: System, a: Action): System
    requires Can(m, s, a)
  {
    match a
    case Inner(e) => s.(p := Next(m.c, m.cfg, s.p, e))
    case SkipBatch(at) => s.(p := SubmitReady(s.p, at, true, true))
    case SendFails(at) => s.(p := SubmitReady(s.p, at, false, true))
    case Send(at) =>
      var batch := s.p.ready[at].batch;
      s.(waiting := true, sent := s.sent + [batch], mempool := s.mempool + [Calldata(batch)])
    case MineBlock(k, before, after) =>
      s.(chain := s.chain + [MinedBlock(m.inbox, s.mempool[..k], before, after)], mempool := s.mempool[k..])
    case Receipt(at, saveOk) => s.(p := SubmitReady(s.p, at, true, saveOk), waiting := false)
    case NoReceipt(at) => s.(p := SubmitReady(s.p, at, false, true), waiting := false)
    case ScanNext => Scan(m, s, s.chain[|s.seen|])
    case ScanMissed => Scan(m, s, [])
  }

  predicate CanAll(m: Params, s: System, acts: seq<Action>)
    decreases |acts|
  {
    acts == [] || (Can(m, s, acts[0]) && CanAll(m, Do(m, s, acts[0]), acts[1..]))
  }

  function DoAll(m: Params, s: System, acts: seq<Action>): System
    requires CanAll(m, s, acts)
    decreases |acts|
  {
    if acts == [] then s else DoAll(m, Do(m, s, acts[0]), acts[1..])
  }

  /** The start of a life: the chain and what is unmined are as the earlier one left them. */
  function Boot(m: Params, l: L1State): System {
    System(Init(m.n0), false, [], l.blocks, l.pool, [], [], Progress(m.v0, []))
  }

  /** The inbox transactions of the earlier life, the unmined ones last. */
  function Past(m: Params, l: L1State): seq<Bytes> {
    AllInbox(m.inbox, l.blocks) + l.pool
  }

  function Inputs(bs: seq<CompressedBatch>): (r: seq<Bytes>)
    ensures |r| == |bs|
  {
    seq(|bs|, i requires 0 <= i < |bs| => Calldata(bs[i]))
  }

  // ---------------------------------------------------------------- invariant

  ghost predicate SentEntry(m: Params, s: System, i: nat)
    requires i < |s.sent|
  {
    var n := m.n0 + 1 + i;
    n <= |s.p.cut| && m.c.encode(s.p.cut[n - 1]).Some? && s.sent[i] == Made(m.c, s.p.cut, n)
  }

  /** How the number of batches put on L1 relates to the sequencer's own log. */
  ghost predicate Phase(m: Params, s: System) {
    && (s.waiting ==> s.p.lost == {} && m.n0 < s.p.nextSubmission && |s.sent| == |s.p.attempts| + 1)
    && (!s.waiting && s.p.lost == {} ==> |s.sent| == |s.p.attempts|)
    && (s.p.lost != {} ==> |s.sent| <= |s.p.attempts|)
  }

  ghost predicate SequencerSide(m: Params, s: System) {
    && Inv(m.c, s.p) && OrderInv(m.c, m.n0, Abs(s.p))
    && (forall i :: 0 <= i < |s.sent| ==> SentEntry(m, s, i))
    && Phase(m, s)
  }

  /** Nothing is lost or repeated on the way to L1, and what is delivered is what the answers held. */
  ghost predicate L1Side(m: Params, past: seq<Bytes>, s: System) {
    && AllInbox(m.inbox, s.chain) + s.mempool == past + Inputs(s.sent)
    && IsViewOf(s.seen, s.chain)
    && s.delivered == Decoded(FirstInputs(m.inbox, s.seen))
  }

  /** No scanned block held two inbox transactions, and none that was answered by nothing held one. */
  predicate ReadAll(m: Params, s: System) {
    |s.seen| <= |s.chain| && AllReadInFull(m.inbox, s.seen, s.chain[..|s.seen|])
  }

  /** The blocks of the first `k` inbox transactions as far as they are old and not covered by the checkpoint. */
  function OldBlocks(m: Params, past: seq<Bytes>, k: nat): seq<Block> {
    if k == 0 then []
    else
      var one := if m.v0 < k <= |past| then BlocksOf(m.c, DecodeCalldata(k, past[k - 1])) else [];
      OldBlocks(m, past, k - 1) + one
  }

  /** The first new delivery that the validator does not skip. */
  function FirstNew(m: Params, p: nat): nat {
    Max(m.v0, p)
  }

  /** The blocks cut for the new ones among the first `k` deliveries, the skipped ones left out. */
  function NewBlocks(m: Params, p: nat, cut: seq<seq<Block>>, k: nat): seq<Block>
    requires k > FirstNew(m, p) ==> m.n0 + k - p <= |cut|
  {
    if k > FirstNew(m, p) then Flatten(cut[m.n0 + FirstNew(m, p) - p..m.n0 + k - p]) else []
  }

  /** The validator has executed the old batches its checkpoint does not cover, then the new ones, each once. */
  ghost predicate ValidatorSide(m: Params, past: seq<Bytes>, s: System) {
    var k := |s.delivered|;
    && m.v0 <= s.d.lastDerived <= Max(m.v0, k)
    && (k > FirstNew(m, |past|) ==> m.n0 + k - |past| <= |s.p.cut|)
    && s.d.executed == OldBlocks(m, past, k) + NewBlocks(m, |past|, s.p.cut, k)
  }

  /** Sequencer and L1 agree, however many transactions the inbox held at the start. */
  ghost predicate WireInv(m: Params, past: seq<Bytes>, s: System) {
    SequencerSide(m, s) && L1Side(m, past, s)
  }

  ghost predicate SysInv(m: Params, past: seq<Bytes>, s: System) {
    WireInv(m, past, s) && (ReadAll(m, s) ==> ValidatorSide(m, past, s))
  }

  lemma StepKeepsOrder(m: Params, s: State, e: Event)
    requires Inv(m.c, s) && OrderInv(m.c, m.n0, Abs(s)) && Enabled(m.c, m.cfg, s, e)
    ensures Inv(m.c, Next(m.c, m.cfg, s, e)) && OrderInv(m.c, m.n0, Abs(Next(m.c, m.cfg, s, e)))
  {
    StepKeepsInv(m.c, m.cfg, s, e);
    StepSimulates(m.c, m.cfg, s, e);
    PlayKeepsOrder(m.c, m.n0, Abs(s), Project(m.cfg, s, e));
  }

  lemma SubmitStep(m: Params, s: State, at: nat, sinkOk: bool, saveOk: bool)
    requires Inv(m.c, s) && OrderInv(m.c, m.n0, Abs(s)) && IsHead(s, at)
    ensures var t := SubmitReady(s, at, sinkOk, saveOk); Inv(m.c, t) && OrderInv(m.c, m.n0, Abs(t))
    ensures s.lost == {} && s.nextSubmission <= |s.cut| && m.c.encode(s.cut[s.nextSubmission - 1]).Some?
    ensures s.ready[at].batch == Made(m.c, s.cut, s.nextSubmission)
    ensures ShouldSkip(s.lastSubmitted, s.nextSubmission) <==> s.nextSubmission <= m.n0
  {
    StepKeepsOrder(m, s, Submit(at, sinkOk, saveOk));
    NothingAfterLoss(s, at);
    assert IsPreparedFrom(m.c, s.cut, s.ready[at]);
  }

  predicate CutsGrow(s: State, t: State) {
    |s.cut| <= |t.cut| && t.cut[..|s.cut|] == s.cut
  }

  /** What the log refers to does not change when more batches are cut. */
  lemma SentSurvives(m: Params, s: System, t: System)
    requires forall i :: 0 <= i < |s.sent| ==> SentEntry(m, s, i)
    requires t.sent == s.sent && CutsGrow(s.p, t.p)
    ensures forall i :: 0 <= i < |t.sent| ==> SentEntry(m, t, i)
  {
    forall i | 0 <= i < |t.sent| ensures SentEntry(m, t, i) {
      assert SentEntry(m, s, i);
      assert t.p.cut[m.n0 + i] == t.p.cut[..|s.p.cut|][m.n0 + i];
    }
  }

  lemma ValidatorSurvives(m: Params, past: seq<Bytes>, s: System, t: System)
    requires ValidatorSide(m, past, s) && t.delivered == s.delivered && t.d == s.d && CutsGrow(s.p, t.p)
    ensures ValidatorSide(m, past, t)
  {
    var k, p := |s.delivered|, |past|;
    if k > FirstNew(m, p) {
      SliceOfLonger(s.p.cut, t.p.cut, m.n0 + FirstNew(m, p) - p, m.n0 + k - p);
    }
  }

  /** Only a submission touches the log, and cuts are only added. */
  lemma InnerFrame(c: Codec, cfg: Config, s: State, e: Event)
    requires Enabled(c, cfg, s, e) && !e.Submit?
    ensures var t := Next(c, cfg, s, e);
      t.attempts == s.attempts && t.lost == s.lost && t.nextSubmission == s.nextSubmission && CutsGrow(s, t)
  {
  }

  lemma InnerKeeps(m: Params, past: seq<Bytes>, s: System, e: Event)
    requires WireInv(m, past, s) && Can(m, s, Inner(e))
    ensures WireInv(m, past, Do(m, s, Inner(e)))
  {
    StepKeepsOrder(m, s.p, e);
    InnerFrame(m.c, m.cfg, s.p, e);
    SentSurvives(m, s, Do(m, s, Inner(e)));
  }

  predicate AnswersSubmission(a: Action) {
    a.SkipBatch? || a.SendFails? || a.Receipt? || a.NoReceipt?
  }

  lemma SubmitKeeps(m: Params, past: seq<Bytes>, s: System, a: Action)
    requires WireInv(m, past, s) && Can(m, s, a) && AnswersSubmission(a)
    ensures WireInv(m, past, Do(m, s, a))
  {
    var sinkOk := a.SkipBatch? || a.Receipt?;
    var saveOk := a.Receipt? ==> a.saveOk;
    SubmitStep(m, s.p, a.at, sinkOk, saveOk);
    var t := s.(p := SubmitReady(s.p, a.at, sinkOk, saveOk), waiting := false);
    assert Do(m, s, a) == t;
    SentSurvives(m, s, t);
  }

  lemma SendKeeps(m: Params, past: seq<Bytes>, s: System, at: nat)
    requires WireInv(m, past, s) && Can(m, s, Send(at))
    ensures WireInv(m, past, Do(m, s, Send(at)))
  {
    SendKeepsSequencerSide(m, s, at);
    SentSnoc(AllInbox(m.inbox, s.chain), s.mempool, past, s.sent, s.p.ready[at].batch);
  }

  lemma SendKeepsSequencerSide(m: Params, s: System, at: nat)
    requires SequencerSide(m, s) && Can(m, s, Send(at))
    ensures SequencerSide(m, Do(m, s, Send(at)))
  {
    SubmitStep(m, s.p, at, true, true);
    var t := Do(m, s, Send(at));
    forall i | 0 <= i < |t.sent| ensures SentEntry(m, t, i) {
      if i < |s.sent| {
        assert SentEntry(m, s, i);
      }
    }
  }

  lemma SentSnoc(all: seq<Bytes>, pool: seq<Bytes>, past: seq<Bytes>,
                 sent: seq<CompressedBatch>, batch: CompressedBatch)
    requires all + pool == past + Inputs(sent)
    ensures all + (pool + [Calldata(batch)]) == past + Inputs(sent + [batch])
  {
    assert Inputs(sent + [batch]) == Inputs(sent) + [Calldata(batch)];
    assert all + (pool + [Calldata(batch)]) == (all + pool) + [Calldata(batch)];
    assert past + (Inputs(sent) + [Calldata(batch)]) == (past + Inputs(sent)) + [Calldata(batch)];
  }

  lemma MineKeeps(m: Params, past: seq<Bytes>, s: System, k: nat, before: seq<Tx>, after: seq<Tx>)
    requires WireInv(m, past, s) && Can(m, s, MineBlock(k, before, after))
    ensures WireInv(m, past, Do(m, s, MineBlock(k, before, after)))
  {
    MineKeepsInbox(m, s, k, before, after);
    SentSurvives(m, s, Do(m, s, MineBlock(k, before, after)));
  }

  /** Mining moves transactions from the mempool to the chain and nothing else. */
  lemma MineKeepsInbox(m: Params, s: System, k: nat, before: seq<Tx>, after: seq<Tx>)
    requires Can(m, s, MineBlock(k, before, after))
    ensures var t := Do(m, s, MineBlock(k, before, after));
      && |t.mempool| <= |s.mempool|
      && (AtMostOneEach(m.inbox, s.chain) && |s.mempool| <= 1 ==> AtMostOneEach(m.inbox, t.chain))
      && AllInbox(m.inbox, t.chain) + t.mempool == AllInbox(m.inbox, s.chain) + s.mempool
  {
    var t := Do(m, s, MineBlock(k, before, after));
    MinedInputs(m.inbox, s.mempool[..k], before, after);
    assert s.mempool == s.mempool[..k] + s.mempool[k..];
    MiningConserves(m.inbox, s.chain, t.chain, t.mempool, s.mempool);
    if AtMostOneEach(m.inbox, s.chain) && |s.mempool| <= 1 {
      MiningKeepsOneEach(m.inbox, s.chain, t.chain);
    }
  }

  lemma {:induction false} InboxOfPrefix(inbox: Address, chain: seq<L1Block>, n: nat)
    requires n <= |chain|
    ensures IsPrefix(AllInbox(inbox, chain[..n]), AllInbox(inbox, chain))
    decreases |chain|
  {
    if n < |chain| {
      var init := chain[..|chain| - 1];
      InboxOfPrefix(inbox, init, n);
      assert init[..n] == chain[..n];
    } else {
      assert chain[..n] == chain;
    }
  }

  /** Delivered batch `i` is the decoding of what stands at that place of the inbox, old or sent. */
  lemma DeliveredIsInbox(m: Params, past: seq<Bytes>, s: System, i: nat)
    requires L1Side(m, past, s) && ReadAll(m, s) && i < |s.delivered|
    ensures i < |past| + |s.sent|
    ensures s.delivered[i] == DecodeCalldata(i + 1, if i < |past| then past[i] else Calldata(s.sent[i - |past|]))
  {
    DeliveredIsRead(m, past, s);
    InboxOfPrefix(m.inbox, s.chain, |s.seen|);
    PlaceInInbox(s.delivered, AllInbox(m.inbox, s.chain[..|s.seen|]), AllInbox(m.inbox, s.chain), s.mempool,
                 past, s.sent, i);
  }

  /** The same on values: `read` is what was read, `all` the inbox on the chain and `pool` what is unmined. */
  lemma PlaceInInbox(delivered: seq<CompressedBatch>, read: seq<Bytes>, all: seq<Bytes>, pool: seq<Bytes>,
                     past: seq<Bytes>, sent: seq<CompressedBatch>, i: nat)
    requires delivered == Decoded(read) && IsPrefix(read, all) && all + pool == past + Inputs(sent) && i < |delivered|
    ensures i < |past| + |sent|
    ensures delivered[i] == DecodeCalldata(i + 1, if i < |past| then past[i] else Calldata(sent[i - |past|]))
  {
    InboxEntry(read, all, pool, past, Inputs(sent), i);
  }

  lemma DeliveredIsRead(m: Params, past: seq<Bytes>, s: System)
    requires L1Side(m, past, s) && ReadAll(m, s)
    ensures s.delivered == Decoded(AllInbox(m.inbox, s.chain[..|s.seen|]))
  {
    ReadsAllIff(m.inbox, s.seen, s.chain[..|s.seen|]);
  }

  lemma InboxEntry(read: seq<Bytes>, all: seq<Bytes>, pool: seq<Bytes>, past: seq<Bytes>, sent: seq<Bytes>, i: nat)
    requires IsPrefix(read, all) && all + pool == past + sent && i < |read|
    ensures i < |past| + |sent| && read[i] == if i < |past| then past[i] else sent[i - |past|]
  {
    assert |all + pool| == |past + sent|;
    assert read[i] == all[..|read|][i];
    assert all[i] == (all + pool)[i];
    assert (all + pool)[i] == (past + sent)[i];
  }

  /**
   Delivered batch `i`, when it was not there at the start, is the batch sent for that position; the source numbers it
   by its place in the inbox, the sequencer by its place behind the checkpoint.
   */
  lemma DeliveredIsSent(m: Params, past: seq<Bytes>, s: System, i: nat)
    requires WireInv(m, past, s) && ReadAll(m, s) && |past| <= i < |s.delivered|
    ensures i - |past| < |s.sent| && s.delivered[i] == s.sent[i - |past|].(number := i + 1)
    ensures s.sent[i - |past|].number == m.n0 + 1 + (i - |past|)
  {
    DeliveredIsInbox(m, past, s, i);
    var j := i - |past|;
    HeaderRoundTrip(s.sent[j], i + 1);
    assert SentEntry(m, s, j);
  }

  lemma ScanAppends(m: Params, t: System, answer: L1Block)
    ensures var inputs := InboxInputs(m.inbox, answer); var u := Scan(m, t, answer);
      && (inputs == [] ==> u.delivered == t.delivered && u.d == t.d)
      && (inputs != [] ==> u.delivered == t.delivered + [DecodeCalldata(|t.delivered| + 1, inputs[0])]
                           && u.d == Process(m.c, t.d, u.delivered[|t.delivered|]))
    ensures Scan(m, t, answer) == t.(seen := t.seen + [answer], delivered := Scan(m, t, answer).delivered,
                                     d := Scan(m, t, answer).d)
  {
  }

  lemma ScanReads(m: Params, s: System, answer: L1Block)
    requires s.delivered == Decoded(FirstInputs(m.inbox, s.seen))
    ensures Scan(m, s, answer).delivered == Decoded(FirstInputs(m.inbox, s.seen + [answer]))
  {
    InputsSnoc(m.inbox, s.seen, answer);
    ScanAppends(m, s, answer);
    ReadOneMore(FirstInputs(m.inbox, s.seen), FirstOf(m.inbox, answer));
  }

  lemma ReadOneMore(read: seq<Bytes>, inputs: seq<Bytes>)
    requires |inputs| <= 1
    ensures Decoded(read + inputs)
      == if inputs == [] then Decoded(read) else Decoded(read) + [DecodeCalldata(|read| + 1, inputs[0])]
  {
    if inputs == [] {
      assert read + inputs == read;
    } else {
      assert inputs == [inputs[0]];
      DecodedSnoc(read, inputs[0]);
    }
  }

  lemma ScanKeeps(m: Params, past: seq<Bytes>, s: System, answer: L1Block)
    requires WireInv(m, past, s) && |s.seen| < |s.chain| && (answer == s.chain[|s.seen|] || answer == [])
    ensures WireInv(m, past, Scan(m, s, answer))
  {
    ScanKeepsL1(m, past, s, answer);
    ScanKeepsSequencer(m, s, answer);
  }

  lemma ScanKeepsL1(m: Params, past: seq<Bytes>, s: System, answer: L1Block)
    requires L1Side(m, past, s) && |s.seen| < |s.chain| && (answer == s.chain[|s.seen|] || answer == [])
    ensures L1Side(m, past, Scan(m, s, answer))
  {
    ViewSnoc(s.seen, answer, s.chain);
    ScanReads(m, s, answer);
    ScanAppends(m, s, answer);
  }

  lemma ViewSnoc(seen: seq<L1Block>, answer: L1Block, chain: seq<L1Block>)
    requires IsViewOf(seen, chain) && |seen| < |chain| && (answer == chain[|seen|] || answer == [])
    ensures IsViewOf(seen + [answer], chain)
  {
  }

  lemma ScanKeepsSequencer(m: Params, s: System, answer: L1Block)
    requires SequencerSide(m, s)
    ensures SequencerSide(m, Scan(m, s, answer))
  {
    ScanAppends(m, s, answer);
    SentSurvives(m, s, Scan(m, s, answer));
  }

  /** Delivered batch `i`, when it was there at the start, is the decoding of the old transaction at that place. */
  lemma DeliveredIsOld(m: Params, past: seq<Bytes>, s: System, i: nat)
    requires L1Side(m, past, s) && ReadAll(m, s) && i < |s.delivered| && i < |past|
    ensures s.delivered[i] == DecodeCalldata(i + 1, past[i])
  {
    DeliveredIsInbox(m, past, s, i);
  }

  /** One more delivery: skipped, old or new. */
  lemma ProcessKeeps(m: Params, past: seq<Bytes>, s: System, t: System)
    requires RoundTrips(m.c) && ValidatorSide(m, past, s) && WireInv(m, past, t) && ReadAll(m, t)
    requires t.p == s.p && |t.delivered| == |s.delivered| + 1
    requires t.d == Process(m.c, s.d, t.delivered[|s.delivered|])
    ensures ValidatorSide(m, past, t)
  {
    var k := |s.delivered|;
    if k < |past| {
      DeliveredIsOld(m, past, t, k);
      OldProcessed(m, past, s, t);
    } else {
      DeliveredIsMade(m, past, t, k);
      NewProcessed(m, past, s, t);
    }
  }

  /** A new delivery is the batch cut for its place, but for the number. */
  lemma DeliveredIsMade(m: Params, past: seq<Bytes>, s: System, i: nat)
    requires WireInv(m, past, s) && ReadAll(m, s) && |past| <= i < |s.delivered|
    ensures var n := m.n0 + 1 + i - |past|;
      && n <= |s.p.cut| && m.c.encode(s.p.cut[n - 1]).Some?
      && s.delivered[i] == Made(m.c, s.p.cut, n).(number := i + 1)
  {
    DeliveredIsSent(m, past, s, i);
    assert SentEntry(m, s, i - |past|);
  }

  lemma OldProcessed(m: Params, past: seq<Bytes>, s: System, t: System)
    requires ValidatorSide(m, past, s) && t.p == s.p && |t.delivered| == |s.delivered| + 1 <= |past|
    requires t.delivered[|s.delivered|] == DecodeCalldata(|s.delivered| + 1, past[|s.delivered|])
    requires t.d == Process(m.c, s.d, t.delivered[|s.delivered|])
    ensures ValidatorSide(m, past, t)
  {
    var k := |s.delivered|;
    assert s.d.executed + [] == s.d.executed;
    assert OldBlocks(m, past, k) + [] == OldBlocks(m, past, k);
  }

  lemma NewProcessed(m: Params, past: seq<Bytes>, s: System, t: System)
    requires RoundTrips(m.c) && ValidatorSide(m, past, s)
    requires t.p == s.p && |past| < |t.delivered| == |s.delivered| + 1
    requires var n := m.n0 + |t.delivered| - |past|;
      && n <= |s.p.cut| && m.c.encode(s.p.cut[n - 1]).Some?
      && t.delivered[|s.delivered|] == Made(m.c, s.p.cut, n).(number := |t.delivered|)
    requires t.d == Process(m.c, s.d, t.delivered[|s.delivered|])
    ensures ValidatorSide(m, past, t)
  {
    var k, p := |s.delivered|, |past|;
    assert OldBlocks(m, past, k + 1) == OldBlocks(m, past, k) + [];
    if k >= FirstNew(m, p) {
      var hi := m.n0 + k - p;
      assert m.c.decode(t.delivered[k].data) == Some(s.p.cut[hi]);
      NewBlocksSnoc(m, p, s.p.cut, k);
      Regrouped(OldBlocks(m, past, k), NewBlocks(m, p, s.p.cut, k), s.p.cut[hi]);
    }
  }

  lemma NewBlocksSnoc(m: Params, p: nat, cut: seq<seq<Block>>, k: nat)
    requires k >= FirstNew(m, p) && m.n0 + k - p < |cut|
    ensures NewBlocks(m, p, cut, k + 1) == NewBlocks(m, p, cut, k) + cut[m.n0 + k - p]
  {
    var lo, hi := m.n0 + FirstNew(m, p) - p, m.n0 + k - p;
    SliceSnoc(cut, lo, hi);
    FlattenSnoc(cut[lo..hi], cut[hi]);
    assert k == FirstNew(m, p) ==> cut[lo..hi] == [];
  }

  /** Each action keeps sequencer and L1 aligned, whatever the codec and whatever was in the inbox before. */
  lemma ActionKeepsWire(m: Params, past: seq<Bytes>, s: System, a: Action)
    requires WireInv(m, past, s) && Can(m, s, a)
    ensures WireInv(m, past, Do(m, s, a))
  {
    match a
    case Inner(e) => InnerKeeps(m, past, s, e);
    case Send(at) => SendKeeps(m, past, s, at);
    case MineBlock(k, before, after) => MineKeeps(m, past, s, k, before, after);
    case ScanNext => ScanKeeps(m, past, s, s.chain[|s.seen|]);
    case ScanMissed => ScanKeeps(m, past, s, []);
    case _ => SubmitKeeps(m, past, s, a);
  }

  /** What has been read in full so far, was before the last scan. */
  lemma ReadAllBefore(m: Params, s: System, answer: L1Block)
    requires |s.seen| < |s.chain| && ReadAll(m, Scan(m, s, answer))
    ensures ReadAll(m, s)
  {
    var t, n := Scan(m, s, answer), |s.seen|;
    ScanAppends(m, s, answer);
    AllReadSplit(m.inbox, t.seen, t.chain[..n + 1]);
    assert t.seen[..n] == s.seen && t.chain[..n + 1][..n] == s.chain[..n];
  }

  /** A scan either changes nothing the validator sees, or delivers one batch that is processed at once. */
  lemma ScanKeepsValidator(m: Params, past: seq<Bytes>, s: System, answer: L1Block)
    requires RoundTrips(m.c) && SysInv(m, past, s) && |s.seen| < |s.chain|
    requires WireInv(m, past, Scan(m, s, answer)) && ReadAll(m, Scan(m, s, answer))
    ensures ValidatorSide(m, past, Scan(m, s, answer))
  {
    var t := Scan(m, s, answer);
    ReadAllBefore(m, s, answer);
    ScanAppends(m, s, answer);
    if t.delivered == s.delivered {
      ValidatorSurvives(m, past, s, t);
    } else {
      ProcessKeeps(m, past, s, t);
    }
  }

  predicate IsScan(a: Action) {
    a.ScanNext? || a.ScanMissed?
  }

  /** The other actions leave what was scanned alone; the chain only grows. */
  lemma OthersScanNothing(m: Params, s: System, a: Action)
    requires Can(m, s, a) && !IsScan(a)
    ensures var t := Do(m, s, a); t.seen == s.seen && t.delivered == s.delivered && t.d == s.d && s.chain <= t.chain
  {
  }

  lemma OthersKeepValidator(m: Params, past: seq<Bytes>, s: System, a: Action)
    requires ValidatorSide(m, past, s) && Can(m, s, a) && !IsScan(a)
    ensures ValidatorSide(m, past, Do(m, s, a))
  {
    if a.Inner? {
      InnerFrame(m.c, m.cfg, s.p, a.e);
    }
    ValidatorSurvives(m, past, s, Do(m, s, a));
  }

  lemma ActionKeepsInv(m: Params, past: seq<Bytes>, s: System, a: Action)
    requires RoundTrips(m.c) && SysInv(m, past, s) && Can(m, s, a)
    ensures SysInv(m, past, Do(m, s, a))
  {
    ActionKeepsWire(m, past, s, a);
    var t := Do(m, s, a);
    if ReadAll(m, t) {
      if IsScan(a) {
        ScanKeepsValidator(m, past, s, if a.ScanNext? then s.chain[|s.seen|] else []);
      } else {
        OthersScanNothing(m, s, a);
        assert t.chain[..|s.seen|] == s.chain[..|s.seen|];
        OthersKeepValidator(m, past, s, a);
      }
    }
  }

  lemma {:induction false} AllActionsKeepWire(m: Params, past: seq<Bytes>, s: System, acts: seq<Action>)
    requires WireInv(m, past, s) && CanAll(m, s, acts)
    ensures WireInv(m, past, DoAll(m, s, acts))
    decreases |acts|
  {
    if acts != [] {
      ActionKeepsWire(m, past, s, acts[0]);
      AllActionsKeepWire(m, past, Do(m, s, acts[0]), acts[1..]);
    }
  }

  lemma {:induction false} AllActionsKeepInv(m: Params, past: seq<Bytes>, s: System, acts: seq<Action>)
    requires RoundTrips(m.c) && SysInv(m, past, s) && CanAll(m, s, acts)
    ensures SysInv(m, past, DoAll(m, s, acts))
    decreases |acts|
  {
    if acts != [] {
      ActionKeepsInv(m, past, s, acts[0]);
      AllActionsKeepInv(m, past, Do(m, s, acts[0]), acts[1..]);
    }
  }

  lemma BootInv(m: Params, l: L1State)
    ensures SysInv(m, Past(m, l), Boot(m, l))
  {
    InitInv(m.c, m.n0);
    assert Flatten<Block>([]) == [];
    assert Past(m, l) + Inputs([]) == Past(m, l);
  }

  /** Delivery `i` is, but for the number, what the sink sent for that place; the sequencer had a number of its own. */
  predicate AsSent(m: Params, p: nat, s: System, i: nat)
    requires p <= i < |s.delivered|
  {
    i - p < |s.sent| && s.delivered[i] == s.sent[i - p].(number := i + 1) && s.sent[i - p].number == m.n0 + 1 + (i - p)
  }

  /** Every delivery beyond the old ones is as sent, and what was sent is what the log says. */
  ghost predicate DeliveredAsSent(m: Params, p: nat, s: System) {
    && (forall i :: p <= i < |s.delivered| ==> AsSent(m, p, s, i))
    && (forall i :: 0 <= i < |s.sent| && i < |s.p.attempts| ==> s.sent[i] == s.p.attempts[i].batch)
  }

  /**
   The executed blocks are those of old batches, then one contiguous piece of the received blocks; with checkpoints and
   inbox in agreement the piece is all and begins right behind the old batches, and in a fresh system it is a prefix.
   */
  ghost predicate ExecutedAsReceived(m: Params, past: seq<Bytes>, s: System) {
    var p, k := |past|, |s.delivered|;
    && (k > FirstNew(m, p) ==> m.n0 + k - p <= |s.p.cut|)
    && s.d.executed == OldBlocks(m, past, k) + NewBlocks(m, p, s.p.cut, k)
    && (k > FirstNew(m, p) ==> IsSegment(NewBlocks(m, p, s.p.cut, k), s.p.received,
                                         |Flatten(s.p.cut[..m.n0 + FirstNew(m, p) - p])|))
    && (m.v0 >= p ==> s.d.executed == NewBlocks(m, p, s.p.cut, k))
    && (m.v0 == p && m.n0 == 0 ==> IsPrefix(s.d.executed, s.p.received))
  }

  lemma InvMeansDelivered(m: Params, past: seq<Bytes>, s: System)
    requires WireInv(m, past, s) && ReadAll(m, s)
    ensures DeliveredAsSent(m, |past|, s)
  {
    forall i | |past| <= i < |s.delivered| ensures AsSent(m, |past|, s, i) {
      DeliveredIsSent(m, past, s, i);
    }
    SentIsLogged(m, s);
  }

  lemma {:induction false} NothingOld(m: Params, past: seq<Bytes>, k: nat)
    requires m.v0 >= |past|
    ensures OldBlocks(m, past, k) == []
  {
    if k > 0 {
      NothingOld(m, past, k - 1);
    }
  }

  lemma InvMeansExecuted(m: Params, past: seq<Bytes>, s: System)
    requires ValidatorSide(m, past, s) && OrderInv(m.c, m.n0, Abs(s.p))
    ensures ExecutedAsReceived(m, past, s)
  {
    var p, k := |past|, |s.delivered|;
    if k > FirstNew(m, p) {
      var lo := m.n0 + FirstNew(m, p) - p;
      FlattenSegment(s.p.cut, lo, m.n0 + k - p);
      SegmentOfLonger(NewBlocks(m, p, s.p.cut, k), Flatten(s.p.cut), s.p.pending, |Flatten(s.p.cut[..lo])|);
      assert lo == 0 ==> s.p.cut[..lo] == [];
    }
    if m.v0 >= p {
      NothingOld(m, past, k);
      assert [] + NewBlocks(m, p, s.p.cut, k) == NewBlocks(m, p, s.p.cut, k);
    }
  }

  /**
   The end-to-end theorem, for every interleaving, every failure of workers, sink, saves and receipts, and every earlier
   life. As long as no scanned block held two inbox transactions and none answered by nothing held one: each new batch
   reaches the validator unchanged but for the number, in order and once; and what the executor was handed is, behind
   the old batches its checkpoint does not cover, one contiguous piece of the blocks the sequencer received. From a
   fresh start it is a prefix of them.
   */
  lemma ExecutedFollowsReceived(m: Params, l: L1State, acts: seq<Action>)
    requires RoundTrips(m.c) && CanAll(m, Boot(m, l), acts) && ReadAll(m, DoAll(m, Boot(m, l), acts))
    ensures DeliveredAsSent(m, |Past(m, l)|, DoAll(m, Boot(m, l), acts))
    ensures ExecutedAsReceived(m, Past(m, l), DoAll(m, Boot(m, l), acts))
  {
    BootInv(m, l);
    AllActionsKeepInv(m, Past(m, l), Boot(m, l), acts);
    InvMeansDelivered(m, Past(m, l), DoAll(m, Boot(m, l), acts));
    InvMeansExecuted(m, Past(m, l), DoAll(m, Boot(m, l), acts));
  }

  /**
   The condition is exact: every inbox transaction of the scanned blocks has been delivered if and only if no scanned
   block held two and none answered by nothing held one.
   */
  lemma DeliveredAllIff(m: Params, l: L1State, acts: seq<Action>)
    requires CanAll(m, Boot(m, l), acts)
    ensures var s := DoAll(m, Boot(m, l), acts);
      && |s.seen| <= |s.chain|
      && (|s.delivered| == |AllInbox(m.inbox, s.chain[..|s.seen|])| <==> ReadAll(m, s))
  {
    BootInv(m, l);
    AllActionsKeepWire(m, Past(m, l), Boot(m, l), acts);
    var s := DoAll(m, Boot(m, l), acts);
    CountsAgreeIff(m.inbox, s.seen, s.chain[..|s.seen|]);
  }

  /** The batch's data decompress, and its header describes the blocks they give. */
  predicate SelfDescribing(c: Codec, b: CompressedBatch) {
    c.decode(b.data).Some? && Describes(b, c.decode(b.data).value)
  }

  /** So does every batch put on L1, and every new delivery as long as every block was read in full. */
  lemma HeadersDescribeBlocks(m: Params, l: L1State, acts: seq<Action>)
    requires RoundTrips(m.c) && CanAll(m, Boot(m, l), acts)
    ensures var s := DoAll(m, Boot(m, l), acts);
      && (forall i :: 0 <= i < |s.sent| ==> SelfDescribing(m.c, s.sent[i]))
      && (ReadAll(m, s) ==> forall i :: |Past(m, l)| <= i < |s.delivered| ==> SelfDescribing(m.c, s.delivered[i]))
  {
    BootInv(m, l);
    AllActionsKeepWire(m, Past(m, l), Boot(m, l), acts);
    InvMeansDescribed(m, Past(m, l), DoAll(m, Boot(m, l), acts));
  }

  lemma InvMeansDescribed(m: Params, past: seq<Bytes>, s: System)
    requires RoundTrips(m.c) && WireInv(m, past, s)
    ensures forall i :: 0 <= i < |s.sent| ==> SelfDescribing(m.c, s.sent[i])
    ensures ReadAll(m, s) ==> forall i :: |past| <= i < |s.delivered| ==> SelfDescribing(m.c, s.delivered[i])
  {
    forall i | 0 <= i < |s.sent| ensures SelfDescribing(m.c, s.sent[i]) {
      assert SentEntry(m, s, i);
    }
    if ReadAll(m, s) {
      forall i | |past| <= i < |s.delivered| ensures SelfDescribing(m.c, s.delivered[i]) {
        DeliveredIsSent(m, past, s, i);
      }
    }
  }

  lemma SentIsLogged(m: Params, s: System)
    requires SequencerSide(m, s)
    ensures forall i :: 0 <= i < |s.sent| && i < |s.p.attempts| ==> s.sent[i] == s.p.attempts[i].batch
  {
    forall i | 0 <= i < |s.sent| && i < |s.p.attempts| ensures s.sent[i] == s.p.attempts[i].batch {
      assert SentEntry(m, s, i) && EntryInOrder(m.c, m.n0, Abs(s.p), i);
    }
  }

  /**
   After any restart, with any inbox: the source gives a new batch the sequencer's number exactly when the inbox and the
   mempool together held as many transactions as the checkpoint counts. A receipt or a save that was lost before the
   restart breaks this for every later batch.
   */
  lemma SourceNumbersAgreeIff(m: Params, l: L1State, acts: seq<Action>, i: nat)
    requires CanAll(m, Boot(m, l), acts) && ReadAll(m, DoAll(m, Boot(m, l), acts))
    requires |Past(m, l)| <= i < |DoAll(m, Boot(m, l), acts).delivered|
    ensures AsSent(m, |Past(m, l)|, DoAll(m, Boot(m, l), acts), i)
    ensures NumbersAgree(|Past(m, l)|, DoAll(m, Boot(m, l), acts), i) <==> |Past(m, l)| == m.n0
  {
    BootInv(m, l);
    AllActionsKeepWire(m, Past(m, l), Boot(m, l), acts);
    NumbersAgreeIff(m, Past(m, l), DoAll(m, Boot(m, l), acts), i);
  }

  /** The source gave delivery `i` the number that the sequencer had sent it under. */
  predicate NumbersAgree(p: nat, s: System, i: nat)
    requires p <= i < |s.delivered|
  {
    i - p < |s.sent| && s.delivered[i].number == s.sent[i - p].number
  }

  lemma NumbersAgreeIff(m: Params, past: seq<Bytes>, s: System, i: nat)
    requires WireInv(m, past, s) && ReadAll(m, s) && |past| <= i < |s.delivered|
    ensures AsSent(m, |past|, s, i) && (NumbersAgree(|past|, s, i) <==> |past| == m.n0)
  {
    DeliveredIsSent(m, past, s, i);
  }

  /** The source has read the whole chain and nothing is on its way: no call open or lost, nothing unmined. */
  predicate Settled(s: System) {
    !s.waiting && s.p.lost == {} && s.mempool == [] && |s.seen| == |s.chain|
  }

  lemma EverythingDelivered(m: Params, past: seq<Bytes>, s: System)
    requires L1Side(m, past, s) && Phase(m, s) && Settled(s)
    ensures |s.delivered| == |past| + |s.p.attempts| <==> ReadAll(m, s)
  {
    CountsAgreeIff(m.inbox, s.seen, s.chain);
    assert s.chain[..|s.seen|] == s.chain;
    assert |AllInbox(m.inbox, s.chain) + s.mempool| == |past + Inputs(s.sent)|;
  }

  /** Everything delivered: the old batches the validator's checkpoint does not cover, then the new ones. */
  ghost predicate CaughtUp(m: Params, past: seq<Bytes>, s: System) {
    var skipped := SaturatingSub(m.v0, |past|);
    && |s.delivered| == |past| + |s.p.attempts|
    && s.d.executed == OldBlocks(m, past, |s.delivered|)
                       + LoggedBlocks(m.c, s.p.attempts[Min(skipped, |s.p.attempts|)..])
  }

  /**
   When nothing is on its way any more, the validator has executed, behind the old batches, exactly what the sequencer's
   accepted sink calls carried, but for those that its checkpoint skips; all the batches have been delivered if and only
   if every block was read in full.
   */
  lemma CaughtUpHasEverything(m: Params, l: L1State, acts: seq<Action>)
    requires RoundTrips(m.c) && CanAll(m, Boot(m, l), acts) && Settled(DoAll(m, Boot(m, l), acts))
    ensures var s := DoAll(m, Boot(m, l), acts);
      && (|s.delivered| == |Past(m, l)| + |s.p.attempts| <==> ReadAll(m, s))
      && (ReadAll(m, s) ==> CaughtUp(m, Past(m, l), s))
  {
    var s := DoAll(m, Boot(m, l), acts);
    BootInv(m, l);
    AllActionsKeepInv(m, Past(m, l), Boot(m, l), acts);
    EverythingDelivered(m, Past(m, l), s);
    if ReadAll(m, s) {
      ExecutedIsLogged(m, Past(m, l), s);
    }
  }

  lemma ExecutedIsLogged(m: Params, past: seq<Bytes>, s: System)
    requires RoundTrips(m.c) && OrderInv(m.c, m.n0, Abs(s.p)) && ValidatorSide(m, past, s)
    requires |s.delivered| == |past| + |s.p.attempts|
    ensures CaughtUp(m, past, s)
  {
    var skipped, n := SaturatingSub(m.v0, |past|), |s.p.attempts|;
    assert FirstNew(m, |past|) == |past| + skipped;
    if skipped < n {
      LastIsCut(m.c, m.n0, Abs(s.p));
      LoggedTailIsCuts(m.c, m.n0, Abs(s.p), skipped);
    } else {
      assert LoggedBlocks(m.c, s.p.attempts[n..]) == [];
    }
  }

  lemma LastIsCut(c: Codec, n0: nat, q: Batcher)
    requires LogInOrder(c, n0, q) && q.attempts != []
    ensures n0 + |q.attempts| <= |q.cut|
  {
    assert EntryInOrder(c, n0, q, |q.attempts| - 1);
  }

  /** The blocks of the log from call `i` on are those cut for its numbers. */
  lemma LoggedTailIsCuts(c: Codec, n0: nat, q: Batcher, i: nat)
    requires RoundTrips(c) && LogInOrder(c, n0, q) && i <= |q.attempts| && n0 + |q.attempts| <= |q.cut|
    ensures LoggedBlocks(c, q.attempts[i..]) == Flatten(q.cut[n0 + i..n0 + |q.attempts|])
  {
    var tail, cuts := q.attempts[i..], q.cut[n0 + i..n0 + |q.attempts|];
    var parts := seq(|tail|, j requires 0 <= j < |tail| => BlocksOf(c, tail[j].batch));
    forall j | 0 <= j < |tail| ensures parts[j] == cuts[j] {
      assert EntryInOrder(c, n0, q, i + j);
    }
    assert parts == cuts;
  }

  // ---------------------------------------------------------------- at rest

  /** Every block the producer fed during a run of the system, in order. */
  function FedIn(acts: seq<Action>): seq<Block> {
    if acts == [] then [] else FedBy(acts[0]) + FedIn(acts[1..])
  }

  function FedBy(a: Action): seq<Block> {
    if a.Inner? && a.e.Feed? then [a.e.block] else []
  }

  lemma ActionTakes(m: Params, s: System, a: Action)
    requires Can(m, s, a)
    ensures Taken(Do(m, s, a).p) == Taken(s.p) + FedBy(a)
  {
    if a.Inner? {
      FedStep(m.c, m.cfg, s.p, a.e);
    } else {
      assert Taken(s.p) + [] == Taken(s.p);
    }
  }

  lemma {:induction false} FedIsTaken(m: Params, s: System, acts: seq<Action>)
    requires CanAll(m, s, acts)
    ensures Taken(DoAll(m, s, acts).p) == Taken(s.p) + FedIn(acts)
    decreases |acts|
  {
    if acts == [] {
      assert Taken(s.p) + [] == Taken(s.p);
    } else {
      ActionTakes(m, s, acts[0]);
      FedIsTaken(m, Do(m, s, acts[0]), acts[1..]);
      Regrouped(Taken(s.p), FedBy(acts[0]), FedIn(acts[1..]));
    }
  }

  /**
   A system that came to rest without a failure has put every block ever fed on L1, but those of the batches that the
   sequencer skipped, and the validator has executed exactly these behind the old ones, but those that it skipped.
   With the validator's checkpoint at the end of the old inbox it has executed all but the sequencer's skipped blocks.
   */
  lemma NothingIsLeftBehind(m: Params, l: L1State, acts: seq<Action>)
    requires RoundTrips(m.c) && CanAll(m, Boot(m, l), acts)
    requires var s := DoAll(m, Boot(m, l), acts);
      Settled(s) && ReadAll(m, s) && Draining(s.p) && Quiescent(s.p) && s.p.prepFailed == {}
    ensures CaughtUp(m, Past(m, l), DoAll(m, Boot(m, l), acts))
    ensures DeliveredAllBut(m.c, m.n0, DoAll(m, Boot(m, l), acts).p, FedIn(acts))
    ensures var s := DoAll(m, Boot(m, l), acts);
      m.v0 == |Past(m, l)| ==> FedIn(acts) == Skipped(s.p, m.n0) + s.d.executed
  {
    var s := DoAll(m, Boot(m, l), acts);
    CaughtUpHasEverything(m, l, acts);
    BootInv(m, l);
    AllActionsKeepWire(m, Past(m, l), Boot(m, l), acts);
    RestingLogIsAll(m, s);
    FedIsTaken(m, Boot(m, l), acts);
    assert Taken(s.p) == [] + FedIn(acts) && Taken(s.p) == s.p.received;
    AllButSkipped(m, Past(m, l), s, FedIn(acts));
  }

  lemma AllButSkipped(m: Params, past: seq<Bytes>, s: System, fed: seq<Block>)
    requires CaughtUp(m, past, s) && DeliveredAllBut(m.c, m.n0, s.p, fed)
    ensures m.v0 == |past| ==> fed == Skipped(s.p, m.n0) + s.d.executed
  {
    if m.v0 == |past| {
      NothingOld(m, past, |s.delivered|);
      var logged := LoggedBlocks(m.c, s.p.attempts);
      assert s.p.attempts[0..] == s.p.attempts;
      assert [] + logged == logged;
      assert s.d.executed == logged;
    }
  }

  lemma RestingLogIsAll(m: Params, s: System)
    requires RoundTrips(m.c) && SequencerSide(m, s)
    requires Draining(s.p) && Quiescent(s.p) && s.p.prepFailed == {} && s.p.lost == {}
    ensures DeliveredAllBut(m.c, m.n0, s.p, s.p.received)
  {
    DrainedIffNoFailure(m.c, s.p);
    LogIsTheRest(m.c, m.n0, s.p);
    assert s.p.received == Flatten(s.p.cut) + [];
  }
}
