/**
 The objects take the composed system's actions: a tick of the validator is a run of scans, a call of the sink a run of
 sending, mining and answering. And the runs that show what an earlier life can do to the next one.
 */
module SystemRuns {
  import opened Wire
  import opened Pipeline
  import opened Drain
  import opened Transport
  import opened ValidatorRole
  import opened EndToEnd
  import opened Restarts

  /** The scans that give these answers over this chain. */
  function Scans(answers: seq<L1Block>, chain: seq<L1Block>): seq<Action>
    requires |answers| <= |chain|
  {
    seq(|answers|, i requires 0 <= i < |answers| => ScanAction(answers[i], chain[i]))
  }

  function ScanAction(answer: L1Block, block: L1Block): Action {
    if answer == block then ScanNext else ScanMissed
  }

  lemma {:induction false} DoAllSnoc(m: Params, s: System, acts: seq<Action>, a: Action)
    requires CanAll(m, s, acts) && Can(m, DoAll(m, s, acts), a)
    ensures CanAll(m, s, acts + [a]) && DoAll(m, s, acts + [a]) == Do(m, DoAll(m, s, acts), a)
    decreases |acts|
  {
    if acts == [] {
      assert [] + [a] == [a] && [a][1..] == [];
    } else {
      assert (acts + [a])[1..] == acts[1..] + [a];
      DoAllSnoc(m, Do(m, s, acts[0]), acts[1..], a);
    }
  }

  /** The deliveries are the numbered decoding of what was read. */
  predicate DeliversWhatItReads(m: Params, s: System) {
    s.delivered == Decoded(FirstInputs(m.inbox, s.seen))
  }

  /** Between `s` and `t` the validator has processed what was delivered in between, in order. */
  predicate ProcessedSince(m: Params, s: System, t: System) {
    s.delivered <= t.delivered && t.d == ProcessAll(m.c, s.d, t.delivered[|s.delivered|..])
  }

  lemma ScanProcesses(m: Params, s: System, t: System, answer: L1Block)
    requires ProcessedSince(m, s, t)
    ensures ProcessedSince(m, s, Scan(m, t, answer))
  {
    var u := Scan(m, t, answer);
    ScanAppends(m, t, answer);
    if InboxInputs(m.inbox, answer) != [] {
      var batch := u.delivered[|t.delivered|];
      assert u.delivered[|s.delivered|..] == t.delivered[|s.delivered|..] + [batch];
      ProcessAllSnoc(m.c, s.d, t.delivered[|s.delivered|..], batch);
    }
  }

  lemma ScanIsAction(m: Params, t: System, answer: L1Block)
    requires |t.seen| < |t.chain| && (answer == t.chain[|t.seen|] || answer == [])
    ensures var a := ScanAction(answer, t.chain[|t.seen|]);
      Can(m, t, a) && Do(m, t, a) == Scan(m, t, answer)
  {
  }

  /** The answers continue a view of the chain. */
  ghost predicate Continues(seen: seq<L1Block>, answers: seq<L1Block>, chain: seq<L1Block>) {
    |seen| + |answers| <= |chain| && IsViewOf(seen + answers, chain)
  }

  /** `t` is where the answers lead from `s`: they are read, decoded, and each batch is processed in turn. */
  predicate LeadsTo(m: Params, s: System, answers: seq<L1Block>, t: System) {
    t.chain == s.chain && t.seen == s.seen + answers && DeliversWhatItReads(m, t) && ProcessedSince(m, s, t)
  }

  /** The answers given one after another. */
  function ScanAll(m: Params, s: System, answers: seq<L1Block>): System
    decreases |answers|
  {
    if answers == [] then s else ScanAll(m, Scan(m, s, answers[0]), answers[1..])
  }

  lemma OneMoreScan(m: Params, s0: System, done: seq<L1Block>, s: System, answer: L1Block)
    requires LeadsTo(m, s0, done, s)
    ensures LeadsTo(m, s0, done + [answer], Scan(m, s, answer))
  {
    ScanReads(m, s, answer);
    ScanAppends(m, s, answer);
    ScanProcesses(m, s0, s, answer);
    assert s0.seen + (done + [answer]) == (s0.seen + done) + [answer];
  }

  lemma {:induction false} ScanAllLeads(m: Params, s0: System, done: seq<L1Block>, s: System, answers: seq<L1Block>)
    requires LeadsTo(m, s0, done, s)
    ensures LeadsTo(m, s0, done + answers, ScanAll(m, s, answers))
    decreases |answers|
  {
    if answers == [] {
      assert done + answers == done;
    } else {
      var more, rest := done + [answers[0]], answers[1..];
      assert more + rest == done + answers;
      OneMoreScan(m, s0, done, s, answers[0]);
      ScanAllLeads(m, s0, more, Scan(m, s, answers[0]), rest);
    }
  }

  lemma {:induction false} ScansAreActions(m: Params, s: System, answers: seq<L1Block>)
    requires Continues(s.seen, answers, s.chain)
    ensures CanAll(m, s, Scans(answers, s.chain[|s.seen|..]))
    ensures DoAll(m, s, Scans(answers, s.chain[|s.seen|..])) == ScanAll(m, s, answers)
    decreases |answers|
  {
    if answers != [] {
      var answer, rest := answers[0], s.chain[|s.seen|..];
      var t := Scan(m, s, answer);
      FirstContinues(s.seen, answers, s.chain);
      ScanIsAction(m, s, answer);
      ScanAppends(m, s, answer);
      ScansAreActions(m, t, answers[1..]);
      ScansHead(answers, rest);
      assert rest[1..] == t.chain[|t.seen|..];
    }
  }

  lemma ScansHead(answers: seq<L1Block>, chain: seq<L1Block>)
    requires 0 < |answers| <= |chain|
    ensures Scans(answers, chain)[0] == ScanAction(answers[0], chain[0])
    ensures Scans(answers, chain)[1..] == Scans(answers[1..], chain[1..])
  {
  }

  lemma FirstContinues(seen: seq<L1Block>, answers: seq<L1Block>, chain: seq<L1Block>)
    requires Continues(seen, answers, chain) && answers != []
    ensures answers[0] == chain[|seen|] || answers[0] == []
    ensures Continues(seen + [answers[0]], answers[1..], chain)
  {
    assert (seen + answers)[|seen|] == answers[0];
    assert seen + answers == (seen + [answers[0]]) + answers[1..];
  }

  lemma ScansDeliver(m: Params, s: System, answers: seq<L1Block>)
    requires Continues(s.seen, answers, s.chain) && DeliversWhatItReads(m, s)
    ensures CanAll(m, s, Scans(answers, s.chain[|s.seen|..]))
    ensures LeadsTo(m, s, answers, DoAll(m, s, Scans(answers, s.chain[|s.seen|..])))
  {
    ScansAreActions(m, s, answers);
    assert s.seen + [] == s.seen && [] + answers == answers;
    ScanAllLeads(m, s, [], s, answers);
  }

  /** The validator object and its source are where the system's validator is. */
  ghost predicate Shows(m: Params, s: System, v: Validator)
    reads v, v.source, v.source.node
  {
    && v.codec == m.c && v.source.inbox == m.inbox && v.source.Valid()
    && s.chain == v.source.node.blocks && s.seen == v.source.seen
    && s.delivered == v.source.delivered && s.d == v.State()
  }

  /**
   A tick of the validator object, its source polling L1 and L1 growing meanwhile, is a run of scan actions, whatever
   the provider has an answer for. If every query is answered and nothing is rejected or missing, it has scanned the
   whole chain or delivered ten batches.
   */
  method ValidatorTick(m: Params, v: Validator, q: nat -> Provider, ghost s: System)
    returns (ok: bool, processed: nat, ghost answers: seq<L1Block>)
    requires Shows(m, s, v)
    modifies v, v.source, v.source.node
    ensures old(v.source.node.blocks) <= v.source.node.blocks
    ensures v.source.seen == s.seen + answers && Continues(s.seen, answers, v.source.node.blocks)
    ensures var grown := s.(chain := v.source.node.blocks); var acts := Scans(answers, grown.chain[|s.seen|..]);
      CanAll(m, grown, acts) && Shows(m, DoAll(m, grown, acts), v)
    ensures forall i :: 0 <= i < |answers| ==>
      answers[i] == v.source.node.blocks[|s.seen| + i] || |s.seen| + i + 1 in EverMissing(q)
    ensures ok ==> |v.source.delivered| == |s.delivered| + processed
    ensures ok && processed < 10 ==>
      || QueryFails(q(processed), |s.seen + answers|, |v.source.node.blocks|)
      || OnlyMissingLeft(|s.seen + answers|, |s.chain|, q(processed).missing)
    ensures !ok ==> |v.source.delivered| > |s.delivered|
  {
    assert DeliversWhatItReads(m, s);
    ghost var fetched;
    ok, processed, fetched := v.Tick(q);
    answers := v.source.seen[|s.seen|..];
    assert v.source.seen == s.seen + answers;
    SameByScans(m, s, v.source.node.blocks, answers, fetched, v.source.delivered);
  }

  /** The same on values: what a source has read is what the scans with its answers read. */
  lemma SameByScans(m: Params, s: System, chain: seq<L1Block>, answers: seq<L1Block>,
                    fetched: seq<CompressedBatch>, delivered: seq<CompressedBatch>)
    requires DeliversWhatItReads(m, s) && Continues(s.seen, answers, chain)
    requires delivered == s.delivered + fetched && delivered == Decoded(FirstInputs(m.inbox, s.seen + answers))
    ensures CanAll(m, s.(chain := chain), Scans(answers, chain[|s.seen|..]))
    ensures var t := DoAll(m, s.(chain := chain), Scans(answers, chain[|s.seen|..]));
      && t.chain == chain && t.seen == s.seen + answers
      && t.delivered == delivered && t.d == ProcessAll(m.c, s.d, fetched)
  {
    ScansDeliver(m, s.(chain := chain), answers);
    assert delivered[|s.delivered|..] == fetched;
  }

  function MineActions(mined: seq<Mining>): seq<Action> {
    seq(|mined|, i requires 0 <= i < |mined| => MineBlock(mined[i].k, mined[i].before, mined[i].after))
  }

  /** The mined blocks of a sink call are mining actions of the system. */
  lemma {:induction false} MiningIsActions(m: Params, s: System, mined: seq<Mining>)
    requires CanMineAll(m.inbox, L1State(s.chain, s.mempool), mined)
    ensures CanAll(m, s, MineActions(mined))
    ensures var l := MineAll(m.inbox, L1State(s.chain, s.mempool), mined);
      DoAll(m, s, MineActions(mined)) == s.(chain := l.blocks, mempool := l.pool)
    decreases |mined|
  {
    if mined != [] {
      var one := MineBlock(mined[0].k, mined[0].before, mined[0].after);
      assert MineActions(mined)[0] == one && MineActions(mined)[1..] == MineActions(mined[1..]);
      MiningIsActions(m, Do(m, s, one), mined[1..]);
    }
  }

  /**
   A call of the sink object for the batch at the head of the line is a run of the system's actions: a send that fails,
   or a send followed by the blocks mined meanwhile and, with a receipt or without, its answer.
   */
  method SinkCall(m: Params, sink: AnvilBatchSink, batch: CompressedBatch, sendFails: bool, patience: nat,
                  ghost s: System, ghost at: nat, ghost saveOk: bool)
    returns (ok: bool, ghost acts: seq<Action>)
    requires sink.inbox == m.inbox && s.chain == sink.node.blocks && s.mempool == sink.node.mempool
    requires !s.waiting && IsHead(s.p, at) && !ShouldSkip(s.p.lastSubmitted, s.p.nextSubmission)
    requires batch == s.p.ready[at].batch
    modifies sink.node
    ensures ok <==> !sendFails && sink.node.mempool == []
    ensures !ok && !sendFails ==> |acts| == patience + 2
    ensures CanAll(m, s, acts)
    ensures var t := DoAll(m, s, acts);
      && t.chain == sink.node.blocks && t.mempool == sink.node.mempool && !t.waiting
      && t.p == SubmitReady(s.p, at, ok, ok ==> saveOk)
  {
    var r;
    ghost var sent, mined;
    r, sent, mined := sink.Submit(batch, sendFails, patience);
    ok := r.Ok?;
    ghost var answer := if ok then Receipt(at, saveOk) else if sent then NoReceipt(at) else SendFails(at);
    if sent {
      ghost var posted := Do(m, s, Send(at));
      MiningIsActions(m, posted, mined);
      DoAllSnoc(m, posted, MineActions(mined), answer);
      acts := [Send(at)] + (MineActions(mined) + [answer]);
      assert acts[1..] == MineActions(mined) + [answer];
    } else {
      acts := [answer];
      assert acts[1..] == [];
    }
  }

  // ---------------------------------------------------------------- what an earlier life can do

  function Inners(es: seq<Event>): seq<Action> {
    seq(|es|, i requires 0 <= i < |es| => Inner(es[i]))
  }

  /** A run of the pipeline without submissions is a run of the system. */
  lemma {:induction false} PipelineRunIsActions(m: Params, s: System, es: seq<Event>)
    requires !s.waiting && ValidRun(m.c, m.cfg, s.p, es) && forall i :: 0 <= i < |es| ==> !es[i].Submit?
    ensures CanAll(m, s, Inners(es)) && DoAll(m, s, Inners(es)) == s.(p := Exec(m.c, m.cfg, s.p, es))
    decreases |es|
  {
    if es != [] {
      assert Inners(es)[0] == Inner(es[0]) && Inners(es)[1..] == Inners(es[1..]);
      PipelineRunIsActions(m, Do(m, s, Inner(es[0])), es[1..]);
    }
  }

  lemma OneMoreAction(m: Params, s0: System, acts: seq<Action>, s: System, a: Action)
    returns (acts': seq<Action>, s': System)
    requires CanAll(m, s0, acts) && DoAll(m, s0, acts) == s && Can(m, s, a)
    ensures acts' == acts + [a] && s' == Do(m, s, a)
    ensures CanAll(m, s0, acts') && DoAll(m, s0, acts') == s'
  {
    DoAllSnoc(m, s0, acts, a);
    acts', s' := acts + [a], Do(m, s, a);
  }

  /** The new life's first batch, sent behind whatever is unmined. */
  function OneBatchSent(b: Block): seq<Action> {
    Inners(OneBatchRun(b)) + [Send(0)]
  }

  lemma OneBatchIsSent(m: Params, b: Block, l: L1State) returns (s: System)
    requires m.n0 == 0 && m.c.encode([b]).Some?
    ensures CanAll(m, Boot(m, l), OneBatchSent(b)) && DoAll(m, Boot(m, l), OneBatchSent(b)) == s
    ensures s.waiting && s.chain == l.blocks && s.seen == [] && s.delivered == [] && s.p.attempts == []
    ensures |s.sent| == 1 && s.sent[0].number == 1 && s.mempool == l.pool + [Calldata(s.sent[0])]
    ensures IsHead(s.p, 0) && s.p.lost == {} && s.p.lastSubmitted == 0
  {
    OneBatchRunReady(m.c, m.cfg, 0, b);
    PipelineRunIsActions(m, Boot(m, l), OneBatchRun(b));
    var t := Boot(m, l).(p := Exec(m.c, m.cfg, Init(0), OneBatchRun(b)));
    var acts;
    acts, s := OneMoreAction(m, Boot(m, l), Inners(OneBatchRun(b)), t, Send(0));
  }

  /** An earlier transaction is on L1 that the sequencer's checkpoint does not count. */
  function MisnumberingRun(b: Block): seq<Action> {
    OneBatchSent(b) + [MineBlock(1, [], []), ScanNext, ScanNext]
  }

  lemma MisnumberingRunDisagrees(m: Params, b: Block, earlier: Bytes)
    requires m.n0 == 0 && m.c.encode([b]).Some?
    ensures var l := L1State([[Tx(m.inbox, earlier)]], []);
      && CanAll(m, Boot(m, l), MisnumberingRun(b))
      && var s := DoAll(m, Boot(m, l), MisnumberingRun(b));
        ReadAll(m, s) && |s.delivered| == 2 && |s.sent| == 1 && s.delivered[1].number == 2 && s.sent[0].number == 1
  {
    var l := L1State([[Tx(m.inbox, earlier)]], []);
    var s := OneBatchIsSent(m, b, l);
    var acts := OneBatchSent(b);
    assert s.mempool[..1] == s.mempool;
    MinedInputs(m.inbox, s.mempool, [], []);
    acts, s := OneMoreAction(m, Boot(m, l), acts, s, MineBlock(1, [], []));
    acts, s := TwoBlocksScanned(m, Boot(m, l), acts, s);
    assert acts == MisnumberingRun(b);
  }

  /** An earlier transaction is unmined, and no checkpoint and no inbox shows it yet. */
  function LeftoverRun(b: Block): seq<Action> {
    OneBatchSent(b) + [MineBlock(1, [], []), MineBlock(1, [], []), ScanNext, ScanNext]
  }

  lemma LeftoverRunDisagrees(m: Params, b: Block, earlier: Bytes)
    requires m.n0 == 0 && m.c.encode([b]).Some?
    ensures var l := L1State([], [earlier]);
      && AllInbox(m.inbox, l.blocks) == [] && CanAll(m, Boot(m, l), LeftoverRun(b))
      && var s := DoAll(m, Boot(m, l), LeftoverRun(b));
        ReadAll(m, s) && |s.delivered| == 2 && |s.sent| == 1 && s.delivered[1].number == 2 && s.sent[0].number == 1
  {
    var l := L1State([], [earlier]);
    var s := OneBatchIsSent(m, b, l);
    var acts := OneBatchSent(b);
    var calldata := Calldata(s.sent[0]);
    assert s.mempool[..1] == [earlier] && s.mempool[1..] == [calldata] && [calldata][..1] == [calldata];
    MinedInputs(m.inbox, [earlier], [], []);
    MinedInputs(m.inbox, [calldata], [], []);
    acts, s := OneMoreAction(m, Boot(m, l), acts, s, MineBlock(1, [], []));
    acts, s := OneMoreAction(m, Boot(m, l), acts, s, MineBlock(1, [], []));
    acts, s := TwoBlocksScanned(m, Boot(m, l), acts, s);
    assert acts == LeftoverRun(b);
  }

  lemma TwoBlocksScanned(m: Params, s0: System, acts: seq<Action>, s: System) returns (acts': seq<Action>, t: System)
    requires CanAll(m, s0, acts) && DoAll(m, s0, acts) == s && s.seen == [] && s.delivered == [] && |s.chain| == 2
    requires |InboxInputs(m.inbox, s.chain[0])| == |InboxInputs(m.inbox, s.chain[1])| == 1
    ensures acts' == acts + [ScanNext, ScanNext] && CanAll(m, s0, acts') && DoAll(m, s0, acts') == t
    ensures t.sent == s.sent && |t.delivered| == 2 && t.delivered[1].number == 2 && ReadAll(m, t)
  {
    acts', t := OneBlockScanned(m, s0, acts, s);
    acts', t := OneBlockScanned(m, s0, acts', t);
    assert t.seen == s.chain && t.chain[..2] == s.chain;
  }

  lemma OneBlockScanned(m: Params, s0: System, acts: seq<Action>, s: System) returns (acts': seq<Action>, t: System)
    requires CanAll(m, s0, acts) && DoAll(m, s0, acts) == s && |s.seen| < |s.chain|
    requires InboxInputs(m.inbox, s.chain[|s.seen|]) != []
    ensures acts' == acts + [ScanNext] && CanAll(m, s0, acts') && DoAll(m, s0, acts') == t
    ensures t.sent == s.sent && t.chain == s.chain && t.seen == s.seen + [s.chain[|s.seen|]]
    ensures |t.delivered| == |s.delivered| + 1 && t.delivered[|s.delivered|].number == |t.delivered|
  {
    ScanAppends(m, s, s.chain[|s.seen|]);
    acts', t := OneMoreAction(m, s0, acts, s, ScanNext);
  }

  /** The leftover and the new batch are mined into one block; the receipt comes all the same. */
  function SharedBlockRun(b: Block): seq<Action> {
    OneBatchSent(b) + [MineBlock(2, [], []), Receipt(0, true), ScanNext]
  }

  /** The accepted batch is never delivered, although nothing failed in this life and nothing is on its way any more. */
  lemma SharedBlockLosesBatch(m: Params, b: Block, earlier: Bytes)
    requires m.n0 == 0 && m.c.encode([b]).Some?
    ensures var l := L1State([], [earlier]);
      && CanAll(m, Boot(m, l), SharedBlockRun(b)) && !FirstSendAlone(m, Boot(m, l), SharedBlockRun(b))
      && var s := DoAll(m, Boot(m, l), SharedBlockRun(b));
        Settled(s) && |s.p.attempts| == 1 && s.p.attempts[0].accepted && |s.delivered| == 1 && !ReadAll(m, s)
  {
    var l := L1State([], [earlier]);
    var s := OneBatchIsSent(m, b, l);
    var acts := OneBatchSent(b);
    assert s.mempool[..2] == s.mempool;
    MinedInputs(m.inbox, s.mempool, [], []);
    acts, s := OneMoreAction(m, Boot(m, l), acts, s, MineBlock(2, [], []));
    acts, s := OneMoreAction(m, Boot(m, l), acts, s, Receipt(0, true));
    ScanAppends(m, s, s.chain[0]);
    assert |InboxInputs(m.inbox, s.chain[0])| == 2;
    acts, s := OneMoreAction(m, Boot(m, l), acts, s, ScanNext);
    assert acts == SharedBlockRun(b);
    assert !ReadInFull(m.inbox, s.seen[0], s.chain[..1][0]);
    if FirstSendAlone(m, Boot(m, l), acts) {
      OneInboxTxPerBlock(m, l, acts);
      assert false;
    }
  }
}
