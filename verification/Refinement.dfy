/**
 The parallel pipeline refines the sequential batcher: for every interleaving and every pattern of preparation,
 sink and save failures there is a sequential run with the same received blocks, cuts, counters and sink log.
 */
module Refinement {
  import opened Basics
  import opened Wire
  import opened Pipeline
  import opened Sequential

  function Abs(s: State): Batcher {
    Batcher(s.received, s.pending, s.cut, s.nextSubmission, s.lastSubmitted, s.attempts, s.lost != {})
  }

  /** What a pipeline step does to the sequential batcher: one move, or nothing. */
  function Project(cfg: Config, s: State, e: Event): seq<Move> {
    match e
    case Receive => if s.incoming == [] then [] else [TakeBlock(s.incoming[0])]
    case SpawnCatchUp => [CutBatch(Min(|s.pending|, DynamicMaxBlocks(cfg, |s.pending| + |s.incoming|)))]
    case SpawnNormal => [CutBatch(Min(|s.pending|, cfg.maxBlocksPerBatch))]
    case Flush => [CutBatch(|s.pending|)]
    case Submit(_, sinkOk, saveOk) => [SubmitNext(sinkOk, saveOk)]
    case _ => []
  }

  function ProjectRun(c: Codec, cfg: Config, s: State, es: seq<Event>): seq<Move>
    requires ValidRun(c, cfg, s, es)
    decreases |es|
  {
    if es == [] then [] else Project(cfg, s, es[0]) + ProjectRun(c, cfg, Next(c, cfg, s, es[0]), es[1..])
  }

  lemma PlayOne(c: Codec, q: Batcher, m: Move)
    requires CanMove(c, q, m)
    ensures CanRun(c, q, [m]) && Play(c, q, [m]) == Step(c, q, m)
  {
    assert [m][1..] == [];
  }

  lemma SubmitSimulates(c: Codec, s: State, at: nat, sinkOk: bool, saveOk: bool)
    requires Inv(c, s) && IsLeast(s.ready, at) && s.ready[at].number == s.nextSubmission
    ensures CanMove(c, Abs(s), SubmitNext(sinkOk, saveOk))
    ensures Step(c, Abs(s), SubmitNext(sinkOk, saveOk)) == Abs(SubmitReady(s, at, sinkOk, saveOk))
  {
    NothingAfterLoss(s, at);
    HeadIsMade(c, s.cut, s.ready, at);
  }

  lemma HeadIsMade(c: Codec, cut: seq<seq<Block>>, ready: seq<Prepared>, at: nat)
    requires AllPrepared(c, cut, ready) && at < |ready|
    ensures var n := ready[at].number;
      1 <= n <= |cut| && c.encode(cut[n - 1]).Some? && ready[at].batch == Made(c, cut, n)
  {
    assert IsPreparedFrom(c, cut, ready[at]);
  }

  lemma StepSimulates(c: Codec, cfg: Config, s: State, e: Event)
    requires Inv(c, s) && Enabled(c, cfg, s, e)
    ensures CanRun(c, Abs(s), Project(cfg, s, e))
    ensures Play(c, Abs(s), Project(cfg, s, e)) == Abs(Next(c, cfg, s, e))
  {
    if e.Submit? {
      SubmitSimulates(c, s, e.at, e.sinkOk, e.saveOk);
    }
    if Project(cfg, s, e) != [] {
      PlayOne(c, Abs(s), Project(cfg, s, e)[0]);
    }
  }

  lemma {:induction false} RunSimulates(c: Codec, cfg: Config, s: State, es: seq<Event>)
    requires Inv(c, s) && ValidRun(c, cfg, s, es)
    ensures CanRun(c, Abs(s), ProjectRun(c, cfg, s, es))
    ensures Play(c, Abs(s), ProjectRun(c, cfg, s, es)) == Abs(Exec(c, cfg, s, es))
    decreases |es|
  {
    if es != [] {
      StepSimulates(c, cfg, s, es[0]);
      StepKeepsInv(c, cfg, s, es[0]);
      RunSimulates(c, cfg, Next(c, cfg, s, es[0]), es[1..]);
      PlayAppend(c, Abs(s), Project(cfg, s, es[0]), ProjectRun(c, cfg, Next(c, cfg, s, es[0]), es[1..]));
    }
  }

  /** Main refinement result, for every run from a resume with `n0` submitted batches. */
  lemma PipelineRefinesSequential(c: Codec, cfg: Config, n0: nat, es: seq<Event>)
    requires ValidRun(c, cfg, Init(n0), es)
    ensures CanRun(c, Start(n0), ProjectRun(c, cfg, Init(n0), es))
    ensures Play(c, Start(n0), ProjectRun(c, cfg, Init(n0), es)) == Abs(Exec(c, cfg, Init(n0), es))
    ensures OrderInv(c, n0, Abs(Exec(c, cfg, Init(n0), es)))
  {
    InitInv(c, n0);
    RunSimulates(c, cfg, Init(n0), es);
    assert Flatten<Block>([]) == [];
    PlayKeepsOrder(c, n0, Start(n0), ProjectRun(c, cfg, Init(n0), es));
  }

  /** Every sink call's header describes the blocks that its data decompress to. */
  lemma SinkCallsDescribeBlocks(c: Codec, cfg: Config, n0: nat, es: seq<Event>, i: nat)
    requires RoundTrips(c) && ValidRun(c, cfg, Init(n0), es) && i < |Exec(c, cfg, Init(n0), es).attempts|
    ensures var b := Exec(c, cfg, Init(n0), es).attempts[i].batch;
      c.decode(b.data).Some? && Describes(b, c.decode(b.data).value)
  {
    PipelineRefinesSequential(c, cfg, n0, es);
    assert EntryInOrder(c, n0, Abs(Exec(c, cfg, Init(n0), es)), i);
  }

  /**
   Whatever the workers, the sink and the disk do: the sink is called with the numbers n0+1, n0+2, ... without
   gap or repetition, every call but possibly the last is accepted, and the blocks of the calls are one contiguous
   segment of the received blocks, right behind the first n0 batches; from a fresh checkpoint they are a prefix.
   */
  lemma SinkSeesConsecutiveBatches(c: Codec, cfg: Config, n0: nat, es: seq<Event>)
    requires RoundTrips(c) && ValidRun(c, cfg, Init(n0), es)
    ensures var s := Exec(c, cfg, Init(n0), es); var logged := LoggedBlocks(c, s.attempts);
      && (forall i :: 0 <= i < |s.attempts| ==> s.attempts[i].batch.number == n0 + 1 + i)
      && (forall i :: 0 <= i < |s.attempts| - 1 ==> s.attempts[i].accepted)
      && (s.attempts != [] ==> n0 < |s.cut| && IsSegment(logged, s.received, |Flatten(s.cut[..n0])|))
      && (n0 == 0 ==> IsPrefix(logged, s.received))
  {
    PipelineRefinesSequential(c, cfg, n0, es);
    var s := Exec(c, cfg, Init(n0), es);
    forall i | 0 <= i < |s.attempts|
      ensures s.attempts[i].batch.number == n0 + 1 + i && (i < |s.attempts| - 1 ==> s.attempts[i].accepted)
    {
      assert EntryInOrder(c, n0, Abs(s), i);
    }
    if s.attempts == [] {
      assert LoggedBlocks(c, s.attempts) == [];
    } else {
      LogIsContiguous(c, n0, Abs(s));
      assert n0 == 0 ==> s.cut[..n0] == [];
    }
  }
}
