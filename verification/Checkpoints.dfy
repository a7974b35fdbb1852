/**
 Checkpoints: the sequencer, the validator and the node each keep a copy of their own and save it to one file, by
 writing a temporary file and renaming it. A crash can come at any point.
 */
module Checkpoints {
  import opened Basics
  import opened Pipeline

  datatype Checkpoint = Checkpoint(
    lastBatchSubmitted: nat, lastBatchDerived: nat, lastBlockExecuted: nat, syncedToBlock: nat)
  {
    function RecordSubmitted(n: nat): Checkpoint {
      if n > lastBatchSubmitted then this.(lastBatchSubmitted := n) else this
    }

    function RecordDerived(n: nat): Checkpoint {
      if n > lastBatchDerived then this.(lastBatchDerived := n) else this
    }

    function RecordExecuted(n: nat): Checkpoint {
      if n > lastBlockExecuted then this.(lastBlockExecuted := n) else this
    }

    function RecordSynced(n: nat): Checkpoint {
      if n > syncedToBlock then this.(syncedToBlock := n) else this
    }
  }

  const DEFAULT: Checkpoint := Checkpoint(0, 0, 0, 0)

  // ------------------------------------------------------------ one file

  /** A file that was being written when the process died holds only part of its text. */
  datatype Text = Whole(cp: Checkpoint) | Torn

  class CheckpointFile {
    var file: Option<Text>
    var temp: Option<Text>

    constructor ()
      ensures file == None
    {
      file, temp := None, None;
    }

    /**
     Writes the temporary file and renames it; the process may die before, during or after each of the two. The file
     itself is changed by the renaming alone, and then as a whole.
     */
    method Save(cp: Checkpoint, diesAt: nat) returns (survived: bool)
      modifies this
      ensures file == if diesAt >= 3 then Some(Whole(cp)) else old(file)
      ensures temp == match diesAt case 0 => old(temp) case 1 => Some(Torn) case 2 => Some(Whole(cp)) case _ => None
      ensures survived <==> diesAt > 3
    {
      if diesAt == 0 {
        return false;
      }
      temp := Some(Torn);
      if diesAt == 1 {
        return false;
      }
      temp := Some(Whole(cp));
      if diesAt == 2 {
        return false;
      }
      file, temp := temp, None;
      return diesAt > 3;
    }

    /** A missing file is no checkpoint; a torn one is an error. */
    method Load() returns (r: Result<Option<Checkpoint>, ()>)
      ensures r == if file == None then Ok(None) else if file.value.Whole? then Ok(Some(file.value.cp)) else Err(())
    {
      r := match file
           case None => Ok(None)
           case Some(Whole(cp)) => Ok(Some(cp))
           case Some(Torn) => Err(());
    }

    /** The last of the checkpoints whose save got as far as the renaming. */
    static function LastRenamed(cps: seq<Checkpoint>, diesAt: nat -> nat): Option<Checkpoint> {
      if cps == [] then None
      else if diesAt(|cps| - 1) >= 3 then Some(cps[|cps| - 1])
      else LastRenamed(cps[..|cps| - 1], diesAt)
    }

    /**
     However many saves, and wherever they are cut off: the file holds the last checkpoint that got as far as the
     renaming and is untouched if none did, so a file that was not torn before loads.
     */
    method SaveMany(cps: seq<Checkpoint>, diesAt: nat -> nat) returns (r: Result<Option<Checkpoint>, ()>)
      modifies this
      ensures var last := LastRenamed(cps, diesAt);
        file == if last.Some? then Some(Whole(last.value)) else old(file)
      ensures LastRenamed(cps, diesAt).Some? ==> r == Ok(LastRenamed(cps, diesAt))
      ensures r.Ok? <==> file != Some(Torn)
    {
      for n := 0 to |cps|
        invariant var last := LastRenamed(cps[..n], diesAt);
          file == if last.Some? then Some(Whole(last.value)) else old(file)
      {
        assert cps[..n + 1][..n] == cps[..n];
        var _ := Save(cps[n], diesAt(n));
      }
      assert cps[..|cps|] == cps;
      r := Load();
    }
  }

  // ------------------------------------------------------------ three holders of one file

  datatype Holder = SequencerHolder | ValidatorHolder | NodeHolder

  /**
   The last four are the progress truly made: the highest batch the sink got a receipt for, the highest one executed,
   the highest block synced and the highest one at which syncing was complete.
   */
  datatype Node = Node(
    file: Option<Checkpoint>, sequencer: Checkpoint, validator: Checkpoint, own: Checkpoint,
    submitted: nat, derived: nat, synced: nat, completed: nat)
  {
    function Copy(h: Holder): Checkpoint {
      match h
      case SequencerHolder => sequencer
      case ValidatorHolder => validator
      case NodeHolder => own
    }
  }

  datatype Event =
    | BatchSubmitted(n: nat)
    | BatchDerived(n: nat)
    | Save(holder: Holder, reachesFile: bool)
    | CollectFromRoles
    | SyncProgress(block: nat)
    | SyncComplete(block: nat)
    | ResumeRoles
    | Restart

  function Step(s: Node, e: Event): Node {
    match e
    case BatchSubmitted(n) => s.(submitted := Max(s.submitted, n), sequencer := s.sequencer.RecordSubmitted(n))
    case BatchDerived(n) => s.(derived := Max(s.derived, n), validator := s.validator.RecordDerived(n))
    case Save(h, reachesFile) => if reachesFile then s.(file := Some(s.Copy(h))) else s
    case CollectFromRoles =>
      var own := s.own.RecordSubmitted(s.sequencer.lastBatchSubmitted).RecordExecuted(s.sequencer.lastBlockExecuted);
      s.(own := own.RecordDerived(s.validator.lastBatchDerived).RecordExecuted(s.validator.lastBlockExecuted))
    case SyncProgress(b) => s.(synced := Max(s.synced, b), own := s.own.RecordSynced(b))
    case SyncComplete(b) =>
      s.(synced := Max(s.synced, b), completed := Max(s.completed, b), own := Checkpoint(0, 0, b, b))
    case ResumeRoles => s.(sequencer := s.own, validator := s.own)
    case Restart =>
      var cp := if s.file.Some? then s.file.value else DEFAULT;
      s.(sequencer := cp, validator := cp, own := cp)
  }

  function Steps(s: Node, es: seq<Event>): Node
    decreases |es|
  {
    if es == [] then s else Steps(Step(s, es[0]), es[1..])
  }

  predicate NotAhead(cp: Checkpoint, s: Node) {
    && cp.lastBatchSubmitted <= s.submitted && cp.lastBatchDerived <= s.derived
    && cp.syncedToBlock <= s.synced && cp.lastBlockExecuted <= s.completed
  }

  predicate NobodyAhead(s: Node) {
    && (forall h: Holder :: NotAhead(s.Copy(h), s))
    && (s.file.Some? ==> NotAhead(s.file.value, s))
  }

  lemma StepKeepsNobodyAhead(s: Node, e: Event)
    requires NobodyAhead(s)
    ensures NobodyAhead(Step(s, e))
  {
    var t := Step(s, e);
    assert NotAhead(s.Copy(SequencerHolder), s) && NotAhead(s.Copy(ValidatorHolder), s);
    assert NotAhead(s.Copy(NodeHolder), s);
    if e.Save? {
      assert NotAhead(s.Copy(e.holder), s);
    }
  }

  /** In every run, crashes and restarts included, no copy and no file claims more than was truly done. */
  lemma {:induction false} LoadIsNeverAhead(s: Node, es: seq<Event>)
    requires NobodyAhead(s)
    ensures NobodyAhead(Steps(s, es))
    decreases |es|
  {
    if es != [] {
      StepKeepsNobodyAhead(s, es[0]);
      LoadIsNeverAhead(Step(s, es[0]), es[1..]);
    }
  }

  predicate ActiveStage(e: Event) {
    e.BatchSubmitted? || e.BatchDerived? || e.Save? || e.CollectFromRoles?
  }

  predicate NoLess(a: Checkpoint, b: Checkpoint) {
    && a.lastBatchSubmitted <= b.lastBatchSubmitted && a.lastBatchDerived <= b.lastBatchDerived
    && a.lastBlockExecuted <= b.lastBlockExecuted && a.syncedToBlock == b.syncedToBlock
  }

  /** While the roles run, no field of any copy goes down, and the synced block stays. */
  lemma {:induction false} ActiveStageOnlyGrows(s: Node, es: seq<Event>, h: Holder)
    requires forall i :: 0 <= i < |es| ==> ActiveStage(es[i])
    ensures NoLess(s.Copy(h), Steps(s, es).Copy(h))
    decreases |es|
  {
    if es != [] {
      ActiveStageOnlyGrows(Step(s, es[0]), es[1..], h);
      assert ActiveStage(es[0]);
    }
  }

  // ------------------------------------------------------------ what a restart remembers

  /** The node as it starts for the very first time. */
  const FIRST_START: Node := Node(None, DEFAULT, DEFAULT, DEFAULT, 0, 0, 0, 0)

  /** The four kinds of progress, one for each field; `Execution` is what sync completion reports. */
  datatype Progress = Submission | Derivation | Syncing | Execution {
    /** Whose copy is the first to know. */
    function Owner(): Holder {
      match this
      case Submission => SequencerHolder
      case Derivation => ValidatorHolder
      case _ => NodeHolder
    }

    /** The node collects this progress from the role's copy. */
    predicate CollectedFrom(h: Holder) {
      match h
      case SequencerHolder => Submission? || Execution?
      case ValidatorHolder => Derivation? || Execution?
      case NodeHolder => false
    }

    function In(cp: Checkpoint): nat {
      match this
      case Submission => cp.lastBatchSubmitted
      case Derivation => cp.lastBatchDerived
      case Syncing => cp.syncedToBlock
      case Execution => cp.lastBlockExecuted
    }

    /** The progress truly made. */
    function Made(s: Node): nat {
      match this
      case Submission => s.submitted
      case Derivation => s.derived
      case Syncing => s.synced
      case Execution => s.completed
    }

    predicate Reports(e: Event) {
      match e
      case BatchSubmitted(_) => Submission?
      case BatchDerived(_) => Derivation?
      case SyncProgress(_) => Syncing?
      case SyncComplete(_) => Syncing? || Execution?
      case _ => false
    }

    function Amount(e: Event): nat
      requires Reports(e)
    {
      match e
      case BatchSubmitted(n) => n
      case BatchDerived(n) => n
      case SyncProgress(b) => b
      case SyncComplete(b) => b
    }
  }

  function Last(es: seq<Event>): Event
    requires es != []
  {
    es[|es| - 1]
  }

  function Init(es: seq<Event>): seq<Event>
    requires es != []
  {
    es[..|es| - 1]
  }

  /** The highest number reported of this kind of progress. */
  function Highest(p: Progress, es: seq<Event>): nat {
    if es == [] then 0
    else if p.Reports(Last(es)) then Max(Highest(p, Init(es)), p.Amount(Last(es)))
    else Highest(p, Init(es))
  }

  /**
   The holder's copy is up to date, read off the events alone: the owner's is after each new highest number, the node's
   after collecting from a role that is; sync completion overwrites all that the node knew, resuming the roles copies
   the node's, and a restart copies the file.
   */
  predicate UpToDate(p: Progress, es: seq<Event>, h: Holder)
    decreases |es|, 0
  {
    if es == [] then true
    else if p.Reports(Last(es)) then
      if p.Amount(Last(es)) > Highest(p, Init(es)) then h == p.Owner()
      else
        || (h == p.Owner() && p.Amount(Last(es)) == Highest(p, Init(es)))
        || (!(Last(es).SyncComplete? && h.NodeHolder?) && UpToDate(p, Init(es), h))
    else
      match Last(es)
      case CollectFromRoles =>
        || UpToDate(p, Init(es), h)
        || (h.NodeHolder? && p.CollectedFrom(SequencerHolder) && UpToDate(p, Init(es), SequencerHolder))
        || (h.NodeHolder? && p.CollectedFrom(ValidatorHolder) && UpToDate(p, Init(es), ValidatorHolder))
      case SyncComplete(_) => if h.NodeHolder? then Highest(p, Init(es)) == 0 else UpToDate(p, Init(es), h)
      case ResumeRoles => UpToDate(p, Init(es), NodeHolder)
      case Restart => FileUpToDate(p, Init(es))
      case _ => UpToDate(p, Init(es), h)
  }

  /** The last save that reached the file was by an up-to-date holder, and nothing new was made since. */
  predicate FileUpToDate(p: Progress, es: seq<Event>)
    decreases |es|, 1
  {
    if es == [] then true
    else if p.Reports(Last(es)) then p.Amount(Last(es)) <= Highest(p, Init(es)) && FileUpToDate(p, Init(es))
    else
      match Last(es)
      case Save(h, reachesFile) => if reachesFile then UpToDate(p, Init(es), h) else FileUpToDate(p, Init(es))
      case _ => FileUpToDate(p, Init(es))
  }

  function FileCopy(s: Node): Checkpoint {
    if s.file.Some? then s.file.value else DEFAULT
  }

  lemma {:induction false} StepsSnoc(s: Node, es: seq<Event>)
    requires es != []
    ensures Steps(s, es) == Step(Steps(s, Init(es)), Last(es))
    decreases |es|
  {
    if |es| > 1 {
      StepsSnoc(Step(s, es[0]), es[1..]);
      assert Init(es[1..]) == Init(es)[1..];
    } else {
      assert Steps(s, es) == Steps(Step(s, es[0]), es[1..]);
    }
  }

  /** The trace test is right about the holder's copy in state `s`, which is not ahead. */
  predicate CopyDecided(p: Progress, es: seq<Event>, s: Node, h: Holder) {
    && p.In(s.Copy(h)) <= p.Made(s)
    && (p.In(s.Copy(h)) == p.Made(s) <==> UpToDate(p, es, h))
  }

  predicate FileDecided(p: Progress, es: seq<Event>, s: Node) {
    && p.Made(s) == Highest(p, es)
    && p.In(FileCopy(s)) <= p.Made(s)
    && (p.In(FileCopy(s)) == p.Made(s) <==> FileUpToDate(p, es))
  }

  lemma InAfterReport(p: Progress, s: Node, e: Event, h: Holder)
    requires p.Reports(e)
    ensures p.Made(Step(s, e)) == Max(p.Made(s), p.Amount(e))
    ensures p.In(Step(s, e).Copy(h)) ==
      if h != p.Owner() then p.In(s.Copy(h))
      else if e.SyncComplete? then p.Amount(e)
      else Max(p.In(s.Copy(h)), p.Amount(e))
  {
  }

  /** What the node collects of this progress from the role's copy. */
  function Collected(p: Progress, s: Node, role: Holder): nat {
    if p.CollectedFrom(role) then p.In(s.Copy(role)) else 0
  }

  lemma InAfterOther(p: Progress, s: Node, e: Event, h: Holder)
    requires !p.Reports(e)
    ensures p.Made(Step(s, e)) == p.Made(s)
    ensures p.In(Step(s, e).Copy(h)) == match e
      case CollectFromRoles =>
        if h.NodeHolder? then Max(p.In(s.own), Max(Collected(p, s, SequencerHolder), Collected(p, s, ValidatorHolder)))
        else p.In(s.Copy(h))
      case SyncComplete(_) => if h.NodeHolder? then 0 else p.In(s.Copy(h))
      case ResumeRoles => p.In(s.own)
      case Restart => p.In(FileCopy(s))
      case _ => p.In(s.Copy(h))
  {
  }

  lemma CopyStep(p: Progress, es: seq<Event>, s: Node, h: Holder)
    requires es != [] && FileDecided(p, Init(es), s) && forall g :: CopyDecided(p, Init(es), s, g)
    ensures CopyDecided(p, es, Step(s, Last(es)), h)
  {
    assert CopyDecided(p, Init(es), s, h);
    assert CopyDecided(p, Init(es), s, SequencerHolder);
    assert CopyDecided(p, Init(es), s, ValidatorHolder);
    assert s.Copy(NodeHolder) == s.own && CopyDecided(p, Init(es), s, NodeHolder);
    if p.Reports(Last(es)) {
      InAfterReport(p, s, Last(es), h);
    } else {
      InAfterOther(p, s, Last(es), h);
    }
  }

  lemma FileStep(p: Progress, es: seq<Event>, s: Node)
    requires es != [] && FileDecided(p, Init(es), s) && forall g :: CopyDecided(p, Init(es), s, g)
    ensures FileDecided(p, es, Step(s, Last(es)))
  {
    if Last(es).Save? {
      assert CopyDecided(p, Init(es), s, Last(es).holder);
    }
  }

  /** For every kind of progress the trace test is right about every copy and about the file after every run. */
  lemma {:induction false} TraceDecides(p: Progress, es: seq<Event>)
    ensures FileDecided(p, es, Steps(FIRST_START, es))
    ensures forall h :: CopyDecided(p, es, Steps(FIRST_START, es), h)
    decreases |es|
  {
    if es != [] {
      var s := Steps(FIRST_START, Init(es));
      StepsSnoc(FIRST_START, es);
      TraceDecides(p, Init(es));
      FileStep(p, es, s);
      forall h ensures CopyDecided(p, es, Steps(FIRST_START, es), h) {
        CopyStep(p, es, s, h);
      }
    }
  }

  /**
   For every run from the first start, with crashes, restarts and all three holders, and for every kind of progress: a
   restart keeps the count exactly when the last save that reached the file was by an up-to-date holder and nothing new
   was made since.
   */
  lemma RestartKeepsProgressIff(p: Progress, es: seq<Event>)
    ensures p.In(Steps(FIRST_START, es + [Restart]).Copy(p.Owner())) == p.Made(Steps(FIRST_START, es))
      <==> FileUpToDate(p, es)
  {
    TraceDecides(p, es);
    StepsSnoc(FIRST_START, es + [Restart]);
    assert Init(es + [Restart]) == es;
  }

  /** Each holder's save erases what the others saved: after a restart the progress is to be made once more. */
  lemma OtherSaveForgets(p: Progress, e: Event, other: Holder)
    requires p.Reports(e) && p.Amount(e) > 0 && other != p.Owner()
    ensures var s := Steps(FIRST_START, [e, Save(p.Owner(), true), Save(other, true)] + [Restart]);
      p.Made(s) == p.Amount(e) && p.In(s.Copy(p.Owner())) == 0
  {
    var es := [e, Save(p.Owner(), true), Save(other, true)];
    var s1 := Step(FIRST_START, e);
    var s2 := Step(s1, Save(p.Owner(), true));
    var s3 := Step(s2, Save(other, true));
    StepsSnoc(FIRST_START, es + [Restart]);
    StepsSnoc(FIRST_START, es);
    StepsSnoc(FIRST_START, [e, Save(p.Owner(), true)]);
    StepsSnoc(FIRST_START, [e]);
    assert Init(es + [Restart]) == es && Init(es) == [e, Save(p.Owner(), true)];
    assert Init([e, Save(p.Owner(), true)]) == [e] && Init([e]) == [];
    assert Steps(FIRST_START, es) == s3;
  }

  /** The validator's save makes a restarted sequencer submit batch 1 again. */
  lemma ValidatorSaveForgetsSubmission()
    ensures var es := [BatchSubmitted(1), Save(SequencerHolder, true), Save(ValidatorHolder, true)];
      var t := Steps(FIRST_START, es + [Restart]);
      t.submitted == 1 && !ShouldSkip(t.sequencer.lastBatchSubmitted, 1)
  {
    OtherSaveForgets(Submission, BatchSubmitted(1), ValidatorHolder);
  }

  /** The sequencer's save makes a restarted validator derive batch 1 again. */
  lemma SequencerSaveForgetsDerivation()
    ensures var es := [BatchDerived(1), Save(ValidatorHolder, true), Save(SequencerHolder, true)];
      var t := Steps(FIRST_START, es + [Restart]);
      t.derived == 1 && t.validator.lastBatchDerived == 0
  {
    OtherSaveForgets(Derivation, BatchDerived(1), SequencerHolder);
  }
}
