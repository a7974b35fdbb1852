/**
 When every inbox transaction gets an L1 block of its own, and what one life leaves to the next. The sink's wait for
 receipts orders the sends of one life; what an earlier life left unmined is outside its reach.
 */
module Restarts {
  import opened Wire
  import opened Pipeline
  import opened Transport
  import opened EndToEnd

  /** Each send found nothing unmined. */
  predicate SendsAlone(m: Params, s: System, acts: seq<Action>)
    requires CanAll(m, s, acts)
    decreases |acts|
  {
    acts == [] || ((acts[0].Send? ==> s.mempool == []) && SendsAlone(m, Do(m, s, acts[0]), acts[1..]))
  }

  /** The first send did. */
  predicate FirstSendAlone(m: Params, s: System, acts: seq<Action>)
    requires CanAll(m, s, acts)
    decreases |acts|
  {
    acts == [] || (if acts[0].Send? then s.mempool == [] else FirstSendAlone(m, Do(m, s, acts[0]), acts[1..]))
  }

  /** The sink is between calls with nothing unmined, or will not be called any more. */
  predicate NothingPends(s: System) {
    !s.waiting && s.p.lost == {} ==> s.mempool == []
  }

  lemma ActionKeepsNothingPending(m: Params, past: seq<Bytes>, s: System, a: Action)
    requires WireInv(m, past, s) && NothingPends(s) && Can(m, s, a)
    ensures NothingPends(Do(m, s, a)) && (a.Send? ==> s.mempool == [])
  {
    match a
    case Inner(e) => InnerFrame(m.c, m.cfg, s.p, e);
    case SkipBatch(at) => SubmitStep(m, s.p, at, true, true);
    case SendFails(at) => SubmitStep(m, s.p, at, false, true);
    case Send(at) => SubmitStep(m, s.p, at, true, true);
    case NoReceipt(at) => SubmitStep(m, s.p, at, false, true);
    case _ =>
  }

  lemma {:induction false} NothingPendsSendsAlone(m: Params, past: seq<Bytes>, s: System, acts: seq<Action>)
    requires WireInv(m, past, s) && NothingPends(s) && CanAll(m, s, acts)
    ensures SendsAlone(m, s, acts)
    decreases |acts|
  {
    if acts != [] {
      ActionKeepsNothingPending(m, past, s, acts[0]);
      ActionKeepsWire(m, past, s, acts[0]);
      NothingPendsSendsAlone(m, past, Do(m, s, acts[0]), acts[1..]);
    }
  }

  /** Waiting for each receipt makes every send go out alone, exactly if the first one of the life does. */
  lemma {:induction false} SendsAloneIff(m: Params, past: seq<Bytes>, s: System, acts: seq<Action>)
    requires WireInv(m, past, s) && CanAll(m, s, acts)
    ensures SendsAlone(m, s, acts) <==> FirstSendAlone(m, s, acts)
    decreases |acts|
  {
    if acts != [] {
      ActionKeepsWire(m, past, s, acts[0]);
      var t := Do(m, s, acts[0]);
      if acts[0].Send? {
        NothingPendsSendsAlone(m, past, t, acts[1..]);
      } else {
        SendsAloneIff(m, past, t, acts[1..]);
      }
    }
  }

  /** A start with at most one transaction in each block and at most one unmined. */
  predicate StartsClean(m: Params, l: L1State) {
    AtMostOneEach(m.inbox, l.blocks) && |l.pool| <= 1
  }

  lemma {:induction false} SendsAloneKeepClean(m: Params, s: System, acts: seq<Action>)
    requires StartsClean(m, L1State(s.chain, s.mempool)) && CanAll(m, s, acts) && SendsAlone(m, s, acts)
    ensures var t := DoAll(m, s, acts); StartsClean(m, L1State(t.chain, t.mempool))
    decreases |acts|
  {
    if acts != [] {
      var a := acts[0];
      if a.MineBlock? {
        MineKeepsInbox(m, s, a.k, a.before, a.after);
      }
      SendsAloneKeepClean(m, Do(m, s, a), acts[1..]);
    }
  }

  /**
   Waiting for each receipt before the next send gives every inbox transaction an L1 block of its own, as long as
   nothing is unmined when the first batch of the life is sent; a start with an empty mempool suffices. The next life
   can start from there.
   */
  lemma OneInboxTxPerBlock(m: Params, l: L1State, acts: seq<Action>)
    requires StartsClean(m, l) && CanAll(m, Boot(m, l), acts) && FirstSendAlone(m, Boot(m, l), acts)
    ensures var s := DoAll(m, Boot(m, l), acts);
      && StartsClean(m, L1State(s.chain, s.mempool))
      && FirstInputs(m.inbox, s.chain) == AllInbox(m.inbox, s.chain)
  {
    var s := DoAll(m, Boot(m, l), acts);
    BootInv(m, l);
    SendsAloneIff(m, Past(m, l), Boot(m, l), acts);
    SendsAloneKeepClean(m, Boot(m, l), acts);
    ReadsAllIff(m.inbox, s.chain, s.chain);
  }

  lemma EmptyMempoolSuffices(m: Params, l: L1State, acts: seq<Action>)
    requires l.pool == [] && CanAll(m, Boot(m, l), acts)
    ensures FirstSendAlone(m, Boot(m, l), acts)
  {
    BootInv(m, l);
    NothingPendsSendsAlone(m, Past(m, l), Boot(m, l), acts);
    SendsAloneIff(m, Past(m, l), Boot(m, l), acts);
  }

  /** Whatever happened, the inbox the next life finds is that of this life and what this life sent, in order. */
  lemma NextLifeFollows(m: Params, l: L1State, acts: seq<Action>)
    requires CanAll(m, Boot(m, l), acts)
    ensures var s := DoAll(m, Boot(m, l), acts);
      Past(m, L1State(s.chain, s.mempool)) == Past(m, l) + Inputs(s.sent)
  {
    BootInv(m, l);
    AllActionsKeepWire(m, Past(m, l), Boot(m, l), acts);
  }

  /** Then only a missing answer can lose a batch: everything is read exactly when no missed block held one. */
  lemma ReadAllIffNothingMissed(m: Params, l: L1State, acts: seq<Action>)
    requires StartsClean(m, l) && CanAll(m, Boot(m, l), acts) && FirstSendAlone(m, Boot(m, l), acts)
    ensures var s := DoAll(m, Boot(m, l), acts);
      && |s.seen| <= |s.chain|
      && (ReadAll(m, s) <==> NothingMissed(m.inbox, s.seen, s.chain))
  {
    var s := DoAll(m, Boot(m, l), acts);
    BootInv(m, l);
    AllActionsKeepWire(m, Past(m, l), Boot(m, l), acts);
    OneInboxTxPerBlock(m, l, acts);
    FullIffNothingMissed(m.inbox, s.seen, s.chain);
  }

  /** The blocks that were answered by nothing held no inbox transaction. */
  predicate NothingMissed(inbox: Address, seen: seq<L1Block>, chain: seq<L1Block>)
    requires |seen| <= |chain|
  {
    forall i :: 0 <= i < |seen| && seen[i] == [] ==> InboxInputs(inbox, chain[i]) == []
  }

  lemma FullIffNothingMissed(inbox: Address, seen: seq<L1Block>, chain: seq<L1Block>)
    requires |seen| <= |chain| && AtMostOneEach(inbox, chain)
    ensures AllReadInFull(inbox, seen, chain[..|seen|]) <==> NothingMissed(inbox, seen, chain)
  {
    var scanned := chain[..|seen|];
    forall i | 0 <= i < |seen|
      ensures ReadInFull(inbox, seen[i], scanned[i]) <==> (seen[i] == [] ==> InboxInputs(inbox, chain[i]) == [])
    {
      assert scanned[i] == chain[i];
    }
  }
}
