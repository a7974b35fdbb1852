/** The sync stage: fetch consecutive blocks until within a threshold of the chain tip. */
module Sync {
  import opened Basics
  import opened Division

  /** The block at which the stage counts as synced; it may lie before the start. */
  function Goal(target: nat, threshold: nat): int {
    target - threshold
  }

  /** How far one undisturbed tick takes the stage. */
  function AfterTick(current: nat, goal: int, perTick: nat): nat {
    if current >= goal then current else Min(current + perTick, goal)
  }

  function AfterTicks(current: nat, goal: int, perTick: nat, n: nat): nat {
    if n == 0 then current else AfterTick(AfterTicks(current, goal, perTick, n - 1), goal, perTick)
  }

  function CeilDiv(a: nat, b: nat): nat
    requires b > 0
  {
    (a + b - 1) / b
  }

  lemma {:induction false} PositionAfter(start: nat, goal: int, perTick: nat, n: nat)
    requires start < goal && perTick >= 1
    ensures AfterTicks(start, goal, perTick, n) == Min(start + n * perTick, goal)
  {
    if n > 0 {
      PositionAfter(start, goal, perTick, n - 1);
      assert n * perTick == (n - 1) * perTick + perTick;
    }
  }

  /** The goal is reached after exactly ceil(distance / perTick) ticks, and not one tick earlier. */
  lemma ReachedAfter(start: nat, goal: int, perTick: nat, n: nat)
    requires start < goal && perTick >= 1
    ensures AfterTicks(start, goal, perTick, n) >= goal <==> n >= CeilDiv(goal - start, perTick)
  {
    PositionAfter(start, goal, perTick, n);
    CeilBounds(goal - start, perTick);
    Multiples(n, CeilDiv(goal - start, perTick), perTick);
  }

  /** The first tick after which the goal is reached leaves the stage exactly there. */
  lemma FirstReached(start: nat, goal: int, perTick: nat, n: nat)
    requires start < goal && perTick >= 1 && AfterTicks(start, goal, perTick, n) >= goal
    requires n > 0 ==> AfterTicks(start, goal, perTick, n - 1) < goal
    ensures n == CeilDiv(goal - start, perTick) && AfterTicks(start, goal, perTick, n) == goal
  {
    PositionAfter(start, goal, perTick, n);
    ReachedAfter(start, goal, perTick, n);
    if n > 0 {
      ReachedAfter(start, goal, perTick, n - 1);
    }
  }

  lemma CeilBounds(d: nat, b: nat)
    requires b > 0
    ensures d <= CeilDiv(d, b) * b < d + b
  {
    var x := d + b - 1;
    assert x == (x / b) * b + x % b && x % b < b;
  }

  lemma Multiples(n: nat, c: nat, b: nat)
    ensures n >= c ==> n * b >= c * b
    ensures n < c ==> n * b <= c * b - b
  {
    if n >= c {
      MulMonotone(c, n, b, b);
    } else {
      MulMonotone(n + 1, c, b, b);
      assert (n + 1) * b == n * b + b;
    }
  }

  datatype Status = Syncing | Complete | Failed

  /** The tip query of one tick: it is not due yet, it fails, or it answers. */
  datatype TipQuery = NotDue | NoTip | Tip(block: nat)

  /** What fetching one block comes to. */
  datatype Fetch = Fetched | NotThere | FetchFails

  class SyncStage {
    const threshold: nat
    const perTick: nat
    var startBlock: nat
    var currentBlock: nat
    var targetBlock: nat
    var blocksSynced: nat
    /** The numbers of the blocks fetched, in order. */
    ghost var fetched: seq<nat>

    ghost predicate Valid()
      reads this
    {
      && blocksSynced == currentBlock - startBlock == |fetched|
      && forall i :: 0 <= i < |fetched| ==> fetched[i] == startBlock + 1 + i
    }

    constructor (threshold: nat, perTick: nat)
      ensures this.threshold == threshold && this.perTick == perTick
      ensures Valid() && blocksSynced == 0
    {
      this.threshold, this.perTick := threshold, perTick;
      startBlock, currentBlock, targetBlock, blocksSynced, fetched := 0, 0, 0, 0, [];
    }

    /** Starts at `start` with the present tip as the target; called once, on a new stage. */
    method Initialize(start: nat, tip: Option<nat>) returns (ok: bool)
      requires Valid() && blocksSynced == 0
      modifies this
      ensures Valid() && startBlock == start && currentBlock == start && blocksSynced == 0
      ensures ok == tip.Some? && targetBlock == if ok then tip.value else old(targetBlock)
    {
      startBlock, currentBlock := start, start;
      ok := tip.Some?;
      if ok {
        targetBlock := tip.value;
      }
    }

    predicate IsSynced()
      reads this
    {
      currentBlock + threshold >= targetBlock
    }

    /** The tip does not move, and every block can be fetched. */
    ghost predicate Undisturbed(tip: TipQuery, target: nat, blocks: nat -> Fetch) {
      (tip == NotDue || tip == Tip(target)) && forall n :: blocks(n) == Fetched
    }

    /**
     Refreshes the tip when that is due, then fetches up to `perTick` blocks, one by one, until synced: what it did, and
     where it stopped and why, follows from the answers it got.
     */
    method Tick(tip: TipQuery, blocks: nat -> Fetch) returns (r: Status)
      requires Valid()
      modifies this`currentBlock, this`targetBlock, this`blocksSynced, this`fetched
      ensures Valid() && old(fetched) <= fetched && old(currentBlock) <= currentBlock <= old(currentBlock) + perTick
      ensures targetBlock == if tip.Tip? then tip.block else old(targetBlock)
      ensures r == Complete <==> tip != NoTip && old(currentBlock) + threshold >= targetBlock
      ensures r == Complete || tip == NoTip ==> currentBlock == old(currentBlock)
      ensures forall n :: old(currentBlock) < n <= currentBlock ==> blocks(n) == Fetched
      ensures currentBlock > old(currentBlock) ==> currentBlock + threshold <= targetBlock
      ensures r == Failed ==> tip == NoTip || blocks(currentBlock + 1) == FetchFails
      ensures r == Failed && tip != NoTip ==>
        currentBlock < old(currentBlock) + perTick && currentBlock + threshold < targetBlock
      ensures r == Syncing ==> tip != NoTip
      ensures r == Syncing ==>
        || currentBlock == old(currentBlock) + perTick
        || currentBlock + threshold == targetBlock
        || blocks(currentBlock + 1) == NotThere
      ensures Undisturbed(tip, old(targetBlock), blocks) ==>
        && targetBlock == old(targetBlock)
        && currentBlock == AfterTick(old(currentBlock), Goal(targetBlock, threshold), perTick)
        && (r == Complete <==> old(IsSynced()))
    {
      if tip == NoTip {
        return Failed;
      }
      if tip.Tip? {
        targetBlock := tip.block;
      }
      if IsSynced() {
        return Complete;
      }
      var processed: nat := 0;
      while processed < perTick && !IsSynced()
        invariant Valid() && old(fetched) <= fetched
        invariant processed <= perTick && currentBlock == old(currentBlock) + processed
        invariant currentBlock <= Goal(targetBlock, threshold)
        invariant targetBlock == if tip.Tip? then tip.block else old(targetBlock)
        invariant forall n :: old(currentBlock) < n <= currentBlock ==> blocks(n) == Fetched
      {
        var answer := blocks(currentBlock + 1);
        if answer == FetchFails {
          return Failed;
        }
        if answer == NotThere {
          break;
        }
        currentBlock := currentBlock + 1;
        blocksSynced := blocksSynced + 1;
        fetched := fetched + [currentBlock];
        processed := processed + 1;
      }
      return Syncing;
    }

    /** With a fixed tip and every block available, completion is reported on tick ceil(distance / perTick) + 1. */
    method RunUntilComplete(tips: nat -> TipQuery, blocks: nat -> Fetch) returns (ticks: nat)
      requires Valid() && perTick >= 1 && !IsSynced()
      requires forall n :: Undisturbed(tips(n), targetBlock, blocks)
      modifies this`currentBlock, this`targetBlock, this`blocksSynced, this`fetched
      ensures Valid() && targetBlock == old(targetBlock) && currentBlock == Goal(targetBlock, threshold)
      ensures ticks == CeilDiv(Goal(targetBlock, threshold) - old(currentBlock), perTick) + 1
    {
      ticks := 0;
      ghost var start, goal := currentBlock, Goal(targetBlock, threshold);
      while true
        invariant Valid() && targetBlock == old(targetBlock)
        invariant currentBlock == AfterTicks(start, goal, perTick, ticks)
        invariant ticks > 0 ==> AfterTicks(start, goal, perTick, ticks - 1) < goal
        decreases SaturatingSub(goal, currentBlock)
      {
        assert Undisturbed(tips(ticks), targetBlock, blocks);
        var status := Tick(tips(ticks), blocks);
        ticks := ticks + 1;
        if status == Complete {
          FirstReached(start, goal, perTick, ticks - 1);
          return;
        }
      }
    }
  }
}
