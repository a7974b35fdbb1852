/**
 The semaphore-backed buffer of executed blocks. Its atomic sections can be interleaved in any way by any number of
 tasks: a push first waits for a slot and enqueues later, and can be cancelled in between; a drain first takes the
 blocks and gives their slots back later.
 */
module BlockBuffer {
  datatype PushResult = Pushed | Full | LockFailed

  class ExecutedBlockBuffer<T(0)> {
    const capacity: nat
    /** The semaphore's free permits. */
    var slots: nat
    var pending: seq<T>

    /** Slots held by pushes that have not enqueued yet, and slots of drained blocks not given back yet. */
    var acquired: nat
    var owed: nat
    /** Every block ever enqueued, and every block ever drained. */
    ghost var enqueued: seq<T>
    ghost var drained: seq<T>
    /** How many slots were given back for drained blocks so far. */
    ghost var givenBack: nat

    /** Slots are conserved, and what went in comes out in order. */
    ghost predicate Valid()
      reads this
    {
      && slots + |pending| + acquired + owed == capacity
      && drained + pending == enqueued
      && owed + givenBack == |drained|
    }

    constructor (capacity: nat)
      requires capacity > 0
      ensures Valid() && this.capacity == capacity && slots == capacity && enqueued == []
    {
      this.capacity := capacity;
      slots, pending := capacity, [];
      acquired, owed, enqueued, drained, givenBack := 0, 0, [], [], 0;
    }

    method Acquire()
      requires Valid() && slots > 0
      modifies this`slots, this`acquired
      ensures Valid() && slots == old(slots) - 1 && acquired == old(acquired) + 1
    {
      slots := slots - 1;
      acquired := acquired + 1;
    }

    /** The permit is forgotten with the enqueueing, so the slot stays taken. */
    method Enqueue(block: T)
      requires Valid() && acquired > 0
      modifies this`pending, this`acquired, this`enqueued
      ensures Valid() && enqueued == old(enqueued) + [block] && pending == old(pending) + [block]
      ensures acquired == old(acquired) - 1
    {
      pending := pending + [block];
      acquired, enqueued := acquired - 1, enqueued + [block];
    }

    /** A push dropped while it waits for the queue gives its permit back. */
    method Cancel()
      requires Valid() && acquired > 0
      modifies this`slots, this`acquired
      ensures Valid() && slots == old(slots) + 1 && acquired == old(acquired) - 1
    {
      slots := slots + 1;
      acquired := acquired - 1;
    }

    /** Fails without a trace when no slot is free, or when another task holds the queue. */
    method TryPush(block: T, queueLocked: bool) returns (r: PushResult)
      requires Valid()
      modifies this`slots, this`pending, this`acquired, this`enqueued
      ensures Valid()
      ensures r == Full <==> old(slots) == 0
      ensures r == LockFailed <==> old(slots) > 0 && queueLocked
      ensures acquired == old(acquired)
      ensures r == Pushed ==> enqueued == old(enqueued) + [block] && slots == old(slots) - 1
      ensures r != Pushed ==> enqueued == old(enqueued) && pending == old(pending) && slots == old(slots)
    {
      if slots == 0 {
        return Full;
      }
      Acquire();
      if queueLocked {
        Cancel();
        return LockFailed;
      }
      Enqueue(block);
      return Pushed;
    }

    method TakeAll() returns (blocks: seq<T>)
      requires Valid()
      modifies this`pending, this`owed, this`drained
      ensures Valid() && pending == [] && blocks == old(pending) && drained == old(drained) + blocks
      ensures owed == old(owed) + |blocks|
    {
      blocks := pending;
      pending := [];
      owed, drained := owed + |blocks|, drained + blocks;
    }

    method Release(n: nat)
      requires Valid() && n <= owed
      modifies this`slots, this`owed, this`givenBack
      ensures Valid() && slots == old(slots) + n && owed == old(owed) - n && givenBack == old(givenBack) + n
    {
      slots := slots + n;
      owed, givenBack := owed - n, givenBack + n;
    }

    /** Any number of atomic sections of other tasks; they leave the slots alone that are not theirs. */
    method OtherTasks(mine: nat, myDebt: nat)
      requires Valid() && mine <= acquired && myDebt <= owed
      modifies this
      ensures Valid() && old(enqueued) <= enqueued && old(drained) <= drained && old(givenBack) <= givenBack
      ensures mine <= acquired && myDebt <= owed
    {
      var n: nat := *;
      while n > 0
        invariant Valid() && old(enqueued) <= enqueued && old(drained) <= drained && old(givenBack) <= givenBack
        invariant mine <= acquired && myDebt <= owed
      {
        var what: nat := *;
        var block: T := *;
        if what == 0 && slots > 0 {
          Acquire();
        } else if what == 1 && acquired > mine {
          Enqueue(block);
        } else if what == 2 && acquired > mine {
          Cancel();
        } else if what == 3 {
          var locked: bool := *;
          var _ := TryPush(block, locked);
        } else if what == 4 {
          var _ := TakeAll();
        } else if owed > myDebt {
          Release(1);
        }
        n := n - 1;
      }
    }

    /**
     Waits for a slot, then for the queue; `patience` bounds the wait and `cancelled` drops the push in between.
     A push that is done has enqueued its block behind all blocks so far; one that was not dropped has only not done so
     while there was no slot.
     */
    method Push(block: T, patience: nat, cancelled: bool) returns (done: bool)
      requires Valid()
      modifies this
      ensures Valid() && old(drained) <= drained && old(enqueued) <= enqueued
      ensures done ==> |enqueued| > |old(enqueued)| && enqueued[|enqueued| - 1] == block && !cancelled
      ensures !done && !cancelled ==> slots == 0
    {
      var left := patience;
      OtherTasks(0, 0);
      while slots == 0
        invariant Valid() && old(drained) <= drained && old(enqueued) <= enqueued
        decreases left
      {
        if left == 0 {
          return false;
        }
        OtherTasks(0, 0);
        left := left - 1;
      }
      Acquire();
      OtherTasks(1, 0);
      if cancelled {
        Cancel();
        return false;
      }
      Enqueue(block);
      return true;
    }

    /** Takes everything queued and then gives exactly that many slots back. */
    method PendingBlocks() returns (blocks: seq<T>)
      requires Valid()
      modifies this
      ensures Valid() && old(drained) + old(pending) <= drained && old(enqueued) <= enqueued
      ensures blocks == old(pending) && givenBack >= old(givenBack) + |blocks|
    {
      blocks := TakeAll();
      OtherTasks(0, |blocks|);
      Release(|blocks|);
    }

    /** Full means that every slot is spoken for; a queue at capacity is full, and none is ever above it. */
    function IsFull(): (r: bool)
      reads this
      requires Valid()
      ensures r <==> |pending| + acquired + owed == capacity
      ensures |pending| == capacity ==> r
      ensures |pending| <= capacity
    {
      slots == 0
    }
  }
}
