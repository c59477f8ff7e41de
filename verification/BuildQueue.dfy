/** The FIFO scheduler for image builds, updated in place under its mutex.

    `Acquire` is split where it blocks: `Enqueue` is its first locked section, `Collect` and
    `Abandon` are the two branches of its select. Any order of calls to these and to the release
    handles is an interleaving of builds.
 */
module BuildQueue {
  import opened FifoSlots
  import opened Sequences

  class BuildWaiter {
    const id: nat
    var granted: bool
    var closed: bool     // the ready channel

    constructor (id: nat)
      ensures this.id == id && !granted && !closed
    {
      this.id := id;
      granted := false;
      closed := false;
    }

    /** Closing a closed channel panics. */
    method CloseReady()
      requires !closed
      modifies this`closed
      ensures closed
    {
      closed := true;
    }
  }

  /** The function handed to the caller of Acquire. */
  class ReleaseOnce {
    const queue: BuildQueue
    ghost const waiter: BuildWaiter
    var used: bool

    constructor (queue: BuildQueue, ghost waiter: BuildWaiter)
      ensures this.queue == queue && this.waiter == waiter && !used
    {
      this.queue := queue;
      this.waiter := waiter;
      used := false;
    }

    /** The first call gives the slot back, every later call does nothing. */
    method Call()
      requires queue.Valid() && queue.Issued(this)
      modifies this, queue, queue.line.arrived
      ensures queue.Valid() && used && queue.Issued(this)
      ensures !old(used) ==> Enabled(old(queue.line), GiveBack(waiter))
      ensures queue.line == if old(used) then old(queue.line) else Apply(old(queue.line), GiveBack(waiter))
      ensures queue.settled == old(queue.settled) && queue.handles == old(queue.handles)
    {
      if !used {
        used := true;
        queue.Release(waiter);
      }
    }
  }

  datatype Stats = Stats(limit: int, active: int, queued: int)

  class BuildQueue {
    const limit: int
    var active: int
    var waiters: seq<BuildWaiter>

    ghost var line: Line<BuildWaiter>                       // the queue as a value, with its history
    ghost var settled: set<BuildWaiter>                     // past the select in Acquire
    ghost var handles: map<BuildWaiter, ReleaseOnce>

    ghost predicate Issued(h: ReleaseOnce)
      reads this
    {
      h.waiter in handles && handles[h.waiter] == h
    }

    /** A ready channel is closed exactly when its waiter is granted. */
    ghost predicate Marked()
      reads this, line.arrived
    {
      forall w | w in line.arrived :: w.granted == w.closed == (w in line.granted)
    }

    /** What holds while the mutex is held, before free slots are handed out. */
    ghost predicate Locked()
      reads this, line.arrived
    {
      && 1 <= limit == line.limit
      && active == |line.holders|
      && waiters == line.waiting
      && Ordered(line)
      && Marked()
    }

    /** Whoever collected a slot has exactly one handle, unused as long as the slot is out.
        The members of `returning` are giving theirs back right now. */
    ghost predicate Handed(returning: set<BuildWaiter>)
      reads this, handles.Values
    {
      && (forall w | w in line.waiting :: w !in settled)
      && (forall w | w in line.arrived && w !in settled :: w in line.waiting || w in line.holders)
      && (forall w | w in settled :: w in line.arrived)
      && (forall w | w in handles :: handles[w].queue == this && handles[w].waiter == w && w in settled)
      && (forall w | w in handles && !handles[w].used :: w in line.holders && w !in returning)
      && (forall w | w in line.holders && w in settled && w !in returning :: w in handles && !handles[w].used)
    }

    ghost predicate Valid()
      reads this, line.arrived, handles.Values
    {
      Locked() && Busy(line) && Handed({})
    }

    constructor (n: int)
      ensures Valid() && line == NoOne(if n < 1 then 1 else n) && handles == map[] && settled == {}
    {
      limit := if n < 1 then 1 else n;
      active := 0;
      waiters := [];
      line, settled, handles := NoOne(if n < 1 then 1 else n), {}, map[];
    }

    /** One round of dispatchLocked. */
    method GrantHead()
      requires Locked() && Handed({}) && active < limit && |waiters| > 0
      modifies this, line.arrived
      ensures Locked() && Handed({}) && line == Grant(old(line))
      ensures settled == old(settled) && handles == old(handles)
    {
      NobodyTwice(line);
      GrantKeepsOrder(line);
      var waiter := waiters[0];
      waiters := waiters[1..];
      active := active + 1;
      MarkGranted(waiter);
    }

    method MarkGranted(waiter: BuildWaiter)
      requires Marked() && Handed({}) && line.waiting != [] && waiter == line.waiting[0]
      requires waiter in line.arrived && waiter !in line.granted && Distinct(line.waiting)
      modifies waiter, this`line
      ensures Marked() && Handed({}) && line == Grant(old(line))
    {
      GrantMembers(line);
      waiter.granted := true;
      waiter.CloseReady();
      line := Grant(line);
    }

    /** dispatchLocked */
    method DispatchLocked()
      requires Locked() && Handed({})
      modifies this, line.arrived
      ensures Valid() && line == Dispatch(old(line))
      ensures settled == old(settled) && handles == old(handles)
    {
      DispatchFills(line);
      while active < limit && |waiters| > 0
        invariant Locked() && Handed({}) && line.arrived == old(line.arrived)
        invariant Dispatch(line) == Dispatch(old(line))
        invariant settled == old(settled) && handles == old(handles)
        decreases |waiters|
      {
        GrantHead();
      }
    }

    /** Acquire, up to the point where it blocks. */
    method Enqueue(id: nat) returns (waiter: BuildWaiter)
      requires Valid()
      modifies this, line.arrived
      ensures Valid() && fresh(waiter) && waiter.id == id
      ensures Enabled(old(line), Arrive(waiter)) && line == Apply(old(line), Arrive(waiter))
      ensures settled == old(settled) && handles == old(handles)
    {
      waiter := new BuildWaiter(id);
      Append(waiter);
      DispatchLocked();
    }

    method Append(waiter: BuildWaiter)
      requires Valid() && waiter !in line.arrived && !waiter.granted && !waiter.closed
      modifies this
      ensures Locked() && Handed({}) && line == Joined(old(line), waiter)
      ensures settled == old(settled) && handles == old(handles)
    {
      NobodyTwice(line);
      EventKeepsOrder(line, Arrive(waiter));
      waiters := waiters + [waiter];
      line := Joined(line, waiter);
    }

    /** The ready branch of the select. */
    method Collect(waiter: BuildWaiter) returns (handle: ReleaseOnce)
      requires Valid() && waiter in line.arrived && waiter.closed && waiter !in settled
      modifies this`settled, this`handles
      ensures Valid()
      ensures fresh(handle) && !handle.used && handle.waiter == waiter && Issued(handle)
      ensures settled == old(settled) + {waiter} && handles == old(handles)[waiter := handle]
    {
      NobodyTwice(line);
      handle := new ReleaseOnce(this, waiter);
      settled, handles := settled + {waiter}, handles[waiter := handle];
    }

    /** The ctx.Done branch of the select; the slot may have been granted in the meantime. */
    method Abandon(waiter: BuildWaiter)
      requires Valid() && waiter in line.arrived && waiter !in settled
      modifies this, line.arrived
      ensures Valid()
      ensures var e := if old(waiter.granted) then GiveBack(waiter) else Withdraw(waiter);
              Enabled(old(line), e) && line == Apply(old(line), e)
      ensures settled == old(settled) + {waiter} && handles == old(handles)
    {
      NobodyTwice(line);
      if waiter.granted {
        settled := settled + {waiter};
        Release(waiter);
      } else {
        LeaveLine(waiter);
      }
    }

    method LeaveLine(waiter: BuildWaiter)
      requires Valid() && waiter in line.waiting
      modifies this, line.arrived
      ensures Valid() && line == Apply(old(line), Withdraw(waiter))
      ensures settled == old(settled) + {waiter} && handles == old(handles)
    {
      NobodyTwice(line);
      RemoveWaiterLocked(waiter);
      settled := settled + {waiter};
      DispatchLocked();
    }

    /** release; `active` is positive whenever it is called. */
    method Release(ghost waiter: BuildWaiter)
      requires Locked() && Busy(line) && Handed({waiter}) && waiter in line.holders && waiter in settled
      modifies this, line.arrived
      ensures Valid() && line == Apply(old(line), GiveBack(waiter))
      ensures settled == old(settled) && handles == old(handles)
    {
      EventKeepsOrder(line, GiveBack(waiter));
      assert active > 0;
      if active > 0 {
        active := active - 1;
      }
      line := Freed(line, waiter);
      DispatchLocked();
    }

    method RemoveWaiterLocked(target: BuildWaiter)
      requires Locked() && Handed({}) && target in line.waiting
      modifies this`waiters, this`line
      ensures Locked() && line == Gone(old(line), target)
      ensures forall w | w in old(line.waiting) :: w == target || w in line.waiting
      ensures forall w | w in line.waiting :: w in old(line.waiting) && w != target
    {
      NobodyTwice(line);
      EventKeepsOrder(line, Withdraw(target));
      WithoutMembers(waiters, {target});
      line := Gone(line, target);
      for i := 0 to |waiters|
        invariant waiters == old(waiters)
        invariant target !in waiters[..i]
      {
        if waiters[i] == target {
          WithoutOne(waiters, i);
          waiters := waiters[..i] + waiters[i+1..];
          return;
        }
      }
    }

    method ReadStats() returns (s: Stats)
      requires Valid()
      ensures s == Stats(limit, |line.holders|, |line.waiting|) && 0 <= s.active <= s.limit
      ensures s.queued > 0 ==> s.active == s.limit
    {
      s := Stats(limit, active, |waiters|);
    }
  }
}
