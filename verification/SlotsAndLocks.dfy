/** Build slots and rollout locks held by any number of runs of any number of apps.

    A build takes a slot, returns it before it queues for its app's lock, and returns both again
    through deferred calls on every way out; a rollback or a stop only takes the lock.
 */
module SlotsAndLocks {
  import opened FifoSlots

  type RunId = nat
  type AppId = nat

  /** `Unwinding` is about to run the deferred release of the build slot. */
  datatype Pc = Started | AwaitSlot | Building | Preparing | AwaitLock | Section | Unwinding | Finished

  /** `released` is the flag inside releaseBuild; it starts true for a run that needs no slot. */
  datatype Run = Run(app: AppId, builds: bool, pc: Pc, released: bool)

  datatype State = State(slots: Line<RunId>, locks: map<AppId, RunId>, runs: map<RunId, Run>)

  datatype Step =
    | Begin(r: RunId, app: AppId, builds: bool)
    | Leave(r: RunId)                       // cancelled before it asked for anything
    | AskSlot(r: RunId)
    | TakeSlot(r: RunId)
    | GiveUpSlot(r: RunId)
    | EndBuild(r: RunId, ok: bool)
    | Prepare(r: RunId, ok: bool)
    | AskLock(r: RunId)                     // a run that builds nothing
    | TakeLock(r: RunId)
    | GiveUpLock(r: RunId)
    | EndSection(r: RunId)                  // deferred: the lock is returned first
    | Unwind(r: RunId)                      // deferred: then the slot, unless returned

  function Initial(limit: nat): State {
    State(NoOne(limit), map[], map[])
  }

  predicate IsAt(s: State, r: RunId, pc: Pc) {
    r in s.runs && s.runs[r].pc == pc
  }

  predicate CanStep(s: State, e: Step) {
    match e
    case Begin(r, _, _) => r !in s.runs
    case Leave(r) => IsAt(s, r, Started)
    case AskSlot(r) => IsAt(s, r, Started) && s.runs[r].builds
    case TakeSlot(r) => IsAt(s, r, AwaitSlot) && r in s.slots.holders
    case GiveUpSlot(r) => IsAt(s, r, AwaitSlot)
    case EndBuild(r, _) => IsAt(s, r, Building)
    case Prepare(r, _) => IsAt(s, r, Preparing)
    case AskLock(r) => IsAt(s, r, Started) && !s.runs[r].builds
    case TakeLock(r) => IsAt(s, r, AwaitLock) && s.runs[r].app !in s.locks
    case GiveUpLock(r) => IsAt(s, r, AwaitLock)
    case EndSection(r) => IsAt(s, r, Section)
    case Unwind(r) => IsAt(s, r, Unwinding)
  }

  function Go(s: State, r: RunId, pc: Pc): State
    requires r in s.runs
  {
    s.(runs := s.runs[r := s.runs[r].(pc := pc)])
  }

  function Slots(s: State, e: Event<RunId>): State {
    s.(slots := FifoSlots.Apply(s.slots, e))
  }

  function Do(s: State, e: Step): State
    requires CanStep(s, e)
  {
    match e
    case Begin(r, app, builds) => s.(runs := s.runs[r := Run(app, builds, Started, !builds)])
    case Leave(r) => Go(s, r, Finished)
    case AskSlot(r) => Slots(Go(s, r, AwaitSlot), Arrive(r))
    case TakeSlot(r) => Go(s, r, Building)
    case GiveUpSlot(r) => Slots(Go(s, r, Finished), if r in s.slots.holders then GiveBack(r) else Withdraw(r))
    case EndBuild(r, ok) =>
      if ok then Slots(s.(runs := s.runs[r := s.runs[r].(pc := Preparing, released := true)]), GiveBack(r))
      else Go(s, r, Unwinding)
    case Prepare(r, ok) => Go(s, r, if ok then AwaitLock else Unwinding)
    case AskLock(r) => Go(s, r, AwaitLock)
    case TakeLock(r) => Go(s, r, Section).(locks := s.locks[s.runs[r].app := r])
    case GiveUpLock(r) => Go(s, r, Unwinding)
    case EndSection(r) => Go(s, r, Unwinding).(locks := s.locks - {s.runs[r].app})
    case Unwind(r) =>
      if s.runs[r].released then Go(s, r, Finished)
      else Slots(s.(runs := s.runs[r := s.runs[r].(pc := Finished, released := true)]), GiveBack(r))
  }

  predicate IsLog(s: State, log: seq<Step>)
    decreases |log|, 0
  {
    log != [] ==> IsLog(s, log[..|log|-1]) && CanStep(Reached(s, log[..|log|-1]), log[|log|-1])
  }

  function Reached(s: State, log: seq<Step>): State
    requires IsLog(s, log)
    decreases |log|, 1
  {
    if log == [] then s else Do(Reached(s, log[..|log|-1]), log[|log|-1])
  }

  // ----- the invariant -----

  /** When a run holds a slot: granted and not yet noticed, building, or failed and unwinding. */
  predicate HoldsSlot(run: Run, waiting: bool) {
    match run.pc
    case AwaitSlot => !waiting
    case Building => true
    case Unwinding => !run.released
    case _ => false
  }

  predicate FlagFits(run: Run) {
    match run.pc
    case Started => run.released == !run.builds
    case AwaitSlot => run.builds && !run.released
    case Building => run.builds && !run.released
    case Preparing => run.released
    case AwaitLock => run.released
    case Section => run.released
    case _ => true
  }

  ghost predicate SlotsFit(s: State) {
    && (forall r | r in s.slots.arrived :: r in s.runs && s.runs[r].pc != Started)
    && (forall r | r in s.slots.waiting :: r in s.runs && s.runs[r].pc == AwaitSlot)
    && (forall r | r in s.slots.holders :: r in s.runs && HoldsSlot(s.runs[r], r in s.slots.waiting))
    && (forall r | r in s.runs && HoldsSlot(s.runs[r], r in s.slots.waiting) :: r in s.slots.holders)
    && (forall r | r in s.runs :: FlagFits(s.runs[r]))
  }

  ghost predicate LocksFit(s: State) {
    && (forall a | a in s.locks :: IsAt(s, s.locks[a], Section) && s.runs[s.locks[a]].app == a)
    && (forall r | r in s.runs && s.runs[r].pc == Section :: s.runs[r].app in s.locks && s.locks[s.runs[r].app] == r)
  }

  ghost predicate Inv(s: State) {
    1 <= s.slots.limit && Ordered(s.slots) && Busy(s.slots) && SlotsFit(s) && LocksFit(s)
  }

  predicate In(q: Line<RunId>, r: RunId) {
    r in q.waiting || r in q.holders
  }

  /** What one event at the queue does to who waits and who holds: others keep what they have, or
      move from the line to a slot. */
  ghost predicate Shifted(q: Line<RunId>, who: RunId, stays: bool, t: Line<RunId>) {
    && t.limit == q.limit
    && (In(t, who) <==> stays)
    && (forall r | r != who :: In(q, r) <==> In(t, r))
    && (forall r | r != who && r in t.waiting :: r in q.waiting)
    && (forall r | r in t.waiting :: r !in t.holders)
    && (forall r | r in t.arrived :: r in q.arrived || (r == who && stays))
    && (forall r :: r in t.granted <==> r in q.granted || r in t.holders)
  }

  lemma ArriveShifts(q: Line<RunId>, x: RunId)
    requires Ordered(q) && Busy(q) && x !in q.arrived
    ensures Ordered(Apply(q, Arrive(x))) && Busy(Apply(q, Arrive(x))) && Shifted(q, x, true, Apply(q, Arrive(x)))
  {
    StepKeepsOrder(q, Arrive(x));
    EventKeepsOrder(q, Arrive(x));
    NobodyTwice(q);
    NobodyTwice(Apply(q, Arrive(x)));
    var j := Joined(q, x);
    DispatchOnce(j);
    if q.waiting == [] && |q.holders| < q.limit {
      assert j.waiting == [x];
      assert Dispatch(Grant(j)) == Grant(j);
    }
  }

  lemma GiveBackShifts(q: Line<RunId>, x: RunId)
    requires Ordered(q) && Busy(q) && x in q.holders
    ensures Ordered(Apply(q, GiveBack(x))) && Busy(Apply(q, GiveBack(x))) && Shifted(q, x, false, Apply(q, GiveBack(x)))
  {
    StepKeepsOrder(q, GiveBack(x));
    NobodyTwice(q);
    NobodyTwice(Apply(q, GiveBack(x)));
    EventKeepsOrder(q, GiveBack(x));
    DispatchOnce(Freed(q, x));
    if q.waiting != [] { GrantMembers(Freed(q, x)); }
  }

  lemma WithdrawShifts(q: Line<RunId>, x: RunId)
    requires Ordered(q) && Busy(q) && x in q.waiting
    ensures Ordered(Apply(q, Withdraw(x))) && Busy(Apply(q, Withdraw(x))) && Shifted(q, x, false, Apply(q, Withdraw(x)))
  {
    StepKeepsOrder(q, Withdraw(x));
    NobodyTwice(q);
    NobodyTwice(Apply(q, Withdraw(x)));
    EventKeepsOrder(q, Withdraw(x));
    DispatchOnce(Gone(q, x));
    WithoutMembers(q.waiting, {x});
  }

  // ----- every step keeps it -----

  /** Only `who` is touched. */
  ghost predicate OthersRunOn(s: State, t: State, who: RunId) {
    && who in t.runs
    && (forall r | r != who :: (r in s.runs <==> r in t.runs) && (r in s.runs ==> t.runs[r] == s.runs[r]))
  }

  lemma SlotsFitAfter(s: State, t: State, who: RunId)
    requires SlotsFit(s) && Shifted(s.slots, who, IsAt(t, who, AwaitSlot), t.slots) && OthersRunOn(s, t, who)
    requires t.runs[who].pc != Started && FlagFits(t.runs[who])
    requires IsAt(t, who, AwaitSlot) || !HoldsSlot(t.runs[who], false)
    ensures SlotsFit(t)
  {
    forall r | r in t.slots.holders ensures r in t.runs && HoldsSlot(t.runs[r], r in t.slots.waiting) {
      assert In(t.slots, r);
      if r != who { assert In(s.slots, r); }
    }
    forall r | r in t.slots.waiting ensures r in t.runs && t.runs[r].pc == AwaitSlot {
      assert In(t.slots, r);
    }
    forall r | r in t.runs && HoldsSlot(t.runs[r], r in t.slots.waiting) ensures r in t.slots.holders {
      if r != who { assert In(s.slots, r) <==> In(t.slots, r); } else { assert In(t.slots, r); }
    }
  }

  lemma AskSlotKeepsInv(s: State, r: RunId)
    requires Inv(s) && CanStep(s, AskSlot(r))
    ensures Inv(Do(s, AskSlot(r)))
  {
    var t := Do(s, AskSlot(r));
    ArriveShifts(s.slots, r);
    SlotsFitAfter(s, t, r);
    LocksFitAfter(s, t, r);
  }

  /** The run leaves the queue, in whichever way. */
  predicate Returns(s: State, e: Step) {
    e.GiveUpSlot? || (e.EndBuild? && e.ok) || (e.Unwind? && e.r in s.runs && !s.runs[e.r].released)
  }

  /** Afterwards the queue is in order and the run is out of it. */
  lemma ReturnShifts(s: State, e: Step)
    requires Inv(s) && CanStep(s, e) && Returns(s, e)
    ensures Ordered(Do(s, e).slots) && Busy(Do(s, e).slots) && Shifted(s.slots, e.r, false, Do(s, e).slots)
  {
    if e.GiveUpSlot? && e.r !in s.slots.holders {
      WithdrawShifts(s.slots, e.r);
    } else {
      GiveBackShifts(s.slots, e.r);
    }
  }

  lemma ReturnKeepsInv(s: State, e: Step)
    requires Inv(s) && CanStep(s, e) && Returns(s, e)
    ensures Inv(Do(s, e))
  {
    ReturnShifts(s, e);
    SlotsFitAfter(s, Do(s, e), e.r);
    LocksFitAfter(s, Do(s, e), e.r);
  }

  lemma LocksFitAfter(s: State, t: State, who: RunId)
    requires LocksFit(s) && OthersRunOn(s, t, who) && t.locks == s.locks
    requires who in s.runs && s.runs[who].pc != Section && t.runs[who].pc != Section
    ensures LocksFit(t)
  {
  }

  /** The slots stay as they are, and so does what `who` holds of them. */
  lemma SlotsFitBeside(s: State, t: State, who: RunId)
    requires Ordered(s.slots) && SlotsFit(s) && t.slots == s.slots && OthersRunOn(s, t, who) && FlagFits(t.runs[who])
    requires who !in s.slots.waiting && (who in s.slots.arrived ==> t.runs[who].pc != Started)
    requires HoldsSlot(t.runs[who], false) <==> who in s.slots.holders
    ensures SlotsFit(t)
  {
  }

  lemma BeginKeepsInv(s: State, e: Step)
    requires Inv(s) && CanStep(s, e) && e.Begin?
    ensures Inv(Do(s, e))
  {
    NobodyTwice(s.slots);
    HoldersArrived(s.slots);
    SlotsFitBeside(s, Do(s, e), e.r);
  }

  lemma OtherStepKeepsInv(s: State, e: Step)
    requires Inv(s) && CanStep(s, e) && !e.Begin? && !e.AskSlot? && !Returns(s, e)
    ensures Inv(Do(s, e))
  {
    NobodyTwice(s.slots);
    HoldersArrived(s.slots);
    var t := Do(s, e);
    SlotsFitBeside(s, t, e.r);
    if e.TakeLock? || e.EndSection? {
      LockStepFits(s, e);
    } else {
      LocksFitAfter(s, t, e.r);
    }
  }

  lemma HoldersArrived(q: Line<RunId>)
    requires Ordered(q)
    ensures forall r | r in q.holders :: r in q.arrived
  {
    NobodyTwice(q);
  }

  lemma LockStepFits(s: State, e: Step)
    requires LocksFit(s) && CanStep(s, e) && (e.TakeLock? || e.EndSection?)
    ensures LocksFit(Do(s, e))
  {
  }

  lemma {:induction false} ReachedInv(s: State, log: seq<Step>)
    requires Inv(s) && IsLog(s, log)
    ensures Inv(Reached(s, log))
    decreases |log|
  {
    if log != [] {
      var m, e := Reached(s, log[..|log|-1]), log[|log|-1];
      ReachedInv(s, log[..|log|-1]);
      if e.AskSlot? {
        AskSlotKeepsInv(m, e.r);
      } else if Returns(m, e) {
        ReturnKeepsInv(m, e);
      } else if e.Begin? {
        BeginKeepsInv(m, e);
      } else {
        OtherStepKeepsInv(m, e);
      }
    }
  }

  // ----- discipline -----

  /** No run holds a slot while it waits for a lock or holds one, and a finished run holds nothing. */
  lemma SlotReturnedBeforeLock(limit: nat, log: seq<Step>, r: RunId)
    requires 1 <= limit && IsLog(Initial(limit), log)
    ensures var s := Reached(Initial(limit), log);
            && |s.slots.holders| <= limit
            && (IsAt(s, r, AwaitLock) || IsAt(s, r, Section) || IsAt(s, r, Finished) ==>
                  r !in s.slots.holders && r !in s.slots.waiting)
            && (IsAt(s, r, Finished) ==> forall a | a in s.locks :: s.locks[a] != r)
  {
    ReachedInv(Initial(limit), log);
    LimitStays(Initial(limit), log);
    var s := Reached(Initial(limit), log);
    assert r in s.slots.holders ==> HoldsSlot(s.runs[r], r in s.slots.waiting);
  }

  lemma {:induction false} LimitStays(s: State, log: seq<Step>)
    requires Inv(s) && IsLog(s, log)
    ensures Reached(s, log).slots.limit == s.slots.limit
    decreases |log|
  {
    if log != [] {
      var m, e := Reached(s, log[..|log|-1]), log[|log|-1];
      LimitStays(s, log[..|log|-1]);
      ReachedInv(s, log[..|log|-1]);
      if e.AskSlot? {
        ArriveShifts(m.slots, e.r);
      } else if e.GiveUpSlot? && e.r !in m.slots.holders {
        WithdrawShifts(m.slots, e.r);
      } else if Returns(m, e) {
        GiveBackShifts(m.slots, e.r);
      }
    }
  }

  /** The step in which a run returns its slot. */
  predicate GivesBack(s: State, e: Step, r: RunId) {
    Returns(s, e) && e.r == r && (e.GiveUpSlot? ==> r in s.slots.holders)
  }

  function TimesReturned(s: State, log: seq<Step>, r: RunId): nat
    requires IsLog(s, log)
  {
    if log == [] then 0 else
      TimesReturned(s, log[..|log|-1], r) + if GivesBack(Reached(s, log[..|log|-1]), log[|log|-1], r) then 1 else 0
  }

  /** The slot count of `r` balances over one step of the queue. */
  ghost predicate Balances(q: Line<RunId>, t: Line<RunId>, r: RunId) {
    && (r in t.granted <==> r in q.granted || r in t.holders)
    && (r in q.holders ==> r in t.holders)
    && (r in t.holders && r !in q.holders ==> r !in q.granted)
  }

  lemma ShiftBalances(q: Line<RunId>, who: RunId, stays: bool, t: Line<RunId>, r: RunId)
    requires Ordered(q) && Shifted(q, who, stays, t)
    requires r != who || (!In(q, who) && who !in q.granted)
    ensures Balances(q, t, r)
  {
    NobodyTwice(q);
    assert r != who ==> (In(q, r) <==> In(t, r));
  }

  lemma StepBalances(s: State, e: Step, r: RunId)
    requires Inv(s) && CanStep(s, e)
    ensures var t := Do(s, e);
            if GivesBack(s, e, r) then r in s.slots.holders && r !in t.slots.holders && r in t.slots.granted
            else Balances(s.slots, t.slots, r)
  {
    var q, t := s.slots, Do(s, e).slots;
    HoldersArrived(q);
    if e.AskSlot? {
      ArriveShifts(q, e.r);
      NobodyTwice(q);
      ShiftBalances(q, e.r, true, t, r);
    } else if e.GiveUpSlot? && e.r !in q.holders {
      NobodyTwice(q);
      WithdrawShifts(q, e.r);
      if r != e.r { ShiftBalances(q, e.r, false, t, r); }
    } else if Returns(s, e) {
      GiveBackShifts(q, e.r);
      if r != e.r { ShiftBalances(q, e.r, false, t, r); }
    }
  }

  /** A slot is returned exactly once for each grant: by the end of a run, on every way out, as
      often as it was granted. */
  lemma {:induction false} OneReturnPerGrant(limit: nat, log: seq<Step>, r: RunId)
    requires 1 <= limit && IsLog(Initial(limit), log)
    ensures var s := Reached(Initial(limit), log);
            var returned := TimesReturned(Initial(limit), log, r);
            var granted := if r in s.slots.granted then 1 else 0;
            && returned + (if r in s.slots.holders then 1 else 0) == granted
            && (IsAt(s, r, Finished) ==> returned == granted)
    decreases |log|
  {
    if log != [] {
      OneReturnPerGrant(limit, log[..|log|-1], r);
      ReachedInv(Initial(limit), log[..|log|-1]);
      StepBalances(Reached(Initial(limit), log[..|log|-1]), log[|log|-1], r);
    }
    SlotReturnedBeforeLock(limit, log, r);
  }

  // ----- the way into the section -----

  /** What a run must have done to be where it is. */
  predicate Earned(run: Run, r: RunId, log: seq<Step>) {
    match run.pc
    case AwaitSlot => run.builds && AskSlot(r) in log
    case Building => run.builds && AskSlot(r) in log && TakeSlot(r) in log
    case Preparing => run.builds && TakeSlot(r) in log && EndBuild(r, true) in log
    case AwaitLock =>
      if run.builds then TakeSlot(r) in log && EndBuild(r, true) in log && Prepare(r, true) in log
      else AskLock(r) in log
    case Section =>
      && TakeLock(r) in log
      && if run.builds then TakeSlot(r) in log && EndBuild(r, true) in log && Prepare(r, true) in log
         else AskLock(r) in log
    case _ => true
  }

  lemma StepEarns(s: State, e: Step, r: RunId, log: seq<Step>)
    requires CanStep(s, e) && (r in s.runs ==> Earned(s.runs[r], r, log))
    ensures r in Do(s, e).runs ==> Earned(Do(s, e).runs[r], r, log + [e])
  {
    assert forall x :: x in log + [e] <==> x in log || x == e;
    if e.r != r { assert r in Do(s, e).runs ==> r in s.runs && Do(s, e).runs[r] == s.runs[r]; }
  }

  /** Over all logs: a build gets to its lock, and into its section, only with a slot behind it and a build and a
      preparation that worked; any other run only by asking for the lock. */
  lemma {:induction false} SectionIsEarned(limit: nat, log: seq<Step>, r: RunId)
    requires IsLog(Initial(limit), log) && r in Reached(Initial(limit), log).runs
    ensures Earned(Reached(Initial(limit), log).runs[r], r, log)
    decreases |log|
  {
    if log != [] {
      var front, e := log[..|log|-1], log[|log|-1];
      assert log == front + [e];
      if r in Reached(Initial(limit), front).runs { SectionIsEarned(limit, front, r); }
      StepEarns(Reached(Initial(limit), front), e, r, front);
    }
  }

  /** And when everything works it gets there: the steps of the code lead straight through. */
  lemma StraightThrough(s: State, r: RunId)
    requires r in s.runs && s.runs[r].pc != Finished && CanStep(s, NextStep(s, r))
    ensures Do(s, NextStep(s, r)).runs[r].pc ==
            match s.runs[r].pc
            case Started => (if s.runs[r].builds then AwaitSlot else AwaitLock)
            case AwaitSlot => Building
            case Building => Preparing
            case Preparing => AwaitLock
            case AwaitLock => Section
            case Section => Unwinding
            case Unwinding => Finished
  {
  }

  /** A run starts at its first check, can be given up there and at its two waits and nowhere else, and once it
      has been past the queue ends only through its deferred release. */
  lemma WaysOut(s: State, e: Step)
    ensures e.Leave? ==> (CanStep(s, e) <==> e.r in s.runs && s.runs[e.r].pc == Started)
    ensures e.GiveUpSlot? ==> (CanStep(s, e) <==> e.r in s.runs && s.runs[e.r].pc == AwaitSlot)
    ensures e.GiveUpLock? ==> (CanStep(s, e) <==> e.r in s.runs && s.runs[e.r].pc == AwaitLock)
    ensures e.Begin? ==> (CanStep(s, e) <==> e.r !in s.runs)
    ensures e.Begin? && CanStep(s, e) ==> Do(s, e).runs[e.r] == Run(e.app, e.builds, Started, !e.builds)
    ensures CanStep(s, e) && Do(s, e).runs[e.r].pc == Finished ==> e.Leave? || e.GiveUpSlot? || e.Unwind?
    ensures CanStep(s, e) && e.Unwind? ==> Do(s, e).runs[e.r].released
  {
  }

  // ----- waiting -----

  /** `a` cannot go on before `b` gives something back. */
  ghost predicate WaitsFor(s: State, a: RunId, b: RunId) {
    || (IsAt(s, a, AwaitSlot) && a in s.slots.waiting && b in s.slots.holders)
    || (IsAt(s, a, AwaitLock) && s.runs[a].app in s.locks && s.locks[s.runs[a].app] == b)
  }

  /** Whoever is waited for waits for nobody: the wait-for relation has no path of length two, so
      no cycle. */
  lemma NobodyWaitsForAWaiter(s: State, a: RunId, b: RunId, c: RunId)
    requires Inv(s) && WaitsFor(s, a, b)
    ensures !WaitsFor(s, b, c)
  {
  }

  /** A step of the code itself: no arrival, and nobody's context is cancelled. */
  predicate Forward(e: Step) {
    !e.Begin? && !e.Leave? && !e.GiveUpSlot? && !e.GiveUpLock?
  }

  /** The step an unfinished run takes next when it waits for nobody. */
  function NextStep(s: State, r: RunId): Step
    requires r in s.runs && s.runs[r].pc != Finished
  {
    match s.runs[r].pc
    case Started => if s.runs[r].builds then AskSlot(r) else AskLock(r)
    case AwaitSlot => TakeSlot(r)
    case Building => EndBuild(r, true)
    case Preparing => Prepare(r, true)
    case AwaitLock => TakeLock(r)
    case Section => EndSection(r)
    case Unwinding => Unwind(r)
  }

  lemma MovesUnlessWaiting(s: State, r: RunId)
    requires Inv(s) && r in s.runs && s.runs[r].pc != Finished
    ensures CanStep(s, NextStep(s, r)) || exists b :: WaitsFor(s, r, b) && b in s.runs && s.runs[b].pc != Finished
  {
  }

  /** Unless every run is finished, some run can take a step of its own: no deadlock. */
  lemma NoDeadlock(s: State, r: RunId) returns (e: Step)
    requires Inv(s) && r in s.runs && s.runs[r].pc != Finished
    ensures Forward(e) && CanStep(s, e)
  {
    MovesUnlessWaiting(s, r);
    if CanStep(s, NextStep(s, r)) {
      e := NextStep(s, r);
    } else {
      var b :| WaitsFor(s, r, b) && b in s.runs && s.runs[b].pc != Finished;
      MovesUnlessWaiting(s, b);
      forall c ensures !WaitsFor(s, b, c) { NobodyWaitsForAWaiter(s, r, b, c); }
      e := NextStep(s, b);
    }
  }

  // ----- progress -----

  function Rank(pc: Pc): nat {
    match pc
    case Started => 7
    case AwaitSlot => 6
    case Building => 5
    case Preparing => 4
    case AwaitLock => 3
    case Section => 2
    case Unwinding => 1
    case Finished => 0
  }

  /** What is left to do, over all runs. */
  ghost function Left(runs: map<RunId, Run>): nat {
    if runs == map[] then 0 else
      var r :| r in runs;
      Rank(runs[r].pc) + Left(runs - {r})
  }

  lemma {:induction false} LeftWithout(runs: map<RunId, Run>, r: RunId)
    requires r in runs
    ensures Left(runs) == Rank(runs[r].pc) + Left(runs - {r})
    decreases |runs|
  {
    var c :| c in runs && Left(runs) == Rank(runs[c].pc) + Left(runs - {c});
    if c != r {
      LeftWithout(runs - {c}, r);
      LeftWithout(runs - {r}, c);
      assert runs - {c} - {r} == runs - {r} - {c};
    }
  }

  /** Every step but an arrival brings its run closer to the end. */
  lemma StepDoesWork(s: State, e: Step)
    requires CanStep(s, e) && !e.Begin?
    ensures Left(Do(s, e).runs) < Left(s.runs)
  {
    StepMovesOn(s, e);
    LeftWithout(s.runs, e.r);
    LeftWithout(Do(s, e).runs, e.r);
  }

  lemma StepMovesOn(s: State, e: Step)
    requires CanStep(s, e) && !e.Begin?
    ensures e.r in s.runs && e.r in Do(s, e).runs
    ensures Rank(Do(s, e).runs[e.r].pc) < Rank(s.runs[e.r].pc)
    ensures Do(s, e).runs - {e.r} == s.runs - {e.r}
  {
    match e
    case EndBuild(_, _) =>
    case Prepare(_, _) =>
    case TakeLock(_) =>
    case EndSection(_) =>
    case Unwind(_) =>
    case _ =>
  }

  /** Without further arrivals the system stops after at most seven steps per run, whatever is
      cancelled or fails on the way, and it stops only with every run finished. */
  lemma {:induction false} EverybodyFinishes(s: State, log: seq<Step>)
    requires Inv(s) && IsLog(s, log) && forall e | e in log :: !e.Begin?
    ensures |log| + Left(Reached(s, log).runs) <= Left(s.runs)
    ensures (forall e | CanStep(Reached(s, log), e) :: !Forward(e)) ==>
              forall r | r in Reached(s, log).runs :: Reached(s, log).runs[r].pc == Finished
    decreases |log|
  {
    if log != [] {
      EverybodyFinishes(s, log[..|log|-1]);
      StepDoesWork(Reached(s, log[..|log|-1]), log[|log|-1]);
    }
    ReachedInv(s, log);
    var t := Reached(s, log);
    forall r | r in t.runs && t.runs[r].pc != Finished ensures exists e :: CanStep(t, e) && Forward(e) {
      var e := NoDeadlock(t, r);
    }
  }
}
