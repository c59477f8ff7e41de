/** What the build queue promises, on values: slots are handed out in arrival order, none is
    idle while somebody waits, and a waiter's turn comes after a known number of departures.
 */
module FifoSlots {
  import opened Sequences

  /** `arrived`, `granted` and `dropped` are history: who ever asked, who got a slot (in the order
      of the grants), and who left the line without one. `holders` have a slot right now. */
  datatype Line<T> = Line(
    limit: nat,
    holders: set<T>,
    waiting: seq<T>,
    arrived: seq<T>,
    granted: seq<T>,
    dropped: set<T>)

  datatype Event<T> = Arrive(who: T) | GiveBack(who: T) | Withdraw(who: T)

  function NoOne<T>(limit: nat): Line<T> {
    Line(limit, {}, [], [], [], {})
  }

  function Grant<T>(q: Line<T>): Line<T>
    requires q.waiting != []
  {
    q.(holders := q.holders + {q.waiting[0]}, waiting := q.waiting[1..], granted := q.granted + [q.waiting[0]])
  }

  /** Hand free slots to the head of the line. */
  function Dispatch<T>(q: Line<T>): Line<T>
    decreases |q.waiting|
  {
    if |q.holders| < q.limit && |q.waiting| > 0 then Dispatch(Grant(q)) else q
  }

  function Without<T(==)>(s: seq<T>, gone: set<T>): seq<T> {
    if s == [] then []
    else Without(s[..|s|-1], gone) + (if s[|s|-1] in gone then [] else [s[|s|-1]])
  }

  predicate Enabled<T(==)>(q: Line<T>, e: Event<T>) {
    match e
    case Arrive(x) => x !in q.arrived
    case GiveBack(x) => x in q.holders
    case Withdraw(x) => x in q.waiting
  }

  function Joined<T>(q: Line<T>, x: T): Line<T> {
    q.(waiting := q.waiting + [x], arrived := q.arrived + [x])
  }

  function Freed<T(==)>(q: Line<T>, x: T): Line<T> {
    q.(holders := q.holders - {x})
  }

  function Gone<T(==)>(q: Line<T>, x: T): Line<T> {
    q.(waiting := Without(q.waiting, {x}), dropped := q.dropped + {x})
  }

  function Apply<T(==)>(q: Line<T>, e: Event<T>): Line<T> {
    match e
    case Arrive(x) => Dispatch(Joined(q, x))
    case GiveBack(x) => Dispatch(Freed(q, x))
    case Withdraw(x) => Dispatch(Gone(q, x))
  }

  predicate IsRun<T(==)>(q: Line<T>, log: seq<Event<T>>)
    decreases |log|, 0
  {
    log != [] ==> IsRun(q, log[..|log|-1]) && Enabled(After(q, log[..|log|-1]), log[|log|-1])
  }

  function After<T(==)>(q: Line<T>, log: seq<Event<T>>): Line<T>
    requires IsRun(q, log)
    decreases |log|, 1
  {
    if log == [] then q else Apply(After(q, log[..|log|-1]), log[|log|-1])
  }

  // ----- deleting from a sequence -----

  lemma {:induction false} WithoutMembers<T>(s: seq<T>, gone: set<T>)
    ensures forall x | x in Without(s, gone) :: x in s && x !in gone
    ensures forall x | x in s && x !in gone :: x in Without(s, gone)
    ensures Distinct(s) ==> Distinct(Without(s, gone))
  {
    if s != [] {
      WithoutMembers(s[..|s|-1], gone);
      assert s == s[..|s|-1] + [s[|s|-1]];
    }
  }

  lemma {:induction false} WithoutNone<T>(s: seq<T>, gone: set<T>)
    requires forall x | x in s :: x !in gone
    ensures Without(s, gone) == s
  {
    if s != [] {
      WithoutNone(s[..|s|-1], gone);
      assert s == s[..|s|-1] + [s[|s|-1]];
    }
  }

  lemma {:induction false} WithoutConcat<T>(a: seq<T>, b: seq<T>, gone: set<T>)
    ensures Without(a + b, gone) == Without(a, gone) + Without(b, gone)
    decreases |b|
  {
    if b == [] {
      assert a + b == a;
    } else {
      WithoutConcat(a, b[..|b|-1], gone);
      assert (a + b)[..|a + b|-1] == a + b[..|b|-1];
    }
  }

  lemma {:induction false} WithoutTwice<T>(s: seq<T>, gone: set<T>, x: T)
    ensures Without(Without(s, gone), {x}) == Without(s, gone + {x})
  {
    if s != [] {
      var front, z := s[..|s|-1], s[|s|-1];
      WithoutTwice(front, gone, x);
      WithoutConcat(Without(front, gone), if z in gone then [] else [z], {x});
    }
  }

  lemma {:induction false} WithoutOne<T>(s: seq<T>, i: nat)
    requires i < |s| && Distinct(s)
    ensures Without(s, {s[i]}) == s[..i] + s[i+1..]
  {
    var front := s[..|s|-1];
    if i == |s| - 1 {
      WithoutNone(front, {s[i]});
    } else {
      WithoutOne(front, i);
      assert s[i+1..] == front[i+1..] + [s[|s|-1]];
    }
  }

  // ----- the invariant -----

  /** The slots are conserved and the line is in arrival order. */
  ghost predicate Ordered<T>(q: Line<T>) {
    && |q.holders| <= q.limit
    && (forall x | x in q.holders :: x in q.granted)
    && (forall x | x in q.dropped :: x in q.arrived)
    && Distinct(q.arrived)
    && q.granted + q.waiting == Without(q.arrived, q.dropped)
  }

  /** Somebody waits only while every slot is taken. */
  ghost predicate Busy<T>(q: Line<T>) {
    q.waiting != [] ==> |q.holders| == q.limit
  }

  lemma NobodyTwice<T>(q: Line<T>)
    requires Ordered(q)
    ensures Distinct(q.granted + q.waiting) && Distinct(q.waiting)
    ensures forall x | x in q.waiting :: x !in q.granted && x !in q.holders && x in q.arrived && x !in q.dropped
    ensures forall x | x in q.granted :: x in q.arrived && x !in q.dropped
  {
    WithoutMembers(q.arrived, q.dropped);
    var line := q.granted + q.waiting;
    assert forall x | x in q.granted :: x in line;
    forall i, j | 0 <= i < j < |q.waiting| ensures q.waiting[i] != q.waiting[j] {
      assert line[|q.granted| + i] != line[|q.granted| + j];
    }
    forall x | x in q.waiting ensures x !in q.granted && x in q.arrived && x !in q.dropped {
      var k :| 0 <= k < |q.waiting| && q.waiting[k] == x;
      assert line[|q.granted| + k] == x;
      assert x in line;
      assert forall i | 0 <= i < |q.granted| :: line[i] == q.granted[i];
    }
  }

  lemma GrantKeepsOrder<T>(q: Line<T>)
    requires Ordered(q) && q.waiting != [] && |q.holders| < q.limit
    ensures Ordered(Grant(q)) && |Grant(q).holders| == |q.holders| + 1
  {
    NobodyTwice(q);
    assert q.waiting == [q.waiting[0]] + q.waiting[1..];
    assert Grant(q).granted + Grant(q).waiting == q.granted + q.waiting;
  }

  lemma GrantMembers<T>(q: Line<T>)
    requires q.waiting != []
    ensures forall x | x in q.waiting :: x == q.waiting[0] || x in Grant(q).waiting
    ensures forall x | x in Grant(q).waiting :: x in q.waiting
    ensures forall x :: x in Grant(q).granted <==> x in q.granted || x == q.waiting[0]
  {
  }

  lemma {:induction false} DispatchFills<T>(q: Line<T>)
    requires Ordered(q)
    ensures Ordered(Dispatch(q)) && Busy(Dispatch(q))
    decreases |q.waiting|
  {
    if |q.holders| < q.limit && q.waiting != [] {
      GrantKeepsOrder(q);
      DispatchFills(Grant(q));
    }
  }

  lemma EventKeepsOrder<T>(q: Line<T>, e: Event<T>)
    requires Ordered(q) && Enabled(q, e)
    ensures e.Arrive? ==> Ordered(Joined(q, e.who))
    ensures e.GiveBack? ==> Ordered(Freed(q, e.who))
    ensures e.Withdraw? ==> Ordered(Gone(q, e.who))
  {
    NobodyTwice(q);
    match e
    case Arrive(x) =>
      assert (q.arrived + [x])[..|q.arrived|] == q.arrived;
    case GiveBack(x) =>
    case Withdraw(x) =>
      WithoutTwice(q.arrived, q.dropped, x);
      WithoutConcat(q.granted, q.waiting, {x});
      WithoutNone(q.granted, {x});
  }

  lemma StepKeepsOrder<T>(q: Line<T>, e: Event<T>)
    requires Ordered(q) && Enabled(q, e)
    ensures Ordered(Apply(q, e)) && Busy(Apply(q, e))
  {
    EventKeepsOrder(q, e);
    match e
    case Arrive(x) => DispatchFills(Joined(q, x));
    case GiveBack(x) => DispatchFills(Freed(q, x));
    case Withdraw(x) => DispatchFills(Gone(q, x));
  }

  /** In every run: never more holders than slots, nobody waits beside a free slot, and the grants
      followed by the line are the arrivals in order, less those who gave up waiting. */
  lemma {:induction false} RunKeepsOrder<T>(q: Line<T>, log: seq<Event<T>>)
    requires Ordered(q) && Busy(q) && IsRun(q, log)
    ensures Ordered(After(q, log)) && Busy(After(q, log))
    decreases |log|
  {
    if log != [] {
      RunKeepsOrder(q, log[..|log|-1]);
      StepKeepsOrder(After(q, log[..|log|-1]), log[|log|-1]);
    }
  }

  // ----- bounded waiting -----

  /** `e` shortens the wait of whoever has `ahead` people before them. */
  ghost predicate Departs<T>(q: Line<T>, ahead: nat, e: Event<T>) {
    e.GiveBack? || (e.Withdraw? && exists i :: 0 <= i < ahead && i < |q.waiting| && q.waiting[i] == e.who)
  }

  lemma DispatchOnce<T>(q: Line<T>)
    requires Ordered(q)
    ensures q.waiting == [] || |q.holders| == q.limit ==> Dispatch(q) == q
    ensures q.waiting != [] && |q.holders| + 1 == q.limit ==> Dispatch(q) == Grant(q)
  {
    if q.waiting != [] && |q.holders| + 1 == q.limit { GrantKeepsOrder(q); }
  }

  /** Where the waiter in place `k` stands after an event: one place further if it is a departure,
      in its place otherwise, and with a slot if it was first. */
  ghost predicate MovesUp<T>(q: Line<T>, k: nat, departs: bool, t: Line<T>)
    requires k < |q.waiting|
  {
    var x := q.waiting[k];
    if !departs then k < |t.waiting| && t.waiting[k] == x
    else if k > 0 then k - 1 < |t.waiting| && t.waiting[k-1] == x
    else x in t.holders && t.granted == q.granted + [x]
  }

  lemma WithdrawMovesUp<T>(q: Line<T>, k: nat, e: Event<T>)
    requires Ordered(q) && Busy(q) && Enabled(q, e) && k < |q.waiting| && e != Withdraw(q.waiting[k]) && e.Withdraw?
    ensures MovesUp(q, k, Departs(q, k, e), Apply(q, e))
  {
    NobodyTwice(q);
    EventKeepsOrder(q, e);
    var i :| 0 <= i < |q.waiting| && q.waiting[i] == e.who;
    WithoutOne(q.waiting, i);
    DispatchOnce(Gone(q, e.who));
  }

  /** One event moves a waiter up one place if it is a departure, and not at all otherwise. */
  lemma StepMovesUp<T>(q: Line<T>, k: nat, e: Event<T>)
    requires Ordered(q) && Busy(q) && Enabled(q, e) && k < |q.waiting| && e != Withdraw(q.waiting[k])
    ensures MovesUp(q, k, Departs(q, k, e), Apply(q, e))
  {
    NobodyTwice(q);
    EventKeepsOrder(q, e);
    match e
    case Arrive(x) => DispatchOnce(Joined(q, x));
    case GiveBack(x) => DispatchOnce(Freed(q, x));
    case Withdraw(x) => WithdrawMovesUp(q, k, e);
  }

  /** How far back `x` stands. */
  ghost function Ahead<T>(s: seq<T>, x: T): (k: nat)
    requires x in s
    ensures k < |s| && s[k] == x
  {
    var k :| 0 <= k < |s| && s[k] == x; k
  }

  /** The departures of a run that count for `x`: those made while `x` waits. */
  ghost function Departures<T>(q: Line<T>, x: T, log: seq<Event<T>>): nat
    requires IsRun(q, log)
    decreases |log|
  {
    if log == [] then 0 else
      var m := After(q, log[..|log|-1]);
      Departures(q, x, log[..|log|-1]) +
      if x in m.waiting && Departs(m, Ahead(m.waiting, x), log[|log|-1]) then 1 else 0
  }

  /** A waiter with k others ahead who does not give up is granted a slot after exactly k + 1
      departures, and stands k - d places back after d of them. */
  lemma {:induction false} TurnComes<T>(q: Line<T>, x: T, log: seq<Event<T>>)
    requires Ordered(q) && Busy(q) && x in q.waiting && IsRun(q, log) && Withdraw(x) !in log
    ensures var t, k, d := After(q, log), Ahead(q.waiting, x), Departures(q, x, log);
            && d <= k + 1
            && (x in t.waiting <==> d <= k)
            && (x in t.waiting ==> Ahead(t.waiting, x) == k - d)
            && (x in t.granted <==> d == k + 1)
    decreases |log|
  {
    NobodyTwice(q);
    if log != [] {
      var front, e := log[..|log|-1], log[|log|-1];
      TurnComes(q, x, front);
      RunKeepsOrder(q, front);
      var m, t := After(q, front), After(q, log);
      RunKeepsOrder(q, log);
      NobodyTwice(m);
      NobodyTwice(t);
      if x in m.waiting {
        StepMovesUp(m, Ahead(m.waiting, x), e);
      } else {
        GrantsStay(m, x, e);
      }
    }
  }

  lemma {:induction false} DispatchAppends<T>(q: Line<T>)
    ensures q.granted <= Dispatch(q).granted
    decreases |q.waiting|
  {
    if |q.holders| < q.limit && |q.waiting| > 0 { DispatchAppends(Grant(q)); }
  }

  lemma GrantsStay<T>(q: Line<T>, x: T, e: Event<T>)
    requires x in q.granted
    ensures x in Apply(q, e).granted
  {
    match e
    case Arrive(y) => DispatchAppends(Joined(q, y));
    case GiveBack(y) => DispatchAppends(Freed(q, y));
    case Withdraw(y) => DispatchAppends(Gone(q, y));
  }
}
