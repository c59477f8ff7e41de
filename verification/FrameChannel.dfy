/** One subscriber's buffered channel of metrics frames. A publisher that finds it full drops the
    oldest frame and tries once more; the consumer may run between any two of its attempts.
 */
module FrameChannel {

  const CAPACITY := 8

  // ----- the three selects of publish, on values -----

  function TrySend<F>(buf: seq<F>, frame: F): (r: seq<F>)
    ensures |buf| <= 8 ==> |r| <= 8
    ensures |buf| < 8 ==> |r| == |buf| + 1 && r[|buf|] == frame
  {
    if |buf| < CAPACITY then buf + [frame] else buf
  }

  function TryReceive<F>(buf: seq<F>): seq<F> {
    if |buf| > 0 then buf[1..] else buf
  }

  ghost predicate StrictlyIncreasing(s: seq<nat>) {
    forall i, j :: 0 <= i < j < |s| ==> s[i] < s[j]
  }

  /** The buffer is a contiguous run of the frames that got in, from index `first` to their end, and
      `taken` are the indices the consumer received, in order. */
  ghost predicate IsTail<F>(buf: seq<F>, sent: seq<F>, first: nat, taken: seq<nat>) {
    && |buf| <= CAPACITY
    && |sent| == first + |buf| && (forall i | 0 <= i < |buf| :: buf[i] == sent[first + i])
    && StrictlyIncreasing(taken) && (forall k | k in taken :: k < first)
  }

  /** The newest frame that got in is still in the buffer, or the consumer has it. */
  ghost predicate HasNewest<F>(sent: seq<F>, first: nat, taken: seq<nat>) {
    sent == [] || first < |sent| || (taken != [] && taken[|taken|-1] == |sent| - 1)
  }

  /** A channel with a single publisher. `sent` is what was published; `buf` is what of it is left
      from index `first` on; `taken` are the indices the consumer received, in order; `lost` counts
      the frames dropped. */
  class FrameChannel<F(0)> {
    var buf: seq<F>
    ghost var sent: seq<F>
    ghost var first: nat
    ghost var taken: seq<nat>
    ghost var lost: nat

    ghost predicate Contiguous()
      reads this
    {
      IsTail(buf, sent, first, taken) && first == |taken| + lost
    }

    ghost predicate NewestKept()
      reads this
    {
      HasNewest(sent, first, taken)
    }

    ghost predicate Valid()
      reads this
    {
      Contiguous() && NewestKept()
    }

    constructor ()
      ensures Valid() && buf == [] && sent == [] && taken == [] && lost == 0
    {
      buf := [];
      sent, first, taken, lost := [], 0, [], 0;
    }

    /** The consumer takes the oldest frame. */
    method Receive() returns (frame: F)
      requires Contiguous() && buf != []
      modifies this
      ensures Contiguous() && sent == old(sent) && lost == old(lost)
      ensures old(NewestKept()) ==> NewestKept()
      ensures taken == old(taken) + [old(first)] && first == old(first) + 1
      ensures frame == sent[old(first)] && buf == old(buf)[1..]
    {
      IncreasingAppend(taken, first);
      frame := buf[0];
      buf := TryReceive(buf);
      taken := taken + [first];
      first := first + 1;
    }

    /** Any number of receives. */
    method ConsumerRuns()
      requires Contiguous()
      modifies this
      ensures Contiguous() && sent == old(sent) && lost == old(lost)
      ensures old(NewestKept()) ==> NewestKept()
      ensures old(taken) <= taken && |buf| <= |old(buf)|
    {
      var more: bool := *;
      while more && |buf| > 0
        invariant Contiguous() && sent == old(sent) && lost == old(lost)
        invariant old(NewestKept()) ==> NewestKept()
        invariant old(taken) <= taken && |buf| <= |old(buf)|
        decreases |buf|
      {
        var frame := Receive();
        more := *;
      }
    }

    /** The part of publish that concerns this subscriber. The frame always gets in, and at most
        one older frame is lost for it, none when there was room. */
    method Offer(frame: F)
      requires Valid()
      modifies this
      ensures Valid() && sent == old(sent) + [frame]
      ensures old(taken) <= taken
      ensures lost == old(lost) || (lost == old(lost) + 1 && |old(buf)| == CAPACITY)
    {
      ConsumerRuns();
      if |buf| < CAPACITY {
        Send(frame);
        return;
      }
      ConsumerRuns();
      if |buf| > 0 {
        buf := TryReceive(buf);
        first, lost := first + 1, lost + 1;
      }
      ConsumerRuns();
      if |buf| < CAPACITY {
        Send(frame);
      }
    }

    method Send(frame: F)
      requires Contiguous() && |buf| < CAPACITY
      modifies this
      ensures Valid() && sent == old(sent) + [frame] && taken == old(taken) && lost == old(lost)
    {
      buf := TrySend(buf, frame);
      sent := sent + [frame];
    }
  }

  lemma IncreasingAppend(s: seq<nat>, n: nat)
    requires StrictlyIncreasing(s) && forall k | k in s :: k < n
    ensures StrictlyIncreasing(s + [n])
  {
    forall i, j | 0 <= i < j < |s + [n]| ensures (s + [n])[i] < (s + [n])[j] {
      assert s[i] in s;
    }
  }

  // ----- any number of publishers -----

  /** Where a publisher stands in the three selects, and how its last frame ended. */
  datatype Position = FirstSend | MakeRoom | Retry | Sent | Lost

  datatype Publishing<F> = Publishing(frame: F, at: Position)

  /** One subscriber's channel with publishers that were cut off between any two of their selects.
      `sent` are the frames that got in, `first` of them have left the buffer again, `taken` are the
      indices received; `refused` if the last send to end was a retry that found the buffer full. */
  datatype Traffic<F> = Traffic(buf: seq<F>, publishers: map<nat, Publishing<F>>,
                                sent: seq<F>, first: nat, taken: seq<nat>, refused: bool)

  datatype Move<F> = Begin(p: nat, frame: F) | Advance(p: nat) | Take

  predicate CanMove<F>(t: Traffic<F>, m: Move<F>) {
    match m
    case Begin(p, _) => p in t.publishers ==> t.publishers[p].at.Sent? || t.publishers[p].at.Lost?
    case Advance(p) => p in t.publishers && !t.publishers[p].at.Sent? && !t.publishers[p].at.Lost?
    case Take => |t.buf| > 0
  }

  function WithPosition<F>(t: Traffic<F>, p: nat, at: Position): Traffic<F>
    requires p in t.publishers
  {
    t.(publishers := t.publishers[p := t.publishers[p].(at := at)])
  }

  function Moved<F>(t: Traffic<F>, m: Move<F>): Traffic<F>
    requires CanMove(t, m)
  {
    match m
    case Begin(p, frame) => t.(publishers := t.publishers[p := Publishing(frame, FirstSend)])
    case Take => t.(buf := TryReceive(t.buf), first := t.first + 1, taken := t.taken + [t.first])
    case Advance(p) =>
      var frame := t.publishers[p].frame;
      if t.publishers[p].at.MakeRoom? then
        WithPosition(t.(buf := TryReceive(t.buf), first := if |t.buf| > 0 then t.first + 1 else t.first), p, Retry)
      else if |t.buf| < CAPACITY then
        WithPosition(t.(buf := TrySend(t.buf, frame), sent := t.sent + [frame], refused := false), p, Sent)
      else if t.publishers[p].at.FirstSend? then
        WithPosition(t, p, MakeRoom)
      else
        WithPosition(t.(refused := true), p, Lost)
  }

  predicate IsTraffic<F>(t: Traffic<F>, log: seq<Move<F>>)
    decreases |log|, 0
  {
    log != [] ==> IsTraffic(t, log[..|log|-1]) && CanMove(AfterTraffic(t, log[..|log|-1]), log[|log|-1])
  }

  function AfterTraffic<F>(t: Traffic<F>, log: seq<Move<F>>): Traffic<F>
    requires IsTraffic(t, log)
    decreases |log|, 1
  {
    if log == [] then t else Moved(AfterTraffic(t, log[..|log|-1]), log[|log|-1])
  }

  ghost predicate InOrder<F>(t: Traffic<F>) {
    IsTail(t.buf, t.sent, t.first, t.taken)
  }

  lemma MoveKeepsOrder<F>(t: Traffic<F>, m: Move<F>)
    requires InOrder(t) && CanMove(t, m)
    ensures InOrder(Moved(t, m))
    ensures t.sent <= Moved(t, m).sent && t.first <= Moved(t, m).first
  {
    if m.Take? { IncreasingAppend(t.taken, t.first); }
  }

  /** Over all interleavings: what is buffered is a contiguous end of what got in, and the consumer
      receives in that order. A publisher stays where it is until it moves on itself. */
  lemma {:induction false} TrafficKeepsOrder<F>(t: Traffic<F>, log: seq<Move<F>>)
    requires InOrder(t) && IsTraffic(t, log)
    ensures InOrder(AfterTraffic(t, log)) && |AfterTraffic(t, log).buf| <= 8
    ensures t.sent <= AfterTraffic(t, log).sent && t.first <= AfterTraffic(t, log).first
    ensures forall p | CanMove(t, Advance(p)) && Advance(p) !in log ::
              p in AfterTraffic(t, log).publishers && AfterTraffic(t, log).publishers[p] == t.publishers[p]
    decreases |log|
  {
    if log != [] {
      TrafficKeepsOrder(t, log[..|log|-1]);
      MoveKeepsOrder(AfterTraffic(t, log[..|log|-1]), log[|log|-1]);
    }
  }

  /** The frame of a publisher that has made room never gets in if and only if what the others have sent
      since, less all that was taken out since, has filled the buffer again; so it takes another publisher. */
  lemma RetryIsExact<F>(t: Traffic<F>, p: nat, log: seq<Move<F>>)
    requires InOrder(t) && p in t.publishers && t.publishers[p].at.MakeRoom?
    requires IsTraffic(Moved(t, Advance(p)), log) && Advance(p) !in log
    ensures var s := Moved(t, Advance(p));
            var u := AfterTraffic(s, log);
            CanMove(u, Advance(p)) &&
            var v, sends, takes := Moved(u, Advance(p)), |u.sent| - |s.sent|, u.first - s.first;
            && sends >= 0 && takes >= 0
            && (v.publishers[p].at.Lost? <==> |s.buf| + sends - takes == CAPACITY)
            && v.sent == (if v.publishers[p].at.Lost? then u.sent else u.sent + [t.publishers[p].frame])
            && (v.publishers[p].at.Lost? ==> sends > takes)
  {
    MoveKeepsOrder(t, Advance(p));
    TrafficKeepsOrder(Moved(t, Advance(p)), log);
  }

  /** A publisher is never held up: it can begin when it is through with its last frame, and then moves on
      until its frame is sent or lost, which takes at most three selects. */
  lemma ThreeSelects<F>(t: Traffic<F>, p: nat, frame: F)
    ensures CanMove(t, Begin(p, frame)) <==>
              (p in t.publishers ==> t.publishers[p].at == Sent || t.publishers[p].at == Lost)
    ensures CanMove(t, Begin(p, frame)) ==>
              Moved(t, Begin(p, frame)).publishers == t.publishers[p := Publishing(frame, FirstSend)]
    ensures CanMove(t, Advance(p)) <==> p in t.publishers && t.publishers[p].at in {FirstSend, MakeRoom, Retry}
    ensures CanMove(t, Advance(p)) ==>
              var next := Moved(t, Advance(p)).publishers[p].at;
              match t.publishers[p].at
              case FirstSend => next == (if |t.buf| < 8 then Sent else MakeRoom)
              case MakeRoom => next == Retry
              case _ => next == (if |t.buf| < 8 then Sent else Lost)
    ensures CanMove(t, Take) <==> t.buf != []
  {
  }

  /** The newest frame of all is still in the buffer, or the consumer has it. */
  ghost predicate KeepsNewest<F>(t: Traffic<F>) {
    !t.refused && HasNewest(t.sent, t.first, t.taken)
  }

  /** A publisher makes room while a single frame is left, or retries while the buffer is full. */
  predicate Loses<F>(t: Traffic<F>, m: Move<F>)
    requires CanMove(t, m)
  {
    m.Advance? &&
    match t.publishers[m.p].at
    case MakeRoom => |t.buf| == 1
    case Retry => |t.buf| == CAPACITY
    case _ => false
  }

  predicate GetsIn<F>(t: Traffic<F>, m: Move<F>)
    requires CanMove(t, m)
  {
    m.Advance? && !t.publishers[m.p].at.MakeRoom? && |t.buf| < CAPACITY
  }

  /** Such a loss has happened, and no frame has got in since. */
  predicate LostSince<F>(t: Traffic<F>, log: seq<Move<F>>)
    requires IsTraffic(t, log)
  {
    log != [] &&
    var u, m := AfterTraffic(t, log[..|log|-1]), log[|log|-1];
    Loses(u, m) || (LostSince(t, log[..|log|-1]) && !GetsIn(u, m))
  }

  predicate NeverLoses<F>(t: Traffic<F>, log: seq<Move<F>>)
    requires IsTraffic(t, log)
  {
    log == [] || (NeverLoses(t, log[..|log|-1]) && !Loses(AfterTraffic(t, log[..|log|-1]), log[|log|-1]))
  }

  /** At every moment of the log the newest frame is kept. */
  ghost predicate KeptThroughout<F>(t: Traffic<F>, log: seq<Move<F>>)
    requires IsTraffic(t, log)
  {
    KeepsNewest(AfterTraffic(t, log)) && (log != [] ==> KeptThroughout(t, log[..|log|-1]))
  }

  lemma MoveAndNewest<F>(t: Traffic<F>, m: Move<F>)
    requires InOrder(t) && CanMove(t, m)
    ensures KeepsNewest(Moved(t, m)) <==> !Loses(t, m) && (KeepsNewest(t) || GetsIn(t, m))
  {
    assert t.taken != [] ==> t.taken[|t.taken|-1] in t.taken;
  }

  /** Over all interleavings of any publishers and the consumer: the newest frame is lost exactly by a
      publisher that makes room while it is the only one left, or whose retry finds the buffer full. */
  lemma {:induction false} LossIsExact<F>(t: Traffic<F>, log: seq<Move<F>>)
    requires InOrder(t) && KeepsNewest(t) && IsTraffic(t, log)
    ensures KeepsNewest(AfterTraffic(t, log)) <==> !LostSince(t, log)
    ensures KeptThroughout(t, log) <==> NeverLoses(t, log)
    ensures NeverLoses(t, log) ==> !LostSince(t, log)
    decreases |log|
  {
    if log != [] {
      LossIsExact(t, log[..|log|-1]);
      TrafficKeepsOrder(t, log[..|log|-1]);
      MoveAndNewest(AfterTraffic(t, log[..|log|-1]), log[|log|-1]);
    }
  }

  // ----- both ways to lose it -----

  /** A channel on which nothing has been received yet and nobody is publishing. */
  function Filled<F>(buf: seq<F>): Traffic<F> {
    Traffic(buf, map[], buf, 0, [], false)
  }

  /** One publisher finds the buffer full and makes room, the other's send takes that room, and the
      frame of the first is lost although it is newer than all that stay but one. */
  lemma NewestIsLost<F>(buf: seq<F>, frame: F, other: F) returns (log: seq<Move<F>>)
    requires |buf| == CAPACITY
    ensures IsTraffic(Filled(buf), log)
    ensures var u := AfterTraffic(Filled(buf), log);
            && u.publishers == map[0 := Publishing(frame, Lost), 1 := Publishing(other, Sent)]
            && u.buf == buf[1..] + [other] && !KeepsNewest(u)
  {
    var t := Filled(buf);
    log := [];
    log := Onward(t, log, Begin(0, frame));
    log := Onward(t, log, Begin(1, other));
    log := Onward(t, log, Advance(0));
    log := Onward(t, log, Advance(0));
    log := Onward(t, log, Advance(1));
    log := Onward(t, log, Advance(0));
  }

  lemma {:induction false} Drain<F>(t: Traffic<F>, log: seq<Move<F>>) returns (more: seq<Move<F>>)
    requires IsTraffic(t, log) && InOrder(AfterTraffic(t, log))
    ensures IsTraffic(t, more)
    ensures var s, u := AfterTraffic(t, log), AfterTraffic(t, more);
            u.buf == [] && u.publishers == s.publishers && u.sent == s.sent && u.first == |u.sent| && InOrder(u)
    decreases |AfterTraffic(t, log).buf|
  {
    if AfterTraffic(t, log).buf == [] {
      more := log;
    } else {
      more := Onward(t, log, Take);
      MoveKeepsOrder(AfterTraffic(t, log), Take);
      more := Drain(t, more);
    }
  }

  lemma CutOff<F>(buf: seq<F>, frame: F) returns (log: seq<Move<F>>)
    requires |buf| == CAPACITY
    ensures IsTraffic(Filled(buf), log)
    ensures var u := AfterTraffic(Filled(buf), log);
            && u.buf == [] && u.publishers == map[0 := Publishing(frame, MakeRoom)]
            && u.sent == buf && u.first == |buf| && InOrder(u)
  {
    log := [];
    log := Onward(Filled(buf), log, Begin(0, frame));
    log := Onward(Filled(buf), log, Advance(0));
    log := Drain(Filled(buf), log);
  }

  lemma NewerIsDropped<F>(buf: seq<F>, frame: F, newer: F) returns (log: seq<Move<F>>)
    requires |buf| == CAPACITY
    ensures IsTraffic(Filled(buf), log) && !NeverLoses(Filled(buf), log)
    ensures var u := AfterTraffic(Filled(buf), log);
            && u.publishers == map[0 := Publishing(frame, Retry), 1 := Publishing(newer, Sent)]
            && u.buf == [] && u.sent == buf + [newer] && |buf| !in u.taken
  {
    log := CutOff(buf, frame);
    log := Onward(Filled(buf), log, Begin(1, newer));
    log := Onward(Filled(buf), log, Advance(1));
    log := Onward(Filled(buf), log, Advance(0));
  }

  /** A publisher cut off before it makes room comes back when the consumer has emptied the buffer and
      another one has sent a newer frame: that frame it drops, and its own older one gets in. */
  lemma NewestIsDropped<F>(buf: seq<F>, frame: F, newer: F) returns (log: seq<Move<F>>)
    requires |buf| == CAPACITY
    ensures IsTraffic(Filled(buf), log)
    ensures var u := AfterTraffic(Filled(buf), log);
            && u.publishers == map[0 := Publishing(frame, Sent), 1 := Publishing(newer, Sent)]
            && u.buf == [frame] && u.sent == buf + [newer] + [frame] && |buf| !in u.taken
            && !KeptThroughout(Filled(buf), log)
  {
    var front := NewerIsDropped(buf, frame, newer);
    log := Onward(Filled(buf), front, Advance(0));
    LossIsExact(Filled(buf), front);
  }

  lemma Onward<F>(t: Traffic<F>, log: seq<Move<F>>, m: Move<F>) returns (more: seq<Move<F>>)
    requires IsTraffic(t, log) && CanMove(AfterTraffic(t, log), m)
    ensures more == log + [m] && more[..|more|-1] == log && more[|more|-1] == m
    ensures IsTraffic(t, more) && AfterTraffic(t, more) == Moved(AfterTraffic(t, log), m)
  {
    more := log + [m];
    assert more[..|more|-1] == log;
  }
}
