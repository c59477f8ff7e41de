/** One upstream Docker stats stream per container, shared by every subscriber of it.

    Each method is one section under the hub's lock, so any order of calls is an interleaving of
    subscribers, unsubscribers and runners. A runner is the goroutine that reads the stats of one
    stream: it starts with the stream and may end at any moment.
 */
module MetricsHub {
  import opened Domain
  import opened FrameChannel

  type Frame = nat

  class ContainerStream {
    const container: ContainerId
    var subscribers: set<FrameChannel<Frame>>
    var cancelled: bool
    var closed: bool          // the done channel
    ghost var runners: nat    // goroutines running `run` on this stream

    constructor (container: ContainerId)
      ensures this.container == container && subscribers == {} && !cancelled && !closed && runners == 0
    {
      this.container := container;
      subscribers, cancelled, closed := {}, false, false;
      runners := 0;
    }

    /** Closing a closed channel panics. */
    method CloseDone()
      requires !closed
      modifies this`closed
      ensures closed
    {
      closed := true;
    }
  }

  /** What Subscribe returns: the frames, the stream's done channel, and unsubscribe. */
  class Subscription {
    const stream: ContainerStream
    const frames: FrameChannel<Frame>
    var used: bool

    constructor (stream: ContainerStream, frames: FrameChannel<Frame>)
      ensures this.stream == stream && this.frames == frames && !used
    {
      this.stream, this.frames, used := stream, frames, false;
    }
  }

  class MetricsHub {
    var streams: map<ContainerId, ContainerStream>
    ghost var all: set<ContainerStream>
    ghost var owner: map<FrameChannel<Frame>, Subscription>
    ghost var subscriptions: set<Subscription>                 // every one ever made

    ghost predicate Registered(s: ContainerStream)
      reads this
    {
      s.container in streams && streams[s.container] == s
    }

    ghost predicate Known(u: Subscription)
      reads this
    {
      u.frames in owner && owner[u.frames] == u
    }

    /** A registered stream is not cancelled; every stream has one runner until its done channel is
        closed; a stream that runs uncancelled is registered, unless it is `ending`. */
    ghost predicate StreamsOk(ending: set<ContainerStream>)
      reads this, all
    {
      && (forall c | c in streams :: streams[c] in all && streams[c].container == c)
      && (forall c | c in streams :: !streams[c].cancelled && !streams[c].closed)
      && (forall s | s in all :: s.runners == if s.closed then 0 else 1)
      && (forall s | s in all && s !in ending && !s.closed && !s.cancelled :: Registered(s))
    }

    /** Nobody is stranded: whoever has not unsubscribed is in a registered stream or sees its done
        channel closed, now or at the end of the section that closes it. */
    ghost predicate NobodyStranded(ending: set<ContainerStream>)
      reads this, all, subscriptions
    {
      && (forall f | f in owner :: owner[f] in subscriptions && owner[f].frames == f && owner[f].stream in all)
      && (forall f | f in owner && owner[f] in subscriptions && !owner[f].used ::
            || (Registered(owner[f].stream) && f in owner[f].stream.subscribers)
            || owner[f].stream.closed || owner[f].stream in ending)
    }

    /** A registered stream has a subscriber, unless it is one of `changing`. */
    ghost predicate NoneEmpty(changing: set<ContainerStream>)
      reads this, all
    {
      forall s | s in all && s !in changing && Registered(s) :: s.subscribers != {}
    }

    /** A registered stream counts exactly those who have not unsubscribed. */
    ghost predicate Counted()
      reads this, all, subscriptions
    {
      forall s, f | s in all && Registered(s) && f in s.subscribers ::
        f in owner && owner[f] in subscriptions && owner[f].stream == s && !owner[f].used
    }

    ghost predicate Valid()
      reads this, all, subscriptions
    {
      StreamsOk({}) && NobodyStranded({}) && Counted() && NoneEmpty({})
    }

    constructor ()
      ensures Valid() && streams == map[] && owner == map[] && all == {}
    {
      streams := map[];
      all, owner, subscriptions := {}, map[], {};
    }

    method Subscribe(container: ContainerId) returns (sub: Subscription)
      requires Valid()
      modifies this, (if container in streams then {streams[container]} else {})`subscribers
      ensures Valid()
      ensures fresh(sub) && fresh(sub.frames) && !sub.used && owner == old(owner)[sub.frames := sub]
      ensures sub.frames.Valid() && sub.frames.sent == []
      ensures Known(sub) && Registered(sub.stream) && sub.stream.container == container && sub.stream in all
      ensures sub.stream.runners == 1 && !sub.stream.cancelled
      ensures streams == old(streams)[container := sub.stream]
      ensures all == old(all) + {sub.stream}
      ensures container !in old(streams) ==> fresh(sub.stream) && sub.stream.subscribers == {sub.frames}
      ensures container in old(streams) ==>
                sub.stream == old(streams[container]) &&
                sub.stream.subscribers == old(streams[container].subscribers) + {sub.frames}
    {
      var frames := new FrameChannel();
      var stream := Open(container);
      sub := new Subscription(stream, frames);
      Join(sub);
    }

    method Join(sub: Subscription)
      requires StreamsOk({}) && NobodyStranded({}) && Counted() && Registered(sub.stream)
      requires !sub.used && sub.frames !in owner && NoneEmpty({sub.stream})
      modifies this`owner, this`subscriptions, sub.stream`subscribers
      ensures Valid() && owner == old(owner)[sub.frames := sub]
      ensures sub.stream.subscribers == old(sub.stream.subscribers) + {sub.frames}
    {
      var stream := sub.stream;
      stream.subscribers := stream.subscribers + {sub.frames};
      owner, subscriptions := owner[sub.frames := sub], subscriptions + {sub};
    }

    /** The registered stream of the container, started when there is none. */
    method Open(container: ContainerId) returns (stream: ContainerStream)
      requires Valid()
      modifies this`streams, this`all
      ensures StreamsOk({}) && NobodyStranded({}) && Counted() && NoneEmpty({stream})
      ensures Registered(stream) && stream.container == container && all == old(all) + {stream}
      ensures streams == old(streams)[container := stream]
      ensures if container in old(streams) then stream == old(streams[container])
              else fresh(stream) && stream.subscribers == {}
    {
      if container in streams {
        stream := streams[container];
      } else {
        stream := new ContainerStream(container);
        stream.runners := stream.runners + 1;
        Register(stream);
      }
    }

    method Register(stream: ContainerStream)
      requires Valid() && stream.container !in streams && stream !in all
      requires stream.runners == 1 && !stream.cancelled && !stream.closed && stream.subscribers == {}
      modifies this`streams, this`all
      ensures StreamsOk({}) && NobodyStranded({}) && Counted() && NoneEmpty({stream})
      ensures Registered(stream) && streams == old(streams)[stream.container := stream] && all == old(all) + {stream}
    {
      streams := streams[stream.container := stream];
      all := all + {stream};
    }

    /** The once-only unsubscribe function. A subscriber whose stream is no longer the registered
        one has nothing left to do. */
    method Unsubscribe(sub: Subscription)
      requires Valid() && Known(sub)
      modifies this`streams, sub`used, sub.stream`subscribers, sub.stream`cancelled
      ensures Valid() && sub.used
      ensures all == old(all) && sub.stream.runners == old(sub.stream.runners)
      ensures old(sub.used) || !old(Registered(sub.stream)) ==> unchanged(sub.stream) && streams == old(streams)
      ensures !old(sub.used) && old(Registered(sub.stream)) ==> LeftBy(sub, old(streams), old(sub.stream.subscribers))
    {
      if sub.used {
        return;
      }
      var stream := sub.stream;
      if stream.container !in streams || streams[stream.container] != stream {
        sub.used := true;
        return;
      }
      Leave(sub);
    }

    /** Only this subscriber is gone, and with the last one the stream. */
    ghost predicate LeftBy(sub: Subscription, before: map<ContainerId, ContainerStream>,
                           members: set<FrameChannel<Frame>>)
      reads this, sub.stream
    {
      && sub.stream.subscribers == members - {sub.frames}
      && (if members == {sub.frames}
          then streams == before - {sub.stream.container} && sub.stream.cancelled
          else streams == before && !sub.stream.cancelled)
    }

    method Leave(sub: Subscription)
      requires Valid() && Known(sub) && !sub.used && Registered(sub.stream)
      modifies this`streams, sub`used, sub.stream`subscribers, sub.stream`cancelled
      ensures Valid() && sub.used && LeftBy(sub, old(streams), old(sub.stream.subscribers))
      ensures all == old(all) && sub.stream.runners == old(sub.stream.runners)
    {
      var stream := sub.stream;
      ghost var members := stream.subscribers;
      RemoveSubscriber(sub);
      assert stream.subscribers == {} <==> members == {sub.frames};
      if |stream.subscribers| == 0 {
        RetireIdle(stream);
      }
    }

    method RemoveSubscriber(sub: Subscription)
      requires Valid() && Known(sub) && !sub.used && Registered(sub.stream)
      modifies sub`used, sub.stream`subscribers
      ensures StreamsOk({}) && NobodyStranded({}) && Counted() && sub.used
      ensures sub.frames in old(sub.stream.subscribers)
      ensures sub.stream.subscribers == old(sub.stream.subscribers) - {sub.frames}
      ensures NoneEmpty({sub.stream})
    {
      sub.used := true;
      sub.stream.subscribers := sub.stream.subscribers - {sub.frames};
    }

    /** Nobody is left: the runner is told to stop, and closes the done channel when it does. */
    method RetireIdle(stream: ContainerStream)
      requires StreamsOk({}) && NobodyStranded({}) && Counted() && Registered(stream) && stream.subscribers == {}
      requires NoneEmpty({stream})
      modifies this`streams, stream`cancelled
      ensures Valid() && streams == old(streams) - {stream.container} && stream.cancelled
    {
      streams := streams - {stream.container};
      stream.cancelled := true;
    }

    /** The deferred cleanup of `run`. */
    method RunEnds(stream: ContainerStream)
      requires Valid() && stream in all && stream.runners > 0
      modifies this`streams, stream`closed, stream`cancelled, stream`runners
      ensures Valid() && stream.closed && stream.cancelled && stream.runners == 0
      ensures streams == if old(Registered(stream)) then old(streams) - {stream.container} else old(streams)
    {
      if stream.container in streams && streams[stream.container] == stream {
        streams := streams - {stream.container};
      }
      EndRunner(stream);
    }

    method EndRunner(stream: ContainerStream)
      requires StreamsOk({stream}) && NobodyStranded({stream}) && Counted() && NoneEmpty({})
      requires stream in all && stream.runners > 0 && !Registered(stream)
      modifies stream`closed, stream`cancelled, stream`runners
      ensures Valid() && stream.closed && stream.cancelled && stream.runners == 0
    {
      stream.CloseDone();
      stream.cancelled := true;
      stream.runners := 0;
    }

    ghost function Targets(container: ContainerId): set<FrameChannel<Frame>>
      reads this, if container in streams then {streams[container]} else {}
    {
      if container in streams then streams[container].subscribers else {}
    }

    /** The copy of the subscribers that publish makes under the lock. */
    method Snapshot(container: ContainerId) returns (targets: set<FrameChannel<Frame>>)
      requires Valid()
      ensures targets == Targets(container)
    {
      targets := if container in streams then streams[container].subscribers else {};
    }

    /** The sends, made without the lock: whoever was in the copy gets the frame, whether or not it
        has unsubscribed since. */
    method Deliver(targets: set<FrameChannel<Frame>>, frame: Frame)
      requires forall f | f in targets :: f.Valid()
      modifies targets
      ensures forall f | f in targets :: f.Valid() && f.sent == old(f.sent) + [frame]
    {
      var todo := targets;
      while todo != {}
        invariant todo <= targets
        invariant forall f | f in targets :: f.Valid() && f.sent == old(f.sent) + if f in todo then [] else [frame]
        decreases |todo|
      {
        var subscriber :| subscriber in todo;
        todo := todo - {subscriber};
        subscriber.Offer(frame);
      }
    }

    /** A runner publishes under its container's name, so the frame goes to the subscribers of the
        stream registered at that moment, be it the runner's own or a later one. */
    method Publish(publisher: ContainerStream, frame: Frame)
      requires Valid() && publisher in all && publisher.runners > 0
      requires forall f | f in Targets(publisher.container) :: f.Valid()
      modifies Targets(publisher.container)
      ensures Valid() && Targets(publisher.container) == old(Targets(publisher.container))
      ensures forall f | f in Targets(publisher.container) :: f.Valid() && f.sent == old(f.sent) + [frame]
    {
      var targets := Snapshot(publisher.container);
      Deliver(targets, frame);
    }
  }

  /** No container is read by two runners unless all but one have been cancelled. */
  lemma OneLiveRunner(hub: MetricsHub, s: ContainerStream, t: ContainerStream)
    requires hub.Valid() && s in hub.all && t in hub.all && s.container == t.container
    requires s.runners > 0 && !s.cancelled && t.runners > 0 && !t.cancelled
    ensures s == t && hub.Registered(s) && s.subscribers != {}
  {
  }

  /** Whoever waits for frames has a live runner behind the stream, or is told that it ended. */
  lemma NobodyWaitsInVain(hub: MetricsHub, u: Subscription)
    requires hub.Valid() && hub.Known(u) && !u.used
    ensures u.stream.closed ||
            (u.stream.runners == 1 && !u.stream.cancelled && u.frames in hub.Targets(u.stream.container))
  {
  }

  /** A cancelled runner can outlive its stream, and then publishes into the next one: both runners
      of the container are alive and the frame of the cancelled one reaches the new subscriber. */
  method StaleRunnerPublishes(hub: MetricsHub, container: ContainerId, frame: Frame)
    returns (stale: ContainerStream, sub: Subscription)
    requires hub.Valid() && container !in hub.streams
    modifies hub
    ensures hub.Valid() && stale != sub.stream && stale.container == container && sub.stream.container == container
    ensures stale.cancelled && stale.runners == 1 && !hub.Registered(stale)
    ensures !sub.stream.cancelled && sub.stream.runners == 1 && hub.Registered(sub.stream)
    ensures sub.frames in sub.stream.subscribers && sub.frames.sent == [frame]
  {
    stale := ShortVisit(hub, container);
    sub := hub.Subscribe(container);
    hub.Publish(stale, frame);
  }

  /** The only subscriber comes and goes; its runner has been told to stop but has not ended. */
  method ShortVisit(hub: MetricsHub, container: ContainerId) returns (stale: ContainerStream)
    requires hub.Valid() && container !in hub.streams
    modifies hub
    ensures hub.Valid() && container !in hub.streams && fresh(stale)
    ensures stale in hub.all && stale.container == container && stale.cancelled && stale.runners == 1
  {
    var sub := hub.Subscribe(container);
    stale := sub.stream;
    hub.Unsubscribe(sub);
  }
}
