/** The registry of event channels, as one goroutine at a time sees it: subscriber/subscriber.go.
    FanOut.dfy interleaves the same steps. Sending to a closed channel and closing a channel twice
    panic in Go, so both are preconditions here. */
module Registry {

  datatype Event = Event(kind: string, raw: string)

  const CAPACITY: nat := 256

  /** A non-blocking send: the event is dropped when the buffer is full. */
  function Buffered<T>(buffer: seq<T>, x: T): (r: seq<T>)
    ensures |buffer| <= CAPACITY ==> |r| <= CAPACITY
  {
    if |buffer| < CAPACITY then buffer + [x] else buffer
  }

  class Channel {
    var buffer: seq<Event>
    var closed: bool

    constructor ()
      ensures buffer == [] && !closed
    {
      buffer, closed := [], false;
    }

    method TrySend(e: Event)
      requires !closed
      modifies this`buffer
      ensures buffer == Buffered(old(buffer), e)
    {
      if |buffer| < CAPACITY {
        buffer := buffer + [e];
      }
    }

    method Close()
      requires !closed
      modifies this`closed
      ensures closed
    {
      closed := true;
    }
  }

  class Subscriber {
    var subscribers: seq<Channel>

    /** The registry holds distinct, open channels. */
    ghost predicate Valid()
      reads this, subscribers
    {
      && (forall i, j | 0 <= i < j < |subscribers| :: subscribers[i] != subscribers[j])
      && (forall ch | ch in subscribers :: !ch.closed && |ch.buffer| <= CAPACITY)
    }

    constructor ()
      ensures Valid() && subscribers == []
    {
      subscribers := [];
    }

    method Subscribe() returns (ch: Channel)
      requires Valid()
      modifies this
      ensures Valid() && fresh(ch) && ch.buffer == []
      ensures subscribers == old(subscribers) + [ch]
    {
      ch := new Channel();
      subscribers := subscribers + [ch];
    }

    /** Takes `ch` out of the registry, keeping the others in order, and closes it; does nothing when
        it is not registered, so that closing a subscription after shutdown is harmless. */
    method RemoveSub(ch: Channel)
      requires Valid()
      modifies this, ch`closed
      ensures Valid() && ch !in subscribers
      ensures ch !in old(subscribers) ==> subscribers == old(subscribers) && ch.closed == old(ch.closed)
      ensures ch in old(subscribers) ==> ch.closed
      ensures ch in old(subscribers) ==>
        (exists i | 0 <= i < |old(subscribers)| ::
           old(subscribers)[i] == ch && subscribers == old(subscribers)[..i] + old(subscribers)[i + 1..])
    {
      for i := 0 to |subscribers|
        invariant subscribers == old(subscribers) && ch !in subscribers[..i]
        invariant Valid() && ch.closed == old(ch.closed)
      {
        if subscribers[i] == ch {
          subscribers := subscribers[..i] + subscribers[i + 1..];
          ch.Close();
          return;
        }
      }
    }

    /** Closes every registered channel, each once, and empties the registry. */
    method CloseSubscribers()
      requires Valid()
      modifies this, subscribers
      ensures Valid() && subscribers == []
      ensures forall ch | ch in old(subscribers) :: ch.closed && ch.buffer == old(ch.buffer)
    {
      for i := 0 to |subscribers|
        invariant subscribers == old(subscribers)
        invariant forall j | 0 <= j < |subscribers| :: subscribers[j].closed == (j < i)
        invariant forall j | 0 <= j < |subscribers| :: subscribers[j].buffer == old(subscribers[j].buffer)
      {
        subscribers[i].Close();
      }
      subscribers := [];
    }

    /** Offers the event to every registered channel, once each; one that is full misses it. */
    method FanOut(e: Event)
      requires Valid()
      modifies subscribers`buffer
      ensures Valid() && subscribers == old(subscribers)
      ensures forall ch | ch in subscribers :: ch.buffer == Buffered(old(ch.buffer), e)
    {
      for i := 0 to |subscribers|
        invariant subscribers == old(subscribers)
        invariant forall j | 0 <= j < |subscribers| :: !subscribers[j].closed
        invariant forall j | 0 <= j < i :: subscribers[j].buffer == Buffered(old(subscribers[j].buffer), e)
        invariant forall j | i <= j < |subscribers| :: subscribers[j].buffer == old(subscribers[j].buffer)
      {
        subscribers[i].TrySend(e);
      }
    }
  }

  /** What a caller of Subscribe holds. `sync.Once` lets only the first Close through. */
  class Subscription {
    const ch: Channel
    const sub: Subscriber
    var closedOnce: bool

    constructor (sub: Subscriber)
      requires sub.Valid()
      modifies sub
      ensures sub.Valid() && this.sub == sub && !closedOnce && fresh(ch)
      ensures sub.subscribers == old(sub.subscribers) + [ch]
    {
      var ch := sub.Subscribe();
      this.ch, this.sub, closedOnce := ch, sub, false;
    }

    method Close()
      requires sub.Valid()
      modifies this, sub, ch`closed
      ensures sub.Valid() && closedOnce
      ensures old(closedOnce) ==> sub.subscribers == old(sub.subscribers) && ch.closed == old(ch.closed)
      ensures ch !in old(sub.subscribers) ==> sub.subscribers == old(sub.subscribers) && ch.closed == old(ch.closed)
      ensures !old(closedOnce) && ch in old(sub.subscribers) ==> ch.closed && ch !in sub.subscribers
      ensures !old(closedOnce) && ch in old(sub.subscribers) ==>
        (exists i | 0 <= i < |old(sub.subscribers)| :: old(sub.subscribers)[i] == ch
           && sub.subscribers == old(sub.subscribers)[..i] + old(sub.subscribers)[i + 1..])
    {
      if !closedOnce {
        closedOnce := true;
        sub.RemoveSub(ch);
      }
    }
  }
}
