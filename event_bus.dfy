/**
 * The event bus: fan-out of published events to a set of per-subscriber
 * FIFO queues of bounded capacity, dropping the event for a subscriber whose
 * queue is full.
 *
 * Queues hold `Some(event)` for a published event and `None` for the
 * shutdown sentinel. The asyncio lock, cancellation and cross-thread
 * scheduling are not modelled; `publish_sync` records the event it schedules
 * in the ghost log `scheduled`.
 */
module Events {
  import opened Wrappers
  import Json

  /** An event dictionary, or the `None` that `close` puts in to signal shutdown. */
  type Item = Option<Json.Value>

  /** `asyncio.Queue(maxsize=...)`: unbounded when the size is zero or negative. */
  class Queue {
    const maxsize: int
    var items: seq<Item>

    /** A queue never holds more than a positive capacity. */
    predicate Valid()
      reads this
    {
      maxsize > 0 ==> |items| <= maxsize
    }

    /** `full()`. */
    predicate Full()
      reads this
    {
      maxsize > 0 && |items| >= maxsize
    }

    constructor (maxsize: int)
      ensures this.maxsize == maxsize && items == [] && Valid()
    {
      this.maxsize := maxsize;
      items := [];
    }

    /** `put_nowait`: appends at the tail unless the queue is full, in which case it refuses and changes nothing. */
    method PutNowait(x: Item) returns (accepted: bool)
      requires Valid()
      modifies this
      ensures Valid()
      ensures accepted == !old(Full())
      ensures items == if accepted then old(items) + [x] else old(items)
    {
      if maxsize > 0 && |items| >= maxsize {
        return false;
      }
      items := items + [x];
      return true;
    }

    /** `get` when an item is there: the head, oldest first. An empty queue makes the subscriber wait (`None` here). */
    method Get() returns (x: Option<Item>)
      requires Valid()
      modifies this
      ensures Valid()
      ensures old(items) == [] ==> x == None && items == []
      ensures old(items) != [] ==> x == Some(old(items)[0]) && items == old(items)[1..]
    {
      if items == [] {
        return None;
      }
      x := Some(items[0]);
      items := items[1..];
    }
  }

  class EventBus {
    /** `max_queue_size`, the capacity of every subscriber's queue. */
    const maxQueueSize: int
    var subscribers: set<Queue>
    /** Whether `set_loop` bound an event loop. */
    var loopBound: bool
    ghost var scheduled: seq<Json.Value>

    /** Every subscriber's queue has the bus's capacity and respects it. */
    predicate Valid()
      reads this, subscribers
    {
      forall q :: q in subscribers ==> q.maxsize == maxQueueSize && q.Valid()
    }

    /** `EventBus(max_queue_size)`; the default capacity is 100. */
    constructor (maxQueueSize: int)
      ensures this.maxQueueSize == maxQueueSize && subscribers == {} && !loopBound && scheduled == []
      ensures Valid()
    {
      this.maxQueueSize := maxQueueSize;
      subscribers := {};
      loopBound := false;
      scheduled := [];
    }

    /** `set_loop`: an event loop is bound. */
    method SetLoop()
      modifies this
      ensures loopBound && subscribers == old(subscribers) && scheduled == old(scheduled)
    {
      loopBound := true;
    }

    /** `subscriber_count`. */
    function SubscriberCount(): nat
      reads this
    {
      |subscribers|
    }

    /** The queues among `qs` that have room. */
    function Accepting(qs: set<Queue>): set<Queue>
      reads qs
    {
      set q | q in qs && !q.Full()
    }

    /** The start of `subscribe`: a fresh empty queue of the bus's capacity joins the subscribers. */
    method Subscribe() returns (q: Queue)
      requires Valid()
      modifies this
      ensures Valid() && fresh(q) && q.items == [] && q.maxsize == maxQueueSize
      ensures subscribers == old(subscribers) + {q} && SubscriberCount() == old(SubscriberCount()) + 1
      ensures loopBound == old(loopBound) && scheduled == old(scheduled)
    {
      q := new Queue(maxQueueSize);
      subscribers := subscribers + {q};
    }

    /** The `finally` of `subscribe`: the subscriber's queue leaves the set. */
    method Unsubscribe(q: Queue)
      requires Valid()
      modifies this
      ensures Valid() && subscribers == old(subscribers) - {q}
      ensures loopBound == old(loopBound) && scheduled == old(scheduled)
    {
      subscribers := subscribers - {q};
    }

    /**
     * The loop of `publish` and of `close`: every subscriber whose queue is
     * not full gets `x` at its tail, the full ones are left alone, and the
     * result counts the queues that took it.
     */
    method Broadcast(x: Item) returns (delivered: nat)
      requires Valid()
      modifies subscribers
      ensures Valid()
      ensures forall q :: q in subscribers ==> q.items == if old(q.Full()) then old(q.items) else old(q.items) + [x]
      ensures delivered == |old(Accepting(subscribers))|
    {
      delivered := 0;
      var todo := subscribers;
      ghost var accepted: set<Queue> := {};
      while todo != {}
        invariant todo <= subscribers && accepted <= subscribers - todo
        invariant Valid()
        invariant forall q :: q in subscribers ==> q.items == if q in todo || old(q.Full()) then old(q.items) else old(q.items) + [x]
        invariant forall q :: q in accepted <==> q in subscribers && q !in todo && !old(q.Full())
        invariant delivered == |accepted|
        decreases |todo|
      {
        var q :| q in todo;
        var ok := q.PutNowait(x);
        if ok {
          delivered := delivered + 1;
          accepted := accepted + {q};
        }
        todo := todo - {q};
      }
      assert accepted == old(Accepting(subscribers));
    }

    /** `publish`: the event goes to every subscriber with room; the count of those is returned. */
    method Publish(e: Json.Value) returns (delivered: nat)
      requires Valid()
      modifies subscribers
      ensures Valid()
      ensures forall q :: q in subscribers ==> q.items == if old(q.Full()) then old(q.items) else old(q.items) + [Some(e)]
      ensures delivered == |old(Accepting(subscribers))|
    {
      delivered := Broadcast(Some(e));
    }

    /**
     * `publish_sync`, with `loopClosed` what `is_closed()` answers for the
     * bound loop at the time of the call: does nothing without a bound loop
     * or when that loop is closed; otherwise schedules `publish(e)` there.
     */
    method PublishSync(e: Json.Value, loopClosed: bool)
      modifies this
      ensures subscribers == old(subscribers) && loopBound == old(loopBound)
      ensures scheduled == if !loopBound || loopClosed then old(scheduled) else old(scheduled) + [e]
    {
      if !loopBound || loopClosed {
        return;
      }
      scheduled := scheduled + [e];
    }

    /** `close`: the shutdown sentinel goes to every subscriber with room, then the set is emptied. */
    method Close()
      requires Valid()
      modifies this, subscribers
      ensures Valid() && subscribers == {} && SubscriberCount() == 0
      ensures forall q :: q in old(subscribers) ==> q.Valid() && q.items == if old(q.Full()) then old(q.items) else old(q.items) + [None]
      ensures loopBound == old(loopBound) && scheduled == old(scheduled)
    {
      var _ := Broadcast(None);
      subscribers := {};
    }
  }
}
