/** The in-process event bus (eventbus/local/eventbus.go). A `Group` maps each topic to one
    bounded FIFO queue of encoded events; every handler registered on a topic reads from that
    same queue, so each message goes to exactly one of them. Encoding is a pair of abstract
    functions standing in for the codec, which the Go bus is never given; each consumer
    goroutine is modelled by its registration plus a single dequeue step. */
module LocalEventBus {
  import opened Wrappers
  import opened DomainEvents
  import opened Events

  type Bytes = seq<bv8>

  /** `DefaultQueueSize`: the capacity every new queue gets. */
  const DefaultQueueSize := 1000

  type Queues = map<string, seq<Bytes>>

  /** No queue holds more than `DefaultQueueSize` messages. */
  ghost predicate Bounded(bus: Queues)
  {
    forall t :: t in bus ==> |bus[t]| <= DefaultQueueSize
  }

  /** `channel(id)`: the existing queue, or a new empty one stored under `id`. */
  function WithChannel(bus: Queues, id: string): (r: Queues)
    ensures id in r
    ensures id in bus ==> r == bus
    ensures id !in bus ==> r == bus[id := []]
  {
    if id in bus then bus else bus[id := []]
  }

  /** `publish(topic, b)`: appended at the back of the topic's queue when it has room; dropped
      when the queue is full, and also dropped when the topic has no queue at all (a send on the
      nil channel is never ready), without creating one. */
  function Published(bus: Queues, topic: string, b: Bytes): (r: Queues)
    ensures r.Keys == bus.Keys
    ensures forall t :: t in bus && t != topic ==> r[t] == bus[t]
    ensures topic in bus && |bus[topic]| < DefaultQueueSize ==> r[topic] == bus[topic] + [b]
    ensures topic in bus && |bus[topic]| >= DefaultQueueSize ==> r[topic] == bus[topic]
    ensures Bounded(bus) ==> Bounded(r)
  {
    if topic in bus && |bus[topic]| < DefaultQueueSize then bus[topic := bus[topic] + [b]] else bus
  }

  /** Publishing several messages to one topic, one after another. */
  function PublishedAll(bus: Queues, topic: string, msgs: seq<Bytes>): Queues
    decreases |msgs|
  {
    if msgs == [] then bus else PublishedAll(Published(bus, topic, msgs[0]), topic, msgs[1..])
  }

  function Min(a: int, b: int): int
  {
    if a <= b then a else b
  }

  /** Drop-when-full as a whole: after publishing `msgs` to a queue holding `q`, the queue
      holds the longest prefix of `q + msgs` that fits the capacity; later messages are lost and
      the order is kept. */
  lemma {:induction false} PublishedAllKeepsPrefix(bus: Queues, topic: string, msgs: seq<Bytes>)
    requires topic in bus && |bus[topic]| <= DefaultQueueSize
    ensures topic in PublishedAll(bus, topic, msgs)
    ensures PublishedAll(bus, topic, msgs)[topic] ==
      (bus[topic] + msgs)[..Min(|bus[topic]| + |msgs|, DefaultQueueSize)]
    decreases |msgs|
  {
    var q := bus[topic];
    if msgs == [] {
      assert (q + msgs)[..|q|] == q;
    } else {
      var bus1 := Published(bus, topic, msgs[0]);
      PublishedAllKeepsPrefix(bus1, topic, msgs[1..]);
      var q1 := bus1[topic];
      assert PublishedAll(bus, topic, msgs) == PublishedAll(bus1, topic, msgs[1..]);
      if |q| < DefaultQueueSize {
        assert q1 == q + [msgs[0]];
        assert q1 + msgs[1..] == q + msgs;
      } else {
        assert q1 == q && |q| == DefaultQueueSize;
        assert (q1 + msgs[1..])[..DefaultQueueSize] == q;
        assert (q + msgs)[..DefaultQueueSize] == q;
      }
    }
  }

  /** A one-message consequence: with the queue full, the message after the capacity is the
      one that is dropped. */
  lemma OverflowDropsLast(bus: Queues, topic: string, msgs: seq<Bytes>)
    requires topic in bus && bus[topic] == [] && |msgs| == DefaultQueueSize + 1
    ensures topic in PublishedAll(bus, topic, msgs)
    ensures PublishedAll(bus, topic, msgs)[topic] == msgs[..DefaultQueueSize]
  {
    PublishedAllKeepsPrefix(bus, topic, msgs);
    assert bus[topic] + msgs == msgs;
  }

  /** Other topics are never affected by publishing. */
  lemma {:induction false} PublishedAllOthers(bus: Queues, topic: string, msgs: seq<Bytes>, other: string)
    requires other != topic
    ensures PublishedAll(bus, topic, msgs).Keys == bus.Keys
    ensures other in bus ==> PublishedAll(bus, topic, msgs)[other] == bus[other]
    decreases |msgs|
  {
    if msgs != [] {
      PublishedAllOthers(Published(bus, topic, msgs[0]), topic, msgs[1..], other);
    }
  }

  /** `Group`: the queue per topic. */
  class Group {
    var bus: Queues

    /** `NewGroup`. */
    constructor ()
      ensures bus == map[]
    {
      bus := map[];
    }

    /** `channel(id)`; the queue is named by its topic key. */
    method Channel(id: string) returns (ch: string)
      modifies this
      ensures ch == id
      ensures bus == WithChannel(old(bus), id)
    {
      if id in bus {
        return id;
      }
      bus := bus[id := []];
      ch := id;
    }

    /** `publish(topic, b)`: never fails. */
    method Publish(topic: string, b: Bytes) returns (o: Outcome)
      modifies this
      ensures o == Pass
      ensures bus == Published(old(bus), topic, b)
    {
      if topic in bus && |bus[topic]| < DefaultQueueSize {
        bus := bus[topic := bus[topic] + [b]];
      }
      o := Pass;
    }

    /** One receive on a queue: the oldest message is taken off the front; an empty queue
        (or a topic without one) has nothing to give and the receive would block. */
    method Receive(ch: string) returns (r: Option<Bytes>)
      modifies this
      ensures ch in old(bus) && old(bus)[ch] != [] ==>
        r == Some(old(bus)[ch][0]) && bus == old(bus)[ch := old(bus)[ch][1..]]
      ensures !(ch in old(bus) && old(bus)[ch] != []) ==> r == None && bus == old(bus)
    {
      if ch in bus && bus[ch] != [] {
        r := Some(bus[ch][0]);
        bus := bus[ch := bus[ch][1..]];
      } else {
        r := None;
      }
    }
  }

  /** A consumer goroutine started by `RegisterHandler`: the handler, the queue it reads and
      whether it is still running. */
  datatype Consumer<H> = Consumer(topic: Topic, handler: H, channel: string, running: bool)

  /** What one turn of a consumer's loop does. */
  datatype Step<H> =
    | Blocked                            // nothing queued, or the consumer has ended
    | Stopped                            // the message did not decode, the consumer returns
    | Deliver(handler: H, event: Event)  // the handler is called; its error is ignored

  const MarshalFailed := "could not marshal codec"
  const MissingHandler := Msg("missing codec handler")

  class EventBus<H> {
    const group: Group
    const marshal: Event -> Result<Bytes>
    const unmarshal: Bytes -> Result<Event>
    var consumers: seq<Consumer<H>>

    /** `NewEventBus` with a fresh group. Go never sets the bus's codec; the two parameters
        stand in for the codec a working bus would need. */
    constructor (marshal: Event -> Result<Bytes>, unmarshal: Bytes -> Result<Event>)
      ensures fresh(group) && group.bus == map[]
      ensures this.marshal == marshal && this.unmarshal == unmarshal
      ensures consumers == []
    {
      group := new Group();
      this.marshal := marshal;
      this.unmarshal := unmarshal;
      consumers := [];
    }

    /** `HandleEvent(e)`: a marshal error is returned wrapped and nothing is queued; otherwise
        the encoding is published under the event's topic and the publish outcome (always
        success) returned. */
    method HandleEvent(e: Event) returns (o: Outcome)
      modifies group
      ensures marshal(e).Err? ==> o == Fail(Wrap(MarshalFailed, marshal(e).error)) && group.bus == old(group.bus)
      ensures marshal(e).Ok? ==> o == Pass && group.bus == Published(old(group.bus), e.topic, marshal(e).value)
    {
      var data := marshal(e);
      if data.Err? {
        return Fail(Wrap(MarshalFailed, data.error));
      }
      o := group.Publish(e.topic, data.value);
    }

    /** `RegisterHandler(topic, h)`: a nil handler is refused and nothing changes; otherwise the
        topic's queue is looked up or created and a running consumer of that queue is added. */
    method RegisterHandler(topic: Topic, h: Option<H>) returns (o: Outcome)
      modifies this, group
      ensures h.None? ==> o == Fail(MissingHandler) && group.bus == old(group.bus) && consumers == old(consumers)
      ensures h.Some? ==>
        && o == Pass
        && group.bus == WithChannel(old(group.bus), topic)
        && consumers == old(consumers) + [Consumer(topic, h.value, topic, true)]
    {
      if h.None? {
        return Fail(MissingHandler);
      }
      var ch := group.Channel(topic);
      consumers := consumers + [Consumer(topic, h.value, ch, true)];
      o := Pass;
    }

    /** One turn of consumer `i`: take the oldest message off its queue; a message that does
        not decode ends the consumer, any other is delivered to its handler. */
    method ConsumeStep(i: nat) returns (step: Step<H>)
      requires i < |consumers|
      modifies this, group
      ensures var c := old(consumers[i]);
        && (c.running && c.channel in old(group.bus) && old(group.bus)[c.channel] != [] ==>
              var msg := old(group.bus)[c.channel][0];
              && group.bus == old(group.bus)[c.channel := old(group.bus)[c.channel][1..]]
              && (unmarshal(msg).Err? ==> step == Stopped && consumers == old(consumers)[i := c.(running := false)])
              && (unmarshal(msg).Ok? ==> step == Deliver(c.handler, unmarshal(msg).value) && consumers == old(consumers)))
        && (!(c.running && c.channel in old(group.bus) && old(group.bus)[c.channel] != []) ==>
              step == Blocked && group.bus == old(group.bus) && consumers == old(consumers))
    {
      var c := consumers[i];
      if !c.running {
        return Blocked;
      }
      var data := group.Receive(c.channel);
      if data.None? {
        return Blocked;
      }
      var e := unmarshal(data.value);
      if e.Err? {
        consumers := consumers[i := c.(running := false)];
        return Stopped;
      }
      step := Deliver(c.handler, e.value);
    }
  }
}
