/** The event-handler list registry (event_handler.go): each topic maps to the list of
    handlers registered for it, in registration order, duplicates included. The registry is
    generic in the handler value; the concrete handler kinds are in module Application. */
module EventHandlerRegistry {
  import opened DomainEvents

  /** The handler list of a topic; a topic never registered reads as Go's nil slice. */
  function HandlersOf<H>(m: map<Topic, seq<H>>, t: Topic): seq<H>
  {
    if t in m then m[t] else []
  }

  /** The registry after `RegisterEventHandlers(h, topics...)`: the topic loop, left to right. */
  function AppendToTopics<H>(m: map<Topic, seq<H>>, h: H, topics: seq<Topic>): map<Topic, seq<H>>
    decreases |topics|
  {
    if topics == [] then m
    else AppendToTopics(m[topics[0] := HandlersOf(m, topics[0]) + [h]], h, topics[1..])
  }

  /** How often `t` occurs in `topics`. */
  function Occurrences(topics: seq<Topic>, t: Topic): nat
    decreases |topics|
  {
    if topics == [] then 0 else (if topics[0] == t then 1 else 0) + Occurrences(topics[1..], t)
  }

  /** `n` copies of `h`. */
  function Repeat<H>(h: H, n: nat): seq<H>
  {
    seq(n, _ => h)
  }

  /** What registration does to one topic's list: `h` is appended once per occurrence of the
      topic (no duplicate check), the earlier handlers keep their order, and a topic not listed
      keeps its list. */
  lemma {:induction false} AppendToTopicsAt<H>(m: map<Topic, seq<H>>, h: H, topics: seq<Topic>, t: Topic)
    ensures HandlersOf(AppendToTopics(m, h, topics), t) == HandlersOf(m, t) + Repeat(h, Occurrences(topics, t))
    decreases |topics|
  {
    if topics != [] {
      var m1 := m[topics[0] := HandlersOf(m, topics[0]) + [h]];
      AppendToTopicsAt(m1, h, topics[1..], t);
      var k := Occurrences(topics[1..], t);
      if topics[0] == t {
        assert HandlersOf(m1, t) == HandlersOf(m, t) + [h];
        assert [h] + Repeat(h, k) == Repeat(h, k + 1);
        assert HandlersOf(m, t) + [h] + Repeat(h, k) == HandlersOf(m, t) + ([h] + Repeat(h, k));
      } else {
        assert HandlersOf(m1, t) == HandlersOf(m, t);
      }
    } else {
      assert Repeat(h, 0) == [];
    }
  }

  /** Registration creates entries exactly for the listed topics. */
  lemma {:induction false} AppendToTopicsKeys<H>(m: map<Topic, seq<H>>, h: H, topics: seq<Topic>)
    ensures AppendToTopics(m, h, topics).Keys == m.Keys + (set t | t in topics)
    decreases |topics|
  {
    if topics != [] {
      AppendToTopicsKeys(m[topics[0] := HandlersOf(m, topics[0]) + [h]], h, topics[1..]);
      assert (set t | t in topics) == {topics[0]} + (set t | t in topics[1..]);
    }
  }

  class EventHandlerRegistry<H> {
    var handlers: map<Topic, seq<H>>

    constructor ()
      ensures handlers == map[]
    {
      handlers := map[];
    }

    /** `RegisterEventHandlers(h, topics...)`. */
    method RegisterEventHandlers(h: H, topics: seq<Topic>)
      modifies this
      ensures handlers == AppendToTopics(old(handlers), h, topics)
    {
      var i := 0;
      while i < |topics|
        invariant 0 <= i <= |topics|
        invariant AppendToTopics(old(handlers), h, topics) == AppendToTopics(handlers, h, topics[i..])
      {
        assert topics[i..][0] == topics[i] && topics[i..][1..] == topics[i + 1..];
        handlers := handlers[topics[i] := HandlersOf(handlers, topics[i]) + [h]];
        i := i + 1;
      }
    }
  }
}
