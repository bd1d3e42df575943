/** Events and how they are built (event.go). An event is immutable once built, so it is a
    datatype; its accessors `Topic`, `Data`, `AggregateType`, `AggregateIdentity` and
    `Timestamp` are the datatype's field destructors. */
module Events {
  import opened Wrappers
  import opened DomainEvents
  import opened DomainCommands

  datatype Event = Event(
    topic: Topic,
    data: Payload,
    aggregateType: AggregateType,
    aggregateId: string,
    time: Time)

  /** An option applied while building an event. `NilOption` is a nil option value, which
      `NewEvent` skips; `ForAggregate` is the only option the framework defines. */
  datatype EventOption = NilOption | ForAggregate(aggregateType: AggregateType, identity: string)

  /** Applying one option to the event under construction. */
  function ApplyOption(e: Event, o: EventOption): (r: Event)
    ensures r.topic == e.topic && r.data == e.data && r.time == e.time
    ensures o.ForAggregate? ==> r.aggregateType == o.aggregateType && r.aggregateId == o.identity
    ensures o.NilOption? ==> r == e
  {
    match o
    case NilOption => e
    case ForAggregate(t, id) => e.(aggregateType := t, aggregateId := id)
  }

  /** The option loop of `NewEvent`: options are applied in order, left to right. */
  function ApplyOptions(e: Event, options: seq<EventOption>): Event
    decreases |options|
  {
    if options == [] then e else ApplyOptions(ApplyOption(e, options[0]), options[1..])
  }

  /** `NewEvent(topic, data, time, options...)`: topic, data and time as given, aggregate
      type and identity empty until an option sets them. */
  function NewEvent(topic: Topic, data: Payload, time: Time, options: seq<EventOption>): Event
  {
    ApplyOptions(Event(topic, data, "", "", time), options)
  }

  /** The aggregate tag of the last `ForAggregate` among the options, if any: an independent,
      right-to-left description of what the option loop leaves behind. */
  function LastTag(options: seq<EventOption>): Option<(AggregateType, string)>
    decreases |options|
  {
    if options == [] then None
    else match options[|options| - 1]
      case ForAggregate(t, id) => Some((t, id))
      case NilOption => LastTag(options[..|options| - 1])
  }

  /** The option loop never changes topic, data or time, and leaves the tag of the last
      `ForAggregate`, or the tag it started with when there is none. */
  lemma {:induction false} ApplyOptionsTag(e: Event, options: seq<EventOption>)
    ensures var r := ApplyOptions(e, options);
      && r.topic == e.topic && r.data == e.data && r.time == e.time
      && (LastTag(options).None? ==> r.aggregateType == e.aggregateType && r.aggregateId == e.aggregateId)
      && (LastTag(options).Some? ==> (r.aggregateType, r.aggregateId) == LastTag(options).value)
    decreases |options|
  {
    if options != [] {
      var e1 := ApplyOption(e, options[0]);
      ApplyOptionsTag(e1, options[1..]);
      LastTagCons(options[0], options[1..]);
      assert [options[0]] + options[1..] == options;
    }
  }

  /** `LastTag` unfolded from the front: the rest's last tag wins, else the first option's. */
  lemma {:induction false} LastTagCons(o: EventOption, rest: seq<EventOption>)
    ensures LastTag([o] + rest) ==
      if LastTag(rest).Some? then LastTag(rest)
      else if o.ForAggregate? then Some((o.aggregateType, o.identity)) else None
    decreases |rest|
  {
    var s := [o] + rest;
    if rest != [] {
      assert s[..|s| - 1] == [o] + rest[..|rest| - 1];
      if rest[|rest| - 1].NilOption? {
        LastTagCons(o, rest[..|rest| - 1]);
      }
    } else {
      assert s[..|s| - 1] == [];
    }
  }

  /** What `NewEvent` builds: the given topic, data and time, and the tag of the last
      `ForAggregate` option, or an empty tag when no option sets one. */
  lemma NewEventFields(topic: Topic, data: Payload, time: Time, options: seq<EventOption>)
    ensures var e := NewEvent(topic, data, time, options);
      && e.topic == topic && e.data == data && e.time == time
      && (LastTag(options).None? ==> e.aggregateType == "" && e.aggregateId == "")
      && (LastTag(options).Some? ==> (e.aggregateType, e.aggregateId) == LastTag(options).value)
  {
    ApplyOptionsTag(Event(topic, data, "", "", time), options);
  }

  /** A `ForAggregate` appended after any options (as `PublishEvent` does) decides the tag. */
  lemma NewEventAppendedTag(topic: Topic, data: Payload, time: Time, options: seq<EventOption>,
                            t: AggregateType, id: string)
    ensures var e := NewEvent(topic, data, time, options + [ForAggregate(t, id)]);
      e == Event(topic, data, t, id, time)
  {
    var opts := options + [ForAggregate(t, id)];
    assert opts[|opts| - 1] == ForAggregate(t, id);
    NewEventFields(topic, data, time, opts);
  }

  /** Nil options are skipped: removing them does not change the event. */
  lemma {:induction false} NilOptionsSkipped(e: Event, pre: seq<EventOption>, post: seq<EventOption>)
    ensures ApplyOptions(e, pre + [NilOption] + post) == ApplyOptions(e, pre + post)
    decreases |pre|
  {
    if pre == [] {
      var s := pre + [NilOption] + post;
      assert s == [NilOption] + post && pre + post == post;
      assert s[0] == NilOption && s[1..] == post;
    } else {
      assert (pre + [NilOption] + post)[0] == pre[0];
      assert (pre + [NilOption] + post)[1..] == pre[1..] + [NilOption] + post;
      assert (pre + post)[0] == pre[0];
      assert (pre + post)[1..] == pre[1..] + post;
      NilOptionsSkipped(ApplyOption(e, pre[0]), pre[1..], post);
    }
  }
}
