/** The in-process command bus (command/local_cmd_bus.go): a name-to-handler map. Handling a
    command starts the handler on its own goroutine and returns at once; the model records each
    start as a `Launch`, in start order, and does not run it: callers only learn that the
    command was accepted. The bus is generic in the handler value. */
module LocalCommandBus {
  import opened Wrappers
  import opened DomainCommands

  /** A handler started on its own goroutine with the command it was given. */
  datatype Launch<H> = Launch(handler: H, cmd: Command)

  const HandlerNotFound := Msg("[evol] LocalCommandBus HandleCommand: command handler not found")
  const AlreadyRegistered := Msg("[evol] RegisterCmdHandler: command already registered")

  /** The answer `HandleCommand` gives for `cmd` under the given handler map. */
  function Answer<H>(handlers: map<CommandName, H>, cmd: Command): Outcome
  {
    if cmd.Name() in handlers then Pass else Fail(HandlerNotFound)
  }

  /** The goroutines started by handing the commands `cmds` to the bus one after another,
      in order: one per command whose name has a handler, none for the others. */
  function LaunchesOf<H>(handlers: map<CommandName, H>, cmds: seq<Command>): (r: seq<Launch<H>>)
    ensures |r| <= |cmds|
    decreases |cmds|
  {
    if cmds == [] then []
    else
      (if cmds[0].Name() in handlers then [Launch(handlers[cmds[0].Name()], cmds[0])] else [])
      + LaunchesOf(handlers, cmds[1..])
  }

  /** Handing over the commands in two batches starts the same goroutines as one batch. */
  lemma {:induction false} LaunchesOfAppend<H>(handlers: map<CommandName, H>, a: seq<Command>, b: seq<Command>)
    ensures LaunchesOf(handlers, a + b) == LaunchesOf(handlers, a) + LaunchesOf(handlers, b)
    decreases |a|
  {
    if a != [] {
      assert (a + b)[0] == a[0] && (a + b)[1..] == a[1..] + b;
      LaunchesOfAppend(handlers, a[1..], b);
    } else {
      assert a + b == b;
    }
  }

  /** When every command has a handler, each one is started, in order, with the handler
      registered under its name. */
  lemma {:induction false} LaunchesOfAllRegistered<H>(handlers: map<CommandName, H>, cmds: seq<Command>)
    requires forall i :: 0 <= i < |cmds| ==> cmds[i].Name() in handlers
    ensures |LaunchesOf(handlers, cmds)| == |cmds|
    ensures forall i :: 0 <= i < |cmds| ==>
      LaunchesOf(handlers, cmds)[i] == Launch(handlers[cmds[i].Name()], cmds[i])
    decreases |cmds|
  {
    if cmds != [] {
      LaunchesOfAllRegistered(handlers, cmds[1..]);
      var rest := LaunchesOf(handlers, cmds[1..]);
      assert LaunchesOf(handlers, cmds) == [Launch(handlers[cmds[0].Name()], cmds[0])] + rest;
      forall i | 1 <= i < |cmds|
        ensures LaunchesOf(handlers, cmds)[i] == Launch(handlers[cmds[i].Name()], cmds[i])
      {
        assert cmds[1..][i - 1] == cmds[i];
      }
    }
  }

  class LocalCommandBus<H> {
    var handlers: map<CommandName, H>
    /** The goroutines `HandleCommand` has started, oldest first. */
    var launched: seq<Launch<H>>

    /** `NewCommandBus`. */
    constructor ()
      ensures handlers == map[] && launched == []
    {
      handlers := map[];
      launched := [];
    }

    /** `RegisterCmdHandler`: a second registration for a name is an error and keeps the
        original handler; otherwise exactly that name gets the handler. */
    method RegisterCmdHandler(name: CommandName, handler: H) returns (o: Outcome)
      modifies this
      ensures name in old(handlers) ==> o == Fail(AlreadyRegistered) && handlers == old(handlers)
      ensures name !in old(handlers) ==> o == Pass && handlers == old(handlers)[name := handler]
      ensures launched == old(launched)
    {
      if name in handlers {
        return Fail(AlreadyRegistered);
      }
      handlers := handlers[name := handler];
      o := Pass;
    }

    /** `HandleCommand`: an unknown name is "command handler not found"; a known name starts
        its handler with `cmd` and answers nil whatever the handler will do. */
    method HandleCommand(cmd: Command) returns (o: Outcome)
      modifies this
      ensures o == Answer(handlers, cmd)
      ensures launched == old(launched) + LaunchesOf(handlers, [cmd])
      ensures handlers == old(handlers)
    {
      assert [cmd][1..] == [];
      if cmd.Name() in handlers {
        launched := launched + [Launch(handlers[cmd.Name()], cmd)];
        o := Pass;
      } else {
        o := Fail(HandlerNotFound);
      }
    }
  }
}
