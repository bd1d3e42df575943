/** The command prototype registry (evol.go): one prototype per command name, used to
    materialise typed commands from decoded wire data. `SendCommand`, which forwards to the
    global command bus, is modelled with that bus in module Application. */
module CommandRegistry {
  import opened Wrappers
  import opened DomainCommands

  class CommandRegistry {
    var cmds: map<CommandName, Command>

    constructor ()
      ensures cmds == map[]
    {
      cmds := map[];
    }

    /** `RegisterCommand`: a name already present is an error and changes nothing;
        otherwise the prototype is stored under its own name. */
    method RegisterCommand(cmd: Command) returns (o: Outcome)
      modifies this
      ensures cmd.Name() in old(cmds) ==>
        o == Fail(Msg("command already registered")) && cmds == old(cmds)
      ensures cmd.Name() !in old(cmds) ==> o == Pass && cmds == old(cmds)[cmd.Name() := cmd]
    {
      if cmd.Name() in cmds {
        return Fail(Msg("command already registered"));
      }
      cmds := cmds[cmd.Name() := cmd];
      o := Pass;
    }

    /** `NewCommand(name)`: the prototype registered under `name`, or nil. */
    function NewCommand(name: CommandName): (r: Option<Command>)
      reads this
      ensures r.Some? <==> name in cmds
      ensures r.Some? ==> r.value == cmds[name]
      ensures r.Some? && ValidNames() ==> r.value.Name() == name
    {
      if name in cmds then Some(cmds[name]) else None
    }

    /** Every prototype is stored under its own name, as `RegisterCommand` stores them. */
    ghost predicate ValidNames()
      reads this
    {
      forall n :: n in cmds ==> cmds[n].Name() == n
    }

    /** `GetAllCmds`: a fresh map with exactly the registry's entries, copied one by one.
        Dafny maps are values, so changing the copy cannot reach the registry. */
    method GetAllCmds() returns (mapCopy: map<CommandName, Command>)
      ensures mapCopy == cmds
    {
      mapCopy := map[];
      var rest := cmds.Keys;
      while rest != {}
        invariant rest <= cmds.Keys
        invariant mapCopy.Keys == cmds.Keys - rest
        invariant forall n :: n in mapCopy ==> mapCopy[n] == cmds[n]
        decreases rest
      {
        var n :| n in rest;
        mapCopy := mapCopy[n := cmds[n]];
        rest := rest - {n};
      }
    }
  }
}
