/**
 * The sequential steps of the entry script: deciding at startup whether the
 * platform's command list must be replaced, and one step of the command-handling
 * loop with its set of running handlers.
 */
module Startup {
  import opened Wrappers
  import opened Commands

  /** The two listings disagree, in name or description, at an index both of them have. */
  predicate Differs(remote: seq<CommandSpec>, local: seq<CommandSpec>)
  {
    exists i :: 0 <= i < |remote| && i < |local| && remote[i] != local[i]
  }

  /**
   * The comparison loop over `zip(remote, local)`: the number of `set_commands()`
   * calls it appends to `tasks`. A failed `getMyCommands` request yields `None`,
   * and zipping it raises `TypeError`.
   */
  method SyncCommands(remote: Option<seq<CommandSpec>>, local: seq<CommandSpec>) returns (r: Result<nat>)
    ensures remote.None? <==> r == Err(TypeError)
    ensures r.Ok? ==> r.value <= 1
    ensures r.Ok? ==> (r.value == 1 <==> Differs(remote.value, local))
  {
    if remote.None? {
      return Err(TypeError);
    }
    var cmds := remote.value;
    var scheduled := 0;
    var i := 0;
    while i < |cmds| && i < |local|
      invariant i <= |cmds| && i <= |local|
      invariant forall j :: 0 <= j < i ==> cmds[j] == local[j]
    {
      if cmds[i].command != local[i].command {
        scheduled := scheduled + 1;
        break;
      }
      if cmds[i].description != local[i].description {
        scheduled := scheduled + 1;
        break;
      }
      i := i + 1;
    }
    r := Ok(scheduled);
  }

  /** `zip` stops at the shorter list: extra commands on either side never trigger a sync. */
  lemma LengthAloneDoesNotSync(common: seq<CommandSpec>, extra: seq<CommandSpec>)
    ensures !Differs(common + extra, common) && !Differs(common, common + extra)
  {
    forall i | 0 <= i < |common|
      ensures (common + extra)[i] == common[i]
    {
    }
  }

  /** The set of running command handlers of `handle_cmds`. */
  class CommandHandlers {
    var handlers: set<TaskId>

    constructor ()
      ensures handlers == {}
    {
      handlers := {};
    }

    /**
     * One iteration for a dequeued `(chat, cmd, params)`: an unknown command is skipped
     * (`Ok(false)`), a command without callback raises `TypeError` on the call, and
     * otherwise the task the call created joins `handlers` (`Ok(true)`).
     */
    method HandleCommand(registry: CommandRegistry, cmd: string, task: TaskId) returns (r: Result<bool>)
      modifies this
      ensures cmd !in registry.commands ==> r == Ok(false) && handlers == old(handlers)
      ensures cmd in registry.commands && registry.commands[cmd].callback.None? ==>
        r == Err(TypeError) && handlers == old(handlers)
      ensures cmd in registry.commands && registry.commands[cmd].callback.Some? ==>
        r == Ok(true) && handlers == old(handlers) + {task}
    {
      if cmd !in registry.commands {
        return Ok(false);
      }
      if registry.commands[cmd].callback.None? {
        return Err(TypeError);
      }
      handlers := handlers + {task};
      r := Ok(true);
    }

    /** The done-callback `handlers.discard`. */
    method HandlerDone(task: TaskId)
      modifies this
      ensures handlers == old(handlers) - {task}
    {
      handlers := handlers - {task};
    }
  }
}
