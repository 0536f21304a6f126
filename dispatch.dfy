/** The last phase of a dispatch cycle: from the registered table, the
    parsed arguments and what the selected command's `execute` did, to the
    outcome of the run. */
module Dispatch {
  import opened Values
  import opened Commands
  import opened Registry

  /** The exit status reserved for "nothing runnable" and for an interrupted
      command. */
  const ReservedExit := 15

  /** What a command's `execute` did: returned, was interrupted by the user,
      or raised anything else. */
  datatype ExecResult = Completed | KeyboardInterrupt | Raised

  datatype Outcome =
    | NoCommands                      // nothing registered; arguments never parsed
    | NoSubcommand                    // the parse bound no command; help printed
    | Rejected                        // the argument parser refused the sub-command
    | Ran(command: Command)           // the selected command's execute returned
    | Interrupted(command: Command)   // a keyboard interrupt inside execute
    | Failed(command: Command)        // any other error inside execute, left to propagate

  /** The exit status the console itself decides, if any: the reserved one
      for its three controlled exits. */
  function ExitCode(o: Outcome): (code: Option<int>)
    ensures code.Some? ==> code.value == ReservedExit
    ensures code.Some? <==> o.NoCommands? || o.NoSubcommand? || o.Interrupted?
  {
    match o
    case NoCommands => Some(ReservedExit)
    case NoSubcommand => Some(ReservedExit)
    case Interrupted(_) => Some(ReservedExit)
    case _ => None
  }

  /** The outcome of a run over a registered table. `selected` is the
      sub-command the arguments name (None when they name none); `executed`
      is what that command's `execute` does when it runs. */
  function Decide(table: Table, selected: Option<string>, executed: ExecResult): (o: Outcome)
    ensures o.Ran? || o.Interrupted? || o.Failed? ==>
      selected.Some? && selected.value in table && o.command == table[selected.value].command
  {
    if table == map[] then NoCommands
    else if selected.None? then NoSubcommand
    else if selected.value !in table then Rejected
    else
      var command := table[selected.value].command;
      match executed
      case Completed => Ran(command)
      case KeyboardInterrupt => Interrupted(command)
      case Raised => Failed(command)
  }

  /** The run ends with the reserved status exactly when nothing was
      registered, when the arguments name no sub-command, or when the named
      command was interrupted. */
  lemma ReservedExitCases(table: Table, selected: Option<string>, executed: ExecResult)
    ensures ExitCode(Decide(table, selected, executed)) == Some(ReservedExit) <==>
      table == map[] || selected.None? ||
      (selected.value in table && executed == KeyboardInterrupt)
  {
  }

  /** With nothing registered the outcome does not depend on the arguments
      or on any command: the run stops before parsing. */
  lemma EmptyTableIgnoresArguments(s1: Option<string>, e1: ExecResult, s2: Option<string>, e2: ExecResult)
    ensures Decide(map[], s1, e1) == Decide(map[], s2, e2) == NoCommands
  {
  }

  /** Selecting the primary identifier or any alias of the last command
      registered under it runs that same instance. */
  lemma AliasesRouteToSameInstance(table: Table, ts: seq<Triple>, i: nat, k: string, executed: ExecResult)
    requires i < |ts| && k in Keys(ts[i])
    requires forall j | i < j < |ts| :: k !in Keys(ts[j])
    ensures var o := Decide(RegisterAll(table, ts), Some(k), executed);
      (o.Ran? || o.Interrupted? || o.Failed?) && o.command == ts[i].command
  {
    LastWriterWins(table, ts, i, k);
  }
}
