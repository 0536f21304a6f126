/** Whole dispatch cycles on small configurations: one loader keyed to the
    "tools" section yielding a "build" command aliased "b". */
module Scenarios {
  import opened Values
  import opened Commands
  import opened Registry
  import opened Loaders
  import opened Dispatch
  import opened Console

  /** {"settings": {"verbose": true}, "tools": {"build": {}}} */
  function ToolsConfig(): Config
  {
    map[SettingsKey := map["verbose" := Bool(true)], "tools" := map["build" := Object(map[])]]
  }

  function BuildKind(): Kind
  {
    Kind("tools.build", "Build", "Builds the project.")
  }

  /** A loader keyed to `section` whose `all` yields ("build", kind, command). */
  function BuildLoader(section: string, command: Command): Loader
  {
    Loader(section, _ => [Triple("build", BuildKind(), command)])
  }

  /** The tools loader is consulted and yields the build command alone. */
  lemma ToolsDiscovery(command: Command)
    ensures Discover(ToolsConfig(), [BuildLoader("tools", command)]) == [Triple("build", BuildKind(), command)]
    ensures Instances(Discover(ToolsConfig(), [BuildLoader("tools", command)])) == {command}
  {
    var t := Triple("build", BuildKind(), command);
    assert [BuildLoader("tools", command)][..0] == [];
    assert Discover(ToolsConfig(), [BuildLoader("tools", command)]) == [t];
    assert [t][0].command == command;
  }

  /** The table a fresh console builds from the tools configuration: the
      build command under "build" with its description and under "b" as
      its alias. */
  lemma ToolsTable(command: Command)
    requires command.aliases == Some(["b"])
    ensures Walk(map[], ToolsConfig(), [BuildLoader("tools", command)]) ==
      map["build" := Subparser("Builds the project.", command), "b" := Subparser("Alias to \"build\"", command)]
  {
    var tools := BuildLoader("tools", command);
    var t := Triple("build", BuildKind(), command);
    ToolsDiscovery(command);
    WalkRegistersDiscovery(map[], ToolsConfig(), [tools]);
    assert RegisterAll(map[], [t]) == Registered(map[], t);
    RegisteredEntries(map[], t);
    assert Keys(t) == {"build", "b"};
    var r := Registered(map[], t);
    var expected := map["build" := Subparser("Builds the project.", command), "b" := Subparser("Alias to \"build\"", command)];
    assert "build" !in command.AliasList();
    assert r.Keys == expected.Keys;
    assert r["build"] == expected["build"] && r["b"] == expected["b"];
  }

  /** Runs a fresh console over the tools configuration, with `selected`
      as the sub-command the arguments name. */
  method RunTools(selected: Option<string>) returns (outcome: Outcome, console: Console, command: Command)
    ensures console.Valid()
    ensures command.aliases == Some(["b"])
    ensures console.parsers ==
      map["build" := Subparser("Builds the project.", command), "b" := Subparser("Alias to \"build\"", command)]
    ensures console.settings.entries == map["verbose" := Bool(true)]
    ensures outcome == Decide(console.parsers, selected, Completed)
  {
    var core := new Core();
    command := new Command(Some(["b"]));
    var tools := BuildLoader("tools", command);
    console := new Console("app", core, ToolsConfig(), [tools]);
    ToolsDiscovery(command);
    ToolsTable(command);
    assert Updated(map[], ToolsConfig()) == map["verbose" := Bool(true)];
    outcome := console.Activate(selected, Completed);
  }

  /** Arguments ["b"]: the alias runs the build command, which holds the
      core and the merged settings {"verbose": true}. */
  method AliasRuns() returns (outcome: Outcome, command: Command)
    ensures outcome == Ran(command)
    ensures command.core != null && command.settings != null
    ensures command.settings.entries == map["verbose" := Bool(true)]
  {
    var console;
    outcome, console, command := RunTools(Some("b"));
    assert "b" in console.commands;
  }

  /** Arguments []: no sub-command is bound; the reserved status. */
  method NoArgumentsPrintsHelp() returns (outcome: Outcome)
    ensures outcome == NoSubcommand && ExitCode(outcome) == Some(ReservedExit)
  {
    var console, command;
    outcome, console, command := RunTools(None);
    assert "build" in console.parsers;
  }

  /** Arguments ["unknown"]: the argument parser refuses the sub-command. */
  method UnknownIsRejected() returns (outcome: Outcome)
    ensures outcome == Rejected
  {
    var console, command;
    outcome, console, command := RunTools(Some("unknown"));
    assert "build" in console.parsers;
  }

  /** The only loader is keyed to the absent section "missing": its `all`
      is never invoked, nothing is registered, the arguments are never
      parsed and the run ends with the reserved status. */
  method MissingSectionRunsNothing() returns (outcome: Outcome, console: Console)
    ensures console.consulted == [] && !console.parsed && console.commands == map[]
    ensures outcome == NoCommands && ExitCode(outcome) == Some(ReservedExit)
  {
    var core := new Core();
    var command := new Command(None);
    var missing := BuildLoader("missing", command);
    console := new Console("app", core, ToolsConfig(), [missing]);
    assert [missing][..0] == [];
    assert Discover(ToolsConfig(), [missing]) == [];
    WalkRegistersDiscovery(map[], ToolsConfig(), [missing]);
    outcome := console.Activate(Some("build"), Completed);
  }
}
