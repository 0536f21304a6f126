/** The console: registers the commands its loaders discover into one
    sub-command table, injects the shared core and settings into each, and
    dispatches to the command the arguments select. */
module Console {
  import opened Values
  import opened Commands
  import opened Registry
  import opened Loaders
  import opened Dispatch

  /** The configuration section merged into the console's settings. */
  const SettingsKey := "settings"

  /** The settings after the merge: the settings section's entries override
      and extend the current ones; without a section nothing changes. */
  function Updated(entries: map<string, Json>, config: Config): (r: map<string, Json>)
    ensures SettingsKey !in config ==> r == entries
    ensures SettingsKey in config ==> r.Keys == entries.Keys + config[SettingsKey].Keys
    ensures SettingsKey in config ==> forall k | k in r ::
      r[k] == if k in config[SettingsKey] then config[SettingsKey][k] else entries[k]
  {
    if SettingsKey in config then entries + config[SettingsKey] else entries
  }

  class Console {
    const name: string
    const core: Core
    const config: Config
    const loaders: seq<Loader>
    const settings: Settings

    /** Every registered identifier and the command it runs. */
    var commands: map<string, Command>
    /** The argument parser's sub-command table. */
    var parsers: Table

    /** Positions of the loaders whose `all` was invoked, in order. */
    ghost var consulted: seq<nat>
    /** Whether the arguments have been parsed. */
    ghost var parsed: bool

    /** The sub-command table and the command table agree, and every
        registered command holds this console's core and its settings
        object. */
    ghost predicate Valid()
      reads this, commands.Values
    {
      && commands.Keys == parsers.Keys
      && (forall k | k in commands :: parsers[k].command == commands[k])
      && (forall k | k in commands :: commands[k].core == core && commands[k].settings == settings)
    }

    constructor (name: string, core: Core, config: Config, loaders: seq<Loader>)
      ensures this.name == name && this.core == core && this.config == config && this.loaders == loaders
      ensures fresh(settings) && settings.entries == map[]
      ensures commands == map[] && parsers == map[] && consulted == [] && !parsed
      ensures Valid()
    {
      this.name := name;
      this.core := core;
      this.config := config;
      this.loaders := loaders;
      commands := map[];
      settings := new Settings();
      parsers := map[];
      consulted := [];
      parsed := false;
    }

    /** Adds one sub-command entry and injects the runtime context into its
        command. The command's own `define` is not part of this model. */
    method AddParser(identifier: string, help: string, command: Command)
      requires Valid()
      modifies this`commands, this`parsers, command
      ensures Valid()
      ensures parsers == old(parsers)[identifier := Subparser(help, command)]
      ensures commands == old(commands)[identifier := command]
      ensures command.core == core && command.settings == settings
    {
      parsers := parsers[identifier := Subparser(help, command)];
      command.SetCore(core);
      command.SetSettings(settings);
      commands := commands[identifier := command];
    }

    /** Registers a command under its identifier, then under each alias. */
    method RegisterCommand(identifier: string, kind: Kind, command: Command)
      requires Valid()
      modifies this`commands, this`parsers, command
      ensures Valid()
      ensures parsers == Registered(old(parsers), Triple(identifier, kind, command))
      ensures forall k | k in Keys(Triple(identifier, kind, command)) :: k in commands && commands[k] == command
      ensures forall k | k in old(commands) && k !in Keys(Triple(identifier, kind, command)) ::
        k in commands && commands[k] == old(commands)[k]
      ensures command.core == core && command.settings == settings
    {
      ghost var bs := Bindings(Triple(identifier, kind, command));
      AddParser(identifier, PrimaryHelp(kind), command);
      assert parsers == Apply(old(parsers), bs[..1], command);
      if command.aliases.Some? {
        var aliases := command.aliases.value;
        for j := 0 to |aliases|
          invariant Valid()
          invariant parsers == Apply(old(parsers), bs[..j + 1], command)
        {
          AddParser(aliases[j], AliasHelp(identifier), command);
          assert bs[..j + 2][..j + 1] == bs[..j + 1];
        }
      }
      assert bs[..|bs|] == bs;
      BindingsCoverKeys(Triple(identifier, kind, command));
    }

    /** Merges the configuration's settings section into the settings
        object; a missing section is not an error. */
    method MergeSettings()
      modifies settings
      ensures settings.entries == Updated(old(settings.entries), config)
    {
      if SettingsKey in config {
        settings.entries := settings.entries + config[SettingsKey];
      }
    }

    /** Registers the triples one loader yields, in the order it yields them. */
    method RegisterYielded(yielded: seq<Triple>)
      requires Valid()
      modifies this`commands, this`parsers, Instances(yielded)
      ensures Valid()
      ensures parsers == RegisterAll(old(parsers), yielded)
    {
      for j := 0 to |yielded|
        invariant Valid()
        invariant parsers == RegisterAll(old(parsers), yielded[..j])
      {
        var t := yielded[j];
        assert t.command in Instances(yielded);
        RegisterCommand(t.identifier, t.kind, t.command);
        assert yielded[..j + 1][..j] == yielded[..j];
      }
      assert yielded[..|yielded|] == yielded;
    }

    /** One step of the loader walk: the loader at position i is skipped
        when its section is absent; otherwise its `all` is invoked on the
        section and everything it yields is registered. */
    method Load(i: nat)
      requires i < |loaders|
      requires Valid()
      modifies this`commands, this`parsers, this`consulted, Instances(Discover(config, loaders))
      ensures Valid()
      ensures parsers == RegisterAll(old(parsers), Yield(config, loaders[i]))
      ensures consulted == old(consulted) + (if loaders[i].section in config then [i] else [])
    {
      var loader := loaders[i];
      if loader.section in config {
        consulted := consulted + [i];
        var yielded := loader.all(config[loader.section]);
        YieldedAreDiscovered(config, loaders, i);
        RegisterYielded(yielded);
      }
    }

    /** Walks the loaders in list order, registering what each yields. */
    method LoadAll()
      requires Valid()
      modifies this`commands, this`parsers, this`consulted, Instances(Discover(config, loaders))
      ensures Valid()
      ensures parsers == Walk(old(parsers), config, loaders)
      ensures consulted == old(consulted) + Consulted(config, loaders)
    {
      ghost var base, before := parsers, consulted;
      var i := 0;
      while i < |loaders|
        invariant i <= |loaders|
        invariant Valid()
        invariant parsers == Walk(base, config, loaders[..i])
        invariant consulted == before + Consulted(config, loaders[..i])
      {
        WalkStep(base, config, loaders, i);
        ConsultedStep(config, loaders, i);
        Load(i);
        i := i + 1;
      }
      assert loaders[..i] == loaders;
    }

    /** One dispatch cycle: merge the settings section, discover and
        register the loaders' commands, then stop if nothing was
        registered, or parse the arguments and run the selected command. */
    method Activate(selected: Option<string>, executed: ExecResult) returns (outcome: Outcome)
      requires Valid()
      modifies this`commands, this`parsers, this`consulted, this`parsed, settings
      modifies Instances(Discover(config, loaders))
      ensures Valid()
      ensures settings.entries == Updated(old(settings.entries), config)
      ensures parsers == Walk(old(parsers), config, loaders)
      ensures consulted == old(consulted) + Consulted(config, loaders)
      ensures commands == map[] ==> parsed == old(parsed)
      ensures commands != map[] ==> parsed
      ensures outcome == Decide(parsers, selected, executed)
    {
      MergeSettings();
      LoadAll();

      if commands == map[] {
        // "No commands available", exit status 15
        outcome := NoCommands;
        return;
      }

      parsed := true;
      match selected {
        case None =>
          // help is printed, exit status 15
          outcome := NoSubcommand;
        case Some(identifier) =>
          if identifier !in parsers {
            outcome := Rejected;
          } else {
            var command := parsers[identifier].command;
            match executed {
              case Completed =>
                outcome := Ran(command);
              case KeyboardInterrupt =>
                // exit status 15
                outcome := Interrupted(command);
              case Raised =>
                outcome := Failed(command);
            }
          }
      }
    }
  }
}
