# Gallium console: registration and dispatch

This project models the core of Gallium's `Console` (`gallium/console.py`). The
console is the entry point of a command-line tool. When it starts, it does three things:

1. It merges the `settings` section of its configuration into a settings
   dictionary that all commands share.
2. It walks its loaders in list order. A loader whose configuration section is
   absent is skipped. Every other loader is asked for `(identifier, kind, command)`
   triples, and each triple is registered as a sub-command under its identifier
   and under every alias the command declares.
3. It decides how the run ends. The console exits with the reserved status 15 in
   three cases: nothing was registered (checked before the arguments are parsed),
   the arguments name no sub-command, or the command is interrupted from the
   keyboard. In every other case the selected command runs.

The model is split into modules:

- `Values` holds the JSON-like configuration values.
- `Commands` holds the `Core`, the shared `Settings` object and the `Command`
  instances. Registration injects the core and the settings into each command.
- `Registry` models the sub-command table as a value (`map<string, Subparser>`)
  and defines registration as a fold over bindings. It also defines the help texts:
  - a command's own entry is documented by its kind's short description, or by
    `(See <module>.<class>)` when there is none;
  - an alias entry is documented by `Alias to "<identifier>"`.
- `Loaders` defines discovery (the concatenation of what consulted loaders yield)
  and the loader walk. The walk is the table the loader loop builds.
- `Dispatch` defines the end of a run (`Decide`) and the exit status the console
  chooses itself (`ExitCode`).
- `Console` is the imperative class. Its fields are the ones the source updates
  in place. Its methods are proved against the functions above. The invariant
  `Valid` ties together the command dictionary and the parser table, and states
  that every registered command holds this console's core and this console's
  settings object.
- `Scenarios` are small concrete runs. One is a tool with a `build` command
  aliased to `b`. Another is a configuration whose loader section is missing.

Settings are a shared, mutable dictionary in the source. Each command keeps a
reference to it, so it is a class (`Settings`), and "the same settings"
means the same reference. The sub-command that the argument parser selects
(`selected`) and what the command's `execute` does (`executed`) are parameters of
`Activate`.

Where the code and its design notes differ, the model follows the code:

- Core and settings are injected again on every alias registration (line 112-113
  run once per identifier). The values are always the same ones.
- A sub-command name that is not registered is refused by the argument parser
  itself (`Rejected`). It does not lead to the reserved status 15.
- A missing `settings` section leaves the settings object as it was. That
  object is empty only for a newly built console.
- When a command lists its own identifier among its aliases, the later alias
  entry replaces the primary help text (`Registry.RegisteredEntries`).

## Model

| member | source | states |
|---|---|---|
| Console.Updated | gallium/console.py:45-48 | The merged settings are the old entries overridden key by key by the `settings` section, like `dict.update`. A missing section leaves them unchanged. |
| Console.Console.constructor | gallium/console.py:24-37 | A new console keeps its name, core, configuration and loaders, has a fresh and empty settings object and empty tables, and satisfies the invariant. |
| Console.Console.AddParser | gallium/console.py:107-115 | One entry is inserted under the identifier with the given help and the command, overwriting any earlier one. The command now holds this console's core and settings object. The invariant is kept. |
| Console.Console.RegisterCommand | gallium/console.py:85-105 | The table becomes the primary binding followed by one binding per alias, in alias order. The identifier and every alias resolve to this instance. Every other identifier keeps its entry. Core and settings are injected. |
| Console.Console.MergeSettings | gallium/console.py:45-48 | The shared settings object now holds `Updated(old entries, config)`. |
| Console.Console.RegisterYielded | gallium/console.py:58-59 | Registering what one loader yields is the fold of `RegisterCommand` over the triples, in the order they are yielded. The invariant is kept. |
| Console.Console.Load | gallium/console.py:51-59 | One loader step registers what the loader yields, or nothing when its section is absent. It records the loader as consulted only when its section is present. |
| Console.Console.LoadAll | gallium/console.py:50-59 | The loader loop leaves the table equal to `Walk` of the old table over all loaders. Exactly the loaders with a section are consulted, in list order. |
| Console.Console.Activate | gallium/console.py:39-76 | After a run, the settings have been merged and the table is the loader walk. Every command holds the console's core and settings. Arguments are parsed only when something was registered. The outcome is `Decide` on the final table. |
| Registry.Apply | gallium/console.py:107-115 | Applying bindings adds exactly their identifiers to the table. Each of them maps to the command. All other entries are unchanged. |
| Registry.RegisteredEntries | gallium/console.py:85-105 | After one registration, the keys are the old ones plus the identifier and aliases. Each alias maps to the instance with help `Alias to "<id>"`. The identifier maps to the instance with the short description or `(See mod.class)`, unless it is one of its own aliases. Other keys are unchanged. |
| Registry.ApplyAppend | gallium/console.py:99-105 | Applying two runs of bindings is applying the first, then the second. |
| Registry.RegisterAllAppend | gallium/console.py:50-59 | Registering two runs of triples is registering the first, then the second. |
| Registry.LastWriterWins | gallium/console.py:115 | An identifier resolves to the command of the last registration that claims it, as a primary identifier or as an alias. |
| Registry.RegisterAllUntouched | gallium/console.py:107-115 | An identifier that no registration claims is present afterwards exactly when it was present before, with the same entry. |
| Registry.RegisterAllEmpty | gallium/console.py:58-61 | Registration never removes identifiers. The table is empty afterwards exactly when it was empty before and nothing was registered. |
| Loaders.ConsultedExactly | gallium/console.py:50-56 | A loader is consulted exactly when its section is in the configuration. Loaders are consulted in strictly increasing list order. |
| Loaders.WalkRegistersDiscovery | gallium/console.py:50-59 | The loader walk equals registering, in one fold, everything discovery yields across all loaders. |
| Loaders.DiscoverAppend | gallium/console.py:50-59 | Discovery over two runs of loaders is the concatenation of the two discoveries. |
| Loaders.YieldedAreDiscovered | gallium/console.py:58 | Every command instance a loader yields is among the instances discovery hands over. |
| Loaders.SkippedLoaderIsInvisible | gallium/console.py:53-56 | A loader whose section is absent is never consulted, so its `all` is never invoked. Removing it from the list changes nothing that is discovered. |
| Loaders.LoadersInOrder | gallium/console.py:50-59 | Registering what a list of loaders yields is registering the first part's yield, then the second part's. |
| Loaders.NothingDiscovered | gallium/console.py:50-61 | Nothing is discovered exactly when every loader with a section yields nothing for it. |
| Dispatch.ExitCode | gallium/console.py:61-76 | The console chooses an exit status only for no commands, no sub-command and a keyboard interrupt, and that status is 15. |
| Dispatch.Decide | gallium/console.py:61-76 | A command runs, is interrupted or fails only when a registered identifier is selected. The command involved is that identifier's table entry. |
| Dispatch.ReservedExitCases | gallium/console.py:61-76 | The run ends with 15 exactly when the table is empty, or no sub-command is named, or the named registered command is interrupted. |
| Dispatch.EmptyTableIgnoresArguments | gallium/console.py:61-66 | With nothing registered, the outcome is "no commands" whatever the arguments and the commands would do. The run stops before parsing. |
| Dispatch.AliasesRouteToSameInstance | gallium/console.py:68-74 | Selecting the identifier or any alias of the last registration claiming it dispatches to that same instance. |
| Scenarios.ToolsDiscovery | gallium/console.py:50-59 | A configuration with a `tools` section and one loader for it discovers exactly the `build` triple. |
| Scenarios.ToolsTable | gallium/console.py:85-115 | With that one loader, the table is `build` with its short description plus `b` with `Alias to "build"`. Both point to the same instance. |
| Scenarios.AliasRuns | gallium/console.py:39-76 | Running the tool with the alias `b` runs the `build` instance, and the shared settings hold the configured `verbose` entry. |
| Scenarios.NoArgumentsPrintsHelp | gallium/console.py:66-71 | Running the tool with no sub-command ends with "no sub-command" and status 15. |
| Scenarios.UnknownIsRejected | gallium/console.py:66 | Naming an unregistered sub-command is refused by the argument parser. |
| Scenarios.MissingSectionRunsNothing | gallium/console.py:50-64 | When the loader's section is missing, the loader is not consulted and nothing is registered. The arguments are never parsed, and the run ends with "no commands" and status 15. |

## Left out

- Reading `config_path` and merging the file into the configuration (lines 29-31). This is file I/O, so the configuration is passed in already complete.
- The extension hook `activate(core, config)` (line 33). It lives in another module and does not touch the console's tables. `gallium/ext` is not part of this model.
- The default `Core()` when no core is given (line 26). A core is always passed in.
- Mutable default arguments shared between consoles (line 24). Each console here gets its own configuration value and loader list.
- Argument parsing itself: the `ArgumentParser`, `--process-debug` (lines 78-83), `parse_args`, `print_help` and `set_defaults(func=...)`. Parsing is reduced to the selected sub-command name, and the help output is reduced to the outcome value.
- The argument parser's own exit status when it refuses a sub-command name. It is outside the console, so `ExitCode` gives no status for `Rejected`.
- Whether a given argument-parser version refuses a repeated sub-command name. The model follows the console's dictionary, where the last writer wins.
- `command.define(parser)` (line 111) and the body of `execute`. These are command code that is not part of this model. What `execute` does is the `executed` parameter.
- `Reflector.short_description` (line 91). The docstring parsing is not modelled. The result is the kind's `shortDescription`, and an empty string stands for no description.
- `gallium/interface.py` is not part of this model. `set_core` and `set_settings` are modelled as plain field assignments (`Commands.Command.SetCore`, `Commands.Command.SetSettings`).
- A `settings` section that is not a mapping, which would make `dict.update` raise. Sections are mappings by type here.
- Exceptions raised by a loader's `configuration_section_name` or `all`. Loaders are total functions here.
- Lazy generators. `loader.all` may interleave its work with registration. Here it yields a finished sequence before registration starts.
- `print` and `sys.exit`. These are modelled as `Outcome` values and `ExitCode`. Exceptions other than `KeyboardInterrupt` inside `execute` propagate, which is `Failed`.
