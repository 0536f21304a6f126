/** The objects the console wires together: the shared core, the shared
    settings dictionary and the commands loaders produce. */
module Commands {
  import opened Values

  /** The core service handle shared by every command; its services are not
      part of this model, only its identity matters. */
  class Core {
    constructor ()
    {
    }
  }

  /** The console's settings dictionary: one mutable object that every
      registered command is handed by reference. */
  class Settings {
    var entries: map<string, Json>

    constructor ()
      ensures entries == map[]
    {
      entries := map[];
    }
  }

  /** The class a loader reports for a command: the module and name it is
      declared under, and the short description its docstring yields
      ("" when the docstring yields none). */
  datatype Kind = Kind(moduleName: string, className: string, shortDescription: string)

  /** A command instance. Its own logic (`define`, `execute`) is opaque; what
      the console relies on is its optional alias property and the two
      injection points for the core and the settings. */
  class Command {
    /** The alias property: None when the command does not have one. */
    const aliases: Option<seq<string>>
    var core: Core?
    var settings: Settings?

    constructor (aliases: Option<seq<string>>)
      ensures this.aliases == aliases && core == null && settings == null
    {
      this.aliases := aliases;
      core := null;
      settings := null;
    }

    /** The aliases iterated at registration; none without the property. */
    function AliasList(): seq<string>
    {
      if aliases.Some? then aliases.value else []
    }

    method SetCore(core: Core)
      modifies this`core
      ensures this.core == core
    {
      this.core := core;
    }

    method SetSettings(settings: Settings)
      modifies this`settings
      ensures this.settings == settings
    {
      this.settings := settings;
    }
  }
}
