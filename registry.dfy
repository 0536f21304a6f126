/** The sub-command table the console builds, as a value: what one
    registration adds to it and what a sequence of registrations leaves. */
module Registry {
  import opened Commands

  /** One entry of the sub-command table: the help text shown for an
      identifier and the command whose `execute` is bound to it. */
  datatype Subparser = Subparser(help: string, command: Command)

  type Table = map<string, Subparser>

  /** One identifier to add to the table, with its help text. */
  datatype Binding = Binding(identifier: string, help: string)

  /** What a loader yields for one command: (identifier, kind, command). */
  datatype Triple = Triple(identifier: string, kind: Kind, command: Command)

  /** Help text of a primary entry: the short description, or a pointer to
      the implementing class when the description is empty. */
  function PrimaryHelp(kind: Kind): string
  {
    if kind.shortDescription != "" then kind.shortDescription
    else "(See " + kind.moduleName + "." + kind.className + ")"
  }

  /** Help text of an alias entry. */
  function AliasHelp(identifier: string): string
  {
    "Alias to \"" + identifier + "\""
  }

  /** The bindings that registering each alias adds, in alias order. */
  function AliasBindings(identifier: string, aliases: seq<string>): seq<Binding>
  {
    seq(|aliases|, j requires 0 <= j < |aliases| => Binding(aliases[j], AliasHelp(identifier)))
  }

  /** The bindings one registration performs, in order: the primary
      identifier first, then every alias. */
  function Bindings(t: Triple): seq<Binding>
  {
    [Binding(t.identifier, PrimaryHelp(t.kind))] + AliasBindings(t.identifier, t.command.AliasList())
  }

  function Identifiers(bs: seq<Binding>): set<string>
  {
    set j | 0 <= j < |bs| :: bs[j].identifier
  }

  /** The identifiers a registration claims: the primary one and every alias. */
  function Keys(t: Triple): set<string>
  {
    {t.identifier} + set a | a in t.command.AliasList()
  }

  lemma IdentifiersSnoc(bs: seq<Binding>)
    requires bs != []
    ensures Identifiers(bs) == Identifiers(bs[..|bs| - 1]) + {bs[|bs| - 1].identifier}
  {
    var front := bs[..|bs| - 1];
    forall k | k in Identifiers(front) ensures k in Identifiers(bs) {
      var j :| 0 <= j < |front| && front[j].identifier == k;
      assert bs[j].identifier == k;
    }
    forall k | k in Identifiers(bs) && k != bs[|bs| - 1].identifier ensures k in Identifiers(front) {
      var j :| 0 <= j < |bs| && bs[j].identifier == k;
      assert front[j].identifier == k;
    }
  }

  /** Adds the bindings one after another, each binding the command;
      a later binding of an identifier replaces an earlier one. */
  function Apply(table: Table, bs: seq<Binding>, command: Command): (r: Table)
    ensures r.Keys == table.Keys + Identifiers(bs)
    ensures forall k | k in Identifiers(bs) :: r[k].command == command
    ensures forall k | k in table && k !in Identifiers(bs) :: r[k] == table[k]
    decreases |bs|
  {
    if bs == [] then table
    else
      var b := bs[|bs| - 1];
      IdentifiersSnoc(bs);
      Apply(table, bs[..|bs| - 1], command)[b.identifier := Subparser(b.help, command)]
  }

  /** The table after one registration (primary identifier, then aliases). */
  function Registered(table: Table, t: Triple): Table
  {
    Apply(table, Bindings(t), t.command)
  }

  /** The table after registering the triples in order. */
  function RegisterAll(table: Table, ts: seq<Triple>): Table
    decreases |ts|
  {
    if ts == [] then table
    else Registered(RegisterAll(table, ts[..|ts| - 1]), ts[|ts| - 1])
  }

  lemma BindingsCoverKeys(t: Triple)
    ensures Identifiers(Bindings(t)) == Keys(t)
  {
    var bs := Bindings(t);
    var aliases := t.command.AliasList();
    forall k | k in Keys(t) ensures k in Identifiers(bs) {
      if k != t.identifier {
        var j :| 0 <= j < |aliases| && aliases[j] == k;
        assert bs[j + 1].identifier == k;
      } else {
        assert bs[0].identifier == k;
      }
    }
    forall k | k in Identifiers(bs) ensures k in Keys(t) {
      var j :| 0 <= j < |bs| && bs[j].identifier == k;
      if j > 0 {
        assert aliases[j - 1] == k;
      }
    }
  }

  /** Adding two runs of bindings is adding the first, then the second. */
  lemma {:induction false} ApplyAppend(table: Table, a: seq<Binding>, b: seq<Binding>, command: Command)
    ensures Apply(table, a + b, command) == Apply(Apply(table, a, command), b, command)
    decreases |b|
  {
    if b != [] {
      assert (a + b)[..|a + b| - 1] == a + b[..|b| - 1];
      ApplyAppend(table, a, b[..|b| - 1], command);
    } else {
      assert a + b == a;
    }
  }

  /** When every binding of k carries the same help text h, the entry for k
      is h bound to the command, whatever k held before. */
  lemma {:induction false} ApplyUniform(table: Table, bs: seq<Binding>, command: Command, k: string, h: string)
    requires k in Identifiers(bs)
    requires forall j | 0 <= j < |bs| && bs[j].identifier == k :: bs[j].help == h
    ensures Apply(table, bs, command)[k] == Subparser(h, command)
    decreases |bs|
  {
    var b := bs[|bs| - 1];
    var front := bs[..|bs| - 1];
    IdentifiersSnoc(bs);
    if b.identifier != k {
      assert k in Identifiers(front);
      ApplyUniform(table, front, command, k, h);
    }
  }

  /** What one registration leaves in the table: every alias maps to the
      command with help `Alias to "<identifier>"`; the identifier maps to the
      command with its primary help, unless the identifier is also one of
      its own aliases, in which case the later alias entry replaced it; no
      other identifier changes. */
  lemma RegisteredEntries(table: Table, t: Triple)
    ensures Registered(table, t).Keys == table.Keys + Keys(t)
    ensures t.identifier in Registered(table, t)
    ensures Registered(table, t)[t.identifier] ==
      Subparser(if t.identifier in t.command.AliasList() then AliasHelp(t.identifier) else PrimaryHelp(t.kind), t.command)
    ensures forall a | a in t.command.AliasList() :: a in Registered(table, t) && Registered(table, t)[a] == Subparser(AliasHelp(t.identifier), t.command)
    ensures forall k | k in table && k !in Keys(t) :: Registered(table, t)[k] == table[k]
  {
    BindingsCoverKeys(t);
    var aliases := t.command.AliasList();
    var primary := [Binding(t.identifier, PrimaryHelp(t.kind))];
    var rest := AliasBindings(t.identifier, aliases);
    var first := Apply(table, primary, t.command);
    ApplyAppend(table, primary, rest, t.command);
    forall a | a in aliases
      ensures Apply(first, rest, t.command)[a] == Subparser(AliasHelp(t.identifier), t.command)
    {
      var j :| 0 <= j < |aliases| && aliases[j] == a;
      assert rest[j].identifier == a;
      ApplyUniform(first, rest, t.command, a, AliasHelp(t.identifier));
    }
    if t.identifier !in aliases {
      assert t.identifier !in Identifiers(rest);
      assert first[t.identifier] == Subparser(PrimaryHelp(t.kind), t.command);
    }
  }

  /** Registering two runs of triples is registering the first, then the second. */
  lemma {:induction false} RegisterAllAppend(table: Table, a: seq<Triple>, b: seq<Triple>)
    ensures RegisterAll(table, a + b) == RegisterAll(RegisterAll(table, a), b)
    decreases |b|
  {
    if b != [] {
      assert (a + b)[..|a + b| - 1] == a + b[..|b| - 1];
      RegisterAllAppend(table, a, b[..|b| - 1]);
    } else {
      assert a + b == a;
    }
  }

  /** Last writer wins: an identifier resolves to the command of the last
      registration that claims it, as primary identifier or alias. */
  lemma {:induction false} LastWriterWins(table: Table, ts: seq<Triple>, i: nat, k: string)
    requires i < |ts| && k in Keys(ts[i])
    requires forall j | i < j < |ts| :: k !in Keys(ts[j])
    ensures k in RegisterAll(table, ts) && RegisterAll(table, ts)[k].command == ts[i].command
    decreases |ts|
  {
    var last := ts[|ts| - 1];
    var front := ts[..|ts| - 1];
    BindingsCoverKeys(last);
    if i < |ts| - 1 {
      LastWriterWins(table, front, i, k);
    }
  }

  /** An identifier that no registration claims keeps whatever it had. */
  lemma {:induction false} RegisterAllUntouched(table: Table, ts: seq<Triple>, k: string)
    requires forall j | 0 <= j < |ts| :: k !in Keys(ts[j])
    ensures k in RegisterAll(table, ts) <==> k in table
    ensures k in table ==> RegisterAll(table, ts)[k] == table[k]
    decreases |ts|
  {
    if ts != [] {
      var last := ts[|ts| - 1];
      BindingsCoverKeys(last);
      RegisterAllUntouched(table, ts[..|ts| - 1], k);
    }
  }

  /** Registration only adds identifiers, and every registration adds at
      least its primary one: the table is empty afterwards exactly when it
      was empty before and nothing was registered. */
  lemma {:induction false} RegisterAllEmpty(table: Table, ts: seq<Triple>)
    ensures table.Keys <= RegisterAll(table, ts).Keys
    ensures RegisterAll(table, ts) == map[] <==> table == map[] && ts == []
    decreases |ts|
  {
    if ts != [] {
      var last := ts[|ts| - 1];
      BindingsCoverKeys(last);
      RegisterAllEmpty(table, ts[..|ts| - 1]);
      assert last.identifier in RegisterAll(table, ts);
    }
  }
}
