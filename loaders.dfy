/** Loaders: sources of commands, each keyed by the configuration section
    it reads, and what the console's discovery walk gets out of them. */
module Loaders {
  import opened Values
  import opened Commands
  import opened Registry

  /** A loader: the name of its configuration section and its `all`, which
      turns that section into the triples it yields, in order. */
  datatype Loader = Loader(section: string, all: Section -> seq<Triple>)

  /** What discovery takes from one loader: its yield for its section, or
      nothing when the section is absent. */
  function Yield(config: Config, loader: Loader): seq<Triple>
  {
    if loader.section in config then loader.all(config[loader.section]) else []
  }

  /** The triples discovery registers, in order: each loader in list order
      whose section is present contributes what `all` yields for it; a loader
      without a section contributes nothing. */
  function Discover(config: Config, loaders: seq<Loader>): seq<Triple>
    decreases |loaders|
  {
    if loaders == [] then []
    else
      var last := loaders[|loaders| - 1];
      Discover(config, loaders[..|loaders| - 1]) + Yield(config, last)
  }

  /** The positions of the loaders whose `all` discovery invokes, in the
      order it invokes them. */
  function Consulted(config: Config, loaders: seq<Loader>): seq<nat>
    decreases |loaders|
  {
    if loaders == [] then []
    else
      var n := |loaders| - 1;
      Consulted(config, loaders[..n]) + (if loaders[n].section in config then [n] else [])
  }

  /** Discovery invokes `all` on exactly the loaders whose section is
      present, each once, in list order. */
  lemma {:induction false} ConsultedExactly(config: Config, loaders: seq<Loader>)
    ensures forall i | i in Consulted(config, loaders) :: i < |loaders| && loaders[i].section in config
    ensures forall i | 0 <= i < |loaders| && loaders[i].section in config :: i in Consulted(config, loaders)
    ensures forall p, q | 0 <= p < q < |Consulted(config, loaders)| ::
      Consulted(config, loaders)[p] < Consulted(config, loaders)[q]
    decreases |loaders|
  {
    if loaders != [] {
      var n := |loaders| - 1;
      var front := Consulted(config, loaders[..n]);
      ConsultedExactly(config, loaders[..n]);
      forall p | 0 <= p < |front| ensures front[p] < n {
        assert front[p] in front;
      }
      var r := Consulted(config, loaders);
      assert r == front + (if loaders[n].section in config then [n] else []);
      assert forall p | 0 <= p < |front| :: r[p] == front[p];
      assert forall i | 0 <= i < n :: loaders[..n][i] == loaders[i];
    }
  }

  /** Discovery over one more loader adds that loader's yield. */
  lemma DiscoverStep(config: Config, loaders: seq<Loader>, i: nat)
    requires i < |loaders|
    ensures Discover(config, loaders[..i + 1]) == Discover(config, loaders[..i]) + Yield(config, loaders[i])
  {
    assert loaders[..i + 1][..i] == loaders[..i];
  }

  /** The table after walking the loaders in order, registering each
      one's yield in turn. */
  function Walk(table: Table, config: Config, loaders: seq<Loader>): Table
    decreases |loaders|
  {
    if loaders == [] then table
    else RegisterAll(Walk(table, config, loaders[..|loaders| - 1]), Yield(config, loaders[|loaders| - 1]))
  }

  /** Walking the loaders one by one registers exactly what discovery
      yields over all of them, in order. */
  lemma {:induction false} WalkRegistersDiscovery(table: Table, config: Config, loaders: seq<Loader>)
    ensures Walk(table, config, loaders) == RegisterAll(table, Discover(config, loaders))
    decreases |loaders|
  {
    if loaders != [] {
      var n := |loaders| - 1;
      WalkRegistersDiscovery(table, config, loaders[..n]);
      RegisterAllAppend(table, Discover(config, loaders[..n]), Yield(config, loaders[n]));
    }
  }

  /** Walking one more loader registers its yield on top of the walk so far. */
  lemma WalkStep(table: Table, config: Config, loaders: seq<Loader>, i: nat)
    requires i < |loaders|
    ensures Walk(table, config, loaders[..i + 1]) == RegisterAll(Walk(table, config, loaders[..i]), Yield(config, loaders[i]))
  {
    assert loaders[..i + 1][..i] == loaders[..i];
  }

  /** Walking one more loader consults it exactly when its section is present. */
  lemma ConsultedStep(config: Config, loaders: seq<Loader>, i: nat)
    requires i < |loaders|
    ensures Consulted(config, loaders[..i + 1]) == Consulted(config, loaders[..i]) +
      (if loaders[i].section in config then [i] else [])
  {
    assert loaders[..i + 1][..i] == loaders[..i];
  }

  /** The command instances discovery hands to the console. */
  function Instances(ts: seq<Triple>): set<Command>
  {
    set j | 0 <= j < |ts| :: ts[j].command
  }

  /** Discovering over two runs of loaders is discovering over each. */
  lemma {:induction false} DiscoverAppend(config: Config, a: seq<Loader>, b: seq<Loader>)
    ensures Discover(config, a + b) == Discover(config, a) + Discover(config, b)
    decreases |b|
  {
    if b != [] {
      assert (a + b)[..|a + b| - 1] == a + b[..|b| - 1];
      DiscoverAppend(config, a, b[..|b| - 1]);
    } else {
      assert a + b == a;
    }
  }

  /** A loader whose section is present contributes exactly its yield, in
      its place among the others. */
  lemma DiscoverSplit(config: Config, loaders: seq<Loader>, i: nat)
    requires i < |loaders|
    ensures Discover(config, loaders) ==
      Discover(config, loaders[..i]) + Yield(config, loaders[i]) + Discover(config, loaders[i + 1..])
  {
    assert loaders == loaders[..i] + [loaders[i]] + loaders[i + 1..];
    DiscoverAppend(config, loaders[..i] + [loaders[i]], loaders[i + 1..]);
    DiscoverAppend(config, loaders[..i], [loaders[i]]);
    assert [loaders[i]][..0] == [];
  }

  /** Every command a consulted loader yields is one discovery hands over. */
  lemma YieldedAreDiscovered(config: Config, loaders: seq<Loader>, i: nat)
    requires i < |loaders|
    ensures Instances(Yield(config, loaders[i])) <= Instances(Discover(config, loaders))
  {
    var yielded := Yield(config, loaders[i]);
    var pre := Discover(config, loaders[..i]);
    DiscoverSplit(config, loaders, i);
    forall c | c in Instances(yielded) ensures c in Instances(Discover(config, loaders)) {
      var j :| 0 <= j < |yielded| && yielded[j].command == c;
      assert Discover(config, loaders)[|pre| + j] == yielded[j];
    }
  }

  /** A loader whose section is absent is skipped: it is never consulted,
      and removing it changes nothing that discovery yields. */
  lemma SkippedLoaderIsInvisible(config: Config, loaders: seq<Loader>, i: nat)
    requires i < |loaders| && loaders[i].section !in config
    ensures i !in Consulted(config, loaders)
    ensures Discover(config, loaders) == Discover(config, loaders[..i] + loaders[i + 1..])
  {
    ConsultedExactly(config, loaders);
    var pre, post := loaders[..i], loaders[i + 1..];
    assert Discover(config, loaders) == Discover(config, pre) + Discover(config, post) by {
      DiscoverSplit(config, loaders, i);
    }
    DiscoverAppend(config, pre, post);
  }

  /** Loaders are processed in list order: registering what a run of
      loaders yields is registering what the first part yields, then what
      the second part yields. */
  lemma LoadersInOrder(table: Table, config: Config, a: seq<Loader>, b: seq<Loader>)
    ensures RegisterAll(table, Discover(config, a + b)) ==
      RegisterAll(RegisterAll(table, Discover(config, a)), Discover(config, b))
  {
    DiscoverAppend(config, a, b);
    RegisterAllAppend(table, Discover(config, a), Discover(config, b));
  }

  /** Discovery registers nothing exactly when every loader is skipped or
      yields nothing. */
  lemma {:induction false} NothingDiscovered(config: Config, loaders: seq<Loader>)
    ensures Discover(config, loaders) == [] <==>
      forall i | 0 <= i < |loaders| && loaders[i].section in config :: loaders[i].all(config[loaders[i].section]) == []
    decreases |loaders|
  {
    if loaders != [] {
      var n := |loaders| - 1;
      var front := loaders[..n];
      NothingDiscovered(config, front);
      assert Discover(config, loaders) == Discover(config, front) + Yield(config, loaders[n]);
      assert forall i | 0 <= i < n :: front[i] == loaders[i];
    }
  }

}
