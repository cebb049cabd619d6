/** ConfigMap keys that never reach a container because a later source sets the same variable. */
module EnvShadow {
  import opened Seqs
  import opened Model
  import opened Keys

  datatype Source = ConfigMapSource(prefix: string, name: string) | SecretSource(prefix: string, name: string) | OtherSource

  datatype EnvVar = EnvVar(name: string, value: string, fromSource: bool)

  datatype Container = Container(envFrom: seq<Source>, env: seq<EnvVar>)

  /** The objects of the Pod's namespace: ConfigMap data, and Secret keys without values. */
  datatype Store = Store(configMaps: map<string, map<string, string>>, secrets: map<string, set<string>>)

  datatype Kind = ConfigMapKind | SecretKind

  datatype Supply = Supply(name: string, kind: Kind, owner: string, value: string, known: bool)

  /** A variable's value in the container; a Secret or valueFrom value cannot be known. */
  datatype EnvValue = Known(value: string) | Unknowable

  // ---------------------------------------------------------------------------
  // What the kubelet does: fold envFrom in order, then env; the last one wins

  function KeySupplies(prefix: string, kind: Kind, owner: string, data: map<string, string>, keys: seq<string>): seq<Supply>
    requires kind == ConfigMapKind ==> forall k :: k in keys ==> k in data
  {
    seq(|keys|, i requires 0 <= i < |keys| =>
      assert keys[i] in keys;
      Supply(prefix + keys[i], kind, owner, if kind == ConfigMapKind then data[keys[i]] else "", kind == ConfigMapKind))
  }

  function SourceSupplies(store: Store, source: Source): seq<Supply>
  {
    match source
    case ConfigMapSource(prefix, name) =>
      if name !in store.configMaps then []
      else
        var data := store.configMaps[name];
        SortedKeysFacts(data.Keys);
        KeySupplies(prefix, ConfigMapKind, name, data, SortedKeys(data.Keys))
    case SecretSource(prefix, name) =>
      if name !in store.secrets then [] else KeySupplies(prefix, SecretKind, name, map[], SortedKeys(store.secrets[name]))
    case OtherSource => []
  }

  function Supplies(store: Store, sources: seq<Source>): seq<Supply>
  {
    if sources == [] then []
    else Supplies(store, sources[..|sources| - 1]) + SourceSupplies(store, sources[|sources| - 1])
  }

  function ValueOf(s: Supply): EnvValue
  {
    if s.known then Known(s.value) else Unknowable
  }

  function FoldFrom(supplies: seq<Supply>): map<string, EnvValue>
  {
    if supplies == [] then map[]
    else
      var last := supplies[|supplies| - 1];
      FoldFrom(supplies[..|supplies| - 1])[last.name := ValueOf(last)]
  }

  function FoldEnv(base: map<string, EnvValue>, env: seq<EnvVar>): map<string, EnvValue>
  {
    if env == [] then base
    else
      var last := env[|env| - 1];
      FoldEnv(base, env[..|env| - 1])[last.name := if last.fromSource then Unknowable else Known(last.value)]
  }

  function Environment(store: Store, c: Container): map<string, EnvValue>
  {
    FoldEnv(FoldFrom(Supplies(store, c.envFrom)), c.env)
  }

  /** The ConfigMap sets the variable, and the container sees another or an unknowable value. */
  predicate Shadowed(environment: map<string, EnvValue>, s: Supply)
  {
    s.kind == ConfigMapKind && (s.name !in environment || environment[s.name] != Known(s.value))
  }

  // ---------------------------------------------------------------------------
  // What the rule computes

  function Explicit(env: seq<EnvVar>): map<string, EnvVar>
  {
    if env == [] then map[] else Explicit(env[..|env| - 1])[env[|env| - 1].name := env[|env| - 1]]
  }

  function LastIndex(supplies: seq<Supply>): map<string, nat>
  {
    if supplies == [] then map[]
    else LastIndex(supplies[..|supplies| - 1])[supplies[|supplies| - 1].name := |supplies| - 1]
  }

  datatype Winner = Entry(name: string, fromSource: bool) | LaterSource(kind: Kind, owner: string)

  function EnvShadowWinner(supply: Supply, index: nat, last: map<string, nat>, supplies: seq<Supply>,
                           explicit: map<string, EnvVar>): (Option<Winner>, bool)
    requires forall name :: name in last ==> last[name] < |supplies|
  {
    if supply.name in explicit then
      var env := explicit[supply.name];
      if env.fromSource then (Some(Entry(env.name, true)), true)
      else (Some(Entry(env.name, false)), !supply.known || env.value != supply.value)
    else if supply.name !in last || last[supply.name] <= index then (None, false)
    else
      var winner := supplies[last[supply.name]];
      (Some(LaterSource(winner.kind, winner.owner)), !supply.known || !winner.known || winner.value != supply.value)
  }

  lemma {:induction false} LastWins(supplies: seq<Supply>)
    ensures LastIndex(supplies).Keys == FoldFrom(supplies).Keys
    ensures forall name :: name in LastIndex(supplies) ==>
              var i := LastIndex(supplies)[name];
              i < |supplies| && supplies[i].name == name && FoldFrom(supplies)[name] == ValueOf(supplies[i])
    ensures forall i :: 0 <= i < |supplies| ==>
              supplies[i].name in LastIndex(supplies) && i <= LastIndex(supplies)[supplies[i].name]
  {
    if supplies != [] {
      hide ValueOf;
      var n := |supplies| - 1;
      LastWins(supplies[..n]);
      assert forall i :: 0 <= i < n ==> supplies[..n][i] == supplies[i];
    }
  }

  lemma {:induction false} EntriesWin(base: map<string, EnvValue>, env: seq<EnvVar>, name: string)
    ensures (name in FoldEnv(base, env)) == (name in base || name in Explicit(env))
    ensures name in Explicit(env) ==>
              var e := Explicit(env)[name];
              e.name == name && FoldEnv(base, env)[name] == if e.fromSource then Unknowable else Known(e.value)
    ensures name !in Explicit(env) && name in base ==> FoldEnv(base, env)[name] == base[name]
  {
    if env != [] {
      EntriesWin(base, env[..|env| - 1], name);
    }
  }

  /** The rule's two look-ups decide exactly whether the folded value differs. */
  lemma WinnerDecides(supplies: seq<Supply>, env: seq<EnvVar>, index: nat)
    requires index < |supplies| && supplies[index].known && supplies[index].kind == ConfigMapKind
    requires forall name :: name in LastIndex(supplies) ==> LastIndex(supplies)[name] < |supplies|
    ensures var (winner, differs) := EnvShadowWinner(supplies[index], index, LastIndex(supplies), supplies, Explicit(env));
            (winner.Some? && differs) <==> Shadowed(FoldEnv(FoldFrom(supplies), env), supplies[index])
  {
    LastWins(supplies);
    EntriesWin(FoldFrom(supplies), env, supplies[index].name);
    hide LastIndex, FoldFrom, FoldEnv, Explicit;
  }

  lemma KeySuppliesShape(prefix: string, kind: Kind, owner: string, data: map<string, string>, keys: seq<string>)
    requires kind == ConfigMapKind ==> forall k :: k in keys ==> k in data
    requires forall i, j :: 0 <= i < j < |keys| ==> keys[i] != keys[j]
    ensures var s := KeySupplies(prefix, kind, owner, data, keys);
            && (forall i :: 0 <= i < |s| ==> s[i].known == s[i].kind.ConfigMapKind?)
            && (forall i, j :: 0 <= i < j < |s| ==> s[i].name != s[j].name)
  {
    var s := KeySupplies(prefix, kind, owner, data, keys);
    forall i, j | 0 <= i < j < |s| ensures s[i].name != s[j].name {
      assert s[i].name[|prefix|..] == keys[i] && s[j].name[|prefix|..] == keys[j];
    }
  }

  /** One source never sets a variable twice. */
  lemma SourceIsDistinct(store: Store, source: Source)
    ensures var s := SourceSupplies(store, source);
            && (forall i :: 0 <= i < |s| ==> s[i].known == s[i].kind.ConfigMapKind?)
            && (forall i, j :: 0 <= i < j < |s| ==> s[i].name != s[j].name)
  {
    hide KeySupplies;
    match source {
      case ConfigMapSource(prefix, name) =>
        if name in store.configMaps {
          var data := store.configMaps[name];
          SortedKeysAreDistinct(data.Keys);
          KeySuppliesShape(prefix, ConfigMapKind, name, data, SortedKeys(data.Keys));
        }
      case SecretSource(prefix, name) =>
        if name in store.secrets {
          SortedKeysAreDistinct(store.secrets[name]);
          KeySuppliesShape(prefix, SecretKind, name, map[], SortedKeys(store.secrets[name]));
        }
      case OtherSource =>
    }
  }

  lemma SortedKeysAreDistinct(s: set<string>)
    ensures forall x :: x in SortedKeys(s) <==> x in s
    ensures forall i, j :: 0 <= i < j < |SortedKeys(s)| ==> SortedKeys(s)[i] != SortedKeys(s)[j]
  {
  }

  lemma {:induction false} ConfigMapValuesAreKnown(store: Store, sources: seq<Source>)
    ensures forall i :: 0 <= i < |Supplies(store, sources)| ==>
              Supplies(store, sources)[i].known == Supplies(store, sources)[i].kind.ConfigMapKind?
  {
    if sources != [] {
      hide SourceSupplies;
      ConfigMapValuesAreKnown(store, sources[..|sources| - 1]);
      SourceIsDistinct(store, sources[|sources| - 1]);
    }
  }

  // ---------------------------------------------------------------------------
  // The rule

  method ContainerEnvSupplies(store: Store, c: Container) returns (supplies: seq<Supply>)
    ensures supplies == Supplies(store, c.envFrom)
  {
    supplies := [];
    for i := 0 to |c.envFrom|
      invariant supplies == Supplies(store, c.envFrom[..i])
    {
      PrefixStep(c.envFrom, i);
      supplies := supplies + SourceSupplies(store, c.envFrom[i]);
    }
    assert c.envFrom[..|c.envFrom|] == c.envFrom;
  }

  method Lookups(supplies: seq<Supply>, env: seq<EnvVar>) returns (explicit: map<string, EnvVar>, last: map<string, nat>)
    ensures explicit == Explicit(env) && last == LastIndex(supplies)
  {
    explicit, last := map[], map[];
    for i := 0 to |env|
      invariant explicit == Explicit(env[..i])
    {
      PrefixStep(env, i);
      explicit := explicit[env[i].name := env[i]];
    }
    assert env[..|env|] == env;
    for i := 0 to |supplies|
      invariant last == LastIndex(supplies[..i])
    {
      PrefixStep(supplies, i);
      last := last[supplies[i].name := i];
    }
    assert supplies[..|supplies|] == supplies;
  }

  method ReportShadowed(supplies: seq<Supply>, env: seq<EnvVar>) returns (reported: seq<Supply>)
    requires forall i :: 0 <= i < |supplies| ==> supplies[i].known == supplies[i].kind.ConfigMapKind?
    ensures reported == Filter(s => Shadowed(FoldEnv(FoldFrom(supplies), env), s), supplies)
  {
    hide EnvShadowWinner, Shadowed, LastIndex, Explicit, FoldFrom, FoldEnv;
    reported := [];
    var explicit, last := Lookups(supplies, env);
    LastWins(supplies);
    ghost var environment := FoldEnv(FoldFrom(supplies), env);
    for i := 0 to |supplies|
      invariant reported == Filter(s => Shadowed(environment, s), supplies[..i])
    {
      PrefixStep(supplies, i);
      if supplies[i].kind != ConfigMapKind {
        SecretsAreNotReported(environment, supplies[i]);
        continue;
      }
      WinnerDecides(supplies, env, i);
      var (winner, differs) := EnvShadowWinner(supplies[i], i, last, supplies, explicit);
      if winner == None || !differs {
        continue;
      }
      reported := reported + [supplies[i]];
    }
    assert supplies[..|supplies|] == supplies;
  }

  /** The ConfigMap entries reported for a container are exactly the shadowed ones, in order. */
  method ShadowedSupplies(store: Store, c: Container) returns (reported: seq<Supply>)
    ensures reported == Filter(s => Shadowed(Environment(store, c), s), Supplies(store, c.envFrom))
  {
    hide Supplies, Shadowed, FoldFrom, FoldEnv;
    reported := [];
    if |c.envFrom| == 0 || (|c.envFrom| == 1 && |c.env| == 0) {
      EarlyExitHidesNothing(store, c);
      return;
    }
    var supplies := ContainerEnvSupplies(store, c);
    if |supplies| == 0 {
      return;
    }
    ConfigMapValuesAreKnown(store, c.envFrom);
    reported := ReportShadowed(supplies, c.env);
  }

  lemma SecretsAreNotReported(environment: map<string, EnvValue>, s: Supply)
    requires s.kind != ConfigMapKind
    ensures !Shadowed(environment, s)
  {
  }

  lemma SetOnceIsSeen(supplies: seq<Supply>)
    requires forall i :: 0 <= i < |supplies| ==> supplies[i].known == supplies[i].kind.ConfigMapKind?
    requires forall i, j :: 0 <= i < j < |supplies| ==> supplies[i].name != supplies[j].name
    ensures forall s :: s in supplies ==> !Shadowed(FoldFrom(supplies), s)
  {
    LastWins(supplies);
    hide FoldFrom, LastIndex;
    forall s | s in supplies ensures !Shadowed(FoldFrom(supplies), s) {
      var i :| 0 <= i < |supplies| && supplies[i] == s;
      assert LastIndex(supplies)[s.name] == i;
    }
  }

  /** A single source without explicit entries sets every variable once, so nothing is shadowed. */
  lemma EarlyExitHidesNothing(store: Store, c: Container)
    requires |c.envFrom| == 0 || (|c.envFrom| == 1 && |c.env| == 0)
    ensures Filter(s => Shadowed(Environment(store, c), s), Supplies(store, c.envFrom)) == []
  {
    var supplies, environment := Supplies(store, c.envFrom), Environment(store, c);
    if |c.envFrom| == 1 {
      OneSource(store, c.envFrom[0]);
      assert c.envFrom == [c.envFrom[0]];
      SourceIsDistinct(store, c.envFrom[0]);
      SetOnceIsSeen(supplies);
    }
    hide Supplies, SourceSupplies, FoldFrom, Shadowed;
    FilterNone(s => Shadowed(environment, s), supplies);
  }

  lemma OneSource(store: Store, source: Source)
    ensures Supplies(store, [source]) == SourceSupplies(store, source)
  {
    assert [source][..0] == [];
    assert Supplies(store, [source]) == [] + SourceSupplies(store, source);
  }
}
