/** Which value a container sees for a variable, and which ConfigMap keys it never sees. */
module EnvLaws {
  import opened Seqs
  import opened Model
  import opened Keys
  import opened EnvShadow

  /** The source sets the variable to this value: a key of its object behind the prefix. */
  ghost predicate Gives(store: Store, source: Source, name: string, value: EnvValue)
  {
    match source
    case ConfigMapSource(prefix, owner) =>
      owner in store.configMaps
      && exists key :: key in store.configMaps[owner] && prefix + key == name && value == Known(store.configMaps[owner][key])
    case SecretSource(prefix, owner) =>
      owner in store.secrets && value == Unknowable && exists key :: key in store.secrets[owner] && prefix + key == name
    case OtherSource => false
  }

  ghost predicate GivesAny(store: Store, source: Source, name: string)
  {
    exists value :: Gives(store, source, name, value)
  }

  /** The last explicit entry with the name. */
  ghost predicate LastEntry(env: seq<EnvVar>, name: string, i: nat)
  {
    i < |env| && env[i].name == name && forall j :: i < j < |env| ==> env[j].name != name
  }

  /** The last source that sets the name. */
  ghost predicate LastGiver(store: Store, sources: seq<Source>, name: string, i: nat)
  {
    i < |sources| && GivesAny(store, sources[i], name) && forall j :: i < j < |sources| ==> !GivesAny(store, sources[j], name)
  }

  /** The container sees the variable with this value: the last explicit entry decides,
      and without one the last source. */
  ghost predicate Sees(store: Store, c: Container, name: string, value: EnvValue)
  {
    if exists i :: 0 <= i < |c.env| && c.env[i].name == name then
      exists i: nat :: LastEntry(c.env, name, i) && value == if c.env[i].fromSource then Unknowable else Known(c.env[i].value)
    else FromSources(store, c.envFrom, name, value)
  }

  ghost predicate FromSources(store: Store, sources: seq<Source>, name: string, value: EnvValue)
  {
    exists i: nat :: LastGiver(store, sources, name, i) && Gives(store, sources[i], name, value)
  }

  // ---------------------------------------------------------------------------
  // Sources

  /** What a supply says. */
  ghost predicate Says(s: Supply, name: string, value: EnvValue)
  {
    s.name == name && value == if s.kind == ConfigMapKind then Known(s.value) else Unknowable
  }

  lemma SourceSays(store: Store, source: Source, name: string, value: EnvValue)
    ensures Gives(store, source, name, value) <==> exists s :: s in SourceSupplies(store, source) && Says(s, name, value)
  {
    var supplies := SourceSupplies(store, source);
    match source {
      case ConfigMapSource(prefix, owner) =>
        if owner in store.configMaps {
          var data := store.configMaps[owner];
          SortedKeysFacts(data.Keys);
          KeySays(prefix, ConfigMapKind, owner, data, SortedKeys(data.Keys), name, value);
        }
      case SecretSource(prefix, owner) =>
        if owner in store.secrets {
          SortedKeysFacts(store.secrets[owner]);
          KeySays(prefix, SecretKind, owner, map[], SortedKeys(store.secrets[owner]), name, value);
        }
      case OtherSource =>
    }
    hide KeySupplies, SortedKeys, Says;
  }

  lemma KeySays(prefix: string, kind: Kind, owner: string, data: map<string, string>, keys: seq<string>, name: string, value: EnvValue)
    requires kind == ConfigMapKind ==> forall k :: k in keys ==> k in data
    ensures (exists s :: s in KeySupplies(prefix, kind, owner, data, keys) && Says(s, name, value))
            <==> exists k :: k in keys && prefix + k == name && value == if kind == ConfigMapKind then Known(data[k]) else Unknowable
  {
    var supplies := KeySupplies(prefix, kind, owner, data, keys);
    if s :| s in supplies && Says(s, name, value) {
      var i :| 0 <= i < |supplies| && supplies[i] == s;
      assert keys[i] in keys;
    }
    if k :| k in keys && prefix + k == name && value == if kind == ConfigMapKind then Known(data[k]) else Unknowable {
      var i :| 0 <= i < |keys| && keys[i] == k;
      assert supplies[i] in supplies;
    }
  }

  /** A source sets a variable to one value only. */
  lemma GivesOnce(store: Store, source: Source, name: string, a: EnvValue, b: EnvValue)
    requires Gives(store, source, name, a) && Gives(store, source, name, b)
    ensures a == b
  {
    if source.ConfigMapSource? {
      var data := store.configMaps[source.name];
      var k :| k in data && source.prefix + k == name && a == Known(data[k]);
      var l :| l in data && source.prefix + l == name && b == Known(data[l]);
      assert name[|source.prefix|..] == k && name[|source.prefix|..] == l;
    }
  }

  lemma {:induction false} FoldConcat(a: seq<Supply>, b: seq<Supply>)
    ensures FoldFrom(a + b) == FoldFrom(a) + FoldFrom(b)
  {
    if b == [] {
      assert a + b == a;
    } else {
      FoldConcat(a, b[..|b| - 1]);
      assert (a + b)[..|a + b| - 1] == a + b[..|b| - 1];
    }
  }

  lemma FoldOfSource(store: Store, source: Source, name: string, value: EnvValue)
    ensures var f := FoldFrom(SourceSupplies(store, source)); name in f && f[name] == value <==> Gives(store, source, name, value)
    ensures name in FoldFrom(SourceSupplies(store, source)) <==> GivesAny(store, source, name)
  {
    var supplies := SourceSupplies(store, source);
    SourceIsDistinct(store, source);
    LastWins(supplies);
    hide SourceSupplies, FoldFrom, LastIndex, Gives;
    forall v ensures Gives(store, source, name, v) <==> exists s :: s in supplies && Says(s, name, v) {
      SourceSays(store, source, name, v);
    }
    var f := FoldFrom(supplies);
    if name in f {
      var i := LastIndex(supplies)[name];
      assert supplies[i] in supplies && Says(supplies[i], name, f[name]);
      assert Gives(store, source, name, f[name]);
      if Gives(store, source, name, value) {
        GivesOnce(store, source, name, value, f[name]);
      }
    }
    if v :| Gives(store, source, name, v) {
      var s :| s in supplies && Says(s, name, v);
      var i :| 0 <= i < |supplies| && supplies[i] == s;
      assert name in f;
    }
  }

  lemma {:induction false} FoldOfSources(store: Store, sources: seq<Source>, name: string, value: EnvValue)
    ensures var f := FoldFrom(Supplies(store, sources)); name in f && f[name] == value <==> FromSources(store, sources, name, value)
    ensures name in FoldFrom(Supplies(store, sources)) <==> exists i :: 0 <= i < |sources| && GivesAny(store, sources[i], name)
  {
    hide Gives, GivesAny, SourceSupplies, FromSources;
    if sources != [] {
      var n := |sources| - 1;
      FoldOfSources(store, sources[..n], name, value);
      FoldOfSource(store, sources[n], name, value);
      FoldConcat(Supplies(store, sources[..n]), SourceSupplies(store, sources[n]));
      GiversGrow(store, sources, name, value);
      hide FoldFrom;
      assert forall i :: 0 <= i < n ==> sources[..n][i] == sources[i];
    } else {
      NoGivers(store, name, value);
    }
  }

  lemma NoGivers(store: Store, name: string, value: EnvValue)
    ensures !FromSources(store, [], name, value)
  {
  }

  lemma GiversGrow(store: Store, sources: seq<Source>, name: string, value: EnvValue)
    requires sources != []
    ensures var n := |sources| - 1;
            FromSources(store, sources, name, value)
            <==> if GivesAny(store, sources[n], name) then Gives(store, sources[n], name, value)
                 else FromSources(store, sources[..n], name, value)
  {
    hide Gives, GivesAny;
    var n: nat := |sources| - 1;
    var init := sources[..n];
    if i: nat :| LastGiver(store, sources, name, i) && Gives(store, sources[i], name, value) {
      if i < n {
        assert init[i] == sources[i] && forall j :: i < j < n ==> init[j] == sources[j];
        assert LastGiver(store, init, name, i);
      }
    }
    if GivesAny(store, sources[n], name) {
      assert LastGiver(store, sources, name, n);
    } else if i: nat :| LastGiver(store, init, name, i) && Gives(store, init[i], name, value) {
      assert init[i] == sources[i] && forall j :: i < j < n ==> sources[j] == init[j];
      assert LastGiver(store, sources, name, i);
    }
  }

  // ---------------------------------------------------------------------------
  // Entries

  lemma EntryStep(env: seq<EnvVar>, name: string, i: nat)
    requires env != []
    ensures var n := |env| - 1;
            LastEntry(env, name, i) <==> if env[n].name == name then i == n else LastEntry(env[..n], name, i)
  {
    var n: nat := |env| - 1;
    if LastEntry(env[..n], name, i) && env[n].name != name {
      forall j | i < j < |env| ensures env[j].name != name {
        if j < n {
          assert env[..n][j] == env[j];
        }
      }
    }
  }

  lemma {:induction false} ExplicitIsLast(env: seq<EnvVar>, name: string)
    ensures name in Explicit(env) <==> exists i :: 0 <= i < |env| && env[i].name == name
    ensures forall i: nat :: LastEntry(env, name, i) ==> name in Explicit(env) && i < |env| && Explicit(env)[name] == env[i]
    ensures name in Explicit(env) ==> exists i: nat :: LastEntry(env, name, i)
  {
    if env != [] {
      var n: nat := |env| - 1;
      ExplicitIsLast(env[..n], name);
      assert (exists i :: 0 <= i < |env| && env[i].name == name)
        <==> env[n].name == name || exists i :: 0 <= i < n && env[..n][i].name == name;
      hide LastEntry;
      forall i: nat ensures LastEntry(env, name, i) <==> if env[n].name == name then i == n else LastEntry(env[..n], name, i) {
        EntryStep(env, name, i);
      }
      if name in Explicit(env) && env[n].name == name {
        assert LastEntry(env, name, n);
      }
    }
  }

  /** The environment of a container holds exactly what it sees. */
  lemma EnvironmentIs(store: Store, c: Container, name: string, value: EnvValue)
    ensures var e := Environment(store, c); name in e && e[name] == value <==> Sees(store, c, name, value)
  {
    var base := FoldFrom(Supplies(store, c.envFrom));
    ExplicitIsLast(c.env, name);
    EntriesWin(base, c.env, name);
    FoldOfSources(store, c.envFrom, name, value);
    hide FoldEnv, FoldFrom, Supplies, Explicit, FromSources, LastEntry;
  }

  // ---------------------------------------------------------------------------
  // The report

  /** A key of a ConfigMap source under its variable's name. */
  ghost predicate IsKeyOf(store: Store, source: Source, s: Supply)
  {
    && source.ConfigMapSource? && source.name in store.configMaps
    && exists key :: key in store.configMaps[source.name]
                     && s == Supply(source.prefix + key, ConfigMapKind, source.name, store.configMaps[source.name][key], true)
  }

  lemma KeysAreSupplied(store: Store, source: Source, s: Supply)
    ensures s in SourceSupplies(store, source) && s.kind == ConfigMapKind <==> IsKeyOf(store, source, s)
  {
    if source.ConfigMapSource? && source.name in store.configMaps {
      var data := store.configMaps[source.name];
      SortedKeysFacts(data.Keys);
      var keys := SortedKeys(data.Keys);
      hide SortedKeys;
      var supplies := KeySupplies(source.prefix, ConfigMapKind, source.name, data, keys);
      if s in supplies {
        var i :| 0 <= i < |supplies| && supplies[i] == s;
        assert keys[i] in keys;
      }
      if key :| key in data && s == Supply(source.prefix + key, ConfigMapKind, source.name, data[key], true) {
        var i :| 0 <= i < |keys| && keys[i] == key;
        assert supplies[i] == s;
      }
    }
  }

  lemma {:induction false} SuppliesMembers(store: Store, sources: seq<Source>, s: Supply)
    ensures s in Supplies(store, sources) <==> exists i :: 0 <= i < |sources| && s in SourceSupplies(store, sources[i])
  {
    hide SourceSupplies;
    if sources != [] {
      SuppliesMembers(store, sources[..|sources| - 1], s);
    }
  }

  /** Reported are exactly the ConfigMap keys whose variable the container does not see
      with the key's value. */
  lemma ReportedExactly(store: Store, c: Container, s: Supply)
    ensures s in Filter(x => Shadowed(Environment(store, c), x), Supplies(store, c.envFrom))
            <==> && (exists source :: source in c.envFrom && IsKeyOf(store, source, s))
                 && !Sees(store, c, s.name, Known(s.value))
  {
    FilterMembers(x => Shadowed(Environment(store, c), x), Supplies(store, c.envFrom));
    SuppliesMembers(store, c.envFrom, s);
    EnvironmentIs(store, c, s.name, Known(s.value));
    hide Filter, Supplies, SourceSupplies, Environment, Sees, IsKeyOf;
    forall i | 0 <= i < |c.envFrom|
      ensures s in SourceSupplies(store, c.envFrom[i]) && s.kind == ConfigMapKind <==> IsKeyOf(store, c.envFrom[i], s)
    {
      KeysAreSupplied(store, c.envFrom[i], s);
    }
    forall source | source in c.envFrom && IsKeyOf(store, source, s) ensures s.kind == ConfigMapKind {
      KeysAreSupplied(store, source, s);
    }
  }
}
