/** Cluster snapshots, their lazily built name index, and narrowing to one Pod. */
module Snapshots {
  import opened Text
  import opened Seqs
  import opened Model

  /** One collection of a snapshot, and the collection task that fills it. */
  datatype Resource =
    | Pods | Nodes | NodeLeases | Services | Endpoints | EndpointSlices | Pvcs | Pvs | ConfigMaps | Secrets
    | ServiceAccounts | Namespaces | Events | ResourceQuotas | LimitRanges | Deployments | StatefulSets | DaemonSets
    | ReplicaSets | Jobs | CronJobs | Hpas | Ingresses | IngressClasses | NetworkPolicies | ValidatingWebhooks
    | MutatingWebhooks | StorageClasses | Pdbs | PriorityClasses | RuntimeClasses | NodeMetrics | PodMetrics
    | ApiServices | Crds | GatewayClasses | Gateways | HttpRoutes | Readyz | Livez | AllPods

  /** The claim reference of a volume. */
  datatype Claim = Claim(namespace: string, name: string)

  datatype Object = Object(namespace: string, name: string, volumeName: string, claim: Option<Claim>, content: string)

  /** How one collection task ended. */
  datatype Status = Status(available: bool, status: string, reason: string, httpCode: int)

  type Collections = map<Resource, seq<Object>>

  function Get(c: Collections, kind: Resource): seq<Object>
  {
    if kind in c then c[kind] else []
  }

  predicate Namespaced(kind: Resource)
  {
    kind in {Secrets, ConfigMaps, Pvcs, ServiceAccounts}
  }

  predicate Indexed(kind: Resource)
  {
    Namespaced(kind) || kind in {Pvs, PriorityClasses, RuntimeClasses, StorageClasses}
  }

  // ---------------------------------------------------------------------------
  // The index and the scan it replaces

  function Key(kind: Resource, namespace: string, name: string): string
  {
    if Namespaced(kind) then namespace + "/" + name else name
  }

  predicate IsNamed(kind: Resource, o: Object, namespace: string, name: string)
  {
    o.name == name && (Namespaced(kind) ==> o.namespace == namespace)
  }

  /** The linear scan: the first object with the name, and the namespace where there is one. */
  function FirstMatch(kind: Resource, objects: seq<Object>, namespace: string, name: string): Option<Object>
  {
    if objects == [] then None
    else if IsNamed(kind, objects[0], namespace, name) then Some(objects[0])
    else FirstMatch(kind, objects[1..], namespace, name)
  }

  /** The map of the index: the first writer of a key wins. */
  function Table(kind: Resource, objects: seq<Object>): map<string, Object>
  {
    if objects == [] then map[]
    else
      var before, last := Table(kind, objects[..|objects| - 1]), objects[|objects| - 1];
      var key := Key(kind, last.namespace, last.name);
      if key in before then before else before[key := last]
  }

  type Tables = map<Resource, map<string, Object>>

  function TablesOf(c: Collections): Tables
  {
    map kind: Resource | Indexed(kind) :: Table(kind, Get(c, kind))
  }

  function Find(tables: Tables, kind: Resource, key: string): Option<Object>
  {
    if kind in tables && key in tables[kind] then Some(tables[kind][key]) else None
  }

  /** A snapshot seen as a value: its collections and its cached index. */
  datatype View = View(collections: Collections, cache: Option<Tables>)

  function Warm(v: View): View
  {
    if v.cache.None? then v.(cache := Some(TablesOf(v.collections))) else v
  }

  /** What a lookup answers: it reads the cache, stale or not. */
  function Answer(v: View, kind: Resource, namespace: string, name: string): Option<Object>
  {
    Find(Warm(v).cache.value, kind, Key(kind, namespace, name))
  }

  predicate Current(v: View)
  {
    v.cache.Some? ==> v.cache.value == TablesOf(v.collections)
  }

  /** Another object that shares the key of the wanted one. */
  predicate Collides(kind: Resource, o: Object, namespace: string, name: string)
  {
    Key(kind, o.namespace, o.name) == Key(kind, namespace, name) && !IsNamed(kind, o, namespace, name)
  }

  /** No colliding object comes before the first object with the name. */
  predicate Unambiguous(kind: Resource, objects: seq<Object>, namespace: string, name: string)
  {
    objects == [] || IsNamed(kind, objects[0], namespace, name)
    || (!Collides(kind, objects[0], namespace, name) && Unambiguous(kind, objects[1..], namespace, name))
  }

  function FirstByKey(kind: Resource, objects: seq<Object>, key: string): Option<Object>
  {
    if objects == [] then None
    else if Key(kind, objects[0].namespace, objects[0].name) == key then Some(objects[0])
    else FirstByKey(kind, objects[1..], key)
  }

  lemma {:induction false} FirstByKeyAppend(kind: Resource, objects: seq<Object>, last: Object, key: string)
    ensures FirstByKey(kind, objects + [last], key)
            == if FirstByKey(kind, objects, key).Some? then FirstByKey(kind, objects, key)
               else if Key(kind, last.namespace, last.name) == key then Some(last) else None
  {
    if objects == [] {
      assert objects + [last] == [last] && [last][1..] == [];
    } else {
      assert (objects + [last])[1..] == objects[1..] + [last];
      FirstByKeyAppend(kind, objects[1..], last, key);
    }
  }

  lemma {:induction false} TableIsFirst(kind: Resource, objects: seq<Object>, key: string)
    ensures (if key in Table(kind, objects) then Some(Table(kind, objects)[key]) else None) == FirstByKey(kind, objects, key)
  {
    if objects != [] {
      var n := |objects| - 1;
      TableIsFirst(kind, objects[..n], key);
      FirstByKeyAppend(kind, objects[..n], objects[n], key);
      assert objects == objects[..n] + [objects[n]];
    }
  }

  lemma {:induction false} KeyScan(kind: Resource, objects: seq<Object>, namespace: string, name: string)
    ensures FirstByKey(kind, objects, Key(kind, namespace, name)) == FirstMatch(kind, objects, namespace, name)
            <==> Unambiguous(kind, objects, namespace, name)
  {
    if objects != [] {
      KeyScan(kind, objects[1..], namespace, name);
      if FirstMatch(kind, objects, namespace, name).Some? {
        MatchIsNamed(kind, objects, namespace, name);
      }
    }
  }

  lemma {:induction false} MatchIsNamed(kind: Resource, objects: seq<Object>, namespace: string, name: string)
    requires FirstMatch(kind, objects, namespace, name).Some?
    ensures IsNamed(kind, FirstMatch(kind, objects, namespace, name).value, namespace, name)
  {
    if !IsNamed(kind, objects[0], namespace, name) {
      MatchIsNamed(kind, objects[1..], namespace, name);
    }
  }

  /** A lookup with a current cache equals the linear scan exactly when no object
      whose "namespace/name" merely reads the same comes first. */
  lemma LookupIsScan(v: View, kind: Resource, namespace: string, name: string)
    requires Current(v) && Indexed(kind)
    ensures Answer(v, kind, namespace, name) == FirstMatch(kind, Get(v.collections, kind), namespace, name)
            <==> Unambiguous(kind, Get(v.collections, kind), namespace, name)
  {
    TableIsFirst(kind, Get(v.collections, kind), Key(kind, namespace, name));
    KeyScan(kind, Get(v.collections, kind), namespace, name);
  }

  /** Kubernetes namespaces contain no slash, so lookups and scans agree. */
  lemma {:induction false} PlainNamespacesAreUnambiguous(kind: Resource, objects: seq<Object>, namespace: string, name: string)
    requires '/' !in namespace && forall o :: o in objects ==> '/' !in o.namespace
    ensures Unambiguous(kind, objects, namespace, name)
  {
    if objects != [] {
      assert objects[0] in objects;
      SplitsOnce('/', objects[0].namespace, objects[0].name, namespace, name);
      PlainNamespacesAreUnambiguous(kind, objects[1..], namespace, name);
    }
  }

  lemma SlashMisleads()
    ensures var o := Object("a/b", "c", "", None, "");
            var v := View(map[Secrets := [o]], None);
            Answer(v, Secrets, "a", "b/c") == Some(o) && FirstMatch(Secrets, [o], "a", "b/c") == None
  {
    var o := Object("a/b", "c", "", None, "");
    var v := View(map[Secrets := [o]], None);
    assert "a/b" + "/" + "c" == "a" + "/" + "b/c" == "a/b/c";
    TableIsFirst(Secrets, [o], "a/b/c");
    assert Answer(v, Secrets, "a", "b/c") == FirstByKey(Secrets, [o], "a/b/c");
  }

  // ---------------------------------------------------------------------------
  // The snapshot object

  class NameIndex {
    const tables: Tables

    constructor (tables: Tables)
      ensures this.tables == tables
    {
      this.tables := tables;
    }
  }

  const INDEXED: seq<Resource> :=
    [Secrets, ConfigMaps, Pvcs, Pvs, ServiceAccounts, PriorityClasses, RuntimeClasses, StorageClasses]

  method BuildTable(kind: Resource, objects: seq<Object>) returns (table: map<string, Object>)
    ensures table == Table(kind, objects)
  {
    table := map[];
    for i := 0 to |objects|
      invariant table == Table(kind, objects[..i])
    {
      PrefixStep(objects, i);
      var key := Key(kind, objects[i].namespace, objects[i].name);
      if key !in table {
        table := table[key := objects[i]];
      }
    }
    assert objects[..|objects|] == objects;
  }

  lemma IndexedIsListed(kind: Resource)
    ensures Indexed(kind) <==> kind in INDEXED
  {
  }

  class Snapshot {
    var collections: Collections
    var statuses: map<Resource, Status>
    var indexed: NameIndex?

    constructor (collections: Collections)
      ensures this.collections == collections && statuses == map[] && indexed == null
    {
      this.collections := collections;
      statuses := map[];
      indexed := null;
    }

    ghost function Contents(): View
      reads this
    {
      View(collections, if indexed == null then None else Some(indexed.tables))
    }

    method ResetIndex()
      modifies this`indexed
      ensures Contents() == old(Contents()).(cache := None)
    {
      indexed := null;
    }

    method Index() returns (index: NameIndex)
      modifies this`indexed
      ensures index == indexed
      ensures Contents() == Warm(old(Contents()))
    {
      if indexed == null {
        var tables: Tables := map[];
        for i := 0 to |INDEXED|
          invariant indexed == null
          invariant tables.Keys == set k | k in INDEXED[..i]
          invariant forall kind :: kind in tables ==> tables[kind] == Table(kind, Get(collections, kind))
        {
          var table := BuildTable(INDEXED[i], Get(collections, INDEXED[i]));
          tables := tables[INDEXED[i] := table];
        }
        forall kind: Resource ensures Indexed(kind) <==> kind in INDEXED {
          IndexedIsListed(kind);
        }
        assert INDEXED[..|INDEXED|] == INDEXED;
        assert tables == TablesOf(collections);
        indexed := new NameIndex(tables);
      }
      return indexed;
    }

    /** Secret, ConfigMap, PersistentVolumeClaim and the five other lookups. */
    method Lookup(kind: Resource, namespace: string, name: string) returns (found: Option<Object>)
      requires Indexed(kind)
      modifies this`indexed
      ensures found == Answer(old(Contents()), kind, namespace, name)
      ensures Contents() == Warm(old(Contents()))
    {
      var index := Index();
      var key := Key(kind, namespace, name);
      if kind in index.tables && key in index.tables[kind] {
        return Some(index.tables[kind][key]);
      }
      return None;
    }

    /** Puts other objects in place of a collection; the cached index survives. */
    method Replace(kind: Resource, objects: seq<Object>)
      modifies this`collections
      ensures Contents() == old(Contents()).(collections := old(collections)[kind := objects])
    {
      collections := collections[kind := objects];
    }
  }

  // ---------------------------------------------------------------------------
  // Narrowing to one Pod

  /** What the selected Pod refers to.  `rest` holds the narrowed collections that
      have no index: Pods, Services and their endpoints, Ingresses, policies, metrics and events. */
  datatype Selection = Selection(namespace: string, account: string, configMaps: set<string>, secrets: set<string>,
                                 ingressSecrets: set<string>, claims: set<string>, rest: Collections)

  predicate KeepsConfigMap(s: Selection, o: Object)
  {
    o.namespace == s.namespace && o.name in s.configMaps
  }

  predicate KeepsSecret(s: Selection, o: Object)
  {
    o.namespace == s.namespace && o.name in s.secrets + s.ingressSecrets
  }

  function AccountName(s: Selection): string
  {
    if s.account == "" then "default" else s.account
  }

  predicate KeepsAccount(s: Selection, o: Object)
  {
    o.namespace == s.namespace && o.name == AccountName(s)
  }

  predicate KeepsClaim(s: Selection, o: Object)
  {
    o.namespace == s.namespace && o.name in s.claims
  }

  /** The volumes that the kept claims are bound to. */
  function VolumeNames(claims: seq<Object>): set<string>
  {
    if claims == [] then {}
    else
      var before, last := VolumeNames(claims[..|claims| - 1]), claims[|claims| - 1];
      if last.volumeName == "" then before else before + {last.volumeName}
  }

  predicate KeepsVolume(s: Selection, volumes: set<string>, o: Object)
  {
    || o.name in volumes
    || (o.claim.Some? && o.claim.value.namespace == s.namespace && o.claim.value.name in s.claims)
  }

  function Kept(s: Selection, c: Collections, kind: Resource): seq<Object>
  {
    match kind
    case ConfigMaps => Filter(o => KeepsConfigMap(s, o), Get(c, ConfigMaps))
    case Secrets => Filter(o => KeepsSecret(s, o), Get(c, Secrets))
    case ServiceAccounts => Filter(o => KeepsAccount(s, o), Get(c, ServiceAccounts))
    case Pvcs => Filter(o => KeepsClaim(s, o), Get(c, Pvcs))
    case Pvs =>
      var volumes := VolumeNames(Filter(o => KeepsClaim(s, o), Get(c, Pvcs)));
      Filter(o => KeepsVolume(s, volumes, o), Get(c, Pvs))
    case _ => if kind in s.rest then s.rest[kind] else Get(c, kind)
  }

  const NARROWED: set<Resource> := {ConfigMaps, Secrets, ServiceAccounts, Pvcs, Pvs}

  /** The narrowed collections. */
  function Narrowed(s: Selection, c: Collections): Collections
  {
    map kind | kind in c.Keys + s.rest.Keys + NARROWED :: Kept(s, c, kind)
  }

  lemma KeptElsewhere(s: Selection, c: Collections)
    ensures forall kind: Resource :: kind !in NARROWED ==> Kept(s, c, kind) == if kind in s.rest then s.rest[kind] else Get(c, kind)
  {
  }

  method FilterObjects(keep: Object -> bool, objects: seq<Object>) returns (kept: seq<Object>)
    ensures kept == Filter(keep, objects)
  {
    kept := [];
    for i := 0 to |objects|
      invariant kept == Filter(keep, objects[..i])
    {
      PrefixStep(objects, i);
      if keep(objects[i]) {
        kept := kept + [objects[i]];
      }
    }
    assert objects[..|objects|] == objects;
  }

  method FilterClaims(s: Selection, objects: seq<Object>) returns (kept: seq<Object>, volumes: set<string>)
    ensures kept == Filter(o => KeepsClaim(s, o), objects) && volumes == VolumeNames(kept)
  {
    kept, volumes := [], {};
    for i := 0 to |objects|
      invariant kept == Filter(o => KeepsClaim(s, o), objects[..i]) && volumes == VolumeNames(kept)
    {
      PrefixStep(objects, i);
      if !KeepsClaim(s, objects[i]) {
        continue;
      }
      assert (kept + [objects[i]])[..|kept|] == kept;
      kept := kept + [objects[i]];
      if objects[i].volumeName != "" {
        volumes := volumes + {objects[i].volumeName};
      }
    }
    assert objects[..|objects|] == objects;
  }

  method NarrowIndexed(s: Selection, c: Collections) returns (kept: Collections)
    ensures kept.Keys == {ConfigMaps, Secrets, ServiceAccounts, Pvcs, Pvs}
    ensures forall kind :: kind in kept ==> kept[kind] == Kept(s, c, kind)
  {
    hide Filter, VolumeNames;
    var configMaps := FilterObjects(o => KeepsConfigMap(s, o), Get(c, ConfigMaps));
    var secrets := FilterObjects(o => KeepsSecret(s, o), Get(c, Secrets));
    var accounts := FilterObjects(o => KeepsAccount(s, o), Get(c, ServiceAccounts));
    var claims, volumes := FilterClaims(s, Get(c, Pvcs));
    var pvs := FilterObjects(o => KeepsVolume(s, volumes, o), Get(c, Pvs));
    kept := map[ConfigMaps := configMaps, Secrets := secrets, ServiceAccounts := accounts, Pvcs := claims, Pvs := pvs];
  }

  /** A shallow copy with narrowed collections and, at the end, no index. */
  method ScopeSnapshotToSelectedPod(snapshot: Snapshot, s: Selection) returns (scoped: Snapshot)
    requires forall kind :: kind in s.rest ==> !Indexed(kind)
    ensures fresh(scoped) && scoped.statuses == snapshot.statuses
    ensures scoped.Contents() == View(Narrowed(s, snapshot.collections), None)
  {
    hide Kept;
    scoped := new Snapshot(snapshot.collections);
    scoped.statuses := snapshot.statuses;
    scoped.indexed := snapshot.indexed;
    var kept := NarrowIndexed(s, snapshot.collections);
    scoped.collections := scoped.collections + s.rest + kept;
    KeptElsewhere(s, snapshot.collections);
    scoped.ResetIndex();
  }

  // ---------------------------------------------------------------------------
  // Runs over many snapshots

  datatype Op =
    | LookupOp(target: nat, kind: Resource, namespace: string, name: string)
    | ReplaceOp(target: nat, kind: Resource, objects: seq<Object>)
    | ScopeOp(target: nat, selection: Selection)

  /** One step on a family of snapshots: a lookup warms the cache, a replacement is
      followed by ResetIndex, and narrowing adds a snapshot. */
  function Step(store: seq<View>, op: Op): seq<View>
  {
    if op.target >= |store| then store
    else
      var v := store[op.target];
      match op
      case LookupOp(i, _, _, _) => store[i := Warm(v)]
      case ReplaceOp(i, kind, objects) => store[i := View(v.collections[kind := objects], None)]
      case ScopeOp(_, s) => store + [View(Narrowed(s, v.collections), None)]
  }

  function Run(store: seq<View>, ops: seq<Op>): seq<View>
  {
    if ops == [] then store else Step(Run(store, ops[..|ops| - 1]), ops[|ops| - 1])
  }

  predicate AllCurrent(store: seq<View>)
  {
    forall i :: 0 <= i < |store| ==> Current(store[i])
  }

  lemma {:induction false} RunStaysCurrent(store: seq<View>, ops: seq<Op>)
    requires AllCurrent(store)
    ensures AllCurrent(Run(store, ops)) && |Run(store, ops)| >= |store|
  {
    hide TablesOf, Narrowed;
    if ops != [] {
      RunStaysCurrent(store, ops[..|ops| - 1]);
    }
  }

  ghost predicate PlainNamespaces(objects: seq<Object>)
  {
    forall o :: o in objects ==> '/' !in o.namespace
  }

  /** After any run, every lookup on every snapshot is the linear scan over the
      collections that this snapshot has now. */
  lemma LookupsScanAfterRuns(store: seq<View>, ops: seq<Op>, i: nat, kind: Resource, namespace: string, name: string)
    requires AllCurrent(store) && i < |Run(store, ops)| && Indexed(kind)
    requires '/' !in namespace && PlainNamespaces(Get(Run(store, ops)[i].collections, kind))
    ensures var v := Run(store, ops)[i];
            Answer(v, kind, namespace, name) == FirstMatch(kind, Get(v.collections, kind), namespace, name)
  {
    var v := Run(store, ops)[i];
    RunStaysCurrent(store, ops);
    LookupIsScan(v, kind, namespace, name);
    PlainNamespacesAreUnambiguous(kind, Get(v.collections, kind), namespace, name);
  }

  /** A run that replaces nothing in snapshot i leaves all its answers alone,
      however often it or its copies are narrowed and looked up. */
  lemma {:induction false} AnswersSurvive(store: seq<View>, ops: seq<Op>, i: nat, kind: Resource, namespace: string, name: string)
    requires i < |store| && forall k :: 0 <= k < |ops| ==> !(ops[k].ReplaceOp? && ops[k].target == i)
    ensures var after := Run(store, ops);
            && |after| >= |store| && after[i].collections == store[i].collections
            && Answer(after[i], kind, namespace, name) == Answer(store[i], kind, namespace, name)
  {
    hide TablesOf, Narrowed, Find;
    if ops != [] {
      AnswersSurvive(store, ops[..|ops| - 1], i, kind, namespace, name);
    }
  }

  /** Without ResetIndex a copy keeps answering from the original, exactly when the original was indexed. */
  lemma CopyWithoutReset(source: View, replaced: Collections, kind: Resource, namespace: string, name: string)
    requires Current(source)
    ensures Answer(source.(collections := replaced), kind, namespace, name)
            == if source.cache.Some? then Answer(source, kind, namespace, name)
               else Answer(View(replaced, None), kind, namespace, name)
    ensures Current(source.(collections := replaced))
            <==> source.cache.None? || TablesOf(replaced) == TablesOf(source.collections)
  {
  }

  /** A concrete stale answer: a copy of an indexed snapshot whose Secrets were
      replaced still finds the removed Secret. */
  lemma StaleWithoutReset(o: Object)
    ensures var source := Warm(View(map[Secrets := [o]], None));
            var copy := source.(collections := map[Secrets := []]);
            && Answer(copy, Secrets, o.namespace, o.name) == Some(o)
            && FirstMatch(Secrets, Get(copy.collections, Secrets), o.namespace, o.name) == None
            && Answer(copy.(cache := None), Secrets, o.namespace, o.name) == None
  {
    var source := Warm(View(map[Secrets := [o]], None));
    CopyWithoutReset(source, map[Secrets := []], Secrets, o.namespace, o.name);
    TableIsFirst(Secrets, [o], Key(Secrets, o.namespace, o.name));
    TableIsFirst(Secrets, [], Key(Secrets, o.namespace, o.name));
    hide Table, Key;
  }

  lemma {:induction false} FirstMatchAppend(kind: Resource, objects: seq<Object>, last: Object, namespace: string, name: string)
    ensures FirstMatch(kind, objects + [last], namespace, name)
            == if FirstMatch(kind, objects, namespace, name).Some? then FirstMatch(kind, objects, namespace, name)
               else if IsNamed(kind, last, namespace, name) then Some(last) else None
  {
    if objects == [] {
      assert objects + [last] == [last] && [last][1..] == [];
    } else {
      assert (objects + [last])[1..] == objects[1..] + [last];
      FirstMatchAppend(kind, objects[1..], last, namespace, name);
    }
  }

  /** Filtering by a test that only the name decides keeps or removes an answer as a whole. */
  lemma {:induction false} FilteredScan(kind: Resource, keep: Object -> bool, objects: seq<Object>, namespace: string,
                                        name: string, kept: bool)
    requires forall o :: IsNamed(kind, o, namespace, name) ==> keep(o) == kept
    ensures FirstMatch(kind, Filter(keep, objects), namespace, name)
            == if kept then FirstMatch(kind, objects, namespace, name) else None
  {
    if objects != [] {
      var n := |objects| - 1;
      FilteredScan(kind, keep, objects[..n], namespace, name, kept);
      FirstMatchAppend(kind, objects[..n], objects[n], namespace, name);
      FirstMatchAppend(kind, Filter(keep, objects[..n]), objects[n], namespace, name);
      assert objects == objects[..n] + [objects[n]];
    }
  }

  /** Whether the narrowed snapshot still answers for a name. */
  predicate InScope(s: Selection, c: Collections, kind: Resource, namespace: string, name: string)
  {
    match kind
    case ConfigMaps => namespace == s.namespace && name in s.configMaps
    case Secrets => namespace == s.namespace && name in s.secrets + s.ingressSecrets
    case ServiceAccounts => namespace == s.namespace && name == AccountName(s)
    case Pvcs => namespace == s.namespace && name in s.claims
    case Pvs => name in VolumeNames(Kept(s, c, Pvcs))
    case _ => true
  }

  /** A narrowed snapshot gives the source's answer for every name in scope, and no
      answer for other names; only volumes may also be kept for their claim. */
  lemma NarrowedScan(s: Selection, c: Collections, kind: Resource, namespace: string, name: string)
    requires Indexed(kind) && forall k :: k in s.rest ==> !Indexed(k)
    ensures InScope(s, c, kind, namespace, name) ==>
              FirstMatch(kind, Kept(s, c, kind), namespace, name) == FirstMatch(kind, Get(c, kind), namespace, name)
    ensures !InScope(s, c, kind, namespace, name) && kind != Pvs ==>
              FirstMatch(kind, Kept(s, c, kind), namespace, name) == None
  {
    var kept := InScope(s, c, kind, namespace, name);
    hide Filter, FirstMatch, VolumeNames;
    match kind {
      case ConfigMaps => FilteredScan(kind, o => KeepsConfigMap(s, o), Get(c, kind), namespace, name, kept);
      case Secrets => FilteredScan(kind, o => KeepsSecret(s, o), Get(c, kind), namespace, name, kept);
      case ServiceAccounts => FilteredScan(kind, o => KeepsAccount(s, o), Get(c, kind), namespace, name, kept);
      case Pvcs => FilteredScan(kind, o => KeepsClaim(s, o), Get(c, kind), namespace, name, kept);
      case Pvs =>
        if kept {
          var volumes := VolumeNames(Kept(s, c, Pvcs));
          FilteredScan(kind, o => KeepsVolume(s, volumes, o), Get(c, kind), namespace, name, true);
        }
      case _ =>
    }
  }

  /** Looking a name in scope up in the narrowed copy and in its source gives the same object. */
  lemma NarrowingKeepsAnswers(s: Selection, source: View, kind: Resource, namespace: string, name: string)
    requires Current(source) && Indexed(kind) && (forall k :: k in s.rest ==> !Indexed(k))
    requires '/' !in namespace && PlainNamespaces(Get(source.collections, kind))
    requires InScope(s, source.collections, kind, namespace, name)
    ensures Answer(View(Narrowed(s, source.collections), None), kind, namespace, name) == Answer(source, kind, namespace, name)
  {
    var scoped := View(Narrowed(s, source.collections), None);
    NarrowedScan(s, source.collections, kind, namespace, name);
    LookupIsScan(source, kind, namespace, name);
    LookupIsScan(scoped, kind, namespace, name);
    KeptIsNarrowed(s, source.collections, kind);
    KeptIsPart(s, source.collections, kind);
    hide Narrowed, Kept, TablesOf, InScope;
    PlainNamespacesAreUnambiguous(kind, Get(source.collections, kind), namespace, name);
    PlainNamespacesAreUnambiguous(kind, Kept(s, source.collections, kind), namespace, name);
  }

  lemma KeptIsPart(s: Selection, c: Collections, kind: Resource)
    requires Indexed(kind) && forall k :: k in s.rest ==> !Indexed(k)
    ensures forall o :: o in Kept(s, c, kind) ==> o in Get(c, kind)
  {
    hide Filter, VolumeNames;
    match kind {
      case ConfigMaps => FilterMembers(o => KeepsConfigMap(s, o), Get(c, kind));
      case Secrets => FilterMembers(o => KeepsSecret(s, o), Get(c, kind));
      case ServiceAccounts => FilterMembers(o => KeepsAccount(s, o), Get(c, kind));
      case Pvcs => FilterMembers(o => KeepsClaim(s, o), Get(c, kind));
      case Pvs =>
        var volumes := VolumeNames(Kept(s, c, Pvcs));
        FilterMembers(o => KeepsVolume(s, volumes, o), Get(c, kind));
      case _ =>
    }
  }

  lemma KeptIsNarrowed(s: Selection, c: Collections, kind: Resource)
    ensures Get(Narrowed(s, c), kind) == Kept(s, c, kind)
  {
  }
}
