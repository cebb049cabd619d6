/** The concurrent collection of a snapshot. */
module Collector {
  import opened Seqs
  import opened Model
  import opened Snapshots
  import opened Sorting

  /** An empty namespace means all namespaces; an empty `only` selects every task. */
  datatype Collector = Collector(namespace: string, workers: int, only: map<Resource, bool>)

  /** What one task brings back; `error` is empty when it succeeds. */
  datatype Outcome = Outcome(values: seq<Object>, error: Option<string>)

  /** The results of the API calls and the classification of their errors. */
  datatype Cluster = Cluster(outcome: Resource -> Outcome, classify: Option<string> -> string,
                             reason: Option<string> -> string, httpCode: Option<string> -> int)

  predicate AllNamespaces(c: Collector)
  {
    c.namespace == ""
  }

  predicate Wants(c: Collector, r: Resource)
  {
    |c.only| == 0 || (r in c.only && c.only[r])
  }

  // ---------------------------------------------------------------------------
  // Tasks

  const BASE := 40

  /** The unconditional tasks, in order. */
  function TaskAt(i: nat): Resource
    requires i < BASE
  {
    match i
    case 0 => Pods case 1 => Nodes case 2 => NodeLeases case 3 => Services case 4 => Endpoints
    case 5 => EndpointSlices case 6 => Pvcs case 7 => Pvs case 8 => ConfigMaps case 9 => Secrets
    case 10 => ServiceAccounts case 11 => Namespaces case 12 => Events case 13 => ResourceQuotas case 14 => LimitRanges
    case 15 => Deployments case 16 => StatefulSets case 17 => DaemonSets case 18 => ReplicaSets case 19 => Jobs
    case 20 => CronJobs case 21 => Hpas case 22 => Ingresses case 23 => IngressClasses case 24 => NetworkPolicies
    case 25 => ValidatingWebhooks case 26 => MutatingWebhooks case 27 => StorageClasses case 28 => Pdbs case 29 => PriorityClasses
    case 30 => RuntimeClasses case 31 => NodeMetrics case 32 => PodMetrics case 33 => ApiServices case 34 => Crds
    case 35 => GatewayClasses case 36 => Gateways case 37 => HttpRoutes case 38 => Readyz case _ => Livez
  }

  function BaseTasks(n: nat): (tasks: seq<Resource>)
    requires n <= BASE
    ensures |tasks| == n
  {
    if n == 0 then [] else BaseTasks(n - 1) + [TaskAt(n - 1)]
  }

  function Tasks(c: Collector): seq<Resource>
  {
    BaseTasks(BASE) + if !AllNamespaces(c) || (Wants(c, AllPods) && !Wants(c, Pods)) then [AllPods] else []
  }

  function Selected(c: Collector): seq<Resource>
  {
    Filter(r => Wants(c, r), Tasks(c))
  }

  /** The collections that the update of a task assigns. */
  function Writes(c: Collector, r: Resource): set<Resource>
  {
    if r == Pods && AllNamespaces(c) then {Pods, AllPods} else {r}
  }

  function Position(r: Resource): nat
  {
    match r
    case Pods => 0 case Nodes => 1 case NodeLeases => 2 case Services => 3 case Endpoints => 4 case EndpointSlices => 5
    case Pvcs => 6 case Pvs => 7 case ConfigMaps => 8 case Secrets => 9 case ServiceAccounts => 10 case Namespaces => 11
    case Events => 12 case ResourceQuotas => 13 case LimitRanges => 14 case Deployments => 15 case StatefulSets => 16
    case DaemonSets => 17 case ReplicaSets => 18 case Jobs => 19 case CronJobs => 20 case Hpas => 21 case Ingresses => 22
    case IngressClasses => 23 case NetworkPolicies => 24 case ValidatingWebhooks => 25 case MutatingWebhooks => 26
    case StorageClasses => 27 case Pdbs => 28 case PriorityClasses => 29 case RuntimeClasses => 30 case NodeMetrics => 31
    case PodMetrics => 32 case ApiServices => 33 case Crds => 34 case GatewayClasses => 35 case Gateways => 36
    case HttpRoutes => 37 case Readyz => 38 case Livez => 39 case AllPods => 40
  }

  lemma {:induction false} BaseTaskAt(n: nat, i: nat)
    requires i < n <= BASE
    ensures BaseTasks(n)[i] == TaskAt(i)
  {
    hide TaskAt;
    if i < n - 1 {
      BaseTaskAt(n - 1, i);
    }
  }

  lemma TasksAreListed(r: Resource)
    ensures Position(r) <= BASE && (Position(r) == BASE <==> r == AllPods)
    ensures r != AllPods ==> TaskAt(Position(r)) == r
  {
  }

  lemma TasksAreOrdered(i: nat)
    requires i < BASE
    ensures Position(TaskAt(i)) == i
  {
  }

  lemma RankedOnce<T(!new)>(rank: T -> nat, s: seq<T>, x: T)
    requires forall i :: 0 <= i < |s| ==> rank(s[i]) == i
    ensures multiset(s)[x] == if rank(x) < |s| && s[rank(x)] == x then 1 else 0
  {
    assert Distinct(s);
    DistinctMultiplicity(s, x);
    assert x in s <==> x in multiset(s);
  }

  lemma BaseOnce(r: Resource)
    ensures multiset(BaseTasks(BASE))[r] == if r == AllPods then 0 else 1
  {
    var base := BaseTasks(BASE);
    hide TaskAt, Position, BaseTasks;
    forall i | 0 <= i < BASE ensures Position(base[i]) == i {
      BaseTaskAt(BASE, i);
      TasksAreOrdered(i);
    }
    TasksAreListed(r);
    RankedOnce(Position, base, r);
    if r != AllPods {
      BaseTaskAt(BASE, Position(r));
    }
  }

  lemma TaskOnce(c: Collector, r: Resource)
    ensures multiset(Tasks(c))[r]
            == if r == AllPods && AllNamespaces(c) && !(Wants(c, AllPods) && !Wants(c, Pods)) then 0 else 1
  {
    BaseOnce(r);
    hide BaseTasks;
  }

  /** The selected tasks are the wanted resources, once each; all_pods is one of
      them unless the pods task already covers all namespaces. */
  lemma SelectedTasks(c: Collector, r: Resource)
    ensures multiset(Selected(c))[r]
            == if Wants(c, r) && !(r == AllPods && AllNamespaces(c) && Wants(c, Pods)) then 1 else 0
  {
    TaskOnce(c, r);
    FilterMultiplicity(x => Wants(c, x), Tasks(c), r);
    hide Filter, Tasks;
  }

  /** No two selected tasks write the same collection. */
  lemma OneWriter(c: Collector, q: Resource, r: Resource, field: Resource)
    requires q in Selected(c) && r in Selected(c) && field in Writes(c, q) && field in Writes(c, r)
    ensures q == r
  {
    SelectedTasks(c, q);
    SelectedTasks(c, r);
    assert q in multiset(Selected(c)) && r in multiset(Selected(c));
    hide Selected;
  }

  method CollectTasks(c: Collector) returns (tasks: seq<Resource>)
    ensures tasks == Tasks(c)
  {
    tasks := BaseTasks(BASE);
    var wantsAllPods := |c.only| == 0 || (AllPods in c.only && c.only[AllPods]);
    var wantsScopedPods := |c.only| == 0 || (Pods in c.only && c.only[Pods]);
    hide BaseTasks;
    if c.namespace != "" || (wantsAllPods && !wantsScopedPods) {
      tasks := tasks + [AllPods];
    }
  }

  // ---------------------------------------------------------------------------
  // The workers

  /** The state of the group: how many tasks the loop has handed out, which run,
      and the results channel in the order of completion. */
  datatype Group = Group(started: nat, running: set<Resource>, results: seq<Resource>)

  function Limit(c: Collector): int
  {
    Max(1, Min(c.workers, 16))
  }

  const IDLE := Group(0, {}, [])

  /** The loop hands out the next task once fewer than the limit are running. */
  predicate Starts(c: Collector, g: Group, h: Group)
  {
    && g.started < |Selected(c)| && |g.running| < Limit(c)
    && h == Group(g.started + 1, g.running + {Selected(c)[g.started]}, g.results)
  }

  /** Some running task sends its result. */
  ghost predicate Finishes(g: Group, h: Group)
  {
    exists r :: r in g.running && h == Group(g.started, g.running - {r}, g.results + [r])
  }

  ghost predicate Next(c: Collector, g: Group, h: Group)
  {
    Starts(c, g, h) || Finishes(g, h)
  }

  ghost predicate IsRun(c: Collector, run: seq<Group>)
  {
    run != [] && run[0] == IDLE && forall i :: 0 <= i < |run| - 1 ==> Next(c, run[i], run[i + 1])
  }

  /** group.Wait returns. */
  predicate Done(c: Collector, g: Group)
  {
    g.started == |Selected(c)| && g.running == {}
  }

  ghost predicate Valid(c: Collector, g: Group)
  {
    && g.started <= |Selected(c)| && |g.running| <= Limit(c)
    && |g.running| + |g.results| == g.started
    && Accounted(g.running, g.results, Selected(c)[..g.started])
  }

  /** The tasks handed out are those that run and those that have sent their result. */
  ghost predicate Accounted<T(!new)>(running: set<T>, results: seq<T>, started: seq<T>)
  {
    forall x :: (if x in running then 1 else 0) + multiset(results)[x] == multiset(started)[x]
  }

  lemma StartAccounts<T(!new)>(running: set<T>, results: seq<T>, started: seq<T>, r: T)
    requires Accounted(running, results, started) && multiset(started)[r] == 0
    ensures r !in running && Accounted(running + {r}, results, started + [r])
  {
  }

  lemma StartIsValid(c: Collector, g: Group, h: Group)
    requires Valid(c, g) && Starts(c, g, h)
    ensures Valid(c, h)
  {
    hide Selected, Limit, Accounted, Wants, AllNamespaces;
    var before, r, after := Selected(c)[..g.started], Selected(c)[g.started], Selected(c)[h.started..];
    SelectedTasks(c, r);
    assert Selected(c) == before + [r] + after;
    assert multiset(before)[r] == 0;
    assert Selected(c)[..h.started] == before + [r];
    StartAccounts(g.running, g.results, before, r);
  }

  lemma FinishIsValid(c: Collector, g: Group, h: Group)
    requires Valid(c, g) && Finishes(g, h)
    ensures Valid(c, h)
  {
  }

  lemma NextKeepsValid(c: Collector, g: Group, h: Group)
    requires Valid(c, g) && Next(c, g, h)
    ensures Valid(c, h)
  {
    hide Valid, Starts, Finishes;
    if Starts(c, g, h) {
      StartIsValid(c, g, h);
    } else {
      FinishIsValid(c, g, h);
    }
  }

  lemma {:induction false} RunIsValid(c: Collector, run: seq<Group>)
    requires IsRun(c, run)
    ensures Valid(c, run[|run| - 1])
    ensures |run| - 1 == run[|run| - 1].started + |run[|run| - 1].results|
  {
    var n := |run| - 1;
    if n == 0 {
      IdleIsValid(c);
    } else {
      hide Valid, Starts, Finishes;
      RunIsValid(c, run[..n]);
      assert Next(c, run[n - 1], run[n]);
      NextKeepsValid(c, run[n - 1], run[n]);
      NextCounts(c, run[n - 1], run[n]);
    }
  }

  lemma IdleIsValid(c: Collector)
    ensures Valid(c, IDLE)
  {
    assert Selected(c)[..0] == [];
    hide Selected;
  }

  lemma NextCounts(c: Collector, g: Group, h: Group)
    requires Next(c, g, h)
    ensures h.started + |h.results| == g.started + |g.results| + 1
  {
    hide Selected, Limit;
  }

  /** Whatever the workers do: as many as configured run at once, but at least one and
      at most 16; the results channel, made for all tasks, never fills up; the next
      task can start whenever fewer run, a running task can always send its result;
      and no run takes more than two steps a task. */
  lemma CollectionIsSafe(c: Collector, run: seq<Group>)
    requires IsRun(c, run)
    ensures var g := run[|run| - 1];
            && |g.running| <= (if c.workers < 1 then 1 else if c.workers > 16 then 16 else c.workers)
            && |g.results| <= |Tasks(c)| && |run| - 1 <= 2 * |Selected(c)|
            && (g.started < |Selected(c)| && |g.running| < Max(1, Min(c.workers, 16)) ==> CanStart(c, g))
            && (forall r :: r in g.running ==> CanFinish(c, g, r))
            && (!Done(c, g) ==> exists h :: Next(c, g, h))
  {
    var g := run[|run| - 1];
    RunIsValid(c, run);
    hide Selected;
    Progresses(c, g);
    hide CanStart, CanFinish;
    SelectedFits(c);
  }

  /** No valid group is stuck. */
  lemma Progresses(c: Collector, g: Group)
    requires Valid(c, g)
    ensures g.started < |Selected(c)| && |g.running| < Max(1, Min(c.workers, 16)) ==> CanStart(c, g)
    ensures forall r :: r in g.running ==> CanFinish(c, g, r)
    ensures !Done(c, g) ==> exists h :: Next(c, g, h)
  {
    hide Selected, Accounted;
    forall r | r in g.running ensures CanFinish(c, g, r) {
      assert Next(c, g, Group(g.started, g.running - {r}, g.results + [r]));
    }
    if g.started < |Selected(c)| && |g.running| < Limit(c) {
      var h := Group(g.started + 1, g.running + {Selected(c)[g.started]}, g.results);
      assert Next(c, g, h);
    }
    if !Done(c, g) {
      if g.running == {} {
        assert Next(c, g, Group(g.started + 1, g.running + {Selected(c)[g.started]}, g.results));
      } else {
        var r :| r in g.running;
        assert CanFinish(c, g, r);
      }
    }
  }

  ghost predicate CanStart(c: Collector, g: Group)
    requires g.started < |Selected(c)|
  {
    exists h :: Next(c, g, h) && h.started == g.started + 1 && h.running == g.running + {Selected(c)[g.started]}
  }

  ghost predicate CanFinish(c: Collector, g: Group, r: Resource)
  {
    exists h :: Next(c, g, h) && h.running == g.running - {r} && h.results == g.results + [r]
  }

  lemma SelectedFits(c: Collector)
    ensures |Selected(c)| <= |Tasks(c)|
  {
  }

  /** When the group is done, every selected task has sent exactly one result. */
  lemma DoneIsComplete(c: Collector, run: seq<Group>)
    requires IsRun(c, run) && Done(c, run[|run| - 1])
    ensures multiset(run[|run| - 1].results) == multiset(Selected(c))
  {
    RunIsValid(c, run);
    assert Selected(c)[..|Selected(c)|] == Selected(c);
    hide Selected;
  }

  // ---------------------------------------------------------------------------
  // The serial apply phase

  datatype Filled = Filled(collections: Collections, statuses: map<Resource, Status>)

  function FetchStatus(w: Cluster, error: Option<string>): Status
  {
    Status(error == None, w.classify(error), w.reason(error), w.httpCode(error))
  }

  /** What a task leaves behind: its update is applied even when it failed. */
  function ApplyResult(c: Collector, w: Cluster, f: Filled, r: Resource): Filled
  {
    var o := w.outcome(r);
    Filled(f.collections + map field | field in Writes(c, r) :: o.values, f.statuses[r := FetchStatus(w, o.error)])
  }

  function Populate(c: Collector, w: Cluster, results: seq<Resource>): Filled
  {
    if results == [] then Filled(map[], map[])
    else ApplyResult(c, w, Populate(c, w, results[..|results| - 1]), results[|results| - 1])
  }

  /** The cluster-wide Pod list serves both views, with the same status. */
  function ShareStatus(c: Collector, f: Filled): Filled
  {
    if AllNamespaces(c) && Wants(c, AllPods) && Pods in f.statuses
    then f.(statuses := f.statuses[AllPods := f.statuses[Pods]]) else f
  }

  ghost function FilledIn(snapshot: Snapshot): Filled
    reads snapshot
  {
    Filled(snapshot.collections, snapshot.statuses)
  }

  method ApplyUpdate(c: Collector, w: Cluster, snapshot: Snapshot, r: Resource)
    modifies snapshot`collections, snapshot`statuses
    ensures FilledIn(snapshot) == ApplyResult(c, w, old(FilledIn(snapshot)), r)
  {
    hide FetchStatus;
    var values := w.outcome(r).values;
    UpdateWrites(c, snapshot.collections, r, values);
    hide Writes;
    snapshot.collections := snapshot.collections[r := values];
    if r == Pods && c.namespace == "" {
      snapshot.collections := snapshot.collections[AllPods := values];
    }
    snapshot.statuses := snapshot.statuses[r := FetchStatus(w, w.outcome(r).error)];
  }

  lemma UpdateWrites(c: Collector, before: Collections, r: Resource, values: seq<Object>)
    ensures before + (map field | field in Writes(c, r) :: values)
            == if r == Pods && c.namespace == "" then before[r := values][AllPods := values] else before[r := values]
  {
  }

  method Collect(c: Collector, w: Cluster, results: seq<Resource>) returns (snapshot: Snapshot)
    ensures fresh(snapshot) && snapshot.indexed == null
    ensures FilledIn(snapshot) == ShareStatus(c, Populate(c, w, results))
  {
    hide ApplyResult;
    snapshot := new Snapshot(map[]);
    for i := 0 to |results|
      invariant fresh(snapshot) && snapshot.indexed == null
      invariant FilledIn(snapshot) == Populate(c, w, results[..i])
    {
      PrefixStep(results, i);
      ApplyUpdate(c, w, snapshot, results[i]);
    }
    assert results[..|results|] == results;
    hide Populate;
    if c.namespace == "" && (|c.only| == 0 || (AllPods in c.only && c.only[AllPods])) {
      if Pods in snapshot.statuses {
        snapshot.statuses := snapshot.statuses[AllPods := snapshot.statuses[Pods]];
      }
    }
  }

  // ---------------------------------------------------------------------------
  // Any order of completion

  ghost predicate ValuesWritten(c: Collector, w: Cluster, tasks: set<Resource>, collections: Collections)
  {
    forall r, field :: r in tasks && field in Writes(c, r) ==>
      field in collections && collections[field] == w.outcome(r).values
  }

  ghost predicate OnlyWritten(c: Collector, tasks: set<Resource>, collections: Collections)
  {
    forall field :: field in collections ==> Written(c, tasks, field)
  }

  /** Every listed task left its values in each collection it writes; nothing else was written. */
  ghost predicate CollectionsFilled(c: Collector, w: Cluster, tasks: set<Resource>, collections: Collections)
  {
    ValuesWritten(c, w, tasks, collections) && OnlyWritten(c, tasks, collections)
  }

  ghost predicate Written(c: Collector, tasks: set<Resource>, field: Resource)
  {
    exists r :: r in tasks && field in Writes(c, r)
  }

  ghost predicate StatusesFilled(w: Cluster, tasks: set<Resource>, statuses: map<Resource, Status>)
  {
    && (forall r :: r in statuses <==> r in tasks)
    && (forall r :: r in tasks ==> statuses[r] == FetchStatus(w, w.outcome(r).error))
  }

  ghost predicate FilledBy(c: Collector, w: Cluster, tasks: set<Resource>, f: Filled)
  {
    CollectionsFilled(c, w, tasks, f.collections) && StatusesFilled(w, tasks, f.statuses)
  }

  ghost predicate OwnFields(c: Collector, tasks: set<Resource>)
  {
    forall q, r, field :: q in tasks && r in tasks && field in Writes(c, q) && field in Writes(c, r) ==> q == r
  }

  function Elements(results: seq<Resource>): set<Resource>
  {
    set r | r in results
  }

  lemma {:induction false} PopulateFills(c: Collector, w: Cluster, results: seq<Resource>)
    requires OwnFields(c, Elements(results))
    ensures FilledBy(c, w, Elements(results), Populate(c, w, results))
  {
    hide Writes, FetchStatus, ApplyResult;
    if results != [] {
      hide FilledBy;
      var n := |results| - 1;
      assert results == results[..n] + [results[n]];
      assert Elements(results) == Elements(results[..n]) + {results[n]};
      PopulateFills(c, w, results[..n]);
      ApplyFills(c, w, Elements(results[..n]), results[n], Populate(c, w, results[..n]));
    }
  }

  lemma ApplyReads(c: Collector, w: Cluster, f: Filled, r: Resource, field: Resource)
    ensures var after := ApplyResult(c, w, f, r).collections;
            && (field in Writes(c, r) ==> field in after && after[field] == w.outcome(r).values)
            && (field !in Writes(c, r) && field in f.collections ==> field in after && after[field] == f.collections[field])
  {
    hide Writes, FetchStatus;
  }

  lemma ApplyWrites(c: Collector, w: Cluster, tasks: set<Resource>, r: Resource, f: Filled)
    requires ValuesWritten(c, w, tasks, f.collections) && OwnFields(c, tasks + {r})
    ensures ValuesWritten(c, w, tasks + {r}, ApplyResult(c, w, f, r).collections)
  {
    var after := ApplyResult(c, w, f, r).collections;
    hide Writes, ApplyResult;
    forall q, field | q in tasks + {r} && field in Writes(c, q)
      ensures field in after && after[field] == w.outcome(q).values
    {
      ApplyReads(c, w, f, r, field);
      if field in Writes(c, r) {
        assert r in tasks + {r} && q == r;
      }
    }
  }

  lemma ApplyWritesOnly(c: Collector, w: Cluster, tasks: set<Resource>, r: Resource, f: Filled)
    requires OnlyWritten(c, tasks, f.collections)
    ensures OnlyWritten(c, tasks + {r}, ApplyResult(c, w, f, r).collections)
  {
  }

  lemma ApplyFills(c: Collector, w: Cluster, tasks: set<Resource>, r: Resource, f: Filled)
    requires FilledBy(c, w, tasks, f) && OwnFields(c, tasks + {r})
    ensures FilledBy(c, w, tasks + {r}, ApplyResult(c, w, f, r))
  {
    ApplyWrites(c, w, tasks, r, f);
    ApplyWritesOnly(c, w, tasks, r, f);
    hide ValuesWritten, OnlyWritten, Writes, FetchStatus, OwnFields;
  }

  lemma FilledOnce(c: Collector, w: Cluster, tasks: set<Resource>, f: Filled, g: Filled)
    requires FilledBy(c, w, tasks, f) && FilledBy(c, w, tasks, g)
    ensures f == g
  {
    hide Writes, FetchStatus;
    assert f.collections == g.collections;
    assert f.statuses == g.statuses;
  }

  lemma DoneElements(c: Collector, run: seq<Group>)
    requires IsRun(c, run) && Done(c, run[|run| - 1])
    ensures Elements(run[|run| - 1].results) == Elements(Selected(c)) && OwnFields(c, Elements(Selected(c)))
  {
    DoneIsComplete(c, run);
    SamePermutedMembers(run[|run| - 1].results, Selected(c));
    hide Selected, Writes;
    forall q, r, field | q in Selected(c) && r in Selected(c) && field in Writes(c, q) && field in Writes(c, r) ensures q == r {
      OneWriter(c, q, r, field);
    }
  }

  /** Whatever order the workers finish in, the snapshot is the same. */
  lemma CompletionOrderIsIrrelevant(c: Collector, w: Cluster, run: seq<Group>, other: seq<Group>)
    requires IsRun(c, run) && Done(c, run[|run| - 1])
    requires IsRun(c, other) && Done(c, other[|other| - 1])
    ensures ShareStatus(c, Populate(c, w, run[|run| - 1].results)) == ShareStatus(c, Populate(c, w, other[|other| - 1].results))
  {
    var a, b := run[|run| - 1].results, other[|other| - 1].results;
    hide IsRun, Done, Selected, Populate, OwnFields, FilledBy, ShareStatus, Elements;
    DoneElements(c, run);
    DoneElements(c, other);
    PopulateFills(c, w, a);
    PopulateFills(c, w, b);
    FilledOnce(c, w, Elements(a), Populate(c, w, a), Populate(c, w, b));
  }

  /** The task whose result answers for a resource. */
  function Source(c: Collector, r: Resource): Resource
  {
    if r == AllPods && AllNamespaces(c) && Wants(c, Pods) then Pods else r
  }

  /** The collector asks for the resource. */
  predicate IsAsked(c: Collector, r: Resource)
  {
    c.only == map[] || (r in c.only && c.only[r])
  }

  /** A status for exactly the wanted resources, with the outcome of the task that
      answers: all_pods is answered by the pods task when that lists all namespaces. */
  ghost predicate Answers(c: Collector, w: Cluster, f: Filled, r: Resource)
  {
    var shared := r == AllPods && c.namespace == "" && IsAsked(c, Pods);
    var o := w.outcome(if shared then Pods else r);
    && (r in f.statuses <==> IsAsked(c, r))
    && (r in f.collections <==> IsAsked(c, r) || shared)
    && (r in f.statuses ==>
          && (f.statuses[r].available <==> o.error.None?)
          && f.statuses[r] == Status(o.error.None?, w.classify(o.error), w.reason(o.error), w.httpCode(o.error)))
    && (r in f.collections ==> f.collections[r] == o.values)
  }

  lemma SharedAnswers(c: Collector, w: Cluster, tasks: set<Resource>, f: Filled, r: Resource)
    requires FilledBy(c, w, tasks, f)
    requires Pods in tasks <==> Wants(c, Pods)
    requires r in tasks <==> Wants(c, r) && Source(c, r) == r
    ensures Answers(c, w, ShareStatus(c, f), r)
  {
    AskedIsWanted(c, r);
    AskedIsWanted(c, Pods);
    SourceWrites(c, r);
    WritersAre(c, tasks, r);
    hide Writes, Wants, Written, IsAsked;
    assert r in ShareStatus(c, f).collections <==> r in f.collections;
  }

  lemma AskedIsWanted(c: Collector, r: Resource)
    ensures Wants(c, r) <==> IsAsked(c, r)
  {
    assert |c.only| == 0 <==> c.only == map[];
  }

  lemma WritersAre(c: Collector, tasks: set<Resource>, field: Resource)
    ensures Written(c, tasks, field) <==> field in tasks || (field == AllPods && AllNamespaces(c) && Pods in tasks)
  {
    assert field in Writes(c, field);
    if field == AllPods && AllNamespaces(c) && Pods in tasks {
      assert AllPods in Writes(c, Pods);
    }
  }

  lemma SourceWrites(c: Collector, r: Resource)
    ensures r in Writes(c, Source(c, r))
  {
  }

  /** A finished collection has a status and a value for exactly the wanted
      resources, with all_pods answered by the pods task when that lists everything. */
  lemma StatusesAreWanted(c: Collector, w: Cluster, run: seq<Group>, r: Resource)
    requires IsRun(c, run) && Done(c, run[|run| - 1])
    ensures Answers(c, w, ShareStatus(c, Populate(c, w, run[|run| - 1].results)), r)
  {
    var results := run[|run| - 1].results;
    DoneElements(c, run);
    SelectedTasks(c, r);
    SelectedTasks(c, Pods);
    assert r in Elements(results) <==> r in multiset(Selected(c));
    assert Pods in Elements(results) <==> Pods in multiset(Selected(c));
    hide IsRun, Done, Selected, Populate, FetchStatus, OwnFields, FilledBy, ShareStatus, Elements;
    PopulateFills(c, w, results);
    SharedAnswers(c, w, Elements(results), Populate(c, w, results), r);
  }
}
