# Verified model of k8s-diagnose

k8s-diagnose reads the state of a Kubernetes cluster, turns it into findings,
groups the findings under root causes, compares the result with earlier runs
and decides what to report, notify and exit with. This project models that
decision logic in Dafny and proves what its callers rely on. Verify with
`dafny verify dfyconfig.toml`.

| file | models |
|---|---|
| `Graph.dfy`, `GraphLaws.dfy` | the dependency graph and its breadth-first search with a first-hop key filter |
| `Model.dfy`, `StateLaws.dfy` | findings, root causes, `State`, health score and exit policy |
| `Correlation.dfy`, `CorrelationLaws.dfy`, `CausationLaws.dfy` | root-cause correlation: candidates, priorities, claiming, blast radius, health afterwards; which findings a root lists and which symptoms it absorbs |
| `Workloads.dfy`, `WorkloadLaws.dfy` | the cached resolver of owning workloads and workload-scoped baseline rules |
| `Report.dfy`, `ReportLaws.dfy` | the difference of two reports, what it conserves, its symmetry |
| `HistoryDiff.dfy`, `DiffLaws.dfy` | bridging over samples that could not evaluate a finding, and what a webhook is told; what every entry of a difference means |
| `Trends.dfy`, `TrendLaws.dfy` | flapping findings and growing restart counts |
| `Config.dfy`, `Profiles.dfy` | the configuration, its combination rules, and the command profiles |
| `Settings.dfy`, `Quoting.dfy`, `Ini.dfy`, `IniLaws.dfy` | the setting catalogue, quoted values, saving and loading the INI file, and what files written by hand do |
| `Scheduling.dfy`, `SchedulingLaws.dfy` | per-node feasibility of a pending Pod and the cluster verdict |
| `Snapshots.dfy`, `SnapshotLaws.dfy` | the lazily built name index, its sharing by shallow copies, narrowing to one Pod |
| `Collector.dfy` | the concurrent collector: workers, results channel, serial apply phase |
| `EnvShadow.dfy`, `EnvLaws.dfy` | ConfigMap keys shadowed in a container's environment |
| `Connect.dfy`, `ConnectLaws.dfy` | connection checks: local ports, shared results, request signatures |
| `Text.dfy`, `Sorting.dfy`, `Seqs.dfy`, `Keys.dfy` | strings, stable sorting, filters, sorted map keys |

Code that changes state is modelled by classes and loops, each proved equal to a
specification function; the laws are then lemmas about those functions. The modules
named `...Laws` say what the functions answer in the words of the inputs: literal
codes, severities, words and limits, members of the given lists, paths of the graph. What the
program asks of its surroundings (SHA-256, wildcard and label matching, the
Kubernetes component helpers, the file system, random numbers, API results) is a
function-valued parameter, so every theorem holds for whatever they answer. Findings
are identified by their ID; theorems that need it say that the IDs of one run are
distinct, which `Model.State.Add` maintains.

Five properties hold only under a condition; for each the exact condition is proved:

- A profile keeps a valid configuration valid unless a cluster-snapshot path meets
  `list`, or a replayed snapshot meets `deep` (`Profiles.ProfileKeepsValid`).
- An index lookup is the linear scan unless an earlier object merely spells the same
  `namespace/name` key (`Snapshots.LookupIsScan`, `Snapshots.SlashMisleads`).
- A finding interrupted by unknown samples is reconfirmed rather than named to the
  webhook again, unless the samples outlast the kept history of max(1, window - 1)
  runs (`HistoryDiff.RenotifiedExactly`, `HistoryDiff.OneGapRenotifies`). The kept
  history is shorter still when the database retains fewer runs, which
  `HistoryDiff.RenotifiedWithin` covers.
- Checks with equal signatures are for the same request unless the separators NUL,
  line feed and colon lie differently in their texts; a Service target can then show
  the answer to another request (`Connect.SignatureIdentifiesExactly`,
  `Connect.LineFeedSharesOtherRequest`), although its comment promises equality for
  all targets.
- The port for an extra check is unused unless the results reach the last port and use
  one between 10000 and 59999 (`Connect.NextPortCollidesExactly`), although its comment
  promises a free port always. A round of up to 5536 targets never does both, one of
  5537 can (`Connect.NextPortIsFree`, `Connect.NextPortMayCollide`).

## Model

| member | source | states |
|---|---|---|
| Graph.DependencyGraph.Add | internal/rules/rootcause.go:27-37 | an edge is appended exactly when both ends are named, differ and the edge is new; otherwise the graph is unchanged |
| Graph.DependencyGraph.Descendants | internal/rules/rootcause.go:45-75 | the queue-and-depth-map loop terminates on every graph, cycles included, and returns the list of the reference search |
| Graph.DescendantsCorrect | internal/rules/rootcause.go:45-75 | every result is a real labelled path of shortest length, each reachable resource appears once, in non-decreasing depth, never the start; only the start's mismatching keyed edges are dropped |
| Graph.DescendantsAreReachable | internal/rules/rootcause.go:45-75 | a resource is in the result if and only if it differs from the start and is reachable through the filtered graph |
| GraphLaws.DescendantsIgnoreInsertion | internal/rules/rootcause.go:45-75 | resources, order and paths do not depend on the order in which edges were added, as long as no two edges of a node have the same text of target and relation |
| Model.State.Add | internal/model/model.go:250-263 | a finding is kept only under a new ID, which keeps the IDs of the state distinct; a kept finding drops the root causes |
| Model.State.SetRootCauses | internal/model/model.go:301-305 | replaces the root causes and nothing else |
| Model.State.Acknowledge | internal/model/model.go:329-342 | marks the first finding with the ID and only that one, and tells whether it existed |
| Model.AcknowledgeNeverFails | internal/model/model.go:329-342 | acknowledging a finding never increases the number of findings that fail a run |
| Model.State.Health | internal/model/model.go:365-399 | the score of the scoped total, or 100 minus the penalties of all roots minus 8 for every Issue outside the Issue-caused roots, never below 0 |
| Model.State.ShouldFail | internal/model/model.go:401-426 | a run fails exactly when the unacknowledged findings of the policy's severities exceed the allowed number |
| StateLaws.FailingAre | internal/model/model.go:401-426 | the findings that fail a run are the unacknowledged ones of the policy's severities: Issues unless the policy is none, Warnings under warning, unavailable and any, Unavailable under unavailable and any, Candidates under any |
| StateLaws.HealthIs | internal/model/model.go:365-399 | health lies between 0 and 100; it is the whole percentage of the scoped maximum, or 100 less the root penalties and 8 for each Issue that no Issue-caused root lists |
| Model.NewRootCause | internal/model/model.go:152-188 | clamped confidence, confirmation at 90 for Issues, classification, and a penalty that counts each impacted resource once |
| Model.UniqueStrings | internal/model/model.go:190-205 | the loop with its seen-set equals the definition that UniqueMembers characterises |
| Model.UniqueMembers | internal/model/model.go:190-205 | the result holds each trimmed non-empty value exactly once and nothing else |
| Correlation.BuildIndex | internal/rules/rootcause.go:168-180 | the grouped and sorted findings per resource and the findings by ID |
| Correlation.SelectCandidates | internal/rules/rootcause.go:182-201 | the eligible findings, without logs whose resource has a non-log candidate |
| Correlation.AssembleRoot | internal/rules/rootcause.go:217-280 | one root with its impacts, evidence and related IDs, using the graph's own search; `CausationLaws` says which those are |
| Correlation.Claim | internal/rules/rootcause.go:282-292 | exactly the Issue IDs that the root may absorb are added to the claimed set |
| Correlation.Correlate | internal/rules/rootcause.go:166-307 | the state's roots become the claiming loop's result on its findings |
| CorrelationLaws.StrongIsNoSymptom | internal/rules/rootcause.go:439-465 | a code that can confirm a root is neither a symptom code nor a log code |
| CorrelationLaws.ConfirmedIsStrong | internal/rules/rootcause.go:309-323 | despite the confidence caps, a root is confirmed if and only if its cause is an Issue with a strong code and confidence of at least 90 |
| CorrelationLaws.ConfirmedComesFirst | internal/rules/rootcause.go:202-211 | every cause of a confirmed root sorts before every symptom |
| CorrelationLaws.CausesCharacterised | internal/rules/rootcause.go:181-306 | a finding causes a root if and only if it is a candidate and not an Issue symptom listed by a confirmed root |
| CorrelationLaws.CausesAreDistinct | internal/rules/rootcause.go:212-306 | no finding causes two roots, and each root is the one assembled from its cause |
| CorrelationLaws.IssuesAreCovered | internal/rules/rootcause.go:282-292 | every Issue that is not a log finding causes exactly one root, or is a symptom listed in a confirmed root |
| CorrelationLaws.CorrelateIgnoresOrder | internal/rules/rootcause.go:166-307 | permuting findings with distinct IDs changes nothing in the list of roots |
| CorrelationLaws.BlastRadius | internal/rules/rootcause.go:224-275 | a root has exactly one impact for each degraded resource that its cause reaches, with a shortest real path, direct exactly at depth one |
| CorrelationLaws.PenaltyRange | internal/model/model.go:171-178 | an Issue-caused root costs 8 points plus half its number of impacts rounded up, at most 14; other roots cost nothing |
| CorrelationLaws.UngroupedAreLogs | internal/model/model.go:390-397 | after correlation only a log Issue that is mere evidence can be charged outside the roots |
| CorrelationLaws.HealthAfterCorrelate | internal/model/model.go:365-399 | without log Issues, health is 100 minus the penalties of the Issue-caused roots, between 100-14k and 100-8k for k of them, floored at 0 |
| CausationLaws.RelatedExactly | internal/rules/rootcause.go:224-263 | the related IDs of a root are those of the cause, of the other log findings of its resource, and of the Issues and Warnings of its impacts, and no others |
| CausationLaws.EvidenceExactly | internal/rules/rootcause.go:227-263 | the evidence of a root is that of its cause, its assessment, and a signature and the matching lines of each related log finding, and nothing else |
| CausationLaws.ListsSymptom | internal/rules/rootcause.go:217-292 | a confirmed root lists an Issue symptom if and only if its cause is a confident Issue with a strong code that reaches the symptom's degraded resource |
| CausationLaws.SymptomAbsorbedExactly | internal/rules/rootcause.go:181-292 | an Issue symptom of a named resource causes no root if and only if some Issue with a strong code, a confidence of at least 90 and another resource reaches the symptom's resource through the filtered graph and that resource is degraded |
| CausationLaws.ProofIsCause | internal/rules/rootcause.go:282-306 | an Issue with a strong code and confidence of at least 90 always causes a root |
| CausationLaws.ImpactMessageIs | internal/rules/rootcause.go:240-254 | the message of an impact is that of the Issue or Warning with the least ID on the resource, or the resource's own degraded status when there is none |
| CausationLaws.ImpactFields | internal/rules/rootcause.go:255-274 | an impact names its last relation, the message of its resource, and the IDs of exactly the Issues and Warnings there |
| CausationLaws.RequiredKeyIs | internal/rules/rootcause.go:217-224 | only a missing-key finding filters the first hop, by what its stable key says behind the last slash, and by nothing without a slash |
| CausationLaws.RootFields | internal/rules/rootcause.go:276-280 | the confidence of a root is capped at 70 for symptoms and at 85 for logs and codes that prove nothing; confirmation at 90 and the classification at 60 follow from it |
| CausationLaws.AssessmentIs | internal/rules/rootcause.go:309-323 | which of the four assessments the evidence gives, by the code, severity and confidence of the cause |
| CausationLaws.RootsAreOrdered | internal/rules/rootcause.go:294-306 | the roots are listed confirmed first, then by falling confidence, then by resource, then by ID |
| CausationLaws.OnlyEvidenceIs | internal/rules/rootcause.go:182-201 | a log finding is mere evidence exactly where another finding of its resource, not a log, can be a cause |
| Workloads.OutermostWorkloads | internal/rules/rootcause.go:116-135 | keeps the workloads that reach no other given workload |
| Workloads.BaselineWorkloadResolver.Resolve | internal/rules/rootcause.go:81-114 | a cached answer is always the uncached one |
| Workloads.OwnersCharacterised | internal/rules/rootcause.go:81-135 | the owners are exactly the reached top-level controllers that reach no other one |
| Workloads.OwnersAreOutermost | internal/rules/rootcause.go:116-135 | no owner reaches another owner |
| Workloads.OwnersCover | internal/rules/rootcause.go:116-135 | on an acyclic graph every reached top-level controller is an owner or reaches one |
| WorkloadLaws.ControllersOwn | internal/rules/rootcause.go:81-135 | when a Deployment, StatefulSet, DaemonSet, Job or CronJob is reached, the owners are the reached ones that reach no other |
| WorkloadLaws.ReplicaSetsOwn | internal/rules/rootcause.go:81-114 | when none is reached, the owners are exactly the reached ReplicaSets |
| WorkloadLaws.KindIs | internal/rules/rootcause.go:81-114 | the kind of a reference is the text before its first slash |
| WorkloadLaws.ShortRefIs | internal/baseline/baseline.go:225-277 | the short form of kind/namespace/name is kind/name |
| WorkloadLaws.FallbackAre | internal/baseline/baseline.go:225-277 | without owners a rule is matched against the controllers that the finding names or that are impacted by a root with the finding, and without those against such ReplicaSets |
| WorkloadLaws.OwnersAreKept | internal/baseline/baseline.go:225-277 | with owners a rule is matched against exactly those |
| Workloads.MatchWorkload | internal/baseline/baseline.go:225-277 | a workload rule matches if and only if it has no pattern or its pattern matches every one of a non-empty set of workloads |
| Workloads.RuleCoversEveryWorkload | internal/baseline/baseline.go:225-277 | a rule that matches names, for every affected top-level controller, a workload that owns it |
| Report.CorrelationMap | internal/report/report.go:967-988 | maps exactly the code/resource keys that a single record has |
| Report.Compare | internal/report/report.go:779-844 | the loops compute the difference defined over sorted IDs and unique keys |
| ReportLaws.BeforeIsPartitioned | internal/report/report.go:779-844 | every earlier ID is counted exactly once among unchanged, changed, worsened, improved, unknown and resolved |
| ReportLaws.AfterIsPartitioned | internal/report/report.go:779-844 | every later ID is new or the later side of exactly one counted pair |
| ReportLaws.CountsAddUp | internal/report/report.go:779-844 | the printed counts sum to the number of earlier findings and of later findings |
| ReportLaws.CompareSymmetric | internal/report/report.go:779-844 | when both documents were fully evaluated, swapping them swaps new with resolved and worsened with improved |
| DiffLaws.PairOutcome | internal/report/report.go:779-844 | when exactly one earlier-only and one later-only record have a code and resource and the later report could evaluate it, the pair is worsened if and only if the later severity stands strictly later in candidate, unavailable, warning, issue, improved if and only if strictly earlier, and changed otherwise |
| DiffLaws.WeightIsOrder | internal/report/report.go:1180-1193 | severities are ordered as in that list, with other names before all of it |
| DiffLaws.PairsMembers | internal/report/report.go:779-844 | the pairs are exactly the records that are alone with their code and resource on both sides |
| DiffLaws.CommonOutcome | internal/report/report.go:779-844 | a finding under the same ID is changed if and only if code, severity, section, resource, acknowledgement or stable content differ |
| DiffLaws.NewExactly | internal/report/report.go:779-844 | a finding is new if and only if its ID is new and it is no later side of a pair |
| DiffLaws.GoneOutcome | internal/report/report.go:779-844 | a finding that is gone and unpaired is resolved if and only if the later report could evaluate it, otherwise it is unknown with what blocked it |
| DiffLaws.UnknownPairOutcome | internal/report/report.go:779-844 | a pair whose later side only says that it could not be evaluated is listed as unknown and nowhere else |
| DiffLaws.BlockersExactly | internal/jsonutil/jsonutil.go:44-77 | a finding cannot be evaluated exactly when its section has an unavailable finding of its rule, or of any rule if its own is not recorded |
| DiffLaws.KeysIdentify | internal/report/report.go:967-1007 | records are alike exactly when they have the same named code and resource |
| HistoryDiff.LastKnownFinding | internal/report/report.go:1110-1132 | the backwards loop equals the recursive scan |
| HistoryDiff.LastKnownCharacterised | internal/report/report.go:1110-1132 | a record is found if and only if the newest k >= 1 samples could not evaluate the finding and the sample before them knows a unique record with its code and resource |
| HistoryDiff.CompareHistory | internal/report/report.go:855-888 | the new findings are split into bridged and still new ones; an empty history is an error |
| HistoryDiff.BridgingConserves | internal/report/report.go:860-883 | bridging moves each new finding to exactly one of four lists and loses none |
| HistoryDiff.BridgesMembers | internal/report/report.go:860-883 | a list holds exactly the bridges with its outcome |
| DiffLaws.BridgeOutcome | internal/report/report.go:860-883 | a bridge is worsened or improved as its severity moved in the list of severities, otherwise reconfirmed under the same ID and changed under another |
| DiffLaws.BridgeExactly | internal/report/report.go:1110-1132 | a new finding is bridged if and only if it was evaluated and the history knows it behind samples that could not evaluate it |
| DiffLaws.KnownExactly | internal/report/report.go:1110-1132 | a sample knows a record exactly when no other of its findings has the code and resource and the record was evaluated |
| HistoryDiff.BuildPayload | internal/notify/notify.go:56-72 | there is a payload exactly when an unacknowledged Issue is new or the later side of a worsened pair or bridge, and its two lists hold exactly those |
| DiffLaws.EscalationIsNotified | internal/notify/notify.go:56-72 | a finding that becomes an unacknowledged Issue is named to the webhook, whatever its ID |
| HistoryDiff.ReportedAgain | internal/report/report.go:860-883 | when the newest k samples of the given history missed a finding and the sample before them reports it, it comes back as reconfirmed with that number |
| HistoryDiff.KeepRun | internal/app/app.go:587-590 | a finished watch round joins the history, which is cut to the newest max(1, window - 1) runs |
| HistoryDiff.KeptRoundByRound | internal/app/app.go:587-590 | cutting after every round keeps exactly the newest runs of the whole run |
| HistoryDiff.ReconfirmedExactly | internal/report/report.go:860-883 | in such a run the finding is reconfirmed if and only if it is reported after at least one unknown sample and fewer of them than the kept history holds; the pair gives their number |
| HistoryDiff.RenotifiedWithin | internal/notify/notify.go:56-72 | the same condition as RenotifiedExactly for any number of kept samples |
| HistoryDiff.RenotifiedExactly | internal/app/app.go:501-533 | in a run in which each sample reports the finding or could not evaluate it, the payload names it again if and only if it is reported as an unacknowledged Issue after max(1, window - 1) or more unknown samples |
| HistoryDiff.NeverRenotified | internal/notify/notify.go:56-72 | an interrupted finding is not named to the webhook again while its last report is in the kept history |
| HistoryDiff.OneGapRenotifies | internal/app/app.go:587-590 | with window 2 a single unknown sample makes the payload name the finding again, which the uncut history would not |
| Trends.AnalyzeFlaps | internal/history/history.go:317-385 | the windowed loops over keys, samples and states compute the flaps defined per key, in sorted key order, and the number of unknown evaluations |
| Trends.TransitionsShowBothStates | internal/history/history.go:360-368 | there are at most window-1 transitions, and one transition implies both states |
| Trends.FlapIsCount | internal/history/history.go:360-368 | with a positive threshold the transition count alone decides, and a flap needs a threshold below the window |
| Trends.AlternationFlaps | internal/config/config.go:488-490 | documents that report and lose one finding in turn flap at every threshold below the window |
| Trends.FlapNeedsWindow | internal/config/config.go:488-490 | with a positive threshold, some documents make the analysis report a flap if and only if the threshold is below the window, so the rule on the two settings is exact |
| Trends.FlapsMembers | internal/history/history.go:336-385 | a flap is listed if and only if one of the keys has it |
| TrendLaws.RecentIs | internal/history/history.go:317-325 | the newest samples are analysed, as many as the window and two at least |
| TrendLaws.StateIs | internal/history/history.go:350-359 | a sample is abnormal for a key exactly when it has an evaluated unacknowledged finding with it that no history rule made, unknown when it has none and could not evaluate it, and normal otherwise |
| TrendLaws.LatestIs | internal/history/history.go:337-346 | the finding that a flap names is the last such finding of the newest sample that has one |
| TrendLaws.TransitionsAre | internal/history/history.go:360-368 | the transitions are the places where abnormal follows normal or normal follows abnormal directly |
| TrendLaws.StatesAt | internal/history/history.go:347-359 | the i-th state of a key is the state of the i-th sample |
| TrendLaws.UnknownsAre | internal/history/history.go:353-355 | the unknown evaluations are the samples with that state |
| Trends.RestartTrend | internal/history/history.go:397-412 | a growth is reported exactly for three or more counts that never fall, rise twice and whose rises sum to the threshold |
| Trends.GrowthIsRises | internal/history/history.go:401-412 | the last count minus the first equals the sum of the rises if and only if the counts never fall |
| Config.ValidateDistinctOutputPaths | internal/config/config.go:526-571 | accepted exactly when no writer shares a file with a later writer or any reader |
| Profiles.ConfigRef.PrepareMode | internal/config/command.go:119-179 | the field updates and map deletions of one mode |
| Profiles.ConfigRef.ApplyCommandProfile | internal/config/command.go:55-97 | the whole profile, with the deep profile's order of steps |
| Profiles.ApplyProfile | internal/config/command.go:250-261 | succeeds exactly when the profile exists and the profiled copy is valid; the result has the literal values of the profile in every section and the caller's elsewhere; the caller's configuration and explicit-settings map stay unchanged |
| Profiles.ProfileIsUnique | internal/config/command.go:55-219 | for every command the values of every section and the explicit marks are the listed ones and the configuration is determined by them: ci is triage with json, quick with text, both masked, silent, failing on issue without an allowance; deep is all with logs and unused in text; the one-shot profiles have no watch, snapshot, diff, database or webhook; target, workers and command line are the caller's |
| Profiles.ProfileKeepsValid | internal/config/command.go:55-219 | a valid configuration stays valid under a profile if and only if no cluster-snapshot path meets the listing mode and no replay meets the deep profile |
| Settings.CopyReads | internal/config/settings_catalog.go:101-201 | writing one setting changes what that setting reads and no other of the 43 |
| Settings.ApplyRestores | internal/config/settings.go:150-289 | applying the printed value of a setting of a valid configuration restores exactly that setting |
| Settings.FindNamed | internal/config/settings_catalog.go:22-92 | every section and key finds its own setting |
| Settings.ItoaParses | internal/config/settings.go:150-289 | every 64-bit integer reads back from its decimal text |
| Quoting.UnquoteQuoted | internal/config/settings.go:100-120 | every text, whatever it contains, is recovered from its quoted form |
| Quoting.SplitQuotedINIValue | internal/config/settings.go:122-135 | the escape-flag loop equals the position of the closing quote |
| Quoting.SplitQuotedQuoted | internal/config/settings.go:122-135 | the scanner stops exactly at the closing quote, past all escaped quotes and backslashes |
| Ini.StripInlineComment | internal/config/settings.go:137-148 | the result is the trimmed value up to the least comment sign that follows a blank or tab, trimmed again, or the whole trimmed value if there is none |
| Ini.CutsAtFirstComment | internal/config/settings.go:137-148 | whatever position is the least comment sign after a blank, the stripped value ends there |
| Ini.ParseINIValue | internal/config/settings.go:100-120 | the value parser with its three error cases |
| Ini.LoadINI | internal/config/settings.go:25-87 | the line loop with its section, duplicate and unknown-name errors equals the fold over the lines |
| IniLaws.FileLoadsExactly | internal/config/settings.go:25-98 | a file loads if and only if each line is ignored, opens a known section for the first time, or gives a known setting of the open section its first readable and acceptable or empty value; every setting then reads what its line says and otherwise what it did, except that the API trace goes silent with the commands |
| IniLaws.SwitchLoads | internal/config/settings.go:150-162 | a one-line file switches a switch on exactly with 1, yes, true or on in any letter case, off exactly with 0, no, false or off, and is an error with every other word; no other setting changes but for the API trace |
| IniLaws.NumberLoads | internal/config/settings.go:163-184 | a one-line file is accepted for a number setting exactly with a decimal 64-bit integer of at least the setting's minimum, which the setting then reads |
| IniLaws.AppliesExactly | internal/config/settings.go:150-289 | a value is accepted exactly when it means something for the setting, which then reads that; no other setting changes |
| Ini.RenderINI | internal/config/settings_catalog.go:263-283 | the buffer holds the head, each section once, and every setting |
| Ini.ScanJoined | internal/config/settings.go:25-87 | lines without line breaks are recovered by the scanner |
| Ini.RenderedLoads | internal/config/settings.go:25-87 | after the lines of the first n settings the loader has exactly those restored, each section and key seen once |
| Ini.SavedLoadsBack | internal/config/settings_catalog.go:263-283 | loading a saved configuration over the defaults succeeds and restores the value and explicit mark of every explicit setting with a value, and nothing else |
| Scheduling.AddResourceList | internal/rules/scheduling.go:190-196 | every amount is the sum, in whatever order the map is walked |
| Scheduling.AssignedRequests | internal/rules/scheduling.go:172-188 | usage per node and resource is the sum over the active Pods assigned to it, plus one Pod slot each |
| Scheduling.UsageIgnoresOrder | internal/rules/scheduling.go:172-188 | usage does not depend on the order of the Pods |
| Scheduling.AssessNode | internal/rules/scheduling.go:198-265 | the reasons are exactly the refusals, the categories are theirs, the unknowns are kept apart |
| Scheduling.FitsExactly | internal/rules/scheduling.go:198-265 | no reason if and only if all predicates hold and usage plus request is within the allocatable amount, so clamping is immaterial |
| Scheduling.DominantSchedulingCode | internal/rules/scheduling.go:477-499 | the code of the first category that every assessment has |
| Scheduling.Judge | internal/rules/scheduling.go:105-144 | an Issue exactly when no node fits, nothing is unevaluated, the scheduler reported it and it is five minutes old; the code fits the refusals |
| SchedulingLaws.VerdictMeans | internal/rules/scheduling.go:105-144 | from node labels, taints, tolerations, volumes, requests and usage: Issue with confidence 95 exactly when there are nodes, none takes the Pod, nothing was left unevaluated, the scheduler reported it and the Pod is 300 seconds old, otherwise Warning with 75; the literal code; the number of nodes that take the Pod; and exactly the constraints that were not evaluated |
| SchedulingLaws.CodeIs | internal/rules/scheduling.go:141-144 | FAILED_SCHEDULING_REPORTED when a node takes the Pod, else the code of the first of node affinity, taints, volumes and resources that refuses every node, else NO_AVAILABLE_NODE |
| SchedulingLaws.TakesIsFits | internal/rules/scheduling.go:198-265 | a node fits exactly when its labels match, every hard taint is tolerated, the cordon's included, no volume objects, and usage plus request is within what it can allocate |
| SchedulingLaws.ReasonsAre | internal/rules/scheduling.go:198-265 | when an assessment gives each of its reasons, with the first untolerated taint and the free amount |
| SchedulingLaws.UsageIs | internal/rules/scheduling.go:172-188 | a node's usage is what its unfinished Pods request, and one Pod slot for each |
| Scheduling.CodeMeans | internal/rules/scheduling.go:141-144 | a category code means that every node was refused for that category, and a category that refuses every node yields such a code |
| Scheduling.FewerPodsStillFit | internal/rules/scheduling.go:172-265 | a node that fits with more Pods assigned fits with fewer |
| Scheduling.IssueIsStable | internal/rules/scheduling.go:105-144 | an Issue verdict survives the assignment of further Pods |
| Snapshots.Snapshot.Index | internal/kube/snapshot.go:141-202 | the cache is built once, from the collections of that moment |
| Snapshots.Snapshot.Lookup | internal/kube/snapshot.go:204-252 | a lookup answers from the cache and changes nothing but the cache |
| Snapshots.Snapshot.ResetIndex | internal/kube/snapshot.go:137-139 | drops the cache only |
| Snapshots.Snapshot.Replace | internal/kube/snapshot.go:124-128 | other objects in a collection, with the cached index still there |
| Snapshots.LookupIsScan | internal/kube/snapshot.go:110-128 | with a current cache a lookup is the first match of a linear scan if and only if no colliding key comes first |
| Snapshots.PlainNamespacesAreUnambiguous | internal/kube/snapshot.go:135 | namespaces without a slash never collide |
| Snapshots.SlashMisleads | internal/kube/snapshot.go:135 | a namespace with a slash can answer for another object |
| Snapshots.ScopeSnapshotToSelectedPod | internal/app/select_scope.go:24-167 | returns a fresh narrowed snapshot without a cache and leaves the source alone |
| Snapshots.LookupsScanAfterRuns | internal/kube/snapshot.go:110-128 | after any run of lookups, replacements with reset and narrowings over many snapshots, every lookup is the linear scan over current collections |
| Snapshots.AnswersSurvive | internal/app/select_scope.go:159-166 | a run that replaces nothing in a snapshot leaves all its answers unchanged |
| Snapshots.StaleWithoutReset | internal/kube/snapshot.go:124-128 | a copy of an indexed snapshot that is not reset still finds an object its collections no longer hold; after the reset it does not |
| Snapshots.NarrowedScan | internal/app/select_scope.go:89-150 | the narrowed collections give the source's answer for every name in scope and none for the others |
| Snapshots.NarrowingKeepsAnswers | internal/app/select_scope.go:89-150 | looking a name in scope up in the copy and in the source gives the same object |
| SnapshotLaws.LookupFinds | internal/kube/snapshot.go:110-252 | with a current index a lookup finds exactly the first object of its collection with the name, in the namespace for Secrets, ConfigMaps, claims and service accounts |
| SnapshotLaws.NarrowedHolds | internal/app/select_scope.go:89-150 | a narrowed collection holds exactly the objects that the Pod can refer to, as often as the source does: named ConfigMaps, Secrets, claims, the account or default, and volumes bound to a claim or claimed |
| Collector.CollectTasks | internal/kube/collect_tasks.go:13-190 | the unconditional tasks in order, then all_pods exactly when another task will not provide it |
| Collector.SelectedTasks | internal/kube/collect.go:42-53 | each wanted task is selected exactly once |
| Collector.OneWriter | internal/kube/collect_tasks.go:13-190 | no two selected tasks write the same collection |
| Collector.CollectionIsSafe | internal/kube/collect.go:42-57 | in every reachable state at most min(max(workers,1),16) tasks run, the channel never fills up, the next task can start while fewer run, every running task can finish, a step is possible until all are done, and runs are finite |
| Collector.DoneIsComplete | internal/kube/collect.go:45-57 | when the group is done, every selected task has sent exactly one result |
| Collector.Collect | internal/kube/collect.go:59-75 | the serial apply loop fills the snapshot as the fold over the results |
| Collector.CompletionOrderIsIrrelevant | internal/kube/collect.go:30-76 | any two complete runs of the workers give the same snapshot |
| Collector.StatusesAreWanted | internal/kube/collect.go:59-86 | a status exists for exactly the wanted resources, all_pods included, available exactly when the task that answers for it had no error, with that task's values |
| EnvShadow.ContainerEnvSupplies | internal/rules/configmap.go:77-103 | the variables of all readable sources, in source order |
| EnvShadow.WinnerDecides | internal/rules/configmap.go:176-193 | the two look-ups decide exactly whether the folded environment has another or unknowable value |
| EnvShadow.ShadowedSupplies | internal/rules/configmap.go:128-170 | exactly the shadowed ConfigMap entries are reported, in order, for every container |
| EnvShadow.EarlyExitHidesNothing | internal/rules/configmap.go:131-137 | skipping containers with a single source and no explicit entry hides no collision |
| EnvLaws.EnvironmentIs | internal/rules/configmap.go:77-193 | a container sees for a variable the last explicit entry, and without one what the last source with such a prefixed key gives |
| EnvLaws.ReportedExactly | internal/rules/configmap.go:128-170 | reported are exactly the ConfigMap keys whose variable the container does not see with the key's value |
| Connect.RandomBaseFits | internal/connect/connect.go:790-803 | a drawn base leaves room for all targets exactly up to 55536 of them |
| Connect.CheckTargets | internal/connect/connect.go:478-567 | one result per target in order, each as planned, and the alerts of the attempts |
| ConnectLaws.ModeIs | internal/connect/connect.go:490-522 | an inactive target is skipped, an active Service target with a tried Pod twin shares, every other one takes the next port and is tried if it is at most 65535 |
| ConnectLaws.SharesWithLatest | internal/connect/connect.go:513-535 | a shared target shows the result of the latest tried Pod target with its signature |
| ConnectLaws.ResultIs | internal/connect/connect.go:490-567 | every field of the result of a skipped, refused, tried or sharing target |
| ConnectLaws.AlertsAre | internal/connect/connect.go:490-567 | each target raises at most one alert, with the literal severity and code of its failure |
| ConnectLaws.AlertsOfRound | internal/connect/connect.go:478-567 | the alerts of a round are those of its targets |
| ConnectLaws.BaseIs | internal/connect/connect.go:480-483 | a configured port is the base, otherwise one is drawn between 10000 and 59999 |
| Connect.PortsIncrease | internal/connect/connect.go:517-518 | checks that use a port use pairwise distinct, increasing ports |
| Connect.PortsFit | internal/connect/connect.go:517-522 | with a base that leaves room no target is out of range |
| Connect.SharingIsJustified | internal/connect/connect.go:513-516 | a result is shared if and only if an active Service target has the signature of an earlier tried Pod target, and it copies that result |
| Connect.SharedRequestExactly | internal/connect/connect.go:846-876 | a shared result shows what the tried Pod target was answered, and that was the same request if and only if the separators lie alike in both |
| Connect.SharedRequestIsEqual | internal/connect/connect.go:846-876 | among requests that can be sent, a shared result shows what an equal request was answered |
| Connect.SignatureIdentifiesExactly | internal/connect/connect.go:826-844 | for all checks, requests are equal if and only if the signatures are and each part, header line and header name has as many separators |
| Connect.NulFreeIdentifies | internal/connect/connect.go:826-844 | without NULs, requests are equal if and only if the signatures are and the header lines agree in number and in their line feeds |
| Connect.SignatureIdentifies | internal/connect/connect.go:826-844 | for requests without NULs and without line feeds in headers or colons in header names, signatures are equal if and only if the requests are |
| Connect.LineFeedMisleads | internal/connect/connect.go:830-844 | a line feed in a header value makes different requests share a signature |
| Connect.LineFeedSharesOtherRequest | internal/connect/connect.go:507-556 | with such a header on one probe, a Service target shares the result of a Pod target with a different request |
| Connect.NextLocalPort | internal/connect/connect.go:777-788 | the loop returns one above the highest port used, or a drawn one |
| Connect.RepeatsExactly | internal/connect/connect.go:777-803 | some draw makes the next port that of a given result if and only if the results reach the last port and that port lies in the drawn range |
| Connect.NextPortCollidesExactly | internal/connect/connect.go:777-803 | the next port can be one already used if and only if the results reach the last port and use one of the drawn range |
| Connect.NextPortIsFree | internal/connect/connect.go:777-788 | after a round of at most 5536 targets no result uses the next port, whatever is drawn |
| Connect.NextPortMayCollide | internal/connect/connect.go:777-788 | the bound cannot be raised: a round of 5537 active Pod targets from base 59999 can collide |

## Left out

- SHA-256 finding and root IDs, masking, log signatures and HMAC fingerprints: IDs are given, `World.rootId` stands for the hash of a root.
- Building the dependency graph from a snapshot, the typed degraded-status messages, remediation and command texts, impact summaries and evidence compaction: the graph and the message of a degraded resource are parameters.
- sort.Slice is not stable: edges whose target and relation texts concatenate alike are kept in insertion order here; the order of findings of one resource does not depend on it because their IDs differ.
- CorrelationLaws.HealthAfterCorrelate: asks for distinct IDs without surrounding blanks, as hash IDs are.
- Coverage counts, checks, observations and scoped-score clamping of `State`: one-line accumulations. The mutex around `State` is not modelled.
- Model.NewRootCause: the label text, the impact counts by kind, evidence compaction, remediations and commands are not part of the root here.
- Correlation.AssembleRoot: remediations, commands and evidence compaction are omitted, and the message of a degraded resource is a parameter.
- Loading a baseline file, rule expiry and the loop that applies its rules; the wildcard matching of a pattern is a parameter.
- Report.Compare: the root-cause half of the difference and its empty reconfirmed list are omitted; the printed counts are the lengths of the lists.
- HistoryDiff.BuildPayload: the text, the counts and the new root causes of a payload are omitted.
- HistoryDiff.CompareHistory: the bridge over root causes is omitted, and the bridged pairs are kept apart from the pairs of the plain difference, which the program appends to the same lists.
- Trends.AnalyzeFlaps: trend texts and the final sorting of the trends are omitted; restart counts are taken per container.
- HistoryDiff.RenotifiedExactly: the samples are the stored runs of one target. Storing them is not modelled: in watch mode the database skips a run equal to the one before, and its retention counts the runs of all targets.
- Command-line parsing: `explicitlyConfigured` reads the explicit settings only, as it does for profiles; the wording and order of validation errors are not modelled.
- File identity is an uninterpreted relation between configured paths; the float arithmetic of QPS and its shortest text are parameters.
- WithSetting, WithoutSetting and the atomic write of the INI file; the 1 MiB line limit of the scanner.
- Quoting.UnquoteQuoted: texts are code points; invalid UTF-8 bytes and octal escapes, which the writer never produces for valid text, are not modelled. ToLower is modelled for ASCII.
- Settings.ApplyRestores: `max_issues` is taken to be non-negative, as both of its writers enforce.
- Scheduling: nominated nodes, scheduling gates, custom schedulers and preemption evidence are decided before the verdict; taint toleration, node affinity and volume constraints are parameters, as is a Pod's own request total.
- Scheduling.FewerPodsStillFit: asks for non-negative requests, which the API server enforces.
- Snapshots.ScopeSnapshotToSelectedPod: the names that the Pod refers to and the narrowed collections without an index (Services, endpoints, Ingresses, policies, metrics, events) are parameters.
- Snapshots.NarrowedScan: a volume outside the named ones may also be kept for its claim; what is then answered for its name is not stated.
- Collector: API access, warnings and server time; every task brings back a fixed outcome.
- EnvShadow: only the rule on shadowed keys; `$(NAME)` expansion and invalid variable names are not modelled.
- Connect: building the targets, the tunnel and the probe requests, texts of findings; an attempt is a function of target and port.
- The wizard, rendering, colours, and the width-aware wrapping of the console.
