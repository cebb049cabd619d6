/** The configuration, its validation rules, and the command profiles. */
module Config {
  import opened Text
  import opened Model

  // Go's 64-bit int.
  newtype GoInt = x: int | -0x8000_0000_0000_0000 <= x < 0x8000_0000_0000_0000

  /** The settings of the INI file, in catalogue order. */
  datatype Setting =
    | TargetNamespace | TargetContext | TargetKubeconfig | TargetTimeout | TargetQps | TargetBurst | TargetPageSize
    | DiagnosisMode | DiagnosisLogs | DiagnosisUnused | DiagnosisEventsLimit | DiagnosisRestartThreshold | DiagnosisNodeHeartbeatTimeout | DiagnosisWatch | DiagnosisWorkers | DiagnosisLogSignaturesFile | DiagnosisLogSignatureLines
    | ConnectionEnabled | ConnectionPort | ConnectionPath
    | DebugEnabled | DebugImage | DebugProfile
    | DisplayTail | DisplayMaskSecrets | DisplayExitZero | DisplayShowCommands | DisplayShowApiRequests
    | ReportFormat | ReportFile | ReportSaveSnapshot | ReportDiff | ReportBaseline | ReportFailOn | ReportMaxIssues
    | HistoryDatabase | HistoryWindow | HistoryFlapThreshold | HistoryRestartGrowth | HistoryRetain
    | NotificationWebhookUrlEnv | NotificationFormat | NotificationTimeout

  datatype Mode = AllMode | SelectMode | ListMode | TriageMode

  /** `qps` is the shortest decimal text of the number. */
  datatype Target = Target(namespace: string, context: string, kubeconfig: string, timeout: GoInt, qps: string,
                           burst: GoInt, pageSize: GoInt)

  datatype Diagnosis = Diagnosis(mode: Mode, logs: bool, unused: bool, eventsLimit: GoInt, restartThreshold: GoInt,
                                 nodeHeartbeatTimeout: GoInt, watch: GoInt, workers: GoInt,
                                 logSignaturesFile: string, logSignatureLines: GoInt)

  datatype Connection = Connection(enabled: bool, port: GoInt, path: string)

  datatype Debug = Debug(enabled: bool, image: string, profile: string)

  datatype Display = Display(tail: GoInt, maskSecrets: bool, exitZero: bool, showCommands: bool, showApiRequests: bool)

  datatype Report = Report(format: string, file: string, saveSnapshot: string, diff: string, baseline: string,
                           failOn: string, maxIssues: Option<GoInt>)

  datatype History = History(database: string, window: GoInt, flapThreshold: GoInt, restartGrowth: GoInt, retain: GoInt)

  datatype Notification = Notification(webhookUrlEnv: string, format: string, timeout: GoInt)

  /** What only the command line can set. */
  datatype CommandLine = CommandLine(configFile: string, saveClusterSnapshot: string, loadClusterSnapshot: string, version: bool)

  /** The fields are grouped by the section of the INI file that sets them;
      `explicit` holds the names of the settings the user gave a value. */
  datatype Config = Config(target: Target, diagnosis: Diagnosis, connection: Connection, debug: Debug, display: Display,
                           report: Report, history: History, notification: Notification, cli: CommandLine,
                           explicit: set<Setting>)

  datatype PathUse = PathUse(value: string, expandHome: bool)

  datatype PathRelation = SameFile | DifferentFiles | Unresolvable

  /** The file system's answer about two configured paths, and the numeric
      acceptance and parsing of QPS values. */
  datatype Env = Env(relation: (PathUse, PathUse) -> PathRelation, validQps: string -> bool, parseQps: string -> Option<string>)

  function Defaults(): Config
  {
    Config(Target("", "", "", 15, "10", 20, 500),
           Diagnosis(AllMode, false, false, 20, 5, 180, 0, 4, "", 200),
           Connection(false, 0, ""),
           Debug(false, "busybox:1.36", "general"),
           Display(30, true, false, true, false),
           Report("text", "", "", "", "", "issue", None),
           History("", 12, 3, 3, 1000),
           Notification("", "generic", 5),
           CommandLine("", "", "", false), {})
  }

  // ---------------------------------------------------------------------------
  // Lexical rules

  predicate IsLowerAlnum(c: char) { 'a' <= c <= 'z' || '0' <= c <= '9' }

  predicate IsNamespace(s: string)
  {
    && 1 <= |s| <= 63 && IsLowerAlnum(s[0]) && IsLowerAlnum(s[|s| - 1])
    && forall i :: 0 <= i < |s| ==> IsLowerAlnum(s[i]) || s[i] == '-'
  }

  predicate IsWordStart(c: char) { 'A' <= c <= 'Z' || 'a' <= c <= 'z' || c == '_' }

  predicate IsEnvName(s: string)
  {
    s != [] && IsWordStart(s[0]) && forall i :: 0 <= i < |s| ==> IsWordStart(s[i]) || '0' <= s[i] <= '9'
  }

  predicate HasBlank(s: string)
  {
    ' ' in s || '\t' in s || '\r' in s || '\n' in s
  }

  // ---------------------------------------------------------------------------
  // Validate, rule by rule

  predicate NumbersValid(env: Env, c: Config)
  {
    && (c.target.namespace != "" ==> IsNamespace(c.target.namespace))
    && c.target.timeout >= 1 && c.target.burst >= 1 && 1 <= c.target.pageSize <= 5000 && env.validQps(c.target.qps)
    && c.diagnosis.eventsLimit >= 1 && c.diagnosis.nodeHeartbeatTimeout >= 1 && 1 <= c.diagnosis.workers <= 16
    && 1 <= c.diagnosis.logSignatureLines <= 5000 && c.diagnosis.restartThreshold >= 0
    && c.display.tail >= 1
    && c.history.window >= 2 && c.history.flapThreshold >= 1 && c.history.restartGrowth >= 1 && c.history.retain >= 1
    && c.history.flapThreshold < c.history.window
    && c.notification.timeout >= 1
    && c.diagnosis.watch >= 0 && !(DiagnosisWatch in c.explicit && c.diagnosis.watch == 0)
  }

  predicate ConnectionValid(c: Config)
  {
    && (c.connection.port != 0 ==> 1024 <= c.connection.port <= 65535)
    && (c.connection.path != "" ==> HasPrefix(c.connection.path, "/") && !HasBlank(c.connection.path))
    && (c.connection.port != 0 || c.connection.path != "" ==> c.connection.enabled)
    && (c.connection.enabled ==> c.diagnosis.mode == SelectMode)
  }

  predicate DebugValid(c: Config)
  {
    && (c.debug.enabled ==>
          && (c.diagnosis.mode == AllMode || c.diagnosis.mode == SelectMode) && c.report.format == "text"
          && TrimSpace(c.debug.image) != "" && !HasBlank(c.debug.image)
          && TrimSpace(c.debug.profile) != "" && !HasBlank(c.debug.profile))
    && (DebugImage in c.explicit || DebugProfile in c.explicit ==> c.debug.enabled)
  }

  predicate LogDiagnosis(c: Config)
  {
    c.diagnosis.mode == SelectMode || (c.diagnosis.mode == AllMode && c.diagnosis.logs)
  }

  predicate Broad(mode: Mode) { mode == AllMode || mode == TriageMode }

  predicate DiagnosisValid(c: Config)
  {
    && (c.diagnosis.watch > 0 ==> Broad(c.diagnosis.mode) && !c.debug.enabled)
    && (c.diagnosis.logs || c.diagnosis.unused ==> c.diagnosis.mode == AllMode)
    && (c.diagnosis.logSignaturesFile != "" || DiagnosisLogSignatureLines in c.explicit ==> LogDiagnosis(c))
    && (DisplayTail in c.explicit ==> LogDiagnosis(c))
    && (c.diagnosis.mode == ListMode ==>
          && DiagnosisEventsLimit !in c.explicit && DiagnosisRestartThreshold !in c.explicit
          && c.report.baseline == "" && DisplayExitZero !in c.explicit)
    && (DiagnosisNodeHeartbeatTimeout in c.explicit ==> Broad(c.diagnosis.mode))
  }

  predicate OutputValid(c: Config)
  {
    && c.report.format in {"text", "json", "sarif", "junit", "mermaid", "dot"}
    && (c.report.format != "text" ==>
          && c.display.maskSecrets
          && {DisplayShowCommands, DisplayShowApiRequests, DisplayTail, DiagnosisEventsLimit} !! c.explicit
          && Broad(c.diagnosis.mode) && c.diagnosis.watch <= 0)
    && (c.report.file != "" ==> c.report.format != "text")
    && (c.report.saveSnapshot != "" || c.report.diff != "" ==> Broad(c.diagnosis.mode) && c.diagnosis.watch <= 0)
  }

  predicate ClusterSnapshotValid(c: Config)
  {
    && !(c.cli.saveClusterSnapshot != "" && c.cli.loadClusterSnapshot != "")
    && (c.cli.saveClusterSnapshot != "" || c.cli.loadClusterSnapshot != "" ==> c.diagnosis.mode != ListMode)
    && (c.cli.loadClusterSnapshot != "" ==>
          && c.diagnosis.watch <= 0
          && !c.connection.enabled && !c.debug.enabled && !c.diagnosis.logs
          && c.history.database == "" && c.notification.webhookUrlEnv == ""
          && !(DisplayShowApiRequests in c.explicit && c.display.showApiRequests))
  }

  predicate FailPolicyConfigured(c: Config)
  {
    ReportFailOn in c.explicit || ReportMaxIssues in c.explicit
  }

  predicate FailPolicyValid(c: Config)
  {
    && c.report.failOn in {"issue", "warning", "unavailable", "any", "none"}
    && (FailPolicyConfigured(c) ==> Broad(c.diagnosis.mode) && !c.display.exitZero)
    && !(c.report.failOn == "none" && c.report.maxIssues.Some?)
    && (c.diagnosis.watch > 0 ==> !c.display.exitZero && !FailPolicyConfigured(c))
  }

  predicate HistoryValid(c: Config)
  {
    && (c.history.database != "" ==> Broad(c.diagnosis.mode))
    && (c.notification.webhookUrlEnv != "" ==>
          && IsEnvName(c.notification.webhookUrlEnv)
          && (c.report.diff != "" || c.history.database != "" || c.diagnosis.watch != 0))
    && (c.notification.webhookUrlEnv == "" ==> {NotificationFormat, NotificationTimeout} !! c.explicit)
    && c.notification.format in {"generic", "slack"}
    && (c.history.database == "" && c.diagnosis.watch == 0 ==>
          {HistoryWindow, HistoryFlapThreshold, HistoryRestartGrowth} !! c.explicit)
    && (c.history.database == "" ==> HistoryRetain !in c.explicit)
  }

  function Writers(c: Config): seq<PathUse>
  {
    [PathUse(c.report.file, false), PathUse(c.report.saveSnapshot, false),
     PathUse(c.cli.saveClusterSnapshot, false), PathUse(c.history.database, true)]
  }

  function Readers(c: Config): seq<PathUse>
  {
    [PathUse(c.cli.configFile, false), PathUse(c.report.diff, false), PathUse(c.cli.loadClusterSnapshot, false),
     PathUse(c.report.baseline, false), PathUse(c.diagnosis.logSignaturesFile, false), PathUse(c.target.kubeconfig, false)]
  }

  predicate Clash(env: Env, a: PathUse, b: PathUse)
  {
    a.value != "" && b.value != "" && env.relation(a, b) != DifferentFiles
  }

  predicate PathsDistinct(env: Env, writers: seq<PathUse>, readers: seq<PathUse>)
  {
    && (forall i, j :: 0 <= i < j < |writers| ==> !Clash(env, writers[i], writers[j]))
    && (forall i, j :: 0 <= i < |writers| && 0 <= j < |readers| ==> !Clash(env, writers[i], readers[j]))
  }

  /** Validate(nil): a version request needs no other rule. */
  predicate Valid(env: Env, c: Config)
  {
    || c.cli.version
    || (&& NumbersValid(env, c) && ConnectionValid(c) && DebugValid(c) && DiagnosisValid(c) && OutputValid(c)
        && PathsDistinct(env, Writers(c), Readers(c)) && ClusterSnapshotValid(c) && FailPolicyValid(c) && HistoryValid(c))
  }

  /** validateDistinctOutputPaths: every writer against the later writers and all readers. */
  method ValidateDistinctOutputPaths(env: Env, writers: seq<PathUse>, readers: seq<PathUse>) returns (ok: bool)
    ensures ok <==> PathsDistinct(env, writers, readers)
  {
    for left := 0 to |writers|
      invariant forall i, j :: 0 <= i < left && i < j < |writers| ==> !Clash(env, writers[i], writers[j])
      invariant forall i, j :: 0 <= i < left && 0 <= j < |readers| ==> !Clash(env, writers[i], readers[j])
    {
      if writers[left].value == "" {
        continue;
      }
      for right := left + 1 to |writers|
        invariant forall j :: left < j < right ==> !Clash(env, writers[left], writers[j])
      {
        if writers[right].value != "" && env.relation(writers[left], writers[right]) != DifferentFiles {
          assert Clash(env, writers[left], writers[right]);
          return false;
        }
      }
      for right := 0 to |readers|
        invariant forall j :: 0 <= j < right ==> !Clash(env, writers[left], readers[j])
      {
        if readers[right].value != "" && env.relation(writers[left], readers[right]) != DifferentFiles {
          assert Clash(env, writers[left], readers[right]);
          return false;
        }
      }
    }
    return true;
  }
}
