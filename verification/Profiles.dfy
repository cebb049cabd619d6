/** Switching a configuration to a command profile. */
module Profiles {
  import opened Model
  import opened Config

  /** The command words that select a profile; `Other` is every other word. */
  datatype Command = Quick | Ci | Deep | All | Pod | List | Triage | Other

  function CommandMode(command: Command): Option<Mode>
  {
    match command
    case Quick => Some(TriageMode)
    case Ci => Some(TriageMode)
    case Triage => Some(TriageMode)
    case Deep => Some(AllMode)
    case All => Some(AllMode)
    case Pod => Some(SelectMode)
    case List => Some(ListMode)
    case Other => None
  }

  const CONNECTION_NAMES := {ConnectionEnabled, ConnectionPort, ConnectionPath}
  const DEBUG_NAMES := {DebugEnabled, DebugImage, DebugProfile}
  const LOG_NAMES := {DiagnosisLogSignaturesFile, DiagnosisLogSignatureLines, DisplayTail}
  const HISTORY_NAMES := {HistoryDatabase, HistoryWindow, HistoryFlapThreshold, HistoryRestartGrowth, HistoryRetain}
  const NOTIFICATION_NAMES := {NotificationWebhookUrlEnv, NotificationFormat, NotificationTimeout}
  const FAIL_NAMES := {ReportFailOn, ReportMaxIssues}
  const TEXT_NAMES := {ReportFormat, ReportFile}
  const SNAPSHOT_NAMES := {ReportSaveSnapshot, ReportDiff}
  const EXTRA_NAMES := {DiagnosisLogs, DiagnosisUnused}
  const SILENT_NAMES := {DisplayMaskSecrets, DisplayShowCommands, DisplayShowApiRequests, DisplayExitZero}

  // ---------------------------------------------------------------------------
  // The profile as a function of the configuration value

  function WithoutExplicit(c: Config, names: set<Setting>): Config
  {
    c.(explicit := c.explicit - names)
  }

  function ClearedConnection(c: Config): Config
  {
    WithoutExplicit(c.(connection := Defaults().connection), CONNECTION_NAMES)
  }

  function ClearedDebug(c: Config): Config
  {
    WithoutExplicit(c.(debug := Defaults().debug), DEBUG_NAMES)
  }

  function ClearedLogOptions(c: Config): Config
  {
    WithoutExplicit(c.(diagnosis := c.diagnosis.(logSignaturesFile := "", logSignatureLines := Defaults().diagnosis.logSignatureLines),
                       display := c.display.(tail := Defaults().display.tail)), LOG_NAMES)
  }

  function ClearedAutomation(c: Config): Config
  {
    WithoutExplicit(c.(diagnosis := c.diagnosis.(watch := 0),
                       report := c.report.(saveSnapshot := "", diff := ""),
                       history := c.history.(database := ""),
                       notification := c.notification.(webhookUrlEnv := "")),
                    {DiagnosisWatch} + SNAPSHOT_NAMES + HISTORY_NAMES + NOTIFICATION_NAMES)
  }

  function Prepared(c0: Config, mode: Mode): Config
  {
    var c := WithoutExplicit(c0.(diagnosis := c0.diagnosis.(mode := mode)), {DiagnosisMode});
    if mode == AllMode then
      var d := ClearedConnection(c);
      if d.diagnosis.logs then d else ClearedLogOptions(d)
    else if mode == SelectMode then
      WithoutExplicit(
        c.(diagnosis := c.diagnosis.(logs := false, unused := false, watch := 0),
           report := c.report.(format := "text", file := "", saveSnapshot := "", diff := "",
                               failOn := Defaults().report.failOn, maxIssues := None),
           history := c.history.(database := ""),
           notification := c.notification.(webhookUrlEnv := "")),
        EXTRA_NAMES + {DiagnosisWatch, DiagnosisNodeHeartbeatTimeout} + TEXT_NAMES + SNAPSHOT_NAMES + FAIL_NAMES
        + HISTORY_NAMES + NOTIFICATION_NAMES)
    else if mode == ListMode then
      WithoutExplicit(
        ClearedLogOptions(ClearedDebug(ClearedConnection(
          c.(diagnosis := c.diagnosis.(logs := false, unused := false, watch := 0,
                                       eventsLimit := Defaults().diagnosis.eventsLimit,
                                       restartThreshold := Defaults().diagnosis.restartThreshold),
             display := c.display.(exitZero := false),
             report := c.report.(format := "text", file := "", saveSnapshot := "", diff := "", baseline := "",
                                 failOn := Defaults().report.failOn, maxIssues := None),
             history := c.history.(database := ""),
             notification := c.notification.(webhookUrlEnv := ""))))),
        EXTRA_NAMES + {DiagnosisEventsLimit, DiagnosisRestartThreshold, DiagnosisNodeHeartbeatTimeout, DiagnosisWatch,
                       DisplayExitZero, ReportBaseline}
        + TEXT_NAMES + SNAPSHOT_NAMES + FAIL_NAMES + HISTORY_NAMES + NOTIFICATION_NAMES)
    else if mode == TriageMode then
      WithoutExplicit(
        ClearedLogOptions(ClearedDebug(ClearedConnection(c.(diagnosis := c.diagnosis.(logs := false, unused := false))))),
        EXTRA_NAMES)
    else c
  }

  /** What quick and ci share. */
  function OneShot(c: Config, format: string, extra: set<Setting>): Config
  {
    var d := ClearedAutomation(c);
    WithoutExplicit(
      d.(display := d.display.(maskSecrets := true, showCommands := false, showApiRequests := false, exitZero := false),
         report := d.report.(format := format, file := "", failOn := "issue", maxIssues := None)),
      extra + TEXT_NAMES + SILENT_NAMES + FAIL_NAMES)
  }

  function Profiled(c0: Config, command: Command): Config
  {
    var mode := CommandMode(command);
    if mode.None? then c0
    else
      var c := Prepared(if command == Deep then c0.(diagnosis := c0.diagnosis.(logs := true)) else c0, mode.value);
      if command == Quick then OneShot(c, "text", {})
      else if command == Ci then OneShot(c, "json", {DiagnosisEventsLimit})
      else if command == Deep then
        var d := ClearedAutomation(c);
        WithoutExplicit(d.(report := d.report.(format := "text", file := ""),
                           diagnosis := d.diagnosis.(logs := true, unused := true)),
                        EXTRA_NAMES + TEXT_NAMES)
      else c
  }

  // ---------------------------------------------------------------------------
  // The program: a configuration behind a pointer, whose explicit-settings map
  // is shared by every plain copy of the struct

  class SettingSet {
    var names: set<Setting>

    constructor (names: set<Setting>)
      ensures this.names == names
    {
      this.names := names;
    }
  }

  class ConfigRef {
    var target: Target
    var diagnosis: Diagnosis
    var connection: Connection
    var debug: Debug
    var display: Display
    var report: Report
    var history: History
    var notification: Notification
    var cli: CommandLine
    const explicitSettings: SettingSet

    ghost function View(): Config
      reads this, explicitSettings
    {
      Config(target, diagnosis, connection, debug, display, report, history, notification, cli, explicitSettings.names)
    }

    /** A struct copy with its own clone of the explicit-settings map. */
    constructor CopyOf(other: ConfigRef)
      ensures View() == other.View() && fresh(explicitSettings)
    {
      target, diagnosis, connection, debug, display := other.target, other.diagnosis, other.connection, other.debug, other.display;
      report, history, notification, cli := other.report, other.history, other.notification, other.cli;
      explicitSettings := new SettingSet(other.explicitSettings.names);
    }

    method ClearExplicit(names: set<Setting>)
      modifies explicitSettings
      ensures View() == WithoutExplicit(old(View()), names)
    {
      explicitSettings.names := explicitSettings.names - names;
    }

    method ClearConnection()
      modifies this, explicitSettings
      ensures View() == ClearedConnection(old(View()))
    {
      connection := connection.(enabled := false, port := 0, path := "");
      ClearExplicit(CONNECTION_NAMES);
    }

    method ClearDebug()
      modifies this, explicitSettings
      ensures View() == ClearedDebug(old(View()))
    {
      debug := debug.(enabled := false, image := Defaults().debug.image, profile := Defaults().debug.profile);
      ClearExplicit(DEBUG_NAMES);
    }

    method ClearLogOptions()
      modifies this, explicitSettings
      ensures View() == ClearedLogOptions(old(View()))
    {
      diagnosis := diagnosis.(logSignaturesFile := "", logSignatureLines := Defaults().diagnosis.logSignatureLines);
      display := display.(tail := Defaults().display.tail);
      ClearExplicit(LOG_NAMES);
    }

    method ClearOneShotAutomation()
      modifies this, explicitSettings
      ensures View() == ClearedAutomation(old(View()))
    {
      diagnosis := diagnosis.(watch := 0);
      report := report.(saveSnapshot := "", diff := "");
      history := history.(database := "");
      notification := notification.(webhookUrlEnv := "");
      ClearExplicit({DiagnosisWatch} + SNAPSHOT_NAMES + HISTORY_NAMES + NOTIFICATION_NAMES);
    }

    method PrepareMode(mode: Mode)
      modifies this, explicitSettings
      ensures View() == Prepared(old(View()), mode)
    {
      diagnosis := diagnosis.(mode := mode);
      ClearExplicit({DiagnosisMode});
      if mode == AllMode {
        ClearConnection();
        if !diagnosis.logs {
          ClearLogOptions();
        }
      } else if mode == SelectMode {
        diagnosis := diagnosis.(logs := false, unused := false, watch := 0);
        report := report.(format := "text", file := "", saveSnapshot := "", diff := "");
        history := history.(database := "");
        notification := notification.(webhookUrlEnv := "");
        report := report.(failOn := Defaults().report.failOn, maxIssues := None);
        ClearExplicit(EXTRA_NAMES + {DiagnosisWatch, DiagnosisNodeHeartbeatTimeout} + TEXT_NAMES + SNAPSHOT_NAMES + FAIL_NAMES
                      + HISTORY_NAMES + NOTIFICATION_NAMES);
      } else if mode == ListMode {
        diagnosis := diagnosis.(logs := false, unused := false, eventsLimit := Defaults().diagnosis.eventsLimit,
                                restartThreshold := Defaults().diagnosis.restartThreshold, watch := 0);
        report := report.(format := "text", file := "", saveSnapshot := "", diff := "", baseline := "");
        history := history.(database := "");
        notification := notification.(webhookUrlEnv := "");
        display := display.(exitZero := false);
        report := report.(failOn := Defaults().report.failOn, maxIssues := None);
        ClearConnection();
        ClearDebug();
        ClearLogOptions();
        ClearExplicit(EXTRA_NAMES + {DiagnosisEventsLimit, DiagnosisRestartThreshold, DiagnosisNodeHeartbeatTimeout, DiagnosisWatch,
                                     DisplayExitZero, ReportBaseline}
                      + TEXT_NAMES + SNAPSHOT_NAMES + FAIL_NAMES + HISTORY_NAMES + NOTIFICATION_NAMES);
      } else if mode == TriageMode {
        diagnosis := diagnosis.(logs := false, unused := false);
        ClearConnection();
        ClearDebug();
        ClearLogOptions();
        ClearExplicit(EXTRA_NAMES);
      }
    }

    method ApplyCommandProfile(command: Command)
      modifies this, explicitSettings
      ensures View() == Profiled(old(View()), command)
    {
      var mode := CommandMode(command);
      if mode.None? {
        return;
      }
      if command == Deep {
        diagnosis := diagnosis.(logs := true);
      }
      PrepareMode(mode.value);
      if command == Quick || command == Ci {
        ClearOneShotAutomation();
        report := report.(format := if command == Ci then "json" else "text", file := "");
        display := display.(maskSecrets := true, showCommands := false, showApiRequests := false, exitZero := false);
        report := report.(failOn := "issue", maxIssues := None);
        ClearExplicit((if command == Ci then {DiagnosisEventsLimit} else {}) + TEXT_NAMES + SILENT_NAMES + FAIL_NAMES);
      } else if command == Deep {
        ClearOneShotAutomation();
        report := report.(format := "text", file := "");
        diagnosis := diagnosis.(logs := true, unused := true);
        ClearExplicit(EXTRA_NAMES + TEXT_NAMES);
      }
    }
  }

  /** The caller's configuration is not in the frame: neither its fields nor its
      explicit-settings map can change, whatever the profile clears. */
  method ApplyProfile(env: Env, cfg: ConfigRef, command: Command) returns (result: Option<ConfigRef>)
    ensures result.Some? <==> command != Other && Valid(env, Profiled(cfg.View(), command))
    ensures result.Some? ==> fresh(result.value) && fresh(result.value.explicitSettings)
                             && result.value.View() == Profiled(cfg.View(), command)
    ensures result.Some? ==> IsProfile(command, cfg.View(), result.value.View())
  {
    if CommandMode(command).None? {
      return None;
    }
    ProfileIs(cfg.View(), command);
    hide IsProfile, Profiled;
    var candidate := new ConfigRef.CopyOf(cfg);
    candidate.ApplyCommandProfile(command);
    var c := Config(candidate.target, candidate.diagnosis, candidate.connection, candidate.debug, candidate.display,
                    candidate.report, candidate.history, candidate.notification, candidate.cli, candidate.explicitSettings.names);
    if !Valid(env, c) {
      return None;
    }
    return Some(candidate);
  }

  // ---------------------------------------------------------------------------
  // What a profile sets

  /** The settings that keep no explicit mark under a command. */
  function Unmarked(command: Command, logs: bool): set<Setting>
  {
    match command
    case Quick => UnmarkedTriage() + UnmarkedAutomation() + UnmarkedOutput()
    case Ci => UnmarkedTriage() + UnmarkedAutomation() + UnmarkedOutput() + {DiagnosisEventsLimit}
    case Triage => UnmarkedTriage()
    case Deep =>
      {DiagnosisMode, DiagnosisLogs, DiagnosisUnused, ConnectionEnabled, ConnectionPort, ConnectionPath, ReportFormat, ReportFile}
      + UnmarkedAutomation()
    case All =>
      {DiagnosisMode, ConnectionEnabled, ConnectionPort, ConnectionPath}
      + if logs then {} else {DiagnosisLogSignaturesFile, DiagnosisLogSignatureLines, DisplayTail}
    case Pod =>
      {DiagnosisMode, DiagnosisLogs, DiagnosisUnused, DiagnosisNodeHeartbeatTimeout, ReportFormat, ReportFile, ReportFailOn,
       ReportMaxIssues} + UnmarkedAutomation()
    case List =>
      UnmarkedTriage() + UnmarkedAutomation()
      + {DiagnosisEventsLimit, DiagnosisRestartThreshold, DiagnosisNodeHeartbeatTimeout, DisplayExitZero, ReportFormat,
         ReportFile, ReportBaseline, ReportFailOn, ReportMaxIssues}
    case Other => {}
  }

  function UnmarkedTriage(): set<Setting>
  {
    {DiagnosisMode, DiagnosisLogs, DiagnosisUnused, ConnectionEnabled, ConnectionPort, ConnectionPath, DebugEnabled, DebugImage,
     DebugProfile, DiagnosisLogSignaturesFile, DiagnosisLogSignatureLines, DisplayTail}
  }

  function UnmarkedAutomation(): set<Setting>
  {
    {DiagnosisWatch, ReportSaveSnapshot, ReportDiff, HistoryDatabase, HistoryWindow, HistoryFlapThreshold, HistoryRestartGrowth,
     HistoryRetain, NotificationWebhookUrlEnv, NotificationFormat, NotificationTimeout}
  }

  function UnmarkedOutput(): set<Setting>
  {
    {ReportFormat, ReportFile, DisplayMaskSecrets, DisplayShowCommands, DisplayShowApiRequests, DisplayExitZero, ReportFailOn,
     ReportMaxIssues}
  }

  /** No log reading and nothing interactive: what quick, ci, triage and list share. */
  predicate IsPlainRun(d: Config)
  {
    && !d.diagnosis.logs && !d.diagnosis.unused && d.diagnosis.logSignaturesFile == "" && d.diagnosis.logSignatureLines == 200
    && d.connection == Connection(false, 0, "") && d.debug == Debug(false, "busybox:1.36", "general") && d.display.tail == 30
  }

  /** Nothing repeats, is kept or is sent. */
  predicate IsOneShot(c: Config, d: Config)
  {
    && d.diagnosis.watch == 0 && d.report.saveSnapshot == "" && d.report.diff == ""
    && d.history == c.history.(database := "") && d.notification == c.notification.(webhookUrlEnv := "")
  }

  /** d differs from c in the listed sections at most: target settings, command line
      and workers are always the caller's. */
  predicate IsForCaller(c: Config, d: Config)
  {
    && d.target == c.target && d.cli == c.cli && d.diagnosis.workers == c.diagnosis.workers
    && d.diagnosis.nodeHeartbeatTimeout == c.diagnosis.nodeHeartbeatTimeout
  }

  predicate KeepsThresholds(c: Config, d: Config)
  {
    d.diagnosis.eventsLimit == c.diagnosis.eventsLimit && d.diagnosis.restartThreshold == c.diagnosis.restartThreshold
  }

  /** What the configuration d of a command is, given that of the caller. */
  predicate IsProfile(command: Command, c: Config, d: Config)
  {
    && IsForCaller(c, d) && d.explicit == c.explicit - Unmarked(command, c.diagnosis.logs)
    && match command
       case Quick =>
         && d.diagnosis.mode == TriageMode && IsPlainRun(d) && IsOneShot(c, d) && KeepsThresholds(c, d)
         && d.display == Display(30, true, false, false, false)
         && d.report == Report("text", "", "", "", c.report.baseline, "issue", None)
       case Ci =>
         && d.diagnosis.mode == TriageMode && IsPlainRun(d) && IsOneShot(c, d) && KeepsThresholds(c, d)
         && d.display == Display(30, true, false, false, false)
         && d.report == Report("json", "", "", "", c.report.baseline, "issue", None)
       case Triage =>
         && d.diagnosis.mode == TriageMode && IsPlainRun(d) && KeepsThresholds(c, d) && d.diagnosis.watch == c.diagnosis.watch
         && d.display == c.display.(tail := 30) && d.report == c.report
         && d.history == c.history && d.notification == c.notification
       case Deep =>
         && d.diagnosis == c.diagnosis.(mode := AllMode, logs := true, unused := true, watch := 0) && IsOneShot(c, d)
         && d.connection == Connection(false, 0, "") && d.debug == c.debug && d.display == c.display
         && d.report == Report("text", "", "", "", c.report.baseline, c.report.failOn, c.report.maxIssues)
       case All =>
         && d.diagnosis == (if c.diagnosis.logs then c.diagnosis.(mode := AllMode)
                            else c.diagnosis.(mode := AllMode, logSignaturesFile := "", logSignatureLines := 200))
         && d.connection == Connection(false, 0, "") && d.debug == c.debug
         && d.display == (if c.diagnosis.logs then c.display else c.display.(tail := 30)) && d.report == c.report
         && d.history == c.history && d.notification == c.notification
       case Pod =>
         && d.diagnosis == c.diagnosis.(mode := SelectMode, logs := false, unused := false, watch := 0) && IsOneShot(c, d)
         && d.connection == c.connection && d.debug == c.debug && d.display == c.display
         && d.report == Report("text", "", "", "", c.report.baseline, "issue", None)
       case List =>
         && d.diagnosis.mode == ListMode && IsPlainRun(d) && IsOneShot(c, d)
         && d.diagnosis.eventsLimit == 20 && d.diagnosis.restartThreshold == 5
         && d.display == c.display.(tail := 30, exitZero := false)
         && d.report == Report("text", "", "", "", "", "issue", None)
       case Other => d == c
  }

  /** Every field and every explicit mark that a profile leaves. */
  lemma ProfileIs(c: Config, command: Command)
    ensures IsProfile(command, c, Profiled(c, command))
  {
    ProfileUnmarks(c, command);
    hide Unmarked;
  }

  lemma ProfileUnmarks(c: Config, command: Command)
    ensures Profiled(c, command).explicit == c.explicit - Unmarked(command, c.diagnosis.logs)
  {
    forall s ensures s in Profiled(c, command).explicit <==> s in c.explicit && s !in Unmarked(command, c.diagnosis.logs) {
      match command {
        case Quick => QuickUnmarks(c, s);
        case Ci => CiUnmarks(c, s);
        case Deep => DeepUnmarks(c, s);
        case All => AllUnmarks(c, s);
        case Pod => PodUnmarks(c, s);
        case List => ListUnmarks(c, s);
        case Triage => TriageUnmarks(c, s);
        case Other =>
      }
    }
    hide Unmarked, Profiled;
  }

  /** The marks that quick, pod and list remove, by the groups of the program. */
  function RemovedNames(command: Command): set<Setting>
    requires command in {Quick, Pod, List}
  {
    {DiagnosisMode, DiagnosisWatch} + EXTRA_NAMES + SNAPSHOT_NAMES + HISTORY_NAMES + NOTIFICATION_NAMES + TEXT_NAMES + FAIL_NAMES
    + match command
      case Quick => CONNECTION_NAMES + DEBUG_NAMES + LOG_NAMES + SILENT_NAMES
      case Pod => {DiagnosisNodeHeartbeatTimeout}
      case List =>
        CONNECTION_NAMES + DEBUG_NAMES + LOG_NAMES
        + {DiagnosisEventsLimit, DiagnosisRestartThreshold, DiagnosisNodeHeartbeatTimeout, DisplayExitZero, ReportBaseline}
  }

  lemma NamesAreRemoved(c: Config, command: Command)
    requires command in {Quick, Pod, List}
    ensures Profiled(c, command).explicit == c.explicit - RemovedNames(command)
  {
    hide CONNECTION_NAMES, DEBUG_NAMES, LOG_NAMES, EXTRA_NAMES, SNAPSHOT_NAMES, HISTORY_NAMES, NOTIFICATION_NAMES, TEXT_NAMES,
      SILENT_NAMES, FAIL_NAMES;
  }

  lemma CiRemovesMore(c: Config)
    ensures Profiled(c, Ci).explicit == Profiled(c, Quick).explicit - {DiagnosisEventsLimit}
  {
    hide CONNECTION_NAMES, DEBUG_NAMES, LOG_NAMES, EXTRA_NAMES, SNAPSHOT_NAMES, HISTORY_NAMES, NOTIFICATION_NAMES, TEXT_NAMES,
      SILENT_NAMES, FAIL_NAMES;
  }

  lemma NamesAreUnmarked(command: Command, logs: bool, s: Setting)
    requires command in {Quick, Pod, List}
    ensures s in RemovedNames(command) <==> s in Unmarked(command, logs)
  {
    if command == Quick {
      QuickNames(logs, s);
    } else {
      NarrowNames(command, logs, s);
    }
    hide RemovedNames, Unmarked;
  }

  lemma GroupMembersEarly(s: Setting)
    ensures s in CONNECTION_NAMES <==> s == ConnectionEnabled || s == ConnectionPort || s == ConnectionPath
    ensures s in DEBUG_NAMES <==> s == DebugEnabled || s == DebugImage || s == DebugProfile
    ensures s in LOG_NAMES <==> s == DiagnosisLogSignaturesFile || s == DiagnosisLogSignatureLines || s == DisplayTail
    ensures s in HISTORY_NAMES
            <==> s == HistoryDatabase || s == HistoryWindow || s == HistoryFlapThreshold || s == HistoryRestartGrowth ||
                 s == HistoryRetain
    ensures s in NOTIFICATION_NAMES
            <==> s == NotificationWebhookUrlEnv || s == NotificationFormat || s == NotificationTimeout
    ensures s in FAIL_NAMES <==> s == ReportFailOn || s == ReportMaxIssues
  {
  }

  lemma GroupMembersLate(s: Setting)
    ensures s in TEXT_NAMES <==> s == ReportFormat || s == ReportFile
    ensures s in SNAPSHOT_NAMES <==> s == ReportSaveSnapshot || s == ReportDiff
    ensures s in EXTRA_NAMES <==> s == DiagnosisLogs || s == DiagnosisUnused
    ensures s in SILENT_NAMES
            <==> s == DisplayMaskSecrets || s == DisplayShowCommands || s == DisplayShowApiRequests ||
                 s == DisplayExitZero
  {
  }

  lemma UnmarkedMembers(s: Setting)
    ensures s in UnmarkedTriage()
            <==> s == DiagnosisMode || s == DiagnosisLogs || s == DiagnosisUnused || s == ConnectionEnabled ||
                 s == ConnectionPort || s == ConnectionPath || s == DebugEnabled || s == DebugImage ||
                 s == DebugProfile || s == DiagnosisLogSignaturesFile || s == DiagnosisLogSignatureLines ||
                 s == DisplayTail
    ensures s in UnmarkedAutomation()
            <==> s == DiagnosisWatch || s == ReportSaveSnapshot || s == ReportDiff || s == HistoryDatabase ||
                 s == HistoryWindow || s == HistoryFlapThreshold || s == HistoryRestartGrowth || s == HistoryRetain ||
                 s == NotificationWebhookUrlEnv || s == NotificationFormat || s == NotificationTimeout
    ensures s in UnmarkedOutput()
            <==> s == ReportFormat || s == ReportFile || s == DisplayMaskSecrets || s == DisplayShowCommands ||
                 s == DisplayShowApiRequests || s == DisplayExitZero || s == ReportFailOn || s == ReportMaxIssues
  {
  }

  lemma QuickNames(logs: bool, s: Setting)
    ensures s in RemovedNames(Quick) <==> s in Unmarked(Quick, logs)
  {
    GroupMembersEarly(s);
    GroupMembersLate(s);
    UnmarkedMembers(s);
    hide CONNECTION_NAMES, DEBUG_NAMES, LOG_NAMES, HISTORY_NAMES, NOTIFICATION_NAMES, FAIL_NAMES,
      TEXT_NAMES, SNAPSHOT_NAMES, EXTRA_NAMES, SILENT_NAMES, UnmarkedTriage, UnmarkedAutomation, UnmarkedOutput;
  }

  lemma NarrowNames(command: Command, logs: bool, s: Setting)
    requires command in {Pod, List}
    ensures s in RemovedNames(command) <==> s in Unmarked(command, logs)
  {
    GroupMembersEarly(s);
    GroupMembersLate(s);
    UnmarkedMembers(s);
    hide CONNECTION_NAMES, DEBUG_NAMES, LOG_NAMES, HISTORY_NAMES, NOTIFICATION_NAMES, FAIL_NAMES,
      TEXT_NAMES, SNAPSHOT_NAMES, EXTRA_NAMES, SILENT_NAMES, UnmarkedTriage, UnmarkedAutomation, UnmarkedOutput;
  }

  lemma QuickUnmarks(c: Config, s: Setting)
    ensures s in Profiled(c, Quick).explicit <==> s in c.explicit && s !in Unmarked(Quick, c.diagnosis.logs)
  {
    hide Profiled, RemovedNames, UnmarkedTriage, UnmarkedAutomation, UnmarkedOutput;
    NamesAreRemoved(c, Quick);
    NamesAreUnmarked(Quick, c.diagnosis.logs, s);
  }

  lemma CiUnmarks(c: Config, s: Setting)
    ensures s in Profiled(c, Ci).explicit <==> s in c.explicit && s !in Unmarked(Ci, c.diagnosis.logs)
  {
    hide Profiled, UnmarkedTriage, UnmarkedAutomation, UnmarkedOutput;
    CiRemovesMore(c);
    QuickUnmarks(c, s);
  }

  lemma PodUnmarks(c: Config, s: Setting)
    ensures s in Profiled(c, Pod).explicit <==> s in c.explicit && s !in Unmarked(Pod, c.diagnosis.logs)
  {
    hide Profiled, RemovedNames, Unmarked;
    NamesAreRemoved(c, Pod);
    NamesAreUnmarked(Pod, c.diagnosis.logs, s);
  }

  lemma ListUnmarks(c: Config, s: Setting)
    ensures s in Profiled(c, List).explicit <==> s in c.explicit && s !in Unmarked(List, c.diagnosis.logs)
  {
    hide Profiled, RemovedNames, Unmarked;
    NamesAreRemoved(c, List);
    NamesAreUnmarked(List, c.diagnosis.logs, s);
  }

  lemma DeepUnmarks(c: Config, s: Setting)
    ensures s in Profiled(c, Deep).explicit <==> s in c.explicit && s !in Unmarked(Deep, c.diagnosis.logs)
  {
  }

  lemma AllUnmarks(c: Config, s: Setting)
    ensures s in Profiled(c, All).explicit <==> s in c.explicit && s !in Unmarked(All, c.diagnosis.logs)
  {
  }

  lemma TriageUnmarks(c: Config, s: Setting)
    ensures s in Profiled(c, Triage).explicit <==> s in c.explicit && s !in Unmarked(Triage, c.diagnosis.logs)
  {
  }

  /** The profile leaves nothing else open: one configuration answers a command. */
  lemma ProfileIsUnique(command: Command, c: Config, d: Config)
    ensures IsProfile(command, c, d) <==> d == Profiled(c, command)
  {
    ProfileIs(c, command);
    hide Unmarked, Profiled;
  }

  // ---------------------------------------------------------------------------
  // Which configurations survive a switch

  /** Each path of the second list is unset or unchanged. */
  ghost predicate NoNewPaths(before: seq<PathUse>, after: seq<PathUse>)
  {
    |after| == |before| && forall i :: 0 <= i < |before| ==> after[i].value == "" || after[i] == before[i]
  }

  lemma FewerPathsStayDistinct(env: Env, w: seq<PathUse>, r: seq<PathUse>, w': seq<PathUse>, r': seq<PathUse>)
    requires PathsDistinct(env, w, r) && NoNewPaths(w, w') && NoNewPaths(r, r')
    ensures PathsDistinct(env, w', r')
  {
  }

  lemma KeepsNumbers(env: Env, c: Config, command: Command)
    requires NumbersValid(env, c)
    ensures NumbersValid(env, Profiled(c, command))
  {
    hide IsNamespace;
    ProfileIs(c, command);
    WatchStaysMarked(c, command);
    hide Profiled, Unmarked;
  }

  lemma WatchStaysMarked(c: Config, command: Command)
    ensures var d := Profiled(c, command);
            DiagnosisWatch in d.explicit ==> DiagnosisWatch in c.explicit
    ensures var d := Profiled(c, command); d.diagnosis.watch == c.diagnosis.watch || (d.diagnosis.watch == 0 && DiagnosisWatch !in d.explicit)
  {
  }

  lemma KeepsConnection(c: Config, command: Command)
    requires ConnectionValid(c)
    ensures ConnectionValid(Profiled(c, command))
  {
  }

  lemma KeepsDebug(c: Config, command: Command)
    requires DebugValid(c)
    ensures DebugValid(Profiled(c, command))
  {
  }

  lemma KeepsDiagnosis(c: Config, command: Command)
    requires DiagnosisValid(c)
    ensures DiagnosisValid(Profiled(c, command))
  {
    ProfileIs(c, command);
    hide Profiled, IsEnvName;
  }

  lemma KeepsOutput(c: Config, command: Command)
    requires OutputValid(c)
    ensures OutputValid(Profiled(c, command))
  {
  }

  lemma KeepsPaths(env: Env, c: Config, command: Command)
    requires PathsDistinct(env, Writers(c), Readers(c))
    ensures PathsDistinct(env, Writers(Profiled(c, command)), Readers(Profiled(c, command)))
  {
    var d := Profiled(c, command);
    assert NoNewPaths(Writers(c), Writers(d));
    assert NoNewPaths(Readers(c), Readers(d));
    FewerPathsStayDistinct(env, Writers(c), Readers(c), Writers(d), Readers(d));
  }

  /** The only rules that a profile can break are those about cluster snapshots. */
  lemma ClusterSnapshotUnderProfile(c: Config, command: Command)
    requires ClusterSnapshotValid(c) && CommandMode(command).Some?
    ensures ClusterSnapshotValid(Profiled(c, command))
            <==> && !(command == List && (c.cli.saveClusterSnapshot != "" || c.cli.loadClusterSnapshot != ""))
                 && !(command == Deep && c.cli.loadClusterSnapshot != "")
  {
  }

  lemma KeepsFailPolicy(c: Config, command: Command)
    requires FailPolicyValid(c)
    ensures FailPolicyValid(Profiled(c, command))
  {
  }

  lemma KeepsHistory(c: Config, command: Command)
    requires HistoryValid(c)
    ensures HistoryValid(Profiled(c, command))
  {
    ProfileIs(c, command);
    hide Profiled, IsEnvName;
  }

  lemma KeepsCommandLine(c: Config, command: Command)
    ensures Profiled(c, command).cli == c.cli
  {
  }

  /** A valid configuration becomes invalid under a profile exactly when a cluster
      snapshot path meets the listing mode, or a replay meets the log-reading
      deep profile; a version request is always valid. */
  lemma ProfileKeepsValid(env: Env, c: Config, command: Command)
    requires Valid(env, c) && CommandMode(command).Some?
    ensures Valid(env, Profiled(c, command))
            <==> c.cli.version
                 || (&& !(command == List && (c.cli.saveClusterSnapshot != "" || c.cli.loadClusterSnapshot != ""))
                     && !(command == Deep && c.cli.loadClusterSnapshot != ""))
  {
    hide Profiled, NumbersValid, ConnectionValid, DebugValid, DiagnosisValid, OutputValid, PathsDistinct,
      ClusterSnapshotValid, FailPolicyValid, HistoryValid;
    KeepsCommandLine(c, command);
    if !c.cli.version {
      KeepsNumbers(env, c, command);
      KeepsConnection(c, command);
      KeepsDebug(c, command);
      KeepsDiagnosis(c, command);
      KeepsOutput(c, command);
      KeepsPaths(env, c, command);
      ClusterSnapshotUnderProfile(c, command);
      KeepsFailPolicy(c, command);
      KeepsHistory(c, command);
    }
  }
}
