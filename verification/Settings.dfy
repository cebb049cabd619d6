/** The settings of the INI file by name: reading, writing and copying one value. */
module Settings {
  import opened Model
  import opened Config

  const COUNT: nat := 43

  /** The catalogue: the settings in the order in which the file is written. */
  function Nth(i: nat): Setting
    requires i < COUNT
  {
    match i
    case 0 => TargetNamespace
    case 1 => TargetContext
    case 2 => TargetKubeconfig
    case 3 => TargetTimeout
    case 4 => TargetQps
    case 5 => TargetBurst
    case 6 => TargetPageSize
    case 7 => DiagnosisMode
    case 8 => DiagnosisLogs
    case 9 => DiagnosisUnused
    case 10 => DiagnosisEventsLimit
    case 11 => DiagnosisRestartThreshold
    case 12 => DiagnosisNodeHeartbeatTimeout
    case 13 => DiagnosisWatch
    case 14 => DiagnosisWorkers
    case 15 => DiagnosisLogSignaturesFile
    case 16 => DiagnosisLogSignatureLines
    case 17 => ConnectionEnabled
    case 18 => ConnectionPort
    case 19 => ConnectionPath
    case 20 => DebugEnabled
    case 21 => DebugImage
    case 22 => DebugProfile
    case 23 => DisplayTail
    case 24 => DisplayMaskSecrets
    case 25 => DisplayExitZero
    case 26 => DisplayShowCommands
    case 27 => DisplayShowApiRequests
    case 28 => ReportFormat
    case 29 => ReportFile
    case 30 => ReportSaveSnapshot
    case 31 => ReportDiff
    case 32 => ReportBaseline
    case 33 => ReportFailOn
    case 34 => ReportMaxIssues
    case 35 => HistoryDatabase
    case 36 => HistoryWindow
    case 37 => HistoryFlapThreshold
    case 38 => HistoryRestartGrowth
    case 39 => HistoryRetain
    case 40 => NotificationWebhookUrlEnv
    case 41 => NotificationFormat
    case _ => NotificationTimeout
  }

  datatype Section = TargetSection | DiagnosisSection | ConnectionSection | DebugSection | DisplaySection | ReportSection | HistorySection | NotificationSection

  function SectionOf(s: Setting): Section
  {
    match s
    case TargetNamespace => TargetSection
    case TargetContext => TargetSection
    case TargetKubeconfig => TargetSection
    case TargetTimeout => TargetSection
    case TargetQps => TargetSection
    case TargetBurst => TargetSection
    case TargetPageSize => TargetSection
    case DiagnosisMode => DiagnosisSection
    case DiagnosisLogs => DiagnosisSection
    case DiagnosisUnused => DiagnosisSection
    case DiagnosisEventsLimit => DiagnosisSection
    case DiagnosisRestartThreshold => DiagnosisSection
    case DiagnosisNodeHeartbeatTimeout => DiagnosisSection
    case DiagnosisWatch => DiagnosisSection
    case DiagnosisWorkers => DiagnosisSection
    case DiagnosisLogSignaturesFile => DiagnosisSection
    case DiagnosisLogSignatureLines => DiagnosisSection
    case ConnectionEnabled => ConnectionSection
    case ConnectionPort => ConnectionSection
    case ConnectionPath => ConnectionSection
    case DebugEnabled => DebugSection
    case DebugImage => DebugSection
    case DebugProfile => DebugSection
    case DisplayTail => DisplaySection
    case DisplayMaskSecrets => DisplaySection
    case DisplayExitZero => DisplaySection
    case DisplayShowCommands => DisplaySection
    case DisplayShowApiRequests => DisplaySection
    case ReportFormat => ReportSection
    case ReportFile => ReportSection
    case ReportSaveSnapshot => ReportSection
    case ReportDiff => ReportSection
    case ReportBaseline => ReportSection
    case ReportFailOn => ReportSection
    case ReportMaxIssues => ReportSection
    case HistoryDatabase => HistorySection
    case HistoryWindow => HistorySection
    case HistoryFlapThreshold => HistorySection
    case HistoryRestartGrowth => HistorySection
    case HistoryRetain => HistorySection
    case NotificationWebhookUrlEnv => NotificationSection
    case NotificationFormat => NotificationSection
    case NotificationTimeout => NotificationSection
  }

  function SectionName(section: Section): string
  {
    match section
    case TargetSection => "target"
    case DiagnosisSection => "diagnosis"
    case ConnectionSection => "connection"
    case DebugSection => "debug"
    case DisplaySection => "display"
    case ReportSection => "report"
    case HistorySection => "history"
    case NotificationSection => "notification"
  }

  function FindSection(name: string): Option<Section>
  {
    if name == "target" then Some(TargetSection)
    else if name == "diagnosis" then Some(DiagnosisSection)
    else if name == "connection" then Some(ConnectionSection)
    else if name == "debug" then Some(DebugSection)
    else if name == "display" then Some(DisplaySection)
    else if name == "report" then Some(ReportSection)
    else if name == "history" then Some(HistorySection)
    else if name == "notification" then Some(NotificationSection)
    else None
  }

  /** The position of a setting in the catalogue. */
  function OrdinalOf(s: Setting): nat
  {
    match s
    case TargetNamespace => 0
    case TargetContext => 1
    case TargetKubeconfig => 2
    case TargetTimeout => 3
    case TargetQps => 4
    case TargetBurst => 5
    case TargetPageSize => 6
    case DiagnosisMode => 7
    case DiagnosisLogs => 8
    case DiagnosisUnused => 9
    case DiagnosisEventsLimit => 10
    case DiagnosisRestartThreshold => 11
    case DiagnosisNodeHeartbeatTimeout => 12
    case DiagnosisWatch => 13
    case DiagnosisWorkers => 14
    case DiagnosisLogSignaturesFile => 15
    case DiagnosisLogSignatureLines => 16
    case ConnectionEnabled => 17
    case ConnectionPort => 18
    case ConnectionPath => 19
    case DebugEnabled => 20
    case DebugImage => 21
    case DebugProfile => 22
    case DisplayTail => 23
    case DisplayMaskSecrets => 24
    case DisplayExitZero => 25
    case DisplayShowCommands => 26
    case DisplayShowApiRequests => 27
    case ReportFormat => 28
    case ReportFile => 29
    case ReportSaveSnapshot => 30
    case ReportDiff => 31
    case ReportBaseline => 32
    case ReportFailOn => 33
    case ReportMaxIssues => 34
    case HistoryDatabase => 35
    case HistoryWindow => 36
    case HistoryFlapThreshold => 37
    case HistoryRestartGrowth => 38
    case HistoryRetain => 39
    case NotificationWebhookUrlEnv => 40
    case NotificationFormat => 41
    case NotificationTimeout => 42
  }

  function KeyOf(s: Setting): string
  {
    match s
    case TargetNamespace => "namespace"
    case TargetContext => "context"
    case TargetKubeconfig => "kubeconfig"
    case TargetTimeout => "timeout"
    case TargetQps => "qps"
    case TargetBurst => "burst"
    case TargetPageSize => "page_size"
    case DiagnosisMode => "mode"
    case DiagnosisLogs => "logs"
    case DiagnosisUnused => "unused"
    case DiagnosisEventsLimit => "events_limit"
    case DiagnosisRestartThreshold => "restart_threshold"
    case DiagnosisNodeHeartbeatTimeout => "node_heartbeat_timeout"
    case DiagnosisWatch => "watch"
    case DiagnosisWorkers => "workers"
    case DiagnosisLogSignaturesFile => "log_signatures_file"
    case DiagnosisLogSignatureLines => "log_signature_lines"
    case ConnectionEnabled => "enabled"
    case ConnectionPort => "port"
    case ConnectionPath => "path"
    case DebugEnabled => "enabled"
    case DebugImage => "image"
    case DebugProfile => "profile"
    case DisplayTail => "tail"
    case DisplayMaskSecrets => "mask_secrets"
    case DisplayExitZero => "exit_zero"
    case DisplayShowCommands => "show_commands"
    case DisplayShowApiRequests => "show_api_requests"
    case ReportFormat => "format"
    case ReportFile => "file"
    case ReportSaveSnapshot => "save_snapshot"
    case ReportDiff => "diff"
    case ReportBaseline => "baseline"
    case ReportFailOn => "fail_on"
    case ReportMaxIssues => "max_issues"
    case HistoryDatabase => "database"
    case HistoryWindow => "window"
    case HistoryFlapThreshold => "flap_threshold"
    case HistoryRestartGrowth => "restart_growth"
    case HistoryRetain => "retain"
    case NotificationWebhookUrlEnv => "webhook_url_env"
    case NotificationFormat => "format"
    case NotificationTimeout => "timeout"
  }

  /** The setting with this section and key, if the catalogue knows it. */
  function Find(section: Section, key: string): Option<Setting>
  {
    if section == TargetSection then
      if key == "namespace" then Some(TargetNamespace)
      else if key == "context" then Some(TargetContext)
      else if key == "kubeconfig" then Some(TargetKubeconfig)
      else if key == "timeout" then Some(TargetTimeout)
      else if key == "qps" then Some(TargetQps)
      else if key == "burst" then Some(TargetBurst)
      else if key == "page_size" then Some(TargetPageSize)
      else None
    else if section == DiagnosisSection then
      if key == "mode" then Some(DiagnosisMode)
      else if key == "logs" then Some(DiagnosisLogs)
      else if key == "unused" then Some(DiagnosisUnused)
      else if key == "events_limit" then Some(DiagnosisEventsLimit)
      else if key == "restart_threshold" then Some(DiagnosisRestartThreshold)
      else if key == "node_heartbeat_timeout" then Some(DiagnosisNodeHeartbeatTimeout)
      else if key == "watch" then Some(DiagnosisWatch)
      else if key == "workers" then Some(DiagnosisWorkers)
      else if key == "log_signatures_file" then Some(DiagnosisLogSignaturesFile)
      else if key == "log_signature_lines" then Some(DiagnosisLogSignatureLines)
      else None
    else if section == ConnectionSection then
      if key == "enabled" then Some(ConnectionEnabled)
      else if key == "port" then Some(ConnectionPort)
      else if key == "path" then Some(ConnectionPath)
      else None
    else if section == DebugSection then
      if key == "enabled" then Some(DebugEnabled)
      else if key == "image" then Some(DebugImage)
      else if key == "profile" then Some(DebugProfile)
      else None
    else if section == DisplaySection then
      if key == "tail" then Some(DisplayTail)
      else if key == "mask_secrets" then Some(DisplayMaskSecrets)
      else if key == "exit_zero" then Some(DisplayExitZero)
      else if key == "show_commands" then Some(DisplayShowCommands)
      else if key == "show_api_requests" then Some(DisplayShowApiRequests)
      else None
    else if section == ReportSection then
      if key == "format" then Some(ReportFormat)
      else if key == "file" then Some(ReportFile)
      else if key == "save_snapshot" then Some(ReportSaveSnapshot)
      else if key == "diff" then Some(ReportDiff)
      else if key == "baseline" then Some(ReportBaseline)
      else if key == "fail_on" then Some(ReportFailOn)
      else if key == "max_issues" then Some(ReportMaxIssues)
      else None
    else if section == HistorySection then
      if key == "database" then Some(HistoryDatabase)
      else if key == "window" then Some(HistoryWindow)
      else if key == "flap_threshold" then Some(HistoryFlapThreshold)
      else if key == "restart_growth" then Some(HistoryRestartGrowth)
      else if key == "retain" then Some(HistoryRetain)
      else None
    else if section == NotificationSection then
      if key == "webhook_url_env" then Some(NotificationWebhookUrlEnv)
      else if key == "format" then Some(NotificationFormat)
      else if key == "timeout" then Some(NotificationTimeout)
      else None
    else None
  }

  // ---------------------------------------------------------------------------
  // Texts of numbers, booleans and modes

  function Digit(n: nat): char
    requires n < 10
  {
    '0' + n as char
  }

  function Digits(n: nat): (s: string)
    ensures s != []
  {
    if n < 10 then [Digit(n)] else Digits(n / 10) + [Digit(n % 10)]
  }

  /** strconv.Itoa. */
  function Itoa(n: GoInt): string
  {
    if n < 0 then ['-'] + Digits(-(n as int)) else Digits(n as int)
  }

  predicate IsDigit(c: char) { '0' <= c <= '9' }

  function ParseDigits(s: string): Option<nat>
  {
    if s == [] || !IsDigit(s[|s| - 1]) then None
    else
      var d := (s[|s| - 1] - '0') as nat;
      if |s| == 1 then Some(d)
      else
        match ParseDigits(s[..|s| - 1])
        case None => None
        case Some(n) => Some(10 * n + d)
  }

  function InRange(n: int): Option<GoInt>
  {
    if -0x8000_0000_0000_0000 <= n < 0x8000_0000_0000_0000 then Some(n as GoInt) else None
  }

  /** strconv.Atoi: an optional sign, digits, and a value that fits. */
  function Atoi(s: string): Option<GoInt>
  {
    var signed := s != [] && (s[0] == '-' || s[0] == '+');
    match ParseDigits(if signed then s[1..] else s)
    case None => None
    case Some(n) => InRange(if signed && s[0] == '-' then -(n as int) else n as int)
  }

  lemma {:induction false} DigitsParse(n: nat)
    ensures ParseDigits(Digits(n)) == Some(n)
    ensures forall c :: c in Digits(n) ==> IsDigit(c)
  {
    if n >= 10 {
      DigitsParse(n / 10);
      assert Digits(n)[..|Digits(n)| - 1] == Digits(n / 10);
    }
  }

  lemma ItoaParses(n: GoInt)
    ensures Atoi(Itoa(n)) == Some(n)
    ensures Itoa(n) != ""
  {
    var m: nat := if n < 0 then -(n as int) else n as int;
    DigitsParse(m);
    assert Digits(m)[0] in Digits(m);
    if n < 0 {
      assert Itoa(n)[1..] == Digits(m);
    }
  }

  function LowerChar(c: char): char
  {
    if 'A' <= c <= 'Z' then c + ('a' - 'A') else c
  }

  /** strings.ToLower on ASCII letters. */
  function ToLower(s: string): string
  {
    seq(|s|, i requires 0 <= i < |s| => LowerChar(s[i]))
  }

  function FormatBool(b: bool): string
  {
    if b then "true" else "false"
  }

  function ParseBool(value: string): Option<bool>
  {
    var v := ToLower(value);
    if v == "1" || v == "yes" || v == "true" || v == "on" then Some(true)
    else if v == "0" || v == "no" || v == "false" || v == "off" then Some(false)
    else None
  }

  function ModeText(m: Mode): string
  {
    match m
    case AllMode => "all"
    case SelectMode => "select"
    case ListMode => "list"
    case TriageMode => "triage"
  }

  function ParseMode(value: string): Option<Mode>
  {
    if value == "all" then Some(AllMode)
    else if value == "select" then Some(SelectMode)
    else if value == "list" then Some(ListMode)
    else if value == "triage" then Some(TriageMode)
    else None
  }

  // ---------------------------------------------------------------------------
  // One value

  function SettingValue(c: Config, s: Setting): string
  {
    match s
    case TargetNamespace => c.target.namespace
    case TargetContext => c.target.context
    case TargetKubeconfig => c.target.kubeconfig
    case TargetTimeout => Itoa(c.target.timeout)
    case TargetQps => c.target.qps
    case TargetBurst => Itoa(c.target.burst)
    case TargetPageSize => Itoa(c.target.pageSize)
    case DiagnosisMode => ModeText(c.diagnosis.mode)
    case DiagnosisLogs => FormatBool(c.diagnosis.logs)
    case DiagnosisUnused => FormatBool(c.diagnosis.unused)
    case DiagnosisEventsLimit => Itoa(c.diagnosis.eventsLimit)
    case DiagnosisRestartThreshold => Itoa(c.diagnosis.restartThreshold)
    case DiagnosisNodeHeartbeatTimeout => Itoa(c.diagnosis.nodeHeartbeatTimeout)
    case DiagnosisWatch => if c.diagnosis.watch == 0 then "" else Itoa(c.diagnosis.watch)
    case DiagnosisWorkers => Itoa(c.diagnosis.workers)
    case DiagnosisLogSignaturesFile => c.diagnosis.logSignaturesFile
    case DiagnosisLogSignatureLines => Itoa(c.diagnosis.logSignatureLines)
    case ConnectionEnabled => FormatBool(c.connection.enabled)
    case ConnectionPort => if c.connection.port == 0 then "" else Itoa(c.connection.port)
    case ConnectionPath => c.connection.path
    case DebugEnabled => FormatBool(c.debug.enabled)
    case DebugImage => c.debug.image
    case DebugProfile => c.debug.profile
    case DisplayTail => Itoa(c.display.tail)
    case DisplayMaskSecrets => FormatBool(c.display.maskSecrets)
    case DisplayExitZero => FormatBool(c.display.exitZero)
    case DisplayShowCommands => FormatBool(c.display.showCommands)
    case DisplayShowApiRequests => FormatBool(c.display.showApiRequests)
    case ReportFormat => c.report.format
    case ReportFile => c.report.file
    case ReportSaveSnapshot => c.report.saveSnapshot
    case ReportDiff => c.report.diff
    case ReportBaseline => c.report.baseline
    case ReportFailOn => c.report.failOn
    case ReportMaxIssues => if c.report.maxIssues.None? then "" else Itoa(c.report.maxIssues.value)
    case HistoryDatabase => c.history.database
    case HistoryWindow => Itoa(c.history.window)
    case HistoryFlapThreshold => Itoa(c.history.flapThreshold)
    case HistoryRestartGrowth => Itoa(c.history.restartGrowth)
    case HistoryRetain => Itoa(c.history.retain)
    case NotificationWebhookUrlEnv => c.notification.webhookUrlEnv
    case NotificationFormat => c.notification.format
    case NotificationTimeout => Itoa(c.notification.timeout)
  }

  function WithInt(value: string, minimum: GoInt, set_: GoInt -> Config): Option<Config>
  {
    match Atoi(value)
    case None => None
    case Some(n) => if n < minimum then None else Some(set_(n))
  }

  function WithBool(value: string, set_: bool -> Config): Option<Config>
  {
    match ParseBool(value)
    case None => None
    case Some(b) => Some(set_(b))
  }

  /** applySetting: None is the error. */
  function ApplySetting(env: Env, c: Config, s: Setting, value: string): Option<Config>
  {
    match s
    case TargetNamespace => Some(c.(target := c.target.(namespace := value)))
    case TargetContext => Some(c.(target := c.target.(context := value)))
    case TargetKubeconfig => Some(c.(target := c.target.(kubeconfig := value)))
    case TargetTimeout => WithInt(value, 1, (n: GoInt) => c.(target := c.target.(timeout := n)))
    case TargetQps => if env.parseQps(value).Some? then Some(c.(target := c.target.(qps := env.parseQps(value).value))) else None
    case TargetBurst => WithInt(value, 1, (n: GoInt) => c.(target := c.target.(burst := n)))
    case TargetPageSize => WithInt(value, 1, (n: GoInt) => c.(target := c.target.(pageSize := n)))
    case DiagnosisMode => if ParseMode(value).Some? then Some(c.(diagnosis := c.diagnosis.(mode := ParseMode(value).value))) else None
    case DiagnosisLogs => WithBool(value, (b: bool) => c.(diagnosis := c.diagnosis.(logs := b)))
    case DiagnosisUnused => WithBool(value, (b: bool) => c.(diagnosis := c.diagnosis.(unused := b)))
    case DiagnosisEventsLimit => WithInt(value, 1, (n: GoInt) => c.(diagnosis := c.diagnosis.(eventsLimit := n)))
    case DiagnosisRestartThreshold => WithInt(value, 0, (n: GoInt) => c.(diagnosis := c.diagnosis.(restartThreshold := n)))
    case DiagnosisNodeHeartbeatTimeout => WithInt(value, 1, (n: GoInt) => c.(diagnosis := c.diagnosis.(nodeHeartbeatTimeout := n)))
    case DiagnosisWatch => WithInt(value, 1, (n: GoInt) => c.(diagnosis := c.diagnosis.(watch := n)))
    case DiagnosisWorkers => WithInt(value, 1, (n: GoInt) => c.(diagnosis := c.diagnosis.(workers := n)))
    case DiagnosisLogSignaturesFile => Some(c.(diagnosis := c.diagnosis.(logSignaturesFile := value)))
    case DiagnosisLogSignatureLines => WithInt(value, 1, (n: GoInt) => c.(diagnosis := c.diagnosis.(logSignatureLines := n)))
    case ConnectionEnabled => WithBool(value, (b: bool) => c.(connection := c.connection.(enabled := b)))
    case ConnectionPort => WithInt(value, 1024, (n: GoInt) => c.(connection := c.connection.(port := n)))
    case ConnectionPath => Some(c.(connection := c.connection.(path := value)))
    case DebugEnabled => WithBool(value, (b: bool) => c.(debug := c.debug.(enabled := b)))
    case DebugImage => Some(c.(debug := c.debug.(image := value)))
    case DebugProfile => Some(c.(debug := c.debug.(profile := value)))
    case DisplayTail => WithInt(value, 1, (n: GoInt) => c.(display := c.display.(tail := n)))
    case DisplayMaskSecrets => WithBool(value, (b: bool) => c.(display := c.display.(maskSecrets := b)))
    case DisplayExitZero => WithBool(value, (b: bool) => c.(display := c.display.(exitZero := b)))
    case DisplayShowCommands => WithBool(value, (b: bool) => c.(display := c.display.(showCommands := b)))
    case DisplayShowApiRequests => WithBool(value, (b: bool) => c.(display := c.display.(showApiRequests := b)))
    case ReportFormat => Some(c.(report := c.report.(format := ToLower(value))))
    case ReportFile => Some(c.(report := c.report.(file := value)))
    case ReportSaveSnapshot => Some(c.(report := c.report.(saveSnapshot := value)))
    case ReportDiff => Some(c.(report := c.report.(diff := value)))
    case ReportBaseline => Some(c.(report := c.report.(baseline := value)))
    case ReportFailOn => Some(c.(report := c.report.(failOn := ToLower(value))))
    case ReportMaxIssues => WithInt(value, 0, (n: GoInt) => c.(report := c.report.(maxIssues := Some(n))))
    case HistoryDatabase => Some(c.(history := c.history.(database := value)))
    case HistoryWindow => WithInt(value, 2, (n: GoInt) => c.(history := c.history.(window := n)))
    case HistoryFlapThreshold => WithInt(value, 1, (n: GoInt) => c.(history := c.history.(flapThreshold := n)))
    case HistoryRestartGrowth => WithInt(value, 1, (n: GoInt) => c.(history := c.history.(restartGrowth := n)))
    case HistoryRetain => WithInt(value, 1, (n: GoInt) => c.(history := c.history.(retain := n)))
    case NotificationWebhookUrlEnv => Some(c.(notification := c.notification.(webhookUrlEnv := value)))
    case NotificationFormat => Some(c.(notification := c.notification.(format := ToLower(value))))
    case NotificationTimeout => WithInt(value, 1, (n: GoInt) => c.(notification := c.notification.(timeout := n)))
  }

  /** base with the one setting taken from c. */
  function CopySetting(base: Config, c: Config, s: Setting): Config
  {
    match s
    case TargetNamespace => base.(target := base.target.(namespace := c.target.namespace))
    case TargetContext => base.(target := base.target.(context := c.target.context))
    case TargetKubeconfig => base.(target := base.target.(kubeconfig := c.target.kubeconfig))
    case TargetTimeout => base.(target := base.target.(timeout := c.target.timeout))
    case TargetQps => base.(target := base.target.(qps := c.target.qps))
    case TargetBurst => base.(target := base.target.(burst := c.target.burst))
    case TargetPageSize => base.(target := base.target.(pageSize := c.target.pageSize))
    case DiagnosisMode => base.(diagnosis := base.diagnosis.(mode := c.diagnosis.mode))
    case DiagnosisLogs => base.(diagnosis := base.diagnosis.(logs := c.diagnosis.logs))
    case DiagnosisUnused => base.(diagnosis := base.diagnosis.(unused := c.diagnosis.unused))
    case DiagnosisEventsLimit => base.(diagnosis := base.diagnosis.(eventsLimit := c.diagnosis.eventsLimit))
    case DiagnosisRestartThreshold => base.(diagnosis := base.diagnosis.(restartThreshold := c.diagnosis.restartThreshold))
    case DiagnosisNodeHeartbeatTimeout => base.(diagnosis := base.diagnosis.(nodeHeartbeatTimeout := c.diagnosis.nodeHeartbeatTimeout))
    case DiagnosisWatch => base.(diagnosis := base.diagnosis.(watch := c.diagnosis.watch))
    case DiagnosisWorkers => base.(diagnosis := base.diagnosis.(workers := c.diagnosis.workers))
    case DiagnosisLogSignaturesFile => base.(diagnosis := base.diagnosis.(logSignaturesFile := c.diagnosis.logSignaturesFile))
    case DiagnosisLogSignatureLines => base.(diagnosis := base.diagnosis.(logSignatureLines := c.diagnosis.logSignatureLines))
    case ConnectionEnabled => base.(connection := base.connection.(enabled := c.connection.enabled))
    case ConnectionPort => base.(connection := base.connection.(port := c.connection.port))
    case ConnectionPath => base.(connection := base.connection.(path := c.connection.path))
    case DebugEnabled => base.(debug := base.debug.(enabled := c.debug.enabled))
    case DebugImage => base.(debug := base.debug.(image := c.debug.image))
    case DebugProfile => base.(debug := base.debug.(profile := c.debug.profile))
    case DisplayTail => base.(display := base.display.(tail := c.display.tail))
    case DisplayMaskSecrets => base.(display := base.display.(maskSecrets := c.display.maskSecrets))
    case DisplayExitZero => base.(display := base.display.(exitZero := c.display.exitZero))
    case DisplayShowCommands => base.(display := base.display.(showCommands := c.display.showCommands))
    case DisplayShowApiRequests => base.(display := base.display.(showApiRequests := c.display.showApiRequests))
    case ReportFormat => base.(report := base.report.(format := c.report.format))
    case ReportFile => base.(report := base.report.(file := c.report.file))
    case ReportSaveSnapshot => base.(report := base.report.(saveSnapshot := c.report.saveSnapshot))
    case ReportDiff => base.(report := base.report.(diff := c.report.diff))
    case ReportBaseline => base.(report := base.report.(baseline := c.report.baseline))
    case ReportFailOn => base.(report := base.report.(failOn := c.report.failOn))
    case ReportMaxIssues => base.(report := base.report.(maxIssues := c.report.maxIssues))
    case HistoryDatabase => base.(history := base.history.(database := c.history.database))
    case HistoryWindow => base.(history := base.history.(window := c.history.window))
    case HistoryFlapThreshold => base.(history := base.history.(flapThreshold := c.history.flapThreshold))
    case HistoryRestartGrowth => base.(history := base.history.(restartGrowth := c.history.restartGrowth))
    case HistoryRetain => base.(history := base.history.(retain := c.history.retain))
    case NotificationWebhookUrlEnv => base.(notification := base.notification.(webhookUrlEnv := c.notification.webhookUrlEnv))
    case NotificationFormat => base.(notification := base.notification.(format := c.notification.format))
    case NotificationTimeout => base.(notification := base.notification.(timeout := c.notification.timeout))
  }

  // ---------------------------------------------------------------------------
  // Laws

  lemma LowerTexts()
    ensures ToLower("true") == "true" && ToLower("false") == "false"
    ensures forall s :: s in {"text", "json", "sarif", "junit", "mermaid", "dot"} ==> ToLower(s) == s
    ensures forall s :: s in {"issue", "warning", "unavailable", "any", "none"} ==> ToLower(s) == s
    ensures forall s :: s in {"generic", "slack"} ==> ToLower(s) == s
  {
  }

  lemma LowerIsIdentity(s: string)
    requires forall i :: 0 <= i < |s| ==> !('A' <= s[i] <= 'Z')
    ensures ToLower(s) == s
  {
  }

  /** The two writers of `max_issues`, flag and file, reject negative numbers. */
  predicate Written(c: Config)
  {
    c.report.maxIssues.Some? ==> c.report.maxIssues.value >= 0
  }

  ghost predicate ParsesOwnNumbers(env: Env)
  {
    forall q :: env.validQps(q) ==> env.parseQps(q) == Some(q) && q != ""
  }

  /** Applying the printed value of a setting of a valid configuration restores
      exactly that setting. */
  lemma ApplyRestores(env: Env, base: Config, c: Config, s: Setting)
    requires ParsesOwnNumbers(env) && Valid(env, c) && !c.cli.version && Written(c)
    requires SettingValue(c, s) != ""
    ensures ApplySetting(env, base, s, SettingValue(c, s)) == Some(CopySetting(base, c, s))
  {
    hide SettingValue, CopySetting, ApplySetting, Valid, ParsesOwnNumbers, Written;
    if SectionOf(s) in {TargetSection, DiagnosisSection, ConnectionSection} {
      ApplyRestoresEarly(env, base, c, s);
    } else {
      ApplyRestoresLate(env, base, c, s);
    }
  }

  lemma ApplyRestoresEarly(env: Env, base: Config, c: Config, s: Setting)
    requires ParsesOwnNumbers(env) && Valid(env, c) && !c.cli.version && Written(c)
    requires SettingValue(c, s) != "" && SectionOf(s) in {TargetSection, DiagnosisSection, ConnectionSection}
    ensures ApplySetting(env, base, s, SettingValue(c, s)) == Some(CopySetting(base, c, s))
  {
    LowerTexts();
    forall n { ItoaParses(n); }
    hide Atoi, Itoa, ToLower, IsNamespace, HasBlank, IsEnvName, PathsDistinct, DebugValid, DiagnosisValid, ClusterSnapshotValid;
  }

  lemma ApplyRestoresLate(env: Env, base: Config, c: Config, s: Setting)
    requires ParsesOwnNumbers(env) && Valid(env, c) && !c.cli.version && Written(c)
    requires SettingValue(c, s) != "" && SectionOf(s) !in {TargetSection, DiagnosisSection, ConnectionSection}
    ensures ApplySetting(env, base, s, SettingValue(c, s)) == Some(CopySetting(base, c, s))
  {
    LowerTexts();
    forall n { ItoaParses(n); }
    hide Atoi, Itoa, ToLower, IsNamespace, HasBlank, IsEnvName, PathsDistinct, DebugValid, DiagnosisValid, ClusterSnapshotValid;
  }

  predicate SameSection(a: Config, b: Config, section: Section)
  {
    match section
    case TargetSection => a.target == b.target
    case DiagnosisSection => a.diagnosis == b.diagnosis
    case ConnectionSection => a.connection == b.connection
    case DebugSection => a.debug == b.debug
    case DisplaySection => a.display == b.display
    case ReportSection => a.report == b.report
    case HistorySection => a.history == b.history
    case NotificationSection => a.notification == b.notification
  }

  lemma ReadsItsSection(a: Config, b: Config, t: Setting)
    requires SameSection(a, b, SectionOf(t))
    ensures SettingValue(a, t) == SettingValue(b, t)
  {
  }

  lemma CopyStaysInSection(base: Config, c: Config, s: Setting, section: Section)
    ensures section != SectionOf(s) ==> SameSection(CopySetting(base, c, s), base, section)
    ensures CopySetting(base, c, s).explicit == base.explicit && CopySetting(base, c, s).cli == base.cli
  {
  }

  /** Copying one setting changes what that setting reads, and nothing else. */
  lemma CopyReads(base: Config, c: Config, s: Setting, t: Setting)
    ensures SettingValue(CopySetting(base, c, s), t) == if t == s then SettingValue(c, s) else SettingValue(base, t)
    ensures CopySetting(base, c, s).explicit == base.explicit && CopySetting(base, c, s).cli == base.cli
  {
    hide SettingValue, CopySetting, SameSection, SectionOf;
    CopyStaysInSection(base, c, s, SectionOf(t));
    if SectionOf(s) != SectionOf(t) {
      ReadsItsSection(CopySetting(base, c, s), base, t);
    } else if SectionOf(s) == TargetSection {
      CopyTargetReads(base, c, s, t);
    } else if SectionOf(s) == DiagnosisSection {
      CopyDiagnosisReads(base, c, s, t);
    } else {
      CopyReadsLate(base, c, s, t);
    }
  }

  lemma CopyTargetReads(base: Config, c: Config, s: Setting, t: Setting)
    requires SectionOf(s) == SectionOf(t) && SectionOf(s) == TargetSection
    ensures SettingValue(CopySetting(base, c, s), t) == if t == s then SettingValue(c, s) else SettingValue(base, t)
  {
  }

  lemma CopyDiagnosisReads(base: Config, c: Config, s: Setting, t: Setting)
    requires SectionOf(s) == SectionOf(t) && SectionOf(s) == DiagnosisSection
    ensures SettingValue(CopySetting(base, c, s), t) == if t == s then SettingValue(c, s) else SettingValue(base, t)
  {
  }

  lemma CopyReadsLate(base: Config, c: Config, s: Setting, t: Setting)
    requires SectionOf(s) == SectionOf(t) && SectionOf(s) !in {TargetSection, DiagnosisSection}
    ensures SettingValue(CopySetting(base, c, s), t) == if t == s then SettingValue(c, s) else SettingValue(base, t)
  {
  }

  lemma CatalogueOrder(i: nat)
    requires i < COUNT
    ensures OrdinalOf(Nth(i)) == i
  {
  }

  lemma CatalogueComplete(s: Setting)
    ensures OrdinalOf(s) < COUNT && Nth(OrdinalOf(s)) == s
  {
  }

  function Rank(section: Section): nat
  {
    match section
    case TargetSection => 0
    case DiagnosisSection => 1
    case ConnectionSection => 2
    case DebugSection => 3
    case DisplaySection => 4
    case ReportSection => 5
    case HistorySection => 6
    case NotificationSection => 7
  }

  /** The settings of one section are neighbours in the catalogue. */
  lemma SectionsAreGrouped(s: Setting, t: Setting)
    requires OrdinalOf(s) < OrdinalOf(t)
    ensures Rank(SectionOf(s)) <= Rank(SectionOf(t))
  {
  }

  /** Keys are written in lower-case letters and underscores. */
  predicate IsKeyChar(c: char) { 'a' <= c <= 'z' || c == '_' }

  lemma Keys0ArePlain(s: Setting)
    requires s == TargetNamespace || s == TargetContext || s == TargetKubeconfig || s == TargetTimeout || s == TargetQps || s == TargetBurst || s == TargetPageSize || s == DiagnosisMode
    ensures KeyOf(s) != "" && forall c :: c in KeyOf(s) ==> IsKeyChar(c)
  {
  }

  lemma Keys1ArePlain(s: Setting)
    requires s == DiagnosisLogs || s == DiagnosisUnused || s == DiagnosisEventsLimit || s == DiagnosisRestartThreshold || s == DiagnosisNodeHeartbeatTimeout || s == DiagnosisWatch || s == DiagnosisWorkers || s == DiagnosisLogSignaturesFile
    ensures KeyOf(s) != "" && forall c :: c in KeyOf(s) ==> IsKeyChar(c)
  {
  }

  lemma Keys2ArePlain(s: Setting)
    requires s == DiagnosisLogSignatureLines || s == ConnectionEnabled || s == ConnectionPort || s == ConnectionPath || s == DebugEnabled || s == DebugImage || s == DebugProfile || s == DisplayTail
    ensures KeyOf(s) != "" && forall c :: c in KeyOf(s) ==> IsKeyChar(c)
  {
  }

  lemma Keys3ArePlain(s: Setting)
    requires s == DisplayMaskSecrets || s == DisplayExitZero || s == DisplayShowCommands || s == DisplayShowApiRequests || s == ReportFormat || s == ReportFile || s == ReportSaveSnapshot || s == ReportDiff
    ensures KeyOf(s) != "" && forall c :: c in KeyOf(s) ==> IsKeyChar(c)
  {
  }

  lemma Keys4ArePlain(s: Setting)
    requires s == ReportBaseline || s == ReportFailOn || s == ReportMaxIssues || s == HistoryDatabase || s == HistoryWindow || s == HistoryFlapThreshold || s == HistoryRestartGrowth || s == HistoryRetain
    ensures KeyOf(s) != "" && forall c :: c in KeyOf(s) ==> IsKeyChar(c)
  {
  }

  lemma Keys5ArePlain(s: Setting)
    requires s == NotificationWebhookUrlEnv || s == NotificationFormat || s == NotificationTimeout
    ensures KeyOf(s) != "" && forall c :: c in KeyOf(s) ==> IsKeyChar(c)
  {
  }

  lemma KeysArePlain(s: Setting)
    ensures KeyOf(s) != "" && forall c :: c in KeyOf(s) ==> IsKeyChar(c)
  {
    hide KeyOf, IsKeyChar;
    CatalogueComplete(s);
    match OrdinalOf(s) / 8 {
      case 0 => Keys0ArePlain(s);
      case 1 => Keys1ArePlain(s);
      case 2 => Keys2ArePlain(s);
      case 3 => Keys3ArePlain(s);
      case 4 => Keys4ArePlain(s);
      case _ => Keys5ArePlain(s);
    }
  }

  lemma SectionNamesArePlain(section: Section)
    ensures SectionName(section) != "" && forall c :: c in SectionName(section) ==> IsKeyChar(c)
    ensures FindSection(SectionName(section)) == Some(section)
  {
  }

  lemma FindNamed(s: Setting)
    ensures Find(SectionOf(s), KeyOf(s)) == Some(s)
  {
    hide Find, KeyOf;
    if SectionOf(s) in {TargetSection, DiagnosisSection} {
      FindNamedEarly(s);
    } else {
      FindNamedLate(s);
    }
  }

  lemma FindNamedEarly(s: Setting)
    requires SectionOf(s) in {TargetSection, DiagnosisSection}
    ensures Find(SectionOf(s), KeyOf(s)) == Some(s)
  {
  }

  lemma FindNamedLate(s: Setting)
    requires SectionOf(s) !in {TargetSection, DiagnosisSection}
    ensures Find(SectionOf(s), KeyOf(s)) == Some(s)
  {
  }
}
