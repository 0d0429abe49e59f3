/** Startup configuration: the presence checks run before monitoring starts, and the
    settings the monitoring loop then reads. */
module Config {
  import opened Wrappers
  import opened Evaluator

  /** `thresholds`: per-resource values that are checked for presence but never read by
      the evaluator. */
  datatype ThresholdSection = ThresholdSection(cpu: Option<real>, memory: Option<real>, disk: Option<real>)

  /** `alert.levels`. */
  datatype LevelSection = LevelSection(warning: Option<real>, critical: Option<real>)

  /** `alert`: the re-send interval in seconds and the level thresholds. */
  datatype AlertSection = AlertSection(interval: Option<real>, levels: Option<LevelSection>)

  /** `email`: delivery endpoint and credentials. */
  datatype EmailSection = EmailSection(
    sender: Option<string>, receiver: Option<string>,
    smtpServer: Option<string>, smtpPort: Option<int>,
    username: Option<string>, password: Option<string>)

  /** The configuration dictionary; `None` stands for a key that is not present. */
  datatype MonitorConfig = MonitorConfig(
    interval: Option<real>,
    logFile: Option<string>,
    thresholds: Option<ThresholdSection>,
    criticalProcesses: Option<seq<string>>,
    alert: Option<AlertSection>,
    email: Option<EmailSection>)

  /** A missing key, named by its dotted path (`thresholds.cpu`, `alert.levels`, ...). */
  datatype ConfigError = MissingKey(path: string)

  /** `[path]` when the key is missing, `[]` otherwise. */
  function Absent(missing: bool, path: string): seq<string>
  {
    if missing then [path] else []
  }

  /** Every missing key that the validation inspects, in the order it inspects them. Keys
      inside a missing section are not listed: the section itself is. */
  function MissingKeys(c: MonitorConfig): seq<string>
  {
    Absent(c.interval.None?, "interval")
    + Absent(c.logFile.None?, "log_file")
    + Absent(c.thresholds.None?, "thresholds")
    + Absent(c.alert.None?, "alert")
    + Absent(c.email.None?, "email")
    + (match c.thresholds
       case None => []
       case Some(t) =>
         Absent(t.cpu.None?, "thresholds.cpu")
         + Absent(t.memory.None?, "thresholds.memory")
         + Absent(t.disk.None?, "thresholds.disk"))
    + (match c.alert
       case None => []
       case Some(a) =>
         match a.levels
         case None => ["alert.levels"]
         case Some(l) =>
           Absent(l.warning.None?, "alert.levels.warning")
           + Absent(l.critical.None?, "alert.levels.critical"))
    + (match c.email
       case None => []
       case Some(e) =>
         Absent(e.sender.None?, "email.sender")
         + Absent(e.receiver.None?, "email.receiver")
         + Absent(e.smtpServer.None?, "email.smtp_server")
         + Absent(e.smtpPort.None?, "email.smtp_port")
         + Absent(e.username.None?, "email.username")
         + Absent(e.password.None?, "email.password"))
  }

  /** Checks the top-level keys; stops at the first one missing. */
  function ValidateTop(c: MonitorConfig): Outcome<ConfigError>
  {
    if c.interval.None? then Fail(MissingKey("interval"))
    else if c.logFile.None? then Fail(MissingKey("log_file"))
    else if c.thresholds.None? then Fail(MissingKey("thresholds"))
    else if c.alert.None? then Fail(MissingKey("alert"))
    else if c.email.None? then Fail(MissingKey("email"))
    else Pass
  }

  function ValidateThresholds(t: ThresholdSection): Outcome<ConfigError>
  {
    if t.cpu.None? then Fail(MissingKey("thresholds.cpu"))
    else if t.memory.None? then Fail(MissingKey("thresholds.memory"))
    else if t.disk.None? then Fail(MissingKey("thresholds.disk"))
    else Pass
  }

  function ValidateAlert(a: AlertSection): Outcome<ConfigError>
  {
    if a.levels.None? then Fail(MissingKey("alert.levels"))
    else if a.levels.value.warning.None? then Fail(MissingKey("alert.levels.warning"))
    else if a.levels.value.critical.None? then Fail(MissingKey("alert.levels.critical"))
    else Pass
  }

  function ValidateEmail(e: EmailSection): Outcome<ConfigError>
  {
    if e.sender.None? then Fail(MissingKey("email.sender"))
    else if e.receiver.None? then Fail(MissingKey("email.receiver"))
    else if e.smtpServer.None? then Fail(MissingKey("email.smtp_server"))
    else if e.smtpPort.None? then Fail(MissingKey("email.smtp_port"))
    else if e.username.None? then Fail(MissingKey("email.username"))
    else if e.password.None? then Fail(MissingKey("email.password"))
    else Pass
  }

  /** The startup validation: passes exactly when no inspected key is missing, and
      otherwise reports the first missing key in inspection order. It looks at
      presence only: neither `alert.interval` nor the order of the two thresholds is
      checked. */
  function Validate(c: MonitorConfig): (r: Outcome<ConfigError>)
    ensures r.Pass? <==> MissingKeys(c) == []
    ensures r.Fail? ==> |MissingKeys(c)| > 0 && r.error.path == MissingKeys(c)[0]
  {
    match ValidateTop(c)
    case Fail(e) => Fail(e)
    case Pass =>
      match ValidateThresholds(c.thresholds.value)
      case Fail(e) => Fail(e)
      case Pass =>
        match ValidateAlert(c.alert.value)
        case Fail(e) => Fail(e)
        case Pass => ValidateEmail(c.email.value)
  }

  /** What the monitoring loop reads from a configuration once it has started. */
  datatype Settings = Settings(levels: Levels, alertInterval: real)

  datatype StartupError = Invalid(cause: ConfigError) | MissingAlertInterval

  /** Validation followed by construction of the alert manager, which reads
      `alert.interval`. That key is not validated, so a configuration can pass
      validation and still fail here. */
  function Startup(c: MonitorConfig): (r: Result<Settings, StartupError>)
    ensures Validate(c).Fail? ==> r == Err(Invalid(Validate(c).error))
    ensures Validate(c).Pass? && c.alert.Some? && c.alert.value.interval.None? ==>
              r == Err(MissingAlertInterval)
    ensures r.Ok? <==> MissingKeys(c) == [] && c.alert.Some? && c.alert.value.interval.Some?
    ensures r.Ok? ==>
              && c.alert.Some? && c.alert.value.levels.Some?
              && c.alert.value.levels.value.warning == Some(r.value.levels.warning)
              && c.alert.value.levels.value.critical == Some(r.value.levels.critical)
              && c.alert.value.interval == Some(r.value.alertInterval)
  {
    match Validate(c)
    case Fail(e) => Err(Invalid(e))
    case Pass =>
      var a := c.alert.value;
      if a.interval.None? then Err(MissingAlertInterval)
      else Ok(Settings(Levels(a.levels.value.warning.value, a.levels.value.critical.value), a.interval.value))
  }

  /** The configuration the repository ships. */
  function ShippedConfig(): MonitorConfig
  {
    MonitorConfig(
      Some(300.0),
      Some("../logs/monitor.log"),
      Some(ThresholdSection(Some(90.0), Some(85.0), Some(90.0))),
      Some(["python3", "sshd", "postfix"]),
      Some(AlertSection(Some(3600.0), Some(LevelSection(Some(85.0), Some(95.0))))),
      Some(EmailSection(
        Some("System Monitor <monitor@monitor.localhost>"), Some("hateli@163.com"),
        Some("localhost"), Some(25), Some(""), Some(""))))
  }

  /** The shipped configuration starts with thresholds 85 / 95 and a one-hour interval. */
  lemma ShippedConfigStarts()
    ensures Startup(ShippedConfig()) == Ok(Settings(Levels(85.0, 95.0), 3600.0))
  {
  }

  /** Swapped thresholds pass validation: the ordering is never checked. */
  lemma SwappedThresholdsPass()
    ensures var c := ShippedConfig().(alert := Some(AlertSection(Some(3600.0), Some(LevelSection(Some(95.0), Some(85.0))))));
            Validate(c) == Pass && Startup(c) == Ok(Settings(Levels(95.0, 85.0), 3600.0))
  {
  }

  /** Any configuration whose only gap is `alert.interval` passes validation but fails
      at startup. */
  lemma AlertIntervalIsNotValidated(c: MonitorConfig)
    requires MissingKeys(c) == [] && c.alert.Some? && c.alert.value.interval.None?
    ensures Validate(c) == Pass && Startup(c) == Err(MissingAlertInterval)
  {
  }

  /** The shipped configuration without `alert.interval` passes validation but fails at
      startup. */
  lemma ShippedWithoutAlertInterval()
    ensures var c := ShippedConfig().(alert := Some(AlertSection(None, Some(LevelSection(Some(85.0), Some(95.0))))));
            Validate(c) == Pass && Startup(c) == Err(MissingAlertInterval)
  {
  }

  /** Whenever a top-level key is missing, validation reports the first such key,
      whatever is missing inside the sections. */
  lemma TopLevelKeysComeFirst(c: MonitorConfig)
    requires ValidateTop(c).Fail?
    ensures Validate(c) == ValidateTop(c)
    ensures Validate(c).error.path in ["interval", "log_file", "thresholds", "alert", "email"]
  {
  }

  /** The shipped configuration without `email` and with empty thresholds reports
      `email`. */
  lemma MissingEmailReportedFirst()
    ensures var c := ShippedConfig().(email := None, thresholds := Some(ThresholdSection(None, None, None)));
            Validate(c) == Fail(MissingKey("email"))
  {
  }
}
