/**
 * The monitor's configuration and how it is loaded: `_load_config` and
 * `_get_default_config` of `SystemMonitor` in monitor.py.
 *
 * Reading the file and parsing YAML are I/O; the model takes their outcome
 * as a `LoadOutcome` value.
 */
module Settings {

  /** Alert limits in percent, one per monitored metric. */
  datatype Thresholds = Thresholds(cpu: real, memory: real, disk: real)

  /** The `email` section: whether alerts are mailed and where to. */
  datatype EmailSettings = EmailSettings(
    enabled: bool,
    smtpServer: string,
    port: int,
    sender: string,
    recipient: string,
    username: string,
    password: string)

  /** The `logging` section. */
  datatype LoggingSettings = LoggingSettings(level: string, file: string)

  /** A whole configuration document. */
  datatype Config = Config(
    thresholds: Thresholds,
    checkInterval: int,
    email: EmailSettings,
    logging: LoggingSettings)

  /** What opening and parsing the configuration file produced. */
  datatype LoadOutcome =
    | Parsed(cfg: Config)   // the YAML document was read and parsed
    | NotFound              // the file does not exist
    | ParseError            // the file exists but is not valid YAML

  /** The configuration used when no file can be loaded. */
  const DefaultConfig: Config := Config(
    Thresholds(80.0, 85.0, 90.0),
    60,
    EmailSettings(false, "smtp.gmail.com", 587, "monitoring@example.com",
                  "admin@example.com", "", ""),
    LoggingSettings("INFO", "system_monitor.log"))

  /**
   * The configuration a monitor runs with. A parsed document is used as it
   * was loaded, with no field-by-field merge; a missing or unparsable file
   * gives the whole default configuration.
   */
  function LoadConfig(outcome: LoadOutcome): (c: Config)
    ensures outcome.Parsed? ==> c == outcome.cfg
    ensures !outcome.Parsed? ==>
      c.thresholds == Thresholds(80.0, 85.0, 90.0) &&
      c.checkInterval == 60 &&
      !c.email.enabled &&
      c.email.smtpServer == "smtp.gmail.com" && c.email.port == 587 &&
      c.logging == LoggingSettings("INFO", "system_monitor.log")
  {
    match outcome
    case Parsed(cfg) => cfg
    case NotFound => DefaultConfig
    case ParseError => DefaultConfig
  }
}
