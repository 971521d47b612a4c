/**
 * The runtime-monitor controller: the `runtime_monitoring` flag (enable, disable,
 * toggle), the downloaded `monitor.js`, and the views over the threat log. The two
 * files under `.sapo` are held by a `MonitorFiles` object; downloads arrive as HTTP
 * replies and the threat-log record decoder is a parameter.
 */
module Monitor {
  import opened Base
  import opened Text
  import opened ConfigStore
  import opened ApiClient

  const MonitoringKey: string := "runtime_monitoring"

  /** `is_monitoring_enabled`: the stored flag reads exactly `true` or `1`. */
  predicate MonitoringEnabled(config: map<string, string>) {
    var v := GetValue(config, MonitoringKey);
    v == Some("true") || v == Some("1")
  }

  lemma MonitoringEnabledIff(config: map<string, string>)
    ensures MonitoringEnabled(config) <==>
      MonitoringKey in config && (config[MonitoringKey] == "true" || config[MonitoringKey] == "1")
    ensures MonitoringKey !in config ==> !MonitoringEnabled(config)
  {
  }

  lemma FlagWellFormed()
    ensures WellFormedKey(MonitoringKey) && WellFormedValue("true") && WellFormedValue("false")
  {
  }

  /** The monitor script and the threat log; `None` when the file does not exist. */
  class MonitorFiles {
    var script: Option<string>
    var log: Option<string>

    constructor (script: Option<string>, log: Option<string>)
      ensures this.script == script && this.log == log
    {
      this.script := script;
      this.log := log;
    }

    predicate ScriptExists()
      reads this
    {
      script.Some?
    }
  }

  /** What the host does for one download of `monitor.js`. */
  datatype DownloadHost = DownloadHost(reply: HttpReply, dirCreated: bool, written: bool)

  /** A download stores the script exactly when the reply is good and the writes succeed. */
  predicate DownloadSucceeds(host: DownloadHost) {
    ClassifyDownload(host.reply).Ok? && host.dirCreated && host.written
  }

  /** `download_monitor_script`. */
  method DownloadMonitorScript(files: MonitorFiles, host: DownloadHost) returns (ok: bool)
    modifies files
    ensures ok <==> DownloadSucceeds(host)
    ensures ok ==> files.script == Some(ClassifyDownload(host.reply).value)
    ensures !ok ==> files.script == old(files.script)
    ensures files.log == old(files.log)
  {
    match ClassifyDownload(host.reply) {
      case Ok(content) =>
        if !host.dirCreated {
          return false;
        }
        if !host.written {
          return false;
        }
        files.script := Some(content);
        return true;
      case Err(_) =>
        return false;
    }
  }

  /**
   * `monitor enable`: nothing happens without Pro; otherwise the flag is set only
   * after the script was stored.
   */
  method Enable(store: ConfigFile, files: MonitorFiles, host: DownloadHost) returns (attempted: bool, enabled: bool)
    modifies store, files
    ensures attempted <==> IsPro(old(store.Config()))
    ensures !attempted ==> store.content == old(store.content) && files.script == old(files.script)
    ensures enabled <==> attempted && DownloadSucceeds(host)
    ensures attempted && !enabled ==> store.content == old(store.content) && files.script == old(files.script)
    ensures enabled ==> store.Config() == old(store.Config())[MonitoringKey := "true"]
    ensures enabled ==> MonitoringEnabled(store.Config()) && files.ScriptExists()
    ensures files.log == old(files.log)
  {
    var config := store.GetConfig();
    if !IsPro(config) {
      return false, false;
    }
    attempted := true;
    var ok := DownloadMonitorScript(files, host);
    if !ok {
      return attempted, false;
    }
    FlagWellFormed();
    store.SetConfigValue(MonitoringKey, "true");
    enabled := true;
  }

  /** `monitor disable`: always clears the flag, and leaves the script in place. */
  method Disable(store: ConfigFile)
    modifies store
    ensures store.Config() == old(store.Config())[MonitoringKey := "false"]
    ensures !MonitoringEnabled(store.Config())
  {
    FlagWellFormed();
    store.SetConfigValue(MonitoringKey, "false");
  }

  /** `monitor toggle`: from enabled to disabled, otherwise exactly `enable`. */
  method Toggle(store: ConfigFile, files: MonitorFiles, host: DownloadHost) returns (attempted: bool, enabled: bool)
    modifies store, files
    ensures MonitoringEnabled(old(store.Config())) ==>
      !attempted && !enabled && !MonitoringEnabled(store.Config()) &&
      store.Config() == old(store.Config())[MonitoringKey := "false"] && files.script == old(files.script)
    ensures !MonitoringEnabled(old(store.Config())) ==>
      (attempted <==> IsPro(old(store.Config()))) &&
      (enabled <==> attempted && DownloadSucceeds(host)) &&
      (!enabled ==> store.content == old(store.content) && files.script == old(files.script)) &&
      (enabled ==> store.Config() == old(store.Config())[MonitoringKey := "true"] && MonitoringEnabled(store.Config()))
    ensures files.log == old(files.log)
  {
    var config := store.GetConfig();
    if MonitoringEnabled(config) {
      Disable(store);
      attempted, enabled := false, false;
    } else {
      attempted, enabled := Enable(store, files, host);
    }
  }

  // ---------------------------------------------------------------------------
  // The threat log

  /** The fields read from one decoded log record; a field of the wrong type reads as missing. */
  datatype Threat = Threat(threatType: Option<string>, packageName: Option<string>, blocked: Option<bool>)

  /** One displayed record. */
  datatype ThreatRow = ThreatRow(status: string, package: string, kind: string)

  /** `format_threat_type`: the known codes get labels, anything else shows as itself. */
  function FormatThreatType(threatType: string): string {
    match threatType
    case "credential_access" => "Credential File Access"
    case "network_exfil" => "Suspicious Network Request"
    case "credential_exfil" => "Credential Exfiltration Attempt"
    case "process_spawn" => "Suspicious Process Spawn"
    case "env_access" => "Sensitive Env Var Access"
    case "suspicious_connection" => "Suspicious Network Connection"
    case _ => threatType
  }

  predicate IsKnownThreatType(threatType: string) {
    threatType in {"credential_access", "network_exfil", "credential_exfil", "process_spawn",
                   "env_access", "suspicious_connection"}
  }

  /** A type is shown unchanged exactly when it is not a known code; known codes get distinct labels. */
  lemma FormatThreatTypeSpec(t: string, u: string)
    ensures FormatThreatType(t) == t <==> !IsKnownThreatType(t)
    ensures IsKnownThreatType(t) && IsKnownThreatType(u) && t != u ==> FormatThreatType(t) != FormatThreatType(u)
  {
  }

  function RowOf(threat: Threat): ThreatRow {
    ThreatRow(if threat.blocked.GetOr(false) then "BLOCKED" else "DETECTED",
              threat.packageName.GetOr("unknown"),
              FormatThreatType(threat.threatType.GetOr("unknown")))
  }

  /** A record with no usable fields shows as a detected threat of unknown package and type. */
  lemma RowDefaults()
    ensures RowOf(Threat(None, None, None)) == ThreatRow("DETECTED", "unknown", "unknown")
  {
  }

  /** The first position of the last `count` lines. */
  function WindowStart(len: nat, count: nat): (start: nat)
    ensures start <= len
    ensures len - start == if len < count then len else count
  {
    if len > count then len - count else 0
  }

  /** The rows of the lines that decode, in order. */
  function Rows(lines: seq<string>, parse: string -> Option<Threat>): (r: seq<ThreatRow>)
    ensures |r| <= |lines|
  {
    if lines == [] then []
    else
      var rest := Rows(lines[..|lines| - 1], parse);
      match parse(lines[|lines| - 1])
      case Some(threat) => rest + [RowOf(threat)]
      case None => rest
  }

  /** What `monitor threats` shows. */
  datatype ThreatsView = NoThreatsLogged | RecentThreats(rows: seq<ThreatRow>)

  /** `show_threats`: the window is cut from the raw lines, and undecodable lines inside it are skipped. */
  method ShowThreats(files: MonitorFiles, count: nat, parse: string -> Option<Threat>) returns (view: ThreatsView)
    ensures files.log.None? || Lines(files.log.value) == [] <==> view == NoThreatsLogged
    ensures view.RecentThreats? ==>
      var lines := Lines(files.log.value);
      view.rows == Rows(lines[WindowStart(|lines|, count)..], parse)
  {
    if files.log.None? {
      return NoThreatsLogged;
    }
    var lines := Lines(files.log.value);
    if lines == [] {
      return NoThreatsLogged;
    }
    var start := if |lines| > count then |lines| - count else 0;
    var window := lines[start..];
    var rows := [];
    for i := 0 to |window|
      invariant rows == Rows(window[..i], parse)
    {
      assert window[..i + 1][..i] == window[..i];
      match parse(window[i]) {
        case Some(threat) =>
          var status := if threat.blocked.GetOr(false) then "BLOCKED" else "DETECTED";
          rows := rows + [ThreatRow(status, threat.packageName.GetOr("unknown"),
                                    FormatThreatType(threat.threatType.GetOr("unknown")))];
        case None =>
      }
    }
    assert window[..|window|] == window;
    return RecentThreats(rows);
  }

  lemma RowsSnoc(lines: seq<string>, line: string, parse: string -> Option<Threat>)
    ensures Rows(lines + [line], parse) == Rows(lines, parse) + Rows([line], parse)
  {
    assert (lines + [line])[..|lines|] == lines;
    assert [line][..0] == [];
  }

  /** Rows keep file order: the rows of two stretches of the log are those of each, in turn. */
  lemma {:induction false} RowsConcat(xs: seq<string>, ys: seq<string>, parse: string -> Option<Threat>)
    ensures Rows(xs + ys, parse) == Rows(xs, parse) + Rows(ys, parse)
    decreases |ys|
  {
    if ys == [] {
      assert xs + ys == xs;
    } else {
      var init, line := ys[..|ys| - 1], ys[|ys| - 1];
      assert ys == init + [line];
      assert xs + ys == (xs + init) + [line];
      RowsSnoc(xs + init, line, parse);
      RowsSnoc(init, line, parse);
      RowsConcat(xs, init, parse);
    }
  }

  /** At most `count` rows are shown, and when every line decodes exactly `min(len, count)`. */
  lemma {:induction false} WindowBound(lines: seq<string>, count: nat, parse: string -> Option<Threat>)
    ensures |Rows(lines[WindowStart(|lines|, count)..], parse)| <= count
    ensures (forall i :: 0 <= i < |lines| ==> parse(lines[i]).Some?) ==>
      |Rows(lines[WindowStart(|lines|, count)..], parse)| == if |lines| < count then |lines| else count
  {
    var w := lines[WindowStart(|lines|, count)..];
    if forall i :: 0 <= i < |lines| ==> parse(lines[i]).Some? {
      assert forall i :: 0 <= i < |w| ==> parse(w[i]).Some? by {
        forall i | 0 <= i < |w| ensures parse(w[i]).Some? {
          assert w[i] == lines[WindowStart(|lines|, count) + i];
        }
      }
      AllDecode(w, parse);
    }
  }

  lemma {:induction false} AllDecode(lines: seq<string>, parse: string -> Option<Threat>)
    requires forall i :: 0 <= i < |lines| ==> parse(lines[i]).Some?
    ensures |Rows(lines, parse)| == |lines|
  {
    if lines != [] {
      AllDecode(lines[..|lines| - 1], parse);
    }
  }

  /**
   * The window is taken before decoding: a valid record just outside it is not shown
   * even when the window holds only undecodable lines.
   */
  lemma WindowBeforeDecoding()
    ensures var parse := (l: string) => if l == "{}" then Some(Threat(None, None, None)) else None;
      var lines := ["{}", "garbage"];
      Rows(lines[WindowStart(|lines|, 1)..], parse) == [] && Rows(lines, parse) != []
  {
    var parse := (l: string) => if l == "{}" then Some(Threat(None, None, None)) else None;
    var lines := ["{}", "garbage"];
    assert lines[1..] == ["garbage"];
    assert ["garbage"][..0] == [];
    assert lines[..1] == ["{}"];
    assert ["{}"][..0] == [];
  }

  /** `clear_log`: removes an existing log; succeeds trivially when there is none. */
  method ClearLog(files: MonitorFiles, removed: bool) returns (cleared: bool)
    modifies files
    ensures old(files.log).None? ==> cleared && files.log.None?
    ensures old(files.log).Some? ==> (cleared <==> removed)
    ensures cleared ==> files.log.None?
    ensures !cleared ==> files.log == old(files.log)
    ensures files.script == old(files.script)
  {
    if files.log.Some? {
      if !removed {
        return false;
      }
      files.log := None;
    }
    return true;
  }

  // ---------------------------------------------------------------------------
  // Status

  /** The number of bytes `c` takes in UTF-8. */
  function Utf8Width(c: char): nat {
    if c as int < 0x80 then 1 else if c as int < 0x800 then 2 else if c as int < 0x10000 then 3 else 4
  }

  /** The size in bytes of `s` written as UTF-8. */
  function Utf8Length(s: string): (n: nat)
    ensures |s| <= n <= 4 * |s|
  {
    if s == [] then 0 else Utf8Width(s[0]) + Utf8Length(s[1..])
  }

  datatype LogSummary = LogSummary(sizeKb: nat, lineCount: nat)

  datatype MonitorStatus =
    | ProRequiredNotice
    | MonitorStatusReport(scriptInstalled: bool, enabled: bool, log: Option<LogSummary>)

  /** `monitor status`: stops after the Pro notice; otherwise reports the script, the flag and the log. */
  method ShowStatus(config: map<string, string>, files: MonitorFiles) returns (status: MonitorStatus)
    ensures !IsPro(config) <==> status == ProRequiredNotice
    ensures status.MonitorStatusReport? ==>
      status.scriptInstalled == files.ScriptExists() && status.enabled == MonitoringEnabled(config) &&
      (status.log.Some? <==> files.log.Some?)
    ensures status.MonitorStatusReport? && files.log.Some? ==>
      status.log.value == LogSummary(Utf8Length(files.log.value) / 1024, |Lines(files.log.value)|)
  {
    if !IsPro(config) {
      return ProRequiredNotice;
    }
    var summary := None;
    if files.log.Some? {
      summary := Some(LogSummary(Utf8Length(files.log.value) / 1024, |Lines(files.log.value)|));
    }
    status := MonitorStatusReport(files.ScriptExists(), MonitoringEnabled(config), summary);
  }
}
