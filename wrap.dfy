/**
 * The install interceptor behind the shell wrappers: decide whether a package-manager
 * command is an install, scan its package arguments in order, and launch the real
 * command, with the runtime monitor injected when that is allowed. The process
 * environment, the executable lookup, the scan replies and prompt answers, and the
 * way the child ends are inputs.
 */
module Wrap {
  import opened Base
  import opened Text
  import opened ConfigStore
  import opened ApiClient
  import opened ScanCommand
  import opened Monitor
  import opened SandboxAnalysis

  /** Whether `cmd`, the first argument, makes `manager` install packages. */
  predicate IsInstall(manager: string, cmd: string) {
    match manager
    case "npm" => cmd == "install" || cmd == "i" || cmd == "add"
    case "pnpm" => cmd == "install" || cmd == "i" || cmd == "add"
    case "bun" => cmd == "install" || cmd == "i" || cmd == "add"
    case "yarn" => cmd == "add" || cmd == "install" || cmd == ""
    case _ => false
  }

  /** The first argument, or `""` when there is none. */
  function Command(args: seq<string>): string {
    if args == [] then "" else args[0]
  }

  lemma IsInstallExamples()
    ensures IsInstall("yarn", Command([])) && !IsInstall("npm", Command([]))
    ensures IsInstall("pnpm", "i") && !IsInstall("yarn", "i")
    ensures !IsInstall("npx", "install") && !IsInstall("npm", "run")
  {
  }

  /** Only the four package managers ever install. */
  lemma OtherManagersPassThrough(manager: string, cmd: string)
    requires manager != "npm" && manager != "pnpm" && manager != "bun" && manager != "yarn"
    ensures !IsInstall(manager, cmd)
  {
  }

  /** The arguments that are neither flags nor paths, in order. */
  function Packages(args: seq<string>): (r: seq<string>)
    ensures |r| <= |args|
    ensures forall p :: p in r <==> p in args && !IsFlagOrPath(p)
  {
    if args == [] then []
    else
      var rest := Packages(args[..|args| - 1]);
      var a := args[|args| - 1];
      assert args == args[..|args| - 1] + [a];
      if IsFlagOrPath(a) then rest else rest + [a]
  }

  /** The package arguments of an install: everything after the command word. */
  function ExtractPackages(args: seq<string>): seq<string> {
    if args == [] then [] else Packages(args[1..])
  }

  /** Extraction keeps argument order: it distributes over concatenation. */
  lemma {:induction false} PackagesConcat(xs: seq<string>, ys: seq<string>)
    ensures Packages(xs + ys) == Packages(xs) + Packages(ys)
    decreases |ys|
  {
    if ys == [] {
      assert xs + ys == xs;
    } else {
      var init, a := ys[..|ys| - 1], ys[|ys| - 1];
      assert (xs + ys)[..|xs + ys| - 1] == xs + init;
      assert (xs + ys)[|xs + ys| - 1] == a;
      PackagesConcat(xs, init);
    }
  }

  /** `scan_lockfile`: batch scanning of lockfiles is not done, so it always permits. */
  function ScanLockfile(manager: string): (permit: bool)
    ensures permit
  {
    true
  }

  /** `should_use_runtime_monitoring`. */
  predicate ShouldMonitor(monitorDisabled: bool, config: map<string, string>, scriptExists: bool) {
    !monitorDisabled && IsPro(config) && MonitoringEnabled(config) && scriptExists
  }

  /** Monitoring is injected exactly when all four conditions hold, read off the stored values. */
  lemma ShouldMonitorIff(monitorDisabled: bool, config: map<string, string>, scriptExists: bool)
    ensures ShouldMonitor(monitorDisabled, config, scriptExists) <==>
      !monitorDisabled && scriptExists &&
      "plan" in config && (config["plan"] == "pro" || config["plan"] == "enterprise") &&
      MonitoringKey in config && (config[MonitoringKey] == "true" || config[MonitoringKey] == "1")
  {
    IsProIff(config);
    MonitoringEnabledIff(config);
  }

  /** The process facts one `wrap` run depends on. */
  datatype WrapHost = WrapHost(
    disabled: bool,              // SAPO_DISABLED is set
    monitorDisabled: bool,       // SAPO_MONITOR_DISABLED is set
    executable: Option<string>,  // where the real package manager was found
    scriptPath: string,          // where monitor.js lives
    scriptExists: bool,
    deviceId: string)

  /** A child process to start: program, arguments and the variables set for it. */
  datatype Launch = Launch(program: string, args: seq<string>, env: seq<(string, string)>)

  /** `NODE_OPTIONS` for the monitored run: require the monitor script, quoted. */
  function NodeOptions(scriptPath: string): string {
    "--require \"" + scriptPath + "\""
  }

  /** The quoted path in `NODE_OPTIONS` is the script path, when that path has no quote. */
  lemma NodeOptionsQuotesScript(scriptPath: string)
    requires '"' !in scriptPath
    ensures ExtractQuotedString(NodeOptions(scriptPath)) == Some(scriptPath)
  {
    var s := NodeOptions(scriptPath);
    assert s == "--require " + ['"'] + scriptPath + ['"'];
    assert FirstQuotes(s, 10, 11 + |scriptPath|) by {
      assert s[..10] == "--require ";
      assert s[11..11 + |scriptPath|] == scriptPath;
    }
    QuotedBetween(s, 10, 11 + |scriptPath|);
    assert s[11..11 + |scriptPath|] == scriptPath;
  }

  /** `run_with_monitoring`: the real executable with the monitor and its reporting address. */
  function MonitoredLaunch(executable: string, args: seq<string>, config: map<string, string>,
                           scriptPath: string, deviceId: string): Launch {
    Launch(executable, args, [("NODE_OPTIONS", NodeOptions(scriptPath)),
                              ("SAPO_DEVICE_ID", deviceId),
                              ("SAPO_API_URL", ApiUrl(config) + "/runtime/threat")])
  }

  /** `run_original_command` without monitoring: the executable found, else a shell lookup. */
  function PlainLaunch(manager: string, args: seq<string>, executable: Option<string>): Launch {
    match executable
    case Some(path) => Launch(path, args, [])
    case None => Launch("sh", ["-c", "command " + manager + " \"$@\"", "--"] + args, [])
  }

  /** `run_original_command`: monitoring needs a found executable; otherwise the plain launch. */
  function LaunchFor(manager: string, args: seq<string>, monitored: bool, config: map<string, string>,
                     host: WrapHost): (l: Launch)
    ensures l.env != [] <==> monitored && host.executable.Some?
    ensures host.executable.None? ==> l.program == "sh" && |l.args| == |args| + 3 && l.args[3..] == args
    ensures host.executable.Some? ==> l.program == host.executable.value && l.args == args
  {
    if monitored && host.executable.Some? then
      MonitoredLaunch(host.executable.value, args, config, host.scriptPath, host.deviceId)
    else PlainLaunch(manager, args, host.executable)
  }

  /** How the started package manager ended. */
  function ExitStatus(child: ChildExit): int {
    match child
    case Exited(code) => code
    case Signalled => 1
    case SpawnFailed => 0    // the wrapper simply returns
  }

  /** The scan of `p` lets the install go on. */
  predicate Passes(p: string, config: map<string, string>,
                   replies: string -> Result<ScanResponse, string>, answers: string -> string) {
    Proceeds(Decide(p, config, replies(p), answers(p)))
  }

  /**
   * The wrapper passes the child's code on, and 1 when it has none, as the sandbox
   * records it; the two differ only when the child could not be started, which the
   * sandbox records as 1 and the wrapper ends with status 0.
   */
  lemma ExitStatusVsSandbox(child: ChildExit)
    ensures child.Exited? ==> ExitStatus(child) == child.code && ExitCodeOf(child) == child.code
    ensures child.Signalled? ==> ExitStatus(child) == 1 && ExitCodeOf(child) == 1
    ensures ExitStatus(child) == ExitCodeOf(child) <==> !child.SpawnFailed?
    ensures child.SpawnFailed? ==> ExitStatus(child) == 0
  {
  }

  /** The verdict of `scan::run` on each package: whether its scan lets the install go on. */
  function Verdicts(config: map<string, string>,
                    replies: string -> Result<ScanResponse, string>, answers: string -> string): string -> bool
  {
    p => Passes(p, config, replies, answers)
  }

  /** The index of the first package whose verdict refuses the install. */
  function FirstRefusal(packages: seq<string>, passes: string -> bool): (r: Option<nat>)
    ensures r.Some? ==> r.value < |packages| && !passes(packages[r.value])
    ensures r.Some? ==> forall j :: 0 <= j < r.value ==> passes(packages[j])
    ensures r.None? <==> (forall j :: 0 <= j < |packages| ==> passes(packages[j]))
  {
    if packages == [] then None
    else if !passes(packages[0]) then Some(0)
    else
      assert forall j :: 0 < j < |packages| ==> packages[j] == packages[1..][j - 1];
      match FirstRefusal(packages[1..], passes)
      case Some(i) => Some(i + 1)
      case None => None
  }

  /** The outcome of one `wrap` run: the packages scanned, what was started, the exit status. */
  datatype WrapResult = WrapResult(scanned: seq<string>, launch: Option<Launch>, exitStatus: int)

  /** What one `wrap` run does, as a function of everything it depends on. */
  function Outcome(manager: string, args: seq<string>, host: WrapHost, config: map<string, string>,
                   replies: string -> Result<ScanResponse, string>, answers: string -> string,
                   child: ChildExit): WrapResult
  {
    if host.disabled || !IsInstall(manager, Command(args)) then
      WrapResult([], Some(PlainLaunch(manager, args, host.executable)), ExitStatus(child))
    else InstallOutcome(manager, args, host, config, Verdicts(config, replies, answers), child)
  }

  /** What an intercepted install does, given the verdict of each package's scan. */
  function InstallOutcome(manager: string, args: seq<string>, host: WrapHost, config: map<string, string>,
                          passes: string -> bool, child: ChildExit): WrapResult
  {
    var packages := ExtractPackages(args);
    match FirstRefusal(packages, passes)
    case Some(i) => WrapResult(packages[..i + 1], None, 0)
    case None =>
      var monitored := ShouldMonitor(host.monitorDisabled, config, host.scriptExists);
      WrapResult(packages, Some(LaunchFor(manager, args, monitored, config, host)), ExitStatus(child))
  }

  /**
   * The scan loop of `wrap::run`: scan in order, stop at the first refusal. `passes`
   * is the verdict of one `scan::run`.
   */
  method ScanPackages(packages: seq<string>, passes: string -> bool) returns (allPassed: bool, scanned: seq<string>)
    ensures allPassed <==> FirstRefusal(packages, passes).None?
    ensures allPassed ==> scanned == packages
    ensures !allPassed ==> scanned == packages[..FirstRefusal(packages, passes).value + 1]
  {
    scanned := [];
    var i := 0;
    while i < |packages|
      invariant 0 <= i <= |packages|
      invariant scanned == packages[..i]
      invariant forall j :: 0 <= j < i ==> passes(packages[j])
    {
      var pkg := packages[i];
      assert packages[..i + 1] == packages[..i] + [pkg];
      scanned := scanned + [pkg];
      if !passes(pkg) {
        FirstRefusalAt(packages, passes, i);
        return false, scanned;
      }
      i := i + 1;
    }
    assert packages[..i] == packages;
    return true, scanned;
  }

  /**
   * `wrap::run`. The scan replies and prompt answers are functions of the package
   * argument; the configuration is the one stored when the run starts.
   */
  method Run(manager: string, args: seq<string>, host: WrapHost, config: map<string, string>,
             replies: string -> Result<ScanResponse, string>, answers: string -> string, child: ChildExit)
    returns (r: WrapResult)
    ensures r == Outcome(manager, args, host, config, replies, answers, child)
  {
    if host.disabled {
      return WrapResult([], Some(PlainLaunch(manager, args, host.executable)), ExitStatus(child));
    }
    var cmd := if args == [] then "" else args[0];
    if !IsInstall(manager, cmd) {
      return WrapResult([], Some(PlainLaunch(manager, args, host.executable)), ExitStatus(child));
    }
    r := RunInstall(manager, args, host, config, Verdicts(config, replies, answers), child);
  }

  /** The install half of `wrap::run`: scan the packages (or the lockfile), then launch. */
  method RunInstall(manager: string, args: seq<string>, host: WrapHost, config: map<string, string>,
                    passes: string -> bool, child: ChildExit) returns (r: WrapResult)
    ensures r == InstallOutcome(manager, args, host, config, passes, child)
  {
    var packages := ExtractPackages(args);
    if packages == [] {
      if !ScanLockfile(manager) {
        return WrapResult([], None, 0);
      }
    } else {
      var allPassed, scanned := ScanPackages(packages, passes);
      if !allPassed {
        return WrapResult(scanned, None, 0);
      }
    }
    var monitored := ShouldMonitor(host.monitorDisabled, config, host.scriptExists);
    var launch := LaunchFor(manager, args, monitored, config, host);
    return WrapResult(packages, Some(launch), ExitStatus(child));
  }

  /** The first refusal is the position where every earlier scan proceeded and this one did not. */
  lemma FirstRefusalAt(packages: seq<string>, passes: string -> bool, i: nat)
    requires i < |packages|
    requires forall j :: 0 <= j < i ==> passes(packages[j])
    requires !passes(packages[i])
    ensures FirstRefusal(packages, passes) == Some(i)
  {
  }

  /** With `SAPO_DISABLED`, or for a command that does not install, nothing is scanned and nothing monitored. */
  lemma PassThrough(manager: string, args: seq<string>, host: WrapHost, config: map<string, string>,
                    replies: string -> Result<ScanResponse, string>, answers: string -> string, child: ChildExit)
    requires host.disabled || !IsInstall(manager, Command(args))
    ensures var r := Outcome(manager, args, host, config, replies, answers, child);
      r.scanned == [] && r.launch.Some? && r.launch.value.env == []
  {
  }

  /**
   * The scans run in argument order and stop at the first refusal: the refused package
   * is the last one scanned and no package manager is started.
   */
  lemma RefusalStopsInstall(manager: string, args: seq<string>, host: WrapHost, config: map<string, string>,
                            replies: string -> Result<ScanResponse, string>, answers: string -> string, child: ChildExit)
    requires !host.disabled && IsInstall(manager, Command(args))
    ensures var r := Outcome(manager, args, host, config, replies, answers, child);
      && (forall j :: 0 <= j < |r.scanned| ==> r.scanned[j] == ExtractPackages(args)[j])
      && (r.launch.None? <==> exists j :: 0 <= j < |ExtractPackages(args)| && !Passes(ExtractPackages(args)[j], config, replies, answers))
      && (r.launch.None? ==> r.scanned != [] && !Passes(r.scanned[|r.scanned| - 1], config, replies, answers)
                             && r.exitStatus == 0)
  {
    var passes := Verdicts(config, replies, answers);
    var packages := ExtractPackages(args);
    var r := Outcome(manager, args, host, config, replies, answers, child);
    assert r == InstallOutcome(manager, args, host, config, passes, child);
    InstallStopsAtRefusal(manager, args, host, config, passes, child);
    forall j | 0 <= j < |packages|
      ensures passes(packages[j]) == Passes(packages[j], config, replies, answers)
    {
    }
    if r.launch.None? {
      assert passes(r.scanned[|r.scanned| - 1]) == Passes(r.scanned[|r.scanned| - 1], config, replies, answers);
    }
  }

  /** `RefusalStopsInstall` for any verdicts of the package scans. */
  lemma InstallStopsAtRefusal(manager: string, args: seq<string>, host: WrapHost, config: map<string, string>,
                              passes: string -> bool, child: ChildExit)
    ensures var r := InstallOutcome(manager, args, host, config, passes, child);
      var packages := ExtractPackages(args);
      && (forall j :: 0 <= j < |r.scanned| ==> r.scanned[j] == packages[j])
      && (r.launch.None? <==> exists j :: 0 <= j < |packages| && !passes(packages[j]))
      && (r.launch.None? ==> r.scanned != [] && !passes(r.scanned[|r.scanned| - 1]) && r.exitStatus == 0)
  {
    var packages := ExtractPackages(args);
    var r := InstallOutcome(manager, args, host, config, passes, child);
    match FirstRefusal(packages, passes) {
      case Some(i) =>
        assert r.scanned == packages[..i + 1] && r.launch.None?;
        assert r.scanned[|r.scanned| - 1] == packages[i];
      case None =>
        assert r.scanned == packages && r.launch.Some?;
    }
  }

  /** An install with no package arguments is never stopped: the lockfile check permits. */
  lemma NoPackagesInstall(manager: string, args: seq<string>, host: WrapHost, config: map<string, string>,
                          replies: string -> Result<ScanResponse, string>, answers: string -> string, child: ChildExit)
    requires !host.disabled && IsInstall(manager, Command(args)) && ExtractPackages(args) == []
    ensures Outcome(manager, args, host, config, replies, answers, child).launch.Some?
  {
  }

  /** Fail-open end to end: when the service is unreachable for every package, the install starts. */
  lemma {:induction false} FailOpenInstall(packages: seq<string>, config: map<string, string>,
                        replies: string -> Result<ScanResponse, string>, answers: string -> string)
    requires forall p :: p in packages ==> replies(p).Err?
    ensures FirstRefusal(packages, Verdicts(config, replies, answers)).None?
  {
    forall j | 0 <= j < |packages|
      ensures Passes(packages[j], config, replies, answers)
    {
      FailOpen(packages[j], config, replies(packages[j]).error, answers(packages[j]));
    }
  }

  /** A monitored launch sets the three variables, the reporting address under the API URL. */
  lemma MonitoredEnvironment(manager: string, args: seq<string>, config: map<string, string>, host: WrapHost)
    requires ShouldMonitor(host.monitorDisabled, config, host.scriptExists) && host.executable.Some?
    ensures var l := LaunchFor(manager, args, true, config, host);
      l.env == [("NODE_OPTIONS", NodeOptions(host.scriptPath)), ("SAPO_DEVICE_ID", host.deviceId),
                ("SAPO_API_URL", ApiUrl(config) + "/runtime/threat")]
  {
  }
}
