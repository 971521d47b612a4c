/**
 * The decision taken for one package argument before an install: skip it, wave it
 * through as trusted, or ask the scoring service and act on the risk level. The reply
 * of the service and the line typed at the confirmation prompt are inputs, so the
 * decision is a pure function of them and of the stored configuration.
 */
module ScanCommand {
  import opened Base
  import opened Text
  import opened ConfigStore
  import opened ApiClient

  /** Arguments that are flags or paths, never package names. */
  predicate IsFlagOrPath(arg: string) {
    arg != [] && (arg[0] == '-' || arg[0] == '.' || arg[0] == '/')
  }

  /** `package.split('@').next()`: everything before the first `@`. */
  function PackageName(package: string): (r: string)
    ensures '@' !in r
    ensures StartsWith(package, r)
    ensures |r| < |package| ==> package[|r|] == '@'
    ensures '@' !in package ==> r == package
  {
    match IndexOf(package, '@')
    case Some(i) => package[..i]
    case None => package
  }

  datatype RiskLevel = Safe | Warning | Dangerous | Other

  /** The risk level of a reply; a missing level reads as `"unknown"`, which is `Other`. */
  function RiskOf(level: Option<string>): (r: RiskLevel)
    ensures r == Dangerous <==> level == Some("dangerous")
    ensures r == Warning <==> level == Some("warning")
    ensures r == Safe <==> level == Some("safe")
  {
    match level.GetOr("unknown")
    case "safe" => Safe
    case "warning" => Warning
    case "dangerous" => Dangerous
    case _ => Other
  }

  /** How a sandbox verdict is shown: only `dangerous` and `warning` are singled out. */
  datatype SandboxVerdict = SandboxDangerous | SandboxWarning | SandboxClean

  /** A sandbox risk level, defaulting to `"safe"` when missing. */
  function SandboxVerdictOf(level: Option<string>): (r: SandboxVerdict)
    ensures r == SandboxDangerous <==> level == Some("dangerous")
    ensures r == SandboxWarning <==> level == Some("warning")
  {
    match level.GetOr("safe")
    case "dangerous" => SandboxDangerous
    case "warning" => SandboxWarning
    case _ => SandboxClean
  }

  /** The confirmation answer: accepted only when it trims and lowercases to `y`. */
  predicate Confirmed(answer: string) {
    Trim(ToLower(answer)) == "y"
  }

  /** What happens after the risk report for a package the service has scanned. */
  datatype SandboxStep =
    | ProUpsell                                                   // not Pro-scanned: hint only
    | CachedVerdict(score: int, verdict: SandboxVerdict, details: seq<string>)
    | LocalSandbox(package: string, version: string)

  datatype Outcome =
    | Skipped                                   // a flag or a path
    | TrustedSkip(name: string)                 // on the trust list, not scanned
    | ApiUnreachable(error: string)             // fail-open
    | Cancelled(display: string, version: string)
    | Reported(level: RiskLevel, display: string, version: string, message: string,
               notes: seq<string>, sandbox: SandboxStep)

  /** The boolean `run` returns: the install may go ahead. */
  predicate Proceeds(o: Outcome) {
    !o.Cancelled?
  }

  function OptionList(o: Option<string>): seq<string> {
    match o
    case Some(x) => [x]
    case None => []
  }

  /** The sandbox branch for a reply, taken only after the install was not cancelled. */
  function SandboxStepOf(name: string, response: ScanResponse): (r: SandboxStep)
    ensures r.ProUpsell? <==> response.scanned != Some(true)
    ensures r.CachedVerdict? <==> response.scanned == Some(true) && response.sandboxCached == Some(true)
    ensures r.LocalSandbox? ==> r == LocalSandbox(name, response.version.GetOr("latest"))
  {
    if !response.scanned.GetOr(false) then ProUpsell
    else if response.sandboxCached.GetOr(false) then
      CachedVerdict(response.sandboxScore.GetOr(0), SandboxVerdictOf(response.sandboxRiskLevel),
                    FlagDetails(response.sandboxFlags.GetOr([])))
    else LocalSandbox(name, response.version.GetOr("latest"))
  }

  /** `scan::run` for one argument, given the stored configuration, the reply and the answer. */
  function Decide(package: string, config: map<string, string>,
                  reply: Result<ScanResponse, string>, answer: string): (o: Outcome)
  {
    if IsFlagOrPath(package) then Skipped
    else
      var name := PackageName(package);
      if IsTrusted(config, name) then TrustedSkip(name)
      else match reply
        case Err(e) => ApiUnreachable(e)
        case Ok(response) =>
          var level := RiskOf(response.riskLevel);
          var display := response.package.GetOr(package);
          var version := response.version.GetOr("latest");
          if level == Dangerous && !Confirmed(answer) then Cancelled(display, version)
          else
            Reported(level, display, version, response.message.GetOr("No details"),
                     OptionList(response.previousVersion) + response.anomalyReasons.GetOr([]),
                     SandboxStepOf(name, response))
  }

  // ---------------------------------------------------------------------------
  // Properties of the decision

  /** Flags and paths are skipped whatever the configuration, reply and answer. */
  lemma FlagsSkipped(package: string, config: map<string, string>,
                     reply: Result<ScanResponse, string>, answer: string)
    requires IsFlagOrPath(package)
    ensures Decide(package, config, reply, answer) == Skipped
  {
  }

  /** A trusted name proceeds, and what the service would have said makes no difference. */
  lemma TrustedNotScanned(package: string, config: map<string, string>,
                          reply1: Result<ScanResponse, string>, answer1: string,
                          reply2: Result<ScanResponse, string>, answer2: string)
    requires !IsFlagOrPath(package) && IsTrusted(config, PackageName(package))
    ensures Decide(package, config, reply1, answer1) == TrustedSkip(PackageName(package))
    ensures Decide(package, config, reply1, answer1) == Decide(package, config, reply2, answer2)
  {
  }

  /** A package added to the trust list is never scanned afterwards, when named bare. */
  lemma AddedNameNotScanned(name: string, config: map<string, string>,
                            reply: Result<ScanResponse, string>, answer: string)
    requires name != [] && !IsFlagOrPath(name) && '@' !in name
    requires name in Trusted(config)
    ensures Decide(name, config, reply, answer) == TrustedSkip(name)
  {
  }

  /** A scoped name has an empty trust-lookup name. */
  lemma ScopedNameIsEmpty(package: string)
    requires package != [] && package[0] == '@'
    ensures PackageName(package) == ""
  {
  }

  /** Fail-open: an unreachable service never stops the install. */
  lemma FailOpen(package: string, config: map<string, string>, error: string, answer: string)
    ensures Proceeds(Decide(package, config, Err(error), answer))
  {
  }

  /** The only refusal is a declined confirmation of a `dangerous` reply, for a scanned name. */
  lemma RefusalIff(package: string, config: map<string, string>,
                   reply: Result<ScanResponse, string>, answer: string)
    ensures !Proceeds(Decide(package, config, reply, answer)) <==>
      !IsFlagOrPath(package) && !IsTrusted(config, PackageName(package)) &&
      reply.Ok? && reply.value.riskLevel == Some("dangerous") && !Confirmed(answer)
  {
  }

  /** Levels other than `dangerous`, a missing one included, proceed without asking. */
  lemma OtherLevelsProceed(package: string, config: map<string, string>,
                           response: ScanResponse, answer1: string, answer2: string)
    requires response.riskLevel != Some("dangerous")
    ensures Proceeds(Decide(package, config, Ok(response), answer1))
    ensures Decide(package, config, Ok(response), answer1) == Decide(package, config, Ok(response), answer2)
  {
  }

  /** A reported package takes exactly the sandbox branch its reply selects. */
  lemma SandboxBranch(package: string, config: map<string, string>, response: ScanResponse, answer: string)
    requires Decide(package, config, Ok(response), answer).Reported?
    ensures Decide(package, config, Ok(response), answer).sandbox == SandboxStepOf(PackageName(package), response)
    ensures response.scanned == Some(true) && response.sandboxCached != Some(true) ==>
      Decide(package, config, Ok(response), answer).sandbox
        == LocalSandbox(PackageName(package), response.version.GetOr("latest"))
  {
  }

  /** The anomaly and sandbox fields of a reply never change whether the install proceeds. */
  lemma ExtrasDoNotGate(package: string, config: map<string, string>,
                        r1: ScanResponse, r2: ScanResponse, answer: string)
    requires r1.riskLevel == r2.riskLevel
    ensures Proceeds(Decide(package, config, Ok(r1), answer)) == Proceeds(Decide(package, config, Ok(r2), answer))
  {
  }

  /** Only the answer `y`, in either case and with surrounding white space, confirms. */
  lemma ConfirmedIff(answer: string)
    ensures Confirmed(answer) <==> Trim(answer) == "y" || Trim(answer) == "Y"
  {
    TrimLower(answer);
    var t := Trim(answer);
    if ToLower(t) == "y" {
      assert |t| == 1 && LowerChar(t[0]) == 'y';
      assert t == [t[0]];
    }
    if t == "Y" || t == "y" {
      assert ToLower(t) == [LowerChar(t[0])];
    }
  }

  /** `"Y\n"` confirms; an empty line does not. */
  lemma ConfirmationExamples()
    ensures Confirmed("Y\n") && !Confirmed("")
  {
    ConfirmedIff("Y\n");
    ConfirmedIff("");
  }

  /** Neither `"yes"` nor `"n"` confirms. */
  lemma DeclineExamples()
    ensures !Confirmed("yes") && !Confirmed("n\n")
  {
    ConfirmedIff("yes");
    ConfirmedIff("n\n");
  }
}
