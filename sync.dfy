/**
 * `sync`: bring the stored plan in line with the service's Pro status, then refresh
 * the monitor script when monitoring is on.
 */
module Sync {
  import opened Base
  import opened ConfigStore
  import opened ApiClient
  import opened Monitor

  /** The plan written for a Pro-status answer. */
  function SyncedPlan(response: ProStatusResponse): string {
    if response.isPro then response.plan.GetOr("pro") else "free"
  }

  /** `sync::run`, with the answer of `check_pro_status` and the host of a possible download. */
  method Run(store: ConfigFile, files: MonitorFiles, response: Result<ProStatusResponse, string>, host: DownloadHost)
    returns (downloadAttempted: bool)
    modifies store, files
    ensures response.Err? ==>
      store.content == old(store.content) && files.script == old(files.script) && !downloadAttempted
    ensures response.Ok? ==> store.Holds(old(store.Config())["plan" := SyncedPlan(response.value)])
    ensures response.Ok? && WellFormedValue(SyncedPlan(response.value)) ==>
      store.Config() == old(store.Config())["plan" := SyncedPlan(response.value)]
    ensures downloadAttempted <==> response.Ok? && response.value.isPro && MonitoringEnabled(store.Config())
    ensures downloadAttempted && DownloadSucceeds(host) ==> files.script == Some(ClassifyDownload(host.reply).value)
    ensures !(downloadAttempted && DownloadSucceeds(host)) ==> files.script == old(files.script)
    ensures files.log == old(files.log)
  {
    downloadAttempted := false;
    match response {
      case Ok(status) =>
        if status.isPro {
          var plan := status.plan.GetOr("pro");
          PlanKeyWellFormed();
          store.SetConfigValue("plan", plan);
          // sync_pro_modules
          var config := store.GetConfig();
          if MonitoringEnabled(config) {
            downloadAttempted := true;
            var ok := DownloadMonitorScript(files, host);
          }
        } else {
          PlanKeyWellFormed();
          store.SetConfigValue("plan", "free");
        }
      case Err(_) =>
    }
  }

  lemma PlanKeyWellFormed()
    ensures WellFormedKey("plan") && WellFormedValue("free") && WellFormedValue("pro")
  {
  }

  /** Writing the synced plan leaves the monitoring flag as it was, so the refresh follows the old flag. */
  lemma SyncKeepsFlag(config: map<string, string>, response: ProStatusResponse)
    ensures MonitoringEnabled(config["plan" := SyncedPlan(response)]) == MonitoringEnabled(config)
  {
  }

  /** After a sync the stored plan is Pro exactly when the service reports Pro with a Pro plan name. */
  lemma SyncedProStatus(config: map<string, string>, response: ProStatusResponse)
    ensures IsPro(config["plan" := SyncedPlan(response)]) <==>
      response.isPro && (response.plan.None? || response.plan == Some("pro") || response.plan == Some("enterprise"))
  {
  }
}
