// A launcher as the registry lists it, and the rule by which one counts as busy.
module Launchers {
  datatype LauncherInfo = LauncherInfo(
    launcherId: string, endpoint: string, servesModels: seq<string>, agentPort: int)

  // A launcher is busy under either of its two names.
  predicate IsLauncherClaimed(claimed: set<string>, l: LauncherInfo) {
    l.launcherId in claimed || l.endpoint in claimed
  }

  function Names(l: LauncherInfo): set<string> {
    {l.launcherId, l.endpoint}
  }

  // Two launchers that claim one another's name.
  predicate Conflict(a: LauncherInfo, b: LauncherInfo) {
    IsLauncherClaimed(Names(a), b)
  }
}
