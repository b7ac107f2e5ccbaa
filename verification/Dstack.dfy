/** The values squall exchanges with a dstack server (internal/dstack/client.go). */
module Dstack {
  import opened Base

  type RunId = nat
  type Env = map<string, string>

  /** A run as `Get`, `Apply` and `ListRuns` return it. */
  datatype Run = Run(
    name: string,
    runId: RunId,
    deploymentNum: nat,
    replicas: nat,
    terminal: bool,
    probesReady: bool,
    env: Env,
    sshKeyPub: string,
    idleDuration: Option<Duration>,
    maxDuration: Duration,
    submittedAt: Instant
  )

  /** What the text of a failed run is classified as before it reaches the Provisioning condition. */
  datatype Reason = NoCapacity | InsufficientCredit | BackendRateLimited | HardStopFired | ProvisioningFailed

  /** The diagnosis of one terminal run. */
  datatype Failure = Failure(runId: RunId, reason: Reason, detail: string)
}
