/** The persisted state of the managed gateway and the records that identify its process. */
module GatewayState {
  import opened Common

  datatype ProcessPhase = Starting | Ready

  /** The birth identity of a process: its start time tells it from a later process with the same id. */
  datatype ProcessRecord = ProcessRecord(startedAtTicks: string, phase: ProcessPhase, processId: nat)

  datatype GatewayState = GatewayState(
    authorization: Option<string>,
    encryptedClientKey: string,
    encryptedManagementKey: Option<string>,
    executableRelativePath: string,
    executableSha256: string,
    installedVersion: string,
    port: nat,
    process: Option<ProcessRecord>,
    releaseDigest: string)

  /** A child process object: which object it is, and the process id it was given. */
  datatype Child = Child(handle: nat, pid: Option<nat>)

  /** What the currently owned child and the stored state are at one instant. */
  datatype View = View(child: Option<Child>, exited: bool, state: Option<GatewayState>)
}
