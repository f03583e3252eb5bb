/**
 * The vocabulary of the Oxide API client the driver talks to: instance run
 * states, the instance-create request body, the responses the driver reads,
 * and a scripted stand-in for the remote service and the local files.
 */
module Api {
  import opened Wrappers
  import opened Errors

  type uint64 = x: int | 0 <= x < 0x1_0000_0000_0000_0000
  type byte = x: int | 0 <= x < 256

  /**
   * `oxide.InstanceState`: a string type with ten named values. Any other
   * string is still a value of the type and is kept as `Other`.
   */
  datatype InstanceState =
    | Creating | Starting | Running | Stopping | Stopped
    | Rebooting | Migrating | Repairing | Failed | Destroyed
    | Other(name: string)

  function StateName(s: InstanceState): string
  {
    match s
    case Creating => "creating"
    case Starting => "starting"
    case Running => "running"
    case Stopping => "stopping"
    case Stopped => "stopped"
    case Rebooting => "rebooting"
    case Migrating => "migrating"
    case Repairing => "repairing"
    case Failed => "failed"
    case Destroyed => "destroyed"
    case Other(name) => name
  }

  /** The state a run-state string denotes. */
  function ParseState(name: string): (s: InstanceState)
    ensures StateName(s) == name
  {
    match name
    case "creating" => Creating
    case "starting" => Starting
    case "running" => Running
    case "stopping" => Stopping
    case "stopped" => Stopped
    case "rebooting" => Rebooting
    case "migrating" => Migrating
    case "repairing" => Repairing
    case "failed" => Failed
    case "destroyed" => Destroyed
    case _ => Other(name)
  }

  /** `Other` never spells one of the named values. */
  predicate Canonical(s: InstanceState)
  {
    s.Other? ==> ParseState(s.name).Other?
  }

  /** A state survives being written out and read back. */
  lemma ParseStateName(s: InstanceState)
    requires Canonical(s)
    ensures ParseState(StateName(s)) == s
  {
  }

  /** Two canonical states with the same name are the same state. */
  lemma StateNameInjective(a: InstanceState, b: InstanceState)
    requires Canonical(a) && Canonical(b)
    requires StateName(a) == StateName(b)
    ensures a == b
  {
    ParseStateName(a);
    ParseStateName(b);
  }

  // ---------------------------------------------------------------------------
  // Request bodies.

  /** `oxide.ClientOption`s passed to `oxide.NewClient`. */
  datatype ClientOption = WithHost(host: string) | WithToken(token: string) | WithUserAgent(agent: string)

  /** Where a created disk's contents come from. */
  datatype DiskSource = ImageSource(imageId: string) | BlankSource(blockSize: nat)

  /** A disk created along with the instance. */
  datatype DiskCreate = DiskCreate(description: string, name: string, size: uint64, source: DiskSource)

  datatype PoolSelector = ExplicitPool(pool: string) | AutoPoolV4

  /** An external IP requested for the instance; the driver only asks for ephemeral ones. */
  datatype ExternalIpCreate = EphemeralIp(poolSelector: PoolSelector)

  /**
   * A network interface created with the instance; `autoIpv4` is set when the
   * request asks for an automatically assigned IPv4 address, which newer
   * client versions require.
   */
  datatype NicCreate = NicCreate(description: string, name: string, subnetName: string, vpcName: string, autoIpv4: bool)

  /** User data as sent: the standard base64 encoding of the raw bytes, not spelled out. */
  datatype UserData = Base64Of(raw: seq<byte>)

  /** `oxide.InstanceCreate`, the body of the instance-create request. */
  datatype InstanceSpec = InstanceSpec(
    antiAffinityGroups: seq<string>,
    bootDisk: DiskCreate,
    disks: seq<DiskCreate>,
    description: string,
    externalIps: seq<ExternalIpCreate>,
    hostname: string,
    memory: uint64,
    name: string,
    ncpus: int,
    nics: seq<NicCreate>,
    sshPublicKeys: seq<string>,
    userData: UserData)

  // ---------------------------------------------------------------------------
  // Responses.

  datatype Instance = Instance(id: string, bootDiskId: string)

  /** The private IP stack of a network interface. */
  datatype IpStack = StackV4(ip: string) | StackDualStack(v4: string, v6: string) | StackOther

  /**
   * A network interface as listed. Older client versions expose the address
   * as `ip`; newer ones as `stack`.
   */
  datatype Nic = Nic(ip: string, stack: IpStack)

  datatype Disk = Disk(id: string)

  // ---------------------------------------------------------------------------
  // The remote service and the local machine as a scripted oracle.

  /** One effect the driver asks of the outside world, in the order it asks. */
  datatype Call =
    | ClientNew(options: seq<ClientOption>)
    | SshKeyCreate(name: string, description: string)
    | FileRead(path: string)
    | InstanceCreate(project: string, body: InstanceSpec)
    | NicList(instance: string)
    | DiskList(instance: string)
    | InstanceView(instance: string)
    | InstanceStart(instance: string)
    | InstanceStop(instance: string)
    | InstanceReboot(instance: string)
    | SshKeyDelete(key: string)
    | InstanceDelete(instance: string)
    | DiskDelete(disk: string)

  /**
   * What every call answers. `sshKey` stands for generating a key pair,
   * reading its public half and uploading it, and gives the uploaded key's ID;
   * `views` gives the answer to the k-th `InstanceView`.
   */
  datatype Script = Script(
    newClient: seq<ClientOption> -> Option<Error>,
    sshKey: Result<string>,
    readFile: string -> Result<seq<byte>>,
    created: Result<Instance>,
    nics: Result<seq<Nic>>,
    disks: Result<seq<Disk>>,
    views: nat -> Result<InstanceState>,
    startErr: Option<Error>,
    stopErr: Option<Error>,
    rebootErr: Option<Error>,
    keyDeleteErr: Option<Error>,
    instanceDeleteErr: Option<Error>,
    diskDeleteErr: string -> Option<Error>)

  /**
   * The world outside the driver. Each method records its call in `trace`
   * and answers from the script.
   */
  class Platform {
    const script: Script
    var viewCalls: nat
    ghost var trace: seq<Call>

    constructor (script: Script)
      ensures this.script == script && viewCalls == 0 && trace == []
    {
      this.script := script;
      viewCalls := 0;
      trace := [];
    }

    method NewClient(options: seq<ClientOption>) returns (err: Option<Error>)
      modifies this`trace
      ensures trace == old(trace) + [ClientNew(options)]
      ensures err == script.newClient(options)
    {
      trace := trace + [ClientNew(options)];
      err := script.newClient(options);
    }

    method CurrentUserSshKeyCreate(name: string, description: string) returns (r: Result<string>)
      modifies this`trace
      ensures trace == old(trace) + [SshKeyCreate(name, description)]
      ensures r == script.sshKey
    {
      trace := trace + [SshKeyCreate(name, description)];
      r := script.sshKey;
    }

    method ReadFile(path: string) returns (r: Result<seq<byte>>)
      modifies this`trace
      ensures trace == old(trace) + [FileRead(path)]
      ensures r == script.readFile(path)
    {
      trace := trace + [FileRead(path)];
      r := script.readFile(path);
    }

    method InstanceCreateCall(project: string, body: InstanceSpec) returns (r: Result<Instance>)
      modifies this`trace
      ensures trace == old(trace) + [InstanceCreate(project, body)]
      ensures r == script.created
    {
      trace := trace + [InstanceCreate(project, body)];
      r := script.created;
    }

    method InstanceNetworkInterfaceListAllPages(instance: string) returns (r: Result<seq<Nic>>)
      modifies this`trace
      ensures trace == old(trace) + [NicList(instance)]
      ensures r == script.nics
    {
      trace := trace + [NicList(instance)];
      r := script.nics;
    }

    method InstanceDiskListAllPages(instance: string) returns (r: Result<seq<Disk>>)
      modifies this`trace
      ensures trace == old(trace) + [DiskList(instance)]
      ensures r == script.disks
    {
      trace := trace + [DiskList(instance)];
      r := script.disks;
    }

    method InstanceViewCall(instance: string) returns (r: Result<InstanceState>)
      modifies this`trace, this`viewCalls
      ensures trace == old(trace) + [InstanceView(instance)]
      ensures viewCalls == old(viewCalls) + 1
      ensures r == script.views(old(viewCalls))
    {
      trace := trace + [InstanceView(instance)];
      r := script.views(viewCalls);
      viewCalls := viewCalls + 1;
    }

    method InstanceStartCall(instance: string) returns (err: Option<Error>)
      modifies this`trace
      ensures trace == old(trace) + [InstanceStart(instance)]
      ensures err == script.startErr
    {
      trace := trace + [InstanceStart(instance)];
      err := script.startErr;
    }

    method InstanceStopCall(instance: string) returns (err: Option<Error>)
      modifies this`trace
      ensures trace == old(trace) + [InstanceStop(instance)]
      ensures err == script.stopErr
    {
      trace := trace + [InstanceStop(instance)];
      err := script.stopErr;
    }

    method InstanceRebootCall(instance: string) returns (err: Option<Error>)
      modifies this`trace
      ensures trace == old(trace) + [InstanceReboot(instance)]
      ensures err == script.rebootErr
    {
      trace := trace + [InstanceReboot(instance)];
      err := script.rebootErr;
    }

    method CurrentUserSshKeyDelete(key: string) returns (err: Option<Error>)
      modifies this`trace
      ensures trace == old(trace) + [SshKeyDelete(key)]
      ensures err == script.keyDeleteErr
    {
      trace := trace + [SshKeyDelete(key)];
      err := script.keyDeleteErr;
    }

    method InstanceDeleteCall(instance: string) returns (err: Option<Error>)
      modifies this`trace
      ensures trace == old(trace) + [InstanceDelete(instance)]
      ensures err == script.instanceDeleteErr
    {
      trace := trace + [InstanceDelete(instance)];
      err := script.instanceDeleteErr;
    }

    method DiskDeleteCall(disk: string) returns (err: Option<Error>)
      modifies this`trace
      ensures trace == old(trace) + [DiskDelete(disk)]
      ensures err == script.diskDeleteErr(disk)
    {
      trace := trace + [DiskDelete(disk)];
      err := script.diskDeleteErr(disk);
    }
  }
}
