/**
 * The oldest revision of the driver (pkg/driver/oxide/oxide.go): every
 * operation makes a new client, `Create` records the key, instance and
 * boot-disk IDs and the first interface's address, `Remove` deletes those
 * three resources only, and `SetConfigFromFlags` discards the error it builds.
 */
module Legacy {
  import opened Wrappers
  import opened Errors
  import opened Api
  import Rancher
  import Orchestration
  import RootFlags
  import OxideDriver

  const DEFAULT_SSH_USER := "oxide"
  const DEFAULT_SSH_PORT := 22
  const DEFAULT_DESCRIPTION := "Managed by the Oxide Rancher machine driver."
  const USER_AGENT := "Oxide Rancher Machine Driver/0.0.1 (Go; Linux) [Environment: Development]"

  const FLAG_HOST := "oxide-host"
  const FLAG_TOKEN := "oxide-token"
  const FLAG_PROJECT := "oxide-project"
  const FLAG_VCPUS := "oxide-vcpus"
  const FLAG_MEMORY := "oxide-memory"
  const FLAG_BOOT_DISK_SIZE := "oxide-boot-disk-size"
  const FLAG_BOOT_DISK_IMAGE_ID := "oxide-boot-disk-image-id"
  const FLAG_VPC := "oxide-vpc"
  const FLAG_SUBNET := "oxide-subnet"
  const FLAG_USER_DATA_FILE := "oxide-user-data-file"
  const FLAG_SSH_USER := "oxide-ssh-user"
  const FLAG_ADDITIONAL_SSH_PUBLIC_KEY_IDS := "oxide-additional-ssh-public-key-ids"

  const TWO_TO_63: int := 0x8000_0000_0000_0000
  const TWO_TO_64: int := 0x1_0000_0000_0000_0000

  // ---------------------------------------------------------------------------
  // State mapping.

  /**
   * `toRancherMachineState` of this revision: rebooting counts as stopping,
   * repairing as stopped and destroyed as an error; no run state maps to
   * not-found.
   */
  function ToRancherMachineState(s: InstanceState): (r: Rancher.MachineState)
    ensures r == Rancher.Starting <==> s in {Creating, Starting}
    ensures r == Rancher.Running <==> s in {Running, Migrating}
    ensures r == Rancher.Stopping <==> s in {Stopping, Rebooting}
    ensures r == Rancher.Stopped <==> s in {Stopped, Repairing}
    ensures r == Rancher.Error <==> s in {Failed, Destroyed}
    ensures r == Rancher.None <==> s.Other?
    ensures r != Rancher.NotFound
  {
    match s
    case Creating | Starting => Rancher.Starting
    case Running | Migrating => Rancher.Running
    case Stopping | Rebooting => Rancher.Stopping
    case Stopped | Repairing => Rancher.Stopped
    case Failed | Destroyed => Rancher.Error
    case Other(_) => Rancher.None
  }

  // ---------------------------------------------------------------------------
  // The client, made anew by every operation.

  /**
   * `createOxideClient`: the host, the token and the fixed user agent. The
   * `oxide.Config` it passes is given as the same three settings.
   */
  function ClientOptions(host: string, token: string): (opts: seq<ClientOption>)
    ensures opts == OxideDriver.ClientOptions(host, token, USER_AGENT)
  {
    [WithHost(host), WithToken(token), WithUserAgent(USER_AGENT)]
  }

  function ClientCall(host: string, token: string): Call
  {
    ClientNew(ClientOptions(host, token))
  }

  /**
   * Making a client from the same settings always gives the same answer, so
   * once one client has been made every later one is made too.
   */
  function ClientErr(host: string, token: string, sc: Script): Option<Error>
  {
    sc.newClient(ClientOptions(host, token))
  }

  function ClientStep(host: string, token: string, sc: Script): Orchestration.Step
  {
    Orchestration.Step(ClientCall(host, token), ClientErr(host, token, sc))
  }

  /** Two calls, one after the other: the second is made only when the first succeeds. */
  lemma FailFastTwo(a: Orchestration.Step, b: Orchestration.Step)
    ensures Orchestration.FailFast([a, b]) ==
      if a.err.Some? then Orchestration.Run([a.call], a.err) else Orchestration.Run([a.call, b.call], b.err)
  {
    assert [a, b][1..] == [b];
    assert [b][1..] == [];
    var last := Orchestration.FailFast([b]);
    if b.err.None? {
      assert last == Orchestration.Run([b.call] + Orchestration.FailFast([]).calls, None);
      assert [b.call] + [] == [b.call];
    }
    assert last == Orchestration.Run([b.call], b.err);
    assert [a.call] + [b.call] == [a.call, b.call];
  }

  // ---------------------------------------------------------------------------
  // SetConfigFromFlags.

  /** Everything `SetConfigFromFlags` stores in the driver. */
  datatype Settings = Settings(
    host: string,
    token: string,
    project: string,
    vcpus: int,
    memory: int,
    bootDiskSize: int,
    bootDiskImageId: string,
    vpc: string,
    subnet: string,
    userDataFile: string,
    sshUser: string,
    additionalSshPublicKeyIds: seq<string>,
    sshPort: int)

  /** Each flag as given, memory and boot-disk size as plain integers, and the default SSH port. */
  function SettingsOf(opts: Rancher.Options): Settings
  {
    Settings(
      host := opts.String(FLAG_HOST),
      token := opts.String(FLAG_TOKEN),
      project := opts.String(FLAG_PROJECT),
      vcpus := opts.Int(FLAG_VCPUS),
      memory := opts.Int(FLAG_MEMORY),
      bootDiskSize := opts.Int(FLAG_BOOT_DISK_SIZE),
      bootDiskImageId := opts.String(FLAG_BOOT_DISK_IMAGE_ID),
      vpc := opts.String(FLAG_VPC),
      subnet := opts.String(FLAG_SUBNET),
      userDataFile := opts.String(FLAG_USER_DATA_FILE),
      sshUser := opts.String(FLAG_SSH_USER),
      additionalSshPublicKeyIds := opts.StringSlice(FLAG_ADDITIONAL_SSH_PUBLIC_KEY_IDS),
      sshPort := DEFAULT_SSH_PORT)
  }

  /** The missing-flag errors joined, in the order checked: host, token, project, image. */
  function RequiredErrors(opts: Rancher.Options): (es: seq<Option<Error>>)
    ensures Present(es) == [] <==>
      opts.String(FLAG_HOST) != "" && opts.String(FLAG_TOKEN) != "" &&
      opts.String(FLAG_PROJECT) != "" && opts.String(FLAG_BOOT_DISK_IMAGE_ID) != ""
  {
    MissingErrors(opts.String(FLAG_HOST), opts.String(FLAG_TOKEN), opts.String(FLAG_PROJECT), opts.String(FLAG_BOOT_DISK_IMAGE_ID))
  }

  /** One "required option not set" error per empty value, host first and image last. */
  function MissingErrors(host: string, token: string, project: string, image: string): (es: seq<Option<Error>>)
    ensures Present(es) ==
      (if host == "" then [RootFlags.NotSet(FLAG_HOST)] else []) +
      (if token == "" then [RootFlags.NotSet(FLAG_TOKEN)] else []) +
      (if project == "" then [RootFlags.NotSet(FLAG_PROJECT)] else []) +
      (if image == "" then [RootFlags.NotSet(FLAG_BOOT_DISK_IMAGE_ID)] else [])
  {
    var h, t, p, i := RootFlags.IfEmpty(host, FLAG_HOST), RootFlags.IfEmpty(token, FLAG_TOKEN),
      RootFlags.IfEmpty(project, FLAG_PROJECT), RootFlags.IfEmpty(image, FLAG_BOOT_DISK_IMAGE_ID);
    PresentConcat(h + t + p, i);
    PresentConcat(h + t, p);
    PresentConcat(h, t);
    h + t + p + i
  }

  /** `errors.Unwrap` of a possibly nil error: nil stays nil. */
  function UnwrapNil(e: Option<Error>): (r: Option<Error>)
    ensures e.Some? && e.value.Joined? ==> r.None?
    ensures r.Some? ==> e.Some? && EndsWith(Message(e.value), Message(r.value))
  {
    if e.None? then None else Unwrap(e.value)
  }

  /**
   * The error `SetConfigFromFlags` builds holds one "required option not
   * set" error per empty required flag, and is nil iff all four are given;
   * but what it returns is `errors.Unwrap` of it, and a joined error has no
   * single wrapped error, so the call never fails.
   */
  lemma RequiredErrorsDiscarded(opts: Rancher.Options)
    ensures var joined := JoinEach(None, RequiredErrors(opts));
      && Constituents(joined) == Present(RequiredErrors(opts))
      && (joined.None? <==>
            opts.String(FLAG_HOST) != "" && opts.String(FLAG_TOKEN) != ""
            && opts.String(FLAG_PROJECT) != "" && opts.String(FLAG_BOOT_DISK_IMAGE_ID) != "")
      && UnwrapNil(joined) == None
  {
    var es := RequiredErrors(opts);
    MissingErrorsPlain(opts.String(FLAG_HOST), opts.String(FLAG_TOKEN), opts.String(FLAG_PROJECT), opts.String(FLAG_BOOT_DISK_IMAGE_ID));
    JoinEachConstituents(None, es);
    assert Constituents(None) + Present(es) == Present(es);
    MissingErrorsPresent(opts.String(FLAG_HOST), opts.String(FLAG_TOKEN), opts.String(FLAG_PROJECT), opts.String(FLAG_BOOT_DISK_IMAGE_ID));
    JoinUnwrapsToNil(es);
  }

  /** None of the missing-flag errors is itself a join. */
  lemma MissingErrorsPlain(host: string, token: string, project: string, image: string)
    ensures NoJoins(MissingErrors(host, token, project, image))
  {
    FourPlain(host, token, project, image, FLAG_HOST, FLAG_TOKEN, FLAG_PROJECT, FLAG_BOOT_DISK_IMAGE_ID);
  }

  lemma FourPlain(a: string, b: string, c: string, d: string, fa: string, fb: string, fc: string, fd: string)
    ensures NoJoins(RootFlags.IfEmpty(a, fa) + RootFlags.IfEmpty(b, fb) + RootFlags.IfEmpty(c, fc) + RootFlags.IfEmpty(d, fd))
  {
    var es: seq<Option<Error>> := [];
    IfEmptyPlain(es, a, fa);
    es := es + RootFlags.IfEmpty(a, fa);
    IfEmptyPlain(es, b, fb);
    es := es + RootFlags.IfEmpty(b, fb);
    IfEmptyPlain(es, c, fc);
    es := es + RootFlags.IfEmpty(c, fc);
    IfEmptyPlain(es, d, fd);
    assert [] + RootFlags.IfEmpty(a, fa) == RootFlags.IfEmpty(a, fa);
  }

  /** One more required-flag check keeps the list free of joins. */
  lemma IfEmptyPlain(es: seq<Option<Error>>, value: string, flag: string)
    requires NoJoins(es)
    ensures NoJoins(es + RootFlags.IfEmpty(value, flag))
  {
    if value == "" {
      RootFlags.NoJoinsConcat(es, [Some(RootFlags.NotSet(flag))]);
    } else {
      assert es + [] == es;
    }
  }

  /** There is a missing-flag error iff some required value is empty. */
  lemma MissingErrorsPresent(host: string, token: string, project: string, image: string)
    ensures Present(MissingErrors(host, token, project, image)) == [] <==>
      host != "" && token != "" && project != "" && image != ""
  {
    var h, t := RootFlags.IfEmpty(host, FLAG_HOST), RootFlags.IfEmpty(token, FLAG_TOKEN);
    var p, i := RootFlags.IfEmpty(project, FLAG_PROJECT), RootFlags.IfEmpty(image, FLAG_BOOT_DISK_IMAGE_ID);
    PresentConcat(h + t + p, i);
    PresentConcat(h + t, p);
    PresentConcat(h, t);
  }

  /** `errors.Unwrap` of the result of `errors.Join` is always nil. */
  lemma JoinUnwrapsToNil(es: seq<Option<Error>>)
    ensures UnwrapNil(JoinEach(None, es)) == None
  {
    if es != [] {
      assert JoinEach(None, es) == JoinErrors([JoinEach(None, es[..|es| - 1]), es[|es| - 1]]);
    }
  }

  /** With every required flag left empty, the discarded error lists all four, in order. */
  lemma NothingGiven(opts: Rancher.Options)
    requires opts.String(FLAG_HOST) == "" && opts.String(FLAG_TOKEN) == ""
    requires opts.String(FLAG_PROJECT) == "" && opts.String(FLAG_BOOT_DISK_IMAGE_ID) == ""
    ensures Constituents(JoinEach(None, RequiredErrors(opts))) ==
      [RootFlags.NotSet(FLAG_HOST), RootFlags.NotSet(FLAG_TOKEN), RootFlags.NotSet(FLAG_PROJECT), RootFlags.NotSet(FLAG_BOOT_DISK_IMAGE_ID)]
  {
    RequiredErrorsDiscarded(opts);
    RootFlags.LastFour([], RootFlags.NotSet(FLAG_HOST), RootFlags.NotSet(FLAG_TOKEN),
      RootFlags.NotSet(FLAG_PROJECT), RootFlags.NotSet(FLAG_BOOT_DISK_IMAGE_ID));
    assert RequiredErrors(opts) == [] + [Some(RootFlags.NotSet(FLAG_HOST))] + [Some(RootFlags.NotSet(FLAG_TOKEN))]
      + [Some(RootFlags.NotSet(FLAG_PROJECT))] + [Some(RootFlags.NotSet(FLAG_BOOT_DISK_IMAGE_ID))];
  }

  /**
   * Everything `SetConfigFromFlags` computes before storing it: the
   * settings, the joined missing-flag error, and what is returned.
   */
  method Configure(opts: Rancher.Options) returns (s: Settings, err: Option<Error>)
    ensures s == SettingsOf(opts)
    ensures err == UnwrapNil(JoinEach(None, RequiredErrors(opts)))
  {
    s := SettingsOf(opts);
    var joined: Option<Error> := None;
    ghost var es: seq<Option<Error>> := [];
    joined, es := RootFlags.JoinIfEmpty(s.host, FLAG_HOST, joined, es);
    joined, es := RootFlags.JoinIfEmpty(s.token, FLAG_TOKEN, joined, es);
    joined, es := RootFlags.JoinIfEmpty(s.project, FLAG_PROJECT, joined, es);
    joined, es := RootFlags.JoinIfEmpty(s.bootDiskImageId, FLAG_BOOT_DISK_IMAGE_ID, joined, es);
    assert es == RequiredErrors(opts);
    err := if joined.None? then None else Unwrap(joined.value);
  }

  // ---------------------------------------------------------------------------
  // Create.

  /** The driver configuration `Create` reads. */
  datatype Config = Config(
    machineName: string,
    host: string,
    token: string,
    project: string,
    vcpus: int,
    memory: int,
    bootDiskSize: int,
    bootDiskImageId: string,
    vpc: string,
    subnet: string,
    userDataFile: string,
    additionalSshPublicKeyIds: seq<string>)

  /**
   * `oxide.ByteCount(n)` of a Go `int`: the same 64 bits read as unsigned,
   * so a negative size becomes a size of 2^64 + n bytes.
   */
  function ByteCount(n: int): (b: uint64)
    ensures 0 <= n < TWO_TO_64 ==> b == n
    ensures -TWO_TO_63 <= n < 0 ==> b == n + TWO_TO_64
  {
    n % TWO_TO_64
  }

  /**
   * The instance-create request of this revision: the generated key before
   * the additional ones, the boot disk from the image, one interface, and
   * no additional disks, external IPs or anti-affinity groups.
   */
  function Request(c: Config, keyId: string, userData: seq<byte>): InstanceSpec
  {
    InstanceSpec(
      antiAffinityGroups := [],
      bootDisk := DiskCreate(DEFAULT_DESCRIPTION, "disk-" + c.machineName, ByteCount(c.bootDiskSize), ImageSource(c.bootDiskImageId)),
      disks := [],
      description := DEFAULT_DESCRIPTION,
      externalIps := [],
      hostname := c.machineName,
      memory := ByteCount(c.memory),
      name := c.machineName,
      ncpus := c.vcpus,
      nics := [NicCreate(DEFAULT_DESCRIPTION, "nic-" + c.machineName, c.subnet, c.vpc, false)],
      sshPublicKeys := [keyId] + c.additionalSshPublicKeyIds,
      userData := Base64Of(userData))
  }

  /** The user data: the file's contents, or nothing when no file is configured. */
  function UserDataOf(path: string, sc: Script): Result<seq<byte>>
  {
    if path != "" then sc.readFile(path) else Ok([])
  }

  function UserDataCalls(path: string): seq<Call>
  {
    if path != "" then [FileRead(path)] else []
  }

  /** The address of the first listed interface, if there is one. */
  function FirstIp(nics: seq<Nic>): (ip: Option<string>)
    ensures ip.None? <==> nics == []
    ensures nics != [] ==> ip == Some(nics[0].ip)
  {
    if nics == [] then None else Some(nics[0].ip)
  }

  /**
   * `Create` once the key is uploaded: read the user data, create the
   * instance and list its interfaces. Listing no interface is no error.
   */
  function Launch(c: Config, keyId: string, sc: Script): (r: OxideDriver.CreateRun)
    ensures r.keyId == Some(keyId) && r.diskIds.None?
  {
    var read := UserDataCalls(c.userDataFile);
    match UserDataOf(c.userDataFile, sc)
    case Err(e) => OxideDriver.CreateRun(read, Some(e), Some(keyId), None, None, None)
    case Ok(userData) => OxideDriver.After(read, Instantiate(c, keyId, userData, sc))
  }

  /** `Create` once the user data is read: create the instance, then list its interfaces. */
  function Instantiate(c: Config, keyId: string, userData: seq<byte>, sc: Script): (r: OxideDriver.CreateRun)
    ensures r.keyId == Some(keyId) && r.diskIds.None?
  {
    var create := [InstanceCreate(c.project, Request(c, keyId, userData))];
    match sc.created
    case Err(e) => OxideDriver.CreateRun(create, Some(e), Some(keyId), None, None, None)
    case Ok(inst) =>
      var list := create + [NicList(inst.id)];
      match sc.nics
      case Err(e) => OxideDriver.CreateRun(list, Some(e), Some(keyId), Some(inst), None, None)
      case Ok(nics) => OxideDriver.CreateRun(list, None, Some(keyId), Some(inst), FirstIp(nics), None)
  }

  /**
   * `Create`: make a client, then (in `configureSSHKey`) another client and
   * the uploaded key, then go on as `Launch` does. Each failure returns at once.
   */
  function CreateSpec(c: Config, sc: Script): (r: OxideDriver.CreateRun)
    ensures r.diskIds.None?
  {
    var client := ClientCall(c.host, c.token);
    if ClientErr(c.host, c.token, sc).Some? then
      OxideDriver.CreateRun([client], ClientErr(c.host, c.token, sc), None, None, None, None)
    else
      var keyCalls := [client, client, SshKeyCreate(c.machineName, DEFAULT_DESCRIPTION)];
      match sc.sshKey
      case Err(e) => OxideDriver.CreateRun(keyCalls, Some(e), None, None, None, None)
      case Ok(keyId) => OxideDriver.After(keyCalls, Launch(c, keyId, sc))
  }

  /** Every call of `Create` up to and including the instance creation succeeds. */
  predicate InstanceMade(c: Config, sc: Script)
  {
    ClientErr(c.host, c.token, sc).None? && sc.sshKey.Ok? && UserDataOf(c.userDataFile, sc).Ok? && sc.created.Ok?
  }

  /**
   * What `Create` records: the key ID once the key is uploaded; the
   * instance once it is created; the address of the first interface when
   * the list has one, and nothing (the previous address stays) when it is
   * empty. It succeeds iff every call does; it never records disk IDs.
   */
  lemma CreateRecords(c: Config, sc: Script)
    ensures var r := CreateSpec(c, sc);
      && (r.keyId.Some? <==> ClientErr(c.host, c.token, sc).None? && sc.sshKey.Ok?)
      && (r.keyId.Some? ==> r.keyId == Some(sc.sshKey.value))
      && (r.instance.Some? <==> InstanceMade(c, sc))
      && (r.instance.Some? ==> r.instance == Some(sc.created.value))
      && (r.err.None? <==> InstanceMade(c, sc) && sc.nics.Ok?)
      && (r.ip.Some? <==> InstanceMade(c, sc) && sc.nics.Ok? && sc.nics.value != [])
      && (r.ip.Some? ==> r.ip == Some(sc.nics.value[0].ip))
      && (InstanceMade(c, sc) && sc.nics == Ok([]) ==> r.err.None? && r.ip.None?)
      && r.diskIds.None?
  {
  }

  /** The calls of `Create` as a flat list of steps; a value an earlier failure leaves undefined is a default. */
  function CreateSteps(c: Config, sc: Script): seq<Orchestration.Step>
  {
    var keyId := if sc.sshKey.Ok? then sc.sshKey.value else "";
    var userData := UserDataOf(c.userDataFile, sc);
    var inst := if sc.created.Ok? then sc.created.value else Instance("", "");
    var client := ClientStep(c.host, c.token, sc);
    [client, client, Orchestration.Step(SshKeyCreate(c.machineName, DEFAULT_DESCRIPTION), OxideDriver.ErrOf(sc.sshKey))]
    + (if c.userDataFile != "" then [Orchestration.Step(FileRead(c.userDataFile), OxideDriver.ErrOf(userData))] else [])
    + [Orchestration.Step(InstanceCreate(c.project, Request(c, keyId, if userData.Ok? then userData.value else [])), OxideDriver.ErrOf(sc.created)),
       Orchestration.Step(NicList(inst.id), OxideDriver.ErrOf(sc.nics))]
  }

  /** The steps of `Launch`, with the key ID known. */
  function LaunchSteps(c: Config, keyId: string, sc: Script): seq<Orchestration.Step>
  {
    var userData := UserDataOf(c.userDataFile, sc);
    var inst := if sc.created.Ok? then sc.created.value else Instance("", "");
    (if c.userDataFile != "" then [Orchestration.Step(FileRead(c.userDataFile), OxideDriver.ErrOf(userData))] else [])
    + [Orchestration.Step(InstanceCreate(c.project, Request(c, keyId, if userData.Ok? then userData.value else [])), OxideDriver.ErrOf(sc.created)),
       Orchestration.Step(NicList(inst.id), OxideDriver.ErrOf(sc.nics))]
  }

  /** `Launch` makes its calls in order and stops at the first failure. */
  lemma LaunchFailsFast(c: Config, keyId: string, sc: Script)
    ensures var r := Launch(c, keyId, sc); var ff := Orchestration.FailFast(LaunchSteps(c, keyId, sc));
      r.calls == ff.calls && r.err == ff.err
  {
    var userData := UserDataOf(c.userDataFile, sc);
    var inst := if sc.created.Ok? then sc.created.value else Instance("", "");
    var read := if c.userDataFile != "" then [Orchestration.Step(FileRead(c.userDataFile), OxideDriver.ErrOf(userData))] else [];
    var create := Orchestration.Step(InstanceCreate(c.project, Request(c, keyId, if userData.Ok? then userData.value else [])), OxideDriver.ErrOf(sc.created));
    var list := Orchestration.Step(NicList(inst.id), OxideDriver.ErrOf(sc.nics));
    Orchestration.FailFastAppend(read, [create, list]);
    FailFastTwo(create, list);
    if c.userDataFile != "" {
      assert read[1..] == [];
    }
  }

  /**
   * `Create` fails fast: its calls and error are those of making its calls
   * in order and stopping at the first failure.
   */
  lemma CreateFailsFast(c: Config, sc: Script)
    ensures var r := CreateSpec(c, sc); var ff := Orchestration.FailFast(CreateSteps(c, sc));
      r.calls == ff.calls && r.err == ff.err
  {
    var keyId := if sc.sshKey.Ok? then sc.sshKey.value else "";
    var client := ClientStep(c.host, c.token, sc);
    var key := Orchestration.Step(SshKeyCreate(c.machineName, DEFAULT_DESCRIPTION), OxideDriver.ErrOf(sc.sshKey));
    var head := [client, client, key];
    assert CreateSteps(c, sc) == head + LaunchSteps(c, keyId, sc);
    Orchestration.FailFastAppend(head, LaunchSteps(c, keyId, sc));
    Orchestration.CallsOfThree(head);
    LaunchFailsFast(c, keyId, sc);
  }

  // ---------------------------------------------------------------------------
  // GetState.

  /**
   * `GetState`: make a client, then view the instance (the `v`-th view
   * call) and map its run state. Every failure comes with the state `None`.
   */
  function GetStateSpec(host: string, token: string, instanceId: string, sc: Script, v: nat): (r: OxideDriver.StateRead)
    ensures r.err.Some? ==> r.state == Rancher.None
    ensures r.err.None? <==> ClientErr(host, token, sc).None? && sc.views(v).Ok?
    ensures r.err.None? ==> r.state == ToRancherMachineState(sc.views(v).value)
    ensures ClientErr(host, token, sc).None? && sc.views(v).Err? ==> r.err == Some(sc.views(v).error)
  {
    var client := ClientCall(host, token);
    if ClientErr(host, token, sc).Some? then OxideDriver.StateRead([client], Rancher.None, ClientErr(host, token, sc))
    else
      match Orchestration.StateAnswer(ToRancherMachineState, sc.views(v))
      case Err(e) => OxideDriver.StateRead([client, InstanceView(instanceId)], Rancher.None, Some(e))
      case Ok(state) => OxideDriver.StateRead([client, InstanceView(instanceId)], state, None)
  }

  /** The calls and error of `GetState` are those of a fail-fast run of its two calls. */
  lemma GetStateFailsFast(host: string, token: string, instanceId: string, sc: Script, v: nat)
    ensures var r := GetStateSpec(host, token, instanceId, sc, v);
      Orchestration.FailFast([ClientStep(host, token, sc), Orchestration.Step(InstanceView(instanceId), OxideDriver.ErrOf(sc.views(v)))])
        == Orchestration.Run(r.calls, r.err)
  {
    FailFastTwo(ClientStep(host, token, sc), Orchestration.Step(InstanceView(instanceId), OxideDriver.ErrOf(sc.views(v))));
  }

  // ---------------------------------------------------------------------------
  // Remove.

  /**
   * `Remove`: make a client; `Stop` (another client and the stop call); read
   * the state, each read with a new client, until it shows stopped (a
   * failed read aborts; once `deadline` reads have been made the wait times
   * out); then delete the key, the instance and the boot disk, stopping at
   * the first failure. `v0` is the number of view calls made before.
   */
  function RemoveSpec(host: string, token: string, ids: OxideDriver.Recorded, sc: Script, v0: nat, deadline: nat): Orchestration.Run
  {
    var client := ClientCall(host, token);
    if ClientErr(host, token, sc).Some? then Orchestration.Run([client], ClientErr(host, token, sc))
    else if sc.stopErr.Some? then Orchestration.Run([client, client, InstanceStop(ids.instanceId)], sc.stopErr)
    else
      var rest := StoppedRemoval(host, token, ids, sc, v0, deadline);
      Orchestration.Run([client, client, InstanceStop(ids.instanceId)] + rest.calls, rest.err)
  }

  /**
   * The state reads `Remove` makes: none when the client or the stop
   * fails, otherwise those of the wait.
   */
  function RemovePolls(host: string, token: string, sc: Script, v0: nat, deadline: nat): (n: nat)
    ensures n <= deadline
    ensures n > 0 ==> ClientErr(host, token, sc).None? && sc.stopErr.None?
  {
    if ClientErr(host, token, sc).Some? || sc.stopErr.Some? then 0
    else Orchestration.StopWait(ToRancherMachineState, sc, v0, deadline).polls
  }

  /** `Remove` once the instance has been told to stop: the wait, then the deletions. */
  function StoppedRemoval(host: string, token: string, ids: OxideDriver.Recorded, sc: Script, v0: nat, deadline: nat): Orchestration.Run
  {
    var w := Orchestration.StopWait(ToRancherMachineState, sc, v0, deadline);
    var polled := Orchestration.Repeat([ClientCall(host, token), InstanceView(ids.instanceId)], w.polls);
    match w.outcome
    case TimedOut => Orchestration.Run(polled, Some(OxideDriver.STOP_TIMEOUT_ERROR))
    case Aborted(e) => Orchestration.Run(polled, Some(e))
    case Observed =>
      var del := Orchestration.FailFast(OxideDriver.FixedDeletes(ids, sc));
      Orchestration.Run(polled + del.calls, del.err)
  }

  /**
   * An instance seen stopped after `n` other states, with every deletion
   * succeeding: `Remove` deletes the key, the instance and the boot disk,
   * and nothing else.
   */
  lemma RemovalDeletesThree(host: string, token: string, ids: OxideDriver.Recorded, sc: Script, v0: nat, n: nat, deadline: nat)
    requires ClientErr(host, token, sc).None? && sc.stopErr.None?
    requires n < deadline
    requires forall v :: v0 <= v < v0 + n ==> Orchestration.Continues(Orchestration.StateAnswer(ToRancherMachineState, sc.views(v)), Rancher.Stopped)
    requires Orchestration.StateAnswer(ToRancherMachineState, sc.views(v0 + n)) == Ok(Rancher.Stopped)
    requires sc.keyDeleteErr.None? && sc.instanceDeleteErr.None? && sc.diskDeleteErr(ids.bootDiskId).None?
    ensures var client := ClientCall(host, token);
      RemoveSpec(host, token, ids, sc, v0, deadline) == Orchestration.Run(
        [client, client, InstanceStop(ids.instanceId)]
        + Orchestration.Repeat([client, InstanceView(ids.instanceId)], n + 1)
        + [SshKeyDelete(ids.keyId), InstanceDelete(ids.instanceId), DiskDelete(ids.bootDiskId)], None)
  {
    Orchestration.PollObserves(ToRancherMachineState, sc, v0, n, deadline);
    Orchestration.CallsOfThree(OxideDriver.FixedDeletes(ids, sc));
  }

  /** An instance that never shows stopped: `deadline` reads, each with its own client, then the timeout error and no deletion. */
  lemma RemovalTimesOut(host: string, token: string, ids: OxideDriver.Recorded, sc: Script, v0: nat, deadline: nat)
    requires ClientErr(host, token, sc).None? && sc.stopErr.None?
    requires forall v :: v0 <= v < v0 + deadline ==> Orchestration.Continues(Orchestration.StateAnswer(ToRancherMachineState, sc.views(v)), Rancher.Stopped)
    ensures var client := ClientCall(host, token);
      RemoveSpec(host, token, ids, sc, v0, deadline) == Orchestration.Run(
        [client, client, InstanceStop(ids.instanceId)] + Orchestration.Repeat([client, InstanceView(ids.instanceId)], deadline),
        Some(OxideDriver.STOP_TIMEOUT_ERROR))
  {
    Orchestration.PollTimesOut(ToRancherMachineState, sc, v0, deadline);
  }

  // ---------------------------------------------------------------------------
  // The driver.

  /** The driver of this revision; the fields of the embedded base driver sit beside its own. */
  class Driver {
    const MachineName: string
    const platform: Platform
    var Host: string
    var Token: string
    var Project: string
    var VCPUS: int
    var Memory: int
    var BootDiskSize: int
    var BootDiskImageID: string
    var VPC: string
    var Subnet: string
    var UserDataFile: string
    var AdditionalSSHPublicKeyIDs: seq<string>
    var InstanceID: string
    var BootDiskID: string
    var SSHPublicKeyID: string
    var IPAddress: string
    var SSHUser: string
    var SSHPort: int

    /**
     * `NewDriver`: the machine name and the default SSH user and port, and
     * every other field at Go's zero value, so nothing is configured or
     * recorded.
     */
    constructor (machineName: string, platform: Platform)
      ensures MachineName == machineName && this.platform == platform
      ensures SSHUser == DEFAULT_SSH_USER && SSHPort == DEFAULT_SSH_PORT
      ensures Snapshot() == Config(machineName, "", "", "", 0, 0, 0, "", "", "", "", [])
      ensures Ids() == OxideDriver.Recorded("", "", "", "", [])
    {
      MachineName := machineName;
      this.platform := platform;
      Host, Token, Project := "", "", "";
      VCPUS, Memory, BootDiskSize := 0, 0, 0;
      BootDiskImageID, VPC, Subnet := "", "", "";
      UserDataFile := "";
      AdditionalSSHPublicKeyIDs := [];
      InstanceID, BootDiskID, SSHPublicKeyID, IPAddress := "", "", "", "";
      SSHUser := DEFAULT_SSH_USER;
      SSHPort := DEFAULT_SSH_PORT;
    }

    function Current(): Settings
      reads this`Host, this`Token, this`Project, this`VCPUS, this`Memory, this`BootDiskSize, this`BootDiskImageID,
        this`VPC, this`Subnet, this`UserDataFile, this`SSHUser, this`AdditionalSSHPublicKeyIDs, this`SSHPort
    {
      Settings(Host, Token, Project, VCPUS, Memory, BootDiskSize, BootDiskImageID, VPC, Subnet, UserDataFile,
        SSHUser, AdditionalSSHPublicKeyIDs, SSHPort)
    }

    function Snapshot(): Config
      reads this`Host, this`Token, this`Project, this`VCPUS, this`Memory, this`BootDiskSize, this`BootDiskImageID,
        this`VPC, this`Subnet, this`UserDataFile, this`AdditionalSSHPublicKeyIDs
    {
      Config(MachineName, Host, Token, Project, VCPUS, Memory, BootDiskSize, BootDiskImageID, VPC, Subnet,
        UserDataFile, AdditionalSSHPublicKeyIDs)
    }

    /** The IDs `Remove` deletes and the recorded address; this revision records no disk IDs. */
    function Ids(): OxideDriver.Recorded
      reads this`SSHPublicKeyID, this`InstanceID, this`BootDiskID, this`IPAddress
    {
      OxideDriver.Recorded(SSHPublicKeyID, InstanceID, BootDiskID, IPAddress, [])
    }

    /**
     * `SetConfigFromFlags`: store every flag as given and the default SSH
     * port, join one error per empty required flag, and return
     * `errors.Unwrap` of the result, which is always nil.
     */
    method SetConfigFromFlags(opts: Rancher.Options) returns (err: Option<Error>)
      modifies this`Host, this`Token, this`Project, this`VCPUS, this`Memory, this`BootDiskSize, this`BootDiskImageID,
        this`VPC, this`Subnet, this`UserDataFile, this`SSHUser, this`AdditionalSSHPublicKeyIDs, this`SSHPort
      ensures Current() == SettingsOf(opts)
      ensures err == UnwrapNil(JoinEach(None, RequiredErrors(opts)))
    {
      var s;
      s, err := Configure(opts);
      Store(s);
    }

    /** The field assignments of `SetConfigFromFlags`. */
    method Store(s: Settings)
      modifies this`Host, this`Token, this`Project, this`VCPUS, this`Memory, this`BootDiskSize, this`BootDiskImageID,
        this`VPC, this`Subnet, this`UserDataFile, this`SSHUser, this`AdditionalSSHPublicKeyIDs, this`SSHPort
      ensures Current() == s
    {
      StoreApi(s);
      StoreInstance(s);
      StoreAccess(s);
    }

    /** The API settings and the instance's size. */
    method StoreApi(s: Settings)
      modifies this`Host, this`Token, this`Project, this`VCPUS, this`Memory
      ensures Host == s.host
      ensures Token == s.token
      ensures Project == s.project
      ensures VCPUS == s.vcpus
      ensures Memory == s.memory
    {
      Host := s.host;
      Token := s.token;
      Project := s.project;
      VCPUS := s.vcpus;
      Memory := s.memory;
    }

    /** The boot disk and the network. */
    method StoreInstance(s: Settings)
      modifies this`BootDiskSize, this`BootDiskImageID, this`VPC, this`Subnet
      ensures BootDiskSize == s.bootDiskSize
      ensures BootDiskImageID == s.bootDiskImageId
      ensures VPC == s.vpc
      ensures Subnet == s.subnet
    {
      BootDiskSize := s.bootDiskSize;
      BootDiskImageID := s.bootDiskImageId;
      VPC := s.vpc;
      Subnet := s.subnet;
    }

    /** User data and SSH access. */
    method StoreAccess(s: Settings)
      modifies this`UserDataFile, this`SSHUser, this`AdditionalSSHPublicKeyIDs, this`SSHPort
      ensures UserDataFile == s.userDataFile
      ensures SSHUser == s.sshUser
      ensures AdditionalSSHPublicKeyIDs == s.additionalSshPublicKeyIds
      ensures SSHPort == s.sshPort
    {
      UserDataFile := s.userDataFile;
      SSHUser := s.sshUser;
      AdditionalSSHPublicKeyIDs := s.additionalSshPublicKeyIds;
      SSHPort := s.sshPort;
    }

    /** `createOxideClient`: one `oxide.NewClient` call. */
    method CreateOxideClient() returns (err: Option<Error>)
      modifies platform`trace
      ensures platform.trace == old(platform.trace) + [ClientCall(Host, Token)]
      ensures err == ClientErr(Host, Token, platform.script)
    {
      err := platform.NewClient(ClientOptions(Host, Token));
    }

    /**
     * `configureSSHKey`: make a client, then generate, read and upload a key
     * pair named after the machine, giving the uploaded key's ID.
     */
    method ConfigureSshKey() returns (key: Result<string>)
      modifies platform`trace
      ensures var e := ClientErr(Host, Token, platform.script);
        && platform.trace == old(platform.trace) + [ClientCall(Host, Token)]
             + (if e.None? then [SshKeyCreate(MachineName, DEFAULT_DESCRIPTION)] else [])
        && key == (if e.Some? then Err(e.value) else platform.script.sshKey)
    {
      var err := CreateOxideClient();
      if err.Some? {
        return Err(err.value);
      }
      key := platform.CurrentUserSshKeyCreate(MachineName, DEFAULT_DESCRIPTION);
    }

    /**
     * `Create`, proved against `CreateSpec`: the calls made and the error
     * returned, and each ID and the address stored once the call that yields
     * it succeeds; a field whose call was never reached keeps its value.
     */
    method Create() returns (err: Option<Error>)
      modifies this`SSHPublicKeyID, this`InstanceID, this`BootDiskID, this`IPAddress, platform`trace
      ensures var run := CreateSpec(Snapshot(), platform.script);
        && platform.trace == old(platform.trace) + run.calls
        && err == run.err
        && Ids() == OxideDriver.Store(run, old(Ids()))
    {
      err := CreateOxideClient();
      if err.Some? {
        return;
      }
      var key := ConfigureSshKey();
      if key.Err? {
        err := Some(key.error);
        return;
      }
      SSHPublicKeyID := key.value;
      ghost var keyCalls := [ClientCall(Host, Token), ClientCall(Host, Token), SshKeyCreate(MachineName, DEFAULT_DESCRIPTION)];
      assert platform.trace == old(platform.trace) + keyCalls;
      err := LaunchInstance();
      Orchestration.AppendAssoc(old(platform.trace), keyCalls, Launch(Snapshot(), key.value, platform.script).calls);
    }

    /** `Create` once the key is uploaded, proved against `Launch`. */
    method LaunchInstance() returns (err: Option<Error>)
      modifies this`InstanceID, this`BootDiskID, this`IPAddress, platform`trace
      ensures var run := Launch(Snapshot(), SSHPublicKeyID, platform.script);
        && platform.trace == old(platform.trace) + run.calls
        && err == run.err
        && Ids() == OxideDriver.Store(run, old(Ids()))
    {
      var userData: seq<byte> := [];
      if UserDataFile != "" {
        var b := platform.ReadFile(UserDataFile);
        if b.Err? {
          return Some(b.error);
        }
        userData := b.value;
      }
      ghost var read := UserDataCalls(UserDataFile);
      assert platform.trace == old(platform.trace) + read;
      err := CreateInstance(userData);
      Orchestration.AppendAssoc(old(platform.trace), read, Instantiate(Snapshot(), SSHPublicKeyID, userData, platform.script).calls);
    }

    /** Create the instance and record its IDs and address, proved against `Instantiate`. */
    method CreateInstance(userData: seq<byte>) returns (err: Option<Error>)
      modifies this`InstanceID, this`BootDiskID, this`IPAddress, platform`trace
      ensures var run := Instantiate(Snapshot(), SSHPublicKeyID, userData, platform.script);
        && platform.trace == old(platform.trace) + run.calls
        && err == run.err
        && Ids() == OxideDriver.Store(run, old(Ids()))
    {
      var body := BuildRequest(userData);
      var instance := platform.InstanceCreateCall(Project, body);
      if instance.Err? {
        return Some(instance.error);
      }
      InstanceID := instance.value.id;
      BootDiskID := instance.value.bootDiskId;
      err := RecordAddress();
    }

    /** The request, with the key list built one element at a time as `Create` does. */
    method BuildRequest(userData: seq<byte>) returns (body: InstanceSpec)
      ensures body == Request(Snapshot(), SSHPublicKeyID, userData)
    {
      var sshPublicKeyIds := OxideDriver.AppendAll([SSHPublicKeyID], AdditionalSSHPublicKeyIDs);
      body := InstanceSpec(
        antiAffinityGroups := [],
        bootDisk := DiskCreate(DEFAULT_DESCRIPTION, "disk-" + MachineName, ByteCount(BootDiskSize), ImageSource(BootDiskImageID)),
        disks := [],
        description := DEFAULT_DESCRIPTION,
        externalIps := [],
        hostname := MachineName,
        memory := ByteCount(Memory),
        name := MachineName,
        ncpus := VCPUS,
        nics := [NicCreate(DEFAULT_DESCRIPTION, "nic-" + MachineName, Subnet, VPC, false)],
        sshPublicKeys := sshPublicKeyIds,
        userData := Base64Of(userData));
    }

    /**
     * List the new instance's interfaces and take the first one's address:
     * the loop over the list stops after its first element, and an empty
     * list leaves the address as it was.
     */
    method RecordAddress() returns (err: Option<Error>)
      modifies this`IPAddress, platform`trace
      ensures platform.trace == old(platform.trace) + [NicList(InstanceID)]
      ensures err == OxideDriver.ErrOf(platform.script.nics)
      ensures IPAddress == (if platform.script.nics.Ok? then OxideDriver.StoredOr(FirstIp(platform.script.nics.value), old(IPAddress)) else old(IPAddress))
    {
      var networkInterfaces := platform.InstanceNetworkInterfaceListAllPages(InstanceID);
      if networkInterfaces.Err? {
        return Some(networkInterfaces.error);
      }
      for i := 0 to |networkInterfaces.value|
        invariant i == 0 && IPAddress == old(IPAddress)
      {
        IPAddress := networkInterfaces.value[i].ip;
        break;
      }
      err := None;
    }

    /** `GetState`, proved against `GetStateSpec`: a new client, then the platform's next view call. */
    method GetState() returns (state: Rancher.MachineState, err: Option<Error>)
      modifies platform`trace, platform`viewCalls
      ensures var r := GetStateSpec(Host, Token, InstanceID, platform.script, old(platform.viewCalls));
        platform.trace == old(platform.trace) + r.calls && state == r.state && err == r.err
      ensures platform.viewCalls == old(platform.viewCalls) + (if ClientErr(Host, Token, platform.script).None? then 1 else 0)
    {
      err := CreateOxideClient();
      if err.Some? {
        return Rancher.None, err;
      }
      var instance := platform.InstanceViewCall(InstanceID);
      if instance.Err? {
        return Rancher.None, Some(instance.error);
      }
      state := ToRancherMachineState(instance.value);
    }

    /** `Start`: a new client, then the start call. */
    method Start() returns (err: Option<Error>)
      modifies platform`trace
      ensures var run := Orchestration.FailFast([ClientStep(Host, Token, platform.script),
          Orchestration.Step(InstanceStart(InstanceID), platform.script.startErr)]);
        platform.trace == old(platform.trace) + run.calls && err == run.err
    {
      FailFastTwo(ClientStep(Host, Token, platform.script), Orchestration.Step(InstanceStart(InstanceID), platform.script.startErr));
      err := CreateOxideClient();
      if err.Some? {
        return;
      }
      err := platform.InstanceStartCall(InstanceID);
    }

    /** `Stop`: a new client, then the stop call. */
    method Stop() returns (err: Option<Error>)
      modifies platform`trace
      ensures var run := Orchestration.FailFast([ClientStep(Host, Token, platform.script),
          Orchestration.Step(InstanceStop(InstanceID), platform.script.stopErr)]);
        platform.trace == old(platform.trace) + run.calls && err == run.err
    {
      FailFastTwo(ClientStep(Host, Token, platform.script), Orchestration.Step(InstanceStop(InstanceID), platform.script.stopErr));
      err := CreateOxideClient();
      if err.Some? {
        return;
      }
      err := platform.InstanceStopCall(InstanceID);
    }

    /** `Restart`: a new client, then the reboot call. */
    method Restart() returns (err: Option<Error>)
      modifies platform`trace
      ensures var run := Orchestration.FailFast([ClientStep(Host, Token, platform.script),
          Orchestration.Step(InstanceReboot(InstanceID), platform.script.rebootErr)]);
        platform.trace == old(platform.trace) + run.calls && err == run.err
    {
      FailFastTwo(ClientStep(Host, Token, platform.script), Orchestration.Step(InstanceReboot(InstanceID), platform.script.rebootErr));
      err := CreateOxideClient();
      if err.Some? {
        return;
      }
      err := platform.InstanceRebootCall(InstanceID);
    }

    /**
     * `Remove`, proved against `RemoveSpec`. The two-minute timeout is the
     * clock's: `deadline` is the number of state reads made before it
     * expires.
     */
    method Remove(deadline: nat) returns (err: Option<Error>)
      modifies platform`trace, platform`viewCalls
      ensures var run := RemoveSpec(Host, Token, Ids(), platform.script, old(platform.viewCalls), deadline);
        platform.trace == old(platform.trace) + run.calls && err == run.err
      ensures platform.viewCalls == old(platform.viewCalls) + RemovePolls(Host, Token, platform.script, old(platform.viewCalls), deadline)
    {
      err := CreateOxideClient();
      if err.Some? {
        return;
      }
      ghost var client := ClientStep(Host, Token, platform.script);
      FailFastTwo(client, Orchestration.Step(InstanceStop(InstanceID), platform.script.stopErr));
      err := Stop();
      assert platform.trace == old(platform.trace) + [client.call, client.call, InstanceStop(InstanceID)];
      if err.Some? {
        return;
      }
      ghost var pre := [ClientCall(Host, Token), ClientCall(Host, Token), InstanceStop(InstanceID)];
      err := RemoveStopped(deadline);
      Orchestration.AppendAssoc(old(platform.trace), pre,
        StoppedRemoval(Host, Token, Ids(), platform.script, old(platform.viewCalls), deadline).calls);
    }

    /** `Remove` after the stop call, proved against `StoppedRemoval`. */
    method RemoveStopped(deadline: nat) returns (err: Option<Error>)
      requires ClientErr(Host, Token, platform.script).None?
      modifies platform`trace, platform`viewCalls
      ensures var run := StoppedRemoval(Host, Token, Ids(), platform.script, old(platform.viewCalls), deadline);
        platform.trace == old(platform.trace) + run.calls && err == run.err
      ensures platform.viewCalls == old(platform.viewCalls) + Orchestration.StopWait(ToRancherMachineState, platform.script, old(platform.viewCalls), deadline).polls
    {
      var w := AwaitStopped(deadline);
      match w.outcome {
        case TimedOut =>
          err := Some(OxideDriver.STOP_TIMEOUT_ERROR);
        case Aborted(e) =>
          err := Some(e);
        case Observed =>
          ghost var polled := platform.trace[|old(platform.trace)|..];
          assert platform.trace == old(platform.trace) + polled;
          err := DeleteFixed();
          Orchestration.AppendAssoc(old(platform.trace), polled, Orchestration.FailFast(OxideDriver.FixedDeletes(Ids(), platform.script)).calls);
      }
    }

    /**
     * The polling loop of `Remove`: before each state read the deadline is
     * checked; a failed read or the stopped state ends the loop. Each read
     * is a `GetState`, with its own client.
     */
    method AwaitStopped(deadline: nat) returns (w: Orchestration.WaitResult)
      requires ClientErr(Host, Token, platform.script).None?
      modifies platform`trace, platform`viewCalls
      ensures w == Orchestration.StopWait(ToRancherMachineState, platform.script, old(platform.viewCalls), deadline)
      ensures platform.viewCalls == old(platform.viewCalls) + w.polls
      ensures platform.trace == old(platform.trace) + Orchestration.Repeat([ClientCall(Host, Token), InstanceView(InstanceID)], w.polls)
    {
      ghost var v0 := platform.viewCalls;
      ghost var poll := Orchestration.Poll(ToRancherMachineState, platform.script, v0, deadline);
      ghost var whole := Orchestration.Wait(poll, Rancher.Stopped, deadline);
      ghost var round := [ClientCall(Host, Token), InstanceView(InstanceID)];
      var polls: nat := 0;
      while true
        invariant polls <= deadline
        invariant platform.viewCalls == v0 + polls
        invariant platform.trace == old(platform.trace) + Orchestration.Repeat(round, polls)
        invariant Orchestration.WaitFrom(poll, Rancher.Stopped, polls, deadline) == whole
        decreases deadline - polls
      {
        if polls == deadline {
          return Orchestration.WaitResult(polls, Orchestration.TimedOut);
        }
        Orchestration.WaitAfterRead(ToRancherMachineState, platform.script, v0, polls, deadline);
        Orchestration.RepeatStep(old(platform.trace), round, polls);
        var currentState, e := GetState();
        polls := polls + 1;
        if e.Some? {
          return Orchestration.WaitResult(polls, Orchestration.Aborted(e.value));
        }
        if currentState == Rancher.Stopped {
          return Orchestration.WaitResult(polls, Orchestration.Observed);
        }
      }
    }

    /** The SSH key, the instance and the boot disk, in that order, stopping at the first failure. */
    method DeleteFixed() returns (err: Option<Error>)
      modifies platform`trace
      ensures var run := Orchestration.FailFast(OxideDriver.FixedDeletes(Ids(), platform.script));
        platform.trace == old(platform.trace) + run.calls && err == run.err
    {
      Orchestration.CallsOfThree(OxideDriver.FixedDeletes(Ids(), platform.script));
      err := platform.CurrentUserSshKeyDelete(SSHPublicKeyID);
      if err.Some? {
        return;
      }
      err := platform.InstanceDeleteCall(InstanceID);
      if err.Some? {
        return;
      }
      err := platform.DiskDeleteCall(BootDiskID);
    }
  }
}
