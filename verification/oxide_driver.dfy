/**
 * The `Driver` of the newest revision (oxide.go): flag configuration, the
 * lazily created API client, and the `Create`, `GetState`, `Start`, `Stop`,
 * `Restart` and `Remove` lifecycle methods, each proved against a
 * specification of the calls it makes and the fields it sets.
 */
module OxideDriver {
  import opened Wrappers
  import opened Errors
  import opened Api
  import opened Humanize
  import opened Oxide
  import GoText
  import Rancher
  import Orchestration

  // ---------------------------------------------------------------------------
  // SetConfigFromFlags.

  /** The required flags whose values are empty, in the order they are checked. */
  function MissingRequired(host: string, token: string, project: string, image: string): (missing: seq<string>)
    ensures |missing| <= 4
  {
    (if host == "" then [FLAG_HOST] else []) +
    (if token == "" then [FLAG_TOKEN] else []) +
    (if project == "" then [FLAG_PROJECT] else []) +
    (if image == "" then [FLAG_BOOT_DISK_IMAGE_ID] else [])
  }

  /** One `RequiredFlagError` per missing flag. */
  function RequiredErrors(missing: seq<string>): (es: seq<Option<Error>>)
    ensures |es| == |missing|
    ensures forall i :: 0 <= i < |missing| ==> es[i] == Some(NewRequiredFlagError(missing[i]))
  {
    if missing == [] then [] else [Some(NewRequiredFlagError(missing[0]))] + RequiredErrors(missing[1..])
  }

  /** The error of the required-flag block: the missing flags' errors, joined. */
  function RequiredError(host: string, token: string, project: string, image: string): Option<Error>
  {
    JoinEach(None, RequiredErrors(MissingRequired(host, token, project, image)))
  }

  /**
   * The required-flag error holds one `RequiredFlagError` per empty required
   * flag, in the order host, token, project, image; it is nil iff none is
   * empty.
   */
  lemma RequiredFlagErrors(host: string, token: string, project: string, image: string)
    ensures var missing := MissingRequired(host, token, project, image);
      var err := RequiredError(host, token, project, image);
      && (err.None? <==> missing == [])
      && |Constituents(err)| == |missing|
      && forall i :: 0 <= i < |missing| ==> Constituents(err)[i] == RequiredFlag(missing[i])
  {
    var missing := MissingRequired(host, token, project, image);
    var es := RequiredErrors(missing);
    PresentAll(es);
    JoinEachConstituents(None, es);
    assert Constituents(None) + Present(es) == Present(es);
  }

  /** A flag is reported missing iff it is one of the four required flags and its value is empty. */
  lemma MissingRequiredMembers(host: string, token: string, project: string, image: string)
    ensures forall f :: f in MissingRequired(host, token, project, image) <==>
      (f == FLAG_HOST && host == "") || (f == FLAG_TOKEN && token == "") ||
      (f == FLAG_PROJECT && project == "") || (f == FLAG_BOOT_DISK_IMAGE_ID && image == "")
  {
    var a := if host == "" then [FLAG_HOST] else [];
    var b := if token == "" then [FLAG_TOKEN] else [];
    var c := if project == "" then [FLAG_PROJECT] else [];
    var d := if image == "" then [FLAG_BOOT_DISK_IMAGE_ID] else [];
    var missing := MissingRequired(host, token, project, image);
    assert missing == a + b + c + d;
    forall f ensures f in missing <==> f in a || f in b || f in c || f in d {
    }
  }

  /** A list in which every entry is present: its values, each of the kind the entries have. */
  lemma {:induction false} PresentAllKinds(es: seq<Option<Error>>)
    requires forall i :: 0 <= i < |es| ==> es[i].Some? && es[i].value.FlagParse?
    ensures Present(es) == [] <==> es == []
    ensures forall e :: e in Present(es) ==> e.FlagParse?
  {
    if es != [] {
      PresentAllKinds(es[1..]);
    }
  }

  /** The values of a list in which every entry is present. */
  lemma {:induction false} PresentAll(es: seq<Option<Error>>)
    requires forall i :: 0 <= i < |es| ==> es[i].Some? && !es[i].value.Joined?
    ensures NoJoins(es)
    ensures |Present(es)| == |es|
    ensures forall i :: 0 <= i < |es| ==> Present(es)[i] == es[i].value
  {
    if es != [] {
      PresentAll(es[1..]);
    }
  }

  /**
   * When no required flag is given at all, the message names all four, one
   * per line.
   */
  lemma NothingGivenMessage(host: string, token: string, project: string, image: string)
    requires host == token == project == image == ""
    ensures var err := RequiredError(host, token, project, image);
      err.Some? && Message(err.value) == NOTHING_GIVEN
  {
    var missing := MissingRequired(host, token, project, image);
    assert missing == [FLAG_HOST, FLAG_TOKEN, FLAG_PROJECT, FLAG_BOOT_DISK_IMAGE_ID];
    var es := RequiredErrors(missing);
    PresentAll(es);
    JoinEachMessage(es);
    RequiredMessages(Present(es));
  }

  /** The messages of the four required-flag errors, joined by newlines. */
  lemma RequiredMessages(present: seq<Error>)
    requires |present| == 4
    requires present[0] == RequiredFlag(FLAG_HOST) && present[1] == RequiredFlag(FLAG_TOKEN)
    requires present[2] == RequiredFlag(FLAG_PROJECT) && present[3] == RequiredFlag(FLAG_BOOT_DISK_IMAGE_ID)
    ensures GoText.Join(MessagesOf(present), '\n') == NOTHING_GIVEN
  {
    RequiredLine(present[0], FLAG_HOST);
    RequiredLine(present[1], FLAG_TOKEN);
    RequiredLine(present[2], FLAG_PROJECT);
    RequiredLine(present[3], FLAG_BOOT_DISK_IMAGE_ID);
    MessagesOfAt(present);
    AllFourMessages(MessagesOf(present));
  }

  /** The four required-flag lines, one per line, host first and image last. */
  const NOTHING_GIVEN :=
    RequiredText(FLAG_HOST) + "\n" + (
    RequiredText(FLAG_TOKEN) + "\n" + (
    RequiredText(FLAG_PROJECT) + "\n" +
    RequiredText(FLAG_BOOT_DISK_IMAGE_ID)))

  lemma AllFourMessages(ms: seq<string>)
    requires |ms| == 4
    requires ms[0] == RequiredText(FLAG_HOST) && ms[1] == RequiredText(FLAG_TOKEN)
    requires ms[2] == RequiredText(FLAG_PROJECT) && ms[3] == RequiredText(FLAG_BOOT_DISK_IMAGE_ID)
    ensures GoText.Join(ms, '\n') == NOTHING_GIVEN
  {
    GoText.JoinFour(ms, '\n');
  }

  lemma RequiredLine(e: Error, flag: string)
    requires e == RequiredFlag(flag)
    ensures Message(e) == RequiredText(flag)
  {
  }

  /** The flags `SetConfigFromFlags` copies into the driver as they are. */
  datatype PlainFlags = PlainFlags(
    host: string,
    token: string,
    project: string,
    vcpus: int,
    bootDiskImageId: string,
    vpc: string,
    subnet: string,
    userDataFile: string,
    sshUser: string,
    sshPublicKeys: seq<string>,
    antiAffinityGroups: seq<string>,
    ephemeralIpAttach: bool,
    ephemeralIpPool: string,
    userAgent: string)

  /**
   * Which flag each plain field comes from. The four required values are
   * taken as given, with no default, so an empty flag stays empty for the
   * required-flag check.
   */
  function PlainFlagsOf(opts: Rancher.Options): (f: PlainFlags)
    ensures f.host == opts.String(FLAG_HOST) && f.token == opts.String(FLAG_TOKEN)
    ensures f.project == opts.String(FLAG_PROJECT) && f.bootDiskImageId == opts.String(FLAG_BOOT_DISK_IMAGE_ID)
    ensures f.sshPublicKeys == opts.StringSlice(FLAG_SSH_PUBLIC_KEY) && f.ephemeralIpAttach == opts.Bool(FLAG_EPHEMERAL_IP_ATTACH)
  {
    PlainFlags(
      host := opts.String(FLAG_HOST),
      token := opts.String(FLAG_TOKEN),
      project := opts.String(FLAG_PROJECT),
      vcpus := opts.Int(FLAG_VCPUS),
      bootDiskImageId := opts.String(FLAG_BOOT_DISK_IMAGE_ID),
      vpc := opts.String(FLAG_VPC),
      subnet := opts.String(FLAG_SUBNET),
      userDataFile := opts.String(FLAG_USER_DATA_FILE),
      sshUser := opts.String(FLAG_SSH_USER),
      sshPublicKeys := opts.StringSlice(FLAG_SSH_PUBLIC_KEY),
      antiAffinityGroups := opts.StringSlice(FLAG_ANTI_AFFINITY_GROUP),
      ephemeralIpAttach := opts.Bool(FLAG_EPHEMERAL_IP_ATTACH),
      ephemeralIpPool := opts.String(FLAG_EPHEMERAL_IP_POOL),
      userAgent := opts.String(FLAG_USER_AGENT))
  }

  /**
   * `if err != nil { acc = errors.Join(acc, err) }`, with the errors joined
   * so far in `es`.
   */
  method JoinIfError(acc: Option<Error>, ghost es: seq<Option<Error>>, e: Option<Error>) returns (acc': Option<Error>, ghost es': seq<Option<Error>>)
    requires acc == JoinEach(None, es)
    ensures es' == es + (if e.Some? then [e] else [])
    ensures acc' == JoinEach(None, es')
  {
    acc', es' := acc, es;
    if e.Some? {
      JoinEachSnoc(None, es, e);
      acc' := JoinErrors([acc, e]);
      es' := es + [e];
    }
  }

  /** The `RequiredFlagError` for a flag whose value is empty. */
  function RequiredIfEmpty(value: string, flag: string): Option<Error>
  {
    if value == "" then Some(NewRequiredFlagError(flag)) else None
  }

  /**
   * The required-flag block of `SetConfigFromFlags`: join one
   * `RequiredFlagError` for each empty flag, in order.
   */
  method RequiredFlagsError(host: string, token: string, project: string, image: string) returns (err: Option<Error>)
    ensures err == RequiredError(host, token, project, image)
  {
    ghost var es: seq<Option<Error>> := [];
    err := None;
    err, es := JoinIfError(err, es, RequiredIfEmpty(host, FLAG_HOST));
    err, es := JoinIfError(err, es, RequiredIfEmpty(token, FLAG_TOKEN));
    err, es := JoinIfError(err, es, RequiredIfEmpty(project, FLAG_PROJECT));
    err, es := JoinIfError(err, es, RequiredIfEmpty(image, FLAG_BOOT_DISK_IMAGE_ID));
    RequiredErrorsOf(host, token, project, image, es);
  }

  lemma RequiredErrorsOf(host: string, token: string, project: string, image: string, es: seq<Option<Error>>)
    requires es ==
      (if host == "" then [RequiredIfEmpty(host, FLAG_HOST)] else []) +
      (if token == "" then [RequiredIfEmpty(token, FLAG_TOKEN)] else []) +
      (if project == "" then [RequiredIfEmpty(project, FLAG_PROJECT)] else []) +
      (if image == "" then [RequiredIfEmpty(image, FLAG_BOOT_DISK_IMAGE_ID)] else [])
    ensures es == RequiredErrors(MissingRequired(host, token, project, image))
  {
  }

  /** The memory flag, or "4 GiB" when it is empty. */
  function MemoryText(opts: Rancher.Options): (t: string)
    ensures t != ""
    ensures opts.String(FLAG_MEMORY) != "" ==> t == opts.String(FLAG_MEMORY)
  {
    if opts.String(FLAG_MEMORY) == "" then DEFAULT_MEMORY else opts.String(FLAG_MEMORY)
  }

  /** The boot-disk-size flag, or "20 GiB" when it is empty. */
  function BootDiskSizeText(opts: Rancher.Options): (t: string)
    ensures t != ""
    ensures opts.String(FLAG_BOOT_DISK_SIZE) != "" ==> t == opts.String(FLAG_BOOT_DISK_SIZE)
  {
    if opts.String(FLAG_BOOT_DISK_SIZE) == "" then DEFAULT_BOOT_DISK_SIZE else opts.String(FLAG_BOOT_DISK_SIZE)
  }

  /** The memory flag (or its default) as the byte parser reads it. */
  function MemoryParsed(parseBytes: ByteParser, opts: Rancher.Options): Parsed
  {
    parseBytes(MemoryText(opts))
  }

  /** The boot-disk-size flag (or its default) as the byte parser reads it. */
  function BootDiskSizeParsed(parseBytes: ByteParser, opts: Rancher.Options): Parsed
  {
    parseBytes(BootDiskSizeText(opts))
  }

  /** The values given for `--oxide-additional-disk`, in order. */
  function DiskInputs(opts: Rancher.Options): seq<string>
  {
    opts.StringSlice(FLAG_ADDITIONAL_DISK)
  }

  /** The `FlagParseError` for a size flag that did not parse, if it did not. */
  function SizeParseError(flag: string, parsed: Parsed): Option<Error>
  {
    if parsed.err.Some? then Some(NewFlagParseError(flag, Text(parsed.err.value))) else None
  }

  function SizeFlagError(flag: string, parsed: Parsed): seq<Option<Error>>
  {
    if parsed.err.Some? then [SizeParseError(flag, parsed)] else []
  }

  /** The disk parsed from each `--oxide-additional-disk` value, failures included as zero disks. */
  function ParsedDisks(parseBytes: ByteParser, inputs: seq<string>): (disks: seq<AdditionalDisk>)
    ensures |disks| == |inputs|
    decreases |inputs|
  {
    if inputs == [] then []
    else ParsedDisks(parseBytes, inputs[..|inputs| - 1]) + [ParseAdditionalDisk(parseBytes, inputs[|inputs| - 1]).disk]
  }

  /** The disk at each position is the one parsed from the input at that position. */
  lemma {:induction false} ParsedDisksAt(parseBytes: ByteParser, inputs: seq<string>)
    ensures forall i :: 0 <= i < |inputs| ==> ParsedDisks(parseBytes, inputs)[i] == ParseAdditionalDisk(parseBytes, inputs[i]).disk
    decreases |inputs|
  {
    if inputs != [] {
      var init := inputs[..|inputs| - 1];
      ParsedDisksAt(parseBytes, init);
      assert forall i :: 0 <= i < |init| ==> init[i] == inputs[i];
    }
  }

  /** The disk parsed and the error for one more input. */
  lemma ParsedDisksStep(parseBytes: ByteParser, inputs: seq<string>, i: nat)
    requires i < |inputs|
    ensures var r := ParseAdditionalDisk(parseBytes, inputs[i]);
      && ParsedDisks(parseBytes, inputs[..i + 1]) == ParsedDisks(parseBytes, inputs[..i]) + [r.disk]
      && DiskFlagErrors(parseBytes, inputs[..i + 1]) == DiskFlagErrors(parseBytes, inputs[..i]) + DiskFlagError(parseBytes, inputs[i])
  {
    assert inputs[..i + 1][..i] == inputs[..i];
  }

  /** The `FlagParseError` of one disk value, if it fails to parse. */
  function DiskFlagError(parseBytes: ByteParser, input: string): (es: seq<Option<Error>>)
  {
    var r := ParseAdditionalDisk(parseBytes, input);
    if r.err.Some? then [Some(NewFlagParseError(FLAG_ADDITIONAL_DISK, r.err.value))] else []
  }

  /** One `FlagParseError` per disk value that failed to parse, in input order. */
  function DiskFlagErrors(parseBytes: ByteParser, inputs: seq<string>): (es: seq<Option<Error>>)
    decreases |inputs|
  {
    if inputs == [] then []
    else DiskFlagErrors(parseBytes, inputs[..|inputs| - 1]) + DiskFlagError(parseBytes, inputs[|inputs| - 1])
  }

  /** The disk errors are all `FlagParseError`s, so none of them is a join. */
  lemma {:induction false} DiskFlagErrorsKind(parseBytes: ByteParser, inputs: seq<string>)
    ensures var es := DiskFlagErrors(parseBytes, inputs);
      && (forall i :: 0 <= i < |es| ==> es[i].Some? && es[i].value.FlagParse?)
      && NoJoins(es)
    decreases |inputs|
  {
    if inputs != [] {
      DiskFlagErrorsKind(parseBytes, inputs[..|inputs| - 1]);
    }
  }

  /** There is a disk error iff some disk value does not parse. */
  lemma {:induction false} DiskFlagErrorsNilIff(parseBytes: ByteParser, inputs: seq<string>)
    ensures DiskFlagErrors(parseBytes, inputs) == [] <==>
      forall i :: 0 <= i < |inputs| ==> ParseAdditionalDisk(parseBytes, inputs[i]).err.None?
    decreases |inputs|
  {
    if inputs != [] {
      var init := inputs[..|inputs| - 1];
      DiskFlagErrorsNilIff(parseBytes, init);
      assert forall i :: 0 <= i < |init| ==> init[i] == inputs[i];
    }
  }

  /** Every additional-disk value parses. */
  predicate DisksParse(parseBytes: ByteParser, inputs: seq<string>)
  {
    forall i :: 0 <= i < |inputs| ==> ParseAdditionalDisk(parseBytes, inputs[i]).err.None?
  }

  /** Every parse error, in the order the flags are parsed. */
  function ParseErrors(parseBytes: ByteParser, opts: Rancher.Options): (es: seq<Option<Error>>)
    ensures es == [] <==>
      && MemoryParsed(parseBytes, opts).err.None?
      && BootDiskSizeParsed(parseBytes, opts).err.None?
      && DisksParse(parseBytes, DiskInputs(opts))
  {
    DiskFlagErrorsNilIff(parseBytes, DiskInputs(opts));
    SizeFlagError(FLAG_MEMORY, MemoryParsed(parseBytes, opts)) +
    SizeFlagError(FLAG_BOOT_DISK_SIZE, BootDiskSizeParsed(parseBytes, opts)) +
    DiskFlagErrors(parseBytes, DiskInputs(opts))
  }

  /**
   * Parsing fails iff the memory, the boot disk size or some additional
   * disk does not parse; each failure contributes one `FlagParseError`.
   */
  lemma ParseErrorsNilIff(parseBytes: ByteParser, opts: Rancher.Options)
    ensures var inputs := DiskInputs(opts);
      JoinEach(None, ParseErrors(parseBytes, opts)).None? <==>
        && MemoryParsed(parseBytes, opts).err.None?
        && BootDiskSizeParsed(parseBytes, opts).err.None?
        && forall i :: 0 <= i < |inputs| ==> ParseAdditionalDisk(parseBytes, inputs[i]).err.None?
    ensures forall e :: e in Constituents(JoinEach(None, ParseErrors(parseBytes, opts))) ==> e.FlagParse?
  {
    var es := ParseErrors(parseBytes, opts);
    ParseErrorsKind(parseBytes, opts);
    PresentAllKinds(es);
    JoinEachConstituents(None, es);
    assert Constituents(None) + Present(es) == Present(es);
    DiskFlagErrorsNilIff(parseBytes, DiskInputs(opts));
  }

  /** Every parse error is a `FlagParseError`. */
  lemma ParseErrorsKind(parseBytes: ByteParser, opts: Rancher.Options)
    ensures var es := ParseErrors(parseBytes, opts);
      && (forall i :: 0 <= i < |es| ==> es[i].Some? && es[i].value.FlagParse?)
      && NoJoins(es)
  {
    var mem := SizeFlagError(FLAG_MEMORY, MemoryParsed(parseBytes, opts));
    var boot := SizeFlagError(FLAG_BOOT_DISK_SIZE, BootDiskSizeParsed(parseBytes, opts));
    var disks := DiskFlagErrors(parseBytes, DiskInputs(opts));
    DiskFlagErrorsKind(parseBytes, DiskInputs(opts));
    var es := ParseErrors(parseBytes, opts);
    forall i | 0 <= i < |es| ensures es[i].Some? && es[i].value.FlagParse? {
      if i >= |mem| + |boot| {
        assert es[i] == disks[i - |mem| - |boot|];
      }
    }
  }

  // ---------------------------------------------------------------------------
  // The client, made on first use.

  /** Making the client when there is none yet: one `oxide.NewClient` call, or nothing. */
  function InitSteps(host: string, token: string, userAgent: string, hadClient: bool, sc: Script): (steps: seq<Orchestration.Step>)
    ensures |steps| <= 1
  {
    var opts := ClientOptions(host, token, userAgent);
    if hadClient then [] else [Orchestration.Step(ClientNew(opts), sc.newClient(opts))]
  }

  /** The calls made to get a client. */
  function InitCalls(host: string, token: string, userAgent: string, hadClient: bool): seq<Call>
  {
    if hadClient then [] else [ClientNew(ClientOptions(host, token, userAgent))]
  }

  /** The error of getting a client: none when there already is one. */
  function InitErr(host: string, token: string, userAgent: string, hadClient: bool, sc: Script): (err: Option<Error>)
    ensures err.Some? ==> !hadClient && |InitCalls(host, token, userAgent, hadClient)| == 1
    ensures hadClient ==> InitCalls(host, token, userAgent, hadClient) == []
  {
    if hadClient then None else sc.newClient(ClientOptions(host, token, userAgent))
  }

  /** Getting a client is a fail-fast run of at most one call. */
  lemma InitRun(host: string, token: string, userAgent: string, hadClient: bool, sc: Script)
    ensures Orchestration.FailFast(InitSteps(host, token, userAgent, hadClient, sc)) ==
      Orchestration.Run(InitCalls(host, token, userAgent, hadClient), InitErr(host, token, userAgent, hadClient, sc))
  {
    var steps := InitSteps(host, token, userAgent, hadClient, sc);
    if !hadClient {
      assert steps[1..] == [];
    }
  }

  // ---------------------------------------------------------------------------
  // Create.

  /** The driver configuration `Create` reads. */
  datatype Config = Config(
    machineName: string,
    host: string,
    token: string,
    project: string,
    vcpus: int,
    memory: uint64,
    bootDiskSize: uint64,
    bootDiskImageId: string,
    vpc: string,
    subnet: string,
    ephemeralIpAttach: bool,
    ephemeralIpPool: string,
    userDataFile: string,
    sshPublicKeys: seq<string>,
    antiAffinityGroups: seq<string>,
    additionalDisks: seq<AdditionalDisk>,
    userAgent: string)

  /** `createOxideClient`'s options: host and token, and the user agent only when one is set. */
  function ClientOptions(host: string, token: string, userAgent: string): (opts: seq<ClientOption>)
    ensures |opts| >= 2 && opts[0] == WithHost(host) && opts[1] == WithToken(token)
    ensures |opts| == 3 <==> userAgent != ""
    ensures |opts| <= 3 && (|opts| == 3 ==> opts[2] == WithUserAgent(userAgent))
  {
    [WithHost(host), WithToken(token)] + (if userAgent != "" then [WithUserAgent(userAgent)] else [])
  }

  /** The request for the i-th additional disk. */
  function DiskRequest(d: AdditionalDisk, machineName: string, i: nat): DiskCreate
  {
    DiskCreate(DEFAULT_DESCRIPTION, Name(d, machineName, i), d.Size, BlankSource(4096))
  }

  /** The requests for the additional disks, by position. */
  function DiskRequests(disks: seq<AdditionalDisk>, machineName: string): (r: seq<DiskCreate>)
    ensures |r| == |disks|
    ensures forall i :: 0 <= i < |disks| ==> r[i] == DiskRequest(disks[i], machineName, i)
    decreases |disks|
  {
    if disks == [] then []
    else DiskRequests(disks[..|disks| - 1], machineName) + [DiskRequest(disks[|disks| - 1], machineName, |disks| - 1)]
  }

  /** The ephemeral external IP requested when `attach` is set. */
  function ExternalIps(attach: bool, pool: string): (ips: seq<ExternalIpCreate>)
    ensures |ips| <= 1 && (ips != [] <==> attach)
    ensures ips != [] && pool != "" ==> ips[0].poolSelector == ExplicitPool(pool)
    ensures ips != [] && pool == "" ==> ips[0].poolSelector == AutoPoolV4
  {
    if attach then [EphemeralIp(if pool != "" then ExplicitPool(pool) else AutoPoolV4)] else []
  }

  /** The instance-create request `Create` sends. */
  function Request(c: Config, keyId: string, userData: seq<byte>): InstanceSpec
  {
    InstanceSpec(
      antiAffinityGroups := c.antiAffinityGroups,
      bootDisk := DiskCreate(DEFAULT_DESCRIPTION, "disk-" + c.machineName, c.bootDiskSize, ImageSource(c.bootDiskImageId)),
      disks := DiskRequests(c.additionalDisks, c.machineName),
      description := DEFAULT_DESCRIPTION,
      externalIps := ExternalIps(c.ephemeralIpAttach, c.ephemeralIpPool),
      hostname := c.machineName,
      memory := c.memory,
      name := c.machineName,
      ncpus := c.vcpus,
      nics := [NicCreate(DEFAULT_DESCRIPTION, "nic-" + c.machineName, c.subnet, c.vpc, true)],
      sshPublicKeys := [keyId] + c.sshPublicKeys,
      userData := Base64Of(userData))
  }

  /**
   * What the request carries: the generated key first and then the
   * configured keys in order; one blank disk per additional disk, named by
   * its position and label, with its size, and no two named alike; one
   * ephemeral external IP iff attaching is configured, from the named pool
   * iff one is named and from the automatic IPv4 pool otherwise.
   */
  lemma RequestComposition(c: Config, keyId: string, userData: seq<byte>)
    ensures var r := Request(c, keyId, userData);
      && r.sshPublicKeys[0] == keyId && r.sshPublicKeys[1..] == c.sshPublicKeys
      && |r.disks| == |c.additionalDisks|
      && (forall i :: 0 <= i < |r.disks| ==>
            && r.disks[i].name == Name(c.additionalDisks[i], c.machineName, i)
            && r.disks[i].size == c.additionalDisks[i].Size
            && r.disks[i].source == BlankSource(4096))
      && (forall i, j :: 0 <= i < j < |r.disks| ==> r.disks[i].name != r.disks[j].name)
      && (|r.externalIps| == 1 <==> c.ephemeralIpAttach) && |r.externalIps| <= 1
      && (c.ephemeralIpAttach ==>
            (r.externalIps[0].poolSelector.ExplicitPool? <==> c.ephemeralIpPool != "")
            && (c.ephemeralIpPool != "" ==> r.externalIps[0].poolSelector.pool == c.ephemeralIpPool)
            && (c.ephemeralIpPool == "" ==> r.externalIps[0].poolSelector == AutoPoolV4))
  {
    var r := Request(c, keyId, userData);
    forall i, j | 0 <= i < j < |r.disks| ensures r.disks[i].name != r.disks[j].name {
      NamesDistinct(c.additionalDisks[i], c.additionalDisks[j], c.machineName, i, j);
    }
  }

  /** The IPv4 address of a listed interface, when its stack has one. */
  function Ipv4Of(n: Nic): (ip: Option<string>)
    ensures ip.None? <==> n.stack.StackOther?
    ensures n.stack.StackDualStack? ==> ip == Some(n.stack.v4)
  {
    match n.stack
    case StackV4(ip) => Some(ip)
    case StackDualStack(v4, _) => Some(v4)
    case StackOther => None
  }

  /** The IDs of the listed disks other than the boot disk, in list order. */
  function WithoutBootDisk(disks: seq<Disk>, bootDiskId: string): (ids: seq<string>)
    ensures |ids| <= |disks|
    decreases |disks|
  {
    if disks == [] then []
    else
      var last := disks[|disks| - 1];
      WithoutBootDisk(disks[..|disks| - 1], bootDiskId) + (if last.id == bootDiskId then [] else [last.id])
  }

  /** The IDs of a list of disks. */
  function IdsOf(disks: seq<Disk>): (ids: seq<string>)
    ensures |ids| == |disks| && forall i :: 0 <= i < |disks| ==> ids[i] == disks[i].id
  {
    seq(|disks|, i requires 0 <= i < |disks| => disks[i].id)
  }

  /** Filtering the boot disk out keeps exactly the other IDs. */
  lemma {:induction false} WithoutBootDiskMembers(disks: seq<Disk>, bootDiskId: string)
    ensures forall x :: x in WithoutBootDisk(disks, bootDiskId) <==> x != bootDiskId && x in IdsOf(disks)
    ensures bootDiskId !in IdsOf(disks) ==> WithoutBootDisk(disks, bootDiskId) == IdsOf(disks)
    decreases |disks|
  {
    if disks != [] {
      var init := disks[..|disks| - 1];
      WithoutBootDiskMembers(init, bootDiskId);
      assert IdsOf(disks) == IdsOf(init) + [disks[|disks| - 1].id];
    }
  }

  /** The outcome of `Create`: calls, error, and the values the driver stored. */
  datatype CreateRun = CreateRun(
    calls: seq<Call>,
    err: Option<Error>,
    keyId: Option<string>,
    instance: Option<Instance>,
    ip: Option<string>,
    diskIds: Option<seq<string>>)

  /** The value a run stored, or the field's previous value when the run stopped before storing it. */
  function StoredOr<T>(stored: Option<T>, previous: T): T
  {
    if stored.Some? then stored.value else previous
  }

  /** What `Create` records on the driver: the IDs `Remove` deletes, and the instance's address. */
  datatype Recorded = Recorded(keyId: string, instanceId: string, bootDiskId: string, ip: string, diskIds: seq<string>)

  /** The record after a run: each value the run stored replaces the previous one. */
  function Store(run: CreateRun, before: Recorded): Recorded
  {
    Recorded(
      StoredOr(run.keyId, before.keyId),
      if run.instance.Some? then run.instance.value.id else before.instanceId,
      if run.instance.Some? then run.instance.value.bootDiskId else before.bootDiskId,
      StoredOr(run.ip, before.ip),
      StoredOr(run.diskIds, before.diskIds))
  }

  /** A run that first makes `calls`, which all succeeded. */
  function After(calls: seq<Call>, run: CreateRun): CreateRun
  {
    run.(calls := calls + run.calls)
  }

  const NO_NICS_ERROR := Text("no valid network interfaces found")
  const NO_IPV4_ERROR := Text("no IPv4 address found on network interface")
  const DISK_LIST_PREFIX := "failed listing disks for instance: "

  /** The user data `Create` reads: nothing when no file is configured. */
  function UserDataOf(c: Config, sc: Script): Result<seq<byte>>
  {
    if c.userDataFile != "" then sc.readFile(c.userDataFile) else Ok([])
  }

  /** The error checked right after listing the interfaces. */
  function NicError(nics: Result<seq<Nic>>): (err: Option<Error>)
    ensures err.None? <==> nics.Ok? && nics.value != [] && Ipv4Of(nics.value[0]).Some?
    ensures nics.Err? ==> err == Some(nics.error)
    ensures nics.Ok? && nics.value == [] ==> err == Some(NO_NICS_ERROR)
  {
    if nics.Err? then Some(nics.error)
    else if nics.value == [] then Some(NO_NICS_ERROR)
    else if Ipv4Of(nics.value[0]).None? then Some(NO_IPV4_ERROR)
    else None
  }

  /** The error returned when listing the disks fails. */
  function DiskListError(disks: Result<seq<Disk>>): (err: Option<Error>)
    ensures err.None? <==> disks.Ok?
    ensures disks.Err? ==> Unwrap(err.value) == Some(disks.error)
  {
    if disks.Err? then Some(Wrap(DISK_LIST_PREFIX, disks.error)) else None
  }

  function ErrOf<T>(r: Result<T>): Option<Error>
  {
    if r.Err? then Some(r.error) else None
  }

  /** What the calls of `Create` that succeeded have yielded so far. */
  datatype Gathered = Gathered(keyId: string, userData: seq<byte>, instance: Instance, ip: string)

  const NOTHING_GATHERED := Gathered("", [], Instance("", ""), "")

  /**
   * The stages of `Create`: 0 makes the client if there is none, 1 uploads
   * the SSH key, 2 reads the user data, 3 creates the instance, 4 reads the
   * address of its first interface, 5 lists its disks.
   */
  const LAST_STAGE := 5

  /** A run that failed in `stage` with `e`, holding what the earlier stages stored. */
  function FailedAt(calls: seq<Call>, e: Error, stage: nat, g: Gathered): (run: CreateRun)
    ensures run.err == Some(e) && run.diskIds.None?
    ensures run.keyId.Some? <==> stage >= 2
    ensures run.instance.Some? <==> stage >= 4
    ensures run.ip.Some? <==> stage >= 5
  {
    CreateRun(calls, Some(e),
      if stage >= 2 then Some(g.keyId) else None,
      if stage >= 4 then Some(g.instance) else None,
      if stage >= 5 then Some(g.ip) else None,
      None)
  }

  /**
   * `Create` from `stage` on: make the stage's call and, if it succeeds,
   * go on to the next stage with what it yielded; the last stage records
   * the IDs of the instance's disks other than its boot disk.
   */
  ghost function CreateFrom(stage: nat, c: Config, hadClient: bool, sc: Script, g: Gathered): (r: CreateRun)
    requires stage <= LAST_STAGE
    ensures stage >= 2 ==> r.keyId == Some(g.keyId)
    ensures stage >= 4 ==> r.instance == Some(g.instance)
    ensures stage >= 5 ==> r.ip == Some(g.ip)
    decreases LAST_STAGE - stage
  {
    if stage == 0 then
      var calls := InitCalls(c.host, c.token, c.userAgent, hadClient);
      var err := InitErr(c.host, c.token, c.userAgent, hadClient, sc);
      if err.Some? then FailedAt(calls, err.value, stage, g)
      else After(calls, CreateFrom(1, c, hadClient, sc, g))
    else if stage == 1 then
      var calls := [SshKeyCreate(c.machineName, DEFAULT_DESCRIPTION)];
      match sc.sshKey
      case Err(e) => FailedAt(calls, e, stage, g)
      case Ok(keyId) => After(calls, CreateFrom(2, c, hadClient, sc, g.(keyId := keyId)))
    else if stage == 2 then
      var calls := if c.userDataFile != "" then [FileRead(c.userDataFile)] else [];
      match UserDataOf(c, sc)
      case Err(e) => FailedAt(calls, e, stage, g)
      case Ok(userData) => After(calls, CreateFrom(3, c, hadClient, sc, g.(userData := userData)))
    else if stage == 3 then
      var calls := [InstanceCreate(c.project, Request(c, g.keyId, g.userData))];
      match sc.created
      case Err(e) => FailedAt(calls, e, stage, g)
      case Ok(inst) => After(calls, CreateFrom(4, c, hadClient, sc, g.(instance := inst)))
    else if stage == 4 then
      var calls := [NicList(g.instance.id)];
      if NicError(sc.nics).Some? then FailedAt(calls, NicError(sc.nics).value, stage, g)
      else After(calls, CreateFrom(5, c, hadClient, sc, g.(ip := Ipv4Of(sc.nics.value[0]).value)))
    else
      var calls := [DiskList(g.instance.id)];
      match sc.disks
      case Err(e) => FailedAt(calls, Wrap(DISK_LIST_PREFIX, e), stage, g)
      case Ok(disks) => CreateRun(calls, None, Some(g.keyId), Some(g.instance), Some(g.ip), Some(WithoutBootDisk(disks, g.instance.bootDiskId)))
  }

  /**
   * `Create`: make the client if there is none, upload a fresh SSH key,
   * read the user data, create the instance, take the IPv4 address of its
   * first interface, and record the IDs of its disks other than the boot
   * disk. Each failure returns at once.
   */
  ghost function CreateSpec(c: Config, hadClient: bool, sc: Script): CreateRun
  {
    CreateFrom(0, c, hadClient, sc, NOTHING_GATHERED)
  }

  /** The first stage: getting a client either fails with nothing stored, or leads into the key upload. */
  lemma CreateStart(c: Config, hadClient: bool, sc: Script)
    ensures var e := InitErr(c.host, c.token, c.userAgent, hadClient, sc);
      var calls := InitCalls(c.host, c.token, c.userAgent, hadClient);
      CreateSpec(c, hadClient, sc) ==
        if e.Some? then CreateRun(calls, e, None, None, None, None)
        else After(calls, CreateFrom(1, c, hadClient, sc, NOTHING_GATHERED))
  {
  }

  /**
   * The same calls as a flat list of steps, each with the error it is
   * followed by; a value that an earlier failure leaves undefined is a
   * default, as the calls using it are never made.
   */
  ghost function StepsFrom(stage: nat, c: Config, hadClient: bool, sc: Script, g: Gathered): seq<Orchestration.Step>
    requires stage <= LAST_STAGE
    decreases LAST_STAGE - stage
  {
    if stage == 0 then
      InitSteps(c.host, c.token, c.userAgent, hadClient, sc) + StepsFrom(1, c, hadClient, sc, g)
    else if stage == 1 then
      var keyId := if sc.sshKey.Ok? then sc.sshKey.value else "";
      [Orchestration.Step(SshKeyCreate(c.machineName, DEFAULT_DESCRIPTION), ErrOf(sc.sshKey))] +
      StepsFrom(2, c, hadClient, sc, g.(keyId := keyId))
    else if stage == 2 then
      var userData := if UserDataOf(c, sc).Ok? then UserDataOf(c, sc).value else [];
      (if c.userDataFile != "" then [Orchestration.Step(FileRead(c.userDataFile), ErrOf(UserDataOf(c, sc)))] else []) +
      StepsFrom(3, c, hadClient, sc, g.(userData := userData))
    else if stage == 3 then
      var inst := if sc.created.Ok? then sc.created.value else Instance("", "");
      [Orchestration.Step(InstanceCreate(c.project, Request(c, g.keyId, g.userData)), ErrOf(sc.created))] +
      StepsFrom(4, c, hadClient, sc, g.(instance := inst))
    else if stage == 4 then
      var ip := if NicError(sc.nics).None? then Ipv4Of(sc.nics.value[0]).value else "";
      [Orchestration.Step(NicList(g.instance.id), NicError(sc.nics))] + StepsFrom(5, c, hadClient, sc, g.(ip := ip))
    else
      [Orchestration.Step(DiskList(g.instance.id), DiskListError(sc.disks))]
  }

  ghost function CreateSteps(c: Config, hadClient: bool, sc: Script): seq<Orchestration.Step>
  {
    StepsFrom(0, c, hadClient, sc, NOTHING_GATHERED)
  }

  /** Same calls and error: a run and a list of steps. */
  ghost predicate SameRun(run: CreateRun, steps: seq<Orchestration.Step>)
  {
    var ff := Orchestration.FailFast(steps);
    run.calls == ff.calls && run.err == ff.err
  }

  /** Each stage of `Create` fails fast over the steps that remain. */
  lemma {:induction false} CreateFromFailsFast(stage: nat, c: Config, hadClient: bool, sc: Script, g: Gathered)
    requires stage <= LAST_STAGE
    ensures SameRun(CreateFrom(stage, c, hadClient, sc, g), StepsFrom(stage, c, hadClient, sc, g))
    decreases LAST_STAGE - stage
  {
    if stage == 0 {
      var init := InitSteps(c.host, c.token, c.userAgent, hadClient, sc);
      CreateFromFailsFast(1, c, hadClient, sc, g);
      Orchestration.FailFastAppend(init, StepsFrom(1, c, hadClient, sc, g));
      InitRun(c.host, c.token, c.userAgent, hadClient, sc);
      Orchestration.FailFastShape(init);
    } else if stage == 1 {
      var keyId := if sc.sshKey.Ok? then sc.sshKey.value else "";
      CreateFromFailsFast(2, c, hadClient, sc, g.(keyId := keyId));
      Orchestration.FailFastAppend([Orchestration.Step(SshKeyCreate(c.machineName, DEFAULT_DESCRIPTION), ErrOf(sc.sshKey))],
        StepsFrom(2, c, hadClient, sc, g.(keyId := keyId)));
    } else if stage == 2 {
      var userData := if UserDataOf(c, sc).Ok? then UserDataOf(c, sc).value else [];
      var head := if c.userDataFile != "" then [Orchestration.Step(FileRead(c.userDataFile), ErrOf(UserDataOf(c, sc)))] else [];
      CreateFromFailsFast(3, c, hadClient, sc, g.(userData := userData));
      Orchestration.FailFastAppend(head, StepsFrom(3, c, hadClient, sc, g.(userData := userData)));
    } else {
      InstanceStagesFailFast(stage, c, hadClient, sc, g);
    }
  }

  /** The stages from creating the instance on fail fast over the steps that remain. */
  lemma {:induction false} InstanceStagesFailFast(stage: nat, c: Config, hadClient: bool, sc: Script, g: Gathered)
    requires 3 <= stage <= LAST_STAGE
    ensures SameRun(CreateFrom(stage, c, hadClient, sc, g), StepsFrom(stage, c, hadClient, sc, g))
    decreases LAST_STAGE - stage
  {
    if stage == 3 {
      var inst := if sc.created.Ok? then sc.created.value else Instance("", "");
      InstanceStagesFailFast(4, c, hadClient, sc, g.(instance := inst));
      Orchestration.FailFastAppend([Orchestration.Step(InstanceCreate(c.project, Request(c, g.keyId, g.userData)), ErrOf(sc.created))],
        StepsFrom(4, c, hadClient, sc, g.(instance := inst)));
    } else if stage == 4 {
      var ip := if NicError(sc.nics).None? then Ipv4Of(sc.nics.value[0]).value else "";
      InstanceStagesFailFast(5, c, hadClient, sc, g.(ip := ip));
      Orchestration.FailFastAppend([Orchestration.Step(NicList(g.instance.id), NicError(sc.nics))], StepsFrom(5, c, hadClient, sc, g.(ip := ip)));
    } else {
      var last := Orchestration.Step(DiskList(g.instance.id), DiskListError(sc.disks));
      assert [last][1..] == [];
    }
  }

  /**
   * `Create` fails fast: its calls and error are those of making its calls
   * in order and stopping at the first failure. So it succeeds iff every
   * call does, and a failing call is always its last.
   */
  lemma CreateFailsFast(c: Config, hadClient: bool, sc: Script)
    ensures SameRun(CreateSpec(c, hadClient, sc), CreateSteps(c, hadClient, sc))
  {
    CreateFromFailsFast(0, c, hadClient, sc, NOTHING_GATHERED);
  }

  /** Every call of `Create` up to and including the instance creation succeeds. */
  predicate InstanceMade(c: Config, hadClient: bool, sc: Script)
  {
    InitErr(c.host, c.token, c.userAgent, hadClient, sc).None? && sc.sshKey.Ok? && UserDataOf(c, sc).Ok? && sc.created.Ok?
  }

  /**
   * What `Create` records: the key ID once the key is uploaded; the
   * instance (its ID and boot-disk ID) once it is created; the address of
   * the first interface, which must exist and have an IPv4 address; and the
   * IDs of the listed disks other than the boot disk. It succeeds iff every
   * call does, and then it has recorded all of them.
   */
  lemma CreateRecords(c: Config, hadClient: bool, sc: Script)
    ensures var r := CreateSpec(c, hadClient, sc);
      && (r.keyId.Some? <==> InitErr(c.host, c.token, c.userAgent, hadClient, sc).None? && sc.sshKey.Ok?)
      && (r.keyId.Some? ==> r.keyId == Some(sc.sshKey.value))
      && (r.instance.Some? <==> InstanceMade(c, hadClient, sc))
      && (r.instance.Some? ==> r.instance == Some(sc.created.value))
      && (InstanceMade(c, hadClient, sc) && sc.nics == Ok([]) ==> r.err == Some(NO_NICS_ERROR) && r.ip.None?)
      && (r.ip.Some? <==> InstanceMade(c, hadClient, sc) && NicError(sc.nics).None?)
      && (r.ip.Some? ==> r.ip == Ipv4Of(sc.nics.value[0]))
      && (r.err.None? <==> r.ip.Some? && sc.disks.Ok?)
      && (r.err.None? ==> r.diskIds == Some(WithoutBootDisk(sc.disks.value, sc.created.value.bootDiskId)))
      && (r.err.Some? ==> r.diskIds.None?)
  {
    var g0 := NOTHING_GATHERED;
    if InitErr(c.host, c.token, c.userAgent, hadClient, sc).Some? {
      return;
    }
    assert CreateFrom(0, c, hadClient, sc, g0).err == CreateFrom(1, c, hadClient, sc, g0).err;
    if sc.sshKey.Err? {
      return;
    }
    var g1 := g0.(keyId := sc.sshKey.value);
    if UserDataOf(c, sc).Err? {
      assert CreateFrom(2, c, hadClient, sc, g1).instance.None?;
      return;
    }
    var g2 := g1.(userData := UserDataOf(c, sc).value);
    assert CreateFrom(2, c, hadClient, sc, g1).err == CreateFrom(3, c, hadClient, sc, g2).err;
    if sc.created.Err? {
      assert CreateFrom(3, c, hadClient, sc, g2).instance.None?;
      return;
    }
    var g3 := g2.(instance := sc.created.value);
    assert CreateFrom(3, c, hadClient, sc, g2).err == CreateFrom(4, c, hadClient, sc, g3).err;
    if NicError(sc.nics).Some? {
      assert CreateFrom(4, c, hadClient, sc, g3).ip.None?;
      return;
    }
    var g4 := g3.(ip := Ipv4Of(sc.nics.value[0]).value);
    assert CreateFrom(4, c, hadClient, sc, g3).err == CreateFrom(5, c, hadClient, sc, g4).err;
  }

  // ---------------------------------------------------------------------------
  // GetState, Start, Stop, Restart and Remove.

  /** The calls `GetState` makes, the state it returns and its error. */
  datatype StateRead = StateRead(calls: seq<Call>, state: Rancher.MachineState, err: Option<Error>)

  /**
   * `GetState`: get a client if there is none, then view the instance (the
   * `v`-th view call) and map its run state. Every failure comes with the
   * state `None`.
   */
  function GetStateSpec(host: string, token: string, userAgent: string, instanceId: string, hadClient: bool, sc: Script, v: nat): (r: StateRead)
    ensures r.err.Some? ==> r.state == Rancher.None
    ensures r.err.None? <==> InitErr(host, token, userAgent, hadClient, sc).None? && sc.views(v).Ok?
    ensures r.err.None? ==> r.state == ToRancherMachineState(sc.views(v).value)
    ensures InitErr(host, token, userAgent, hadClient, sc).None? && sc.views(v).Err? ==> r.err == Some(sc.views(v).error)
    ensures InitErr(host, token, userAgent, hadClient, sc).None? ==> r.calls == InitCalls(host, token, userAgent, hadClient) + [InstanceView(instanceId)]
  {
    var calls := InitCalls(host, token, userAgent, hadClient);
    var initErr := InitErr(host, token, userAgent, hadClient, sc);
    if initErr.Some? then StateRead(calls, Rancher.None, initErr)
    else
      match Orchestration.StateAnswer(ToRancherMachineState, sc.views(v))
      case Err(e) => StateRead(calls + [InstanceView(instanceId)], Rancher.None, Some(e))
      case Ok(state) => StateRead(calls + [InstanceView(instanceId)], state, None)
  }

  /** The calls and error of `GetState` are those of a fail-fast run of its calls. */
  lemma GetStateFailsFast(host: string, token: string, userAgent: string, instanceId: string, hadClient: bool, sc: Script, v: nat)
    ensures var r := GetStateSpec(host, token, userAgent, instanceId, hadClient, sc, v);
      Orchestration.FailFast(InitSteps(host, token, userAgent, hadClient, sc) + [Orchestration.Step(InstanceView(instanceId), ErrOf(sc.views(v)))])
        == Orchestration.Run(r.calls, r.err)
  {
    var step := Orchestration.Step(InstanceView(instanceId), ErrOf(sc.views(v)));
    Orchestration.FailFastAppend(InitSteps(host, token, userAgent, hadClient, sc), [step]);
    InitRun(host, token, userAgent, hadClient, sc);
    Orchestration.FailFastShape(InitSteps(host, token, userAgent, hadClient, sc));
    assert [step][1..] == [];
  }

  /**
   * `Start`, `Stop` and `Restart`: get a client if there is none, then make
   * one call, unless getting the client failed.
   */
  function ClientThen(host: string, token: string, userAgent: string, hadClient: bool, sc: Script, step: Orchestration.Step): (run: Orchestration.Run)
    ensures run.err.None? <==> InitErr(host, token, userAgent, hadClient, sc).None? && step.err.None?
    ensures InitErr(host, token, userAgent, hadClient, sc).Some? ==> run.calls == InitCalls(host, token, userAgent, hadClient)
    ensures InitErr(host, token, userAgent, hadClient, sc).None? ==> run.calls == InitCalls(host, token, userAgent, hadClient) + [step.call]
  {
    var initErr := InitErr(host, token, userAgent, hadClient, sc);
    var init := InitCalls(host, token, userAgent, hadClient);
    if initErr.Some? then Orchestration.Run(init, initErr) else Orchestration.Run(init + [step.call], step.err)
  }

  /**
   * Getting a client and then making one call fails fast: the run fails iff
   * getting the client or the call fails, and the call is made iff there
   * is a client.
   */
  lemma ClientThenFailsFast(host: string, token: string, userAgent: string, hadClient: bool, sc: Script, step: Orchestration.Step)
    ensures Orchestration.FailFast(InitSteps(host, token, userAgent, hadClient, sc) + [step]) ==
      ClientThen(host, token, userAgent, hadClient, sc, step)
    ensures var run := ClientThen(host, token, userAgent, hadClient, sc, step);
      run.err.None? <==> InitErr(host, token, userAgent, hadClient, sc).None? && step.err.None?
  {
    var init := InitSteps(host, token, userAgent, hadClient, sc);
    Orchestration.FailFastAppend(init, [step]);
    InitRun(host, token, userAgent, hadClient, sc);
    Orchestration.FailFastShape(init);
    assert [step][1..] == [];
  }

  /** `context.DeadlineExceeded` wrapped with `%w`. */
  const STOP_TIMEOUT_ERROR := Wrap("timed out waiting for instance to stop: ", Text("context deadline exceeded"))

  /** Deleting the additional disks, in order. */
  function DiskDeletes(diskIds: seq<string>, sc: Script): (steps: seq<Orchestration.Step>)
    ensures |steps| == |diskIds|
    ensures forall i :: 0 <= i < |diskIds| ==> steps[i] == Orchestration.Step(DiskDelete(diskIds[i]), sc.diskDeleteErr(diskIds[i]))
  {
    seq(|diskIds|, i requires 0 <= i < |diskIds| => Orchestration.Step(DiskDelete(diskIds[i]), sc.diskDeleteErr(diskIds[i])))
  }

  /** The first three deletions: key, instance, boot disk. */
  function FixedDeletes(ids: Recorded, sc: Script): (steps: seq<Orchestration.Step>)
    ensures |steps| == 3
    ensures Orchestration.FailFast(steps).err.None? <==>
      sc.keyDeleteErr.None? && sc.instanceDeleteErr.None? && sc.diskDeleteErr(ids.bootDiskId).None?
  {
    var steps :=
      [Orchestration.Step(SshKeyDelete(ids.keyId), sc.keyDeleteErr),
       Orchestration.Step(InstanceDelete(ids.instanceId), sc.instanceDeleteErr),
       Orchestration.Step(DiskDelete(ids.bootDiskId), sc.diskDeleteErr(ids.bootDiskId))];
    Orchestration.CallsOfThree(steps);
    steps
  }

  /** The deletions `Remove` makes once the instance is stopped: key, instance, boot disk, additional disks. */
  function DeleteSteps(ids: Recorded, sc: Script): (steps: seq<Orchestration.Step>)
    ensures |steps| == 3 + |ids.diskIds|
  {
    FixedDeletes(ids, sc) + DiskDeletes(ids.diskIds, sc)
  }

  /**
   * `Remove` once the instance has been told to stop: read its state until
   * it shows stopped (a failed read aborts; once `deadline` reads have been
   * made the wait times out), then make the deletions, stopping at the first
   * failure. `v0` is the number of view calls made before.
   */
  ghost function StoppedRemoval(ids: Recorded, sc: Script, v0: nat, deadline: nat): Orchestration.Run
  {
    var w := Orchestration.StopWait(ToRancherMachineState, sc, v0, deadline);
    var views := Orchestration.Repeat([InstanceView(ids.instanceId)], w.polls);
    match w.outcome
    case TimedOut => Orchestration.Run(views, Some(STOP_TIMEOUT_ERROR))
    case Aborted(e) => Orchestration.Run(views, Some(e))
    case Observed =>
      var del := Orchestration.FailFast(DeleteSteps(ids, sc));
      Orchestration.Run(views + del.calls, del.err)
  }

  /**
   * `Remove`: get a client if there is none and stop the instance, then
   * wait for it to stop and delete what `Create` made.
   */
  ghost function RemoveSpec(host: string, token: string, userAgent: string, ids: Recorded, hadClient: bool, sc: Script, v0: nat, deadline: nat): Orchestration.Run
  {
    var pre := ClientThen(host, token, userAgent, hadClient, sc, Orchestration.Step(InstanceStop(ids.instanceId), sc.stopErr));
    if pre.err.Some? then pre
    else
      var rest := StoppedRemoval(ids, sc, v0, deadline);
      Orchestration.Run(pre.calls + rest.calls, rest.err)
  }

  /**
   * The state reads `Remove` makes: none when getting the client or the stop
   * fails, otherwise those of the wait.
   */
  function RemovePolls(host: string, token: string, userAgent: string, hadClient: bool, sc: Script, v0: nat, deadline: nat): (n: nat)
    ensures n <= deadline
    ensures n > 0 ==> InitErr(host, token, userAgent, hadClient, sc).None? && sc.stopErr.None?
  {
    if InitErr(host, token, userAgent, hadClient, sc).Some? || sc.stopErr.Some? then 0
    else Orchestration.StopWait(ToRancherMachineState, sc, v0, deadline).polls
  }

  /** The calls deleting the given disks, in order. */
  function DiskDeleteCalls(diskIds: seq<string>): (calls: seq<Call>)
    ensures |calls| == |diskIds|
    ensures forall i :: 0 <= i < |diskIds| ==> calls[i] == DiskDelete(diskIds[i])
  {
    seq(|diskIds|, i requires 0 <= i < |diskIds| => DiskDelete(diskIds[i]))
  }

  /**
   * A wait that does not see the instance stopped deletes nothing: the run
   * only reads the state, and fails with the timeout error after exactly
   * `deadline` reads, or with the error of the read that failed, which is
   * the last one made.
   */
  lemma RemovalWithoutStop(ids: Recorded, sc: Script, v0: nat, deadline: nat)
    ensures var w := Orchestration.StopWait(ToRancherMachineState, sc, v0, deadline);
      var r := StoppedRemoval(ids, sc, v0, deadline);
      !w.outcome.Observed? ==>
        && (forall call :: call in r.calls ==> call == InstanceView(ids.instanceId))
        && |r.calls| == w.polls
        && (w.outcome.TimedOut? ==> w.polls == deadline && r.err == Some(STOP_TIMEOUT_ERROR))
        && (w.outcome.Aborted? ==>
              0 < w.polls && r.err == Some(w.outcome.error) && Orchestration.StateAnswer(ToRancherMachineState, sc.views(v0 + w.polls - 1)) == Err(w.outcome.error))
  {
    var poll := Orchestration.Poll(ToRancherMachineState, sc, v0, deadline);
    var w := Orchestration.Wait(poll, Rancher.Stopped, deadline);
    Orchestration.WaitShape(poll, Rancher.Stopped, 0, deadline);
    Orchestration.RepeatOne(InstanceView(ids.instanceId), w.polls);
    if w.outcome.Aborted? {
      assert poll[w.polls - 1] == Orchestration.StateAnswer(ToRancherMachineState, sc.views(v0 + (w.polls - 1)));
    }
  }

  /** An instance that never shows stopped within the deadline: `deadline` reads, then the timeout error. */
  lemma RemovalTimesOut(ids: Recorded, sc: Script, v0: nat, deadline: nat)
    requires forall v :: v0 <= v < v0 + deadline ==> Orchestration.Continues(Orchestration.StateAnswer(ToRancherMachineState, sc.views(v)), Rancher.Stopped)
    ensures StoppedRemoval(ids, sc, v0, deadline) ==
      Orchestration.Run(Orchestration.Repeat([InstanceView(ids.instanceId)], deadline), Some(STOP_TIMEOUT_ERROR))
  {
    Orchestration.PollTimesOut(ToRancherMachineState, sc, v0, deadline);
  }

  /** With every deletion succeeding, the deletions make all their calls, in order, and no error. */
  lemma DeletionsSucceed(ids: Recorded, sc: Script)
    requires sc.keyDeleteErr.None? && sc.instanceDeleteErr.None?
    requires forall id :: id == ids.bootDiskId || id in ids.diskIds ==> sc.diskDeleteErr(id).None?
    ensures Orchestration.FailFast(DeleteSteps(ids, sc)) ==
      Orchestration.Run([SshKeyDelete(ids.keyId), InstanceDelete(ids.instanceId), DiskDelete(ids.bootDiskId)] + DiskDeleteCalls(ids.diskIds), None)
  {
    var steps := DeleteSteps(ids, sc);
    forall i | 0 <= i < |steps| ensures steps[i].err.None? {
      if i >= 3 {
        assert steps[i] == DiskDeletes(ids.diskIds, sc)[i - 3];
        assert ids.diskIds[i - 3] in ids.diskIds;
      }
    }
    Orchestration.FailFastAllSucceed(steps);
    assert Orchestration.CallsOf(steps) == [SshKeyDelete(ids.keyId), InstanceDelete(ids.instanceId), DiskDelete(ids.bootDiskId)] + DiskDeleteCalls(ids.diskIds);
  }

  /**
   * An instance seen stopped at read n, with every deletion succeeding:
   * n + 1 reads, then the key, the instance, the boot disk and each
   * additional disk in order, and no error.
   */
  lemma RemovalDeletesAll(ids: Recorded, sc: Script, v0: nat, n: nat, deadline: nat)
    requires n < deadline
    requires forall v :: v0 <= v < v0 + n ==> Orchestration.Continues(Orchestration.StateAnswer(ToRancherMachineState, sc.views(v)), Rancher.Stopped)
    requires Orchestration.StateAnswer(ToRancherMachineState, sc.views(v0 + n)) == Ok(Rancher.Stopped)
    requires sc.keyDeleteErr.None? && sc.instanceDeleteErr.None?
    requires forall id :: id == ids.bootDiskId || id in ids.diskIds ==> sc.diskDeleteErr(id).None?
    ensures StoppedRemoval(ids, sc, v0, deadline) ==
      Orchestration.Run(
        Orchestration.Repeat([InstanceView(ids.instanceId)], n + 1)
          + ([SshKeyDelete(ids.keyId), InstanceDelete(ids.instanceId), DiskDelete(ids.bootDiskId)] + DiskDeleteCalls(ids.diskIds)),
        None)
  {
    Orchestration.PollObserves(ToRancherMachineState, sc, v0, n, deadline);
    DeletionsSucceed(ids, sc);
  }

  /**
   * Once the instance is seen stopped, the deletions fail fast: the calls
   * after the reads are a prefix of key, instance, boot disk and additional
   * disks; the removal succeeds iff every deletion does; a failing removal
   * stops at its first failing deletion and returns that deletion's error.
   */
  lemma RemovalFailsFast(ids: Recorded, sc: Script, v0: nat, deadline: nat)
    ensures var w := Orchestration.StopWait(ToRancherMachineState, sc, v0, deadline);
      var r := StoppedRemoval(ids, sc, v0, deadline);
      var steps := DeleteSteps(ids, sc);
      w.outcome.Observed? ==>
        && w.polls <= |r.calls|
        && r.calls[..w.polls] == Orchestration.Repeat([InstanceView(ids.instanceId)], w.polls)
        && var deleted := r.calls[w.polls..];
        && deleted == Orchestration.CallsOf(steps[..|deleted|])
        && (r.err.None? <==> forall i :: 0 <= i < |steps| ==> steps[i].err.None?)
        && (r.err.Some? ==> 0 < |deleted| && r.err == steps[|deleted| - 1].err)
        && (forall i :: 0 <= i < |deleted| - 1 ==> steps[i].err.None?)
  {
    var w := Orchestration.StopWait(ToRancherMachineState, sc, v0, deadline);
    if w.outcome.Observed? {
      var views := Orchestration.Repeat([InstanceView(ids.instanceId)], w.polls);
      var del := Orchestration.FailFast(DeleteSteps(ids, sc));
      Orchestration.RepeatOne(InstanceView(ids.instanceId), w.polls);
      Orchestration.FailFastShape(DeleteSteps(ids, sc));
      assert (views + del.calls)[..w.polls] == views;
      assert (views + del.calls)[w.polls..] == del.calls;
    }
  }

  /**
   * `Remove` succeeds iff getting the client, stopping the instance, seeing
   * it stopped within the deadline and every deletion succeed.
   */
  lemma RemoveSucceeds(host: string, token: string, userAgent: string, ids: Recorded, hadClient: bool, sc: Script, v0: nat, deadline: nat)
    ensures RemoveSpec(host, token, userAgent, ids, hadClient, sc, v0, deadline).err.None? <==>
      && InitErr(host, token, userAgent, hadClient, sc).None?
      && sc.stopErr.None?
      && Orchestration.StopWait(ToRancherMachineState, sc, v0, deadline).outcome.Observed?
      && forall i :: 0 <= i < |DeleteSteps(ids, sc)| ==> DeleteSteps(ids, sc)[i].err.None?
  {
    ClientThenFailsFast(host, token, userAgent, hadClient, sc, Orchestration.Step(InstanceStop(ids.instanceId), sc.stopErr));
    RemovalFailsFast(ids, sc, v0, deadline);
  }

  /** `append(acc, xs...)` one element at a time, as the request's key and group lists are built. */
  method AppendAll(acc: seq<string>, xs: seq<string>) returns (r: seq<string>)
    ensures r == acc + xs
  {
    r := acc;
    for i := 0 to |xs|
      invariant r == acc + xs[..i]
    {
      r := r + [xs[i]];
    }
    assert xs[..|xs|] == xs;
  }

  /** The additional-disk requests, filled in by position. */
  method BuildDiskRequests(disks: seq<AdditionalDisk>, machineName: string) returns (r: seq<DiskCreate>)
    ensures r == DiskRequests(disks, machineName)
  {
    r := [];
    for i := 0 to |disks|
      invariant r == DiskRequests(disks[..i], machineName)
    {
      assert disks[..i + 1][..i] == disks[..i];
      r := r + [DiskRequest(disks[i], machineName, i)];
    }
    assert disks[..|disks|] == disks;
  }

  /** The loop over the listed disks that skips the boot disk. */
  method CollectAdditionalDiskIds(disks: seq<Disk>, bootDiskId: string) returns (ids: seq<string>)
    ensures ids == WithoutBootDisk(disks, bootDiskId)
  {
    ids := [];
    for i := 0 to |disks|
      invariant ids == WithoutBootDisk(disks[..i], bootDiskId)
    {
      assert disks[..i + 1][..i] == disks[..i];
      if disks[i].id == bootDiskId {
        continue;
      }
      ids := ids + [disks[i].id];
    }
    assert disks[..|disks|] == disks;
  }

  // ---------------------------------------------------------------------------
  // The driver.

  /**
   * The driver's state: the configuration read from the flags, the IDs and
   * address recorded by `Create`, and whether the API client has been made
   * (`oxideClient != nil`). The client itself is `platform`.
   */
  class Driver {
    const MachineName: string
    const platform: Platform

    var Host: string
    var Token: string
    var Project: string
    var VCPUS: int
    var Memory: uint64
    var BootDiskSize: uint64
    var BootDiskImageID: string
    var VPC: string
    var Subnet: string
    var EphemeralIPAttach: bool
    var EphemeralIPPool: string
    var UserDataFile: string
    var SSHPublicKeys: seq<string>
    var AntiAffinityGroups: seq<string>
    var AdditionalDisks: seq<AdditionalDisk>
    var UserAgent: string
    var InstanceID: string
    var BootDiskID: string
    var SSHPublicKeyID: string
    var AdditionalDiskIDs: seq<string>
    var SSHUser: string
    var SSHPort: int
    var IPAddress: string
    var hasClient: bool

    /**
     * `newDriver`: the default SSH user and port, no client, and every other
     * field at Go's zero value, so nothing is configured or recorded.
     */
    constructor (machineName: string, platform: Platform)
      ensures MachineName == machineName && this.platform == platform
      ensures SSHUser == DEFAULT_SSH_USER && SSHPort == DEFAULT_SSH_PORT && !hasClient
      ensures Snapshot() == Config(machineName, "", "", "", 0, 0, 0, "", "", "", false, "", "", [], [], [], "")
      ensures Ids() == Recorded("", "", "", "", [])
    {
      MachineName := machineName;
      this.platform := platform;
      Host, Token, Project := "", "", "";
      VCPUS, Memory, BootDiskSize := 0, 0, 0;
      BootDiskImageID, VPC, Subnet := "", "", "";
      EphemeralIPAttach, EphemeralIPPool := false, "";
      UserDataFile := "";
      SSHPublicKeys, AntiAffinityGroups, AdditionalDisks := [], [], [];
      UserAgent := "";
      InstanceID, BootDiskID, SSHPublicKeyID, IPAddress := "", "", "", "";
      AdditionalDiskIDs := [];
      SSHUser := DEFAULT_SSH_USER;
      SSHPort := DEFAULT_SSH_PORT;
      hasClient := false;
    }

    function Snapshot(): Config
      reads this`Host, this`Token, this`Project, this`VCPUS, this`Memory, this`BootDiskSize, this`BootDiskImageID,
        this`VPC, this`Subnet, this`EphemeralIPAttach, this`EphemeralIPPool, this`UserDataFile, this`SSHPublicKeys,
        this`AntiAffinityGroups, this`AdditionalDisks, this`UserAgent
    {
      Config(MachineName, Host, Token, Project, VCPUS, Memory, BootDiskSize, BootDiskImageID, VPC, Subnet,
        EphemeralIPAttach, EphemeralIPPool, UserDataFile, SSHPublicKeys, AntiAffinityGroups, AdditionalDisks, UserAgent)
    }

    function Plain(): PlainFlags
      reads this`Host, this`Token, this`Project, this`VCPUS, this`BootDiskImageID, this`VPC, this`Subnet,
        this`UserDataFile, this`SSHUser, this`SSHPublicKeys, this`AntiAffinityGroups,
        this`EphemeralIPAttach, this`EphemeralIPPool, this`UserAgent
    {
      PlainFlags(Host, Token, Project, VCPUS, BootDiskImageID, VPC, Subnet, UserDataFile, SSHUser,
        SSHPublicKeys, AntiAffinityGroups, EphemeralIPAttach, EphemeralIPPool, UserAgent)
    }

    function Ids(): Recorded
      reads this`SSHPublicKeyID, this`InstanceID, this`BootDiskID, this`IPAddress, this`AdditionalDiskIDs
    {
      Recorded(SSHPublicKeyID, InstanceID, BootDiskID, IPAddress, AdditionalDiskIDs)
    }

    /**
     * The `if d.oxideClient == nil` block every operation begins with: make
     * the client from the host, token and user agent unless there is one.
     */
    method EnsureClient() returns (err: Option<Error>)
      modifies this`hasClient, platform`trace
      ensures platform.trace == old(platform.trace) + InitCalls(Host, Token, UserAgent, old(hasClient))
      ensures err == InitErr(Host, Token, UserAgent, old(hasClient), platform.script)
      ensures hasClient == err.None?
    {
      err := None;
      if !hasClient {
        err := platform.NewClient(ClientOptions(Host, Token, UserAgent));
        if err.Some? {
          return;
        }
        hasClient := true;
      }
    }

    /**
     * `SetConfigFromFlags`: copy the plain flags, then fail with one
     * `RequiredFlagError` per empty required flag, before anything is parsed;
     * otherwise parse memory, boot disk size (with their defaults) and every
     * additional disk, storing each result, failures included, and fail with
     * one `FlagParseError` per failure.
     */
    method SetConfigFromFlags(opts: Rancher.Options, parseBytes: ByteParser) returns (err: Option<Error>)
      modifies this`Host, this`Token, this`Project, this`VCPUS, this`BootDiskImageID, this`VPC, this`Subnet,
        this`UserDataFile, this`SSHUser, this`SSHPublicKeys, this`AntiAffinityGroups, this`SSHPort,
        this`EphemeralIPAttach, this`EphemeralIPPool, this`UserAgent, this`Memory, this`BootDiskSize, this`AdditionalDisks
      ensures Plain() == PlainFlagsOf(opts) && SSHPort == DEFAULT_SSH_PORT
      ensures var p := PlainFlagsOf(opts); var required := RequiredError(p.host, p.token, p.project, p.bootDiskImageId);
        required.Some? ==>
          && err == required
          && Memory == old(Memory) && BootDiskSize == old(BootDiskSize) && AdditionalDisks == old(AdditionalDisks)
      ensures var p := PlainFlagsOf(opts);
        RequiredError(p.host, p.token, p.project, p.bootDiskImageId).None? ==>
          && err == JoinEach(None, ParseErrors(parseBytes, opts))
          && Memory == MemoryParsed(parseBytes, opts).value
          && BootDiskSize == BootDiskSizeParsed(parseBytes, opts).value
          && AdditionalDisks == ParsedDisks(parseBytes, DiskInputs(opts))
    {
      CopyPlainFlags(PlainFlagsOf(opts));
      err := CheckAndParse(opts, parseBytes);
    }

    /** The part of `SetConfigFromFlags` after the plain flags are copied: the required flags, then parsing. */
    method CheckAndParse(opts: Rancher.Options, parseBytes: ByteParser) returns (err: Option<Error>)
      modifies this`Memory, this`BootDiskSize, this`AdditionalDisks
      ensures var p := PlainFlagsOf(opts); var required := RequiredError(p.host, p.token, p.project, p.bootDiskImageId);
        required.Some? ==>
          && err == required
          && Memory == old(Memory) && BootDiskSize == old(BootDiskSize) && AdditionalDisks == old(AdditionalDisks)
      ensures var p := PlainFlagsOf(opts);
        RequiredError(p.host, p.token, p.project, p.bootDiskImageId).None? ==>
          && err == JoinEach(None, ParseErrors(parseBytes, opts))
          && Memory == MemoryParsed(parseBytes, opts).value
          && BootDiskSize == BootDiskSizeParsed(parseBytes, opts).value
          && AdditionalDisks == ParsedDisks(parseBytes, DiskInputs(opts))
    {
      var p := PlainFlagsOf(opts);
      err := RequiredFlagsError(p.host, p.token, p.project, p.bootDiskImageId);
      if err.Some? {
        return;
      }
      err := ParseFlags(opts, parseBytes);
    }

    /** The flags `SetConfigFromFlags` stores as they are, and the default SSH port. */
    method CopyPlainFlags(p: PlainFlags)
      modifies this`Host, this`Token, this`Project, this`VCPUS, this`BootDiskImageID, this`VPC, this`Subnet,
        this`UserDataFile, this`SSHUser, this`SSHPublicKeys, this`AntiAffinityGroups, this`SSHPort,
        this`EphemeralIPAttach, this`EphemeralIPPool, this`UserAgent
      ensures Plain() == p && SSHPort == DEFAULT_SSH_PORT
    {
      CopyApiFlags(p);
      CopyInstanceFlags(p);
      CopyAccessFlags(p);
    }

    method CopyApiFlags(p: PlainFlags)
      modifies this`Host, this`Token, this`Project, this`UserAgent
      ensures Host == p.host && Token == p.token && Project == p.project && UserAgent == p.userAgent
    {
      Host, Token, Project, UserAgent := p.host, p.token, p.project, p.userAgent;
    }

    method CopyInstanceFlags(p: PlainFlags)
      modifies this`VCPUS, this`BootDiskImageID, this`VPC, this`Subnet, this`UserDataFile
      ensures VCPUS == p.vcpus && BootDiskImageID == p.bootDiskImageId && VPC == p.vpc && Subnet == p.subnet
      ensures UserDataFile == p.userDataFile
    {
      VCPUS, BootDiskImageID, VPC, Subnet, UserDataFile := p.vcpus, p.bootDiskImageId, p.vpc, p.subnet, p.userDataFile;
    }

    method CopyAccessFlags(p: PlainFlags)
      modifies this`SSHUser, this`SSHPublicKeys, this`AntiAffinityGroups, this`SSHPort, this`EphemeralIPAttach, this`EphemeralIPPool
      ensures SSHUser == p.sshUser && SSHPublicKeys == p.sshPublicKeys && AntiAffinityGroups == p.antiAffinityGroups
      ensures SSHPort == DEFAULT_SSH_PORT && EphemeralIPAttach == p.ephemeralIpAttach && EphemeralIPPool == p.ephemeralIpPool
    {
      SSHUser, SSHPublicKeys, AntiAffinityGroups := p.sshUser, p.sshPublicKeys, p.antiAffinityGroups;
      SSHPort, EphemeralIPAttach, EphemeralIPPool := DEFAULT_SSH_PORT, p.ephemeralIpAttach, p.ephemeralIpPool;
    }

    /**
     * The parsing block of `SetConfigFromFlags`: memory and boot disk size
     * (defaulted when empty) and each additional disk in order; every result
     * is stored, failures included.
     */
    method ParseFlags(opts: Rancher.Options, parseBytes: ByteParser) returns (err: Option<Error>)
      modifies this`Memory, this`BootDiskSize, this`AdditionalDisks
      ensures err == JoinEach(None, ParseErrors(parseBytes, opts))
      ensures Memory == MemoryParsed(parseBytes, opts).value
      ensures BootDiskSize == BootDiskSizeParsed(parseBytes, opts).value
      ensures AdditionalDisks == ParsedDisks(parseBytes, DiskInputs(opts))
    {
      var parseErr: Option<Error> := None;
      ghost var es: seq<Option<Error>> := [];

      var memoryStr := opts.String(FLAG_MEMORY);
      if memoryStr == "" {
        memoryStr := DEFAULT_MEMORY;
      }
      assert memoryStr == MemoryText(opts);
      var memory := parseBytes(memoryStr);
      assert memory == MemoryParsed(parseBytes, opts);
      parseErr, es := JoinIfError(parseErr, es, SizeParseError(FLAG_MEMORY, memory));
      Memory := memory.value;

      var bootDiskSizeStr := opts.String(FLAG_BOOT_DISK_SIZE);
      if bootDiskSizeStr == "" {
        bootDiskSizeStr := DEFAULT_BOOT_DISK_SIZE;
      }
      assert bootDiskSizeStr == BootDiskSizeText(opts);
      var bootDiskSize := parseBytes(bootDiskSizeStr);
      assert bootDiskSize == BootDiskSizeParsed(parseBytes, opts);
      parseErr, es := JoinIfError(parseErr, es, SizeParseError(FLAG_BOOT_DISK_SIZE, bootDiskSize));
      BootDiskSize := bootDiskSize.value;

      assert es == SizeFlagError(FLAG_MEMORY, memory) + SizeFlagError(FLAG_BOOT_DISK_SIZE, bootDiskSize);
      var inputs := opts.StringSlice(FLAG_ADDITIONAL_DISK);
      parseErr, es := ParseAdditionalDisks(parseBytes, inputs, parseErr, es);
      assert es == ParseErrors(parseBytes, opts);
      err := parseErr;
    }

    /** The additional-disk loop of `SetConfigFromFlags`: one disk per input, and one error per failure. */
    method ParseAdditionalDisks(parseBytes: ByteParser, inputs: seq<string>, acc: Option<Error>, ghost es: seq<Option<Error>>)
      returns (acc': Option<Error>, ghost es': seq<Option<Error>>)
      requires acc == JoinEach(None, es)
      modifies this`AdditionalDisks
      ensures AdditionalDisks == ParsedDisks(parseBytes, inputs)
      ensures es' == es + DiskFlagErrors(parseBytes, inputs)
      ensures acc' == JoinEach(None, es')
    {
      acc', es' := acc, es;
      AdditionalDisks := [];
      for i := 0 to |inputs|
        invariant AdditionalDisks == ParsedDisks(parseBytes, inputs[..i])
        invariant es' == es + DiskFlagErrors(parseBytes, inputs[..i])
        invariant acc' == JoinEach(None, es')
      {
        ParsedDisksStep(parseBytes, inputs, i);
        var disk;
        disk, acc', es' := ParseDisk(parseBytes, inputs[i], acc', es');
        AdditionalDisks := AdditionalDisks + [disk];
      }
      assert inputs[..|inputs|] == inputs;
    }

    /** One round of the loop: the parsed disk, with its error joined to the others. */
    method ParseDisk(parseBytes: ByteParser, input: string, acc: Option<Error>, ghost es: seq<Option<Error>>)
      returns (disk: AdditionalDisk, acc': Option<Error>, ghost es': seq<Option<Error>>)
      requires acc == JoinEach(None, es)
      ensures disk == ParseAdditionalDisk(parseBytes, input).disk
      ensures es' == es + DiskFlagError(parseBytes, input)
      ensures acc' == JoinEach(None, es')
    {
      var r := ParseAdditionalDisk(parseBytes, input);
      acc', es' := JoinIfError(acc, es, if r.err.Some? then Some(NewFlagParseError(FLAG_ADDITIONAL_DISK, r.err.value)) else None);
      disk := r.disk;
    }


    /**
     * `Create`, proved against `CreateSpec`: the calls made, the error
     * returned, and each ID and address stored once the call that yields it
     * succeeds; a field whose call was never reached keeps its value.
     */
    method Create() returns (err: Option<Error>)
      modifies this`hasClient, this`SSHPublicKeyID, this`InstanceID, this`BootDiskID, this`IPAddress,
        this`AdditionalDiskIDs, platform`trace
      ensures var run := CreateSpec(old(Snapshot()), old(hasClient), platform.script);
        && platform.trace == old(platform.trace) + run.calls
        && err == run.err
        && hasClient == InitErr(Host, Token, UserAgent, old(hasClient), platform.script).None?
        && Ids() == Store(run, old(Ids()))
    {
      ghost var c := Snapshot();
      CreateStart(c, old(hasClient), platform.script);
      err := EnsureClient();
      if err.Some? {
        return;
      }
      ghost var init := InitCalls(Host, Token, UserAgent, old(hasClient));
      err := CreateWithClient(c, old(hasClient));
      Orchestration.AppendAssoc(old(platform.trace), init, CreateFrom(1, c, old(hasClient), platform.script, NOTHING_GATHERED).calls);
    }

    /** `Create` once the client exists: upload a fresh SSH key and go on. */
    method CreateWithClient(ghost c: Config, ghost hadClient: bool) returns (err: Option<Error>)
      requires c == Snapshot()
      modifies this`SSHPublicKeyID, this`InstanceID, this`BootDiskID, this`IPAddress, this`AdditionalDiskIDs, platform`trace
      ensures var run := CreateFrom(1, c, hadClient, platform.script, NOTHING_GATHERED);
        && platform.trace == old(platform.trace) + run.calls
        && err == run.err
        && Ids() == Store(run, old(Ids()))
    {
      var key := platform.CurrentUserSshKeyCreate(MachineName, DEFAULT_DESCRIPTION);
      if key.Err? {
        err := Some(key.error);
        return;
      }
      SSHPublicKeyID := key.value;
      err := CreateWithKey(c, hadClient, NOTHING_GATHERED.(keyId := key.value));
      ghost var rest := CreateFrom(2, c, hadClient, platform.script, NOTHING_GATHERED.(keyId := key.value));
      Orchestration.AppendAssoc(old(platform.trace), [SshKeyCreate(MachineName, DEFAULT_DESCRIPTION)], rest.calls);
    }

    /** `Create` after the key is uploaded: read the user data and go on. */
    method CreateWithKey(ghost c: Config, ghost hadClient: bool, ghost g: Gathered) returns (err: Option<Error>)
      requires c == Snapshot() && g.keyId == SSHPublicKeyID
      modifies this`InstanceID, this`BootDiskID, this`IPAddress, this`AdditionalDiskIDs, platform`trace
      ensures var run := CreateFrom(2, c, hadClient, platform.script, g);
        && platform.trace == old(platform.trace) + run.calls
        && err == run.err
        && Ids() == Store(run, old(Ids()))
    {
      var userData := ReadUserData();
      if userData.Err? {
        err := Some(userData.error);
        return;
      }
      ghost var read := if UserDataFile != "" then [FileRead(UserDataFile)] else [];
      err := LaunchInstance(userData.value, c, hadClient, g.(userData := userData.value));
      ghost var rest := CreateFrom(3, c, hadClient, platform.script, g.(userData := userData.value));
      Orchestration.AppendAssoc(old(platform.trace), read, rest.calls);
    }

    /** `Create` once the user data is read: create the instance and record its IDs. */
    method LaunchInstance(userData: seq<byte>, ghost c: Config, ghost hadClient: bool, ghost g: Gathered) returns (err: Option<Error>)
      requires c == Snapshot() && g.keyId == SSHPublicKeyID && g.userData == userData
      modifies this`InstanceID, this`BootDiskID, this`IPAddress, this`AdditionalDiskIDs, platform`trace
      ensures var run := CreateFrom(3, c, hadClient, platform.script, g);
        && platform.trace == old(platform.trace) + run.calls
        && err == run.err
        && Ids() == Store(run, old(Ids()))
    {
      var body := BuildRequest(userData);
      var instance := platform.InstanceCreateCall(Project, body);
      if instance.Err? {
        err := Some(instance.error);
        return;
      }
      InstanceID := instance.value.id;
      BootDiskID := instance.value.bootDiskId;
      err := RecordAddress(instance.value, c, hadClient, g.(instance := instance.value));
      ghost var rest := CreateFrom(4, c, hadClient, platform.script, g.(instance := instance.value));
      Orchestration.AppendAssoc(old(platform.trace), [InstanceCreate(c.project, body)], rest.calls);
    }

    /** The user data: the configured file's contents, or nothing when no file is configured. */
    method ReadUserData() returns (r: Result<seq<byte>>)
      modifies platform`trace
      ensures platform.trace == old(platform.trace) + (if UserDataFile != "" then [FileRead(UserDataFile)] else [])
      ensures r == UserDataOf(Snapshot(), platform.script)
    {
      r := Ok([]);
      if UserDataFile != "" {
        r := platform.ReadFile(UserDataFile);
      }
    }

    /**
     * The instance-create request, assembled as `Create` does: the generated
     * key before the configured ones, one blank disk per additional disk, the
     * anti-affinity groups, and the ephemeral IP when one is asked for.
     */
    method BuildRequest(userData: seq<byte>) returns (body: InstanceSpec)
      ensures body == Request(Snapshot(), SSHPublicKeyID, userData)
    {
      var sshPublicKeys := AppendAll([SSHPublicKeyID], SSHPublicKeys);
      var disks := BuildDiskRequests(AdditionalDisks, MachineName);
      var antiAffinityGroups := AppendAll([], AntiAffinityGroups);
      var externalIps: seq<ExternalIpCreate> := [];
      if EphemeralIPAttach {
        var poolSelector := if EphemeralIPPool != "" then ExplicitPool(EphemeralIPPool) else AutoPoolV4;
        externalIps := externalIps + [EphemeralIp(poolSelector)];
      }
      body := InstanceSpec(
        antiAffinityGroups := antiAffinityGroups,
        bootDisk := DiskCreate(DEFAULT_DESCRIPTION, "disk-" + MachineName, BootDiskSize, ImageSource(BootDiskImageID)),
        disks := disks,
        description := DEFAULT_DESCRIPTION,
        externalIps := externalIps,
        hostname := MachineName,
        memory := Memory,
        name := MachineName,
        ncpus := VCPUS,
        nics := [NicCreate(DEFAULT_DESCRIPTION, "nic-" + MachineName, Subnet, VPC, true)],
        sshPublicKeys := sshPublicKeys,
        userData := Base64Of(userData));
    }

    /** `Create` once the instance exists: take the IPv4 address of its first interface. */
    method RecordAddress(instance: Instance, ghost c: Config, ghost hadClient: bool, ghost g: Gathered) returns (err: Option<Error>)
      requires g.keyId == SSHPublicKeyID && g.instance == instance
      requires InstanceID == instance.id && BootDiskID == instance.bootDiskId
      modifies this`IPAddress, this`AdditionalDiskIDs, platform`trace
      ensures var run := CreateFrom(4, c, hadClient, platform.script, g);
        && platform.trace == old(platform.trace) + run.calls
        && err == run.err
        && Ids() == Store(run, old(Ids()))
    {
      var networkInterfaces := platform.InstanceNetworkInterfaceListAllPages(InstanceID);
      if networkInterfaces.Err? {
        err := Some(networkInterfaces.error);
        return;
      }
      if networkInterfaces.value == [] {
        err := Some(NO_NICS_ERROR);
        return;
      }
      var nic := networkInterfaces.value[0];
      match nic.stack {
        case StackV4(ip) => IPAddress := ip;
        case StackDualStack(v4, _) => IPAddress := v4;
        case StackOther =>
          err := Some(NO_IPV4_ERROR);
          return;
      }
      err := RecordDisks(instance, c, hadClient, g.(ip := IPAddress));
      ghost var rest := CreateFrom(5, c, hadClient, platform.script, g.(ip := Ipv4Of(nic).value));
      Orchestration.AppendAssoc(old(platform.trace), [NicList(instance.id)], rest.calls);
    }

    /** `Create`'s last stage: record the IDs of the instance's disks other than its boot disk. */
    method RecordDisks(instance: Instance, ghost c: Config, ghost hadClient: bool, ghost g: Gathered) returns (err: Option<Error>)
      requires g.keyId == SSHPublicKeyID && g.instance == instance && g.ip == IPAddress
      requires InstanceID == instance.id && BootDiskID == instance.bootDiskId
      modifies this`AdditionalDiskIDs, platform`trace
      ensures var run := CreateFrom(5, c, hadClient, platform.script, g);
        && platform.trace == old(platform.trace) + run.calls
        && err == run.err
        && Ids() == Store(run, old(Ids()))
    {
      var additionalDisks := platform.InstanceDiskListAllPages(InstanceID);
      if additionalDisks.Err? {
        err := Some(Wrap(DISK_LIST_PREFIX, additionalDisks.error));
        return;
      }
      AdditionalDiskIDs := CollectAdditionalDiskIds(additionalDisks.value, instance.bootDiskId);
      err := None;
    }

    /**
     * `GetState`, proved against `GetStateSpec`: the view call is the
     * platform's next one, and the client, once made, is kept.
     */
    method GetState() returns (state: Rancher.MachineState, err: Option<Error>)
      modifies this`hasClient, platform`trace, platform`viewCalls
      ensures var initErr := InitErr(Host, Token, UserAgent, old(hasClient), platform.script);
        var r := GetStateSpec(Host, Token, UserAgent, InstanceID, old(hasClient), platform.script, old(platform.viewCalls));
        && platform.trace == old(platform.trace) + r.calls
        && state == r.state && err == r.err
        && hasClient == initErr.None?
        && platform.viewCalls == old(platform.viewCalls) + (if initErr.None? then 1 else 0)
      ensures old(hasClient) ==> platform.trace == old(platform.trace) + [InstanceView(InstanceID)]
    {
      state := Rancher.None;
      err := EnsureClient();
      if err.Some? {
        return;
      }
      state, err := ReadState();
    }

    /**
     * The part of `GetState` after the client check: view the instance and
     * map its run state; a failed view gives state `None` and its error.
     */
    method ReadState() returns (state: Rancher.MachineState, err: Option<Error>)
      requires hasClient
      modifies platform`trace, platform`viewCalls
      ensures var a := Orchestration.StateAnswer(ToRancherMachineState, platform.script.views(old(platform.viewCalls)));
        && platform.trace == old(platform.trace) + [InstanceView(InstanceID)]
        && platform.viewCalls == old(platform.viewCalls) + 1
        && err == (if a.Err? then Some(a.error) else None)
        && state == (if a.Ok? then a.value else Rancher.None)
    {
      var instance := platform.InstanceViewCall(InstanceID);
      if instance.Err? {
        return Rancher.None, Some(instance.error);
      }
      state, err := ToRancherMachineState(instance.value), None;
    }

    /** `Start`: get a client if there is none, then start the instance. */
    method Start() returns (err: Option<Error>)
      modifies this`hasClient, platform`trace
      ensures var run := ClientThen(Host, Token, UserAgent, old(hasClient), platform.script,
          Orchestration.Step(InstanceStart(InstanceID), platform.script.startErr));
        && platform.trace == old(platform.trace) + run.calls && err == run.err
        && hasClient == InitErr(Host, Token, UserAgent, old(hasClient), platform.script).None?
    {
      err := EnsureClient();
      if err.Some? {
        return;
      }
      err := platform.InstanceStartCall(InstanceID);
    }

    /** `Stop`: get a client if there is none, then stop the instance. */
    method Stop() returns (err: Option<Error>)
      modifies this`hasClient, platform`trace
      ensures var run := ClientThen(Host, Token, UserAgent, old(hasClient), platform.script,
          Orchestration.Step(InstanceStop(InstanceID), platform.script.stopErr));
        && platform.trace == old(platform.trace) + run.calls && err == run.err
        && hasClient == InitErr(Host, Token, UserAgent, old(hasClient), platform.script).None?
      ensures old(hasClient) ==> platform.trace == old(platform.trace) + [InstanceStop(InstanceID)] && err == platform.script.stopErr
    {
      err := EnsureClient();
      if err.Some? {
        return;
      }
      err := platform.InstanceStopCall(InstanceID);
    }

    /** `Restart`: get a client if there is none, then reboot the instance. */
    method Restart() returns (err: Option<Error>)
      modifies this`hasClient, platform`trace
      ensures var run := ClientThen(Host, Token, UserAgent, old(hasClient), platform.script,
          Orchestration.Step(InstanceReboot(InstanceID), platform.script.rebootErr));
        && platform.trace == old(platform.trace) + run.calls && err == run.err
        && hasClient == InitErr(Host, Token, UserAgent, old(hasClient), platform.script).None?
    {
      err := EnsureClient();
      if err.Some? {
        return;
      }
      err := platform.InstanceRebootCall(InstanceID);
    }

    /**
     * `Remove`, proved against `RemoveSpec`. The two-minute timeout is the
     * clock's: `deadline` is the number of state reads made before it
     * expires.
     */
    method Remove(deadline: nat) returns (err: Option<Error>)
      modifies this`hasClient, platform`trace, platform`viewCalls
      ensures var run := RemoveSpec(Host, Token, UserAgent, Ids(), old(hasClient), platform.script, old(platform.viewCalls), deadline);
        platform.trace == old(platform.trace) + run.calls && err == run.err
      ensures hasClient == InitErr(Host, Token, UserAgent, old(hasClient), platform.script).None?
      ensures platform.viewCalls == old(platform.viewCalls) +
        RemovePolls(Host, Token, UserAgent, old(hasClient), platform.script, old(platform.viewCalls), deadline)
    {
      err := EnsureClient();
      if err.Some? {
        return;
      }
      ghost var init := InitCalls(Host, Token, UserAgent, old(hasClient));
      err := Stop();
      if err.Some? {
        return;
      }
      Orchestration.AppendAssoc(old(platform.trace), init, [InstanceStop(InstanceID)]);
      ghost var pre := init + [InstanceStop(InstanceID)];
      err := RemoveStopped(deadline);
      Orchestration.AppendAssoc(old(platform.trace), pre,
        StoppedRemoval(Ids(), platform.script, old(platform.viewCalls), deadline).calls);
    }

    /**
     * `Remove` once the instance has been told to stop: wait for it to stop,
     * returning the timeout or the failed read, then make the deletions.
     */
    method RemoveStopped(deadline: nat) returns (err: Option<Error>)
      requires hasClient
      modifies platform`trace, platform`viewCalls
      ensures var run := StoppedRemoval(Ids(), platform.script, old(platform.viewCalls), deadline);
        platform.trace == old(platform.trace) + run.calls && err == run.err
      ensures platform.viewCalls == old(platform.viewCalls) + Orchestration.StopWait(ToRancherMachineState, platform.script, old(platform.viewCalls), deadline).polls
    {
      var w := AwaitStopped(deadline);
      match w.outcome {
        case TimedOut =>
          err := Some(STOP_TIMEOUT_ERROR);
        case Aborted(e) =>
          err := Some(e);
        case Observed =>
          ghost var views := platform.trace[|old(platform.trace)|..];
          err := DeleteResources();
          Orchestration.AppendAssoc(old(platform.trace), views, Orchestration.FailFast(DeleteSteps(Ids(), platform.script)).calls);
      }
    }

    /**
     * The polling loop of `Remove`: before each state read the deadline is
     * checked; a failed read or the stopped state ends the loop. The client
     * already exists, so each `GetState` of the loop only reads the state.
     */
    method AwaitStopped(deadline: nat) returns (w: Orchestration.WaitResult)
      requires hasClient
      modifies platform`trace, platform`viewCalls
      ensures w == Orchestration.StopWait(ToRancherMachineState, platform.script, old(platform.viewCalls), deadline)
      ensures platform.viewCalls == old(platform.viewCalls) + w.polls
      ensures platform.trace == old(platform.trace) + Orchestration.Repeat([InstanceView(InstanceID)], w.polls)
    {
      ghost var v0 := platform.viewCalls;
      ghost var poll := Orchestration.Poll(ToRancherMachineState, platform.script, v0, deadline);
      ghost var whole := Orchestration.Wait(poll, Rancher.Stopped, deadline);
      var polls: nat := 0;
      while true
        invariant polls <= deadline
        invariant platform.viewCalls == v0 + polls
        invariant platform.trace == old(platform.trace) + Orchestration.Repeat([InstanceView(InstanceID)], polls)
        invariant Orchestration.WaitFrom(poll, Rancher.Stopped, polls, deadline) == whole
        decreases deadline - polls
      {
        if polls == deadline {
          return Orchestration.WaitResult(polls, Orchestration.TimedOut);
        }
        Orchestration.WaitAfterRead(ToRancherMachineState, platform.script, v0, polls, deadline);
        Orchestration.RepeatStep(old(platform.trace), [InstanceView(InstanceID)], polls);
        var currentState, e := ReadState();
        polls := polls + 1;
        if e.Some? {
          return Orchestration.WaitResult(polls, Orchestration.Aborted(e.value));
        }
        if currentState == Rancher.Stopped {
          return Orchestration.WaitResult(polls, Orchestration.Observed);
        }
      }
    }

    /** The deletions, key first and additional disks last, stopping at the first failure. */
    method DeleteResources() returns (err: Option<Error>)
      modifies platform`trace
      ensures var run := Orchestration.FailFast(DeleteSteps(Ids(), platform.script));
        platform.trace == old(platform.trace) + run.calls && err == run.err
    {
      ghost var fixed := FixedDeletes(Ids(), platform.script);
      Orchestration.FailFastAppend(fixed, DiskDeletes(AdditionalDiskIDs, platform.script));
      err := DeleteFixed();
      if err.Some? {
        return;
      }
      ghost var head := Orchestration.CallsOf(fixed);
      err := DeleteAdditionalDisks();
      Orchestration.AppendAssoc(old(platform.trace), head, Orchestration.FailFast(DiskDeletes(AdditionalDiskIDs, platform.script)).calls);
    }

    /** The SSH key, the instance and the boot disk, in that order, stopping at the first failure. */
    method DeleteFixed() returns (err: Option<Error>)
      modifies platform`trace
      ensures var run := Orchestration.FailFast(FixedDeletes(Ids(), platform.script));
        platform.trace == old(platform.trace) + run.calls && err == run.err
      ensures err.None? ==> platform.trace == old(platform.trace) + Orchestration.CallsOf(FixedDeletes(Ids(), platform.script))
    {
      Orchestration.CallsOfThree(FixedDeletes(Ids(), platform.script));
      err := platform.CurrentUserSshKeyDelete(SSHPublicKeyID);
      if err.Some? {
        return;
      }
      err := platform.InstanceDeleteCall(InstanceID);
      if err.Some? {
        return;
      }
      err := platform.DiskDeleteCall(BootDiskID);
    }

    /** The `range d.AdditionalDiskIDs` loop: delete each additional disk in order, returning the first error. */
    method DeleteAdditionalDisks() returns (err: Option<Error>)
      modifies platform`trace
      ensures var run := Orchestration.FailFast(DiskDeletes(AdditionalDiskIDs, platform.script));
        platform.trace == old(platform.trace) + run.calls && err == run.err
    {
      var ids := AdditionalDiskIDs;
      ghost var steps := DiskDeletes(ids, platform.script);
      for i := 0 to |ids|
        invariant platform.trace == old(platform.trace) + Orchestration.CallsOf(steps[..i])
        invariant forall j :: 0 <= j < i ==> steps[j].err.None?
      {
        err := platform.DiskDeleteCall(ids[i]);
        assert steps[i] == Orchestration.Step(DiskDelete(ids[i]), err);
        Orchestration.TraceGrows(old(platform.trace), steps, i);
        if err.Some? {
          Orchestration.FailFastAt(steps, i);
          return;
        }
      }
      assert steps[..|steps|] == steps;
      Orchestration.FailFastAllSucceed(steps);
      err := None;
    }
  }
}
