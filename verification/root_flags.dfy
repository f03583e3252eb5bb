/**
 * Flag configuration of the older root revision of the driver (flags.go):
 * every flag is read and every size parsed, and all failures, size errors
 * first and missing required flags last, are joined into one error.
 */
module RootFlags {
  import opened Wrappers
  import opened Errors
  import opened Humanize
  import opened SizeHelpers
  import Rancher

  const FLAG_HOST := "oxide-host"
  const FLAG_TOKEN := "oxide-token"
  const FLAG_PROJECT := "oxide-project"
  const FLAG_VCPUS := "oxide-vcpus"
  const FLAG_MEMORY := "oxide-memory"
  const FLAG_BOOT_DISK_SIZE := "oxide-boot-disk-size"
  const FLAG_BOOT_DISK_IMAGE_ID := "oxide-boot-disk-image-id"
  const FLAG_ADDITIONAL_DISKS_SIZES := "oxide-additional-disks-sizes"
  const FLAG_VPC := "oxide-vpc"
  const FLAG_SUBNET := "oxide-subnet"
  const FLAG_USER_DATA_FILE := "oxide-user-data-file"
  const FLAG_SSH_USER := "oxide-ssh-user"
  const FLAG_ADDITIONAL_SSH_PUBLIC_KEY_IDS := "oxide-additional-ssh-public-key-ids"

  const DEFAULT_SSH_PORT := 22

  /** `errRequiredOptionNotSet`, the prefix of each missing-flag error. */
  const ERR_REQUIRED_OPTION_NOT_SET := "required option not set: "

  function NotSet(flag: string): Error
  {
    Text(ERR_REQUIRED_OPTION_NOT_SET + flag)
  }

  /** `if value == "" { err = errors.Join(err, errors.New(errRequiredOptionNotSet + flag)) }`, as a list of what is joined. */
  function IfEmpty(value: string, flag: string): (es: seq<Option<Error>>)
    ensures Present(es) == if value == "" then [NotSet(flag)] else []
  {
    if value == "" then [Some(NotSet(flag))] else []
  }

  /** The disks parsed from the flag values, by position. */
  function DisksOf(rule: SizeRule, parseBytes: ByteParser, inputs: seq<string>): (disks: seq<AdditionalDisk>)
    ensures |disks| == |inputs|
    ensures forall i :: 0 <= i < |inputs| ==> disks[i] == NewAdditionalDiskFromFlag(rule, parseBytes, inputs[i]).disk
  {
    seq(|inputs|, i requires 0 <= i < |inputs| => NewAdditionalDiskFromFlag(rule, parseBytes, inputs[i]).disk)
  }

  /** The error (or nil) of each disk flag, in order: each is joined, nil or not. */
  function DiskErrors(rule: SizeRule, parseBytes: ByteParser, inputs: seq<string>): (es: seq<Option<Error>>)
    ensures |es| == |inputs|
    decreases |inputs|
  {
    if inputs == [] then []
    else DiskErrors(rule, parseBytes, inputs[..|inputs| - 1]) + [NewAdditionalDiskFromFlag(rule, parseBytes, inputs[|inputs| - 1]).err]
  }

  /** The error at each position is that of the flag at that position. */
  lemma {:induction false} DiskErrorsAt(rule: SizeRule, parseBytes: ByteParser, inputs: seq<string>)
    ensures forall i :: 0 <= i < |inputs| ==> DiskErrors(rule, parseBytes, inputs)[i] == NewAdditionalDiskFromFlag(rule, parseBytes, inputs[i]).err
    decreases |inputs|
  {
    if inputs != [] {
      var init := inputs[..|inputs| - 1];
      DiskErrorsAt(rule, parseBytes, init);
      forall i | 0 <= i < |init| ensures inputs[i] == init[i] { }
    }
  }

  /** The size errors: memory first, then the boot disk. */
  function SizeErrors(rule: SizeRule, parseBytes: ByteParser, opts: Rancher.Options): seq<Option<Error>>
  {
    [HumanizeSizeBy(rule, parseBytes, opts.String(FLAG_MEMORY)).err,
     HumanizeSizeBy(rule, parseBytes, opts.String(FLAG_BOOT_DISK_SIZE)).err]
  }

  /**
   * Everything `SetConfigFromFlags` joins, in order: the memory size, the
   * boot-disk size, each additional disk, then the missing required flags
   * host, token, project and image.
   */
  function ConfigErrors(rule: SizeRule, parseBytes: ByteParser, opts: Rancher.Options): seq<Option<Error>>
  {
    SizeErrors(rule, parseBytes, opts)
    + DiskErrors(rule, parseBytes, opts.StringSlice(FLAG_ADDITIONAL_DISKS_SIZES))
    + IfEmpty(opts.String(FLAG_HOST), FLAG_HOST)
    + IfEmpty(opts.String(FLAG_TOKEN), FLAG_TOKEN)
    + IfEmpty(opts.String(FLAG_PROJECT), FLAG_PROJECT)
    + IfEmpty(opts.String(FLAG_BOOT_DISK_IMAGE_ID), FLAG_BOOT_DISK_IMAGE_ID)
  }

  /** The six groups of what is joined, with what each contributes. */
  lemma PresentSix(a: seq<Option<Error>>, b: seq<Option<Error>>, c: seq<Option<Error>>,
                   d: seq<Option<Error>>, e: seq<Option<Error>>, f: seq<Option<Error>>)
    ensures Present(a + b + c + d + e + f) == Present(a) + Present(b) + Present(c) + Present(d) + Present(e) + Present(f)
  {
    PresentConcat(a + b + c + d + e, f);
    PresentConcat(a + b + c + d, e);
    PresentConcat(a + b + c, d);
    PresentConcat(a + b, c);
    PresentConcat(a, b);
  }

  lemma NoJoinsConcat(a: seq<Option<Error>>, b: seq<Option<Error>>)
    requires NoJoins(a) && NoJoins(b)
    ensures NoJoins(a + b)
  {
    forall i | 0 <= i < |a + b| && (a + b)[i].Some? ensures !(a + b)[i].value.Joined? {
      if i >= |a| {
        assert (a + b)[i] == b[i - |a|];
      }
    }
  }

  /** None of the joined errors is itself a join. */
  lemma ConfigErrorsPlain(rule: SizeRule, parseBytes: ByteParser, opts: Rancher.Options)
    ensures NoJoins(ConfigErrors(rule, parseBytes, opts))
  {
    var inputs := opts.StringSlice(FLAG_ADDITIONAL_DISKS_SIZES);
    var disks := DiskErrors(rule, parseBytes, inputs);
    DiskErrorsAt(rule, parseBytes, inputs);
    forall i | 0 <= i < |disks| && disks[i].Some? ensures !disks[i].value.Joined? {
      DiskFlagErrorPlain(rule, parseBytes, inputs[i]);
    }
    var a := SizeErrors(rule, parseBytes, opts) + disks;
    NoJoinsConcat(SizeErrors(rule, parseBytes, opts), disks);
    NoJoinsConcat(a, IfEmpty(opts.String(FLAG_HOST), FLAG_HOST));
    a := a + IfEmpty(opts.String(FLAG_HOST), FLAG_HOST);
    NoJoinsConcat(a, IfEmpty(opts.String(FLAG_TOKEN), FLAG_TOKEN));
    a := a + IfEmpty(opts.String(FLAG_TOKEN), FLAG_TOKEN);
    NoJoinsConcat(a, IfEmpty(opts.String(FLAG_PROJECT), FLAG_PROJECT));
    a := a + IfEmpty(opts.String(FLAG_PROJECT), FLAG_PROJECT);
    NoJoinsConcat(a, IfEmpty(opts.String(FLAG_BOOT_DISK_IMAGE_ID), FLAG_BOOT_DISK_IMAGE_ID));
  }

  /**
   * The joined error holds exactly the failures, in the order they were
   * found, and is nil iff nothing failed.
   */
  lemma ConfigErrorCollects(rule: SizeRule, parseBytes: ByteParser, opts: Rancher.Options)
    ensures var es := ConfigErrors(rule, parseBytes, opts);
      && Constituents(JoinEach(None, es)) == Present(es)
      && (JoinEach(None, es).None? <==> Present(es) == [])
  {
    var es := ConfigErrors(rule, parseBytes, opts);
    ConfigErrorsPlain(rule, parseBytes, opts);
    JoinEachConstituents(None, es);
    assert Constituents(None) + Present(es) == Present(es);
  }

  /** Four present errors at the end of the list are the last four constituents. */
  lemma LastFour(head: seq<Option<Error>>, a: Error, b: Error, c: Error, d: Error)
    ensures var found := Present(head + [Some(a)] + [Some(b)] + [Some(c)] + [Some(d)]);
      |found| >= 4 && found[|found| - 4..] == [a, b, c, d]
  {
    var tail := [Some(a), Some(b), Some(c), Some(d)];
    assert head + [Some(a)] + [Some(b)] + [Some(c)] + [Some(d)] == head + tail;
    PresentConcat(head, tail);
    assert Present(tail[3..]) == [d];
    assert Present(tail[2..]) == [c, d];
    assert Present(tail[1..]) == [b, c, d];
    assert Present(tail) == [a, b, c, d];
  }

  /**
   * With none of the required flags given, the joined error ends with the
   * four missing-flag errors: host, token, project, image.
   */
  lemma NothingGiven(rule: SizeRule, parseBytes: ByteParser, opts: Rancher.Options)
    requires opts.String(FLAG_HOST) == "" && opts.String(FLAG_TOKEN) == ""
    requires opts.String(FLAG_PROJECT) == "" && opts.String(FLAG_BOOT_DISK_IMAGE_ID) == ""
    ensures var found := Constituents(JoinEach(None, ConfigErrors(rule, parseBytes, opts)));
      && |found| >= 4
      && found[|found| - 4..] == [NotSet(FLAG_HOST), NotSet(FLAG_TOKEN), NotSet(FLAG_PROJECT), NotSet(FLAG_BOOT_DISK_IMAGE_ID)]
  {
    ConfigErrorCollects(rule, parseBytes, opts);
    LastFour(SizeErrors(rule, parseBytes, opts) + DiskErrors(rule, parseBytes, opts.StringSlice(FLAG_ADDITIONAL_DISKS_SIZES)),
      NotSet(FLAG_HOST), NotSet(FLAG_TOKEN), NotSet(FLAG_PROJECT), NotSet(FLAG_BOOT_DISK_IMAGE_ID));
  }

  /** Each missing-flag error reads "required option not set: " and the flag's name. */
  lemma NotSetMessage(flag: string)
    ensures Message(NotSet(flag)) == ERR_REQUIRED_OPTION_NOT_SET + flag
  {
  }

  /**
   * The call succeeds iff both sizes and every disk flag pass the size
   * helper and all four required flags are given.
   */
  lemma ConfigSucceeds(rule: SizeRule, parseBytes: ByteParser, opts: Rancher.Options)
    ensures var inputs := opts.StringSlice(FLAG_ADDITIONAL_DISKS_SIZES);
      JoinEach(None, ConfigErrors(rule, parseBytes, opts)).None? <==>
        && HumanizeSizeBy(rule, parseBytes, opts.String(FLAG_MEMORY)).err.None?
        && HumanizeSizeBy(rule, parseBytes, opts.String(FLAG_BOOT_DISK_SIZE)).err.None?
        && (forall i :: 0 <= i < |inputs| ==> NewAdditionalDiskFromFlag(rule, parseBytes, inputs[i]).err.None?)
        && opts.String(FLAG_HOST) != "" && opts.String(FLAG_TOKEN) != ""
        && opts.String(FLAG_PROJECT) != "" && opts.String(FLAG_BOOT_DISK_IMAGE_ID) != ""
  {
    var inputs := opts.StringSlice(FLAG_ADDITIONAL_DISKS_SIZES);
    var sizes := SizeErrors(rule, parseBytes, opts);
    var disks := DiskErrors(rule, parseBytes, inputs);
    ConfigErrorCollects(rule, parseBytes, opts);
    PresentSix(sizes, disks,
      IfEmpty(opts.String(FLAG_HOST), FLAG_HOST), IfEmpty(opts.String(FLAG_TOKEN), FLAG_TOKEN),
      IfEmpty(opts.String(FLAG_PROJECT), FLAG_PROJECT), IfEmpty(opts.String(FLAG_BOOT_DISK_IMAGE_ID), FLAG_BOOT_DISK_IMAGE_ID));
    DiskErrorsAt(rule, parseBytes, inputs);
    assert Present(sizes) == [] <==> sizes[0].None? && sizes[1].None?;
    assert Present(disks) == [] <==> forall i :: 0 <= i < |inputs| ==> disks[i].None?;
  }

  /**
   * Through the corrected size helper, a configuration that succeeds holds
   * sizes from 0 to one pebibyte: memory, boot disk and every additional disk.
   */
  lemma ConfigBounded(parseBytes: ByteParser, opts: Rancher.Options)
    requires JoinEach(None, ConfigErrors(Corrected, parseBytes, opts)).None?
    ensures var s := SettingsOf(Corrected, opts, parseBytes);
      && 0 <= s.memory <= PI_BYTE && 0 <= s.bootDiskSize <= PI_BYTE
      && forall i :: 0 <= i < |s.additionalDisks| ==> 0 <= s.additionalDisks[i].Size <= PI_BYTE
  {
    ConfigSucceeds(Corrected, parseBytes, opts);
  }

  /**
   * As written, a memory flag of "8 EiB", read as 2^63 bytes, configures
   * without error and stores a negative memory size.
   */
  lemma EightExbibyteMemoryConfigures(parseBytes: ByteParser, opts: Rancher.Options)
    requires opts.String(FLAG_MEMORY) == "8 EiB" && parseBytes("8 EiB") == Parsed(TWO_TO_63, None)
    requires HumanizeSize(parseBytes, opts.String(FLAG_BOOT_DISK_SIZE)).err.None?
    requires opts.StringSlice(FLAG_ADDITIONAL_DISKS_SIZES) == []
    requires opts.String(FLAG_HOST) != "" && opts.String(FLAG_TOKEN) != ""
    requires opts.String(FLAG_PROJECT) != "" && opts.String(FLAG_BOOT_DISK_IMAGE_ID) != ""
    ensures JoinEach(None, ConfigErrors(AsWritten, parseBytes, opts)) == None
    ensures SettingsOf(AsWritten, opts, parseBytes).memory == -TWO_TO_63
    ensures JoinEach(None, ConfigErrors(Corrected, parseBytes, opts)).Some?
  {
    EightExbibytesAccepted(parseBytes);
    ConfigSucceeds(AsWritten, parseBytes, opts);
    ConfigSucceeds(Corrected, parseBytes, opts);
  }

  /** One more disk flag joined: the list of what is joined grows by that flag's error. */
  lemma DiskStep(rule: SizeRule, parseBytes: ByteParser, inputs: seq<string>, i: nat, es: seq<Option<Error>>, es': seq<Option<Error>>)
    requires i < |inputs| && es' == es + DiskErrors(rule, parseBytes, inputs[..i])
    ensures var e := NewAdditionalDiskFromFlag(rule, parseBytes, inputs[i]).err;
      && es' + [e] == es + DiskErrors(rule, parseBytes, inputs[..i + 1])
      && JoinEach(None, es' + [e]) == JoinErrors([JoinEach(None, es'), e])
  {
    var e := NewAdditionalDiskFromFlag(rule, parseBytes, inputs[i]).err;
    assert inputs[..i + 1][..i] == inputs[..i];
    JoinEachSnoc(None, es', e);
  }

  /** The disk-flag loop: fill a slice of the inputs' length by index, joining each error. */
  method ParseDiskFlags(rule: SizeRule, parseBytes: ByteParser, inputs: seq<string>, acc: Option<Error>, ghost es: seq<Option<Error>>)
    returns (disks: seq<AdditionalDisk>, acc': Option<Error>, ghost es': seq<Option<Error>>)
    requires acc == JoinEach(None, es)
    ensures disks == DisksOf(rule, parseBytes, inputs)
    ensures es' == es + DiskErrors(rule, parseBytes, inputs)
    ensures acc' == JoinEach(None, es')
  {
    disks := seq(|inputs|, _ => ZERO_DISK);
    acc', es' := acc, es;
    for i := 0 to |inputs|
      invariant |disks| == |inputs|
      invariant forall j :: 0 <= j < i ==> disks[j] == NewAdditionalDiskFromFlag(rule, parseBytes, inputs[j]).disk
      invariant es' == es + DiskErrors(rule, parseBytes, inputs[..i])
      invariant acc' == JoinEach(None, es')
    {
      var r := NewAdditionalDiskFromFlag(rule, parseBytes, inputs[i]);
      disks := disks[i := r.disk];
      DiskStep(rule, parseBytes, inputs, i, es, es');
      acc', es' := JoinErrors([acc', r.err]), es' + [r.err];
    }
    assert inputs[..|inputs|] == inputs;
  }

  /**
   * The body of `SetConfigFromFlags` after the plain copies: parse the
   * memory and boot-disk sizes and each additional disk, then check the
   * required flags, joining every error on the way.
   */
  method ParseAndCheck(rule: SizeRule, opts: Rancher.Options, parseBytes: ByteParser)
    returns (memory: int, bootDiskSize: int, disks: seq<AdditionalDisk>, err: Option<Error>)
    ensures memory == HumanizeSizeBy(rule, parseBytes, opts.String(FLAG_MEMORY)).size
    ensures bootDiskSize == HumanizeSizeBy(rule, parseBytes, opts.String(FLAG_BOOT_DISK_SIZE)).size
    ensures disks == DisksOf(rule, parseBytes, opts.StringSlice(FLAG_ADDITIONAL_DISKS_SIZES))
    ensures err == JoinEach(None, ConfigErrors(rule, parseBytes, opts))
  {
    err := None;
    ghost var es: seq<Option<Error>> := [];

    var sized := HumanizeSizeBy(rule, parseBytes, opts.String(FLAG_MEMORY));
    memory := sized.size;
    JoinEachSnoc(None, es, sized.err);
    err, es := JoinErrors([err, sized.err]), es + [sized.err];

    sized := HumanizeSizeBy(rule, parseBytes, opts.String(FLAG_BOOT_DISK_SIZE));
    bootDiskSize := sized.size;
    JoinEachSnoc(None, es, sized.err);
    err, es := JoinErrors([err, sized.err]), es + [sized.err];

    assert es == SizeErrors(rule, parseBytes, opts);
    disks, err, es := ParseDiskFlags(rule, parseBytes, opts.StringSlice(FLAG_ADDITIONAL_DISKS_SIZES), err, es);

    err, es := JoinIfEmpty(opts.String(FLAG_HOST), FLAG_HOST, err, es);
    err, es := JoinIfEmpty(opts.String(FLAG_TOKEN), FLAG_TOKEN, err, es);
    err, es := JoinIfEmpty(opts.String(FLAG_PROJECT), FLAG_PROJECT, err, es);
    err, es := JoinIfEmpty(opts.String(FLAG_BOOT_DISK_IMAGE_ID), FLAG_BOOT_DISK_IMAGE_ID, err, es);
  }

  /** Everything `SetConfigFromFlags` computes, before it is stored in the driver. */
  method Configure(rule: SizeRule, opts: Rancher.Options, parseBytes: ByteParser) returns (s: Settings, err: Option<Error>)
    ensures s == SettingsOf(rule, opts, parseBytes)
    ensures err == JoinEach(None, ConfigErrors(rule, parseBytes, opts))
  {
    var memory, bootDiskSize, disks;
    memory, bootDiskSize, disks, err := ParseAndCheck(rule, opts, parseBytes);
    s := Settings(
      opts.String(FLAG_HOST), opts.String(FLAG_TOKEN), opts.String(FLAG_PROJECT), opts.Int(FLAG_VCPUS), memory, bootDiskSize,
      opts.String(FLAG_BOOT_DISK_IMAGE_ID), opts.StringSlice(FLAG_ADDITIONAL_DISKS_SIZES), disks,
      opts.String(FLAG_VPC), opts.String(FLAG_SUBNET), opts.String(FLAG_USER_DATA_FILE), opts.String(FLAG_SSH_USER),
      opts.StringSlice(FLAG_ADDITIONAL_SSH_PUBLIC_KEY_IDS), DEFAULT_SSH_PORT);
  }

  /** One required-flag check: join the missing-flag error when the value is empty. */
  method JoinIfEmpty(value: string, flag: string, acc: Option<Error>, ghost es: seq<Option<Error>>)
    returns (acc': Option<Error>, ghost es': seq<Option<Error>>)
    requires acc == JoinEach(None, es)
    ensures es' == es + IfEmpty(value, flag)
    ensures acc' == JoinEach(None, es')
  {
    if value == "" {
      JoinEachSnoc(None, es, Some(NotSet(flag)));
      acc', es' := JoinErrors([acc, Some(NotSet(flag))]), es + [Some(NotSet(flag))];
    } else {
      acc', es' := acc, es;
      assert es + [] == es;
    }
  }

  /** Everything `SetConfigFromFlags` stores in the driver. */
  datatype Settings = Settings(
    host: string,
    token: string,
    project: string,
    vcpus: int,
    memory: int,
    bootDiskSize: int,
    bootDiskImageId: string,
    additionalDiskSizesStrings: seq<string>,
    additionalDisks: seq<AdditionalDisk>,
    vpc: string,
    subnet: string,
    userDataFile: string,
    sshUser: string,
    additionalSshPublicKeyIds: seq<string>,
    sshPort: int)

  /**
   * What the driver holds after `SetConfigFromFlags`: each plain flag as
   * given, both sizes and every disk as parsed, and the default SSH port.
   */
  function SettingsOf(rule: SizeRule, opts: Rancher.Options, parseBytes: ByteParser): Settings
  {
    Settings(
      host := opts.String(FLAG_HOST),
      token := opts.String(FLAG_TOKEN),
      project := opts.String(FLAG_PROJECT),
      vcpus := opts.Int(FLAG_VCPUS),
      memory := HumanizeSizeBy(rule, parseBytes, opts.String(FLAG_MEMORY)).size,
      bootDiskSize := HumanizeSizeBy(rule, parseBytes, opts.String(FLAG_BOOT_DISK_SIZE)).size,
      bootDiskImageId := opts.String(FLAG_BOOT_DISK_IMAGE_ID),
      additionalDiskSizesStrings := opts.StringSlice(FLAG_ADDITIONAL_DISKS_SIZES),
      additionalDisks := DisksOf(rule, parseBytes, opts.StringSlice(FLAG_ADDITIONAL_DISKS_SIZES)),
      vpc := opts.String(FLAG_VPC),
      subnet := opts.String(FLAG_SUBNET),
      userDataFile := opts.String(FLAG_USER_DATA_FILE),
      sshUser := opts.String(FLAG_SSH_USER),
      additionalSshPublicKeyIds := opts.StringSlice(FLAG_ADDITIONAL_SSH_PUBLIC_KEY_IDS),
      sshPort := DEFAULT_SSH_PORT)
  }

  /** The driver's configuration in the root revision. */
  class Driver {
    var Host: string
    var Token: string
    var Project: string
    var VCPUS: int
    var Memory: int
    var BootDiskSize: int
    var BootDiskImageID: string
    var AdditionalDiskSizesStrings: seq<string>
    var AdditionalDisks: seq<AdditionalDisk>
    var VPC: string
    var Subnet: string
    var UserDataFile: string
    var SSHUser: string
    var AdditionalSSHPublicKeyIDs: seq<string>
    var SSHPort: int

    constructor ()
      ensures AdditionalDisks == [] && AdditionalDiskSizesStrings == []
    {
      AdditionalDisks := [];
      AdditionalDiskSizesStrings := [];
    }

    function Current(): Settings
      reads this
    {
      Settings(Host, Token, Project, VCPUS, Memory, BootDiskSize, BootDiskImageID, AdditionalDiskSizesStrings,
        AdditionalDisks, VPC, Subnet, UserDataFile, SSHUser, AdditionalSSHPublicKeyIDs, SSHPort)
    }

    /**
     * `SetConfigFromFlags`: store every flag, parse both sizes and each
     * additional disk, then check the required flags; the result joins
     * every failure in that order.
     */
    method SetConfigFromFlags(opts: Rancher.Options, parseBytes: ByteParser) returns (err: Option<Error>)
      modifies this`Host, this`Token, this`Project, this`VCPUS, this`Memory, this`BootDiskSize, this`BootDiskImageID, this`AdditionalDiskSizesStrings,
        this`AdditionalDisks, this`VPC, this`Subnet, this`UserDataFile, this`SSHUser, this`AdditionalSSHPublicKeyIDs, this`SSHPort
      ensures Current() == SettingsOf(AsWritten, opts, parseBytes)
      ensures err == JoinEach(None, ConfigErrors(AsWritten, parseBytes, opts))
    {
      var s;
      s, err := Configure(AsWritten, opts, parseBytes);
      Store(s);
    }

    /** The field assignments of `SetConfigFromFlags`. */
    method Store(s: Settings)
      modifies this`Host, this`Token, this`Project, this`VCPUS, this`Memory, this`BootDiskSize, this`BootDiskImageID, this`AdditionalDiskSizesStrings,
        this`AdditionalDisks, this`VPC, this`Subnet, this`UserDataFile, this`SSHUser, this`AdditionalSSHPublicKeyIDs, this`SSHPort
      ensures Current() == s
    {
      StoreApi(s);
      StoreDisks(s);
      StoreAccess(s);
    }

    /** The API settings and the instance's size. */
    method StoreApi(s: Settings)
      modifies this`Host, this`Token, this`Project, this`VCPUS, this`Memory
      ensures Host == s.host
      ensures Token == s.token
      ensures Project == s.project
      ensures VCPUS == s.vcpus
      ensures Memory == s.memory
    {
      Host := s.host;
      Token := s.token;
      Project := s.project;
      VCPUS := s.vcpus;
      Memory := s.memory;
    }

    /** The disk settings. */
    method StoreDisks(s: Settings)
      modifies this`BootDiskSize, this`BootDiskImageID, this`AdditionalDiskSizesStrings, this`AdditionalDisks
      ensures BootDiskSize == s.bootDiskSize
      ensures BootDiskImageID == s.bootDiskImageId
      ensures AdditionalDiskSizesStrings == s.additionalDiskSizesStrings
      ensures AdditionalDisks == s.additionalDisks
    {
      BootDiskSize := s.bootDiskSize;
      BootDiskImageID := s.bootDiskImageId;
      AdditionalDiskSizesStrings := s.additionalDiskSizesStrings;
      AdditionalDisks := s.additionalDisks;
    }

    /** The network and access settings. */
    method StoreAccess(s: Settings)
      modifies this`VPC, this`Subnet, this`UserDataFile, this`SSHUser, this`AdditionalSSHPublicKeyIDs, this`SSHPort
      ensures VPC == s.vpc
      ensures Subnet == s.subnet
      ensures UserDataFile == s.userDataFile
      ensures SSHUser == s.sshUser
      ensures AdditionalSSHPublicKeyIDs == s.additionalSshPublicKeyIds
      ensures SSHPort == s.sshPort
    {
      VPC := s.vpc;
      Subnet := s.subnet;
      UserDataFile := s.userDataFile;
      SSHUser := s.sshUser;
      AdditionalSSHPublicKeyIDs := s.additionalSshPublicKeyIds;
      SSHPort := s.sshPort;
    }
  }
}
