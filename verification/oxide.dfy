/**
 * The values of the newest revision of the driver (oxide.go): the default
 * settings and flag names, the mapping from Oxide run states to Rancher
 * machine states, the `SIZE[,LABEL]` disk parser and disk naming.
 */
module Oxide {
  import opened Wrappers
  import opened Errors
  import opened Api
  import opened Humanize
  import GoText
  import Rancher
  import Orchestration

  const DEFAULT_SSH_USER := "oxide"
  const DEFAULT_SSH_PORT := 22
  const DEFAULT_DESCRIPTION := "Managed by the Oxide Rancher machine driver."
  const DEFAULT_MEMORY := "4 GiB"
  const DEFAULT_BOOT_DISK_SIZE := "20 GiB"
  const DEFAULT_DISK_LABEL := "additional"

  const FLAG_HOST := "oxide-host"
  const FLAG_TOKEN := "oxide-token"
  const FLAG_PROJECT := "oxide-project"
  const FLAG_VCPUS := "oxide-vcpus"
  const FLAG_MEMORY := "oxide-memory"
  const FLAG_BOOT_DISK_SIZE := "oxide-boot-disk-size"
  const FLAG_BOOT_DISK_IMAGE_ID := "oxide-boot-disk-image-id"
  const FLAG_ADDITIONAL_DISK := "oxide-additional-disk"
  const FLAG_VPC := "oxide-vpc"
  const FLAG_SUBNET := "oxide-subnet"
  const FLAG_USER_DATA_FILE := "oxide-user-data-file"
  const FLAG_SSH_USER := "oxide-ssh-user"
  const FLAG_SSH_PUBLIC_KEY := "oxide-ssh-public-key"
  const FLAG_ANTI_AFFINITY_GROUP := "oxide-anti-affinity-group"
  const FLAG_EPHEMERAL_IP_ATTACH := "oxide-ephemeral-ip-attach"
  const FLAG_EPHEMERAL_IP_POOL := "oxide-ephemeral-ip-pool"
  const FLAG_USER_AGENT := "oxide-user-agent"

  // ---------------------------------------------------------------------------
  // State mapping.

  /**
   * `toRancherMachineState`: every Oxide run state has exactly one Rancher
   * state; each Rancher state is reached from exactly the run states listed.
   */
  function ToRancherMachineState(s: InstanceState): (r: Rancher.MachineState)
    ensures r == Rancher.Starting <==> s in {Creating, Starting, Rebooting, Repairing}
    ensures r == Rancher.Running <==> s in {Running, Migrating}
    ensures r == Rancher.Stopping <==> s == Stopping
    ensures r == Rancher.Stopped <==> s == Stopped
    ensures r == Rancher.Error <==> s == Failed
    ensures r == Rancher.NotFound <==> s == Destroyed
    ensures r == Rancher.None <==> s.Other?
  {
    match s
    case Creating | Starting | Rebooting | Repairing => Rancher.Starting
    case Running | Migrating => Rancher.Running
    case Stopping => Rancher.Stopping
    case Stopped => Rancher.Stopped
    case Failed => Rancher.Error
    case Destroyed => Rancher.NotFound
    case Other(_) => Rancher.None
  }

  /** A run-state string outside the ten known names maps to `None`. */
  lemma UnknownStateIsNone(name: string)
    requires name !in {"creating", "starting", "running", "stopping", "stopped",
                       "rebooting", "migrating", "repairing", "failed", "destroyed"}
    ensures ToRancherMachineState(ParseState(name)) == Rancher.None
  {
  }

  // ---------------------------------------------------------------------------
  // Additional disks.

  datatype AdditionalDisk = AdditionalDisk(Size: uint64, Label: string)

  /** The zero value `AdditionalDisk{}`. */
  const ZERO_DISK := AdditionalDisk(0, "")

  /** A parsed disk and the error `ParseAdditionalDisk` returned with it. */
  datatype DiskParse = DiskParse(disk: AdditionalDisk, err: Option<Error>)

  /**
   * `ParseAdditionalDisk`: `SIZE[,LABEL]`. A failure always comes with the
   * zero disk; a success always has a non-empty label without commas.
   */
  function ParseAdditionalDisk(parseBytes: ByteParser, s: string): (r: DiskParse)
    ensures r.err.Some? ==> r.disk == ZERO_DISK
    ensures r.err.None? ==> r.disk.Label != "" && ',' !in r.disk.Label
  {
    var fields := GoText.Split(s, ',');
    if |fields| > 2 then
      DiskParse(ZERO_DISK, Some(Text("invalid format " + GoText.Quote(s) + ", expected size[,label]")))
    else
      var sizeStr := fields[0];
      var diskLabel := if |fields| == 2 && fields[1] != "" then fields[1] else DEFAULT_DISK_LABEL;
      var parsed := parseBytes(sizeStr);
      if parsed.err.Some? then
        DiskParse(ZERO_DISK, Some(Wrap("failed parsing size " + GoText.Quote(sizeStr) + " ", Text(parsed.err.value))))
      else
        DiskParse(AdditionalDisk(parsed.value, diskLabel), None)
  }

  /**
   * The error for a size that does not parse: wrapped with `%w`, so
   * `errors.Unwrap` gives back the parser's error and the message ends with it.
   */
  function SizeError(sizeStr: string, msg: string): (e: Error)
    ensures Unwrap(e) == Some(Text(msg))
    ensures EndsWith(Message(e), msg)
  {
    Wrap("failed parsing size " + GoText.Quote(sizeStr) + " ", Text(msg))
  }

  /** Without a comma the whole string is the size and the label is "additional". */
  lemma ParseSizeOnly(parseBytes: ByteParser, s: string)
    requires ',' !in s
    ensures var p := parseBytes(s);
      ParseAdditionalDisk(parseBytes, s) ==
        if p.err.Some? then DiskParse(ZERO_DISK, Some(SizeError(s, p.err.value)))
        else DiskParse(AdditionalDisk(p.value, DEFAULT_DISK_LABEL), None)
  {
    GoText.SplitNoSeparator(s, ',');
  }

  /**
   * With one comma the size is on the left and the label on the right; an
   * empty right part gives the label "additional".
   */
  lemma ParseSizeAndLabel(parseBytes: ByteParser, size: string, diskLabel: string)
    requires ',' !in size && ',' !in diskLabel
    ensures var p := parseBytes(size);
      ParseAdditionalDisk(parseBytes, size + "," + diskLabel) ==
        if p.err.Some? then DiskParse(ZERO_DISK, Some(SizeError(size, p.err.value)))
        else DiskParse(AdditionalDisk(p.value, if diskLabel == "" then DEFAULT_DISK_LABEL else diskLabel), None)
  {
    GoText.SplitTwo(size, ',', diskLabel);
  }

  /** Two or more commas are rejected with the zero disk, whatever the parser does. */
  lemma ParseTooManyFields(parseBytes: ByteParser, s: string)
    requires GoText.Count(s, ',') >= 2
    ensures ParseAdditionalDisk(parseBytes, s) ==
      DiskParse(ZERO_DISK, Some(Text("invalid format " + GoText.Quote(s) + ", expected size[,label]")))
  {
  }

  /**
   * The rejected inputs of the parser's tests: "", ",", ",foo" and "20 ABC,"
   * all fail when the size parser rejects "" and "20 ABC".
   */
  lemma ParseRejectsMissingOrBadSize(parseBytes: ByteParser)
    requires parseBytes("").err.Some? && parseBytes("20 ABC").err.Some?
    ensures ParseAdditionalDisk(parseBytes, "").err.Some?
    ensures ParseAdditionalDisk(parseBytes, ",").err.Some?
    ensures ParseAdditionalDisk(parseBytes, ",foo").err.Some?
    ensures ParseAdditionalDisk(parseBytes, "20 ABC,").err.Some?
  {
    ParseSizeOnly(parseBytes, "");
    ParseSizeAndLabel(parseBytes, "", "");
    assert "" + "," + "" == ",";
    ParseSizeAndLabel(parseBytes, "", "foo");
    assert "" + "," + "foo" == ",foo";
    ParseSizeAndLabel(parseBytes, "20 ABC", "");
    assert "20 ABC" + "," + "" == "20 ABC,";
  }

  /** `AdditionalDisk.Name`: `disk-%02d-<diskLabel>-<machine>`. */
  function Name(a: AdditionalDisk, machineName: string, diskNumber: nat): (name: string)
    ensures |name| > 7 + |machineName| && name[..5] == "disk-"
    ensures name[|name| - |machineName| - 1..] == "-" + machineName
  {
    "disk-" + GoText.ZeroPad2(diskNumber) + ("-" + a.Label + "-" + machineName)
  }

  /** The digits after "disk-" in a disk's name give back its position. */
  lemma NameIndex(a: AdditionalDisk, machineName: string, i: nat)
    ensures |Name(a, machineName, i)| >= 5
    ensures var d := GoText.TakeDigits(Name(a, machineName, i)[5..]); GoText.DigitsValue(d) == i
  {
    var z := GoText.ZeroPad2(i);
    var rest := "-" + a.Label + "-" + machineName;
    GoText.ZeroPad2Value(i);
    GoText.TakeDigitsOf(z, rest);
    GoText.DropPrefix("disk-", z, rest);
  }

  /** Disks at different positions get different names, whatever their labels. */
  lemma NamesDistinct(a: AdditionalDisk, b: AdditionalDisk, machineName: string, i: nat, j: nat)
    requires i != j
    ensures Name(a, machineName, i) != Name(b, machineName, j)
  {
    NameIndex(a, machineName, i);
    NameIndex(b, machineName, j);
  }
}
