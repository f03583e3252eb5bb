/**
 * How the three revisions of the driver differ where they do the same job:
 * the state mapping, the disk naming, the empty disk label, the
 * instance-create request, what `Remove` deletes, and whether a missing
 * required flag fails the configuration.
 */
module Revisions {
  import opened Wrappers
  import opened Errors
  import opened Api
  import opened Humanize
  import GoText
  import Rancher
  import Orchestration
  import Oxide
  import OxideDriver
  import SizeHelpers
  import RootFlags
  import Legacy

  /**
   * The oldest and the newest state mappings agree on every run state but
   * three: rebooting (stopping, then starting), repairing (stopped, then
   * starting) and destroyed (an error, then not found).
   */
  lemma StateMappingsDiffer(s: InstanceState)
    ensures Legacy.ToRancherMachineState(s) != Oxide.ToRancherMachineState(s) <==> s in {Rebooting, Repairing, Destroyed}
    ensures s == Rebooting ==> Legacy.ToRancherMachineState(s) == Rancher.Stopping && Oxide.ToRancherMachineState(s) == Rancher.Starting
    ensures s == Repairing ==> Legacy.ToRancherMachineState(s) == Rancher.Stopped && Oxide.ToRancherMachineState(s) == Rancher.Starting
    ensures s == Destroyed ==> Legacy.ToRancherMachineState(s) == Rancher.Error && Oxide.ToRancherMachineState(s) == Rancher.NotFound
  {
  }

  /**
   * An instance under repair reads as stopped in the oldest revision, so
   * its `Remove` stops waiting and starts deleting; the newest keeps waiting.
   */
  lemma RepairingEndsOnlyTheOldWait(sc: Script, v0: nat, deadline: nat)
    requires 0 < deadline
    requires sc.views(v0) == Ok(Repairing)
    ensures Orchestration.StopWait(Legacy.ToRancherMachineState, sc, v0, deadline) == Orchestration.WaitResult(1, Orchestration.Observed)
    ensures Orchestration.StopWait(Oxide.ToRancherMachineState, sc, v0, deadline) ==
      Orchestration.WaitFrom(Orchestration.Poll(Oxide.ToRancherMachineState, sc, v0, deadline), Rancher.Stopped, 1, deadline)
  {
    Orchestration.WaitAfterRead(Legacy.ToRancherMachineState, sc, v0, 0, deadline);
    Orchestration.WaitAfterRead(Oxide.ToRancherMachineState, sc, v0, 0, deadline);
  }

  /** `Name` and `DiskName` differ only in padding: the same name from position 10 on. */
  lemma DiskNamesAgreeFromTen(diskLabel: string, machineName: string, i: nat, rootSize: int, size: uint64)
    requires i >= 10
    ensures SizeHelpers.DiskName(SizeHelpers.AdditionalDisk(diskLabel, rootSize), machineName, i) ==
      Oxide.Name(Oxide.AdditionalDisk(size, diskLabel), machineName, i)
  {
  }

  /** Below position 10 the newest name has one more character, its leading zero. */
  lemma DiskNamesDifferBelowTen(diskLabel: string, machineName: string, i: nat, rootSize: int, size: uint64)
    requires i < 10
    ensures |Oxide.Name(Oxide.AdditionalDisk(size, diskLabel), machineName, i)| ==
      |SizeHelpers.DiskName(SizeHelpers.AdditionalDisk(diskLabel, rootSize), machineName, i)| + 1
    ensures SizeHelpers.DiskName(SizeHelpers.AdditionalDisk(diskLabel, rootSize), machineName, i) !=
      Oxide.Name(Oxide.AdditionalDisk(size, diskLabel), machineName, i)
  {
  }

  /**
   * A disk flag ending in a comma: the newest parser gives the default
   * label, the root revision's keeps the empty label.
   */
  lemma EmptyLabelAfterComma(parseBytes: ByteParser, size: string)
    requires ',' !in size && parseBytes(size).err.None?
    ensures Oxide.ParseAdditionalDisk(parseBytes, size + ",").disk.Label == Oxide.DEFAULT_DISK_LABEL
    ensures SizeHelpers.NewAdditionalDiskFromFlag(SizeHelpers.AsWritten, parseBytes, size + ",").disk.Label == ""
  {
    Oxide.ParseSizeAndLabel(parseBytes, size, "");
    SizeHelpers.DiskFlagSizeAndLabel(SizeHelpers.AsWritten, parseBytes, size, "");
    assert size + "," + "" == size + ",";
  }

  /** The newest configuration that asks for what the oldest revision asks for. */
  function NewestConfig(c: Legacy.Config): OxideDriver.Config
    requires 0 <= c.memory < Legacy.TWO_TO_64 && 0 <= c.bootDiskSize < Legacy.TWO_TO_64
  {
    OxideDriver.Config(
      machineName := c.machineName,
      host := c.host,
      token := c.token,
      project := c.project,
      vcpus := c.vcpus,
      memory := c.memory,
      bootDiskSize := c.bootDiskSize,
      bootDiskImageId := c.bootDiskImageId,
      vpc := c.vpc,
      subnet := c.subnet,
      ephemeralIpAttach := false,
      ephemeralIpPool := "",
      userDataFile := c.userDataFile,
      sshPublicKeys := c.additionalSshPublicKeyIds,
      antiAffinityGroups := [],
      additionalDisks := [],
      userAgent := Legacy.USER_AGENT)
  }

  /**
   * With sizes that fit in 64 bits, the oldest request is the newest one
   * for a machine without additional disks, anti-affinity groups or an
   * ephemeral IP, except that its interface does not ask for an automatic
   * IPv4 address.
   */
  lemma OldRequestIsNewestWithoutExtras(c: Legacy.Config, keyId: string, userData: seq<byte>)
    requires 0 <= c.memory < Legacy.TWO_TO_64 && 0 <= c.bootDiskSize < Legacy.TWO_TO_64
    ensures var newest := OxideDriver.Request(NewestConfig(c), keyId, userData);
      Legacy.Request(c, keyId, userData) ==
        newest.(nics := [NicCreate(Legacy.DEFAULT_DESCRIPTION, "nic-" + c.machineName, c.subnet, c.vpc, false)])
  {
  }

  /** A negative size wraps: the oldest request asks for 2^64 + n bytes. */
  lemma NegativeMemoryWraps(c: Legacy.Config, keyId: string, userData: seq<byte>)
    requires -Legacy.TWO_TO_63 <= c.memory < 0
    ensures Legacy.Request(c, keyId, userData).memory == c.memory + Legacy.TWO_TO_64
  {
  }

  /**
   * What `Remove` deletes once the instance is stopped: the oldest
   * revision's deletions are the newest one's for a machine without
   * additional disks; with any, the newest deletes each of them as well.
   */
  lemma OldDeletionsAreNewestWithoutDisks(ids: OxideDriver.Recorded, sc: Script)
    ensures OxideDriver.DeleteSteps(ids.(diskIds := []), sc) == OxideDriver.FixedDeletes(ids, sc)
    ensures |OxideDriver.DeleteSteps(ids, sc)| == |OxideDriver.FixedDeletes(ids, sc)| + |ids.diskIds|
    ensures forall i :: 0 <= i < |ids.diskIds| ==>
      OxideDriver.DeleteSteps(ids, sc)[3 + i].call == DiskDelete(ids.diskIds[i])
  {
    assert OxideDriver.FixedDeletes(ids.(diskIds := []), sc) == OxideDriver.FixedDeletes(ids, sc);
    assert OxideDriver.FixedDeletes(ids, sc) + [] == OxideDriver.FixedDeletes(ids, sc);
    forall i | 0 <= i < |ids.diskIds|
      ensures OxideDriver.DeleteSteps(ids, sc)[3 + i].call == DiskDelete(ids.diskIds[i])
    {
      assert OxideDriver.DeleteSteps(ids, sc)[3 + i] == OxideDriver.DiskDeletes(ids.diskIds, sc)[i];
    }
  }

  /**
   * A missing host: the newest revision fails with a `RequiredFlagError`,
   * the root revision fails with its joined error, and the oldest returns
   * nil.
   */
  lemma MissingHostFailsExceptOldest(parseBytes: ByteParser, opts: Rancher.Options)
    requires opts.String("oxide-host") == ""
    ensures var p := OxideDriver.PlainFlagsOf(opts);
      OxideDriver.RequiredError(p.host, p.token, p.project, p.bootDiskImageId).Some?
    ensures JoinEach(None, RootFlags.ConfigErrors(SizeHelpers.AsWritten, parseBytes, opts)).Some?
    ensures Legacy.UnwrapNil(JoinEach(None, Legacy.RequiredErrors(opts))) == None
  {
    var p := OxideDriver.PlainFlagsOf(opts);
    OxideDriver.RequiredFlagErrors(p.host, p.token, p.project, p.bootDiskImageId);
    OxideDriver.MissingRequiredMembers(p.host, p.token, p.project, p.bootDiskImageId);
    assert Oxide.FLAG_HOST in OxideDriver.MissingRequired(p.host, p.token, p.project, p.bootDiskImageId);
    RootFlags.ConfigSucceeds(SizeHelpers.AsWritten, parseBytes, opts);
    Legacy.RequiredErrorsDiscarded(opts);
  }
}
