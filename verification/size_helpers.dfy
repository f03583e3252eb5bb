/**
 * The size and disk helpers of the older root revision of the driver
 * (size_helpers.go): a byte size read through `humanize.ParseBytes` and
 * bounded by one pebibyte, the `SIZE[,LABEL]` additional-disk flag, and the
 * `disk-<i>-<label>-<machine>` disk name.
 */
module SizeHelpers {
  import opened Wrappers
  import opened Errors
  import opened Humanize
  import GoText
  import Api

  const DEFAULT_ADDITIONAL_DISK_LABEL := "additional"
  const SIZE_TOO_LARGE := Text("invalid size definition, size too large")

  const TWO_TO_63: int := 0x8000_0000_0000_0000
  const TWO_TO_64: int := 0x1_0000_0000_0000_0000

  /**
   * Go's `int(u)` of a `uint64` on a 64-bit platform: the same bits read as
   * a two's-complement `int64`, so values from 2^63 on come out negative.
   */
  function Int64Of(u: Api.uint64): (i: int)
    ensures u < TWO_TO_63 ==> i == u
    ensures u >= TWO_TO_63 ==> i == u - TWO_TO_64 && i < 0
  {
    if u < TWO_TO_63 then u else u - TWO_TO_64
  }

  /** A size in bytes as the driver keeps it (a Go `int`) and the error returned with it. */
  datatype Sized = Sized(size: int, err: Option<Error>)

  /**
   * `HumanizeSize` as written: a parse failure gives size 0 and the
   * parser's error; otherwise the size is `int(v)`, and an error is added
   * when `int(v)` exceeds one pebibyte.
   */
  function HumanizeSize(parseBytes: ByteParser, sizeStr: string): (r: Sized)
    ensures r.err.None? ==> r.size <= PI_BYTE
    ensures parseBytes(sizeStr).err.None? ==>
      -TWO_TO_63 <= r.size < TWO_TO_63 && r.size % TWO_TO_64 == parseBytes(sizeStr).value
  {
    var p := parseBytes(sizeStr);
    if p.err.Some? then Sized(0, Some(Text(p.err.value)))
    else
      var size := Int64Of(p.value);
      Sized(size, if size > PI_BYTE then Some(SIZE_TOO_LARGE) else None)
  }

  /**
   * `HumanizeSize` with the bound checked on the unsigned value, as the
   * check evidently intends: every size of more than one pebibyte is
   * rejected, however large.
   */
  function HumanizeSizeChecked(parseBytes: ByteParser, sizeStr: string): (r: Sized)
    ensures r.err.None? ==> 0 <= r.size <= PI_BYTE
  {
    var p := parseBytes(sizeStr);
    if p.err.Some? then Sized(0, Some(Text(p.err.value)))
    else Sized(p.value, if p.value > PI_BYTE then Some(SIZE_TOO_LARGE) else None)
  }

  /**
   * Which size helper a caller goes through: the one size_helpers.go has, or
   * the corrected one. The driver's own configuration uses `AsWritten`.
   */
  datatype SizeRule = AsWritten | Corrected

  function HumanizeSizeBy(rule: SizeRule, parseBytes: ByteParser, sizeStr: string): (r: Sized)
    ensures r.err.None? ==> r.size <= PI_BYTE
    ensures rule == Corrected && r.err.None? ==> 0 <= r.size
  {
    match rule
    case AsWritten => HumanizeSize(parseBytes, sizeStr)
    case Corrected => HumanizeSizeChecked(parseBytes, sizeStr)
  }

  /** A parsed size up to one pebibyte, that bound included, is returned unchanged and without error. */
  lemma HumanizeSizeAccepts(parseBytes: ByteParser, sizeStr: string)
    requires parseBytes(sizeStr).err.None? && parseBytes(sizeStr).value <= PI_BYTE
    ensures HumanizeSize(parseBytes, sizeStr) == Sized(parseBytes(sizeStr).value, None)
    ensures HumanizeSizeChecked(parseBytes, sizeStr) == Sized(parseBytes(sizeStr).value, None)
  {
  }

  /** A parsed size above one pebibyte and below 2^63 is rejected, yet still returned as the size. */
  lemma HumanizeSizeTooLarge(parseBytes: ByteParser, sizeStr: string)
    requires parseBytes(sizeStr).err.None? && PI_BYTE < parseBytes(sizeStr).value < TWO_TO_63
    ensures HumanizeSize(parseBytes, sizeStr) == Sized(parseBytes(sizeStr).value, Some(SIZE_TOO_LARGE))
  {
  }

  /** A failed parse gives size 0 and the parser's error. */
  lemma HumanizeSizeParseFails(parseBytes: ByteParser, sizeStr: string)
    requires parseBytes(sizeStr).err.Some?
    ensures HumanizeSize(parseBytes, sizeStr) == Sized(0, Some(Text(parseBytes(sizeStr).err.value)))
    ensures HumanizeSizeChecked(parseBytes, sizeStr) == HumanizeSize(parseBytes, sizeStr)
  {
  }

  /**
   * From 2^63 on, `int(v)` is negative, so the bound check never fires: the
   * size comes back negative and without error.
   */
  lemma HumanizeSizeWraps(parseBytes: ByteParser, sizeStr: string)
    requires parseBytes(sizeStr).err.None? && parseBytes(sizeStr).value >= TWO_TO_63
    ensures var r := HumanizeSize(parseBytes, sizeStr);
      r.err.None? && r.size == parseBytes(sizeStr).value - TWO_TO_64 && r.size < 0
    ensures HumanizeSizeChecked(parseBytes, sizeStr).err == Some(SIZE_TOO_LARGE)
  {
  }

  /** A parser that reads "8 EiB" as 2^63 bytes: the as-written helper accepts it as -2^63. */
  lemma EightExbibytesAccepted(parseBytes: ByteParser)
    requires parseBytes("8 EiB") == Parsed(TWO_TO_63, None)
    ensures HumanizeSize(parseBytes, "8 EiB") == Sized(-TWO_TO_63, None)
    ensures HumanizeSizeChecked(parseBytes, "8 EiB") == Sized(TWO_TO_63, Some(SIZE_TOO_LARGE))
  {
  }

  /** Below 2^63 the corrected helper gives exactly what the written one gives. */
  lemma CheckedAgreesBelowWrap(parseBytes: ByteParser, sizeStr: string)
    requires parseBytes(sizeStr).err.Some? || parseBytes(sizeStr).value < TWO_TO_63
    ensures HumanizeSizeChecked(parseBytes, sizeStr) == HumanizeSize(parseBytes, sizeStr)
  {
  }

  // ---------------------------------------------------------------------------
  // Additional disks.

  /** `AdditionalDisk` of the root revision: a label and a signed size. */
  datatype AdditionalDisk = AdditionalDisk(Label: string, Size: int)

  const ZERO_DISK := AdditionalDisk("", 0)

  datatype DiskFlag = DiskFlag(disk: AdditionalDisk, err: Option<Error>)

  /**
   * `NewAdditionalDiskFromFlag`: `SIZE` or `SIZE,LABEL`, the label taken
   * verbatim; more than one comma is an error with the zero disk. The size
   * goes through the size helper the rule names (`AsWritten` is the source's
   * `HumanizeSize`), and the label is set even when the size fails.
   */
  function NewAdditionalDiskFromFlag(rule: SizeRule, parseBytes: ByteParser, flag: string): (r: DiskFlag)
    ensures r.err.None? ==> r.disk.Size <= PI_BYTE
    ensures rule == Corrected && r.err.None? ==> 0 <= r.disk.Size
  {
    var sizeAndLabel := GoText.Split(flag, ',');
    if |sizeAndLabel| == 2 then
      var sized := HumanizeSizeBy(rule, parseBytes, sizeAndLabel[0]);
      DiskFlag(AdditionalDisk(sizeAndLabel[1], sized.size), sized.err)
    else if |sizeAndLabel| == 1 then
      var sized := HumanizeSizeBy(rule, parseBytes, sizeAndLabel[0]);
      DiskFlag(AdditionalDisk(DEFAULT_ADDITIONAL_DISK_LABEL, sized.size), sized.err)
    else
      DiskFlag(ZERO_DISK, Some(Text("invalid additional disk definition: " + flag)))
  }

  /** Without a comma, the whole flag is the size and the label is "additional". */
  lemma DiskFlagSizeOnly(rule: SizeRule, parseBytes: ByteParser, flag: string)
    requires ',' !in flag
    ensures var sized := HumanizeSizeBy(rule, parseBytes, flag);
      NewAdditionalDiskFromFlag(rule, parseBytes, flag) == DiskFlag(AdditionalDisk(DEFAULT_ADDITIONAL_DISK_LABEL, sized.size), sized.err)
  {
    GoText.SplitNoSeparator(flag, ',');
  }

  /**
   * With one comma, the size is on the left and the label is the right part
   * as it stands, even when empty; a size that fails still sets the label.
   */
  lemma DiskFlagSizeAndLabel(rule: SizeRule, parseBytes: ByteParser, size: string, diskLabel: string)
    requires ',' !in size && ',' !in diskLabel
    ensures var sized := HumanizeSizeBy(rule, parseBytes, size);
      NewAdditionalDiskFromFlag(rule, parseBytes, size + "," + diskLabel) == DiskFlag(AdditionalDisk(diskLabel, sized.size), sized.err)
  {
    GoText.SplitTwo(size, ',', diskLabel);
  }

  /** Two or more commas: the zero disk and an error naming the flag. */
  lemma DiskFlagTooManyFields(rule: SizeRule, parseBytes: ByteParser, flag: string)
    requires GoText.Count(flag, ',') >= 2
    ensures NewAdditionalDiskFromFlag(rule, parseBytes, flag) ==
      DiskFlag(ZERO_DISK, Some(Text("invalid additional disk definition: " + flag)))
  {
  }

  /** The errors the flag parser returns are never joins. */
  lemma DiskFlagErrorPlain(rule: SizeRule, parseBytes: ByteParser, flag: string)
    ensures var r := NewAdditionalDiskFromFlag(rule, parseBytes, flag);
      r.err.Some? ==> r.err.value.Text?
  {
  }

  /** The disk flag "8 EiB", read as 2^63 bytes: the as-written helper keeps a disk of -2^63 bytes without error. */
  lemma EightExbibyteDiskAccepted(parseBytes: ByteParser)
    requires parseBytes("8 EiB") == Parsed(TWO_TO_63, None)
    ensures NewAdditionalDiskFromFlag(AsWritten, parseBytes, "8 EiB") ==
      DiskFlag(AdditionalDisk(DEFAULT_ADDITIONAL_DISK_LABEL, -TWO_TO_63), None)
    ensures NewAdditionalDiskFromFlag(Corrected, parseBytes, "8 EiB").err == Some(SIZE_TOO_LARGE)
  {
    DiskFlagSizeOnly(AsWritten, parseBytes, "8 EiB");
    DiskFlagSizeOnly(Corrected, parseBytes, "8 EiB");
  }

  /** `AdditionalDisk.DiskName`: `disk-%d-<label>-<machine>`, the index not padded. */
  function DiskName(d: AdditionalDisk, machineName: string, i: int): (name: string)
    ensures |name| > 5 + |machineName| && name[..5] == "disk-"
    ensures name[|name| - |machineName| - 1..] == "-" + machineName
  {
    "disk-" + GoText.IntText(i) + ("-" + d.Label + "-" + machineName)
  }

  /** The digits after "disk-" give back a non-negative index. */
  lemma DiskNameIndex(d: AdditionalDisk, machineName: string, i: nat)
    ensures |DiskName(d, machineName, i)| >= 5
    ensures GoText.DigitsValue(GoText.TakeDigits(DiskName(d, machineName, i)[5..])) == i
  {
    var digits := GoText.Decimal(i);
    var rest := "-" + d.Label + "-" + machineName;
    GoText.TakeDigitsOf(digits, rest);
    GoText.DropPrefix("disk-", digits, rest);
  }

  /** Disks at different positions get different names, whatever their labels. */
  lemma DiskNamesDistinct(a: AdditionalDisk, b: AdditionalDisk, machineName: string, i: nat, j: nat)
    requires i != j
    ensures DiskName(a, machineName, i) != DiskName(b, machineName, j)
  {
    DiskNameIndex(a, machineName, i);
    DiskNameIndex(b, machineName, j);
  }
}
