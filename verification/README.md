# Oxide machine driver for Rancher, modelled in Dafny

The project is a Rancher machine driver for the Oxide cloud platform. Rancher
calls the driver to create, inspect, start, stop and remove one virtual
machine ("instance") on an Oxide rack. The repository holds three revisions
of the driver. Each is modelled in its own module, so their differences stay
visible:

- **Newest revision** (`oxide.go` with `error.go`): modules `Oxide` and
  `OxideDriver`.
  - `Oxide` holds the pure parts: the state mapping, the `SIZE[,LABEL]`
    disk-flag parser and the `disk-%02d-…` names.
  - `OxideDriver` holds the `Driver` class: lazy client creation,
    `SetConfigFromFlags`, `Create`, `GetState`, `Start`/`Stop`/`Restart` and
    `Remove`. Each method is proved against a specification function.
- **Older root revision** (`flags.go`, `size_helpers.go`): modules
  `SizeHelpers` and `RootFlags`.
  - `SizeHelpers` holds the 1-PiB size helper as written, a corrected
    helper beside it, the disk-flag parser and the unpadded disk names.
    `SizeRule` names which helper a caller goes through.
  - `RootFlags` holds a `SetConfigFromFlags` that never stops early and joins
    every failure. The driver goes through the helper as written; the same
    pipeline on the corrected helper carries the intended bound.
- **Oldest revision** (`pkg/driver/oxide/oxide.go`): module `Legacy`. It has
  its own state mapping, a `SetConfigFromFlags` that returns
  `errors.Unwrap` of its joined error, and a `Create` and `Remove` that make a
  new client for every operation.
- **`Revisions`** states where the three revisions differ on the same input.

Supporting modules:

- `Errors`: the driver's error kinds (`RequiredFlagError`, `FlagParseError`,
  plain and `%w`-wrapped messages) and Go's `errors.Join` / `errors.Unwrap`.
- `GoText`: `strings.Split`, `strings.Join`, `%d`, `%02d` and `%q` on the
  inputs the driver uses.
- `Rancher`: the machine states and the driver options.
- `Humanize`: the byte parser's interface.
- `Api`: the Oxide API vocabulary and a `Platform` class.
  - A `Platform` answers every call from a fixed `Script` and records the
    call in a ghost `trace`.
  - Every lifecycle property is stated over that trace: which calls are made,
    in what order, and where a failure stops the run.
- `Orchestration`: fail-fast runs of calls, and the bounded wait of `Remove`.

Parameters stand in for I/O and outside code:

- The byte parser of `humanize.ParseBytes` is a function parameter
  `parseBytes`.
- The remote API, the file system and SSH key generation are answers in the
  `Script`.
- The two-minute deadline of `Remove` is `deadline`: the number of state reads
  the clock allows.

## Model

| member | source | states |
|---|---|---|
| Errors.NewRequiredFlagError | error.go:12-19 | the flag is kept as given; the message is `required option "<flag>" not set`; there is nothing to unwrap |
| Errors.NewFlagParseError | error.go:29-43 | both fields are kept as given; `Unwrap` returns exactly the embedded error; the message is `failed parsing flag "<flag>": ` followed by the inner message |
| Errors.Message | error.go:12-31 | the `Error()` strings: the message of a `%w` wrapper and of a `FlagParseError` ends with its cause's message; a join of no errors prints "" and a join of one error prints as that error |
| Errors.Unwrap | error.go:33-37 | `errors.Unwrap` gives an error exactly for a `%w` wrapper and a `FlagParseError`, and the unwrapped message ends the outer one; a join, like a plain or required-flag error, unwraps to nil |
| Errors.JoinErrors | oxide.go:672-674 | `errors.Join` is nil iff every argument is nil; otherwise it is a non-empty join of exactly the non-nil arguments, in order |
| Errors.JoinEach | oxide.go:662-699 | threading `err = errors.Join(err, e)` never turns a non-nil accumulator back into nil (its members are stated by `JoinEachConstituents`) |
| Errors.RequiredFlagMessageInjective | error.go:12-14 | two required-flag errors with the same message name the same flag |
| Errors.JoinEachConstituents | flags.go:130-161 | threading `err = errors.Join(err, e)` collects exactly the non-nil errors, in order, and is nil iff every one was nil |
| Errors.JoinEachMessage | oxide.go:639-658 | the accumulated error's message is its members' messages, one per line |
| Oxide.ToRancherMachineState | oxide.go:780-808 | total: creating/starting/rebooting/repairing map to Starting, running/migrating to Running, stopping to Stopping, stopped to Stopped, failed to Error, destroyed to NotFound, anything else to None, each in both directions |
| Oxide.UnknownStateIsNone | oxide_test.go:58-73 | a run-state name outside the ten known ones maps to None |
| Oxide.ParseAdditionalDisk | oxide.go:823-851 | a failure always comes with the zero disk; a success always has a non-empty label without commas |
| Oxide.ParseSizeOnly | oxide.go:827-835 | without a comma the whole string is the size and the label is "additional"; a bad size gives the zero disk and the `failed parsing size` error |
| Oxide.ParseSizeAndLabel | oxide.go:829-833 | with one comma the size is on the left and the label on the right, or "additional" when the right part is empty |
| Oxide.ParseTooManyFields | oxide.go:836-837 | two or more commas fail with the zero disk and `invalid format "<s>", expected size[,label]` |
| Oxide.SizeError | oxide.go:840-842 | the size error wraps the parser's error with `%w`: `errors.Unwrap` gives it back and the message ends with it |
| Oxide.ParseRejectsMissingOrBadSize | oxide_test.go:90-99 | "", ",", ",foo" and "20 ABC," fail when the byte parser rejects "" and "20 ABC" |
| Oxide.NameIndex | oxide.go:854-856 | the digits after `disk-` in a disk's name read back as its position |
| Oxide.NamesDistinct | oxide.go:854-856 | disks at different positions get different names, whatever their labels |
| Oxide.Name | oxide.go:854-856 | the name starts with `disk-` and ends with `-` and the machine name; the position takes at least two digits |
| OxideDriver.MissingRequired | oxide.go:641-655 | at most four flags are reported missing; which flags, both directions, is `MissingRequiredMembers` |
| OxideDriver.RequiredErrors | oxide.go:641-655 | one `RequiredFlagError` per missing flag, in order |
| OxideDriver.RequiredFlagErrors | oxide.go:637-660 | the required-flag error holds one `RequiredFlagError` per empty flag among host, token, project and image, in that order, and is nil iff none is empty |
| OxideDriver.MissingRequiredMembers | oxide.go:641-655 | a flag is reported missing iff it is one of the four required flags and its value is empty |
| OxideDriver.NothingGivenMessage | oxide_test.go:45-54 | with no required flag given, the message names all four flags, one per line |
| OxideDriver.RequiredMessages | oxide_test.go:50-53 | the four required-flag errors print the four expected lines |
| OxideDriver.JoinIfError | oxide.go:672-674 | `if err != nil { acc = errors.Join(acc, err) }` adds exactly that error to what has been joined |
| OxideDriver.RequiredFlagsError | oxide.go:638-660 | the required-flag block computes the required-flag error |
| OxideDriver.RequiredErrorsOf | oxide.go:641-655 | the four `if … == ""` checks join exactly the missing flags' errors |
| OxideDriver.PlainFlagsOf | oxide.go:621-635 | host, token, project and image are read as given, with no default, so an empty flag reaches the required-flag check; the SSH keys are read as a string slice and the ephemeral-IP flag as a bool |
| OxideDriver.MemoryText | oxide.go:667-670 | the memory text parsed is never empty: a given flag is used as given, an empty one becomes "4 GiB" |
| OxideDriver.BootDiskSizeText | oxide.go:677-680 | the boot-disk-size text parsed is never empty: a given flag is used as given, an empty one becomes "20 GiB" |
| OxideDriver.ParseErrors | oxide.go:662-699 | no parse error is collected iff the memory, the boot-disk size (each defaulted when empty) and every additional-disk value parse |
| OxideDriver.ParsedDisks | oxide.go:687-694 | one disk per `--oxide-additional-disk` value |
| OxideDriver.ParsedDisksAt | oxide.go:688-694 | the disk at each position is the one parsed from the value at that position; failures are included as zero disks |
| OxideDriver.ParsedDisksStep | oxide.go:688-694 | one loop round appends that value's disk and its error, if any |
| OxideDriver.DiskFlagErrorsKind | oxide.go:689-692 | every disk error is a `FlagParseError` |
| OxideDriver.DiskFlagErrorsNilIff | oxide.go:688-694 | there is a disk error iff some disk value fails to parse |
| OxideDriver.ParseErrorsNilIff | oxide.go:662-699 | parsing fails iff the memory, the boot-disk size (each defaulted when empty) or some additional disk fails to parse; every failure is a `FlagParseError` |
| OxideDriver.ParseErrorsKind | oxide.go:673-691 | every parse error is a `FlagParseError`, so none is a join |
| OxideDriver.InitSteps | oxide.go:164-170 | getting a client makes at most one call |
| OxideDriver.InitRun | oxide.go:164-170 | getting a client fails fast: no call when there is one, otherwise one `NewClient` call and its error |
| OxideDriver.InitErr | oxide.go:164-170 | getting a client fails only when there was none and one `NewClient` call was made; with a client no call is made |
| OxideDriver.ClientOptions | oxide.go:148-157 | host and token first; the user agent is added iff one is set |
| OxideDriver.DiskRequests | oxide.go:195-213 | one request per additional disk, each built from the disk at the same position |
| OxideDriver.ExternalIps | oxide.go:220-243 | at most one external IP, present iff ephemeral-IP attachment is set; it names the configured pool when there is one and asks for the automatic IPv4 pool otherwise |
| OxideDriver.Request | oxide.go:179-296 | the instance-create request of the driver's settings: keys, boot disk, one disk per additional disk, external IPs, one NIC asking for IPv4; `RequestComposition` states its properties |
| OxideDriver.RequestComposition | oxide.go:179-296 | the generated key comes first, then the configured keys in order; each disk is blank, named `disk-%02d-<label>-<machine>` by position, has its size, and no two share a name; there is one ephemeral IP iff attaching is set, from the named pool iff one is named, else automatic IPv4 |
| OxideDriver.Ipv4Of | oxide.go:318-330 | no address only for a stack without IPv4; a dual stack gives its IPv4 address |
| OxideDriver.NicError | oxide.go:305-331 | nil iff the interface list succeeds with a first interface that has an IPv4 address; a list failure is returned as is; an empty list gives "no valid network interfaces found" |
| OxideDriver.DiskListError | oxide.go:333-339 | nil iff the disk list succeeds; a failure is wrapped with `%w`, so it unwraps to the list error |
| OxideDriver.WithoutBootDisk | oxide.go:340-347 | at most as many IDs as listed disks; which IDs, both directions, is `WithoutBootDiskMembers` |
| OxideDriver.IdsOf | oxide.go:341-346 | the IDs of the listed disks, by position |
| OxideDriver.WithoutBootDiskMembers | oxide.go:340-347 | the recorded IDs are exactly the listed IDs other than the boot disk's |
| OxideDriver.FailedAt | oxide.go:163-350 | a run that fails in a stage has stored exactly what the earlier stages yield |
| OxideDriver.CreateFrom | oxide.go:172-350 | from each stage on, the values gathered so far are kept in the result |
| OxideDriver.CreateSpec | oxide.go:163-350 | the specification of `Create`: the stage-indexed run from the client stage with nothing gathered; `CreateFailsFast` and `CreateRecords` state its properties |
| OxideDriver.CreateStart | oxide.go:164-170 | a failed client creation ends `Create` with nothing stored; otherwise the key upload follows |
| OxideDriver.CreateFromFailsFast | oxide.go:172-350 | every stage of `Create` stops at its first failing call |
| OxideDriver.InstanceStagesFailFast | oxide.go:297-349 | the stages after instance creation stop at their first failure |
| OxideDriver.CreateFailsFast | oxide.go:163-350 | `Create` makes its calls in order and stops at the first failure, which it returns |
| OxideDriver.CreateRecords | oxide.go:297-349 | key ID, instance and boot-disk IDs, address and additional-disk IDs are each recorded iff their call succeeds; an empty NIC list fails with "no valid network interfaces found"; success iff every call succeeds |
| OxideDriver.GetStateSpec | oxide.go:478-495 | every failure comes with state None; success iff the client and the view succeed, and then the state is the mapped run state |
| Orchestration.StateAnswer | oxide.go:487-494 | a failed view returns its error; a successful one returns the run state under the revision's mapping (the oldest revision's is pkg/driver/oxide/oxide.go:342-349) |
| Orchestration.FailFast | oxide.go:163-177 | the repeated `if err != nil { return err }`: never more calls than steps (the full shape is `FailFastShape`) |
| Orchestration.Repeat | oxide.go:552-567 | the calls of n rounds of the wait loop: none iff no round ran or a round makes no call, and only the round's calls occur |
| Orchestration.WaitFrom | pkg/driver/oxide/oxide.go:404-419 | the wait loop from the k-th read on: it ends after between k and `deadline` reads |
| Orchestration.Wait | oxide.go:552-567 | the deadline-bounded wait loop of both revisions: at most `deadline` reads, each but the last neither failed nor showed the target; a timeout takes exactly `deadline` reads; an observed or aborted wait ends on a read that showed the target or failed with the error returned |
| Orchestration.StopWait | oxide.go:548-567 | `Remove`'s wait for Stopped from a given view call, under the revision's mapping: at most `deadline` reads |
| OxideDriver.GetStateFailsFast | oxide.go:478-495 | `GetState`'s calls and error are a fail-fast run of client creation and the view |
| OxideDriver.ClientThenFailsFast | oxide.go:599-742 | `Start`, `Stop` and `Restart` succeed iff the client and their one call succeed, and make the call only with a client |
| OxideDriver.ClientThen | oxide.go:599-742 | `Start`, `Stop` and `Restart`: the client calls come first; the operation's call is made, as the last call, iff getting the client succeeded; the run succeeds iff the client and the call do |
| Orchestration.Poll | oxide.go:552-567 | one answer per allowed state read, under the revision's mapping |
| Orchestration.WaitAfterRead | oxide.go:559-566 | one round of the wait: a failed read aborts with its error, Stopped ends the wait, any other state goes on; the same holds for the oldest revision's loop, pkg/driver/oxide/oxide.go:411-418 |
| Orchestration.PollTimesOut | oxide.go:553-555 | reads that never show Stopped time out after `deadline` reads |
| Orchestration.PollObserves | oxide.go:564-566 | Stopped at read n ends the wait after n + 1 reads |
| OxideDriver.DiskDeletes | oxide.go:587-593 | one `DiskDelete` per additional disk ID, in order |
| OxideDriver.DeleteSteps | oxide.go:569-593 | three fixed deletions, plus one per additional disk |
| OxideDriver.FixedDeletes | oxide.go:569-585 | three deletions, which succeed as a fail-fast run iff the key, the instance and the boot-disk deletions each succeed |
| OxideDriver.StoppedRemoval | oxide.go:548-595 | after the stop: one view per read until the wait ends; a timeout or failed read ends `Remove` with its error, otherwise the deletions follow; `RemovalWithoutStop` and `RemovalDeletesAll` state its properties |
| OxideDriver.RemoveSpec | oxide.go:535-596 | the specification of `Remove`: the client if needed and the stop, then `StoppedRemoval`; `RemoveSucceeds` states when it succeeds |
| OxideDriver.RemovePolls | oxide.go:535-567 | the state reads of `Remove`: at most `deadline`, and none unless getting the client and the stop both succeed |
| OxideDriver.DiskDeleteCalls | oxide.go:587-593 | the disk-delete calls follow the ID list |
| OxideDriver.RemovalWithoutStop | oxide.go:552-567 | if the wait never sees Stopped, nothing is deleted; the run fails with the timeout after exactly `deadline` reads, or with the error of its last read |
| OxideDriver.RemovalTimesOut | oxide.go:552-567 | such a removal makes `deadline` reads and fails with "timed out waiting for instance to stop" |
| OxideDriver.DeletionsSucceed | oxide.go:569-595 | with every deletion succeeding: key, instance, boot disk, then each additional disk, and no error |
| OxideDriver.RemovalDeletesAll | oxide.go:548-595 | the whole removal after a stop: n + 1 reads, then all deletions, in order |
| OxideDriver.RemovalFailsFast | oxide.go:569-593 | the deletions are a prefix of the full list; the removal fails at its first failing deletion with that deletion's error; it succeeds iff every deletion does |
| OxideDriver.RemoveSucceeds | oxide.go:535-596 | `Remove` succeeds iff the client, the stop, the wait and every deletion succeed |
| OxideDriver.AppendAll | oxide.go:182-184 | the append loop gives the list followed by the new elements |
| OxideDriver.BuildDiskRequests | oxide.go:195-213 | the disk loop fills exactly the disk requests |
| OxideDriver.CollectAdditionalDiskIds | oxide.go:340-347 | the loop skipping the boot disk gives exactly the filtered ID list |
| OxideDriver.Driver.constructor | oxide.go:135-144 | the default SSH user and port and no client; every other field at Go's zero value, so the configuration is empty (zero sizes, no keys, disks or groups) and no key, instance, boot-disk or additional-disk ID and no address is recorded |
| OxideDriver.Driver.EnsureClient | oxide.go:164-170 | the client is made iff there is none, and is kept once made |
| OxideDriver.Driver.SetConfigFromFlags | oxide.go:620-702 | plain flags are copied; any missing required flag returns the required-flag error before parsing, leaving memory, boot-disk size and disks unassigned; otherwise every size and disk is stored, failures included, with the joined parse errors |
| OxideDriver.Driver.CheckAndParse | oxide.go:637-699 | the required-flag block, then the parsing block only when no required flag is missing |
| OxideDriver.Driver.CopyPlainFlags | oxide.go:621-635 | each plain flag is stored as given, and the SSH port is the default |
| OxideDriver.Driver.CopyApiFlags | oxide.go:621-635 | host, token, project and user agent as given |
| OxideDriver.Driver.CopyInstanceFlags | oxide.go:624-628 | vCPUs, image, VPC, subnet and user-data file as given |
| OxideDriver.Driver.CopyAccessFlags | oxide.go:629-634 | SSH user and keys, anti-affinity groups, the default port, and the ephemeral-IP settings as given |
| OxideDriver.Driver.ParseFlags | oxide.go:662-699 | memory and boot-disk size (with their defaults) and every disk are stored as parsed; the error joins each failure |
| OxideDriver.Driver.ParseAdditionalDisks | oxide.go:687-694 | one disk per value, in order, and one `FlagParseError` per failure |
| OxideDriver.Driver.ParseDisk | oxide.go:689-693 | one round of the disk loop |
| OxideDriver.Driver.Create | oxide.go:163-350 | the calls, the error, and the stored IDs and address match `CreateSpec`; fields whose call is never reached keep their values |
| OxideDriver.Driver.CreateWithClient | oxide.go:172-177 | after the client: upload the key, record its ID, go on |
| OxideDriver.Driver.CreateWithKey | oxide.go:186-193 | after the key: read the user data, if a file is configured |
| OxideDriver.Driver.LaunchInstance | oxide.go:297-303 | create the instance and record its ID and boot-disk ID |
| OxideDriver.Driver.ReadUserData | oxide.go:186-193 | the file is read iff one is configured |
| OxideDriver.Driver.BuildRequest | oxide.go:179-296 | the request built with loops is exactly `Request` of the driver's settings |
| OxideDriver.Driver.RecordAddress | oxide.go:305-331 | the first NIC's IPv4 address, or the failure for an empty list or a stack without IPv4 |
| OxideDriver.Driver.RecordDisks | oxide.go:333-347 | the listed disk IDs other than the boot disk, or the wrapped list error |
| OxideDriver.Driver.GetState | oxide.go:478-495 | matches `GetStateSpec`, making the next view call |
| OxideDriver.Driver.ReadState | oxide.go:487-494 | one view call; its error or its mapped state |
| OxideDriver.Driver.Start | oxide.go:705-722 | the client if needed, then the start call, failing fast |
| OxideDriver.Driver.Stop | oxide.go:725-742 | the client if needed, then the stop call, failing fast |
| OxideDriver.Driver.Restart | oxide.go:599-616 | the client if needed, then the reboot call, failing fast |
| OxideDriver.Driver.Remove | oxide.go:535-596 | the calls and error match `RemoveSpec`; the client exists afterwards iff getting it succeeded, and the view counter has grown by `RemovePolls`, the reads actually made |
| OxideDriver.Driver.RemoveStopped | oxide.go:548-595 | the wait, then the deletions, as `StoppedRemoval`; the view counter grows by the wait's reads, and the client is left as it was |
| OxideDriver.Driver.AwaitStopped | oxide.go:552-567 | the poll loop's result is the bounded wait over the scripted answers; one view call per read |
| OxideDriver.Driver.DeleteResources | oxide.go:569-593 | all deletions in order, stopping at the first failure |
| OxideDriver.Driver.DeleteFixed | oxide.go:569-585 | key, instance and boot disk, stopping at the first failure |
| OxideDriver.Driver.DeleteAdditionalDisks | oxide.go:587-593 | each additional disk in order, returning the first error |
| SizeHelpers.Int64Of | size_helpers.go:52-56 | `int(uint64)` keeps values below 2^63 and wraps larger ones to negative |
| SizeHelpers.HumanizeSizeChecked | size_helpers.go:45-59 | corrected helper: a size without error is between 0 and one pebibyte |
| SizeHelpers.HumanizeSizeAccepts | size_helpers_test.go:18-28 | a parsed size up to one pebibyte, inclusive, is returned unchanged without error |
| SizeHelpers.HumanizeSizeTooLarge | size_helpers.go:52-56 | above one pebibyte and below 2^63: the error, yet the size is still returned |
| SizeHelpers.HumanizeSizeParseFails | size_helpers.go:47-49 | a parser failure gives size 0 and the parser's error |
| SizeHelpers.HumanizeSizeWraps | size_helpers.go:52-56 | from 2^63 on, the written check lets a negative size through without error; the corrected one rejects it |
| SizeHelpers.EightExbibytesAccepted | size_helpers.go:45-59 | "8 EiB", read as 2^63 bytes, comes back as -2^63 with no error; the corrected helper rejects it |
| SizeHelpers.CheckedAgreesBelowWrap | size_helpers.go:45-59 | the corrected helper agrees with the written one below 2^63 |
| SizeHelpers.HumanizeSize | size_helpers.go:45-59 | the helper as written: a size without error is at most one pebibyte, and a parsed size is kept as its 64 bits read as a signed integer |
| SizeHelpers.HumanizeSizeBy | size_helpers.go:40 | either helper bounds an accepted size above by one pebibyte; only the corrected one also bounds it below by 0 |
| SizeHelpers.NewAdditionalDiskFromFlag | size_helpers.go:27-43 | a disk accepted without error is at most one pebibyte; through the corrected helper it is also not negative |
| SizeHelpers.DiskFlagSizeOnly | size_helpers.go:32-40 | no comma: the label is "additional", and the size and error are exactly those of the size helper the caller uses, so as written a size of 2^63 or more is kept negative without error |
| SizeHelpers.DiskFlagSizeAndLabel | size_helpers.go:30-42 | one comma: the text after it is the label verbatim, even when empty, and is set even when the size fails; size and error are exactly those of the size helper the caller uses |
| SizeHelpers.DiskFlagTooManyFields | size_helpers.go:34-36 | two or more commas: the zero disk and `invalid additional disk definition: <flag>` |
| SizeHelpers.DiskFlagErrorPlain | size_helpers.go:27-43 | the parser's errors are plain messages, never joins |
| SizeHelpers.EightExbibyteDiskAccepted | size_helpers.go:40 | the disk flag "8 EiB", read as 2^63 bytes, gives a disk of -2^63 bytes and no error as written; the corrected helper rejects it |
| SizeHelpers.DiskName | size_helpers.go:18-25 | the name starts with `disk-` and ends with `-` and the machine name |
| SizeHelpers.DiskNameIndex | size_helpers.go:18-25 | the unpadded digits after `disk-` read back as the position |
| SizeHelpers.DiskNamesDistinct | size_helpers.go:18-25 | different positions give different names |
| RootFlags.IfEmpty | flags.go:144-158 | one "required option not set: <flag>" error iff the value is empty |
| RootFlags.SizeErrors | flags.go:130-136 | the two size errors, memory first, then the boot disk |
| RootFlags.ConfigErrors | flags.go:130-158 | everything joined, in order: the two sizes, each disk flag, then the host, token, project and image checks |
| RootFlags.DisksOf | flags.go:138-142 | one disk per value, and the disk at each position is the one the disk-flag parser gives for the value at that position |
| RootFlags.DiskErrors | flags.go:139-142 | one entry, nil or not, per value; the entry at each position is given by `DiskErrorsAt` |
| RootFlags.DiskErrorsAt | flags.go:139-142 | the entry at each position is that value's error |
| RootFlags.PresentSix | flags.go:130-158 | the errors of the six groups are collected group by group |
| RootFlags.NoJoinsConcat | flags.go:130-158 | two lists without joins concatenate to one without joins |
| RootFlags.ConfigErrorsPlain | flags.go:130-158 | nothing joined is itself a join |
| RootFlags.ConfigErrorCollects | flags.go:130-164 | the joined error holds exactly the failures in the order found, and is nil iff nothing failed |
| RootFlags.LastFour | flags.go:144-158 | four errors joined last are the last four members |
| RootFlags.NothingGiven | flags_test.go:43-52 | with no required flag given, the error ends with the host, token, project and image errors |
| RootFlags.NotSetMessage | flags_test.go:48-51 | each missing-flag message is "required option not set: " followed by the flag |
| RootFlags.ConfigSucceeds | flags.go:130-164 | success iff both sizes and every disk pass the size helper and all four required flags are given; with the helper as written this includes sizes that wrap to negative |
| RootFlags.ConfigBounded | flags.go:130-164 | through the corrected helper, a configuration without error holds memory, boot-disk and every additional-disk size between 0 and one pebibyte |
| RootFlags.EightExbibyteMemoryConfigures | flags.go:132-133 | as written, a memory flag of "8 EiB" read as 2^63 bytes configures without error and stores memory -2^63; the corrected helper makes it fail |
| RootFlags.DiskStep | flags.go:139-142 | one loop round adds that value's error to what is joined |
| RootFlags.ParseDiskFlags | flags.go:138-142 | the by-index loop gives exactly the parsed disks and joins each error |
| RootFlags.ParseAndCheck | flags.go:130-158 | memory and boot-disk size are exactly what the size helper gives, without defaults; every failure and missing flag is joined, in order |
| RootFlags.Configure | flags.go:116-164 | the settings stored and the joined error, both through the chosen size helper |
| RootFlags.SettingsOf | flags.go:116-142 | what the driver holds afterwards: each plain flag as given, the sizes and disks as parsed, the default SSH port |
| RootFlags.JoinIfEmpty | flags.go:144-158 | one required-flag check |
| RootFlags.Driver.SetConfigFromFlags | flags.go:116-165 | every flag stored, sizes and disks as the size helper as written parses them (negative from 2^63 on), the default SSH port; the error joins every failure, in order |
| RootFlags.Driver.Store | flags.go:117-142 | the field assignments store the settings |
| RootFlags.Driver.StoreApi | flags.go:117-132 | host, token, project, vCPUs and memory |
| RootFlags.Driver.StoreDisks | flags.go:121-140 | boot-disk size and image, disk strings and disks |
| RootFlags.Driver.StoreAccess | flags.go:123-128 | VPC, subnet, user-data file, SSH user and keys, and port |
| Legacy.ToRancherMachineState | pkg/driver/oxide/oxide.go:579-594 | total: creating/starting map to Starting, running/migrating to Running, stopping/rebooting to Stopping, stopped/repairing to Stopped, failed/destroyed to Error, anything else to None, each in both directions; never NotFound |
| Legacy.FailFastTwo | pkg/driver/oxide/oxide.go:498-529 | two calls in a row: the second only when the first succeeds |
| Legacy.RequiredErrors | pkg/driver/oxide/oxide.go:476-491 | no missing-flag error iff host, token, project and image are all given |
| Legacy.MissingErrors | pkg/driver/oxide/oxide.go:478-491 | one "required option not set: <flag>" error per empty value, in the order host, token, project, image |
| Legacy.UnwrapNil | pkg/driver/oxide/oxide.go:494 | `errors.Unwrap` of a join is nil; a non-nil result comes from a non-nil error whose message ends with it |
| Legacy.ClientOptions | pkg/driver/oxide/oxide.go:533-539 | the newest revision's client options with the fixed user agent always set |
| Legacy.FirstIp | pkg/driver/oxide/oxide.go:196-199 | no address iff the interface list is empty; otherwise the first interface's address, with no IPv4 check |
| Legacy.RequiredErrorsDiscarded | pkg/driver/oxide/oxide.go:476-494 | the joined error holds one error per empty required flag and is nil iff all four are given, but the returned `errors.Unwrap` of it is always nil |
| Legacy.MissingErrorsPlain | pkg/driver/oxide/oxide.go:478-491 | no missing-flag error is a join |
| Legacy.FourPlain | pkg/driver/oxide/oxide.go:478-491 | four checks in a row produce no join |
| Legacy.IfEmptyPlain | pkg/driver/oxide/oxide.go:478-491 | one more check produces no join |
| Legacy.MissingErrorsPresent | pkg/driver/oxide/oxide.go:478-491 | there is an error iff some required value is empty |
| Legacy.JoinUnwrapsToNil | pkg/driver/oxide/oxide.go:494 | `errors.Unwrap` of `errors.Join`'s result is always nil |
| Legacy.NothingGiven | pkg/driver/oxide/oxide.go:476-494 | with nothing given, the discarded error lists all four flags in order |
| Legacy.Configure | pkg/driver/oxide/oxide.go:461-494 | the settings stored and the nil that is returned |
| Legacy.SettingsOf | pkg/driver/oxide/oxide.go:461-474 | each flag as given, memory and boot-disk size as plain integers, the default SSH port |
| Legacy.ByteCount | pkg/driver/oxide/oxide.go:160-165 | `oxide.ByteCount(int)` keeps sizes below 2^64 and turns a negative size into 2^64 + n |
| Legacy.Request | pkg/driver/oxide/oxide.go:150-182 | the generated key before the configured ones, the boot disk from the image, one NIC not asking for IPv4, no disks, external IPs or anti-affinity groups; `Revisions.OldRequestIsNewestWithoutExtras` relates it to the newest request |
| Legacy.Launch | pkg/driver/oxide/oxide.go:141-203 | after the key upload, the key ID is kept and no disk IDs are recorded |
| Legacy.Instantiate | pkg/driver/oxide/oxide.go:150-203 | the same, after reading the user data |
| Legacy.CreateSpec | pkg/driver/oxide/oxide.go:123-204 | this revision never records additional-disk IDs |
| Legacy.CreateRecords | pkg/driver/oxide/oxide.go:123-204 | key ID, instance and address are each recorded iff their call succeeds; an empty NIC list is no error and leaves the address unset; success iff every call succeeds |
| Legacy.LaunchFailsFast | pkg/driver/oxide/oxide.go:141-203 | the user-data read, instance creation and NIC listing stop at the first failure |
| Legacy.CreateFailsFast | pkg/driver/oxide/oxide.go:123-204 | `Create`'s calls, two clients included, stop at the first failure |
| Legacy.GetStateSpec | pkg/driver/oxide/oxide.go:336-350 | every failure comes with state None; success iff the client and the view succeed, and then the state is the mapped run state |
| Legacy.GetStateFailsFast | pkg/driver/oxide/oxide.go:336-350 | a fail-fast run of a new client and the view |
| Legacy.RemovalDeletesThree | pkg/driver/oxide/oxide.go:390-440 | a successful removal: two clients and the stop, the reads each with its own client, then key, instance and boot disk, and nothing else |
| Legacy.StoppedRemoval | pkg/driver/oxide/oxide.go:400-439 | after the stop: a client and a view per read until the wait ends, then key, instance and boot disk only |
| Legacy.RemoveSpec | pkg/driver/oxide/oxide.go:390-440 | the specification of `Remove`: a client, the stop with another client, then `StoppedRemoval` |
| Legacy.RemovePolls | pkg/driver/oxide/oxide.go:390-419 | the state reads of `Remove`: at most `deadline`, and none unless the client and the stop both succeed |
| Legacy.RemovalTimesOut | pkg/driver/oxide/oxide.go:390-419 | such a removal deletes nothing and fails with the timeout error |
| Legacy.Driver.constructor | pkg/driver/oxide/oxide.go:108-117 | the machine name and the default SSH user and port; every other field at Go's zero value, so the configuration is empty and no key, instance or boot-disk ID and no address is recorded |
| Legacy.Driver.SetConfigFromFlags | pkg/driver/oxide/oxide.go:461-495 | every flag stored as given, memory and boot-disk size as plain integers; the returned error is the unwrapped join, always nil |
| Legacy.Driver.Store | pkg/driver/oxide/oxide.go:462-474 | the field assignments store the settings |
| Legacy.Driver.StoreApi | pkg/driver/oxide/oxide.go:462-466 | host, token, project, vCPUs and memory |
| Legacy.Driver.StoreInstance | pkg/driver/oxide/oxide.go:467-470 | boot-disk size and image, VPC and subnet |
| Legacy.Driver.StoreAccess | pkg/driver/oxide/oxide.go:471-474 | user-data file, SSH user and keys, and port |
| Legacy.Driver.CreateOxideClient | pkg/driver/oxide/oxide.go:533-539 | one `NewClient` call with host, token and the fixed user agent |
| Legacy.Driver.ConfigureSshKey | pkg/driver/oxide/oxide.go:545-574 | a new client, then the key upload named after the machine; the uploaded key or the first error |
| Legacy.Driver.Create | pkg/driver/oxide/oxide.go:123-204 | the calls, the error, and the stored IDs and address match `CreateSpec` |
| Legacy.Driver.LaunchInstance | pkg/driver/oxide/oxide.go:141-203 | after the key: matches `Launch` |
| Legacy.Driver.CreateInstance | pkg/driver/oxide/oxide.go:150-203 | instance creation and address: matches `Instantiate` |
| Legacy.Driver.BuildRequest | pkg/driver/oxide/oxide.go:136-182 | the request built with the key loop is exactly `Request` |
| Legacy.Driver.RecordAddress | pkg/driver/oxide/oxide.go:190-201 | one NIC-list call; the first NIC's address when there is one, the old address otherwise |
| Legacy.Driver.GetState | pkg/driver/oxide/oxide.go:336-350 | matches `GetStateSpec` with a new client |
| Legacy.Driver.Start | pkg/driver/oxide/oxide.go:498-512 | a new client, then the start call, failing fast |
| Legacy.Driver.Stop | pkg/driver/oxide/oxide.go:515-529 | a new client, then the stop call, failing fast |
| Legacy.Driver.Restart | pkg/driver/oxide/oxide.go:443-457 | a new client, then the reboot call, failing fast |
| Legacy.Driver.Remove | pkg/driver/oxide/oxide.go:390-440 | the calls and error match `RemoveSpec`; the view counter has grown by `RemovePolls`, the reads actually made |
| Legacy.Driver.RemoveStopped | pkg/driver/oxide/oxide.go:400-439 | the wait, then the three deletions, as `StoppedRemoval`; the view counter grows by the wait's reads |
| Legacy.Driver.AwaitStopped | pkg/driver/oxide/oxide.go:404-419 | the loop's result is the bounded wait; a client and a view call per read |
| Legacy.Driver.DeleteFixed | pkg/driver/oxide/oxide.go:421-437 | key, instance and boot disk, stopping at the first failure |
| Revisions.StateMappingsDiffer | pkg/driver/oxide/oxide.go:579-594 | the oldest and newest mappings differ exactly on rebooting, repairing and destroyed |
| Revisions.RepairingEndsOnlyTheOldWait | pkg/driver/oxide/oxide.go:587-588 | a repairing instance ends the oldest revision's wait as stopped; the newest keeps waiting |
| Revisions.DiskNamesAgreeFromTen | size_helpers.go:18-25 | from position 10 on, the root revision's and the newest disk names are equal |
| Revisions.DiskNamesDifferBelowTen | size_helpers.go:18-25 | below 10 the newest name is one character longer, so the names differ |
| Revisions.EmptyLabelAfterComma | size_helpers.go:30-31 | for `SIZE,`, the newest parser gives "additional" and the root one gives the empty label |
| Revisions.OldRequestIsNewestWithoutExtras | pkg/driver/oxide/oxide.go:150-182 | with 64-bit sizes, the oldest request is the newest one without disks, external IPs or anti-affinity groups, except that its NIC does not ask for automatic IPv4 |
| Revisions.NegativeMemoryWraps | pkg/driver/oxide/oxide.go:165 | a negative memory setting asks for 2^64 + n bytes |
| Revisions.OldDeletionsAreNewestWithoutDisks | pkg/driver/oxide/oxide.go:421-437 | the oldest deletions are the newest ones for no additional disks; otherwise the newest also deletes each disk |
| Revisions.MissingHostFailsExceptOldest | pkg/driver/oxide/oxide.go:478-494 | a missing host fails the newest and root revisions; the oldest returns nil |

## Left out

- I/O is not modelled: file reads, SSH key generation, and the key pair files. Their answers come from the `Script`. `PreCreateCheck`'s `os.Stat` is left out.
- Api.Platform.CurrentUserSshKeyCreate: generating the key pair, reading the `.pub` file and uploading the key are one traced `SshKeyCreate` call with one scripted answer. A failure in generation or in the read is not told apart from a failed upload; in the source all three return at once, before any later call.
- SizeHelpers.Int64Of: Go's `int` is taken to be 64 bits wide, as on 64-bit platforms; on a 32-bit platform `int(uint64)` would keep only the low 32 bits, which the model does not capture.
- The wall clock is not modelled. The two-minute deadline of `Remove` is a number of state reads, `deadline`.
- `%q` escaping: flag names and disk strings are quoted verbatim, since the names the driver uses need no escaping.
- The base64 encoding of user data is not modelled. The request carries `Base64Of(raw)`, a constructor around the raw bytes.
- `humanize.ParseBytes` is a parameter; its parsing of units and fractions is not modelled.
- `GetCreateFlags` in all three revisions is flag registration only.
- The delegations are not modelled: `DriverName`, `GetIP`, `GetSSHHostname`, `GetSSHPort`, `GetSSHUsername`, `GetSSHKeyPath`, `GetMachineName`, `GetURL` and `Kill`.
- client.go (the root revision's client constructor) is not part of this model. The root revision's other operations are not shown either.
- debug_helper.go is not part of this model.
- `ParseExternalIP` is not part of this model.
- Pagination of the `…ListAllPages` calls: each is one call with its whole answer.
- `errRequiredOptionNotSet` is defined in no shown file. Its value "required option not set: " is taken from flags_test.go:48-51.
- Legacy.ClientErr: a client made from the same host and token gets the same answer every time. The oldest revision's later clients in `Create`, `Remove` and `GetState` therefore succeed once the first does.
- Legacy.ClientOptions: the `oxide.Config` struct is given as the equivalent host, token and user-agent options.
- OxideDriver.Request: `oxide.InstanceCpuCount(d.VCPUS)` is kept as the integer; its narrowing is not modelled.
- Legacy.Request: `oxide.InstanceCpuCount(d.VCPUS)` is likewise kept as the integer; its narrowing is not modelled.
- Legacy.ByteCount: the type `oxide.ByteCount` is not part of this model. It is read as an unsigned 64-bit count, as the request fields of the model are. Under a signed definition the conversion would keep a negative size negative; `Revisions.NegativeMemoryWraps` holds only under the unsigned reading.
- Revisions.NegativeMemoryWraps: rests on the unsigned reading of `oxide.ByteCount` above.
- The newest driver's `oxideClient` field is a `hasClient` flag. The client object itself is not modelled.

## Findings

| source | as written | input that shows it | evidently intended | confidence | as-written member | corrected member |
|---|---|---|---|---|---|---|
| size_helpers.go:52-56 | the 1-PiB bound is checked on `int(sizeUInt64)`, which is negative from 2^63 on | a parser answer of 2^63 for "8 EiB": size -2^63, no error | every size above one pebibyte is rejected | high (proved on the model; not executed) | SizeHelpers.EightExbibytesAccepted | SizeHelpers.HumanizeSizeChecked |
