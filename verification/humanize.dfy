/**
 * The byte-size parser of the go-humanize library (`humanize.ParseBytes`),
 * kept abstract: the driver's code is modelled for every parser of this
 * shape.
 */
module Humanize {
  import opened Wrappers
  import Api

  /** What `ParseBytes` returns: the value and, on failure, the error's message. */
  datatype Parsed = Parsed(value: Api.uint64, err: Option<string>)

  /** A `ParseBytes` implementation. */
  type ByteParser = string -> Parsed

  /** `humanize.PiByte`, 2^50 bytes. */
  const PI_BYTE: int := 0x4_0000_0000_0000
}
