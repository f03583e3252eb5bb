/**
 * The parts of the Rancher machine library (libmachine) the driver uses: the
 * machine states it reports and the flag values it is configured from.
 */
module Rancher {

  /** `state.State`, restricted to the states the driver reports. */
  datatype MachineState = None | Running | Stopping | Stopped | Starting | Error | NotFound

  /**
   * `drivers.DriverOptions`: the flag values Rancher hands to the driver, read
   * by flag name and type. A flag that was not given reads as the zero value
   * of its type.
   */
  datatype Options = Options(
    String: string -> string,
    Int: string -> int,
    Bool: string -> bool,
    StringSlice: string -> seq<string>)
}
