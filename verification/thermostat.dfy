/**
 * The host's thermostat system-mode enumeration (`Thermostat.SystemMode` of the
 * Matter thermostat cluster). Its numeric values belong to the host framework
 * and are not modelled: the modes are kept abstract.
 */
module Thermostat {

  /** `Other` stands for every remaining host mode and for any out-of-range value. */
  datatype SystemMode = Off | Auto | Cool | Heat | Dry | FanOnly | Other

}
