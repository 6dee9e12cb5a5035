/**
 * What the vendor library reports about one air conditioner, in the shape the
 * plugin reads it: the basic info (name and power), the control info (mode code
 * and target temperature) and the sensor info (indoor temperature). Every field
 * but the name may be `undefined`, as in the plugin's own `DaikinAcState` record;
 * the name is taken to be always reported.
 */
module DaikinState {
  import opened Optional

  /**
   * The vendor mode enumeration `DaikinAcMode` that the plugin sends back to the
   * device. Its numeric values are defined outside this model and are kept abstract.
   */
  datatype DaikinAcMode = Off | Auto | Dry | Cool | Heat | Fan | Other

  /** A target temperature: a number of degrees, the manual sentinel "M", or undefined. */
  datatype TargetTemperature = Degrees(celsius: real) | Manual | Unset

  datatype BasicInfo = BasicInfo(name: string, power: Option<bool>)

  /** `mode` is the raw numeric mode code the device reports. */
  datatype ControlInfo = ControlInfo(mode: Option<int>, targetTemperature: TargetTemperature)

  datatype SensorInfo = SensorInfo(indoorTemperature: Option<real>)

  /** The three answers fetched, in this order, whenever the device's state is read. */
  datatype Snapshot = Snapshot(info: BasicInfo, control: ControlInfo, sensor: SensorInfo)

}
