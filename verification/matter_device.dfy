/**
 * The logic of one bridged air conditioner (`DaikinMatterDevice`) that does not
 * talk to the network or the host: the two mode tables, the manual-setpoint
 * default, the derived identity strings and version numbers, the initial
 * attribute values an endpoint is created with, and the attribute writes that
 * restore it. Temperatures are in degrees Celsius throughout.
 */
module MatterDevice {
  import opened Optional
  import opened JsString
  import opened DaikinState
  import Thermostat

  type SystemMode = Thermostat.SystemMode

  /** The connection options a device is created with; `useGetToPost` is absent or true. */
  datatype DeviceOptions = DeviceOptions(useGetToPost: Option<bool>)

  /**
   * A bridged device as the platform holds it: the address and options it was
   * created with. Its connection to the unit is not part of this model.
   */
  datatype DaikinMatterDevice = DaikinMatterDevice(ip: string, options: DeviceOptions)

  /** The setpoint used while the device reports the manual sentinel "M". */
  const MANUAL_DEFAULT_SETPOINT: real := 24.0

  /** The numeric vendor mode code that means cooling. */
  const COOL_MODE_CODE: int := 3

  const STORAGE_KEY_PREFIX: string := "daikin-ac-"
  const LABEL_PREFIX: string := "AC "
  const UNKNOWN_VERSION: string := "Unknown"
  const VENDOR_ID: int := 0xfff1
  const VENDOR_NAME: string := "Matterbridge"
  const PRODUCT_NAME: string := "Matterbridge Daikin AC"

  /**
   * Vendor state to host mode: only a powered unit in the cooling mode code is
   * `Cool`; everything else, including unknown codes, is `Off`.
   */
  function MapDaikinModeToMatter(power: bool, mode: int): (r: SystemMode)
    ensures !power ==> r == Thermostat.Off
    ensures r == Thermostat.Cool <==> power && mode == COOL_MODE_CODE
    ensures r == Thermostat.Off || r == Thermostat.Cool
  {
    if !power then Thermostat.Off
    else
      match mode
      case 3 => Thermostat.Cool
      case _ => Thermostat.Off
  }

  /** Host mode to vendor mode: `Cool` is kept, every other host mode becomes `Off`. */
  function MapMatterModeToDaikin(mode: SystemMode): (r: DaikinAcMode)
    ensures r == DaikinAcMode.Cool <==> mode == Thermostat.Cool
    ensures r == DaikinAcMode.Cool || r == DaikinAcMode.Off
  {
    match mode
    case Cool => DaikinAcMode.Cool
    case _ => DaikinAcMode.Off
  }

  /**
   * A host mode written to the device and read back. The vendor enumeration's
   * numbers are not part of this model, so `code` stands for them, under the
   * assumption that its `Cool` is the code the reverse table recognises and its
   * `Off` is not. Then the round trip gives back `Cool` for a powered unit and
   * `Off` in every other case: it is exact for `Off` and `Cool` only.
   */
  lemma ModeRoundTrip(code: DaikinAcMode -> int, power: bool, mode: SystemMode)
    requires code(DaikinAcMode.Cool) == COOL_MODE_CODE
    requires code(DaikinAcMode.Off) != COOL_MODE_CODE
    ensures MapDaikinModeToMatter(power, code(MapMatterModeToDaikin(mode)))
      == if power && mode == Thermostat.Cool then Thermostat.Cool else Thermostat.Off
    ensures power ==>
      ((MapDaikinModeToMatter(power, code(MapMatterModeToDaikin(mode))) == mode)
        <==> (mode == Thermostat.Off || mode == Thermostat.Cool))
  {
  }

  /**
   * The setpoint handed to the host: 24 degrees for the manual sentinel, the
   * reported number otherwise; an undefined target stays undefined.
   */
  function TargetSetpoint(t: TargetTemperature): (r: Option<real>)
    ensures t.Manual? ==> r == Some(MANUAL_DEFAULT_SETPOINT)
    ensures t.Degrees? ==> r == Some(t.celsius)
    ensures r.None? <==> t.Unset?
  {
    match t
    case Manual => Some(MANUAL_DEFAULT_SETPOINT)
    case Degrees(c) => Some(c)
    case Unset => None
  }

  /** The key under which the host stores the endpoint: the prefix, then the device name. */
  function StorageKey(name: string): (key: string)
    ensures |key| == |STORAGE_KEY_PREFIX| + |name|
    ensures key[..|STORAGE_KEY_PREFIX|] == STORAGE_KEY_PREFIX
    ensures key[|STORAGE_KEY_PREFIX|..] == name
  {
    STORAGE_KEY_PREFIX + name
  }

  /** Devices with different names get different storage keys. */
  lemma StorageKeyInjective(a: string, b: string)
    requires StorageKey(a) == StorageKey(b)
    ensures a == b
  {
    assert a == StorageKey(a)[|STORAGE_KEY_PREFIX|..];
  }

  /** The label shown by the host: "AC ", then the device name. */
  function NodeLabel(name: string): (text: string)
    ensures |text| == |LABEL_PREFIX| + |name|
    ensures text[..|LABEL_PREFIX|] == LABEL_PREFIX
    ensures text[|LABEL_PREFIX|..] == name
  {
    LABEL_PREFIX + name
  }

  /**
   * `parseInt(version.replace(/\D/g, ''))`: the decimal value of the version's
   * digits read in order with every other character dropped; `None` (NaN)
   * exactly when the version holds no digit.
   */
  function VersionNumber(version: string): (r: Option<nat>)
    ensures r.None? <==> forall k :: 0 <= k < |version| ==> !IsDigit(version[k])
    ensures r.Some? ==> r.value == DecimalValue(KeepDigits(version))
  {
    KeepDigitsEmpty(version);
    ParseInt(KeepDigits(version))
  }

  /** Separators carry no weight: the number of `a + b` is that of `a`'s digits followed by `b`'s. */
  lemma VersionNumberAppend(a: string, b: string)
    requires KeepDigits(a) != [] || KeepDigits(b) != []
    ensures VersionNumber(a + b).Some?
    ensures VersionNumber(a + b).value
      == DecimalValue(KeepDigits(a)) * Pow10(|KeepDigits(b)|) + DecimalValue(KeepDigits(b))
  {
    KeepDigitsAppend(a, b);
    KeepDigitsEmpty(a + b);
    DecimalValueAppend(KeepDigits(a), KeepDigits(b));
  }

  /** A digit-free suffix such as a "-beta" tag leaves the number unchanged. */
  lemma VersionNumberTag(version: string, tag: string)
    requires forall k :: 0 <= k < |tag| ==> !IsDigit(tag[k])
    ensures VersionNumber(version + tag) == VersionNumber(version)
  {
    KeepDigitsEmpty(tag);
    KeepDigitsAppend(version, tag);
    assert KeepDigits(version + tag) == KeepDigits(version);
  }

  lemma KeepDigitsExamples()
    ensures KeepDigits("1.23.4") == "1234"
    ensures KeepDigits("12.3.4") == "1234"
  {
    assert KeepDigits("4") == "4";
    assert KeepDigits(".4") == "4";
    assert KeepDigits("3.4") == "34";
    assert KeepDigits(".3.4") == "34";
    assert KeepDigits("23.4") == "234";
    assert KeepDigits(".23.4") == "234";
  }

  lemma DecimalValueExample()
    ensures AllDigits("1234") && DecimalValue("1234") == 1234
  {
    assert "1234"[..3] == "123" && "123"[..2] == "12" && "12"[..1] == "1";
    assert DecimalValue("1") == 1;
    assert DecimalValue("12") == 12;
    assert DecimalValue("123") == 123;
  }

  /** The derivation is lossy: "1.23.4" and "12.3.4" give the same number, 1234. */
  lemma VersionNumberCollision()
    ensures VersionNumber("1.23.4") == VersionNumber("12.3.4") == Some(1234)
  {
    KeepDigitsExamples();
    DecimalValueExample();
  }

  /** The version string reported for the plugin: "Unknown" in place of an empty one. */
  function VersionLabel(version: string): (r: string)
    ensures r != ""
    ensures version != "" ==> r == version
    ensures version == "" ==> r == UNKNOWN_VERSION
  {
    if version == "" then UNKNOWN_VERSION else version
  }

  /** The bridged-device basic information the endpoint is created with (the serial is left out). */
  datatype BasicInformation = BasicInformation(
    nodeLabel: string,
    vendorId: int,
    vendorName: string,
    productName: string,
    softwareVersion: Option<nat>,
    softwareVersionString: string,
    hardwareVersion: Option<nat>,
    hardwareVersionString: string)

  /** The initial attribute values `createEndpoint` derives from one snapshot. */
  datatype EndpointSeed = EndpointSeed(
    storageKey: string,
    basicInformation: BasicInformation,
    onOff: Option<bool>,
    localTemperature: Option<real>,
    occupiedHeatingSetpoint: Option<real>,
    occupiedCoolingSetpoint: Option<real>,
    measuredValue: Option<real>)

  /**
   * The values `createEndpoint` builds the endpoint from. The plugin version
   * becomes the software version, the host version the hardware version.
   */
  function CreateEndpoint(s: Snapshot, pluginVersion: string, hostVersion: string): (e: EndpointSeed)
    ensures e.storageKey == StorageKey(s.info.name)
    ensures e.basicInformation.nodeLabel == NodeLabel(s.info.name)
    ensures e.basicInformation.vendorId == VENDOR_ID
    ensures e.basicInformation.vendorName == VENDOR_NAME
    ensures e.basicInformation.productName == PRODUCT_NAME
    ensures e.basicInformation.softwareVersion == VersionNumber(pluginVersion)
    ensures e.basicInformation.softwareVersionString == VersionLabel(pluginVersion)
    ensures e.basicInformation.hardwareVersion == VersionNumber(hostVersion)
    ensures e.basicInformation.hardwareVersionString == hostVersion
    ensures e.onOff == s.info.power
    ensures e.occupiedHeatingSetpoint == e.occupiedCoolingSetpoint == TargetSetpoint(s.control.targetTemperature)
    ensures e.localTemperature == e.measuredValue == s.sensor.indoorTemperature
  {
    var setpoint := TargetSetpoint(s.control.targetTemperature);
    EndpointSeed(
      StorageKey(s.info.name),
      BasicInformation(
        NodeLabel(s.info.name), VENDOR_ID, VENDOR_NAME, PRODUCT_NAME,
        VersionNumber(pluginVersion), VersionLabel(pluginVersion),
        VersionNumber(hostVersion), hostVersion),
      s.info.power,
      s.sensor.indoorTemperature,
      setpoint,
      setpoint,
      s.sensor.indoorTemperature)
  }

  /** One host attribute write issued by `restoreState`. */
  datatype AttributeWrite =
    | OnOff(on: Option<bool>)
    | OccupiedCoolingSetpoint(cooling: Option<real>)
    | OccupiedHeatingSetpoint(heating: Option<real>)
    | MeasuredValue(measured: Option<real>)
    | LocalTemperature(local: Option<real>)
    | SystemModeWrite(mode: SystemMode)

  /**
   * The host mode `restoreState` computes from the reported power and mode code.
   * An undefined power is falsy; an undefined mode code matches no case.
   */
  function RestoredMode(power: Option<bool>, mode: Option<int>): (r: SystemMode)
    ensures r == Thermostat.Cool <==> power == Some(true) && mode == Some(COOL_MODE_CODE)
    ensures r == Thermostat.Off || r == Thermostat.Cool
  {
    match mode
    case None => Thermostat.Off
    case Some(code) => MapDaikinModeToMatter(power == Some(true), code)
  }

  /** The six attribute writes of `restoreState`, in the order it awaits them. */
  function RestoreWrites(s: Snapshot): (w: seq<AttributeWrite>)
    ensures |w| == 6
  {
    var setpoint := TargetSetpoint(s.control.targetTemperature);
    [ OnOff(s.info.power),
      OccupiedCoolingSetpoint(setpoint),
      OccupiedHeatingSetpoint(setpoint),
      MeasuredValue(s.sensor.indoorTemperature),
      LocalTemperature(s.sensor.indoorTemperature),
      SystemModeWrite(RestoredMode(s.info.power, s.control.mode)) ]
  }

  /**
   * When the unit reports its power, target and indoor temperature, restoring
   * re-pushes exactly the values the endpoint was created with: the same power,
   * the same setpoint rule for both setpoints, the same indoor temperature; the
   * mode is the only value restoring adds. (An undefined value is not covered:
   * creation then gets the host framework's default, restoring writes
   * `undefined` or NaN.)
   */
  lemma RestoreAgreesWithEndpoint(s: Snapshot, pluginVersion: string, hostVersion: string)
    requires s.info.power.Some? && !s.control.targetTemperature.Unset? && s.sensor.indoorTemperature.Some?
    ensures var e := CreateEndpoint(s, pluginVersion, hostVersion);
      RestoreWrites(s)[..5] ==
        [ OnOff(e.onOff),
          OccupiedCoolingSetpoint(e.occupiedCoolingSetpoint),
          OccupiedHeatingSetpoint(e.occupiedHeatingSetpoint),
          MeasuredValue(e.measuredValue),
          LocalTemperature(e.localTemperature) ]
    ensures RestoreWrites(s)[5] == SystemModeWrite(RestoredMode(s.info.power, s.control.mode))
  {
  }

  /** The restored mode is `Cool` exactly for a powered unit reporting the cooling code. */
  lemma RestoredModeCool(s: Snapshot)
    ensures RestoreWrites(s)[5] == SystemModeWrite(
      if s.info.power == Some(true) && s.control.mode == Some(COOL_MODE_CODE)
      then Thermostat.Cool else Thermostat.Off)
  {
  }
}
