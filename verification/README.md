# Daikin air conditioners on Matterbridge: a verified model

The plugin bridges Daikin air conditioners, reached over the vendor's LAN
protocol, into the Matterbridge host as Matter thermostats. This project models
the plugin's own logic in Dafny and proves properties of it:

- `MatterDevice` (src/DaikinMatterDevice.ts): the two mode tables between the
  vendor's numeric mode codes and the host's `Thermostat.SystemMode`, the
  replacement of the manual target-temperature sentinel `"M"` by 24 degrees, the
  storage key, the node label and the numeric versions derived from version
  strings, the initial attribute values `createEndpoint` builds an endpoint
  from, and the six attribute writes of `restoreState`.
- `Platform` (src/platform.ts): parsing of each `daikinIPs` entry
  `"<ip>[,useGetToPost]"`, the class `DaikinAcPlatform` with the fields the
  source updates (`isConfigValid`, `isPluginConfigured`, `daikinIPs`,
  `devices`), its device-creation loop, its restore loop, and the `onStart` and
  `onConfigure` lifecycle methods.
- `JsString`: the JavaScript built-ins those rely on: `split` on one
  character (with its inverse `join`), `replace(/\D/g, '')` and `parseInt`.
- `Thermostat`, `DaikinState`, `Optional`: the host mode enumeration, the vendor
  mode enumeration and the records the vendor library answers with. Both
  enumerations are kept abstract: their numeric values are defined in
  src/models/DaikinAcMode.ts and in the matterbridge package, which are not
  modelled. `None` stands for `undefined`.

The network is not modelled. The model receives its outcomes as parameters,
by position in the loop: `setup(i, d)` says whether connecting the `i`-th device
and building its endpoint succeed, and `fetch(i, d)` gives the state read from
the `i`-th device (`None` when the read fails). Each entry gets a device object
with a connection of its own, so two entries with the same address may fare
differently. A failure ends the loop, as the unguarded `await` in the source
does.
Temperatures are in degrees Celsius throughout.

Where the code and its comment disagree, the model follows the code. The
comment at src/DaikinMatterDevice.ts:57 and :88 says the target temperature
defaults to 24 "if not set". The code replaces only the `"M"` sentinel. An
undefined target is passed on unchanged (`TargetSetpoint` returns `None`).

## Model

| member | source | states |
|---|---|---|
| `MatterDevice.MapDaikinModeToMatter` | src/DaikinMatterDevice.ts:99-113 | power off gives `Off` whatever the code; the result is `Cool` exactly when powered with mode code 3; every result is `Off` or `Cool`, never Heat, Auto, Dry, FanOnly or another mode |
| `MatterDevice.MapMatterModeToDaikin` | src/DaikinMatterDevice.ts:116-127 | the vendor `Cool` comes back exactly for host `Cool`; every other host mode, known or not, gives vendor `Off` |
| `MatterDevice.ModeRoundTrip` | src/DaikinMatterDevice.ts:99-127 | a host mode sent to the device and read back, with `Cool` assumed to carry code 3 and `Off` another code, is `Cool` only for powered `Cool` and `Off` otherwise; for a powered unit it gives back the same mode exactly for `Off` and `Cool` |
| `MatterDevice.TargetSetpoint` | src/DaikinMatterDevice.ts:57 | the sentinel `"M"` becomes 24; a number is passed on unchanged; an undefined target stays undefined (line 88 uses the same rule) |
| `MatterDevice.StorageKey` | src/DaikinMatterDevice.ts:34 | the key is `"daikin-ac-"` followed by the device name, and the name can be read back from it |
| `MatterDevice.StorageKeyInjective` | src/DaikinMatterDevice.ts:34 | devices with different names get different storage keys |
| `MatterDevice.NodeLabel` | src/DaikinMatterDevice.ts:42 | the label is `"AC "` followed by the device name |
| `MatterDevice.VersionNumber` | src/DaikinMatterDevice.ts:47-49 | a numeric version is the decimal value of the version string's digits, in order, with every non-digit dropped; it is NaN exactly when the string holds no digit |
| `MatterDevice.VersionNumberAppend` | src/DaikinMatterDevice.ts:47 | the number of any concatenation with a digit in it is the first part's digits shifted left by the digit count of the second part, plus the second part's digits |
| `MatterDevice.VersionNumberTag` | src/DaikinMatterDevice.ts:47 | a digit-free suffix such as "-beta" leaves the version number unchanged |
| `MatterDevice.VersionNumberCollision` | src/DaikinMatterDevice.ts:47 | the derivation is lossy: "1.23.4" and "12.3.4" both give 1234 |
| `MatterDevice.VersionLabel` | src/DaikinMatterDevice.ts:48 | an empty plugin version is reported as "Unknown", any other is reported unchanged, so the reported string is never empty |
| `MatterDevice.CreateEndpoint` | src/DaikinMatterDevice.ts:34-63 | the endpoint starts with the derived key, label, vendor id 0xfff1 and versions; the plugin version is the software version and the host version is the hardware version, the latter's string passed unchanged; the on/off state is the reported power; both setpoints follow the sentinel rule; the local and measured temperatures are the indoor temperature |
| `MatterDevice.RestoredMode` | src/DaikinMatterDevice.ts:89 | the restored mode is `Cool` exactly when the power is `true` and the code is 3; an undefined power or mode gives `Off` |
| `MatterDevice.RestoreWrites` | src/DaikinMatterDevice.ts:83-97 | restoring issues exactly six attribute writes |
| `MatterDevice.RestoreAgreesWithEndpoint` | src/DaikinMatterDevice.ts:88-96 | when power, target and indoor temperature are all reported, the first five restore writes push the values the endpoint was created with from the same state, in the order on/off, cooling setpoint, heating setpoint, measured value, local temperature; the sixth is the mode |
| `MatterDevice.RestoredModeCool` | src/DaikinMatterDevice.ts:89-96 | the mode write restores `Cool` for a powered unit reporting code 3 and `Off` in every other case |
| `JsString.Split` | src/platform.ts:52 | a split yields at least one field, and no field contains the separator |
| `JsString.JoinSplit` | src/platform.ts:52 | joining the fields of a split with the separator gives back the entry |
| `JsString.SplitJoin` | src/platform.ts:52 | splitting a join of separator-free fields gives back the fields |
| `JsString.FirstField` | src/platform.ts:52-54 | the first field is the text before the first separator, and the whole string when there is none |
| `JsString.LaterFields` | src/platform.ts:52-57 | the fields after the first are the split of the text after the first separator |
| `JsString.FirstFieldEquals` | src/platform.ts:57 | the first field equals a separator-free word exactly when the text is that word, or the word followed by the separator and more text |
| `JsString.KeepDigits` | src/DaikinMatterDevice.ts:47 | removing the non-digits leaves only digits and never lengthens the string |
| `JsString.KeepDigitsAppend` | src/DaikinMatterDevice.ts:47 | non-digits are dropped piece by piece, so the digits keep their order |
| `JsString.KeepDigitsOfDigits` | src/DaikinMatterDevice.ts:47 | a string of digits is unchanged, so the removal is idempotent |
| `JsString.KeepDigitsEmpty` | src/DaikinMatterDevice.ts:47 | nothing remains exactly when the string holds no digit |
| `JsString.DecimalValue` | src/DaikinMatterDevice.ts:47 | a digit string of length n denotes a number below 10^n |
| `JsString.DecimalValueAppend` | src/DaikinMatterDevice.ts:47 | the value of a concatenation is the first value shifted left by the second's length, plus the second value |
| `JsString.LeadingZero` | src/DaikinMatterDevice.ts:47 | leading zeros do not change the parsed value |
| `JsString.ParseInt` | src/DaikinMatterDevice.ts:47 | `parseInt` gives NaN exactly when the string does not start with a digit, and reads the whole of a non-empty digit string |
| `Platform.ParseEntry` | src/platform.ts:52-59 | the address is a comma-free prefix of the entry; the options either omit the flag or set it to true, never to false |
| `Platform.AddressBeforeFirstComma` | src/platform.ts:52-54 | the address is the text before the first comma; an entry without a comma is entirely the address and has no options |
| `Platform.UseGetToPostExactly` | src/platform.ts:57-59 | the flag is set exactly when the text after the first comma is "useGetToPost", alone or followed by a comma; case and blanks matter, and further fields are ignored |
| `Platform.ParseEntryWithOption` | src/platform.ts:52-59 | "192.168.1.5,useGetToPost" gives address 192.168.1.5 with the flag set |
| `Platform.ParseEntryAddressOnly` | src/platform.ts:52-59 | "192.168.1.6" gives address 192.168.1.6 with empty options |
| `Platform.ParseEntryLeadingBlank` | src/platform.ts:57-59 | "1.2.3.4, useGetToPost" leaves the flag unset |
| `Platform.ParseEntryExtraField` | src/platform.ts:57-59 | "1.2.3.4,useGetToPost,extra" sets the flag and keeps address 1.2.3.4 |
| `Platform.ConfiguredEntries` | src/platform.ts:13-24 | a missing `daikinIPs` setting gives no entries; otherwise the entries are the configured list as given |
| `Platform.DeviceFor` | src/platform.ts:62 | a device gets the address and options parsed from its entry |
| `Platform.DevicesFor` | src/platform.ts:51-67 | one device per entry, at the same position as its entry |
| `Platform.SetUpCount` | src/platform.ts:62-67 | counts the entries set up before the first failure: the device of every entry before that point set up, and the device of the entry at it did not |
| `Platform.SetupOutcome` | src/platform.ts:51-70 | starting succeeds exactly when every entry's device sets up; a failure names the first entry whose device did not set up |
| `Platform.SameAddressSetUpApart` | src/platform.ts:51-70 | each entry gets its own device: of two entries with the same address, the first can set up while the second fails, and starting then reports the second |
| `Platform.FetchedCount` | src/platform.ts:75-77 | counts the devices read before the first failed read: all before that point were read, and the device at it was not |
| `Platform.RestoreOutcome` | src/platform.ts:73-78 | restoring succeeds exactly when every device's state can be read; a failure names the address of the first device that could not be read |
| `Platform.RestoreWritesFor` | src/platform.ts:75-77 | restoring n devices issues 6n writes |
| `Platform.RestoreWritesAt` | src/platform.ts:75-77 | devices are restored one at a time in list order: writes 6i to 6i+5 are the restore writes of device i |
| `Platform.DaikinAcPlatform.constructor` | src/platform.ts:16-27 | the entries are those of the configuration; no devices exist yet; the configuration is marked valid; the plugin is not configured yet |
| `Platform.DaikinAcPlatform.CreateDevices` | src/platform.ts:50-71 | appends to `devices` one device per entry, in configuration order, up to the first entry that fails to set up; reports that entry; changes nothing else |
| `Platform.DaikinAcPlatform.OnStart` | src/platform.ts:29-39 | fails without touching `devices` when the configuration is not marked valid; otherwise it creates the devices |
| `Platform.DaikinAcPlatform.RestoreState` | src/platform.ts:73-78 | visits the devices in list order and emits each one's restore writes, up to the first device whose state cannot be read |
| `Platform.DaikinAcPlatform.OnConfigure` | src/platform.ts:41-48 | restores all devices; `isPluginConfigured` becomes true only when that pass has finished, and a failed pass leaves it unchanged |
| `Platform.LoadAndStart` | src/platform.ts:26-32 | a freshly constructed platform never refuses to start for an invalid configuration; with no `daikinIPs` it starts with an empty device list |

## Left out

- The vendor device adapter (src/DaikinAcDevice.ts) wraps the callback API of the `daikin-controller` library in promises. It is I/O through the `daikin-controller` library, which is not modelled. Its effects appear only as the `setup` and `fetch` parameters.
- The `x100` and `/100` conversions to hundredths of a degree are not modelled (src/DaikinMatterDevice.ts:63, 69-70, 92-95). They are floating-point arithmetic on possibly fractional temperatures.
- `MatterDevice.RestoreWrites`: the setpoint, measured-value and local-temperature writes carry degrees; the source writes hundredths of a degree. For an undefined value the source writes `undefined` for the power and NaN (`undefined * 100`, src/DaikinMatterDevice.ts:92-95) for the setpoints and temperatures; the model writes `None` in both cases.
- `MatterDevice.CreateEndpoint`: the measured value is in degrees (the source passes hundredths). The serial number is left out: it is the first 16 hex digits of a SHA-256 of the storage key, which is foreign crypto.
- `MatterDevice.CreateEndpoint`: the framework's default values for an undefined power, setpoint or local temperature are host framework behaviour and are not modelled. With an undefined indoor temperature the source's measured value is NaN (`undefined * 100`, src/DaikinMatterDevice.ts:63), not undefined, so no framework default applies to it; the model gives `None` for it as for the local temperature.
- `MatterDevice.RestoreAgreesWithEndpoint`: covers only states where power, target temperature and indoor temperature are all defined. With an undefined power, target or indoor temperature, `createEndpoint` passes `undefined` for the on/off state, the setpoints and the local temperature, and the host framework fills in its default, but passes NaN as the measured value; `restoreState` writes `undefined` (power) or NaN (setpoints, temperatures). The model writes `None` in all these cases, and the framework defaults are not modelled.
- The device name is taken to be always reported. With an undefined name the source's template literals give the key `"daikin-ac-undefined"` and the label `"AC undefined"` (src/DaikinMatterDevice.ts:34, 42); the model has no undefined name.
- `JsString.ParseInt`: models `parseInt` for strings without leading blanks, sign or radix prefix. That is the only kind the plugin passes to it. It returns the exact integer, while JavaScript rounds digit strings beyond 2^53 to a float.
- Endpoint and cluster construction, the identify/on/off command handlers, the setpoint and mode subscriptions (the mode subscription's translation is `MapMatterModeToDaikin`), `registerWithPlatform`, `setSelectDevice`, `validateDevice`, `clearSelect`, `ready` and `onShutdown` are Matterbridge framework calls or log output.
- Async sequencing, logging and the unhandled rejection of the un-awaited `registerWithPlatform` are not modelled. The host entry point (src/index.ts) appears only as the construction inside `LoadAndStart`.
- The mode tables take the vendor mode code as an integer. A fractional JavaScript number falls to the default arm, just as a non-3 integer does.
