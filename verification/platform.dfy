/**
 * The plugin's platform (`DaikinAcPlatform`): it reads the configured list of
 * units, creates one bridged device per entry, in order, and later restores the
 * state of every device it created. Connecting a unit and reading its state
 * go over the network; the model receives their outcome as parameters, by
 * position in the pass: `setup(i, d)` says whether connecting the `i`-th device
 * and building its endpoint succeed, `fetch(i, d)` gives the state read from the
 * `i`-th device, `None` when reading fails. Each position stands for a device
 * object with a connection of its own, so two entries with the same address may
 * fare differently.
 */
module Platform {
  import opened Optional
  import opened JsString
  import opened DaikinState
  import opened MatterDevice

  /** The only option an entry can switch on, written after the first comma. */
  const USE_GET_TO_POST: string := "useGetToPost"

  /** The host-delivered configuration: `daikinIPs` may be missing. */
  datatype PlatformConfig = PlatformConfig(daikinIPs: Option<seq<string>>, debug: bool)

  /** One parsed `daikinIPs` entry. */
  datatype ConfigEntry = ConfigEntry(ip: string, options: DeviceOptions)

  datatype PlatformError =
    | ConfigNotValid          // starting was asked for before the configuration was marked valid
    | SetupFailed(entry: string)
    | RestoreFailed(ip: string)

  datatype Outcome = Pass | Fail(error: PlatformError)

  /**
   * Parses `"<ip>[,useGetToPost]"`: the address is the first comma-separated
   * field; the option is set when the second field is exactly "useGetToPost".
   */
  function ParseEntry(entry: string): (r: ConfigEntry)
    ensures r.ip <= entry && ',' !in r.ip
    ensures r.options == DeviceOptions(None) || r.options == DeviceOptions(Some(true))
  {
    var parts := Split(entry, ',');
    FirstField(entry, ',');
    var options :=
      if |parts| > 1 && parts[1] == USE_GET_TO_POST then DeviceOptions(Some(true))
      else DeviceOptions(None);
    ConfigEntry(parts[0], options)
  }

  /** The address is the text before the first comma, the whole entry when it has none. */
  lemma AddressBeforeFirstComma(entry: string)
    ensures ParseEntry(entry).ip == entry[..IndexOf(entry, ',')]
    ensures ',' !in entry ==> ParseEntry(entry) == ConfigEntry(entry, DeviceOptions(None))
  {
    FirstField(entry, ',');
  }

  /**
   * The option is set exactly when the text after the first comma is
   * "useGetToPost", alone or followed by another comma: case and blanks
   * matter, and fields after the second are ignored.
   */
  lemma UseGetToPostExactly(entry: string)
    ensures ParseEntry(entry).options.useGetToPost == Some(true) <==>
      ',' in entry &&
      var rest := entry[IndexOf(entry, ',') + 1..];
      rest == USE_GET_TO_POST || USE_GET_TO_POST + "," <= rest
  {
    if ',' in entry {
      LaterFields(entry, ',');
      var rest := entry[IndexOf(entry, ',') + 1..];
      FirstField(rest, ',');
      var parts := Split(entry, ',');
      assert |parts| > 1 && parts[1] == rest[..IndexOf(rest, ',')];
      assert ParseEntry(entry).options.useGetToPost == Some(true) <==> parts[1] == USE_GET_TO_POST;
      assert ',' !in USE_GET_TO_POST;
      FirstFieldEquals(rest, ',', USE_GET_TO_POST);
    } else {
      FirstField(entry, ',');
    }
  }

  /** An entry with the option switched on. */
  lemma ParseEntryWithOption()
    ensures ParseEntry("192.168.1.5,useGetToPost") == ConfigEntry("192.168.1.5", DeviceOptions(Some(true)))
  {
    var fields := ["192.168.1.5", "useGetToPost"];
    assert Join(fields, ',') == "192.168.1.5,useGetToPost";
    SplitJoin(fields, ',');
  }

  /** An entry without a comma: the whole entry is the address and no option is set. */
  lemma ParseEntryAddressOnly()
    ensures ParseEntry("192.168.1.6") == ConfigEntry("192.168.1.6", DeviceOptions(None))
  {
    AddressBeforeFirstComma("192.168.1.6");
  }

  /** A blank before the option name leaves the option unset. */
  lemma ParseEntryLeadingBlank()
    ensures ParseEntry("1.2.3.4, useGetToPost").options == DeviceOptions(None)
  {
    var fields := ["1.2.3.4", " useGetToPost"];
    assert Join(fields, ',') == "1.2.3.4, useGetToPost";
    SplitJoin(fields, ',');
  }

  /** Fields after the second one are ignored. */
  lemma ParseEntryExtraField()
    ensures ParseEntry("1.2.3.4,useGetToPost,extra") == ConfigEntry("1.2.3.4", DeviceOptions(Some(true)))
  {
    var fields := ["1.2.3.4", "useGetToPost", "extra"];
    assert Join(fields, ',') == "1.2.3.4,useGetToPost,extra";
    SplitJoin(fields, ',');
  }

  /** Entries taken from the configuration, in order: none when the setting is missing. */
  function ConfiguredEntries(config: PlatformConfig): (entries: seq<string>)
    ensures config.daikinIPs.None? ==> entries == []
    ensures config.daikinIPs.Some? ==> entries == config.daikinIPs.value
  {
    match config.daikinIPs
    case Some(list) => list
    case None => []
  }

  /** The device created for one entry. */
  function DeviceFor(entry: string): (d: DaikinMatterDevice)
    ensures d.ip == ParseEntry(entry).ip && d.options == ParseEntry(entry).options
  {
    var e := ParseEntry(entry);
    DaikinMatterDevice(e.ip, e.options)
  }

  /** The devices pushed for a list of entries: one per entry, in the same order. */
  function DevicesFor(entries: seq<string>): (ds: seq<DaikinMatterDevice>)
    ensures |ds| == |entries|
    ensures forall k :: 0 <= k < |entries| ==> ds[k] == DeviceFor(entries[k])
  {
    if entries == [] then []
    else DevicesFor(entries[..|entries| - 1]) + [DeviceFor(entries[|entries| - 1])]
  }

  /** How many leading entries set up successfully before the first failure. */
  function SetUpCount(entries: seq<string>, setup: (nat, DaikinMatterDevice) -> bool): (n: nat)
    ensures n <= |entries|
    ensures forall k :: 0 <= k < n ==> setup(k, DeviceFor(entries[k]))
    ensures n < |entries| ==> !setup(n, DeviceFor(entries[n]))
  {
    if entries == [] then 0
    else
      var last := |entries| - 1;
      var n := SetUpCount(entries[..last], setup);
      if n < last || !setup(last, DeviceFor(entries[last])) then n
      else |entries|
  }

  /** What starting reports: success when every entry set up, else the first entry that failed. */
  function SetupOutcome(entries: seq<string>, setup: (nat, DaikinMatterDevice) -> bool): (o: Outcome)
    ensures o == Pass <==> forall k :: 0 <= k < |entries| ==> setup(k, DeviceFor(entries[k]))
    ensures o != Pass ==> o == Fail(SetupFailed(entries[SetUpCount(entries, setup)]))
  {
    var n := SetUpCount(entries, setup);
    if n == |entries| then Pass else Fail(SetupFailed(entries[n]))
  }

  /**
   * Each entry gets a device of its own: of two entries with the same address,
   * the first can set up while the second fails, and starting reports the second.
   */
  lemma SameAddressSetUpApart(entry: string)
    ensures SetUpCount([entry, entry], (i: nat, d: DaikinMatterDevice) => i == 0) == 1
    ensures SetupOutcome([entry, entry], (i: nat, d: DaikinMatterDevice) => i == 0) == Fail(SetupFailed(entry))
  {
  }

  /** How many leading devices could be read before the first failure. */
  function FetchedCount(ds: seq<DaikinMatterDevice>, fetch: (nat, DaikinMatterDevice) -> Option<Snapshot>): (n: nat)
    ensures n <= |ds|
    ensures forall k :: 0 <= k < n ==> fetch(k, ds[k]).Some?
    ensures n < |ds| ==> fetch(n, ds[n]).None?
  {
    if ds == [] then 0
    else
      var last := |ds| - 1;
      var n := FetchedCount(ds[..last], fetch);
      if n < last || fetch(last, ds[last]).None? then n
      else |ds|
  }

  /** What restoring reports: success when every device was read, else the first that was not. */
  function RestoreOutcome(ds: seq<DaikinMatterDevice>, fetch: (nat, DaikinMatterDevice) -> Option<Snapshot>): (o: Outcome)
    ensures o == Pass <==> forall k :: 0 <= k < |ds| ==> fetch(k, ds[k]).Some?
    ensures o != Pass ==> o == Fail(RestoreFailed(ds[FetchedCount(ds, fetch)].ip))
  {
    var n := FetchedCount(ds, fetch);
    if n == |ds| then Pass else Fail(RestoreFailed(ds[n].ip))
  }

  /** An attribute write together with the device whose endpoint receives it. */
  datatype DeviceWrite = DeviceWrite(device: DaikinMatterDevice, write: AttributeWrite)

  /** The writes of restoring each device of `ds` in turn, all of which could be read. */
  function RestoreWritesFor(ds: seq<DaikinMatterDevice>, fetch: (nat, DaikinMatterDevice) -> Option<Snapshot>): (w: seq<DeviceWrite>)
    requires forall k :: 0 <= k < |ds| ==> fetch(k, ds[k]).Some?
    ensures |w| == 6 * |ds|
  {
    if ds == [] then []
    else
      var last := |ds| - 1;
      RestoreWritesFor(ds[..last], fetch)
        + seq(6, k requires 0 <= k < 6 => DeviceWrite(ds[last], RestoreWrites(fetch(last, ds[last]).value)[k]))
  }

  /**
   * Devices are restored one at a time, in list order: the six writes of the
   * `i`-th device occupy positions `6 * i` to `6 * i + 5`.
   */
  lemma {:induction false} RestoreWritesAt(ds: seq<DaikinMatterDevice>, fetch: (nat, DaikinMatterDevice) -> Option<Snapshot>, i: nat, k: nat)
    requires forall j :: 0 <= j < |ds| ==> fetch(j, ds[j]).Some?
    requires i < |ds| && k < 6
    ensures RestoreWritesFor(ds, fetch)[6 * i + k] == DeviceWrite(ds[i], RestoreWrites(fetch(i, ds[i]).value)[k])
    decreases |ds|
  {
    var init := ds[..|ds| - 1];
    if i < |ds| - 1 {
      RestoreWritesAt(init, fetch, i, k);
      assert init[i] == ds[i];
    }
  }

  class DaikinAcPlatform {
    var debugEnabled: bool
    var isPluginConfigured: bool
    var isConfigValid: bool
    var daikinIPs: seq<string>
    var devices: seq<DaikinMatterDevice>

    /** Reads the configuration; a missing `daikinIPs` leaves the list empty. */
    constructor (config: PlatformConfig)
      ensures debugEnabled == config.debug
      ensures daikinIPs == ConfiguredEntries(config)
      ensures devices == []
      ensures isConfigValid && !isPluginConfigured
    {
      isPluginConfigured := false;
      isConfigValid := false;
      daikinIPs := [];
      devices := [];
      debugEnabled := config.debug;
      if config.daikinIPs.Some? {
        daikinIPs := config.daikinIPs.value;
      }
      isConfigValid := true;
    }

    /**
     * Creates one device per entry, in order, appending each to `devices` once
     * it is set up; the first entry that fails to set up ends the pass.
     */
    method CreateDevices(setup: (nat, DaikinMatterDevice) -> bool) returns (outcome: Outcome)
      modifies this
      ensures daikinIPs == old(daikinIPs) && debugEnabled == old(debugEnabled)
      ensures isConfigValid == old(isConfigValid) && isPluginConfigured == old(isPluginConfigured)
      ensures devices == old(devices) + DevicesFor(daikinIPs[..SetUpCount(daikinIPs, setup)])
      ensures outcome == SetupOutcome(daikinIPs, setup)
    {
      var i := 0;
      while i < |daikinIPs|
        invariant i <= |daikinIPs|
        invariant daikinIPs == old(daikinIPs) && debugEnabled == old(debugEnabled)
        invariant isConfigValid == old(isConfigValid) && isPluginConfigured == old(isPluginConfigured)
        invariant forall k :: 0 <= k < i ==> setup(k, DeviceFor(daikinIPs[k]))
        invariant devices == old(devices) + DevicesFor(daikinIPs[..i])
      {
        var device := DeviceFor(daikinIPs[i]);
        if !setup(i, device) {
          assert SetUpCount(daikinIPs, setup) == i;
          return Fail(SetupFailed(daikinIPs[i]));
        }
        assert daikinIPs[..i + 1][..i] == daikinIPs[..i];
        devices := devices + [device];
        i := i + 1;
      }
      assert daikinIPs[..i] == daikinIPs;
      outcome := Pass;
    }

    /** Refuses to start unless the configuration is marked valid, then creates the devices. */
    method OnStart(setup: (nat, DaikinMatterDevice) -> bool) returns (outcome: Outcome)
      modifies this
      ensures daikinIPs == old(daikinIPs) && debugEnabled == old(debugEnabled)
      ensures isConfigValid == old(isConfigValid) && isPluginConfigured == old(isPluginConfigured)
      ensures !old(isConfigValid) ==> outcome == Fail(ConfigNotValid) && devices == old(devices)
      ensures old(isConfigValid) ==>
        devices == old(devices) + DevicesFor(daikinIPs[..SetUpCount(daikinIPs, setup)]) &&
        outcome == SetupOutcome(daikinIPs, setup)
    {
      if !isConfigValid {
        return Fail(ConfigNotValid);
      }
      outcome := CreateDevices(setup);
    }

    /**
     * Restores every device in list order, one at a time; the first device
     * whose state cannot be read ends the pass. Nothing on the platform changes.
     */
    method RestoreState(fetch: (nat, DaikinMatterDevice) -> Option<Snapshot>) returns (outcome: Outcome, writes: seq<DeviceWrite>)
      ensures writes == RestoreWritesFor(devices[..FetchedCount(devices, fetch)], fetch)
      ensures outcome == RestoreOutcome(devices, fetch)
    {
      writes := [];
      var i := 0;
      while i < |devices|
        invariant i <= |devices|
        invariant forall k :: 0 <= k < i ==> fetch(k, devices[k]).Some?
        invariant writes == RestoreWritesFor(devices[..i], fetch)
      {
        var device := devices[i];
        var snapshot := fetch(i, device);
        if snapshot.None? {
          assert FetchedCount(devices, fetch) == i;
          return Fail(RestoreFailed(device.ip)), writes;
        }
        assert devices[..i + 1][..i] == devices[..i];
        writes := writes + seq(6, k requires 0 <= k < 6 => DeviceWrite(device, RestoreWrites(snapshot.value)[k]));
        i := i + 1;
      }
      assert devices[..i] == devices;
      outcome := Pass;
    }

    /** Restores all devices; the plugin counts as configured only once that pass has finished. */
    method OnConfigure(fetch: (nat, DaikinMatterDevice) -> Option<Snapshot>) returns (outcome: Outcome, writes: seq<DeviceWrite>)
      modifies this
      ensures daikinIPs == old(daikinIPs) && devices == old(devices) && debugEnabled == old(debugEnabled)
      ensures isConfigValid == old(isConfigValid)
      ensures writes == RestoreWritesFor(devices[..FetchedCount(devices, fetch)], fetch)
      ensures outcome == RestoreOutcome(devices, fetch)
      ensures isPluginConfigured == (old(isPluginConfigured) || outcome == Pass)
    {
      outcome, writes := RestoreState(fetch);
      if outcome == Pass {
        isPluginConfigured := true;
      }
    }
  }

  /**
   * The host loading the plugin and starting it: since construction always
   * marks the configuration valid, starting never fails for that reason, and
   * the devices are those of the configured entries that set up, in order.
   */
  method LoadAndStart(config: PlatformConfig, setup: (nat, DaikinMatterDevice) -> bool)
    returns (platform: DaikinAcPlatform, outcome: Outcome)
    ensures outcome != Fail(ConfigNotValid)
    ensures outcome == SetupOutcome(ConfiguredEntries(config), setup)
    ensures platform.devices == DevicesFor(ConfiguredEntries(config)[..SetUpCount(ConfiguredEntries(config), setup)])
    ensures config.daikinIPs.None? ==> platform.devices == [] && outcome == Pass
    ensures !platform.isPluginConfigured
  {
    platform := new DaikinAcPlatform(config);
    outcome := platform.OnStart(setup);
  }
}
