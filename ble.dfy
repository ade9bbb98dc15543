/** The BLE HAL of the beacon (src/hal/ble.c): a module-level state machine
    IDLE -> READY -> ADVERTISING -> CONNECTED driven by the public calls and
    by the Bluetooth stack's connection callbacks, plus the unit conversions
    of the Bluetooth Core Specification (advertising interval in 0.625 ms
    units, connection interval in 1.25 ms units, supervision timeout in
    10 ms units) and the advertising payload it prepares. */
module HalBle {
  import opened CTypes

  // Return codes (include/hal/ble.h)
  const SUCCESS: int := 0
  const ERROR_INIT: int := -1
  const ERROR_INVALID: int := -2
  const ERROR_STATE: int := -3
  const ERROR_NOT_CONNECTED: int := -4
  const ERROR_FAILED: int := -5

  const DEFAULT_ADV_INTERVAL_MS: nat := 500
  // Advertising interval range, 20 ms to 10.24 s (Core Specification, Vol 6 Part B, section 4.4.2.2.1)
  const ADV_INTERVAL_MIN_MS: nat := 20
  const ADV_INTERVAL_MAX_MS: nat := 10240

  const MAX_DEVICE_NAME_LEN: nat := 29
  const NAME_BUFFER_LEN: nat := 30

  /** Largest legacy advertising or scan response payload, in octets. */
  const LEGACY_ADV_DATA_MAX: nat := 31

  datatype BleState = Idle | Ready | Advertising | Connected

  /*************************************************************************
   * Unit conversions
   *************************************************************************/

  /** MS_TO_BLE_UNITS: milliseconds to 0.625 ms units, rounded down. */
  function MsToBleUnits(ms: nat): (units: nat)
    ensures 5 * units <= 8 * ms < 5 * units + 5
    ensures ms % 5 == 0 ==> 5 * units == 8 * ms
  {
    ms * 8 / 5
  }

  /** The default 500 ms interval is exactly 800 units; the accepted range
      maps onto 32..16384 units, monotonically. */
  lemma AdvUnits(ms: nat, ms': nat)
    requires ADV_INTERVAL_MIN_MS <= ms <= ms' <= ADV_INTERVAL_MAX_MS
    ensures MsToBleUnits(DEFAULT_ADV_INTERVAL_MS) == 800
    ensures 32 <= MsToBleUnits(ms) <= MsToBleUnits(ms') <= 16384
  {
    // 5 * u(ms) <= 8 * ms <= 8 * ms' < 5 * u(ms') + 5, so u(ms) < u(ms') + 1
    assert 5 * MsToBleUnits(ms) < 5 * MsToBleUnits(ms') + 5;
  }

  /** Controller connection interval (1.25 ms units) to milliseconds, as
      the connected callback reports it: rounded down and narrowed to uint16. */
  function ConnIntervalMs(units: uint16): (ms: uint16)
    ensures units <= 52428 ==> 4 * ms <= 5 * units < 4 * ms + 4
  {
    (units * 1250 / 1000) % 0x1_0000
  }

  /** Supervision timeout (10 ms units) to milliseconds, narrowed to uint16. */
  function SupervisionTimeoutMs(units: uint16): (ms: uint16)
    ensures units <= 6553 ==> ms == 10 * units
    ensures units > 6553 ==> ms < 10 * units
  {
    (units * 10) % 0x1_0000
  }

  /** Within the ranges the Core Specification allows (Vol 6 Part B,
      section 4.5.1 and 4.5.2: interval 7.5 ms to 4 s, timeout 100 ms to 32 s)
      neither conversion wraps. */
  lemma ConnParamsInRange(interval: uint16, timeout: uint16)
    requires 6 <= interval <= 3200 && 10 <= timeout <= 3200
    ensures 7 <= ConnIntervalMs(interval) <= 4000
    ensures 100 <= SupervisionTimeoutMs(timeout) <= 32000
  {
  }

  /*************************************************************************
   * Parameters, callbacks, advertising payload
   *************************************************************************/

  /** hal_ble_adv_params_t: the caller's advertising request. */
  datatype AdvParamsMs = AdvParamsMs(intervalMinMs: uint16, intervalMaxMs: uint16, connectable: bool, useIdentity: bool)

  /** The stack's advertising parameters, intervals in 0.625 ms units. */
  datatype AdvParam = AdvParam(connectable: bool, useIdentity: bool, intervalMin: nat, intervalMax: nat)

  /** The parameters used when none were configured: connectable, identity
      address, 500 ms. */
  const DEFAULT_ADV_PARAM: AdvParam :=
    AdvParam(true, true, MsToBleUnits(DEFAULT_ADV_INTERVAL_MS), MsToBleUnits(DEFAULT_ADV_INTERVAL_MS))

  /** The five rejection tests of hal_ble_start_advertising. */
  function AdvParamsValid(p: AdvParamsMs): (ok: bool)
    ensures ok <==> ADV_INTERVAL_MIN_MS <= p.intervalMinMs <= p.intervalMaxMs <= ADV_INTERVAL_MAX_MS
  {
    !(p.intervalMinMs < ADV_INTERVAL_MIN_MS
      || p.intervalMinMs > ADV_INTERVAL_MAX_MS
      || p.intervalMaxMs < ADV_INTERVAL_MIN_MS
      || p.intervalMaxMs > ADV_INTERVAL_MAX_MS
      || p.intervalMinMs > p.intervalMaxMs)
  }

  /** The stored form of accepted parameters. */
  function StoredAdvParam(p: AdvParamsMs): (a: AdvParam)
    requires AdvParamsValid(p)
    ensures a.connectable == p.connectable && a.useIdentity == p.useIdentity
    ensures 32 <= a.intervalMin <= a.intervalMax <= 16384
    ensures 5 * a.intervalMin <= 8 * p.intervalMinMs < 5 * a.intervalMin + 5
    ensures 5 * a.intervalMax <= 8 * p.intervalMaxMs < 5 * a.intervalMax + 5
  {
    AdvUnits(p.intervalMinMs, p.intervalMaxMs);
    AdvParam(p.connectable, p.useIdentity, MsToBleUnits(p.intervalMinMs), MsToBleUnits(p.intervalMaxMs))
  }

  /** Which application callbacks are registered (non-NULL). */
  datatype BleCallbacks = BleCallbacks(connected: bool, disconnected: bool, advStarted: bool, advStopped: bool)

  const NO_CALLBACKS: BleCallbacks := BleCallbacks(false, false, false, false)

  /** Connection parameters as the controller reports them, in its units. */
  datatype LinkParams = LinkParams(interval: uint16, latency: uint16, timeout: uint16)

  /** hal_ble_conn_info_t as handed to the application. */
  datatype ConnInfo = ConnInfo(intervalMs: uint16, latency: uint16, timeoutMs: uint16)

  /** The connection information reported; all zero when the stack cannot
      give the link parameters. */
  function ConnInfoOf(link: Option<LinkParams>): ConnInfo
  {
    match link
    case None => ConnInfo(0, 0, 0)
    case Some(l) => ConnInfo(ConnIntervalMs(l.interval), l.latency, SupervisionTimeoutMs(l.timeout))
  }

  /** A call of an application callback. */
  datatype AppEvent = AppConnected(info: ConnInfo) | AppDisconnected(reason: uint8) | AppAdvStarted | AppAdvStopped

  /** One advertising data structure: its AD type and its data. */
  datatype AdStructure = AdStructure(adType: uint8, data: seq<uint8>)

  // AD types and flags (Core Specification Supplement, Part A, sections 1.1, 1.2, 1.3)
  const AD_TYPE_FLAGS: uint8 := 0x01
  const AD_TYPE_UUID128_ALL: uint8 := 0x07
  const AD_TYPE_NAME_COMPLETE: uint8 := 0x09
  /** LE General Discoverable Mode | BR/EDR Not Supported. */
  const AD_FLAGS_GENERAL_NO_BREDR: uint8 := 0x06

  /** The 128-bit UUID of the buzzer service, in the little-endian order of
      the air interface. */
  const BUZZER_SERVICE_UUID: seq<uint8> :=
    [0xBC, 0x9A, 0x78, 0x56, 0x34, 0x12, 0xEF, 0xCD, 0xAB, 0xEF, 0xCD, 0xAB, 0x78, 0x56, 0x34, 0x12]

  /** The advertising data for a device name: the flags, then the complete
      name when it is not empty. */
  function AdvertisingData(name: seq<uint8>): seq<AdStructure>
  {
    [AdStructure(AD_TYPE_FLAGS, [AD_FLAGS_GENERAL_NO_BREDR])]
      + (if |name| > 0 then [AdStructure(AD_TYPE_NAME_COMPLETE, name)] else [])
  }

  /** The scan response: the buzzer service UUID. */
  function ScanResponseData(): seq<AdStructure>
  {
    [AdStructure(AD_TYPE_UUID128_ALL, BUZZER_SERVICE_UUID)]
  }

  /** Octets the structures take on air: a length octet, a type octet and
      the data of each. */
  function AdOctets(ads: seq<AdStructure>): nat
  {
    if |ads| == 0 then 0 else 2 + |ads[0].data| + AdOctets(ads[1..])
  }

  /** The advertising payload fits the 31-octet legacy limit exactly when the
      name has at most 26 bytes, so names of 27 to 29 bytes, which
      hal_ble_init accepts, do not fit; the scan response always fits. */
  lemma {:induction false} AdvertisingDataSize(name: seq<uint8>)
    ensures AdOctets(AdvertisingData(name)) == if |name| > 0 then 5 + |name| else 3
    ensures AdOctets(AdvertisingData(name)) <= LEGACY_ADV_DATA_MAX <==> |name| <= 26
    ensures AdOctets(ScanResponseData()) == 18
  {
    var ads := AdvertisingData(name);
    if |name| > 0 {
      assert ads[1..][1..] == [];
      assert AdOctets(ads[1..]) == 2 + |name| + AdOctets(ads[1..][1..]);
    } else {
      assert ads[1..] == [];
    }
    assert ScanResponseData()[1..] == [];
  }

  /** strlen: the length up to the first NUL byte. */
  function StrLen(s: seq<uint8>): (n: nat)
    ensures n <= |s|
    ensures forall i :: 0 <= i < n ==> s[i] != 0
    ensures n < |s| ==> s[n] == 0
  {
    if |s| == 0 || s[0] == 0 then 0
    else
      var tail := StrLen(s[1..]);
      assert forall i :: 1 <= i < 1 + tail ==> s[i] == s[1..][i - 1];
      1 + tail
  }

  /** A C string: bytes without an embedded NUL. */
  predicate IsCString(s: seq<uint8>)
  {
    forall i :: 0 <= i < |s| ==> s[i] != 0
  }

  /** The device name buffer after copying a name: the name, then NUL padding. */
  function NameBuffer(name: seq<uint8>): (buf: seq<uint8>)
    requires |name| <= MAX_DEVICE_NAME_LEN
    ensures |buf| == NAME_BUFFER_LEN && buf[MAX_DEVICE_NAME_LEN] == 0
  {
    name + seq(NAME_BUFFER_LEN - |name|, _ => 0)
  }

  /** The stored copy reads back as the original name. */
  lemma NameBufferRoundTrip(name: seq<uint8>)
    requires |name| <= MAX_DEVICE_NAME_LEN && IsCString(name)
    ensures StrLen(NameBuffer(name)) == |name|
    ensures NameBuffer(name)[..StrLen(NameBuffer(name))] == name
  {
    var buf := NameBuffer(name);
    var n := StrLen(buf);
    // the name's bytes are all non-NUL and the first padding byte is NUL
    assert forall i :: 0 <= i < |name| ==> buf[i] == name[i];
    assert buf[|name|] == 0;
    assert buf[..n] == name;
  }

  /** The names hal_ble_init accepts. */
  predicate NameAccepted(name: Option<seq<uint8>>)
  {
    name.Some? && |name.value| <= MAX_DEVICE_NAME_LEN
  }

  /*************************************************************************
   * Module state
   *************************************************************************/

  class Ble {
    var initialized: bool
    var state: BleState
    var callbacks: BleCallbacks
    /** device_name: the NUL-terminated advertised name. */
    const deviceName: array<uint8>
    /** Whether a connection reference (current_conn) is held. */
    var connHeld: bool
    /** Whether the advertising work item is submitted and not yet run. */
    var advWorkPending: bool
    const adData: array<AdStructure>
    const sdData: array<AdStructure>
    var adCount: nat
    var sdCount: nat
    /** adv_param: the configured parameters, None for the defaults. */
    var advParam: Option<AdvParam>
    /** The application callbacks invoked so far, in order. */
    var appEvents: seq<AppEvent>

    ghost predicate Valid()
      reads this, deviceName
    {
      && deviceName.Length == NAME_BUFFER_LEN && deviceName[MAX_DEVICE_NAME_LEN] == 0
      && adData.Length == 2 && sdData.Length == 1
      && adCount <= 2 && sdCount <= 1
      && (connHeld <==> state == Connected)
      && (!initialized ==> state == Idle && !advWorkPending)
      && (initialized ==> state != Idle)
    }

    constructor ()
      ensures Valid() && fresh(deviceName) && fresh(adData) && fresh(sdData)
      ensures !initialized && state == Idle && !connHeld && callbacks == NO_CALLBACKS
      ensures advParam == None && appEvents == [] && adCount == 0 && sdCount == 0
      ensures deviceName[..] == seq(NAME_BUFFER_LEN, _ => 0)
    {
      initialized := false;
      state := Idle;
      callbacks := NO_CALLBACKS;
      deviceName := new uint8[NAME_BUFFER_LEN](_ => 0);
      connHeld := false;
      advWorkPending := false;
      adData := new AdStructure[2](_ => AdStructure(0, []));
      sdData := new AdStructure[1](_ => AdStructure(0, []));
      adCount := 0;
      sdCount := 0;
      advParam := None;
      appEvents := [];
    }

    /** prepare_adv_data: fills the advertising and scan response arrays. */
    method PrepareAdvData()
      requires Valid()
      modifies this`adCount, this`sdCount, adData, sdData
      ensures Valid()
      ensures adData[..adCount] == AdvertisingData(deviceName[..StrLen(deviceName[..])])
      ensures sdData[..sdCount] == ScanResponseData()
    {
      var nameLen := StrLen(deviceName[..]);
      adCount := 0;
      adData[adCount] := AdStructure(AD_TYPE_FLAGS, [AD_FLAGS_GENERAL_NO_BREDR]);
      adCount := adCount + 1;
      if nameLen > 0 {
        adData[adCount] := AdStructure(AD_TYPE_NAME_COMPLETE, deviceName[..nameLen]);
        adCount := adCount + 1;
      }
      sdCount := 0;
      sdData[sdCount] := AdStructure(AD_TYPE_UUID128_ALL, BUZZER_SERVICE_UUID);
      sdCount := sdCount + 1;
    }

    /** strncpy(device_name, name, MAX_DEVICE_NAME_LEN) followed by the
        terminator: the name, then NUL padding. */
    method CopyName(n: seq<uint8>)
      requires deviceName.Length == NAME_BUFFER_LEN && |n| <= MAX_DEVICE_NAME_LEN
      modifies deviceName
      ensures deviceName[..] == NameBuffer(n)
    {
      for i := 0 to MAX_DEVICE_NAME_LEN
        invariant forall k :: 0 <= k < i ==> deviceName[k] == NameBuffer(n)[k]
      {
        deviceName[i] := if i < |n| then n[i] else 0;
      }
      deviceName[MAX_DEVICE_NAME_LEN] := 0;
    }

    /** hal_ble_init; name None is a NULL pointer, cbs None a NULL callback
        table, enableOk the outcome of enabling the Bluetooth stack. */
    method Init(name: Option<seq<uint8>>, cbs: Option<BleCallbacks>, enableOk: bool) returns (ret: int)
      requires Valid()
      requires name.Some? ==> IsCString(name.value)
      modifies this, deviceName, adData, sdData
      ensures Valid()
      ensures old(initialized) ==> ret == SUCCESS && unchanged(this, deviceName, adData, sdData)
      ensures !old(initialized) && !NameAccepted(name) ==>
        ret == ERROR_INVALID && unchanged(this, deviceName, adData, sdData)
      ensures !old(initialized) && NameAccepted(name) ==>
        && deviceName[..] == NameBuffer(name.value)
        && callbacks == (if cbs.Some? then cbs.value else old(callbacks))
        && (enableOk ==> ret == SUCCESS && initialized && state == Ready)
        && (enableOk ==> adData[..adCount] == AdvertisingData(name.value) && sdData[..sdCount] == ScanResponseData())
        && (!enableOk ==> ret == ERROR_INIT && !initialized && state == old(state))
        && (!enableOk ==> adCount == old(adCount) && sdCount == old(sdCount)
                          && adData[..] == old(adData[..]) && sdData[..] == old(sdData[..]))
        && connHeld == old(connHeld) && advWorkPending == old(advWorkPending)
        && advParam == old(advParam) && appEvents == old(appEvents)
    {
      if initialized {
        return SUCCESS;
      }
      if name.None? {
        return ERROR_INVALID;
      }
      var n := name.value;
      if |n| > MAX_DEVICE_NAME_LEN {
        return ERROR_INVALID;
      }
      CopyName(n);
      if cbs.Some? {
        callbacks := cbs.value;
      }
      if !enableOk {
        return ERROR_INIT;
      }
      PrepareAdvData();
      NameBufferRoundTrip(n);
      state := Ready;
      initialized := true;
      ret := SUCCESS;
    }

    /** hal_ble_start_advertising; params None asks for the defaults.
        Advertising itself starts when the submitted work item runs. */
    method StartAdvertising(params: Option<AdvParamsMs>) returns (ret: int)
      requires Valid()
      modifies this`advParam, this`advWorkPending
      ensures Valid()
      ensures !old(initialized) || old(state) == Connected ==> ret == ERROR_STATE && unchanged(this)
      ensures old(initialized) && old(state) == Advertising ==> ret == SUCCESS && unchanged(this)
      ensures old(initialized) && old(state) == Ready && params.Some? && !AdvParamsValid(params.value) ==>
        ret == ERROR_INVALID && unchanged(this)
      ensures old(initialized) && old(state) == Ready && (params.Some? ==> AdvParamsValid(params.value)) ==>
        && ret == SUCCESS && advWorkPending
        && advParam == (if params.Some? then Some(StoredAdvParam(params.value)) else None)
      ensures initialized == old(initialized) && state == old(state) && connHeld == old(connHeld)
      ensures callbacks == old(callbacks) && appEvents == old(appEvents)
      ensures adCount == old(adCount) && sdCount == old(sdCount)
    {
      if !initialized {
        return ERROR_STATE;
      }
      if state == Connected {
        return ERROR_STATE;
      }
      if state == Advertising {
        return SUCCESS;
      }
      if params.Some? {
        if !AdvParamsValid(params.value) {
          return ERROR_INVALID;
        }
        advParam := Some(StoredAdvParam(params.value));
      } else {
        advParam := None;
      }
      advWorkPending := true;
      ret := SUCCESS;
    }

    /** adv_work_handler, run once the submitted work item is due; startOk is
        the stack's answer to starting advertising. Returns the parameters
        handed to the stack, None when it was not asked. */
    method AdvWorkHandler(startOk: bool) returns (requested: Option<AdvParam>)
      requires Valid() && advWorkPending
      modifies this`advWorkPending, this`state, this`appEvents
      ensures Valid() && !advWorkPending
      ensures old(state) == Connected ==> requested == None && state == Connected && appEvents == old(appEvents)
      ensures old(state) != Connected ==>
        requested == Some(if advParam.Some? then advParam.value else DEFAULT_ADV_PARAM)
      ensures old(state) != Connected && !startOk ==> state == old(state) && appEvents == old(appEvents)
      ensures old(state) != Connected && startOk ==>
        state == Advertising && appEvents == old(appEvents) + (if callbacks.advStarted then [AppAdvStarted] else [])
      ensures initialized == old(initialized) && connHeld == old(connHeld) && callbacks == old(callbacks)
      ensures advParam == old(advParam) && adCount == old(adCount) && sdCount == old(sdCount)
    {
      advWorkPending := false;
      if state == Connected {
        return None;
      }
      var param := if advParam.Some? then advParam.value else DEFAULT_ADV_PARAM;
      requested := Some(param);
      if !startOk {
        return;
      }
      state := Advertising;
      if callbacks.advStarted {
        appEvents := appEvents + [AppAdvStarted];
      }
    }

    /** hal_ble_stop_advertising; stopOk is the stack's answer. */
    method StopAdvertising(stopOk: bool) returns (ret: int)
      requires Valid()
      modifies this`state, this`appEvents
      ensures Valid()
      ensures !old(initialized) || old(state) != Advertising ==> ret == ERROR_STATE && unchanged(this)
      ensures old(initialized) && old(state) == Advertising && !stopOk ==> ret == ERROR_FAILED && unchanged(this)
      ensures old(initialized) && old(state) == Advertising && stopOk ==>
        && ret == SUCCESS && state == Ready
        && appEvents == old(appEvents) + (if callbacks.advStopped then [AppAdvStopped] else [])
      ensures initialized == old(initialized) && connHeld == old(connHeld) && advWorkPending == old(advWorkPending)
      ensures callbacks == old(callbacks) && advParam == old(advParam)
      ensures adCount == old(adCount) && sdCount == old(sdCount)
    {
      if !initialized {
        return ERROR_STATE;
      }
      if state != Advertising {
        return ERROR_STATE;
      }
      if !stopOk {
        return ERROR_FAILED;
      }
      state := Ready;
      if callbacks.advStopped {
        appEvents := appEvents + [AppAdvStopped];
      }
      ret := SUCCESS;
    }

    /** hal_ble_disconnect; disconnectOk is the stack's answer. Only asks the
        stack: the state changes when the disconnected callback comes. */
    method Disconnect(disconnectOk: bool) returns (ret: int)
      ensures !initialized ==> ret == ERROR_STATE
      ensures initialized && !connHeld ==> ret == ERROR_NOT_CONNECTED
      ensures initialized && connHeld ==> ret == (if disconnectOk then SUCCESS else ERROR_FAILED)
    {
      if !initialized {
        return ERROR_STATE;
      }
      if !connHeld {
        return ERROR_NOT_CONNECTED;
      }
      if !disconnectOk {
        return ERROR_FAILED;
      }
      ret := SUCCESS;
    }

    /** hal_ble_get_state: IDLE until initialised, CONNECTED exactly while a
        connection is held. */
    method GetState() returns (s: BleState)
      requires Valid()
      ensures s == state
      ensures !initialized ==> s == Idle
      ensures initialized ==> s != Idle
      ensures s == Connected <==> connHeld
    {
      s := state;
    }

    /** hal_ble_is_connected: by the invariant, exactly the CONNECTED state. */
    method IsConnected() returns (connected: bool)
      requires Valid()
      ensures connected <==> state == Connected
      ensures connected <==> connHeld
    {
      connected := state == Connected && connHeld;
    }

    /** on_connected; err is the stack's status, link the link parameters it
        reports (None when it cannot). */
    method OnConnected(err: uint8, link: Option<LinkParams>)
      requires Valid() && initialized
      modifies this`advWorkPending, this`connHeld, this`state, this`appEvents
      ensures Valid()
      ensures err != 0 ==> advWorkPending && state == old(state) && connHeld == old(connHeld) && appEvents == old(appEvents)
      ensures err == 0 ==>
        && state == Connected && connHeld && advWorkPending == old(advWorkPending)
        && appEvents == old(appEvents) + (if callbacks.connected then [AppConnected(ConnInfoOf(link))] else [])
      ensures initialized == old(initialized) && callbacks == old(callbacks) && advParam == old(advParam)
      ensures adCount == old(adCount) && sdCount == old(sdCount)
    {
      if err != 0 {
        advWorkPending := true;
        return;
      }
      connHeld := true;
      state := Connected;
      if callbacks.connected {
        appEvents := appEvents + [AppConnected(ConnInfoOf(link))];
      }
    }

    /** on_disconnected: drops the connection and goes back to READY. */
    method OnDisconnected(reason: uint8)
      requires Valid() && initialized
      modifies this`connHeld, this`state, this`appEvents
      ensures Valid()
      ensures !connHeld && state == Ready
      ensures appEvents == old(appEvents) + (if callbacks.disconnected then [AppDisconnected(reason)] else [])
      ensures initialized == old(initialized) && callbacks == old(callbacks) && advParam == old(advParam)
      ensures advWorkPending == old(advWorkPending) && adCount == old(adCount) && sdCount == old(sdCount)
    {
      connHeld := false;
      state := Ready;
      if callbacks.disconnected {
        appEvents := appEvents + [AppDisconnected(reason)];
      }
    }

    /** on_recycled: resubmits the advertising work item. */
    method OnRecycled()
      requires Valid() && initialized
      modifies this`advWorkPending
      ensures Valid() && advWorkPending
      ensures state == old(state) && connHeld == old(connHeld) && appEvents == old(appEvents)
      ensures initialized == old(initialized) && advParam == old(advParam) && callbacks == old(callbacks)
      ensures adCount == old(adCount) && sdCount == old(sdCount)
    {
      advWorkPending := true;
    }
  }
}
