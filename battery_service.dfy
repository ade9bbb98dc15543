/** The GATT battery service (src/gatt/battery_service.c): the Bluetooth SIG
    Battery Service (0x180F) with its Battery Level characteristic (0x2A19,
    read and notify), plus two custom read-only characteristics for the
    voltage and the charge state. Each read refreshes its cached value from
    the battery HAL and serves the cache, which keeps its previous value when
    the HAL read fails. */
module GattBatteryService {
  import opened CTypes
  import HalBattery

  /** errno values of the firmware's C library. */
  const EACCES: int := 13
  const ENOTCONN: int := 128

  /** Client Characteristic Configuration value enabling notifications
      (Core Specification, Vol 3 Part G, section 3.3.3.3). */
  const CCC_NOTIFY: uint16 := 0x0001

  /** struct gatt_battery_service_cb: whether battery_read_cb is set. */
  datatype BatteryCallbacks = BatteryCallbacks(batteryReadCb: bool)

  /** The service's module state. */
  class BatteryService {
    /** app_callbacks; None is a NULL table. */
    var appCallbacks: Option<BatteryCallbacks>
    var batteryLevel: uint8
    var batteryVoltage: uint16
    var batteryState: uint8
    /** Whether a connection reference (current_conn) is held. */
    var connHeld: bool
    var notifyEnabled: bool
    /** The levels passed to battery_read_cb so far, in order. */
    var readCallbackLog: seq<uint8>
    /** The levels notified to the client so far, in order. */
    var sentNotifications: seq<uint8>

    /** The cached voltage and state are ones the HAL can report (the level
        is whatever the application last set, any uint8). */
    ghost predicate Valid()
      reads this
    {
      batteryVoltage <= HalBattery.ADC_VREF_MV && batteryState <= 3
    }

    constructor ()
      ensures Valid()
      ensures appCallbacks == None && batteryLevel == 0 && batteryVoltage == 0 && batteryState == 0
      ensures !connHeld && !notifyEnabled && readCallbackLog == [] && sentNotifications == []
    {
      appCallbacks := None;
      batteryLevel := 0;
      batteryVoltage := 0;
      batteryState := 0;
      connHeld := false;
      notifyEnabled := false;
      readCallbackLog := [];
      sentNotifications := [];
    }

    /** gatt_battery_service_init: stores the callback table and fills the
        cache from a first HAL reading; succeeds even when that reading fails. */
    method Init(hal: HalBattery.Battery, callbacks: Option<BatteryCallbacks>, samples: seq<HalBattery.AdcRead>) returns (ret: int)
      requires Valid() && hal.Valid() && |samples| == HalBattery.ADC_SAMPLES
      modifies this, hal
      ensures Valid() && hal.Valid() && hal.initialized == old(hal.initialized)
      ensures var r := HalBattery.InfoReading(old(hal.initialized), samples);
        hal.lastReading == (if r.Ok? then r.value else old(hal.lastReading))
      ensures ret == 0 && appCallbacks == callbacks
      ensures var r := HalBattery.InfoReading(old(hal.initialized), samples);
        && (r.Ok? ==> batteryLevel == r.value.percentage && batteryVoltage == r.value.voltageMv
                      && batteryState == HalBattery.StateCode(r.value.state))
        && (r.Err? ==> batteryLevel == old(batteryLevel) && batteryVoltage == old(batteryVoltage)
                       && batteryState == old(batteryState))
      ensures connHeld == old(connHeld) && notifyEnabled == old(notifyEnabled)
      ensures readCallbackLog == old(readCallbackLog) && sentNotifications == old(sentNotifications)
    {
      appCallbacks := callbacks;
      var r := hal.GetInfo(true, samples);
      if r.Ok? {
        batteryLevel := r.value.percentage;
        batteryVoltage := r.value.voltageMv;
        batteryState := HalBattery.StateCode(r.value.state);
      }
      ret := 0;
    }

    /** read_battery_level: refreshes the level (reporting it to the
        application's read callback) and serves the cached level. */
    method ReadBatteryLevel(hal: HalBattery.Battery, samples: seq<HalBattery.AdcRead>) returns (served: uint8)
      requires Valid() && hal.Valid() && |samples| == HalBattery.ADC_SAMPLES
      modifies this, hal
      ensures Valid() && hal.Valid() && hal.initialized == old(hal.initialized)
      ensures var r := HalBattery.InfoReading(old(hal.initialized), samples);
        hal.lastReading == (if r.Ok? then r.value else old(hal.lastReading))
      ensures served == batteryLevel
      ensures var r := HalBattery.InfoReading(old(hal.initialized), samples);
        && batteryLevel == (if r.Ok? then r.value.percentage else old(batteryLevel))
        && readCallbackLog == old(readCallbackLog)
             + (if r.Ok? && appCallbacks.Some? && appCallbacks.value.batteryReadCb then [batteryLevel] else [])
      ensures batteryVoltage == old(batteryVoltage) && batteryState == old(batteryState)
      ensures appCallbacks == old(appCallbacks) && connHeld == old(connHeld) && notifyEnabled == old(notifyEnabled)
      ensures sentNotifications == old(sentNotifications)
    {
      var r := hal.GetInfo(true, samples);
      if r.Ok? {
        batteryLevel := r.value.percentage;
        if appCallbacks.Some? && appCallbacks.value.batteryReadCb {
          readCallbackLog := readCallbackLog + [batteryLevel];
        }
      }
      served := batteryLevel;
    }

    /** read_battery_voltage: refreshes and serves the cached voltage. */
    method ReadBatteryVoltage(hal: HalBattery.Battery, samples: seq<HalBattery.AdcRead>) returns (served: uint16)
      requires Valid() && hal.Valid() && |samples| == HalBattery.ADC_SAMPLES
      modifies this, hal
      ensures Valid() && hal.Valid() && hal.initialized == old(hal.initialized)
      ensures var r := HalBattery.InfoReading(old(hal.initialized), samples);
        hal.lastReading == (if r.Ok? then r.value else old(hal.lastReading))
      ensures served == batteryVoltage
      ensures var r := HalBattery.InfoReading(old(hal.initialized), samples);
        batteryVoltage == (if r.Ok? then r.value.voltageMv else old(batteryVoltage))
      ensures batteryLevel == old(batteryLevel) && batteryState == old(batteryState)
      ensures appCallbacks == old(appCallbacks) && connHeld == old(connHeld) && notifyEnabled == old(notifyEnabled)
      ensures readCallbackLog == old(readCallbackLog) && sentNotifications == old(sentNotifications)
    {
      var r := hal.GetInfo(true, samples);
      if r.Ok? {
        batteryVoltage := r.value.voltageMv;
      }
      served := batteryVoltage;
    }

    /** read_battery_state: refreshes and serves the cached state code. */
    method ReadBatteryState(hal: HalBattery.Battery, samples: seq<HalBattery.AdcRead>) returns (served: uint8)
      requires Valid() && hal.Valid() && |samples| == HalBattery.ADC_SAMPLES
      modifies this, hal
      ensures Valid() && hal.Valid() && hal.initialized == old(hal.initialized)
      ensures var r := HalBattery.InfoReading(old(hal.initialized), samples);
        hal.lastReading == (if r.Ok? then r.value else old(hal.lastReading))
      ensures served == batteryState
      ensures var r := HalBattery.InfoReading(old(hal.initialized), samples);
        batteryState == (if r.Ok? then HalBattery.StateCode(r.value.state) else old(batteryState))
      ensures batteryLevel == old(batteryLevel) && batteryVoltage == old(batteryVoltage)
      ensures appCallbacks == old(appCallbacks) && connHeld == old(connHeld) && notifyEnabled == old(notifyEnabled)
      ensures readCallbackLog == old(readCallbackLog) && sentNotifications == old(sentNotifications)
    {
      var r := hal.GetInfo(true, samples);
      if r.Ok? {
        batteryState := HalBattery.StateCode(r.value.state);
      }
      served := batteryState;
    }

    /** battery_level_ccc_changed: notifications are on exactly when the
        client wrote the NOTIFY value. */
    method CccChanged(value: uint16)
      requires Valid()
      modifies this`notifyEnabled
      ensures Valid()
      ensures notifyEnabled <==> value == CCC_NOTIFY
    {
      notifyEnabled := value == CCC_NOTIFY;
    }

    /** connected_cb: holds the new connection unless it failed. */
    method Connected(err: uint8)
      requires Valid()
      modifies this`connHeld
      ensures Valid()
      ensures err != 0 ==> connHeld == old(connHeld)
      ensures err == 0 ==> connHeld
    {
      if err != 0 {
        return;
      }
      connHeld := true;
    }

    /** disconnected_cb: drops the connection and disables notifications. */
    method Disconnected(reason: uint8)
      requires Valid()
      modifies this`connHeld, this`notifyEnabled
      ensures Valid()
      ensures !connHeld && !notifyEnabled
    {
      connHeld := false;
      notifyEnabled := false;
    }

    /** gatt_battery_service_notify; stackErr is the answer of the stack to
        the notification (0 when it was sent). */
    method Notify(percentage: uint8, stackErr: int) returns (ret: int)
      requires Valid()
      modifies this`batteryLevel, this`sentNotifications
      ensures Valid()
      ensures !connHeld ==> ret == -ENOTCONN && unchanged(this)
      ensures connHeld && !notifyEnabled ==> ret == -EACCES && unchanged(this)
      ensures connHeld && notifyEnabled ==>
        && batteryLevel == percentage
        && ret == stackErr
        && sentNotifications == old(sentNotifications) + (if stackErr == 0 then [percentage] else [])
    {
      if !connHeld {
        return -ENOTCONN;
      }
      if !notifyEnabled {
        return -EACCES;
      }
      batteryLevel := percentage;
      if stackErr != 0 {
        return stackErr;
      }
      sentNotifications := sentNotifications + [batteryLevel];
      ret := 0;
    }

    /** gatt_battery_service_update: sets the cached level without notifying. */
    method Update(percentage: uint8) returns (ret: int)
      requires Valid()
      modifies this`batteryLevel
      ensures Valid()
      ensures ret == 0 && batteryLevel == percentage
    {
      batteryLevel := percentage;
      ret := 0;
    }
  }
}
