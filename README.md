# Amigo Perto beacon firmware — a Dafny model

This project models the firmware of the Amigo Perto beacon (the
`etapa3/amigo_perto_v2` nRF/Zephyr application). It covers three hardware
abstraction layers and two GATT services:

- **battery HAL** (`src/hal/battery.c`). A CR2032 cell is read through the ADC: four samples are oversampled, out-of-range samples are discarded, and the average is converted to millivolts. The voltage is mapped to a charge percentage by a five-breakpoint piecewise-linear curve (2000, 2200, 2500, 2800 and 3000 mV give 0, 10, 30, 70 and 100 %), and the percentage to a charge state.
- **BLE HAL** (`src/hal/ble.c`). A state machine IDLE → READY → ADVERTISING → CONNECTED, driven by the public calls and by the Bluetooth stack's connection callbacks. It covers the advertising parameter checks and unit conversions, and the advertising and scan response payloads.
- **buzzer HAL** (`src/hal/buzzer.c`). A 50 Hz PWM output whose duty cycle is the intensity. A self-rescheduling work item switches it on and off while the intermittent pattern is active.
- **GATT buzzer service** (`src/gatt/buzzer_service.c`). A one-byte write command (0x00 off, 0x01 on) is validated and handed to the application callback.
- **GATT battery service** (`src/gatt/battery_service.c`). This is the Bluetooth SIG Battery Service with Battery Level (read and notify), plus custom voltage and state characteristics. It keeps cached values, the held connection and the notification switch.

Files: `ctypes.dfy` (C integer widths, C's truncating division, `Option`/`Result`), `battery.dfy` (module `HalBattery`), `ble.dfy` (`HalBle`), `buzzer.dfy` (`HalBuzzer`), `buzzer_service.dfy` (`GattBuzzerService`), `battery_service.dfy` (`GattBatteryService`).

How the source is represented:
- Each C module's statics become the fields of a class, and each public function or stack callback becomes a method on it.
- Calls into Zephyr and the drivers are not modelled. What they answer becomes a parameter: `enableOk`, `startOk`, `stackErr`, the ADC samples and so on.
- A work item becomes a "pending" flag plus a method for one run of its handler (`AdvWorkHandler`, `Tick`).
- Calls into the application's callbacks are recorded in order, in a log field (`appEvents` for the BLE HAL, `readCallbackLog` for the battery service).
- The battery levels the battery service sends to the client as notifications are recorded in order in `sentNotifications`.

Where the code and its comments disagree, or the code does something unexpected, the model follows the code:
- The buzzer's HIGH intensity is 75 %, as in the header enum. The comment at the head of `buzzer.c` says 100 %.
- A reading of exactly 10 % (2200 mV) is CRITICAL. The state enum comment in `battery.h` says critical is below 10 %, but the classifier tests `<= 10`.
- `ble.h` (line 147) says `hal_ble_start_advertising` returns HAL_BLE_ERROR_FAILED when advertising fails to start. The code only queues the start: a failure of the stack in the work handler is logged and not reported (`ble.c`, lines 207-212). `HalBle.Ble.StartAdvertising` returns SUCCESS once the parameters are accepted, and `HalBle.Ble.AdvWorkHandler` leaves the state unchanged when the stack refuses.
- When no parameters were stored, the work handler uses a default parameter block built as a compound literal inside an `if` block (`ble.c`, lines 196-204), and it is used after that block has ended (line 207). In C that lifetime has already ended. The model just uses the default values (`HalBle.DEFAULT_ADV_PARAM`). This path never runs in this firmware, because `main.c` always passes explicit parameters.

A limit the code does not enforce: `hal_ble_init` accepts device names of up to 29 bytes, but the advertising payload it builds (flags plus complete name) fits the 31-octet legacy limit only for names of up to 26 bytes (`HalBle.AdvertisingDataSize`). Whether the Bluetooth stack refuses such a name or sends it shortened is up to the stack; the model leaves the outcome to the `startOk` parameter of `AdvWorkHandler`, as the code leaves it to the stack.

## Model

| member | source | states |
|---|---|---|
| CTypes.TruncDiv | etapa3/amigo_perto_v2/src/hal/battery.c:204 | C integer division truncates toward zero: the remainder has the dividend's sign and is smaller than the divisor |
| HalBattery.StateCode | etapa3/amigo_perto_v2/include/hal/battery.h:51-57 | state codes are 0..4, and 4 exactly for UNKNOWN |
| HalBattery.LinearInterpolate | etapa3/amigo_perto_v2/src/hal/battery.c:198-205 | y0 at or below x0, y1 at or above x1, and strictly between them a value within [y0, y1] (either orientation) |
| HalBattery.InterpolateMonotone | etapa3/amigo_perto_v2/src/hal/battery.c:198-205 | with y0 <= y1 the interpolation is non-decreasing in x |
| HalBattery.VoltageToPercentage | etapa3/amigo_perto_v2/src/hal/battery.c:278-330 | the percentage is at most 100, 0 below 2000 mV, 100 from 3000 mV |
| HalBattery.ClampIsInert | etapa3/amigo_perto_v2/src/hal/battery.c:325-329 | the segment chain already lies in 0..100, so the final clamp never changes the result |
| HalBattery.Breakpoints | etapa3/amigo_perto_v2/src/hal/battery.c:283-323 | 1999→0, 2000→0, 2200→10, 2500→30, 2800→70, 3000→100, 3600→100 |
| HalBattery.PercentageMonotone | etapa3/amigo_perto_v2/src/hal/battery.c:283-323 | a higher voltage never gives a lower percentage |
| HalBattery.PercentageToState | etapa3/amigo_perto_v2/src/hal/battery.c:332-353 | GOOD iff p > 70, MEDIUM iff 30 < p <= 70, LOW iff 10 < p <= 30, CRITICAL iff p <= 10; never UNKNOWN |
| HalBattery.StateThresholds | etapa3/amigo_perto_v2/src/hal/battery.c:278-353 | as a function of the voltage: GOOD from 2807 mV, MEDIUM from 2508, LOW from 2215, CRITICAL below |
| HalBattery.StateMonotone | etapa3/amigo_perto_v2/src/hal/battery.c:278-353 | a higher voltage never gives a worse state |
| HalBattery.AdcRawToMv | etapa3/amigo_perto_v2/src/hal/battery.c:117-127 | with 32-bit arithmetic and a uint16 result, a non-negative raw value gives floor(raw*3600/4095); a raw value up to 4095 gives at most 3600 mV |
| HalBattery.AdcRawToMvMonotone | etapa3/amigo_perto_v2/src/hal/battery.c:117-127 | the conversion is non-decreasing on 0..32767 |
| HalBattery.ValidSumBounds | etapa3/amigo_perto_v2/src/hal/battery.c:146-166 | only samples in [0, 4096) are counted and summed: the count is at most the number of reads, and the sum at most 4095 per counted sample |
| HalBattery.AverageInRange | etapa3/amigo_perto_v2/src/hal/battery.c:174-176 | with at least one valid sample the average lies in 0..4095 |
| HalBattery.OversampledVoltage | etapa3/amigo_perto_v2/src/hal/battery.c:168-176 | -EIO exactly when no sample is valid, otherwise a voltage of at most 3600 mV |
| HalBattery.AdcReadWithOversampling | etapa3/amigo_perto_v2/src/hal/battery.c:135-182 | the sampling loop (failed reads and out-of-range values skipped) computes exactly the oversampled voltage |
| HalBattery.Measure | etapa3/amigo_perto_v2/src/hal/battery.c:370-391 | ERROR_READ exactly when no sample is valid; otherwise voltage <= 3600, percentage and state equal the two conversions of that voltage, and the state is never UNKNOWN |
| HalBattery.InfoReading | etapa3/amigo_perto_v2/src/hal/battery.c:357-391 | fails exactly when the HAL is not initialised or no sample is valid, with ERROR_STATE for the first and ERROR_READ for the second; otherwise voltage <= 3600 mV, the percentage and state are the conversions of that voltage, and the state is never UNKNOWN |
| HalBattery.Battery.Init | etapa3/amigo_perto_v2/src/hal/battery.c:211-252 | idempotent once initialised; device-not-ready or a channel setup failure gives ERROR_INIT with nothing changed; success initialises and takes a first reading |
| HalBattery.Battery.ReadVoltage | etapa3/amigo_perto_v2/src/hal/battery.c:254-276 | ERROR_STATE before initialisation, ERROR_READ for a missing output, otherwise the oversampled voltage, or ERROR_READ when no sample is valid |
| HalBattery.Battery.GetInfo | etapa3/amigo_perto_v2/src/hal/battery.c:355-394 | the ERROR_STATE / ERROR_READ guards, then the measurement; last_reading becomes the reading on success and is kept on failure |
| HalBattery.Battery.IsCritical | etapa3/amigo_perto_v2/src/hal/battery.c:396-412 | true exactly when a reading succeeds and its state is CRITICAL |
| HalBattery.CriticalMeansBelow2215 | etapa3/amigo_perto_v2/src/hal/battery.c:396-412 | a successful reading is CRITICAL exactly when its voltage is below 2215 mV |
| HalBle.MsToBleUnits | etapa3/amigo_perto_v2/src/hal/ble.c:59 | milliseconds to 0.625 ms units rounded down: 5*units <= 8*ms < 5*units + 5, exact for multiples of 5 ms |
| HalBle.AdvUnits | etapa3/amigo_perto_v2/src/hal/ble.c:48-59 | 500 ms is 800 units; the accepted 20..10240 ms range maps monotonically onto 32..16384 units |
| HalBle.ConnIntervalMs | etapa3/amigo_perto_v2/src/hal/ble.c:129 | 1.25 ms units to milliseconds, rounded down, for any interval that fits in uint16 milliseconds |
| HalBle.SupervisionTimeoutMs | etapa3/amigo_perto_v2/src/hal/ble.c:131 | 10 ms units to milliseconds, exact up to 6553 units, narrowed to uint16 beyond |
| HalBle.ConnParamsInRange | etapa3/amigo_perto_v2/src/hal/ble.c:125-133 | for the intervals and timeouts the Core Specification allows, the reported values are 7..4000 ms and 100..32000 ms |
| HalBle.AdvParamsValid | etapa3/amigo_perto_v2/src/hal/ble.c:349-360 | the five rejection tests accept exactly 20 <= min <= max <= 10240 ms |
| HalBle.StoredAdvParam | etapa3/amigo_perto_v2/src/hal/ble.c:362-380 | accepted parameters keep their options and are stored as ordered unit intervals within 32..16384 that round the milliseconds down |
| HalBle.AdvertisingDataSize | etapa3/amigo_perto_v2/src/hal/ble.c:227-260 | the advertising payload takes 3 octets plus 2 + name length for a non-empty name, fits 31 octets exactly for names up to 26 bytes; the scan response takes 18 |
| HalBle.StrLen | etapa3/amigo_perto_v2/src/hal/ble.c:229 | the length up to (excluding) the first NUL byte |
| HalBle.NameBuffer | etapa3/amigo_perto_v2/src/hal/ble.c:289-290 | the name buffer is 30 bytes and its last byte is NUL |
| HalBle.NameBufferRoundTrip | etapa3/amigo_perto_v2/src/hal/ble.c:289-290 | the stored copy of a name of at most 29 bytes reads back (by strlen) as that name |
| HalBle.Ble.CopyName | etapa3/amigo_perto_v2/src/hal/ble.c:289-290 | the strncpy copy loop leaves exactly the name followed by NUL padding |
| HalBle.Ble.PrepareAdvData | etapa3/amigo_perto_v2/src/hal/ble.c:227-260 | the arrays hold the flags and (for a non-empty name) the complete name, and the 128-bit buzzer service UUID |
| HalBle.Ble.Init | etapa3/amigo_perto_v2/src/hal/ble.c:266-326 | idempotent; NULL or over-long name → INVALID with nothing changed; the name and callbacks are stored before enabling the stack; a failing stack gives ERROR_INIT and stays uninitialised; success gives READY and the advertising payload of the name |
| HalBle.Ble.StartAdvertising | etapa3/amigo_perto_v2/src/hal/ble.c:328-395 | STATE when uninitialised or connected; SUCCESS with no effect when already advertising; INVALID for bad intervals; otherwise stores the parameters (or the defaults) and submits the work item; the state itself does not change |
| HalBle.Ble.AdvWorkHandler | etapa3/amigo_perto_v2/src/hal/ble.c:186-222 | never leaves CONNECTED and asks nothing of the stack there; otherwise asks with the stored or default parameters and moves to ADVERTISING (with the adv_started callback) only when the stack succeeds |
| HalBle.Ble.StopAdvertising | etapa3/amigo_perto_v2/src/hal/ble.c:397-428 | succeeds only from ADVERTISING, moving to READY with the adv_stopped callback; STATE elsewhere, FAILED when the stack refuses, both without change |
| HalBle.Ble.Disconnect | etapa3/amigo_perto_v2/src/hal/ble.c:430-454 | STATE when uninitialised, NOT_CONNECTED without a connection, else the stack's outcome; never changes the state itself |
| HalBle.Ble.GetState | etapa3/amigo_perto_v2/src/hal/ble.c:456-459 | IDLE exactly until initialised; CONNECTED exactly while a connection is held |
| HalBle.Ble.IsConnected | etapa3/amigo_perto_v2/src/hal/ble.c:461-464 | true iff the state is CONNECTED, iff a connection is held |
| HalBle.Ble.OnConnected | etapa3/amigo_perto_v2/src/hal/ble.c:96-136 | an error resubmits advertising and leaves state and connection alone; success holds the connection, enters CONNECTED and reports the converted link parameters (zeros when unavailable) |
| HalBle.Ble.OnDisconnected | etapa3/amigo_perto_v2/src/hal/ble.c:141-159 | always drops the connection and returns to READY, reporting the reason |
| HalBle.Ble.OnRecycled | etapa3/amigo_perto_v2/src/hal/ble.c:164-170 | resubmits the advertising work item and changes nothing else |
| HalBuzzer.IntensityToPulseNs | etapa3/amigo_perto_v2/src/hal/buzzer.c:82-90 | the pulse never exceeds the 20 ms period; it is intensity % of the period up to 100 and the full period above; zero exactly for intensity 0 |
| HalBuzzer.PulseMonotone | etapa3/amigo_perto_v2/src/hal/buzzer.c:82-90 | a higher intensity never gives a shorter pulse; LOW, MEDIUM, HIGH and MAX give 5, 10, 15 and 20 ms |
| HalBuzzer.PulseTrainAlternates | etapa3/amigo_perto_v2/src/hal/buzzer.c:134-147 | successive active runs alternate ON and OFF, starting from the opposite of the stored toggle |
| HalBuzzer.HalfDuty | etapa3/amigo_perto_v2/src/hal/buzzer.c:134-147 | over any even number of active runs, a non-zero intensity drives the output in exactly half of them |
| HalBuzzer.Buzzer.Init | etapa3/amigo_perto_v2/src/hal/buzzer.c:210-239 | idempotent; device not ready or PWM failure gives ERROR_INIT with nothing changed; success switches the output off, sets MEDIUM (50), inactive, initialised |
| HalBuzzer.Buzzer.StopIntermittent | etapa3/amigo_perto_v2/src/hal/buzzer.c:159-164 | deactivates, cancels the pending run and writes a zero pulse |
| HalBuzzer.Buzzer.SetIntermittent | etapa3/amigo_perto_v2/src/hal/buzzer.c:172-200 | ERROR_STATE before init, ERROR_INVALID above 100, both without change; on stores the intensity, activates and schedules; off stops |
| HalBuzzer.Buzzer.Tick | etapa3/amigo_perto_v2/src/hal/buzzer.c:123-148 | inactive: zero pulse and no reschedule; active: flips the toggle, writes the intensity's pulse in the ON phase and zero in the OFF phase, reschedules |
| GattBuzzerService.WriteBuzzerIntermittent | etapa3/amigo_perto_v2/src/gatt/buzzer_service.c:73-105 | length ≠ 1 → INVALID_ATTRIBUTE_LEN, then offset ≠ 0 → INVALID_OFFSET, then with a callback 0x00/0x01 invoke it with false/true and anything else → VALUE_NOT_ALLOWED; without a callback any 1-byte write is accepted; an accepted write returns its length |
| GattBuzzerService.EncodeCommand | etapa3/amigo_perto_v2/src/gatt/buzzer_service.c:91-96 | a command is one byte, 0x00 or 0x01 |
| GattBuzzerService.CommandRoundTrip | etapa3/amigo_perto_v2/src/gatt/buzzer_service.c:73-105 | an encoded command reaches the callback unchanged, and the only writes that pass on command b are its encoding at offset 0 |
| GattBuzzerService.RejectedWrites | etapa3/amigo_perto_v2/src/gatt/buzzer_service.c:77-101 | a write fails exactly for a wrong length, a wrong offset, or (with a callback) a value other than 0/1; a failed write never invokes the callback |
| GattBuzzerService.BuzzerService.Init | etapa3/amigo_perto_v2/src/gatt/buzzer_service.c:149-160 | NULL keeps the stored callback, a table replaces it (even with NULL); always 0 |
| GattBuzzerService.BuzzerService.HandleWrite | etapa3/amigo_perto_v2/src/gatt/buzzer_service.c:89-104 | the write decided with the stored callback invokes exactly that callback, with (byte == 1), for valid one-byte writes at offset 0 |
| GattBatteryService.BatteryService.Init | etapa3/amigo_perto_v2/src/gatt/battery_service.c:246-268 | stores the callbacks, fills all three cached values from a successful first reading or keeps them; the HAL caches that reading as its last reading on success; always 0 |
| GattBatteryService.BatteryService.ReadBatteryLevel | etapa3/amigo_perto_v2/src/gatt/battery_service.c:79-101 | serves the cache, refreshed with the percentage on a successful HAL read (then reported to battery_read_cb if set) and unchanged on failure; the HAL's last reading follows the same rule |
| GattBatteryService.BatteryService.ReadBatteryVoltage | etapa3/amigo_perto_v2/src/gatt/battery_service.c:106-123 | serves the cached voltage, refreshed on success, unchanged on failure; the HAL's last reading follows the same rule |
| GattBatteryService.BatteryService.ReadBatteryState | etapa3/amigo_perto_v2/src/gatt/battery_service.c:128-145 | serves the cached state code, refreshed on success, unchanged on failure; the HAL's last reading follows the same rule |
| GattBatteryService.BatteryService.CccChanged | etapa3/amigo_perto_v2/src/gatt/battery_service.c:154-161 | notifications are enabled iff the written CCC value is NOTIFY (0x0001) |
| GattBatteryService.BatteryService.Connected | etapa3/amigo_perto_v2/src/gatt/battery_service.c:205-219 | an error changes nothing; success holds the connection |
| GattBatteryService.BatteryService.Disconnected | etapa3/amigo_perto_v2/src/gatt/battery_service.c:224-234 | drops the connection and disables notifications |
| GattBatteryService.BatteryService.Notify | etapa3/amigo_perto_v2/src/gatt/battery_service.c:270-295 | -ENOTCONN without a connection, then -EACCES with notifications off, both without change; otherwise sets the level, then returns the stack's error or 0, recording the notification when sent |
| GattBatteryService.BatteryService.Update | etapa3/amigo_perto_v2/src/gatt/battery_service.c:297-302 | sets the cached level, sends nothing, returns 0 |

## Left out

- Proximity logic (RSSI-to-distance, alert cycles, operating modes): no file of the firmware implements it, so it is not modelled.
- The Zephyr Bluetooth stack, ADC and PWM drivers: every call is replaced by its outcome as a parameter; `bt_conn_ref`/`unref` become a held-connection flag.
- Work queues and timing: submitting a work item sets a pending flag, and a separate method runs the handler; the 500 ms period and the k_work cancel race are not modelled.
- `bt_gatt_attr_read`: the read handlers return the cached value; the byte serving with offset and length is not modelled.
- The `BT_GATT_SERVICE_DEFINE` attribute tables, user description and presentation format descriptors and the UUID encodings are declarative stack configuration; only the buzzer service UUID bytes carried in the scan response appear.
- HalBattery.LinearInterpolate: computed on unbounded integers; the int32 product in the source cannot overflow for the breakpoints used (at most 600 * 40).
- HalBattery.AdcRawToMv: the multiplication by the 1.0 divider ratio in float is treated as the identity.
- HalBuzzer.Buzzer.Tick: the pulse is written unconditionally; PWM write failures in the handler and in stop_intermittent are ignored by the source and not modelled.
- HalBuzzer.Buzzer.Init: the work item's initialisation is implicit in the `initialized` flag.
- HalBle.Ble.OnConnected: the two `bt_conn_get_info` calls are modelled as one answer.
- HalBle.Ble.Init: the registration of the connection callbacks and the work item's initialisation are implicit in the `initialized` flag.
- Logging, `main.c` (start-up sequencing and the LED), and the earlier `etapa2` sample are not part of this model.
