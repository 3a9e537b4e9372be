# ESP-NOW soil-moisture sensor: a verified model of one wake cycle

The firmware (`src/main.cpp`) runs once per wake: `setup` configures and
drives six output pins, starts the ESP-NOW radio (restarting the chip if that
fails), formats the device's MAC address as text, takes a battery and a
moisture sample through a selector-switched analog input, builds a message
`{group_id, mac, data{debug, battery, moisture}, uptime}` and sends it to a
fixed peer. The send-completion callback `OnDataSent` then puts the chip into
deep sleep, whatever the delivery status.

The Dafny project models that cycle in five modules:

- `Optional` (`optional.dfy`): the `Option` type used by the decoders.
- `Hex` (`hex.dfy`): the `"%02X"` formatting of address bytes. It also has a
  decoder, used as the encoder's partner. The lemmas show that the 12-character
  text is upper-case hex, high nibble first, and that the encoding loses
  nothing.
- `Calibration` (`calibration.dfy`): the arithmetic from ADC count to
  battery volts and moisture percent. It models C's truncating conversion and
  division, and Arduino's `map`.
- `Message` (`message.dfy`): the sensor document and the message envelope as
  records. It has a pure builder and a receiver-side parser, and lemmas that
  the two are inverse.
- `Firmware` (`firmware.dfy`): the class `SensorNode`. Its fields are the
  pin levels, an ordered record of pin writes and samples, the cycle phase,
  the address buffers, the sensor document, the registered peer and callback,
  the reading count and the sent datagrams. Its methods follow `setup`,
  `newReading`, `sendReading`, `OnDataSent` and `gotoSleep`, step by step.
  The pin sequences are specified by functions (`SetupTrace`,
  `ReadingTrace`, `SetupLevels`, `AfterReading`), and lemmas prove their
  properties. The invariant `TraceValid` states that the current pin levels
  are exactly those the recorded writes produce.

Values that come from the hardware or the radio stack are parameters: whether
`esp_now_init` succeeded, the device MAC, the two ADC counts, the `millis()`
value and the delivery status.

Why the model uses exact reals instead of floats: the ADC count is at most
1023, so `count / 1024.f`, `* 100` and `* 5` are exact in single precision.
Every intermediate value has at most 17 significant bits, and 1024 is a power
of two. `moisture_max * 100` and `moisture_min * 100` are exactly 80.0 and
30.0 in double precision. So the value handed to `map` is
`(count * 25) / 256`, truncated.

Arduino's `map` comes from the ESP8266 core, which is not part of this model.
The model assumes the classic formula without rounding:
`(x - in_min) * (out_max - out_min) / (in_max - in_min) + out_min`, with C's
truncating division. With the calibration points 80 and 30 the divisor -50
divides exactly, so the moisture value is `160 - 2x`.

Two facts about the code that a reader might not expect:

- `ESP.deepSleep` takes microseconds, so `3.6e9` is one hour.
- The moisture percentage is truncated, not rounded: the float is truncated
  to `long` before `map`, and `map` then divides exactly.

## Model

| member | source | states |
|---|---|---|
| `Hex.HexEncode` | src/main.cpp:85 | output has two characters per byte, all upper-case hex; characters 2i and 2i+1 are the high and low nibble of byte i |
| `Hex.FormatMac` | src/main.cpp:200 | the six-byte address prints as exactly 12 upper-case hex digits; these fit with their terminator in the 18-byte buffer; the digits are nibble by nibble; the text decodes back to the address |
| `Hex.DecodeEncode` | src/main.cpp:85 | decoding the printed bytes gives the bytes back |
| `Hex.EncodeDecode` | src/main.cpp:85 | every text the decoder accepts is the printing of the bytes it returns |
| `Hex.HexDecodeAccepts` | src/main.cpp:85 | the decoder accepts exactly the even-length strings of upper-case hex digits (both directions) |
| `Hex.HexEncodeInjective` | src/main.cpp:85 | different byte strings never print the same |
| `Hex.FormatMacInjective` | src/main.cpp:63 | two formatted addresses are equal if and only if the addresses are equal |
| `Calibration.Trunc` | src/main.cpp:140 | float-to-integer conversion: the magnitude is the floor of the magnitude, and the sign is kept |
| `Calibration.CDiv` | src/main.cpp:140 | C division: the remainder is smaller than the divisor in magnitude and never has the opposite sign of the dividend |
| `Calibration.RawFraction` | src/main.cpp:112 | `analogRead / 1024.f` lies in [0, 1) |
| `Calibration.BatteryVolts` | src/main.cpp:112-118 | battery value is exactly count*5/1024 and lies in [0, 5) |
| `Calibration.ScaledMoisture` | src/main.cpp:134-140 | the truncated `moisture_raw * 100` given to `map` is (count*25)/256 and lies in 0..99 |
| `Calibration.DryPoint` | src/main.cpp:140 | `(long)(moisture_max * 100)`, the dry point given to `map`, is exactly 80 |
| `Calibration.WetPoint` | src/main.cpp:140 | `(long)(moisture_min * 100)`, the wet point given to `map`, is exactly 30 |
| `Calibration.MapCalibrationLine` | src/main.cpp:140 | `map(x, 80, 30, 0, 100)` equals 160 - 2x for every x, with no rounding |
| `Calibration.MoisturePercent` | src/main.cpp:140 | the `map` of the scaled sample x between the calibration points is the line 160 - 2x, and it lies in [-38, 160] over the converter range |
| `Calibration.MoistureAtCalibrationPoints` | src/main.cpp:12-13 | moisture is 0 exactly when x = 80 and 100 exactly when x = 30 |
| `Calibration.MoistureNotClamped` | src/main.cpp:140 | no clamping: x > 80 gives a negative value, x < 30 a value above 100, and the value is in [0, 100] exactly when 30 <= x <= 80 |
| `Calibration.MoistureAntitone` | src/main.cpp:134-140 | a larger count never gives a larger moisture value |
| `Calibration.MoistureExtremes` | src/main.cpp:134-140 | both ends of [-38, 160] are reached: 160 at count 0 and -38 at count 1023 |
| `Message.TakeReading` | src/main.cpp:153-156 | the document holds battery = count*5/1024 in [0, 5), moisture = 160 - 2*((count*25)/256) in [-38, 160], and the debug entry, because the diagnostic flag is set |
| `Message.BuildEnvelope` | src/main.cpp:84-88 | group_id is 855544; mac is 12 characters that decode to the device address; data and uptime are those supplied |
| `Message.ParseEnvelope` | src/main.cpp:84-88 | a parsed message returns the document and uptime it carries |
| `Message.ParseBuild` | src/main.cpp:84-88 | parsing a built message gives back the address, document and uptime that went in |
| `Message.BuildParse` | src/main.cpp:84-88 | every message the parser accepts is the one the builder makes from what was parsed |
| `Firmware.GpioNumbersDistinct` | src/main.cpp:18-25 | the six pin names are six different GPIO lines |
| `Firmware.ReplayAppend` | src/main.cpp:106-149 | replaying pin writes in two pieces is the same as replaying them whole |
| `Firmware.ReplaySetup` | src/main.cpp:178-184 | replaying `setup`'s writes gives the levels `SetupLevels` describes |
| `Firmware.ReplayReading` | src/main.cpp:106-149 | replaying `newReading`'s writes gives the levels `AfterReading` describes |
| `Firmware.ReadingSamples` | src/main.cpp:106-134 | a reading makes nine events, of which exactly two are samples. The battery sample (event 3) has S0 low, the moisture sample (event 5) has S0 high. Both have OUTPUT_VCC high and OUTPUT_Ebar low |
| `Firmware.ReadingPowersDown` | src/main.cpp:147-149 | after a reading MOISTURE_VCC is low, OUTPUT_Ebar high, OUTPUT_VCC low and S0 high; S1 and S2 keep their previous levels |
| `Firmware.SetupDrivesPins` | src/main.cpp:178-184 | after `setup`'s writes S0, S1 and S2 are low, both supplies are high and OUTPUT_Ebar is low; those writes contain no sample |
| `Firmware.CyclePinLevels` | src/main.cpp:163-204 | after a full successful cycle from power-up, S1 and S2 are still low and the buffer and probe are powered down |
| `Firmware.SensorNode.constructor` | src/main.cpp:31-35 | power-up state: zeroed address buffers, empty document, no pin driven, phase Boot |
| `Firmware.SensorNode.DigitalWrite` | src/main.cpp:106 | sets exactly one pin level and appends the write to the record |
| `Firmware.SensorNode.AnalogRead` | src/main.cpp:112 | returns the supplied count and records it with the pin levels at that moment |
| `Firmware.SensorNode.PowerUp` | src/main.cpp:106-107 | OUTPUT_VCC high, then OUTPUT_Ebar low |
| `Firmware.SensorNode.SelectAndSample` | src/main.cpp:133-134 | sets S0, then samples with the new level in force |
| `Firmware.SensorNode.PowerDown` | src/main.cpp:147-149 | MOISTURE_VCC low, OUTPUT_Ebar high, OUTPUT_VCC low, in that order |
| `Firmware.SensorNode.NewReading` | src/main.cpp:98-157 | the record grows by exactly `ReadingTrace`; the pins end as `AfterReading`; the document becomes `TakeReading` of the two counts; one more reading is counted |
| `Firmware.SensorNode.SendReading` | src/main.cpp:79-96 | rewrites the address text from the unchanged bytes, so text already written stays the same; appends exactly one datagram to the fixed peer carrying `BuildEnvelope` of the address, document and clock; the phase becomes AwaitingCompletion |
| `Firmware.SensorNode.GotoSleep` | src/main.cpp:43-54 | the phase becomes Sleeping for 3,600,000,000 microseconds |
| `Firmware.SensorNode.OnDataSent` | src/main.cpp:56-77 | for every status the phase goes from AwaitingCompletion to Sleeping(3.6e9); nothing else changes |
| `Firmware.SensorNode.DriveInitialLevels` | src/main.cpp:178-184 | the record grows by `SetupTrace` and the pins become `SetupLevels` |
| `Firmware.SensorNode.ReportOnce` | src/main.cpp:195-203 | registers the callback and the peer, stores and formats the device address, and takes exactly one reading and one send |
| `Firmware.SensorNode.Setup` | src/main.cpp:163-204 | all six pins become outputs. If the radio fails to start: Restarting, no reading, no send, only `setup`'s pin writes. Otherwise: AwaitingCompletion, one reading, one datagram carrying the envelope of that reading, and a record of exactly `SetupTrace` followed by `ReadingTrace` |
| `Firmware.WakeCycle` | src/main.cpp:187-203 | from power-up, a failed radio start ends in Restarting with no reading, no send and no sample. A successful start ends in Sleeping(3.6e9) after exactly one reading and one send, whatever the delivery status |

The methods that `setup` calls internally (`NewReading`, `SendReading`,
`ReportOnce`) require the state `setup` calls them in: phase `Boot`, and for
`SendReading` a filled document and a registered callback. `OnDataSent` and
`GotoSleep` require `AwaitingCompletion`. The radio stack calls the completion
callback only after a send, and at most once per send.

## Left out

- The ArduinoJson serialisation (`serializeJson`) is not part of this model. The message is a record, not bytes.
- The transmitted bytes are not modelled. `esp_now_send` is given `(uint8_t *)&msgStr`, the address of the `String` object and not its characters. The model records which message was sent, not the payload bytes.
- Radio and network driver calls (`WiFi.mode`, `esp_now_init`, `esp_now_set_self_role`, `esp_now_register_send_cb`, `esp_now_add_peer`, `esp_now_send`, `WiFi.macAddress`) are replaced by their effects: an input for the start-up result and the MAC, and fields for the callback, the peer and the sent datagrams.
- `ESP.restart` and `ESP.deepSleep` are terminal phase changes. After `ESP.restart()` the C code would fall through to the rest of `setup`; the model treats the restart as ending the cycle, as the platform does.
- The return value of `esp_now_send` is ignored by the source. The model assumes the completion callback follows the send. A send that fails before the callback is ever raised, leaving the device awake, is not modelled.
- Serial output is not modelled: the `debug` string's text, and the recipient address that `OnDataSent` formats (line 63) only to print it. `FormatMac` models that format. The delivery status only selects diagnostic text, so it has no modelled effect.
- `delay` settling times and the `millis()` value printed in `gotoSleep` are timing, not logic, and are left out. The uptime is a parameter.
- General floating-point semantics are left out. The exactness argument above justifies exact reals for the values that occur.
- The ESP32 include branch (lines 4-6) is not modelled. The code uses only the ESP8266 API.
- `pinMode` is modelled only as the set of pins configured as outputs.
- `loop()` is empty and is not modelled.
- Calibration.ArduinoMap: the ESP8266 core's `map` is not part of this model. The classic non-rounding formula is assumed; a core that rounds would give different values.
