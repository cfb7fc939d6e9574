# neOCampus sensor drivers and luminosity module, in Dafny

This project models three pieces of the neOSensor firmware and proves what they promise.

- **The SHT3x humidity and temperature driver** (`sht3x_crc.dfy`, `sht3x.dfy`):
  - the CRC-8 the chip appends to every word (polynomial 0x31, initial value 0xFF, most significant bit first), in its lookup-table form and its bitwise form;
  - the 6-byte measurement frame: two big-endian words, each followed by its checksum;
  - the integer conversions of raw words to hundredths of %RH and hundredths of a degree Celsius;
  - the static cache shared by the temperature and humidity instances, with its time window;
  - the three-attempt retry loops of `_readSensor` and `_check_identity`, and the three `_readSensor` calls of `getRH`/`getTemp`, each reading the clock anew, proved to act as one loop over nine answers while the cache stays stale;
  - the address filter, `begin`, and the resolution setter.

  Bus transfers are an oracle: attempt k reads the k-th response of a sequence, and a missing response reads as no bytes at all. The clock (`millis()`) is a parameter, read anew by each `_readSensor` call. Every command written to the bus is reported in a log. The cache is one static for every instance, whatever its address: the model keeps it so, and a read inside the window returns the words last acquired from any chip.
- **The luminosity module manager** (`luminosity_spec.dfy`, `luminosity.dfy`). It is a class over a fixed-capacity array of sensor slots. It registers drivers in order and scans them on every loop. Triggered drivers raise the module trigger and write their value under their sub-identifier in the shared map. A publication round stops at the first failed publication. Command messages dispatch "status", "acquire" and "frequency" orders with re-dispatch on "value" keys. The frequency is saved and reloaded through a configuration document.
  - The drivers are observed, not modelled: their process() result is an input (`readings`).
  - The outcomes of publications and storage writes are also an input (`outcomes`, one entry per outward operation, in order).
  - Each method is proved against a value-level function in `luminosity_spec.dfy`, and the lemmas there state what those functions mean.
- **The TSL2561 constant tables** (`tsl2561.dfy`): register, integration-time and gain encodings; auto-gain and clipping thresholds; channel scales; and the K/B/M coefficient bands of the lux approximation for both chip packages. The lemmas prove their ordering, their headroom, and that each coefficient is the nearest integer to its documented value.

`sequences.dfy` holds two facts about sequence concatenation that the other modules share.

The unsigned long clock wraps at 2^32; the model writes the wrap-around out. The humidity conversion is computed modulo 2^32 exactly as the source's `uint32_t` arithmetic does, and the model proves that neither conversion ever wraps.

The source's constructor, `add_sensor` and `handle_msg` change state step by step, so the manager is a class with `modifies` frames. Each of its loops carries an invariant that ties it to a specification function.

## Model

| member | source | states |
|---|---|---|
| Sht3xCrc.TableEntryIsShiftByte | neosensor/libraries/neocampus_drivers/SHT3x.cpp:403-420 | every entry of the 256-byte table is eight shift/xor-0x31 steps applied to its index |
| Sht3xCrc.EightShiftsAreShiftByte | neosensor/libraries/neocampus_drivers/SHT3x.cpp:443-445 | eight iterations of the bit loop are the per-byte step the table encodes |
| Sht3xCrc.TableCrcIsBitwiseCrc | neosensor/libraries/neocampus_drivers/SHT3x.cpp:423-450 | the table-driven and the bitwise CRC agree on every byte sequence and every starting register |
| Sht3xCrc.CrcFromAppend | neosensor/libraries/neocampus_drivers/SHT3x.cpp:441-446 | the CRC of a concatenation is the CRC of the second part started from the CRC of the first |
| Sht3xCrc.CrcResidueIsZero | neosensor/libraries/neocampus_drivers/SHT3x.cpp:436-449 | a block followed by its own checksum has CRC zero (no final xor) |
| Sht3xCrc.DatasheetExample | neosensor/libraries/neocampus_drivers/SHT3x.cpp:398 | the CRC of 0xBEEF is 0x92, the Sensirion datasheet example |
| Sht3xCrc.CrcCheckTable | neosensor/libraries/neocampus_drivers/SHT3x.cpp:423-433 | the table variant of `crc_check` is true exactly when the checksum is the CRC-8 of the first n bytes |
| Sht3xCrc.CrcCheckBitwise | neosensor/libraries/neocampus_drivers/SHT3x.cpp:436-450 | the bitwise variant (byte loop around an 8-step bit loop) is true exactly when the checksum is the CRC-8 of the first n bytes |
| Sht3x.IsListedAddress | neosensor/libraries/neocampus_drivers/SHT3x.cpp:44 | an address is the chip's exactly when it is 0x44 or 0x45 |
| Sht3x.SensorUnits | neosensor/libraries/neocampus_drivers/SHT3x.cpp:85-111 | the units are "celsius" exactly for a temperature instance, and never empty |
| Sht3x.WordBytes | neosensor/libraries/neocampus_drivers/SHT3x.cpp:361-364 | a word rebuilt big-endian from its two bytes is the word |
| Sht3x.BytesOfWord | neosensor/libraries/neocampus_drivers/SHT3x.cpp:361-364 | the two bytes of a big-endian word are the bytes it was built from |
| Sht3x.DecodeEncodedFrame | neosensor/libraries/neocampus_drivers/SHT3x.cpp:337-364 | every frame the chip can send (two words, each followed by its CRC) decodes to the words it carries |
| Sht3x.DecodedFrameIsEncoding | neosensor/libraries/neocampus_drivers/SHT3x.cpp:339-364 | an accepted frame has at least six bytes, and its first six are exactly the encoding of the decoded words |
| Sht3x.HumidityCenti | neosensor/libraries/neocampus_drivers/SHT3x.cpp:248-253 | `(625 * v) >> 12` in 32-bit unsigned arithmetic lies in [0, 9999] for every 16-bit word |
| Sht3x.TemperatureCenti | neosensor/libraries/neocampus_drivers/SHT3x.cpp:282-287 | `((4375 * v) >> 14) - 4500` lies in [-4500, 12999] for every 16-bit word |
| Sht3x.ConversionsDoNotOverflow | neosensor/libraries/neocampus_drivers/SHT3x.cpp:248-287 | neither product leaves its 32-bit word, so the modular result is the plain quotient |
| Sht3x.HumidityIsMonotonic | neosensor/libraries/neocampus_drivers/SHT3x.cpp:253 | the humidity conversion never decreases as the raw word grows |
| Sht3x.TemperatureIsMonotonic | neosensor/libraries/neocampus_drivers/SHT3x.cpp:287 | the temperature conversion never decreases as the raw word grows |
| Sht3x.HumidityNearDatasheet | neosensor/libraries/neocampus_drivers/SHT3x.cpp:249-253 | dividing by 65536 instead of the datasheet's 65535 gives at most one hundredth below, never above |
| Sht3x.TemperatureNearDatasheet | neosensor/libraries/neocampus_drivers/SHT3x.cpp:283-287 | the same bound for the temperature formula |
| Sht3x.AcquireFrames | neosensor/libraries/neocampus_drivers/SHT3x.cpp:327-367 | the acquisition loop makes no more attempts than it has answers, and when nothing is acquired it has used them all |
| Sht3x.AcquiredFrom | neosensor/libraries/neocampus_drivers/SHT3x.cpp:327-367 | when answer d is the first that decodes, its words are acquired after d + 1 attempts |
| Sht3x.AcquireExhausted | neosensor/libraries/neocampus_drivers/SHT3x.cpp:327-371 | when no answer decodes, every attempt is used and nothing is acquired |
| Sht3x.AcquireFramesAppend | neosensor/libraries/neocampus_drivers/SHT3x.cpp:327-367 | a retry loop over two runs of answers is the loop over the first, followed only when none of them decodes by the loop over the second, attempts and commands adding up |
| Sht3x.ReadRetriesIsOneLoop | neosensor/libraries/neocampus_drivers/SHT3x.cpp:228-240 | the three `_readSensor` calls of `getRH`/`getTemp` on a stale cache, each with three attempts, behave as one retry loop over the answers to nine transfers |
| Sht3x.ReadRetriesDecidedBy | neosensor/libraries/neocampus_drivers/SHT3x.cpp:228-240 | on a stale cache, `getRH`/`getTemp` acquire the frame of the first of the nine answers that decodes, after its position plus one attempts |
| Sht3x.ReadRetriesExhausted | neosensor/libraries/neocampus_drivers/SHT3x.cpp:228-245 | on a stale cache with none of the nine answers decoding, `getRH`/`getTemp` make nine attempts and fail |
| Sht3x.ReadCalls | neosensor/libraries/neocampus_drivers/SHT3x.cpp:228-240 | the `_readSensor` calls of `getRH`/`getTemp`, each reading the clock anew, make at most three attempts per call left, and a call that stamps the cache is one of them and acquired a frame |
| Sht3x.ReadCallsAllStale | neosensor/libraries/neocampus_drivers/SHT3x.cpp:228-240 | when every call finds the cache stale, the calls are exactly the one-loop-over-nine-answers run of `ReadRetries` |
| Sht3x.ReadCallsCacheHit | neosensor/libraries/neocampus_drivers/SHT3x.cpp:228-240 | when the clock moves (or wraps) into the cache window after failed calls, the next call succeeds with the cached words, after all the failed calls' attempts, and the cache is not stamped again |
| Sht3x.ClockEntersWindowBetweenCalls | neosensor/libraries/neocampus_drivers/SHT3x.cpp:313-316 | under the window test of `_readSensor`, after the stamp `begin` stores (line 138), a clock at 2^31 - 5 ms finds the cache stale and clocks at 2^31 + 1 and 2^31 + 2 ms find it fresh: the cache window can open between two calls of one read |
| Sht3x.FirstReadAfterBeginIsFresh | neosensor/libraries/neocampus_drivers/SHT3x.cpp:313-316 | once `begin` has stored ULONG_MAX/2 (line 138), any clock value below it fails the window test of `_readSensor`, so the first read goes to the bus |
| Sht3x.CheckIdentityFrom | neosensor/libraries/neocampus_drivers/SHT3x.cpp:466-504 | the identity loop makes no more attempts than it has answers |
| Sht3x.IdentityDecidedBy | neosensor/libraries/neocampus_drivers/SHT3x.cpp:471-497 | the first CRC-valid status answer ends the check after that attempt, accepted exactly when the masked word is the default |
| Sht3x.IdentityExhausted | neosensor/libraries/neocampus_drivers/SHT3x.cpp:471-499 | with no valid status answer, every attempt is used and the check refuses |
| Sht3x.ReadStatusFrame | neosensor/libraries/neocampus_drivers/SHT3x.cpp:476-489 | a status answer is accepted exactly when it has three bytes and a matching checksum |
| Sht3x.CheckIdentity | neosensor/libraries/neocampus_drivers/SHT3x.cpp:466-504 | the `_check_identity` loop returns the verdict, the attempt count and the commands of the retry specification |
| Sht3x.IsDevice | neosensor/libraries/neocampus_drivers/SHT3x.cpp:52-69 | an unlisted address is refused with no bus access; a listed one gets the identity check's verdict |
| Sht3x.ReadFrame | neosensor/libraries/neocampus_drivers/SHT3x.cpp:338-364 | one attempt's checks (six bytes, then the temperature and humidity CRCs) decode exactly the frames the frame specification accepts |
| Sht3x.SharedCache.constructor | neosensor/libraries/neocampus_drivers/SHT3x.cpp:89-91 | the static cache starts at time 0 with both words at 0xFFFF |
| Sht3x.Driver.constructor | neosensor/libraries/neocampus_drivers/SHT3x.cpp:77-81 | a new instance has no address, the requested measure and the default resolution |
| Sht3x.Driver.SetResolution | neosensor/libraries/neocampus_drivers/SHT3x.cpp:165-181 | true exactly for the three known resolutions, setting the integration time to its ms value plus the constant in 8-bit arithmetic; an unknown resolution changes nothing; the resolution field is never touched |
| Sht3x.Driver.Begin | neosensor/libraries/neocampus_drivers/SHT3x.cpp:120-141 | an address outside the bus range is refused with nothing changed; otherwise the identity check decides; success applies the resolution (the integration time `setResolution` gives it) and stores ULONG_MAX/2 as the last read time, and failure leaves the integration time alone |
| Sht3x.Driver.ReadSensor | neosensor/libraries/neocampus_drivers/SHT3x.cpp:313-393 | inside the cache window there is no bus access and the cached word comes back; otherwise the cache (both words and the time stamp) changes only when a frame with two valid CRCs arrived; the instance's word is returned |
| Sht3x.Driver.ReadCenti | neosensor/libraries/neocampus_drivers/SHT3x.cpp:228-290 | `getRH`/`getTemp`: call k reads clock `nows[k]`; the outcome, the attempt count and the cache are those of the calls' run: a call finding the cache fresh succeeds with the cached words and no bus access, a stale call's retry loop that decodes stores its words stamped with that call's clock; on success the instance's word converted to hundredths; on failure nine attempts and the cache unchanged |
| Sht3x.Driver.Acquire | neosensor/libraries/neocampus_drivers/SHT3x.cpp:191-222 | a humidity instance returns humidity in [0, 9999], any other temperature in [-4500, 12999]; it succeeds exactly when the calls' run (one clock reading per call) acquires words or finds them cached, and returns the instance's word of those words converted |
| Tsl2561.RegisterCode | neosensor/libraries/neocampus_drivers/TSL2561.h:150-165 | every register address fits in the low nibble of the command byte |
| Tsl2561.RegisterCodesAreDistinct | neosensor/libraries/neocampus_drivers/TSL2561.h:150-165 | distinct registers have distinct addresses |
| Tsl2561.CommandFlagsKeepRegister | neosensor/libraries/neocampus_drivers/TSL2561.h:69-74 | the command, clear, word and block bits fill the high nibble, so they never alter the selected register |
| Tsl2561.TimingCodesAreDistinct | neosensor/libraries/neocampus_drivers/TSL2561.h:169-179 | integration codes are distinct, gain codes are distinct, and the two fields never overlap in the timing register |
| Tsl2561.Defaults | neosensor/libraries/neocampus_drivers/TSL2561.h:172-180 | the defaults are 402 ms (the longest integration) and 16x gain |
| Tsl2561.ThresholdsAreOrdered | neosensor/libraries/neocampus_drivers/TSL2561.h:138-148 | at each integration time, AGC low < AGC high < clipping < documented max count <= 0xFFFF |
| Tsl2561.ThresholdsGrowWithIntegration | neosensor/libraries/neocampus_drivers/TSL2561.h:138-148 | the AGC high and clipping thresholds strictly grow from 13 ms to 101 ms to 402 ms |
| Tsl2561.ChannelScalesAreNearest | neosensor/libraries/neocampus_drivers/TSL2561.h:81-83 | CHSCALE_TINT0 and CHSCALE_TINT1 are the nearest integers to 322/11 and 322/81 times 2^10 |
| Tsl2561.BoundariesAreNondecreasing | neosensor/libraries/neocampus_drivers/TSL2561.h:86-133 | in both packages the band boundaries K1..K8 never decrease, and K7 = K8 |
| Tsl2561.LastBandIsZero | neosensor/libraries/neocampus_drivers/TSL2561.h:107-135 | B8 = M8 = 0 in both packages |
| Tsl2561.BandsAreNearestToDocumented | neosensor/libraries/neocampus_drivers/TSL2561.h:79-135 | every K is the nearest integer to its documented ratio times 2^9, and every B and M to its documented slope times 2^14 |
| LuminositySpec.ToUint16 | neosensor/libraries/neocampus_modules/luminosity.cpp:399 | the `(uint16_t)` cast gives a value below 2^16 that is congruent to its input, and keeps values already in range |
| LuminositySpec.Clamp | neosensor/libraries/neocampus_modules/luminosity.cpp:399 | the frequency setter keeps a value within [min, max], leaves in-range values alone, and sends a value below or above the range to the nearer bound |
| LuminositySpec.Trunc | neosensor/libraries/neocampus_modules/luminosity.cpp:333 | the `(int)` conversion of a value truncates toward zero |
| LuminositySpec.ScanFromIsScan | neosensor/libraries/neocampus_modules/luminosity.cpp:288-305 | the scan resumed at slot `cur` leaves earlier slots alone and scans the rest |
| LuminositySpec.ScanSlots | neosensor/libraries/neocampus_modules/luminosity.cpp:288-292 | after a scan every slot holds its processed driver, and empty slots stay empty |
| LuminositySpec.ScanTrigger | neosensor/libraries/neocampus_modules/luminosity.cpp:293-298 | the module trigger after a scan is its old value OR "some driver fired"; it is never cleared |
| LuminositySpec.ScanSharedKeys | neosensor/libraries/neocampus_modules/luminosity.cpp:303-304 | a sub-identifier has an entry after a scan exactly when it had one or a fired driver wrote it |
| LuminositySpec.ScanSharedUntouched | neosensor/libraries/neocampus_modules/luminosity.cpp:293-304 | an entry that no fired driver writes keeps its value |
| LuminositySpec.ScanSharedLastWriter | neosensor/libraries/neocampus_modules/luminosity.cpp:303-304 | an entry holds the value of the last fired driver that wrote it |
| LuminositySpec.SendAll | neosensor/libraries/neocampus_modules/luminosity.cpp:317-365 | a round keeps the number of slots, and a failed round published at least one message |
| LuminositySpec.SendAllPublishesPending | neosensor/libraries/neocampus_modules/luminosity.cpp:323-348 | a round publishes a prefix of the triggered drivers' messages in slot order, each value truncated to an integer |
| LuminositySpec.SendAllPublishesAll | neosensor/libraries/neocampus_modules/luminosity.cpp:323-364 | a successful round published every triggered driver's message |
| LuminositySpec.SendAllSuccess | neosensor/libraries/neocampus_modules/luminosity.cpp:340-364 | a successful round had every one of its publications delivered |
| LuminositySpec.SendAllFailure | neosensor/libraries/neocampus_modules/luminosity.cpp:340-348 | a failed round stopped right after its first undelivered publication |
| LuminositySpec.SendAllSucceedsIff | neosensor/libraries/neocampus_modules/luminosity.cpp:340-364 | a round succeeds exactly when every triggered driver's publication is delivered |
| LuminositySpec.SendAllSlot | neosensor/libraries/neocampus_modules/luminosity.cpp:325-351 | a slot is marked sent exactly when its driver triggered and its publication came before the failure; that slot and every later one are untouched |
| LuminositySpec.SendFromIsSendAll | neosensor/libraries/neocampus_modules/luminosity.cpp:323-355 | the round resumed at slot `cur` leaves earlier slots alone and runs over the rest |
| LuminositySpec.ConfigDoc | neosensor/libraries/neocampus_modules/luminosity.cpp:469-484 | the saved document holds only "frequency", and holds it exactly when the frequency is not the 16-bit default |
| LuminositySpec.ConfigRoundTrip | neosensor/libraries/neocampus_modules/luminosity.cpp:452-484 | a module at the default frequency that loads a saved document ends at the saved frequency, whenever that frequency is in range |
| LuminositySpec.LoadedFrequencyInRange | neosensor/libraries/neocampus_modules/luminosity.cpp:452-464 | a document without "frequency" changes nothing; otherwise the loaded frequency is in range |
| LuminositySpec.OrderFailures | neosensor/libraries/neocampus_modules/luminosity.cpp:372-411 | a null order, an unknown order, or "frequency" without a value fails with nothing changed and nothing sent |
| LuminositySpec.FrequencyOrder | neosensor/libraries/neocampus_modules/luminosity.cpp:395-407 | "frequency" with a value sets an in-range frequency, publishes the status, and stores the configuration; it succeeds exactly when the store does, and the stored document reloads to the new frequency |
| LuminositySpec.AcquireOrder | neosensor/libraries/neocampus_modules/luminosity.cpp:387-393 | "acquire" is exactly one publication round; it succeeds iff every pending publication is delivered, and it leaves the frequency alone |
| LuminositySpec.DispatchesKeyByKey | neosensor/libraries/neocampus_modules/luminosity.cpp:160-194 | "dest" keys and unknown keys dispatch nothing; each "order" key dispatches once with the latest value; each "value" key after an order dispatches that order with the new value |
| LuminositySpec.HandleFromIsWalk | neosensor/libraries/neocampus_modules/luminosity.cpp:160-194 | handling resumed at key i dispatches the rest of the walk and applies those orders one after the other |
| Luminosity.LuminosityModule.constructor | neosensor/libraries/neocampus_modules/luminosity.cpp:43-57 | every slot is empty and the count is zero; the frequency is the default, or the stored configuration's |
| Luminosity.LuminosityModule.Destroy | neosensor/libraries/neocampus_modules/luminosity.cpp:60-67 | every registered slot is emptied, the others are untouched, and the count is zero |
| Luminosity.LuminosityModule.AddSensor | neosensor/libraries/neocampus_modules/luminosity.cpp:74-117 | fails with nothing changed when full or when no probe both recognises and starts the device; the TSL2561 probe is tried first; on success the new driver sits at the old count and the count grows by one; slots stay packed |
| Luminosity.LuminosityModule.IsEmpty | neosensor/libraries/neocampus_modules/luminosity.cpp:122-124 | true exactly when no sensor is registered |
| Luminosity.LuminosityModule.EmptyIffNoSlot | neosensor/libraries/neocampus_modules/luminosity.cpp:50-53 | with packed slots, the module is empty exactly when every slot is empty |
| Luminosity.LuminosityModule.SetFrequency | neosensor/libraries/neocampus_modules/luminosity.cpp:456 | the frequency becomes the requested value clamped to the module's range |
| Luminosity.LuminosityModule.LoadConfigDoc | neosensor/libraries/neocampus_modules/luminosity.cpp:452-464 | applying a document always succeeds and reads only its "frequency" field |
| Luminosity.LuminosityModule.LoadConfig | neosensor/libraries/neocampus_modules/luminosity.cpp:417-447 | succeeds exactly when a readable configuration exists, and then applies it |
| Luminosity.LuminosityModule.SaveConfig | neosensor/libraries/neocampus_modules/luminosity.cpp:469-484 | writes the document that holds the frequency only when it is not the default, and reports storage's verdict |
| Luminosity.LuminosityModule.ProcessSlot | neosensor/libraries/neocampus_modules/luminosity.cpp:289-304 | one scan turn: only slot `cur` changes; a fired driver raises the trigger and writes its value |
| Luminosity.LuminosityModule.ProcessSensors | neosensor/libraries/neocampus_modules/luminosity.cpp:286-306 | the array, the trigger and the shared map end as one scan of the registered slots specifies |
| Luminosity.LuminosityModule.SendSlot | neosensor/libraries/neocampus_modules/luminosity.cpp:325-351 | one round turn: a triggered driver yields its message and is marked sent only if delivered |
| Luminosity.LuminosityModule.SendValues | neosensor/libraries/neocampus_modules/luminosity.cpp:317-365 | the result, the messages and the slots are those of one publication round |
| Luminosity.LuminosityModule.Process | neosensor/libraries/neocampus_modules/luminosity.cpp:201-231 | the base processing runs first (its result is `baseOk`), then a scan; with the trigger down the base result is returned without sending; with the trigger up and no sensor, false; otherwise one publication round |
| Luminosity.LuminosityModule.ProcessOrder | neosensor/libraries/neocampus_modules/luminosity.cpp:372-412 | the result, the operations performed, the slots and the frequency are those of the order's specification |
| Luminosity.LuminosityModule.HandleMsg | neosensor/libraries/neocampus_modules/luminosity.cpp:152-195 | the orders dispatched are the key walk's, and the state and the operations are those orders applied in turn |

## Left out

- Luminosity.LuminosityModule.Process: `base::process` is taken to leave the module's slots, trigger and frequency unchanged, so the contract covers a tick in which no command message arrives. Messages that `base::process` hands to `handle_msg` are modelled by the separate `HandleMsg`, and a tick that runs both is not stated as one contract.
- Bus I/O (`readList_ll`, `write8`, `_writeCmd`, `sw_reset`), `delay` and `yield` are not modelled. Answers come from a response sequence, and the commands written are reported as a log.
- `millis()` is a parameter: each `_readSensor` call takes one clock value (`getRH`/`getTemp` take one per call, `nows`). Both of its uses in one `_readSensor` call (the window test and the new stamp) take that same value.
- The final float conversions of `getRH`/`getTemp` (`/ 100.0f`) are not modelled; results stay in integer hundredths.
- The `TEMPERATURE_CORRECTION_LASTI2C` offset is compiled out by default and is a float, so it is left out.
- SHT3x.h and neocampus_i2c.h are not part of this model. The cache window, the integration times and constant, the status mask and default, the default resolution and the bus address range are carried as parameters (`Sht3x.Header`). Each retry loop's count of three is written as the literal 3.
- `powerON`/`powerOFF` of the SHT3x do nothing in the source and are not modelled.
- The TSL2561 lux computation, auto-gain and timing setters live in TSL2561.cpp, which is not part of this model. Only the header's constants are.
- The MAX44009 driver, the `generic_driver` and `base` classes, and the TSL2561 and MAX44009 drivers' methods `process`, `getTrigger`, `getValue`, `setDataSent`, `is_device` and `begin` are not part of this model. The manager observes them:
  - the probe results are booleans passed to `AddSensor`;
  - the outcome of process() is a `Reading` per slot;
  - the data-sent marking is a counter in the slot, and leaves the driver's trigger as it was.
- A driver's sub-identifier is taken to be its bus address. The TSL2561 header shows this for that driver; the MAX44009's is assumed to be the same.
- Luminosity.LuminosityModule.SetFrequency: the base class's `setFrequency` is not part of this model. It is modelled as a clamp to [min, max], which is what its arguments suggest.
- Luminosity.LuminosityModule.constructor: luminosity.h is not part of this model. The initial `_trigger` (false) and `_sensors_count` (0) are assumed, and the header's `_MAX_SENSORS`, default, minimum and maximum frequency are parameters (`LuminositySpec.Settings`).
- MQTT transport (`start`, topics, `sendmsg`) is modelled only by the outcome sequence: each publication and each configuration write consumes the next boolean. The message body is reduced to the value and the sub-identifier, without `value_units`.
- The content of `status` is not modelled, because it comes from the base class. A status publication is the `StatusMsg` event, and the outcome of the status publication made by a "frequency" order is ignored, as in the source.
- Luminosity.LuminosityModule.LoadConfig: SPIFFS file access and JSON parsing are abstracted. A missing, unreadable or unparsable file is `None`, and the removal of an unparsable file is not modelled.
- ArduinoJson's conversions of a value to `int` and `unsigned int` are inputs (`Json.asInt`, `Json.asUnsigned`). A JSON value that is not a string is a null order. The 32-bit width of `unsigned int` is not modelled.
- `loadSensoConfig` is left out: it returns false before doing anything else.
- Floating-point sensor values are real numbers. The `(int)` conversion is truncation toward zero, without the undefined behaviour of values that do not fit an `int`.
- `delay(20)` between publications, and all logging, are left out.
