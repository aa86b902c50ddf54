# OBD-II poller: a Dafny model

This project models the core of `can-to-mqtt`, a program that polls a car's
engine control unit over a CAN bus with OBD-II service $01 requests and keeps
the decoded telemetry in one record.

The model has four parts:

- **Request encoder** (`request.dfy`, module `Request`). It builds the
  single-frame request `[0x02, 0x01, pid, 0, 0, 0, 0, 0]` on the functional
  broadcast identifier 0x7DF. A parser reads the id back from a payload, and
  a lemma shows the two are inverse.
- **Response decoder** (`response.dfy`, module `Response`).
  `parse_obd_response` becomes `Decode`, one arm per parameter id, and
  `ParseObdResponse`, which applies the one field assignment an accepted
  payload makes.
  - Length guards are modelled as in the code. Fewer than 4 bytes are
    dropped, the two-byte ids need 5 bytes and the odometer needs 7.
  - Arithmetic is done at the code's widths (u8, u16, u32, i16). Each write
    carries the value a release build stores (wrap-around) and a flag telling
    whether a debug build would panic on overflow instead.
  - `ResponseProperties` proves, arm by arm through small tables, what each
    arm stores: the integer families, the raw bytes, the linear conversions
    of the f32 arms and the odometer. It also proves which payloads overflow.
- **Telemetry record** (`vehicle_data.dfy`, module `Vehicle`). `VehicleData`
  is a total map from field to a value of the field's declared type.
  - The derived `Default` sets every field to zero.
  - It also holds the eleven fields the decoder assigns that the struct does
    not declare.
- **Polling loop** (`scheduler.dfy`, module `Scheduler`). The loop of
  `main` is written as methods:
  - `SendTier` is the `for` loop over a tier table.
  - `AwaitResponses` is the `while` loop that counts responses.
  - `PollCycle` is one pass of the loop body.
  - `Poll` runs a finite number of cycles.

  Each method is proved equal to a specification function (`RequestFrames`,
  `FailedPids`, `Await`, `RunCycle`, `RunPoll`, `RecordAfter`, `Displays`).
  `SchedulerProperties` proves what those functions promise: the cadence of
  the two tiers, what one cycle sends, what the wait counts and why it stops.

`FixedWidth` holds the integer types and the bit-level operations: wrapping
multiplication, big-endian composition through shift-and-or, and the i16
reinterpretation.

## Behaviour worth knowing

- **The percentage arms always store 0.** They compute `(A * 100) / 255` in
  u8. The product overflows for every A from 3 up, and the wrapped product
  never reaches 255. So a release build stores 0 for every input. A debug
  build panics for A >= 3 and stores 0 without panicking for A in 0..2. A
  reading of 0x64 is sometimes described as 39 %, but in this
  code it yields 0 (`ResponseProperties.EngineLoadExample`). The model
  follows the code.
- **Fuel pressure overflows.** `A * 3` overflows u8 from A = 86 up.
- **Fuel rail pressure overflows.** The 0x23 value `word * 10` overflows u16
  for words above 6553.
- **The signed temperatures can underflow.** The subtraction of 40 underflows
  i16 when A = 0x80 and B < 0x28.
- **The turbo speed never overflows.** It is computed in u32.

## Model

| member | source | states |
|---|---|---|
| FixedWidth.MulU8 | src/obd/response.rs:27 | u8 multiplication: overflows exactly when the product exceeds 255, and stores the product when it does not |
| FixedWidth.MulU16 | src/obd/response.rs:81 | u16 multiplication: overflows exactly when the product exceeds 65535, and stores the product when it does not |
| FixedWidth.MulU32 | src/obd/response.rs:188 | u32 multiplication: overflows exactly when the product exceeds 2^32 - 1, and stores the product when it does not |
| FixedWidth.WrapI16 | src/obd/response.rs:178 | the `as i16` cast keeps every value already in -32768..32767 |
| FixedWidth.BitOrBounds | src/obd/response.rs:34 | the bitwise or of two non-negative values is at least each of them and at most their sum |
| FixedWidth.Shl | src/obd/response.rs:34 | a left shift inside the width stays below 2^width: the bits moved past the top are lost |
| FixedWidth.ShlFits | src/obd/response.rs:34 | the shift is x * 2^n when that fits, losing no bits |
| FixedWidth.BitOrDisjoint | src/obd/response.rs:34 | or-ing a multiple of 2^k with a value below 2^k adds them |
| FixedWidth.Compose16 | src/obd/response.rs:34 | the high byte shifted left by 8 and or-ed with the low byte in u16 is hi * 256 + lo |
| FixedWidth.Compose32 | src/obd/response.rs:221-224 | the four shifted u32 bytes or-ed together are their big-endian value |
| FixedWidth.ShlI16 | src/obd/response.rs:193 | the i16 shift left by 8 has as its 16-bit pattern the low 16 bits of x * 256 |
| FixedWidth.OrI16 | src/obd/response.rs:193 | the i16 bitwise or has as its 16-bit pattern the or of the two operands' patterns |
| FixedWidth.BitOrBelow | src/obd/response.rs:193 | the or of two values below 2^k stays below 2^k, so the i16 or never leaves 16 bits |
| FixedWidth.ComposeI16 | src/obd/response.rs:193 | the same shift-and-or done in i16 has the bits of the u16 composition, reinterpreted as i16 |
| FixedWidth.ComposeI16Value | src/obd/response.rs:178 | the composition read as i16 is the signed word: hi * 256 + lo, minus 65536 exactly when hi >= 0x80 |
| FixedWidth.MinusFortyI16 | src/obd/response.rs:193 | i16 `s - 40` underflows exactly when s < -32728, and then wraps to s - 40 + 65536 |
| Vehicle.Get | src/vehicle/data.rs:4-68 | every field holds a value of its declared type: a u8 field is in 0..255, an i16 in -32768..32767, a u16 in 0..65535 |
| Vehicle.Store | src/obd/response.rs:9 | a field assignment sets that field and leaves every other field as it was |
| Vehicle.Default | src/vehicle/data.rs:1 | the derived default is a record whose every field is zero |
| Vehicle.AllFieldsComplete | src/vehicle/data.rs:2-69 | the field set covers every field the record has |
| Vehicle.GetExtensional | src/vehicle/data.rs:2-69 | two records that agree on every field are equal |
| Vehicle.StoreOverwrites | src/obd/response.rs:74-83 | a later assignment to a field replaces an earlier one |
| Vehicle.StoreCommutes | src/vehicle/data.rs:2-69 | assignments to different fields commute |
| Response.Registry | src/obd/response.rs:7-228 | the table of arms: for each id that has one, the field it writes and the payload length its guard needs; `Decode` is proved to agree with it and `MinLengths` states the lengths |
| Response.O2Sensor | src/obd/response.rs:54-62 | the sensor an id in 0x14..0x17 selects is the field the table names for that id, with the 4-byte guard |
| Response.PercentU8 | src/obd/response.rs:9 | `(A * 100) / 255` in u8 stores 0 for every A, and overflows exactly when A >= 3 |
| Response.TemperatureOffset | src/obd/response.rs:12 | `A as i16 - 40` is A - 40, lies in -40..215, and is negative exactly when A < 40 |
| Response.SignedPercent | src/obd/response.rs:15 | the fuel-trim scaling lies in [-100, 100), is 0 exactly at 128, and is negative exactly below 128 |
| Response.Decode | src/obd/response.rs:6-229 | a payload is decoded exactly when it has 4 bytes, its id has an arm and the arm's length guard passes; the field written is the one the id's entry names, with a value of the field's type |
| Response.DecodeEngine | src/obd/response.rs:8-63 | the arms below 0x1F agree with the registry: ids, fields and length guards |
| Response.DecodeDistance | src/obd/response.rs:64-106 | the arms 0x1F..0x41 agree with the registry |
| Response.DecodeThrottle | src/obd/response.rs:107-148 | the arms 0x42..0x4C agree with the registry |
| Response.DecodeTimes | src/obd/response.rs:149-170 | the arms 0x4D..0x68 agree with the registry |
| Response.DecodeTurbo | src/obd/response.rs:171-205 | the arms 0x69..0x9F agree with the registry; 0x75 and 0x76 are routed by `bytes[2]` |
| Response.DecodeExtended | src/obd/response.rs:206-227 | the arms from 0xA0 agree with the registry; any other id is ignored |
| Response.ParseObdResponse | src/obd/response.rs:4-231 | a dropped payload (short, unknown id, or failed length guard) leaves the record unchanged; an accepted one changes only the field its id names, to the decoded value |
| ResponseProperties.WriterOfRegistry | src/obd/response.rs:74-83 | every id writes its own field, except 0x23, which writes the field of 0x22 |
| ResponseProperties.RegistryOfWriter | src/obd/response.rs:191-198 | every written field is named by the entry of its writer id |
| ResponseProperties.RegistryInjective | src/obd/response.rs:74-83 | two different ids write the same field exactly when they are 0x22 and 0x23 |
| ResponseProperties.UndecodedFieldsUnchanged | src/vehicle/data.rs:22-43 | the catalyst, vapor pressure, injection timing and generic O2 fields keep their value whatever payload is decoded |
| ResponseProperties.MinLengths | src/obd/response.rs:6-227 | each arm needs 7 bytes for the odometer, 5 for the two-byte ids and 4 otherwise |
| ResponseProperties.OneDataByteTooFew | src/obd/response.rs:33 | a 4-byte payload for a two-byte id leaves the record unchanged |
| ResponseProperties.PercentArms | src/obd/response.rs:9 | each percentage arm stores 0 and overflows exactly when A >= 3 |
| ResponseProperties.FuelPressureArm | src/obd/response.rs:27 | fuel pressure stores 3A mod 256 and overflows exactly when A >= 86 |
| ResponseProperties.TemperatureArms | src/obd/response.rs:12 | the four temperature arms store A - 40 without overflow |
| ResponseProperties.WordArms | src/obd/response.rs:71 | the unscaled word arms store A * 256 + B |
| ResponseProperties.RawByteArms | src/obd/response.rs:29-175 | 0x0B, 0x0D, 0x30, 0x33 and 0x69 store A unchanged once the payload is long enough |
| ResponseProperties.F32ByteArms | src/obd/response.rs:14-218 | the one-byte f32 arms store A * scale + offset by the table: fuel trims and EGR error (A - 128) * 100 / 128, timing A / 2 - 64, O2 voltages A / 200, DEF dosing A / 2 |
| ResponseProperties.F32WordArms | src/obd/response.rs:32-215 | the two-byte f32 arms store word * scale by the table: rpm / 4, MAF / 100, run time, voltage / 1000, load * 100 / 255, ratio / 32768, fuel rate / 20, mg rate / 32, gear / 1000 |
| ResponseProperties.ScaledFuelRailPressure | src/obd/response.rs:81 | 0x23 stores (word * 10) mod 65536 and overflows exactly when word > 6553 |
| ResponseProperties.TurboRpmArm | src/obd/response.rs:188 | the turbo speed is word * 10, never overflows, and is at most 655350 |
| ResponseProperties.SignedTemperatureArms | src/obd/response.rs:191-203 | the signed temperatures are the signed word minus 40; they underflow exactly when A = 0x80 and B < 0x28, and then wrap |
| ResponseProperties.OdometerArm | src/obd/response.rs:219-226 | the odometer is the four-byte big-endian value divided by 10 |
| ResponseProperties.DebugPanicsExactly | src/obd/response.rs:4-231 | a debug build panics on exactly the percentage arms with A >= 3, fuel pressure with A >= 86, 0x23 above 6553, and the signed-temperature underflow |
| ResponseProperties.EngineLoadExample | src/obd/response.rs:9 | a load reading of 0x64 stores 0 and would panic in a debug build |
| ResponseProperties.EngineRpmExample | src/obd/response.rs:32-36 | 0x03E8 quarter revolutions store 250 rpm |
| ResponseProperties.ParseIdempotent | src/obd/response.rs:4-231 | decoding the same payload twice is decoding it once |
| ResponseProperties.ParseCommutes | src/obd/response.rs:4-231 | payloads that write different fields may be decoded in either order |
| ResponseProperties.ParseOverwrites | src/obd/response.rs:74-83 | of two payloads for the same field, the later one wins |
| Request.SendObdRequest | src/obd/request.rs:10-19 | the request is always sent as a data frame on 0x7DF; its payload parses back to the requested id, and the write's result is passed through |
| Request.StandardIdNew | src/obd/request.rs:11 | the standard-id constructor accepts exactly the values below 0x800, and keeps them |
| Request.CanFrameNew | src/obd/request.rs:14 | the frame constructor succeeds exactly for at most 8 data bytes, and builds the data frame with that id and payload |
| Request.RequestPayload | src/obd/request.rs:14 | the payload is 8 bytes and parses back to the requested id |
| Request.RequestedPidInverse | src/obd/request.rs:14 | a payload that parses as a request for an id is exactly the one built for it |
| Request.RequestLayout | src/obd/request.rs:14-15 | the payload is 8 bytes, fits a classic CAN frame so the `expect` never fires, and carries the id at offset 2 |
| Request.RequestIdIsStandard | src/obd/request.rs:8-12 | 0x7DF fits 11 bits, so the invalid-id error is never returned |
| Scheduler.RequestedPids | src/main.rs:82-95 | the high-frequency ids are sent first; an id is requested exactly when it is in the high-frequency tier, or in the regular tier on a counter-0 cycle |
| Scheduler.IsResponse | src/main.rs:112-113 | defines a counted response: a data frame whose id is the standard response identifier |
| Scheduler.Counted | src/main.rs:111-117 | an event adds a payload to the count exactly when it is a response, and then one payload, the frame's data |
| Scheduler.Await | src/main.rs:106-127 | the wait reads no more events than exist, and the count never goes down; `AwaitCounts` states what it counts |
| Scheduler.RunCycle | src/main.rs:80-127 | defines one cycle: the request frames and failed writes for `RequestedPids`, then the wait for one response per request; `CycleSpec` states its properties |
| Scheduler.ExpectedResponses | src/main.rs:100-104 | the cycle waits for one response per request: 45 on a counter-0 cycle and 5 otherwise |
| Scheduler.NextCounter | src/main.rs:132 | the counter advances by one and goes from 9 back to 0, staying in 0..9 |
| Scheduler.CounterAt | src/main.rs:78 | the counter starts at 0 and stays below 10 |
| Scheduler.SendTier | src/main.rs:82-86 | every id of the tier is sent in table order; failed writes are only recorded |
| Scheduler.AwaitResponses | src/main.rs:106-127 | the receive loop counts, decodes and stops as the `Await` specification says; the record is the counted payloads decoded in order |
| Scheduler.PollCycle | src/main.rs:80-133 | one pass sends the selected tiers, waits, displays the decoded record and advances the counter |
| Scheduler.Poll | src/main.rs:22-133 | cycle i runs on input i with the counter's value there, starting from the all-zero record; the record shown after each cycle is the record after the cycles so far |
| SchedulerProperties.CounterAtMod | src/main.rs:78 | cycle i runs with counter i mod 10 |
| SchedulerProperties.RegularOncePerTen | src/main.rs:89 | exactly one cycle in any ten consecutive cycles requests the regular tier |
| SchedulerProperties.RunPollCounter | src/main.rs:88-104 | cycle i sends 45 requests when i is a multiple of 10 and 5 otherwise |
| SchedulerProperties.DisplaysLength | src/main.rs:129 | the record is shown exactly once per cycle |
| SchedulerProperties.DisplaysAt | src/main.rs:129 | the i-th record shown is the record after cycles 0..i, whether or not every response arrived |
| SchedulerProperties.RecordAfterFrame | src/main.rs:114 | a field that no counted payload writes keeps its starting value across cycles |
| SchedulerProperties.RequestFramesAt | src/main.rs:82-95 | one frame per requested id, in order, each the request for that id |
| SchedulerProperties.FailedPidsMembers | src/main.rs:83-85 | the reported failures are exactly the requested ids whose write failed |
| SchedulerProperties.AwaitBounds | src/main.rs:107 | the wait reads no more events than exist, and counts no more than expected |
| SchedulerProperties.AwaitCounts | src/main.rs:111-117 | the counted payloads are exactly the data frames on the response identifier among the events read, in order, including ones the decoder drops |
| SchedulerProperties.AwaitEnds | src/main.rs:107-127 | the wait reads nothing after a deadline or stream end; it ends on the full count, a deadline, stream end or running out of events, and reports which |
| SchedulerProperties.CycleSpec | src/main.rs:80-127 | a cycle requests each id of its tiers once in order, reports exactly the failed writes, and counts at most one response per request |
| SchedulerProperties.ParseAllFrame | src/main.rs:114 | decoding a sequence of payloads changes no field that none of them writes |
| SchedulerProperties.DroppedResponseCounts | src/main.rs:111-117 | a response frame the decoder drops still adds its payload to the count and the wait goes on; decoding it leaves the record as it was |
| SchedulerProperties.OtherEventsNotCounted | src/main.rs:111-119 | an event that neither counts nor ends the wait is a read error, a remote or error frame, or a data frame on another identifier; the wait reads past it with the count unchanged |
| SchedulerProperties.TablesDisjoint | src/main.rs:25-76 | no id is in both tiers |
| SchedulerProperties.TablePidsDecode | src/main.rs:25-76 | every id in either tier has a decoding arm |

## Left out

- Display, configuration, MQTT publishing and change detection are not part
  of this model. `display_vehicle_data` appears only as the record a cycle
  shows (`Displays`).
- Socket I/O is abstracted:
  - opening the sockets is left out;
  - `write_frame` is a boolean answer per id (the `failing` set of a cycle);
  - `socket_rx.next()` is a finite sequence of receive events per cycle.
    The source reads one stream across all cycles, so a frame still queued
    when a cycle reaches its count is read by the next cycle. The model
    does not carry unread events over: each cycle's events are independent,
    which allows every such interleaving but does not tie them together.
- The 20 ms deadline is not a clock. It is a `Timeout` event, and running out
  of events counts as the deadline passing. When a frame and the deadline
  are both ready, the order of the events decides which `select!` takes.
- Logging with `eprintln!` is left out. A failed send is recorded in
  `sendErrors`, and a read error is skipped.
- Scheduler.Poll: runs a finite number of cycles instead of the endless
  `loop`.
- `OBD_RESPONSE_ID` is a parameter of type `u11`. The module that defines
  it is not part of this model, and the 11-bit type assumes its `unwrap`
  succeeds.
- f32 rounding is not modelled. Float fields hold the exact real value of
  the expression.
- Response.ParseObdResponse: stores the release-build (wrapping) value. The
  debug-build panic is reported by `Decode`'s overflow flag and does not stop
  the loop.
- Response.Decode: models the source's single `match` as six functions, one
  per id range (`DecodeEngine` to `DecodeExtended`). This keeps the proofs
  small; the arms, guards and constants are unchanged.
- Request.SendObdRequest: the asynchronous write and the error conversion in
  `send_request` of src/main.rs are represented by the `writeOk` answer only.
