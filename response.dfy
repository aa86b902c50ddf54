/** The OBD-II service $01 response decoder of src/obd/response.rs.

    A response payload is `[length, 0x41, pid, A, B, ...]`. The decoder drops
    payloads shorter than 4 bytes, dispatches on the parameter id at index 2
    and, when the arm's extra length guard passes, assigns one field of the
    telemetry record from the data bytes A (index 3), B (index 4), ...

    `Decode` mirrors the match arm by arm and returns the one assignment the
    arm makes; `ParseObdResponse` applies it to the record. Arithmetic is done
    at the source's widths: a `Write` carries the value a release build stores
    (wrapping) and whether a debug build would panic on overflow instead. */
module Response {
  import opened FixedWidth
  import opened Options
  import opened Vehicle

  /** One field assignment made by a decoder arm. */
  datatype Write = Write(field: Field, value: Value, overflowed: bool)

  /** The registry: the field an id's arm writes and the payload length the
      arm needs (4 for one data byte, 5 for two, 7 for four). */
  datatype Entry = Entry(field: Field, minLength: nat)

  function Registry(pid: u8): Option<Entry>
  {
    // looked up by id range, the same ranges the decoder's arms are grouped in
    if pid < 0x1F then EngineEntry(pid)
    else if pid < 0x42 then DistanceEntry(pid)
    else if pid < 0x4D then ThrottleEntry(pid)
    else if pid < 0x69 then TimesEntry(pid)
    else if pid < 0xA0 then TurboEntry(pid)
    else ExtendedEntry(pid)
  }

  function EngineEntry(pid: u8): Option<Entry>
  {
    match pid
    case 0x04 => Some(Entry(U8Field(EngineLoad), 4))
    case 0x05 => Some(Entry(I16Field(CoolantTemp), 4))
    case 0x06 => Some(Entry(F32Field(FuelTrimShortB1), 4))
    case 0x07 => Some(Entry(F32Field(FuelTrimLongB1), 4))
    case 0x08 => Some(Entry(F32Field(FuelTrimShortB2), 4))
    case 0x09 => Some(Entry(F32Field(FuelTrimLongB2), 4))
    case 0x0A => Some(Entry(U8Field(FuelPressure), 4))
    case 0x0B => Some(Entry(U8Field(IntakePressure), 4))
    case 0x0C => Some(Entry(F32Field(EngineRpm), 5))
    case 0x0D => Some(Entry(U8Field(VehicleSpeed), 4))
    case 0x0E => Some(Entry(F32Field(TimingAdvance), 4))
    case 0x0F => Some(Entry(I16Field(IntakeTemp), 4))
    case 0x10 => Some(Entry(F32Field(MafSensor), 5))
    case 0x11 => Some(Entry(U8Field(ThrottlePos), 4))
    case 0x14 => Some(Entry(F32Field(O2SensorVoltageB1s1), 4))
    case 0x15 => Some(Entry(F32Field(O2SensorVoltageB1s2), 4))
    case 0x16 => Some(Entry(F32Field(O2SensorVoltageB1s3), 4))
    case 0x17 => Some(Entry(F32Field(O2SensorVoltageB1s4), 4))
    case _ => None
  }

  function DistanceEntry(pid: u8): Option<Entry>
  {
    match pid
    case 0x1F => Some(Entry(F32Field(EngineRunTime), 5))
    case 0x21 => Some(Entry(U16Field(DistanceWithMil), 5))
    case 0x22 => Some(Entry(U16Field(FuelRailPressure), 5))
    case 0x23 => Some(Entry(U16Field(FuelRailPressure), 5))
    case 0x2C => Some(Entry(U8Field(CommandedEgr), 4))
    case 0x2D => Some(Entry(F32Field(EgrError), 4))
    case 0x2E => Some(Entry(U8Field(CommandedEvapPurge), 4))
    case 0x2F => Some(Entry(U8Field(FuelLevel), 4))
    case 0x30 => Some(Entry(U8Field(WarmupsSinceCodesCleared), 4))
    case 0x31 => Some(Entry(U16Field(DistanceSinceCodesCleared), 5))
    case 0x33 => Some(Entry(U8Field(BaroPressure), 4))
    case _ => None
  }

  function ThrottleEntry(pid: u8): Option<Entry>
  {
    match pid
    case 0x42 => Some(Entry(F32Field(ControlModuleVoltage), 5))
    case 0x43 => Some(Entry(F32Field(AbsoluteLoad), 5))
    case 0x44 => Some(Entry(F32Field(CommandEquivRatio), 5))
    case 0x45 => Some(Entry(U8Field(RelativeThrottlePos), 4))
    case 0x46 => Some(Entry(I16Field(AmbientTemp), 4))
    case 0x47 => Some(Entry(U8Field(AbsoluteThrottlePosB), 4))
    case 0x48 => Some(Entry(U8Field(AbsoluteThrottlePosC), 4))
    case 0x49 => Some(Entry(U8Field(AcceleratorPedalPosD), 4))
    case 0x4A => Some(Entry(U8Field(AcceleratorPedalPosE), 4))
    case 0x4B => Some(Entry(U8Field(AcceleratorPedalPosF), 4))
    case 0x4C => Some(Entry(U8Field(CommandedThrottleActuator), 4))
    case _ => None
  }

  function TimesEntry(pid: u8): Option<Entry>
  {
    match pid
    case 0x4D => Some(Entry(U16Field(TimeWithMil), 5))
    case 0x4E => Some(Entry(U16Field(TimeSinceCodesCleared), 5))
    case 0x52 => Some(Entry(U8Field(EthanolFuel), 4))
    case 0x5C => Some(Entry(I16Field(EngineOilTemp), 4))
    case 0x5E => Some(Entry(F32Field(EngineFuelRate), 5))
    case _ => None
  }

  function TurboEntry(pid: u8): Option<Entry>
  {
    match pid
    case 0x69 => Some(Entry(U8Field(ActualEgr), 5))
    case 0x6B => Some(Entry(I16Field(EgrTemp), 5))
    case 0x73 => Some(Entry(U16Field(ExhaustPressure), 5))
    case 0x74 => Some(Entry(U32Field(TurboRpm), 5))
    case 0x75 => Some(Entry(I16Field(TurboTemp1), 5))
    case 0x76 => Some(Entry(I16Field(TurboTemp2), 5))
    case 0x77 => Some(Entry(I16Field(ChargeAirTemp), 5))
    case _ => None
  }

  function ExtendedEntry(pid: u8): Option<Entry>
  {
    match pid
    case 0xA2 => Some(Entry(F32Field(FuelRateMg), 5))
    case 0xA4 => Some(Entry(F32Field(ActualGear), 5))
    case 0xA5 => Some(Entry(F32Field(DefDosing), 4))
    case 0xA6 => Some(Entry(F32Field(Odometer), 7))
    case _ => None
  }

  /** `r` is what the registry says the payload's arm does. */
  predicate AgreesWithRegistry(bytes: seq<u8>, r: Option<Write>)
    requires |bytes| >= 4
  {
    match Registry(bytes[2])
    case None => r.None?
    case Some(e) =>
      if |bytes| < e.minLength then r.None?
      else r.Some? && r.value.field == e.field && Fits(e.field, r.value.value)
  }

  /** The payload is long enough, its id has an arm, and the arm's length
      guard passes. */
  predicate Accepted(bytes: seq<u8>)
  {
    |bytes| >= 4 && Registry(bytes[2]).Some? && |bytes| >= Registry(bytes[2]).value.minLength
  }

  /** `(raw * 100) / 255` evaluated in u8. The product wraps for every raw
      value from 3 up, and the wrapped product never reaches 255, so a
      release build always stores 0. */
  function PercentU8(raw: u8): (r: Checked<u8>)
    ensures r.value == 0
    ensures r.overflowed <==> raw >= 3
  {
    var product := MulU8(raw, 100);
    Checked(product.value / 255, product.overflowed)
  }

  /** `raw as i16 - 40`: the -40 offset of the temperature PIDs; it cannot
      overflow. */
  function TemperatureOffset(raw: u8): (t: i16)
    ensures t + 40 == raw
    ensures -40 <= t <= 215
    ensures t < 0 <==> raw < 40
  {
    raw - 40
  }

  /** `(raw as f32 - 128.0) * 100.0 / 128.0`: fuel trims and EGR error. */
  function SignedPercent(raw: u8): (r: real)
    ensures -100.0 <= r < 100.0
    ensures r == 0.0 <==> raw == 128
    ensures r < 0.0 <==> raw < 128
  {
    (raw as real - 128.0) * 100.0 / 128.0
  }

  /** The bank 1 oxygen sensor (1 to 4) whose voltage an id in 0x14..=0x17
      reports: the inner match of that arm, whose default case no id in the
      range reaches. */
  function O2Sensor(pid: u8): (r: F32Name)
    requires 0x14 <= pid <= 0x17
    ensures Registry(pid) == Some(Entry(F32Field(r), 4))
  {
    if pid == 0x14 then O2SensorVoltageB1s1
    else if pid == 0x15 then O2SensorVoltageB1s2
    else if pid == 0x16 then O2SensorVoltageB1s3
    else O2SensorVoltageB1s4
  }

  /** The write of a checked result: the wrapped value and the overflow
      flag. */
  function WriteU8(f: U8Name, c: Checked<u8>): Write
  {
    Write(U8Field(f), U8(c.value), c.overflowed)
  }

  function WriteU16(f: U16Name, c: Checked<u16>): Write
  {
    Write(U16Field(f), U16(c.value), c.overflowed)
  }

  function WriteU32(f: U32Name, c: Checked<u32>): Write
  {
    Write(U32Field(f), U32(c.value), c.overflowed)
  }

  function WriteI16(f: I16Name, c: Checked<i16>): Write
  {
    Write(I16Field(f), I16(c.value), c.overflowed)
  }

  /** The write of a value computed without overflow. */
  function SetU8(f: U8Name, v: u8): Write
  {
    Write(U8Field(f), U8(v), false)
  }

  function SetI16(f: I16Name, v: i16): Write
  {
    Write(I16Field(f), I16(v), false)
  }

  function SetU16(f: U16Name, v: u16): Write
  {
    Write(U16Field(f), U16(v), false)
  }

  function SetF32(f: F32Name, v: real): Write
  {
    Write(F32Field(f), F32(v), false)
  }

  /** The arm for the id at index 2, or None when the payload is dropped.
      The source's single match is split here by id range. */
  function Decode(bytes: seq<u8>): (r: Option<Write>)
    ensures r.Some? <==> Accepted(bytes)
    ensures r.Some? ==> r.value.field == Registry(bytes[2]).value.field
    ensures r.Some? ==> Fits(r.value.field, r.value.value)
  {
    if |bytes| < 4 then None
    else if bytes[2] < 0x1F then DecodeEngine(bytes)
    else if bytes[2] < 0x42 then DecodeDistance(bytes)
    else if bytes[2] < 0x4D then DecodeThrottle(bytes)
    else if bytes[2] < 0x69 then DecodeTimes(bytes)
    else if bytes[2] < 0xA0 then DecodeTurbo(bytes)
    else DecodeExtended(bytes)
  }

  /** The arms for ids below 0x1F: load, temperatures, fuel trims,
      pressures, speed, timing, air flow, throttle and the bank 1 oxygen
      sensors. */
  function DecodeEngine(bytes: seq<u8>): (r: Option<Write>)
    requires |bytes| >= 4 && bytes[2] < 0x1F
    ensures AgreesWithRegistry(bytes, r)
  {
    var pid, b3 := bytes[2], bytes[3];
    match pid
    case 0x04 => Some(WriteU8(EngineLoad, PercentU8(b3)))
    case 0x05 => Some(SetI16(CoolantTemp, TemperatureOffset(b3)))
    case 0x06 => Some(SetF32(FuelTrimShortB1, SignedPercent(b3)))
    case 0x07 => Some(SetF32(FuelTrimLongB1, SignedPercent(b3)))
    case 0x08 => Some(SetF32(FuelTrimShortB2, SignedPercent(b3)))
    case 0x09 => Some(SetF32(FuelTrimLongB2, SignedPercent(b3)))
    case 0x0A => Some(WriteU8(FuelPressure, MulU8(b3, 3)))
    case 0x0B => Some(SetU8(IntakePressure, b3))
    case 0x0C =>
      if |bytes| >= 5 then Some(SetF32(EngineRpm, Compose16(b3, bytes[4]) as real / 4.0)) else None
    case 0x0D => Some(SetU8(VehicleSpeed, b3))
    case 0x0E => Some(SetF32(TimingAdvance, b3 as real / 2.0 - 64.0))
    case 0x0F => Some(SetI16(IntakeTemp, TemperatureOffset(b3)))
    case 0x10 =>
      if |bytes| >= 5 then Some(SetF32(MafSensor, Compose16(b3, bytes[4]) as real / 100.0)) else None
    case 0x11 => Some(WriteU8(ThrottlePos, PercentU8(b3)))
    case 0x14 | 0x15 | 0x16 | 0x17 =>
      Some(SetF32(O2Sensor(pid), b3 as real / 200.0))
    case _ => None
  }

  /** The arms for ids 0x1F to 0x41: run time, distances, fuel rail
      pressure, EGR and purge, fuel level, warm-ups and barometric pressure. */
  function DecodeDistance(bytes: seq<u8>): (r: Option<Write>)
    requires |bytes| >= 4 && 0x1F <= bytes[2] < 0x42
    ensures AgreesWithRegistry(bytes, r)
  {
    var pid, b3 := bytes[2], bytes[3];
    match pid
    case 0x1F =>
      if |bytes| >= 5 then Some(SetF32(EngineRunTime, Compose16(b3, bytes[4]) as real)) else None
    case 0x21 =>
      if |bytes| >= 5 then Some(SetU16(DistanceWithMil, Compose16(b3, bytes[4]))) else None
    case 0x22 =>
      if |bytes| >= 5 then Some(SetU16(FuelRailPressure, Compose16(b3, bytes[4]))) else None
    case 0x23 =>
      if |bytes| >= 5 then
        Some(WriteU16(FuelRailPressure, MulU16(Compose16(b3, bytes[4]), 10)))
      else None
    case 0x2C => Some(WriteU8(CommandedEgr, PercentU8(b3)))
    case 0x2D => Some(SetF32(EgrError, SignedPercent(b3)))
    case 0x2E => Some(WriteU8(CommandedEvapPurge, PercentU8(b3)))
    case 0x2F => Some(WriteU8(FuelLevel, PercentU8(b3)))
    case 0x30 => Some(SetU8(WarmupsSinceCodesCleared, b3))
    case 0x31 =>
      if |bytes| >= 5 then Some(SetU16(DistanceSinceCodesCleared, Compose16(b3, bytes[4]))) else None
    case 0x33 => Some(SetU8(BaroPressure, b3))
    case _ => None
  }

  /** The arms for ids 0x42 to 0x4C: module voltage, absolute load, equivalence
      ratio, throttle and pedal positions. */
  function DecodeThrottle(bytes: seq<u8>): (r: Option<Write>)
    requires |bytes| >= 4 && 0x42 <= bytes[2] < 0x4D
    ensures AgreesWithRegistry(bytes, r)
  {
    var pid, b3 := bytes[2], bytes[3];
    match pid
    case 0x42 =>
      if |bytes| >= 5 then Some(SetF32(ControlModuleVoltage, Compose16(b3, bytes[4]) as real / 1000.0)) else None
    case 0x43 =>
      if |bytes| >= 5 then Some(SetF32(AbsoluteLoad, Compose16(b3, bytes[4]) as real * 100.0 / 255.0)) else None
    case 0x44 =>
      if |bytes| >= 5 then Some(SetF32(CommandEquivRatio, Compose16(b3, bytes[4]) as real / 32768.0)) else None
    case 0x45 => Some(WriteU8(RelativeThrottlePos, PercentU8(b3)))
    case 0x46 => Some(SetI16(AmbientTemp, TemperatureOffset(b3)))
    case 0x47 => Some(WriteU8(AbsoluteThrottlePosB, PercentU8(b3)))
    case 0x48 => Some(WriteU8(AbsoluteThrottlePosC, PercentU8(b3)))
    case 0x49 => Some(WriteU8(AcceleratorPedalPosD, PercentU8(b3)))
    case 0x4A => Some(WriteU8(AcceleratorPedalPosE, PercentU8(b3)))
    case 0x4B => Some(WriteU8(AcceleratorPedalPosF, PercentU8(b3)))
    case 0x4C => Some(WriteU8(CommandedThrottleActuator, PercentU8(b3)))
    case _ => None
  }

  /** The arms for ids 0x4D to 0x68: time with the MIL on and since codes
      were cleared, ethanol, oil temperature and fuel rate. */
  function DecodeTimes(bytes: seq<u8>): (r: Option<Write>)
    requires |bytes| >= 4 && 0x4D <= bytes[2] < 0x69
    ensures AgreesWithRegistry(bytes, r)
  {
    var pid, b3 := bytes[2], bytes[3];
    match pid
    case 0x4D =>
      if |bytes| >= 5 then Some(SetU16(TimeWithMil, Compose16(b3, bytes[4]))) else None
    case 0x4E =>
      if |bytes| >= 5 then Some(SetU16(TimeSinceCodesCleared, Compose16(b3, bytes[4]))) else None
    case 0x52 => Some(WriteU8(EthanolFuel, PercentU8(b3)))
    case 0x5C => Some(SetI16(EngineOilTemp, TemperatureOffset(b3)))
    case 0x5E =>
      if |bytes| >= 5 then Some(SetF32(EngineFuelRate, Compose16(b3, bytes[4]) as real / 20.0)) else None
    case _ => None
  }

  /** The arms for ids 0x69 to 0x9F: EGR, exhaust pressure and the
      turbocharger. */
  function DecodeTurbo(bytes: seq<u8>): (r: Option<Write>)
    requires |bytes| >= 4 && 0x69 <= bytes[2] < 0xA0
    ensures AgreesWithRegistry(bytes, r)
  {
    var pid, b3 := bytes[2], bytes[3];
    match pid
    case 0x69 =>
      if |bytes| >= 5 then Some(SetU8(ActualEgr, b3)) else None
    case 0x6B =>
      if |bytes| >= 5 then Some(WriteI16(EgrTemp, MinusFortyI16(WrapI16(Compose16(b3, bytes[4]))))) else None
    case 0x73 =>
      if |bytes| >= 5 then Some(SetU16(ExhaustPressure, Compose16(b3, bytes[4]))) else None
    case 0x74 =>
      if |bytes| >= 5 then
        // composed in u32; the value is the same as the two-byte composition
        Some(WriteU32(TurboRpm, MulU32(Compose16(b3, bytes[4]), 10)))
      else None
    case 0x75 | 0x76 =>
      if |bytes| >= 5 then
        var temp := MinusFortyI16(OrI16(ShlI16(b3, 8), bytes[4]));
        if pid == 0x75 then Some(WriteI16(TurboTemp1, temp)) else Some(WriteI16(TurboTemp2, temp))
      else None
    case 0x77 =>
      if |bytes| >= 5 then Some(WriteI16(ChargeAirTemp, MinusFortyI16(OrI16(ShlI16(b3, 8), bytes[4])))) else None
    case _ => None
  }

  /** The arms for ids from 0xA0: fuel rate in mg, gear, DEF dosing and
      odometer. */
  function DecodeExtended(bytes: seq<u8>): (r: Option<Write>)
    requires |bytes| >= 4 && 0xA0 <= bytes[2]
    ensures AgreesWithRegistry(bytes, r)
  {
    var pid, b3 := bytes[2], bytes[3];
    match pid
    case 0xA2 =>
      if |bytes| >= 5 then Some(SetF32(FuelRateMg, Compose16(b3, bytes[4]) as real / 32.0)) else None
    case 0xA4 =>
      if |bytes| >= 5 then Some(SetF32(ActualGear, Compose16(b3, bytes[4]) as real / 1000.0)) else None
    case 0xA5 => Some(SetF32(DefDosing, b3 as real / 2.0))
    case 0xA6 =>
      if |bytes| >= 7 then Some(SetF32(Odometer, Compose32(b3, bytes[4], bytes[5], bytes[6]) as real / 10.0)) else None
    case _ => None
  }

  /** `parse_obd_response(frame, &mut data)`: the record after the payload is
      decoded. A dropped payload leaves the record as it was; an accepted one
      changes at most the field its id's registry entry names. */
  function ParseObdResponse(bytes: seq<u8>, data: VehicleData): (r: VehicleData)
    ensures !Accepted(bytes) ==> r == data
    ensures Accepted(bytes) ==> forall g :: g != Registry(bytes[2]).value.field ==> Get(r, g) == Get(data, g)
    ensures Accepted(bytes) ==> Get(r, Registry(bytes[2]).value.field) == Decode(bytes).value.value
  {
    match Decode(bytes)
    case None => data
    case Some(w) => Store(data, w.field, w.value)
  }
}
