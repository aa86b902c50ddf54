/** What the response decoder does to each family of parameter ids, at the
    integer widths of the source: the values stored, when a debug build
    would panic on overflow, which payloads are dropped, and how decoding
    interacts with the record. */
module ResponseProperties {
  import opened FixedWidth
  import opened Options
  import opened Vehicle
  import opened Response

  /** The ids whose arm computes `(A * 100) / 255` in u8. */
  const PercentIds: set<u8> := {0x04, 0x11, 0x2C, 0x2E, 0x2F, 0x45, 0x47, 0x48, 0x49, 0x4A, 0x4B, 0x4C, 0x52}

  /** The ids whose arm stores `A as i16 - 40`. */
  const TemperatureIds: set<u8> := {0x05, 0x0F, 0x46, 0x5C}

  /** The ids whose arm stores the big-endian word `A B` unscaled in a u16. */
  const WordIds: set<u8> := {0x21, 0x22, 0x31, 0x4D, 0x4E, 0x73}

  /** The ids whose arm stores the byte A unchanged in a u8. */
  const RawByteIds: set<u8> := {0x0B, 0x0D, 0x30, 0x33, 0x69}

  /** A linear conversion to engineering units: `raw * scale + offset`. */
  datatype Linear = Linear(scale: real, offset: real)

  /** The conversion each f32 arm other than the odometer applies, to A or,
      for the two-byte ids, to the word `A * 256 + B`. */
  function F32Scaling(pid: u8): Option<Linear>
  {
    match pid
    case 0x06 | 0x07 | 0x08 | 0x09 | 0x2D => Some(Linear(0.78125, -100.0))
    case 0x0C => Some(Linear(0.25, 0.0))
    case 0x0E => Some(Linear(0.5, -64.0))
    case 0x10 => Some(Linear(0.01, 0.0))
    case 0x14 | 0x15 | 0x16 | 0x17 => Some(Linear(0.005, 0.0))
    case 0x1F => Some(Linear(1.0, 0.0))
    case 0x42 | 0xA4 => Some(Linear(0.001, 0.0))
    case 0x43 => Some(Linear(100.0 / 255.0, 0.0))
    case 0x44 => Some(Linear(1.0 / 32768.0, 0.0))
    case 0x5E => Some(Linear(0.05, 0.0))
    case 0xA2 => Some(Linear(0.03125, 0.0))
    case 0xA5 => Some(Linear(0.5, 0.0))
    case _ => None
  }

  /** The ids whose arm reads `A B` as a signed 16-bit value and subtracts 40. */
  const SignedTemperatureIds: set<u8> := {0x6B, 0x75, 0x76, 0x77}

  /** The ids whose arm reads two data bytes. */
  const TwoByteIds: set<u8> :=
    {0x0C, 0x10, 0x1F, 0x21, 0x22, 0x23, 0x31, 0x42, 0x43, 0x44, 0x4D, 0x4E, 0x5E,
     0x69, 0x6B, 0x73, 0x74, 0x75, 0x76, 0x77, 0xA2, 0xA4}

  /** The fields the record declares that no arm assigns. */
  const UndecodedFields: set<Field> :=
    {F32Field(CatalystTempB1s1), F32Field(CatalystTempB2s1), F32Field(EvapSystemVaporPressure),
     F32Field(FuelInjectionTiming), F32Field(O2Voltage), F32Field(O2Current), F32Field(O2Lambda)}

  /** The id whose arm writes each field, or None for a field no arm
      writes. The fuel rail pressure, written by both 0x22 and 0x23, maps to
      0x22. */
  function WriterOf(f: Field): Option<u8>
  {
    match f
    case U8Field(n) =>
      (match n
      case EngineLoad => Some(0x04)
      case VehicleSpeed => Some(0x0D)
      case ThrottlePos => Some(0x11)
      case RelativeThrottlePos => Some(0x45)
      case AbsoluteThrottlePosB => Some(0x47)
      case AbsoluteThrottlePosC => Some(0x48)
      case AcceleratorPedalPosD => Some(0x49)
      case AcceleratorPedalPosE => Some(0x4A)
      case AcceleratorPedalPosF => Some(0x4B)
      case CommandedThrottleActuator => Some(0x4C)
      case FuelPressure => Some(0x0A)
      case IntakePressure => Some(0x0B)
      case BaroPressure => Some(0x33)
      case FuelLevel => Some(0x2F)
      case EthanolFuel => Some(0x52)
      case CommandedEgr => Some(0x2C)
      case CommandedEvapPurge => Some(0x2E)
      case WarmupsSinceCodesCleared => Some(0x30)
      case ActualEgr => Some(0x69))
    case I16Field(n) =>
      (match n
      case CoolantTemp => Some(0x05)
      case IntakeTemp => Some(0x0F)
      case AmbientTemp => Some(0x46)
      case EngineOilTemp => Some(0x5C)
      case EgrTemp => Some(0x6B)
      case TurboTemp1 => Some(0x75)
      case TurboTemp2 => Some(0x76)
      case ChargeAirTemp => Some(0x77))
    case U16Field(n) =>
      (match n
      case FuelRailPressure => Some(0x22)
      case DistanceWithMil => Some(0x21)
      case TimeSinceCodesCleared => Some(0x4E)
      case DistanceSinceCodesCleared => Some(0x31)
      case TimeWithMil => Some(0x4D)
      case ExhaustPressure => Some(0x73))
    case U32Field(n) => Some(0x74)
    case F32Field(n) =>
      (match n
      case EngineRpm => Some(0x0C)
      case TimingAdvance => Some(0x0E)
      case CatalystTempB1s1 => None
      case CatalystTempB2s1 => None
      case EvapSystemVaporPressure => None
      case MafSensor => Some(0x10)
      case CommandEquivRatio => Some(0x44)
      case EngineFuelRate => Some(0x5E)
      case FuelInjectionTiming => None
      case O2Voltage => None
      case O2Current => None
      case O2Lambda => None
      case O2SensorVoltageB1s1 => Some(0x14)
      case O2SensorVoltageB1s2 => Some(0x15)
      case O2SensorVoltageB1s3 => Some(0x16)
      case O2SensorVoltageB1s4 => Some(0x17)
      case FuelTrimShortB1 => Some(0x06)
      case FuelTrimLongB1 => Some(0x07)
      case FuelTrimShortB2 => Some(0x08)
      case FuelTrimLongB2 => Some(0x09)
      case EgrError => Some(0x2D)
      case ControlModuleVoltage => Some(0x42)
      case AbsoluteLoad => Some(0x43)
      case EngineRunTime => Some(0x1F)
      case FuelRateMg => Some(0xA2)
      case ActualGear => Some(0xA4)
      case DefDosing => Some(0xA5)
      case Odometer => Some(0xA6))
  }

  /** Each id's entry names a field whose writer is that id; 0x23 shares
      its field with 0x22. */
  lemma WriterOfRegistry(pid: u8)
    ensures Registry(pid).Some? ==> WriterOf(Registry(pid).value.field) == Some(if pid == 0x23 then 0x22 else pid)
  {
    if pid < 0x1F {
      WriterOfEngine(pid);
    } else if pid < 0x42 {
      WriterOfDistance(pid);
    } else if pid < 0x4D {
      WriterOfThrottle(pid);
    } else if pid < 0x69 {
      WriterOfTimes(pid);
    } else if pid < 0xA0 {
      WriterOfTurbo(pid);
    } else {
      WriterOfExtended(pid);
    }
  }

  lemma WriterOfEngine(pid: u8)
    requires pid < 0x1F
    ensures EngineEntry(pid).Some? ==> WriterOf(EngineEntry(pid).value.field) == Some(if pid == 0x23 then 0x22 else pid)
  {
  }

  lemma WriterOfDistance(pid: u8)
    requires 0x1F <= pid < 0x42
    ensures DistanceEntry(pid).Some? ==> WriterOf(DistanceEntry(pid).value.field) == Some(if pid == 0x23 then 0x22 else pid)
  {
  }

  lemma WriterOfThrottle(pid: u8)
    requires 0x42 <= pid < 0x4D
    ensures ThrottleEntry(pid).Some? ==> WriterOf(ThrottleEntry(pid).value.field) == Some(if pid == 0x23 then 0x22 else pid)
  {
  }

  lemma WriterOfTimes(pid: u8)
    requires 0x4D <= pid < 0x69
    ensures TimesEntry(pid).Some? ==> WriterOf(TimesEntry(pid).value.field) == Some(if pid == 0x23 then 0x22 else pid)
  {
  }

  lemma WriterOfTurbo(pid: u8)
    requires 0x69 <= pid < 0xA0
    ensures TurboEntry(pid).Some? ==> WriterOf(TurboEntry(pid).value.field) == Some(if pid == 0x23 then 0x22 else pid)
  {
  }

  lemma WriterOfExtended(pid: u8)
    requires 0xA0 <= pid
    ensures ExtendedEntry(pid).Some? ==> WriterOf(ExtendedEntry(pid).value.field) == Some(if pid == 0x23 then 0x22 else pid)
  {
  }

  /** Each field's writer has an entry naming that field. */
  lemma RegistryOfWriter(f: Field)
    ensures WriterOf(f).Some? ==> Registry(WriterOf(f).value).Some? && Registry(WriterOf(f).value).value.field == f
  {
    match f
    case U8Field(_) =>
    case I16Field(_) =>
    case U16Field(_) =>
    case U32Field(_) =>
    case F32Field(_) =>
  }

  /** Two different ids write the same field only when they are 0x22 and
      0x23, the two fuel rail pressure encodings. */
  lemma RegistryInjective(p: u8, q: u8)
    requires Registry(p).Some? && Registry(q).Some? && p != q
    ensures Registry(p).value.field == Registry(q).value.field <==> {p, q} == {0x22, 0x23}
  {
    WriterOfRegistry(p);
    WriterOfRegistry(q);
    if {p, q} == {0x22, 0x23} {
      assert p == 0x22 || p == 0x23;
    }
  }

  /** A field no arm writes keeps its value whatever payload is decoded. */
  lemma UndecodedFieldsUnchanged(bytes: seq<u8>, data: VehicleData, f: Field)
    requires f in UndecodedFields
    ensures Get(ParseObdResponse(bytes, data), f) == Get(data, f)
  {
    if Accepted(bytes) {
      WriterOfRegistry(bytes[2]);
    }
  }

  /** The payload length each arm needs: five bytes for the two-byte ids,
      seven for the odometer, four for the rest. */
  lemma MinLengths(pid: u8)
    requires Registry(pid).Some?
    ensures Registry(pid).value.minLength == if pid == 0xA6 then 7 else if pid in TwoByteIds then 5 else 4
  {
    if pid < 0x1F {
    } else if pid < 0x42 {
    } else if pid < 0x4D {
    } else if pid < 0x69 {
    } else if pid < 0xA0 {
    } else {
    }
  }

  /** A two-byte id with a single data byte is dropped. */
  lemma OneDataByteTooFew(bytes: seq<u8>, data: VehicleData)
    requires |bytes| == 4 && bytes[2] in TwoByteIds
    ensures ParseObdResponse(bytes, data) == data
  {
    MinLengths(bytes[2]);
  }

  /** The percentage arms: the u8 product `A * 100` overflows for every A
      from 3 up, and the stored quotient is always 0. */
  lemma PercentArms(bytes: seq<u8>)
    requires |bytes| >= 4 && bytes[2] in PercentIds
    ensures Decode(bytes).Some?
    ensures Decode(bytes).value.value == U8(0)
    ensures Decode(bytes).value.overflowed <==> bytes[3] >= 3
  {
  }

  /** Fuel pressure `A * 3` in u8 overflows from A = 86 up, storing the
      product modulo 256. */
  lemma FuelPressureArm(bytes: seq<u8>)
    requires |bytes| >= 4 && bytes[2] == 0x0A
    ensures Decode(bytes) == Some(Write(U8Field(FuelPressure), U8(((bytes[3] as int) * 3) % 0x100), bytes[3] >= 86))
  {
  }

  /** The temperature arms store `A - 40`, which lies in -40..215 and is
      negative exactly when A is below 40. */
  lemma TemperatureArms(bytes: seq<u8>)
    requires |bytes| >= 4 && bytes[2] in TemperatureIds
    ensures Decode(bytes) == Some(Write(Registry(bytes[2]).value.field, I16((bytes[3] as int) - 40), false))
  {
  }

  /** The word arms store the big-endian composition `A * 256 + B`. */
  lemma WordArms(bytes: seq<u8>)
    requires |bytes| >= 5 && bytes[2] in WordIds
    ensures Decode(bytes) == Some(Write(Registry(bytes[2]).value.field, U16((bytes[3] as int) * 0x100 + bytes[4] as int), false))
  {
  }

  /** The raw-byte arms store A as it is, once the payload is long enough
      for the id (five bytes for 0x69). */
  lemma RawByteArms(bytes: seq<u8>)
    requires Accepted(bytes) && bytes[2] in RawByteIds
    ensures Decode(bytes) == Some(Write(Registry(bytes[2]).value.field, U8(bytes[3]), false))
  {
  }

  /** The one-byte f32 arms store their conversion of A. */
  lemma F32ByteArms(bytes: seq<u8>)
    requires |bytes| >= 4 && F32Scaling(bytes[2]).Some? && bytes[2] !in TwoByteIds
    ensures var c := F32Scaling(bytes[2]).value;
      Decode(bytes) == Some(Write(Registry(bytes[2]).value.field, F32((bytes[3] as real) * c.scale + c.offset), false))
  {
    if bytes[2] < 0x1F {
    } else if bytes[2] < 0x42 {
    } else {
    }
  }

  /** The two-byte f32 arms store their conversion of the word `A * 256 + B`. */
  lemma F32WordArms(bytes: seq<u8>)
    requires |bytes| >= 5 && F32Scaling(bytes[2]).Some? && bytes[2] in TwoByteIds
    ensures var c, word := F32Scaling(bytes[2]).value, (bytes[3] as int) * 0x100 + bytes[4] as int;
      Decode(bytes) == Some(Write(Registry(bytes[2]).value.field, F32((word as real) * c.scale + c.offset), false))
  {
    // one branch per decoder range, named by the ids it holds
    var pid, word := bytes[2], Compose16(bytes[3], bytes[4]);
    assert word as real == ((bytes[3] as int) * 0x100 + bytes[4] as int) as real;
    if pid == 0x0C || pid == 0x10 {
      assert Decode(bytes) == DecodeEngine(bytes);
    } else if pid == 0x1F {
      assert Decode(bytes) == DecodeDistance(bytes);
    } else if pid == 0x42 || pid == 0x43 || pid == 0x44 {
      assert Decode(bytes) == DecodeThrottle(bytes);
    } else if pid == 0x5E {
      assert Decode(bytes) == DecodeTimes(bytes);
    } else {
      assert Decode(bytes) == DecodeExtended(bytes);
    }
  }

  /** The 0x23 fuel rail pressure `word * 10` in u16 overflows exactly when
      the word exceeds 6553. */
  lemma ScaledFuelRailPressure(bytes: seq<u8>)
    requires |bytes| >= 5 && bytes[2] == 0x23
    ensures var word := (bytes[3] as int) * 0x100 + bytes[4] as int;
      Decode(bytes) == Some(Write(U16Field(FuelRailPressure), U16((word * 10) % 0x1_0000), word > 6553))
  {
    var word := Compose16(bytes[3], bytes[4]);
    var c := MulU16(word, 10);
    assert c.value == ((word as int) * 10) % 0x1_0000;
    assert Decode(bytes) == DecodeDistance(bytes);
  }

  /** The turbo speed `word * 10` is computed in u32 and never overflows. */
  lemma TurboRpmArm(bytes: seq<u8>)
    requires |bytes| >= 5 && bytes[2] == 0x74
    ensures Decode(bytes) == Some(Write(U32Field(TurboRpm), U32(((bytes[3] as int) * 0x100 + bytes[4] as int) * 10), false))
    ensures Decode(bytes).value.value.u32Value <= 655_350
  {
  }

  /** The signed temperature arms: `A B` read as i16, minus 40. The
      subtraction underflows exactly when the reading is below -32728, that
      is A = 0x80 and B < 0x28, and then wraps to the top of the range. */
  lemma SignedTemperatureArms(bytes: seq<u8>)
    requires |bytes| >= 5 && bytes[2] in SignedTemperatureIds
    ensures Decode(bytes).Some?
    ensures var w, s := Decode(bytes).value, SignedWord(bytes[3], bytes[4]);
      && (w.overflowed <==> s - 40 < -0x8000)
      && (w.overflowed <==> bytes[3] == 0x80 && bytes[4] < 0x28)
      && w.value == I16(if w.overflowed then s - 40 + 0x1_0000 else s - 40)
  {
    var hi, lo := bytes[3], bytes[4];
    ComposeI16Value(hi, lo);
    if bytes[2] != 0x6B {
      ComposeI16(hi, lo);
    }
  }

  /** The odometer arm: four big-endian bytes in tenths of a kilometre. */
  lemma OdometerArm(bytes: seq<u8>)
    requires |bytes| >= 7 && bytes[2] == 0xA6
    ensures Decode(bytes) == Some(Write(F32Field(Odometer),
      F32(((bytes[3] as int) * 0x100_0000 + (bytes[4] as int) * 0x1_0000 + (bytes[5] as int) * 0x100 + bytes[6] as int) as real / 10.0), false))
  {
  }

  /** A debug build panics on overflow for exactly these payloads; every
      other arm's arithmetic stays in range. */
  lemma DebugPanicsExactly(bytes: seq<u8>)
    ensures (Decode(bytes).Some? && Decode(bytes).value.overflowed) <==>
      && |bytes| >= 4
      && (|| (bytes[2] in PercentIds && bytes[3] >= 3)
          || (bytes[2] == 0x0A && bytes[3] >= 86)
          || (|bytes| >= 5 && bytes[2] == 0x23 && (bytes[3] as int) * 0x100 + bytes[4] as int > 6553)
          || (|bytes| >= 5 && bytes[2] in SignedTemperatureIds && bytes[3] == 0x80 && bytes[4] < 0x28))
  {
    if |bytes| >= 4 {
      var pid := bytes[2];
      if pid in PercentIds {
        PercentArms(bytes);
      } else if pid in SignedTemperatureIds && |bytes| >= 5 {
        SignedTemperatureArms(bytes);
      }
    }
  }

  /** A four-byte engine load response of 0x64 (100/255 of full load) stores
      0 in a release build, because `0x64 * 100` wraps in u8; a debug build
      panics on it. */
  lemma EngineLoadExample()
    ensures Decode([0x03, 0x41, 0x04, 0x64]) == Some(Write(U8Field(EngineLoad), U8(0), true))
  {
    PercentArms([0x03, 0x41, 0x04, 0x64]);
  }

  /** A five-byte rpm response of 0x03E8 quarter revolutions stores 250 rpm. */
  lemma EngineRpmExample(data: VehicleData)
    ensures Get(ParseObdResponse([0x04, 0x41, 0x0C, 0x03, 0xE8], data), F32Field(EngineRpm)) == F32(250.0)
  {
  }

  /** Decoding the same payload twice is decoding it once. */
  lemma ParseIdempotent(bytes: seq<u8>, data: VehicleData)
    ensures ParseObdResponse(bytes, ParseObdResponse(bytes, data)) == ParseObdResponse(bytes, data)
  {
    var once := ParseObdResponse(bytes, data);
    if Accepted(bytes) {
      var w := Decode(bytes).value;
      StoreOverwrites(data, w.field, w.value, w.value);
    }
  }

  /** Responses that write different fields may be decoded in either order. */
  lemma ParseCommutes(first: seq<u8>, second: seq<u8>, data: VehicleData)
    requires Accepted(first) && Accepted(second) ==> Registry(first[2]).value.field != Registry(second[2]).value.field
    ensures ParseObdResponse(second, ParseObdResponse(first, data)) == ParseObdResponse(first, ParseObdResponse(second, data))
  {
    if Accepted(first) && Accepted(second) {
      var u, w := Decode(first).value, Decode(second).value;
      StoreCommutes(data, u.field, u.value, w.field, w.value);
    }
  }

  /** Of two responses for the same field, the later one wins. */
  lemma ParseOverwrites(first: seq<u8>, second: seq<u8>, data: VehicleData)
    requires Accepted(first) && Accepted(second)
    requires Registry(first[2]).value.field == Registry(second[2]).value.field
    ensures ParseObdResponse(second, ParseObdResponse(first, data)) == ParseObdResponse(second, data)
  {
    var u, w := Decode(first).value, Decode(second).value;
    StoreOverwrites(data, u.field, u.value, w.value);
  }
}
