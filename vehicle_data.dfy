/** The telemetry record of src/vehicle/data.rs: one field per decoded
    quantity, created all-zero and updated one field at a time by the
    response decoder.

    Eleven fields are assigned by src/obd/response.rs without being declared
    in the struct (actual EGR, the EGR, turbo and charge-air temperatures,
    exhaust pressure, turbo speed, fuel rate in mg, actual gear, DEF dosing
    and odometer); each takes the type of the expression assigned to it.

    The record is a total map from field to a value of the field's type. An
    f32 field holds the exact real value of the expression assigned to it:
    rounding to single precision is not modelled. */
module Vehicle {
  import opened FixedWidth

  /** The u8 fields. */
  datatype U8Name =
      EngineLoad
    | VehicleSpeed
    | ThrottlePos
    | RelativeThrottlePos
    | AbsoluteThrottlePosB
    | AbsoluteThrottlePosC
    | AcceleratorPedalPosD
    | AcceleratorPedalPosE
    | AcceleratorPedalPosF
    | CommandedThrottleActuator
    | FuelPressure
    | IntakePressure
    | BaroPressure
    | FuelLevel
    | EthanolFuel
    | CommandedEgr
    | CommandedEvapPurge
    | WarmupsSinceCodesCleared
    | ActualEgr

  /** The i16 fields. */
  datatype I16Name =
      CoolantTemp
    | IntakeTemp
    | AmbientTemp
    | EngineOilTemp
    | EgrTemp
    | TurboTemp1
    | TurboTemp2
    | ChargeAirTemp

  /** The u16 fields. */
  datatype U16Name =
      FuelRailPressure
    | DistanceWithMil
    | TimeSinceCodesCleared
    | DistanceSinceCodesCleared
    | TimeWithMil
    | ExhaustPressure

  /** The u32 fields. */
  datatype U32Name = TurboRpm

  /** The f32 fields. */
  datatype F32Name =
      EngineRpm
    | TimingAdvance
    | CatalystTempB1s1
    | CatalystTempB2s1
    | EvapSystemVaporPressure
    | MafSensor
    | CommandEquivRatio
    | EngineFuelRate
    | FuelInjectionTiming
    | O2Voltage
    | O2Current
    | O2Lambda
    | O2SensorVoltageB1s1
    | O2SensorVoltageB1s2
    | O2SensorVoltageB1s3
    | O2SensorVoltageB1s4
    | FuelTrimShortB1
    | FuelTrimLongB1
    | FuelTrimShortB2
    | FuelTrimLongB2
    | EgrError
    | ControlModuleVoltage
    | AbsoluteLoad
    | EngineRunTime
    | FuelRateMg
    | ActualGear
    | DefDosing
    | Odometer

  /** A field of the record. */
  datatype Field =
    | U8Field(u8Name: U8Name)
    | I16Field(i16Name: I16Name)
    | U16Field(u16Name: U16Name)
    | U32Field(u32Name: U32Name)
    | F32Field(f32Name: F32Name)

  /** A value of one of the storage types; an f32 is modelled as a real. */
  datatype Value = U8(u8Value: u8) | I16(i16Value: i16) | U16(u16Value: u16) | U32(u32Value: u32) | F32(f32Value: real)

  /** A value may be stored in a field of its own storage type. */
  predicate Fits(f: Field, v: Value)
  {
    match f
    case U8Field(_) => v.U8?
    case I16Field(_) => v.I16?
    case U16Field(_) => v.U16?
    case U32Field(_) => v.U32?
    case F32Field(_) => v.F32?
  }

  const U8Fields: set<Field> := {
    U8Field(EngineLoad), U8Field(VehicleSpeed), U8Field(ThrottlePos), U8Field(RelativeThrottlePos), U8Field(AbsoluteThrottlePosB),
    U8Field(AbsoluteThrottlePosC), U8Field(AcceleratorPedalPosD), U8Field(AcceleratorPedalPosE), U8Field(AcceleratorPedalPosF), U8Field(CommandedThrottleActuator),
    U8Field(FuelPressure), U8Field(IntakePressure), U8Field(BaroPressure), U8Field(FuelLevel), U8Field(EthanolFuel),
    U8Field(CommandedEgr), U8Field(CommandedEvapPurge), U8Field(WarmupsSinceCodesCleared), U8Field(ActualEgr)
  }

  const I16Fields: set<Field> := {
    I16Field(CoolantTemp), I16Field(IntakeTemp), I16Field(AmbientTemp), I16Field(EngineOilTemp), I16Field(EgrTemp),
    I16Field(TurboTemp1), I16Field(TurboTemp2), I16Field(ChargeAirTemp)
  }

  const U16Fields: set<Field> := {
    U16Field(FuelRailPressure), U16Field(DistanceWithMil), U16Field(TimeSinceCodesCleared), U16Field(DistanceSinceCodesCleared), U16Field(TimeWithMil),
    U16Field(ExhaustPressure)
  }

  const U32Fields: set<Field> := {
    U32Field(TurboRpm)
  }

  const F32Fields: set<Field> := {
    F32Field(EngineRpm), F32Field(TimingAdvance), F32Field(CatalystTempB1s1), F32Field(CatalystTempB2s1), F32Field(EvapSystemVaporPressure),
    F32Field(MafSensor), F32Field(CommandEquivRatio), F32Field(EngineFuelRate), F32Field(FuelInjectionTiming), F32Field(O2Voltage),
    F32Field(O2Current), F32Field(O2Lambda), F32Field(O2SensorVoltageB1s1), F32Field(O2SensorVoltageB1s2), F32Field(O2SensorVoltageB1s3),
    F32Field(O2SensorVoltageB1s4), F32Field(FuelTrimShortB1), F32Field(FuelTrimLongB1), F32Field(FuelTrimShortB2), F32Field(FuelTrimLongB2),
    F32Field(EgrError), F32Field(ControlModuleVoltage), F32Field(AbsoluteLoad), F32Field(EngineRunTime), F32Field(FuelRateMg),
    F32Field(ActualGear), F32Field(DefDosing), F32Field(Odometer)
  }

  /** Every field of the record. */
  const AllFields: set<Field> := U8Fields + I16Fields + U16Fields + U32Fields + F32Fields

  /** Every field is present and holds a value of its declared type. */
  ghost predicate IsRecord(m: map<Field, Value>)
  {
    forall f :: f in m && Fits(f, m[f])
  }

  type VehicleData = m: map<Field, Value> | IsRecord(m) witness Default()

  /** The value of one field. */
  function Get(d: VehicleData, f: Field): (v: Value)
    ensures Fits(f, v)
  {
    d[f]
  }

  /** Assign one field: afterwards that field holds `v` and every other field
      is as before. */
  function Store(d: VehicleData, f: Field, v: Value): (r: VehicleData)
    requires Fits(f, v)
    ensures Get(r, f) == v
    ensures forall g :: g != f ==> Get(r, g) == Get(d, g)
  {
    d[f := v]
  }

  /** The zero of a field's type. */
  function Zero(f: Field): (v: Value)
    ensures Fits(f, v)
  {
    match f
    case U8Field(_) => U8(0)
    case I16Field(_) => I16(0)
    case U16Field(_) => U16(0)
    case U32Field(_) => U32(0)
    case F32Field(_) => F32(0.0)
  }

  /** The derived `Default`: every integer field 0, every float field 0.0. */
  function Default(): (d: map<Field, Value>)
    ensures IsRecord(d)
    ensures forall f :: d[f] == Zero(f)
  {
    AllFieldsComplete();
    map f | f in AllFields :: Zero(f)
  }

  lemma AllFieldsComplete()
    ensures forall f :: f in AllFields
  {
    forall f
      ensures f in AllFields
    {
      match f
      case U8Field(n) =>
        match n {
          case EngineLoad => assert U8Field(EngineLoad) in U8Fields;
          case VehicleSpeed => assert U8Field(VehicleSpeed) in U8Fields;
          case ThrottlePos => assert U8Field(ThrottlePos) in U8Fields;
          case RelativeThrottlePos => assert U8Field(RelativeThrottlePos) in U8Fields;
          case AbsoluteThrottlePosB => assert U8Field(AbsoluteThrottlePosB) in U8Fields;
          case AbsoluteThrottlePosC => assert U8Field(AbsoluteThrottlePosC) in U8Fields;
          case AcceleratorPedalPosD => assert U8Field(AcceleratorPedalPosD) in U8Fields;
          case AcceleratorPedalPosE => assert U8Field(AcceleratorPedalPosE) in U8Fields;
          case AcceleratorPedalPosF => assert U8Field(AcceleratorPedalPosF) in U8Fields;
          case CommandedThrottleActuator => assert U8Field(CommandedThrottleActuator) in U8Fields;
          case FuelPressure => assert U8Field(FuelPressure) in U8Fields;
          case IntakePressure => assert U8Field(IntakePressure) in U8Fields;
          case BaroPressure => assert U8Field(BaroPressure) in U8Fields;
          case FuelLevel => assert U8Field(FuelLevel) in U8Fields;
          case EthanolFuel => assert U8Field(EthanolFuel) in U8Fields;
          case CommandedEgr => assert U8Field(CommandedEgr) in U8Fields;
          case CommandedEvapPurge => assert U8Field(CommandedEvapPurge) in U8Fields;
          case WarmupsSinceCodesCleared => assert U8Field(WarmupsSinceCodesCleared) in U8Fields;
          case ActualEgr => assert U8Field(ActualEgr) in U8Fields;
        }
      case I16Field(n) =>
        match n {
          case CoolantTemp => assert I16Field(CoolantTemp) in I16Fields;
          case IntakeTemp => assert I16Field(IntakeTemp) in I16Fields;
          case AmbientTemp => assert I16Field(AmbientTemp) in I16Fields;
          case EngineOilTemp => assert I16Field(EngineOilTemp) in I16Fields;
          case EgrTemp => assert I16Field(EgrTemp) in I16Fields;
          case TurboTemp1 => assert I16Field(TurboTemp1) in I16Fields;
          case TurboTemp2 => assert I16Field(TurboTemp2) in I16Fields;
          case ChargeAirTemp => assert I16Field(ChargeAirTemp) in I16Fields;
        }
      case U16Field(n) =>
        match n {
          case FuelRailPressure => assert U16Field(FuelRailPressure) in U16Fields;
          case DistanceWithMil => assert U16Field(DistanceWithMil) in U16Fields;
          case TimeSinceCodesCleared => assert U16Field(TimeSinceCodesCleared) in U16Fields;
          case DistanceSinceCodesCleared => assert U16Field(DistanceSinceCodesCleared) in U16Fields;
          case TimeWithMil => assert U16Field(TimeWithMil) in U16Fields;
          case ExhaustPressure => assert U16Field(ExhaustPressure) in U16Fields;
        }
      case U32Field(n) =>
        match n {
          case TurboRpm => assert U32Field(TurboRpm) in U32Fields;
        }
      case F32Field(n) =>
        match n {
          case EngineRpm => assert F32Field(EngineRpm) in F32Fields;
          case TimingAdvance => assert F32Field(TimingAdvance) in F32Fields;
          case CatalystTempB1s1 => assert F32Field(CatalystTempB1s1) in F32Fields;
          case CatalystTempB2s1 => assert F32Field(CatalystTempB2s1) in F32Fields;
          case EvapSystemVaporPressure => assert F32Field(EvapSystemVaporPressure) in F32Fields;
          case MafSensor => assert F32Field(MafSensor) in F32Fields;
          case CommandEquivRatio => assert F32Field(CommandEquivRatio) in F32Fields;
          case EngineFuelRate => assert F32Field(EngineFuelRate) in F32Fields;
          case FuelInjectionTiming => assert F32Field(FuelInjectionTiming) in F32Fields;
          case O2Voltage => assert F32Field(O2Voltage) in F32Fields;
          case O2Current => assert F32Field(O2Current) in F32Fields;
          case O2Lambda => assert F32Field(O2Lambda) in F32Fields;
          case O2SensorVoltageB1s1 => assert F32Field(O2SensorVoltageB1s1) in F32Fields;
          case O2SensorVoltageB1s2 => assert F32Field(O2SensorVoltageB1s2) in F32Fields;
          case O2SensorVoltageB1s3 => assert F32Field(O2SensorVoltageB1s3) in F32Fields;
          case O2SensorVoltageB1s4 => assert F32Field(O2SensorVoltageB1s4) in F32Fields;
          case FuelTrimShortB1 => assert F32Field(FuelTrimShortB1) in F32Fields;
          case FuelTrimLongB1 => assert F32Field(FuelTrimLongB1) in F32Fields;
          case FuelTrimShortB2 => assert F32Field(FuelTrimShortB2) in F32Fields;
          case FuelTrimLongB2 => assert F32Field(FuelTrimLongB2) in F32Fields;
          case EgrError => assert F32Field(EgrError) in F32Fields;
          case ControlModuleVoltage => assert F32Field(ControlModuleVoltage) in F32Fields;
          case AbsoluteLoad => assert F32Field(AbsoluteLoad) in F32Fields;
          case EngineRunTime => assert F32Field(EngineRunTime) in F32Fields;
          case FuelRateMg => assert F32Field(FuelRateMg) in F32Fields;
          case ActualGear => assert F32Field(ActualGear) in F32Fields;
          case DefDosing => assert F32Field(DefDosing) in F32Fields;
          case Odometer => assert F32Field(Odometer) in F32Fields;
        }
    }
  }

  /** Two records that agree on every field are equal. */
  lemma GetExtensional(d1: VehicleData, d2: VehicleData)
    requires forall f :: Get(d1, f) == Get(d2, f)
    ensures d1 == d2
  {
    assert IsRecord(d1) && IsRecord(d2);
    forall f
      ensures d1[f] == d2[f]
    {
      assert Get(d1, f) == Get(d2, f);
    }
    assert d1.Keys == d2.Keys;
  }

  /** A later store to a field replaces an earlier one; in particular,
      storing the same value twice is storing it once. */
  lemma StoreOverwrites(d: VehicleData, f: Field, v: Value, u: Value)
    requires Fits(f, v) && Fits(f, u)
    ensures Store(Store(d, f, v), f, u) == Store(d, f, u)
  {
    GetExtensional(Store(Store(d, f, v), f, u), Store(d, f, u));
  }

  /** Stores into different fields commute. */
  lemma StoreCommutes(d: VehicleData, f: Field, v: Value, g: Field, u: Value)
    requires Fits(f, v) && Fits(g, u) && f != g
    ensures Store(Store(d, f, v), g, u) == Store(Store(d, g, u), f, v)
  {
    var a, b := Store(Store(d, f, v), g, u), Store(Store(d, g, u), f, v);
    forall h
      ensures Get(a, h) == Get(b, h)
    {
      if h == f {
      } else if h == g {
      } else {
      }
    }
    GetExtensional(a, b);
  }
}
