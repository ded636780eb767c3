/**
 * The parameter form: the state record the user edits, the fixed range of
 * each parameter, and the two ways the record changes. A change clamps the
 * new value into its range and replaces that one parameter; a reset
 * restores the defaults. The clamping decides which inputs reach the
 * prediction engine.
 */
module ParameterForm {
  import opened JsMath
  import opened PredictionModel
  import opened PredictionProperties

  /** The name of one field of the parameter record. */
  datatype Key = Speed | Altitude | WindSpeed | WindDirection | PayloadWeight | Temperature | FlightDistance | BatteryCapacity

  /** A range as the form's sliders and inputs declare it. */
  datatype Range = Range(min: real, max: real, step: real)

  /** The range of each parameter; every range is non-empty. */
  function ParamRange(key: Key): (r: Range)
    ensures r.min < r.max && r.step > 0.0
  {
    match key
    case Speed => Range(0.0, 30.0, 0.5)
    case Altitude => Range(0.0, 3000.0, 10.0)
    case WindSpeed => Range(0.0, 20.0, 0.5)
    case WindDirection => Range(0.0, 360.0, 5.0)
    case PayloadWeight => Range(0.0, 2000.0, 10.0)
    case Temperature => Range(-10.0, 50.0, 1.0)
    case FlightDistance => Range(0.1, 50.0, 0.1)
    case BatteryCapacity => Range(1000.0, 10000.0, 100.0)
  }

  /** The record the form starts from and returns to on reset. */
  const Defaults: DroneParameters := DroneParameters(10.0, 100.0, 5.0, 0.0, 500.0, 25.0, 5.0, 5000.0)

  /** The field `key` of `p`. */
  function Get(p: DroneParameters, key: Key): real
  {
    match key
    case Speed => p.speed
    case Altitude => p.altitude
    case WindSpeed => p.windSpeed
    case WindDirection => p.windDirection
    case PayloadWeight => p.payloadWeight
    case Temperature => p.temperature
    case FlightDistance => p.flightDistance
    case BatteryCapacity => p.batteryCapacity
  }

  /** `{ ...p, [key]: v }`: the record with field `key` replaced and every other field kept. */
  function With(p: DroneParameters, key: Key, v: real): (q: DroneParameters)
    ensures Get(q, key) == v
    ensures forall k :: k != key ==> Get(q, k) == Get(p, k)
  {
    match key
    case Speed => p.(speed := v)
    case Altitude => p.(altitude := v)
    case WindSpeed => p.(windSpeed := v)
    case WindDirection => p.(windDirection := v)
    case PayloadWeight => p.(payloadWeight := v)
    case Temperature => p.(temperature := v)
    case FlightDistance => p.(flightDistance := v)
    case BatteryCapacity => p.(batteryCapacity := v)
  }

  /** What a change handler receives: a number from a text input or the values of a slider. */
  datatype Input = Scalar(value: real) | Slider(values: seq<real>)

  /** A slider's first value, or the number itself. */
  function NewValue(input: Input): (v: real)
    requires input.Slider? ==> |input.values| > 0
    ensures input.Scalar? ==> v == input.value
    ensures input.Slider? ==> v == input.values[0]
  {
    match input
    case Scalar(x) => x
    case Slider(xs) => xs[0]
  }

  /** The value the form stores for `key` when asked to store `x`. */
  function Clamped(key: Key, x: real): (v: real)
    ensures ParamRange(key).min <= v <= ParamRange(key).max
    ensures ParamRange(key).min <= x <= ParamRange(key).max ==> v == x
    ensures x < ParamRange(key).min ==> v == ParamRange(key).min
    ensures x > ParamRange(key).max ==> v == ParamRange(key).max
  {
    var range := ParamRange(key);
    Clamp(range.min, range.max, x)
  }

  /** Every field lies within its range. */
  ghost predicate WithinRanges(p: DroneParameters)
  {
    forall k :: ParamRange(k).min <= Get(p, k) <= ParamRange(k).max
  }

  /** The parameter form's state. */
  class Form {
    var parameters: DroneParameters

    ghost predicate Valid()
      reads this
    {
      WithinRanges(parameters)
    }

    /** The form starts from the defaults. */
    constructor ()
      ensures Valid() && parameters == Defaults
    {
      parameters := Defaults;
      new;
      DefaultsWithinRanges();
    }

    /** `handleParameterChange`: clamp the new value into its range and replace that one field. */
    method HandleParameterChange(key: Key, input: Input)
      requires Valid()
      requires input.Slider? ==> |input.values| > 0
      modifies this
      ensures Valid()
      ensures parameters == With(old(parameters), key, Clamped(key, NewValue(input)))
      ensures ParamRange(key).min <= Get(parameters, key) <= ParamRange(key).max
      ensures forall k :: k != key ==> Get(parameters, k) == Get(old(parameters), k)
    {
      var newValue := NewValue(input);
      var clampedValue := Clamped(key, newValue);
      parameters := With(parameters, key, clampedValue);
    }

    /** `resetToDefaults`: restore exactly the initial record. */
    method ResetToDefaults()
      modifies this
      ensures Valid() && parameters == Defaults
    {
      parameters := Defaults;
      DefaultsWithinRanges();
    }
  }

  /** The defaults lie within the form's ranges. */
  lemma DefaultsWithinRanges()
    ensures WithinRanges(Defaults)
  {
    forall k ensures ParamRange(k).min <= Get(Defaults, k) <= ParamRange(k).max {
      match k
      case Speed =>
      case Altitude =>
      case WindSpeed =>
      case WindDirection =>
      case PayloadWeight =>
      case Temperature =>
      case FlightDistance =>
      case BatteryCapacity =>
    }
  }

  /**
   * What the ranges guarantee the engine: a distance of at least 0.1 km, a
   * capacity of at least 1000 mAh, no negative altitude or payload, and a
   * speed that is not negative but may be 0.
   */
  lemma WithinRangesBounds(p: DroneParameters)
    requires WithinRanges(p)
    ensures p.flightDistance >= 0.1 && p.batteryCapacity >= 1000.0
    ensures p.altitude >= 0.0 && p.payloadWeight >= 0.0 && p.speed >= 0.0
  {
    assert ParamRange(FlightDistance).min <= Get(p, FlightDistance);
    assert ParamRange(BatteryCapacity).min <= Get(p, BatteryCapacity);
    assert ParamRange(Altitude).min <= Get(p, Altitude);
    assert ParamRange(PayloadWeight).min <= Get(p, PayloadWeight);
    assert ParamRange(Speed).min <= Get(p, Speed);
  }

  /** A speed of 0 is reachable: asking for 0 or less from any valid state stores 0. */
  lemma ZeroSpeedReachable(p: DroneParameters, x: real)
    requires WithinRanges(p) && x <= 0.0
    ensures var q := With(p, Speed, Clamped(Speed, NewValue(Scalar(x))));
            WithinRanges(q) && q.speed == 0.0
  {
    var q := With(p, Speed, Clamped(Speed, NewValue(Scalar(x))));
    forall k ensures ParamRange(k).min <= Get(q, k) <= ParamRange(k).max {
      if k != Speed {
        assert Get(q, k) == Get(p, k);
      }
    }
  }

  /**
   * Every record within the ranges, which is every record the form holds
   * while its inputs are numbers, gives a finite prediction whatever the
   * host's cosine: a speed of 0 reports 100 percent rather than Infinity.
   */
  lemma FormInputsArePredictable(p: DroneParameters, t: Trig)
    requires WithinRanges(p)
    ensures Predictable(p, t)
    ensures Predict(p, t).flightTime > 0.0
    ensures p.speed == 0.0 ==> Predict(p, t).batteryConsumption == 100.0
  {
    WithinRangesBounds(p);
    PositiveFlightTime(p, t);
  }

  /** The optimizer turns every record the form can hold into one the form could hold too. */
  lemma OptimizeKeepsWithinRanges(p: DroneParameters)
    requires WithinRanges(p)
    ensures WithinRanges(Optimize(p))
  {
    var q := Optimize(p);
    forall k ensures ParamRange(k).min <= Get(q, k) <= ParamRange(k).max {
      assert ParamRange(k).min <= Get(p, k) <= ParamRange(k).max;
    }
  }
}
