/**
 * The prediction engine of the drone battery predictor: a closed-form power
 * model giving battery consumption, flight time, range, an efficiency score
 * and ordered advisory warnings; a heuristic parameter optimizer; and a
 * heuristic confidence score.
 *
 * JavaScript numbers are modelled as `real`. Where the engine divides, the
 * model asks for `Predictable`, a sufficient condition for every output to
 * be a finite number; the form's clamping delivers such inputs whenever its
 * inputs are numbers (see `ParameterForm.FormInputsArePredictable`).
 */
module PredictionModel {
  import opened JsMath

  /** The eight caller-supplied flight parameters. */
  datatype DroneParameters = DroneParameters(
    speed: real,           // m/s
    altitude: real,        // m
    windSpeed: real,       // m/s
    windDirection: real,   // degrees
    payloadWeight: real,   // g
    temperature: real,     // degrees Celsius
    flightDistance: real,  // km
    batteryCapacity: real) // mAh

  /** What `predictBatteryConsumption` returns. */
  datatype PredictionResult = PredictionResult(
    batteryConsumption: real, // percent
    flightTime: real,         // min
    efficiency: real,         // percent
    range: real,              // km
    warnings: seq<Warning>)   // each shown as its `Message`

  // Constants of the power model. The altitude factor is applied per 100 m.
  const EfficiencyFactor: real := 0.85
  const HoverPowerWatts: real := 100.0
  const PayloadFactor: real := 0.0005
  const WindResistanceFactor: real := 0.2
  const AltitudeFactor: real := 0.01
  const SpeedFactor: real := 0.05
  const TemperatureFactor: real := 0.005
  /** A three-cell lithium-polymer pack. */
  const BatteryVoltage: real := 11.1

  // ---------------------------------------------------------------------
  // The power model, one function per intermediate quantity
  // ---------------------------------------------------------------------

  function HoverPower(p: DroneParameters): real
  {
    HoverPowerWatts * (1.0 + AltitudeFactor * (p.altitude / 100.0))
  }

  function SpeedPower(p: DroneParameters): real
  {
    p.speed * p.speed * SpeedFactor
  }

  /** The wind speed weighted by direction: half of it head-on, 1.5 times it from behind. */
  function EffectiveWind(p: DroneParameters, t: Trig): real
  {
    p.windSpeed * (1.0 - t.cos(p.windDirection * t.pi / 180.0) / 2.0)
  }

  function WindPower(p: DroneParameters, t: Trig): real
  {
    EffectiveWind(p, t) * EffectiveWind(p, t) * WindResistanceFactor
  }

  function PayloadPower(p: DroneParameters): real
  {
    p.payloadWeight * PayloadFactor
  }

  function TempFactor(p: DroneParameters): real
  {
    1.0 + Abs(p.temperature - 25.0) * TemperatureFactor
  }

  function TotalPower(p: DroneParameters, t: Trig): real
  {
    (HoverPower(p) + SpeedPower(p) + WindPower(p, t) + PayloadPower(p)) * TempFactor(p) / EfficiencyFactor
  }

  function CurrentDraw(p: DroneParameters, t: Trig): real
  {
    TotalPower(p, t) / BatteryVoltage
  }

  function FlightTimeHours(p: DroneParameters, t: Trig): real
    requires TotalPower(p, t) != 0.0
  {
    p.batteryCapacity / 1000.0 / CurrentDraw(p, t)
  }

  /** The power the payload alone would demand of an ideal drone. */
  function TheoreticalMinPower(p: DroneParameters): real
  {
    HoverPowerWatts * (1.0 + p.payloadWeight * 0.0001)
  }

  /**
   * A sufficient condition for every output of the engine to be a finite
   * number computed without dividing by zero. It is not the exact set: a
   * zero capacity, say, gives a zero flight time and, through
   * `Math.min(100, Infinity)`, a finite consumption of 100. At speed 0 the
   * time for the distance is +Infinity, which `Math.min(100, _)` turns into
   * 100 as long as the flight time is positive.
   */
  predicate Predictable(p: DroneParameters, t: Trig)
  {
    && TotalPower(p, t) != 0.0
    && p.batteryCapacity != 0.0
    && TheoreticalMinPower(p) != 0.0
    && (p.speed == 0.0 ==> p.flightDistance > 0.0 && FlightTimeHours(p, t) > 0.0)
  }

  /** Battery used by the requested distance as a share of a full charge, in percent, before clamping. */
  function ConsumptionRatio(p: DroneParameters, t: Trig): real
    requires Predictable(p, t) && p.speed != 0.0
  {
    (p.flightDistance / p.speed) / FlightTimeHours(p, t) * 100.0
  }

  /** `Math.min(100, ratio)`: clamped above only. */
  function Consumption(p: DroneParameters, t: Trig): real
    requires Predictable(p, t)
  {
    if p.speed == 0.0 then 100.0 else Min(100.0, ConsumptionRatio(p, t))
  }

  function Efficiency(p: DroneParameters, t: Trig): real
    requires TheoreticalMinPower(p) != 0.0
  {
    var minPower := TheoreticalMinPower(p);
    Clamp(0.0, 100.0, 100.0 - (TotalPower(p, t) - minPower) / minPower * 50.0)
  }

  // ---------------------------------------------------------------------
  // Warnings: a fixed table of conditions, checked in declaration order
  // ---------------------------------------------------------------------

  datatype Warning = NearMaximumRange | HighWind | ExtremeTemperature | HighAltitude | HighSpeed

  /** The order in which the engine checks the warning conditions. */
  const WarningOrder: seq<Warning> := [NearMaximumRange, HighWind, ExtremeTemperature, HighAltitude, HighSpeed]

  /** Position of a warning in `WarningOrder`. */
  function Rank(w: Warning): nat
  {
    match w
    case NearMaximumRange => 0
    case HighWind => 1
    case ExtremeTemperature => 2
    case HighAltitude => 3
    case HighSpeed => 4
  }

  /**
   * The text the engine reports for each warning. Each text is split into
   * two literals for proof performance only; the value is the same.
   */
  function Message(w: Warning): string
  {
    match w
    case NearMaximumRange => "Flight distance is " + "near maximum range"
    case HighWind => "High wind conditions will " + "significantly reduce battery life"
    case ExtremeTemperature => "Extreme temperatures " + "will affect battery performance"
    case HighAltitude => "High altitude flight " + "requires more power"
    case HighSpeed => "High speeds dramatically " + "increase power consumption"
  }

  /** The condition under which the engine raises `w`, given the computed consumption. */
  predicate Raised(w: Warning, p: DroneParameters, consumption: real)
  {
    match w
    case NearMaximumRange => consumption > 90.0
    case HighWind => p.windSpeed > 8.0
    case ExtremeTemperature => p.temperature < 0.0 || p.temperature > 40.0
    case HighAltitude => p.altitude > 2000.0
    case HighSpeed => p.speed > 15.0
  }

  /** The warnings of `ws` whose condition holds, in the order of `ws`. */
  function RaisedIn(ws: seq<Warning>, p: DroneParameters, consumption: real): (r: seq<Warning>)
    ensures |r| <= |ws|
  {
    if ws == [] then []
    else
      var rest := RaisedIn(ws[1..], p, consumption);
      if Raised(ws[0], p, consumption) then [ws[0]] + rest else rest
  }

  /** The warnings of a prediction: those whose condition holds, in table order. */
  function Warnings(p: DroneParameters, consumption: real): seq<Warning>
  {
    RaisedIn(WarningOrder, p, consumption)
  }

  /** Strictly increasing in rank: each kind at most once, in table order. */
  predicate InTableOrder(ws: seq<Warning>)
  {
    forall i, j :: 0 <= i < j < |ws| ==> Rank(ws[i]) < Rank(ws[j])
  }

  /**
   * The list left by the engine's checks run one after another: starting
   * from `pushed`, each warning of `todo` whose condition holds is pushed.
   */
  function PushRaised(pushed: seq<Warning>, todo: seq<Warning>, p: DroneParameters, consumption: real): seq<Warning>
    decreases todo
  {
    if todo == [] then pushed
    else
      var w := todo[0];
      PushRaised(if Raised(w, p, consumption) then pushed + [w] else pushed, todo[1..], p, consumption)
  }

  /** Running the checks one after another appends the filtered table to what was pushed before. */
  lemma {:induction false} PushRaisedAppendsFilter(pushed: seq<Warning>, todo: seq<Warning>, p: DroneParameters, consumption: real)
    ensures PushRaised(pushed, todo, p, consumption) == pushed + RaisedIn(todo, p, consumption)
    decreases todo
  {
    if todo == [] {
      assert pushed + [] == pushed;
    } else {
      var w := todo[0];
      if Raised(w, p, consumption) {
        PushRaisedAppendsFilter(pushed + [w], todo[1..], p, consumption);
        assert pushed + [w] + RaisedIn(todo[1..], p, consumption) == pushed + ([w] + RaisedIn(todo[1..], p, consumption));
      } else {
        PushRaisedAppendsFilter(pushed, todo[1..], p, consumption);
      }
    }
  }

  /** Running every check of the table from an empty list gives the prediction's warnings. */
  lemma ChecksGiveWarnings(p: DroneParameters, consumption: real)
    ensures PushRaised([], WarningOrder, p, consumption) == Warnings(p, consumption)
  {
    PushRaisedAppendsFilter([], WarningOrder, p, consumption);
    assert [] + Warnings(p, consumption) == Warnings(p, consumption);
  }

  /**
   * The warning checks of the engine: one `push` per condition that holds,
   * in table order. The ghost `todo` holds the checks still to make.
   */
  method CollectWarnings(p: DroneParameters, consumption: real) returns (warnings: seq<Warning>)
    ensures warnings == Warnings(p, consumption)
  {
    ghost var todo := WarningOrder;
    warnings := [];
    if consumption > 90.0 {
      warnings := warnings + [NearMaximumRange];
    }
    todo := todo[1..];
    assert PushRaised(warnings, todo, p, consumption) == PushRaised([], WarningOrder, p, consumption);
    if p.windSpeed > 8.0 {
      warnings := warnings + [HighWind];
    }
    todo := todo[1..];
    assert PushRaised(warnings, todo, p, consumption) == PushRaised([], WarningOrder, p, consumption);
    if p.temperature < 0.0 || p.temperature > 40.0 {
      warnings := warnings + [ExtremeTemperature];
    }
    todo := todo[1..];
    assert PushRaised(warnings, todo, p, consumption) == PushRaised([], WarningOrder, p, consumption);
    if p.altitude > 2000.0 {
      warnings := warnings + [HighAltitude];
    }
    todo := todo[1..];
    assert PushRaised(warnings, todo, p, consumption) == PushRaised([], WarningOrder, p, consumption);
    if p.speed > 15.0 {
      warnings := warnings + [HighSpeed];
    }
    todo := todo[1..];
    assert todo == [] && PushRaised(warnings, todo, p, consumption) == PushRaised([], WarningOrder, p, consumption);
    ChecksGiveWarnings(p, consumption);
  }

  // ---------------------------------------------------------------------
  // predictBatteryConsumption
  // ---------------------------------------------------------------------

  /** The prediction, as a function of the parameters and the host's trigonometry. */
  function Predict(p: DroneParameters, t: Trig): (r: PredictionResult)
    requires Predictable(p, t)
    ensures r.batteryConsumption <= 100.0
    ensures 0.0 <= r.efficiency <= 100.0
    ensures |r.warnings| <= 5
  {
    var consumption := Consumption(p, t);
    PredictionResult(
      consumption,
      FlightTimeHours(p, t) * 60.0,
      Efficiency(p, t),
      p.speed * FlightTimeHours(p, t),
      Warnings(p, consumption))
  }

  /** `predictBatteryConsumption`: computes each quantity in turn, then collects the warnings. */
  method PredictBatteryConsumption(p: DroneParameters, t: Trig) returns (r: PredictionResult)
    requires Predictable(p, t)
    ensures r == Predict(p, t)
  {
    var flightTimeHours := FlightTimeHours(p, t);
    var flightTime := flightTimeHours * 60.0;
    var range := p.speed * flightTimeHours;
    var batteryConsumption := Consumption(p, t);
    var efficiency := Efficiency(p, t);
    var warnings := CollectWarnings(p, batteryConsumption);
    r := PredictionResult(batteryConsumption, flightTime, efficiency, range, warnings);
  }

  // ---------------------------------------------------------------------
  // getOptimizedParameters
  // ---------------------------------------------------------------------

  /** A copy of `p` with speed, altitude and (above 500 g) payload scaled down. */
  function Optimize(p: DroneParameters): (q: DroneParameters)
    ensures q.windSpeed == p.windSpeed && q.windDirection == p.windDirection
    ensures q.temperature == p.temperature && q.flightDistance == p.flightDistance
    ensures q.batteryCapacity == p.batteryCapacity
    ensures q.speed >= 5.0 && q.speed >= 0.7 * p.speed && (q.speed == 5.0 || q.speed == 0.7 * p.speed)
    ensures q.altitude >= 10.0 && q.altitude >= 0.8 * p.altitude && (q.altitude == 10.0 || q.altitude == 0.8 * p.altitude)
    ensures p.payloadWeight > 500.0 ==> q.payloadWeight == 0.9 * p.payloadWeight
    ensures q.payloadWeight != p.payloadWeight <==> p.payloadWeight > 500.0
    ensures q.payloadWeight <= p.payloadWeight
  {
    p.(speed := Max(5.0, p.speed * 0.7),
       altitude := Max(10.0, p.altitude * 0.8),
       payloadWeight := if p.payloadWeight > 500.0 then p.payloadWeight * 0.9 else p.payloadWeight)
  }

  /**
   * `getOptimizedParameters`: copy the record, then overwrite speed,
   * altitude and, above 500 g, the payload of the copy one field at a time.
   * The caller's record is a value and stays as it was.
   */
  method GetOptimizedParameters(p: DroneParameters) returns (optimized: DroneParameters)
    ensures optimized == Optimize(p)
  {
    optimized := p;
    optimized := optimized.(speed := Max(5.0, p.speed * 0.7));
    optimized := optimized.(altitude := Max(10.0, p.altitude * 0.8));
    if p.payloadWeight > 500.0 {
      optimized := optimized.(payloadWeight := p.payloadWeight * 0.9);
    }
  }

  // ---------------------------------------------------------------------
  // getPredictionConfidence
  // ---------------------------------------------------------------------

  /** The conditions that lower the confidence score. */
  datatype ConfidencePenalty = WindAbove10 | AltitudeAbove1500 | TemperatureOutside0To35 | SpeedAbove20

  const ConfidencePenalties: seq<ConfidencePenalty> :=
    [WindAbove10, AltitudeAbove1500, TemperatureOutside0To35, SpeedAbove20]

  const BaseConfidence: real := 85.0

  function PenaltyAmount(c: ConfidencePenalty): real
  {
    match c
    case WindAbove10 => 10.0
    case AltitudeAbove1500 => 5.0
    case TemperatureOutside0To35 => 8.0
    case SpeedAbove20 => 7.0
  }

  predicate PenaltyApplies(c: ConfidencePenalty, p: DroneParameters)
  {
    match c
    case WindAbove10 => p.windSpeed > 10.0
    case AltitudeAbove1500 => p.altitude > 1500.0
    case TemperatureOutside0To35 => p.temperature < 0.0 || p.temperature > 35.0
    case SpeedAbove20 => p.speed > 20.0
  }

  /** The sum of the amounts of all penalties in `cs`, whether they apply or not. */
  function MaxPenalty(cs: seq<ConfidencePenalty>): real
  {
    if cs == [] then 0.0 else PenaltyAmount(cs[0]) + MaxPenalty(cs[1..])
  }

  /** The sum of the amounts of the penalties in `cs` that apply to `p`. */
  function PenaltySum(cs: seq<ConfidencePenalty>, p: DroneParameters): (r: real)
    ensures 0.0 <= r <= MaxPenalty(cs)
  {
    if cs == [] then 0.0
    else (if PenaltyApplies(cs[0], p) then PenaltyAmount(cs[0]) else 0.0) + PenaltySum(cs[1..], p)
  }

  /** The score left by the penalty checks run one after another, starting from `score`. */
  function Deduct(score: real, todo: seq<ConfidencePenalty>, p: DroneParameters): real
    decreases todo
  {
    if todo == [] then score
    else
      var c := todo[0];
      Deduct(if PenaltyApplies(c, p) then score - PenaltyAmount(c) else score, todo[1..], p)
  }

  /** Running the checks one after another subtracts the sum of the applicable penalties. */
  lemma {:induction false} DeductSubtractsPenaltySum(score: real, todo: seq<ConfidencePenalty>, p: DroneParameters)
    ensures Deduct(score, todo, p) == score - PenaltySum(todo, p)
    decreases todo
  {
    if todo != [] {
      var c := todo[0];
      DeductSubtractsPenaltySum(if PenaltyApplies(c, p) then score - PenaltyAmount(c) else score, todo[1..], p);
    }
  }

  /**
   * `getPredictionConfidence`: 85 less each penalty that applies, clamped to
   * [50, 95]. The clamp never changes the value.
   */
  method PredictionConfidence(p: DroneParameters) returns (confidence: real)
    ensures confidence == BaseConfidence - PenaltySum(ConfidencePenalties, p)
    ensures 55.0 <= confidence <= 85.0
  {
    ghost var todo := ConfidencePenalties;
    var c := BaseConfidence;
    if p.windSpeed > 10.0 {
      c := c - 10.0;
    }
    todo := todo[1..];
    assert Deduct(c, todo, p) == Deduct(BaseConfidence, ConfidencePenalties, p);
    if p.altitude > 1500.0 {
      c := c - 5.0;
    }
    todo := todo[1..];
    assert Deduct(c, todo, p) == Deduct(BaseConfidence, ConfidencePenalties, p);
    if p.temperature < 0.0 || p.temperature > 35.0 {
      c := c - 8.0;
    }
    todo := todo[1..];
    assert Deduct(c, todo, p) == Deduct(BaseConfidence, ConfidencePenalties, p);
    if p.speed > 20.0 {
      c := c - 7.0;
    }
    todo := todo[1..];
    assert todo == [] && Deduct(c, todo, p) == Deduct(BaseConfidence, ConfidencePenalties, p);
    DeductSubtractsPenaltySum(BaseConfidence, ConfidencePenalties, p);
    assert MaxPenalty(ConfidencePenalties) == 30.0;
    confidence := Clamp(50.0, 95.0, c);
  }
}
