/**
 * What the prediction engine promises its callers: bounds on its outputs,
 * when it is defined, the order and conditions of its warnings, how the
 * optimizer rewrites a parameter set, and the range of the confidence score.
 */
module PredictionProperties {
  import opened JsMath
  import opened PredictionModel

  // ---------------------------------------------------------------------
  // The power model
  // ---------------------------------------------------------------------

  /** Head-on wind counts for half, wind from behind for one and a half times its speed. */
  lemma EffectiveWindBounds(p: DroneParameters, t: Trig)
    requires p.windSpeed >= 0.0 && CosBounded(t)
    ensures 0.5 * p.windSpeed <= EffectiveWind(p, t) <= 1.5 * p.windSpeed
  {
    var c := t.cos(p.windDirection * t.pi / 180.0);
    assert -1.0 <= c <= 1.0;
  }

  /** At direction 0 the wind is head-on and counts for half its speed. */
  lemma EffectiveWindHeadOn(p: DroneParameters, t: Trig)
    requires p.windDirection == 0.0 && t.cos(0.0) == 1.0
    ensures EffectiveWind(p, t) == 0.5 * p.windSpeed
  {
    assert p.windDirection * t.pi / 180.0 == 0.0;
  }

  /** With no negative altitude or payload the drone needs at least the hover power over the motor efficiency. */
  lemma TotalPowerFloor(p: DroneParameters, t: Trig)
    requires p.altitude >= 0.0 && p.payloadWeight >= 0.0
    ensures TotalPower(p, t) >= HoverPowerWatts / EfficiencyFactor > 0.0
  {
    var base := HoverPower(p) + SpeedPower(p) + WindPower(p, t) + PayloadPower(p);
    assert HoverPower(p) >= HoverPowerWatts;
    assert SpeedPower(p) >= 0.0;
    assert WindPower(p, t) >= 0.0 by {
      var e := EffectiveWind(p, t);
      assert e * e >= 0.0;
    }
    assert base >= HoverPowerWatts;
    var f := TempFactor(p);
    assert f >= 1.0;
    assert base * f >= base by {
      assert base * f - base == base * (f - 1.0);
      assert base * (f - 1.0) >= 0.0;
    }
    assert TotalPower(p, t) == base * f / EfficiencyFactor;
  }

  /**
   * Sufficient conditions for a finite prediction, and what it then says:
   * the flight time is positive and is the hour figure in minutes, and at a
   * positive speed the range is the distance covered in that time.
   */
  lemma PositiveFlightTime(p: DroneParameters, t: Trig)
    requires p.altitude >= 0.0 && p.payloadWeight >= 0.0 && p.batteryCapacity > 0.0
    requires p.speed == 0.0 ==> p.flightDistance > 0.0
    ensures Predictable(p, t)
    ensures FlightTimeHours(p, t) > 0.0
    ensures Predict(p, t).flightTime == 60.0 * FlightTimeHours(p, t) > 0.0
    ensures p.speed > 0.0 ==> Predict(p, t).range == p.speed * Predict(p, t).flightTime / 60.0
  {
    TotalPowerFloor(p, t);
    assert CurrentDraw(p, t) > 0.0;
    assert p.batteryCapacity / 1000.0 > 0.0;
    assert TheoreticalMinPower(p) >= HoverPowerWatts;
  }

  /**
   * The consumption is clamped above at 100 and nowhere else: whenever the
   * unclamped share is at most 100 it is reported as it is.
   */
  lemma ConsumptionClampedAboveOnly(p: DroneParameters, t: Trig)
    requires Predictable(p, t) && p.speed != 0.0
    ensures ConsumptionRatio(p, t) <= 100.0 ==> Predict(p, t).batteryConsumption == ConsumptionRatio(p, t)
    ensures ConsumptionRatio(p, t) > 100.0 ==> Predict(p, t).batteryConsumption == 100.0
  {
  }

  /**
   * At speed 0 the time for the distance is +Infinity and `Math.min` turns
   * it into 100: the prediction reports a full battery, no range and the
   * near-maximum-range warning first.
   */
  lemma ZeroSpeedPrediction(p: DroneParameters, t: Trig)
    requires Predictable(p, t) && p.speed == 0.0
    ensures Predict(p, t).batteryConsumption == 100.0
    ensures Predict(p, t).range == 0.0
    ensures |Predict(p, t).warnings| > 0 && Predict(p, t).warnings[0] == NearMaximumRange
  {
    assert WarningOrder[1..] == [HighWind, ExtremeTemperature, HighAltitude, HighSpeed];
  }

  // ---------------------------------------------------------------------
  // Warnings
  // ---------------------------------------------------------------------

  /** A warning is kept by the filter if and only if it is in the list and its condition holds. */
  lemma {:induction false} RaisedInMembers(ws: seq<Warning>, p: DroneParameters, consumption: real, w: Warning)
    ensures w in RaisedIn(ws, p, consumption) <==> w in ws && Raised(w, p, consumption)
  {
    if ws != [] {
      RaisedInMembers(ws[1..], p, consumption, w);
      assert w in ws <==> w == ws[0] || w in ws[1..];
    }
  }

  /** The filter keeps the order of its input. */
  lemma {:induction false} RaisedInKeepsOrder(ws: seq<Warning>, p: DroneParameters, consumption: real)
    requires InTableOrder(ws)
    ensures InTableOrder(RaisedIn(ws, p, consumption))
  {
    if ws != [] {
      var rest := RaisedIn(ws[1..], p, consumption);
      assert InTableOrder(ws[1..]) by {
        forall i, j | 0 <= i < j < |ws[1..]|
          ensures Rank(ws[1..][i]) < Rank(ws[1..][j])
        {
          assert ws[1..][i] == ws[i + 1] && ws[1..][j] == ws[j + 1];
        }
      }
      RaisedInKeepsOrder(ws[1..], p, consumption);
      if Raised(ws[0], p, consumption) {
        forall k | 0 <= k < |rest|
          ensures Rank(ws[0]) < Rank(rest[k])
        {
          RaisedInMembers(ws[1..], p, consumption, rest[k]);
          var m :| 0 <= m < |ws[1..]| && ws[1..][m] == rest[k];
          assert ws[m + 1] == rest[k];
        }
        var r := [ws[0]] + rest;
        forall i, j | 0 <= i < j < |r|
          ensures Rank(r[i]) < Rank(r[j])
        {
          if i == 0 {
            assert r[j] == rest[j - 1];
          } else {
            assert r[i] == rest[i - 1] && r[j] == rest[j - 1];
          }
        }
      }
    }
  }

  /** Each warning appears in a prediction exactly when its condition holds. */
  lemma WarningRaisedIff(p: DroneParameters, t: Trig, w: Warning)
    requires Predictable(p, t)
    ensures w in Predict(p, t).warnings <==> Raised(w, p, Predict(p, t).batteryConsumption)
  {
    RaisedInMembers(WarningOrder, p, Consumption(p, t), w);
    assert w in WarningOrder by {
      match w
      case NearMaximumRange => assert WarningOrder[0] == w;
      case HighWind => assert WarningOrder[1] == w;
      case ExtremeTemperature => assert WarningOrder[2] == w;
      case HighAltitude => assert WarningOrder[3] == w;
      case HighSpeed => assert WarningOrder[4] == w;
    }
  }

  /** The warnings of a prediction come in table order, each at most once. */
  lemma WarningsInTableOrder(p: DroneParameters, t: Trig)
    requires Predictable(p, t)
    ensures InTableOrder(Predict(p, t).warnings)
  {
    RaisedInKeepsOrder(WarningOrder, p, Consumption(p, t));
  }

  /** When both hold, the near-maximum-range warning comes first and the high-wind warning second. */
  lemma NearMaximumRangeBeforeHighWind(p: DroneParameters, t: Trig)
    requires Predictable(p, t)
    requires Predict(p, t).batteryConsumption > 90.0 && p.windSpeed > 8.0
    ensures |Predict(p, t).warnings| >= 2
    ensures Predict(p, t).warnings[0] == NearMaximumRange && Predict(p, t).warnings[1] == HighWind
  {
    var c := Consumption(p, t);
    assert WarningOrder[1..] == [HighWind] + WarningOrder[2..];
    assert RaisedIn(WarningOrder[1..], p, c) == [HighWind] + RaisedIn(WarningOrder[2..], p, c);
  }

  /** The reference scenario: 10 m/s, 100 m, 5 m/s head-on wind, 500 g, 25 degrees, 5 km, 5000 mAh. */
  function ScenarioA(): DroneParameters
  {
    DroneParameters(10.0, 100.0, 5.0, 0.0, 500.0, 25.0, 5.0, 5000.0)
  }

  /**
   * Its total power is 107.5 W over the motor efficiency, so it flies
   * 47.175 / 107.5 hours; 5 km at 10 m/s needs more than that, the
   * consumption is clamped to 100, and only the near-maximum-range warning
   * is raised.
   */
  lemma ScenarioAPrediction(t: Trig)
    requires t.cos(0.0) == 1.0
    ensures Predictable(ScenarioA(), t)
    ensures TotalPower(ScenarioA(), t) == 107.5 / 0.85
    ensures Predict(ScenarioA(), t).flightTime == 60.0 * 47.175 / 107.5
    ensures Predict(ScenarioA(), t).range == 10.0 * 47.175 / 107.5
    ensures Predict(ScenarioA(), t).batteryConsumption == 100.0
    ensures Predict(ScenarioA(), t).warnings == [NearMaximumRange]
  {
    var p := ScenarioA();
    EffectiveWindHeadOn(p, t);
    assert EffectiveWind(p, t) == 2.5;
    assert TotalPower(p, t) == 107.5 / 0.85;
    PositiveFlightTime(p, t);
    assert FlightTimeHours(p, t) == 47.175 / 107.5;
    assert ConsumptionRatio(p, t) == 0.5 / (47.175 / 107.5) * 100.0;
    assert ConsumptionRatio(p, t) > 100.0;
    assert WarningOrder[1..] == [HighWind, ExtremeTemperature, HighAltitude, HighSpeed];
    assert WarningOrder[1..][1..] == [ExtremeTemperature, HighAltitude, HighSpeed];
    assert WarningOrder[1..][1..][1..] == [HighAltitude, HighSpeed];
    assert WarningOrder[1..][1..][1..][1..] == [HighSpeed];
  }

  // ---------------------------------------------------------------------
  // The optimizer
  // ---------------------------------------------------------------------

  /** The optimizer lowers the speed if and only if it is at least 5 m/s; below that it raises it to 5. */
  lemma OptimizeLowersSpeedIff(p: DroneParameters)
    ensures Optimize(p).speed <= p.speed <==> p.speed >= 5.0
  {
  }

  /** The optimizer lowers the altitude if and only if it is at least 10 m; below that it raises it to 10. */
  lemma OptimizeLowersAltitudeIff(p: DroneParameters)
    ensures Optimize(p).altitude <= p.altitude <==> p.altitude >= 10.0
  {
  }

  /**
   * The optimizer is not idempotent: whenever its first pass leaves a speed
   * above 5 m/s, a second pass lowers it again, and above 5 / 0.49 m/s the
   * second pass scales it by 0.7 once more.
   */
  lemma OptimizeNotIdempotent(p: DroneParameters)
    requires Optimize(p).speed > 5.0
    ensures Optimize(Optimize(p)).speed < Optimize(p).speed
    ensures 0.7 * p.speed > 5.0 / 0.7 ==> Optimize(Optimize(p)).speed == 0.49 * p.speed
  {
  }

  // ---------------------------------------------------------------------
  // The confidence score
  // ---------------------------------------------------------------------

  /** No penalty is taken if and only if none of the listed conditions holds. */
  lemma {:induction false} PenaltySumZeroIff(cs: seq<ConfidencePenalty>, p: DroneParameters)
    ensures PenaltySum(cs, p) == 0.0 <==> forall c :: c in cs ==> !PenaltyApplies(c, p)
  {
    if cs != [] {
      PenaltySumZeroIff(cs[1..], p);
      assert forall c :: c in cs <==> c == cs[0] || c in cs[1..];
      assert PenaltyAmount(cs[0]) > 0.0;
    }
  }

  /** The score stays at 85 if and only if none of the four extreme conditions holds. */
  lemma FullConfidenceIffNormal(p: DroneParameters)
    ensures PenaltySum(ConfidencePenalties, p) == 0.0
        <==> p.windSpeed <= 10.0 && p.altitude <= 1500.0
             && 0.0 <= p.temperature <= 35.0 && p.speed <= 20.0
  {
    var cs := ConfidencePenalties;
    PenaltySumZeroIff(cs, p);
    assert cs[0] == WindAbove10 && cs[1] == AltitudeAbove1500;
    assert cs[2] == TemperatureOutside0To35 && cs[3] == SpeedAbove20;
    if p.windSpeed <= 10.0 && p.altitude <= 1500.0 && 0.0 <= p.temperature <= 35.0 && p.speed <= 20.0 {
      forall c | c in cs
        ensures !PenaltyApplies(c, p)
      {
        match c
        case WindAbove10 =>
        case AltitudeAbove1500 =>
        case TemperatureOutside0To35 =>
        case SpeedAbove20 =>
      }
    } else {
      var k :| 0 <= k < 4 && PenaltyApplies(cs[k], p);
      assert cs[k] in cs;
    }
  }
}
