/** The system manager (PowerSystemManager.cs): references to every node and
    the bulk turbine controls — emergency stop, return to automatic, and the
    throttle applied when the battery is nearly full. The status printout of
    the monitoring coroutine is left out; one pass of its loop is
    MonitorStep. */
module PowerSystem {
  import opened Numeric
  import opened Grid
  import opened Batteries
  import opened Transformers
  import opened Inverters
  import opened WindFarms
  import opened Turbines

  const NearlyFullPercentage: real := 95.0
  const GenerationHeadroom: real := 1.05

  /** The throttle's trigger: the battery above 95% and generation more than
      5% above demand. */
  predicate ShouldThrottle(percentage: real, generation: real, demand: real)
  {
    percentage > NearlyFullPercentage && generation > demand * GenerationHeadroom
  }

  /** The factor every operational turbine's natural wind speed is scaled by. */
  function ReductionFactor(generation: real, demand: real): real
    requires generation != 0.0
  {
    (demand * GenerationHeadroom) / generation
  }

  /** What the throttle does to one turbine's controls: an operational one is
      put under manual control at its natural speed times the factor (even
      when it was already under manual control at another speed). */
  function Throttle(c: Controls, operational: bool, factor: real): Controls
  {
    if operational then Toggle(c, true, c.windSpeed * factor) else c
  }

  /** Each turbine's natural wind speed, counted where the generation total
      counts its power (live and operational turbines only). */
  function NaturalWinds(rs: seq<Rotor>): (ws: seq<real>)
    ensures |ws| == |rs|
    ensures forall i :: 0 <= i < |rs| ==> ws[i] == (if rs[i].live && rs[i].operational then rs[i].windSpeed else 0.0)
  {
    seq(|rs|, i requires 0 <= i < |rs| => if rs[i].live && rs[i].operational then rs[i].windSpeed else 0.0)
  }

  /** The speed each counted turbine runs at after the throttle, from its
      actual controls `cs[i]` (manual or not). */
  function ThrottledSpeeds(rs: seq<Rotor>, cs: seq<Controls>, factor: real): (ss: seq<real>)
    requires |cs| == |rs|
    ensures |ss| == |rs|
  {
    seq(|rs|, i requires 0 <= i < |rs| =>
          if rs[i].live && rs[i].operational then EffectiveSpeed(Throttle(cs[i], true, factor)) else 0.0)
  }

  /** Whatever the turbines' controls were, the throttle runs them at the
      factor times their natural wind, so the new total is the factor times
      the natural-wind total (not times the measured generation). */
  lemma ThrottleScalesNaturalWind(rs: seq<Rotor>, cs: seq<Controls>, factor: real)
    requires |cs| == |rs|
    requires forall i :: 0 <= i < |rs| ==> cs[i].windSpeed == rs[i].windSpeed
    ensures Sum(ThrottledSpeeds(rs, cs, factor)) == Sum(NaturalWinds(rs)) * factor
  {
    SumScaled(NaturalWinds(rs), ThrottledSpeeds(rs, cs, factor), factor);
  }

  /** After the throttle and the turbines' next Update, generation is
      exactly the target of 105% of a non-zero demand if and only if the
      natural-wind total equals the generation the factor was computed
      from; in particular it is when every operational turbine was running
      on its natural wind. Turbines under manual control at another speed
      make the throttle miss. */
  lemma {:induction false} ThrottleReachesTarget(rs: seq<Rotor>, cs: seq<Controls>, demand: real)
    requires |cs| == |rs| && Generation(rs) != 0.0
    requires forall i :: 0 <= i < |rs| ==> cs[i].windSpeed == rs[i].windSpeed
    ensures demand != 0.0 ==>
              (Sum(ThrottledSpeeds(rs, cs, ReductionFactor(Generation(rs), demand))) == demand * GenerationHeadroom
               <==> Sum(NaturalWinds(rs)) == Generation(rs))
    ensures (forall i :: 0 <= i < |rs| && rs[i].live && rs[i].operational ==> rs[i].power == rs[i].windSpeed) ==>
              Sum(ThrottledSpeeds(rs, cs, ReductionFactor(Generation(rs), demand))) == demand * GenerationHeadroom
  {
    var g := Generation(rs);
    var target := demand * GenerationHeadroom;
    var factor := ReductionFactor(g, demand);
    var n := Sum(NaturalWinds(rs));
    var total := Sum(ThrottledSpeeds(rs, cs, factor));
    ThrottleScalesNaturalWind(rs, cs, factor);
    ScaledHitsTarget(total, n, g, target, factor);
    if forall i :: 0 <= i < |rs| && rs[i].live && rs[i].operational ==> rs[i].power == rs[i].windSpeed {
      assert Contributions(rs) == NaturalWinds(rs);
    }
  }

  /** A total scaled from `n` by target / g hits a non-zero target exactly
      when `n` is `g`. */
  lemma ScaledHitsTarget(total: real, n: real, g: real, target: real, factor: real)
    requires g != 0.0 && factor == target / g && total == n * factor
    ensures n == g ==> total == target
    ensures target != 0.0 ==> (total == target <==> n == g)
  {
    if target != 0.0 && total == target {
      assert n * target == target * g;
    }
  }

  /** On a non-negative demand the factor is a true reduction, so the
      throttle only ever slows a turbine on a non-negative wind. */
  lemma ThrottleSlowsDown(c: Controls, generation: real, demand: real)
    requires 0.0 <= demand && 0.0 <= c.windSpeed && generation > demand * GenerationHeadroom
    ensures 0.0 <= ReductionFactor(generation, demand) < 1.0
    ensures EffectiveSpeed(Throttle(c, true, ReductionFactor(generation, demand))) <= c.windSpeed
  {
    var f := ReductionFactor(generation, demand);
    DivBelowOne(demand * GenerationHeadroom, generation);
    assert c.windSpeed * f <= c.windSpeed * 1.0;
  }

  class PowerSystemManager {
    /** The wiring the scene gives the manager; nothing reassigns it. */
    const turbines: seq<Turbine?>
    const windFarm: WindFarm?
    const inverter: Inverter?
    const transformer: Transformer?
    const battery: Battery?
    const powerGrid: PowerGrid?
    const consumers: seq<Consumer?>
    var debugMode: bool
    var emergencyShutdown: bool

    constructor (turbines: seq<Turbine?>, windFarm: WindFarm?, inverter: Inverter?, transformer: Transformer?,
                 battery: Battery?, powerGrid: PowerGrid?, consumers: seq<Consumer?>)
      ensures this.turbines == turbines && this.windFarm == windFarm && this.inverter == inverter
      ensures this.transformer == transformer && this.battery == battery && this.powerGrid == powerGrid
      ensures this.consumers == consumers
      ensures debugMode && !emergencyShutdown
    {
      this.turbines := turbines;
      this.windFarm := windFarm;
      this.inverter := inverter;
      this.transformer := transformer;
      this.battery := battery;
      this.powerGrid := powerGrid;
      this.consumers := consumers;
      debugMode := true;
      emergencyShutdown := false;
    }

    /** Puts every turbine in the list under manual control at `speed`. */
    method SetAllTurbineWindSpeeds(speed: real)
      modifies (set t: Turbine | t in turbines)`manualControl, (set t: Turbine | t in turbines)`manualWindSpeed
      ensures forall i :: 0 <= i < |turbines| && turbines[i] != null ==>
                turbines[i].GetControls() == Toggle(old(turbines[i].GetControls()), true, speed)
    {
      var i := 0;
      while i < |turbines|
        invariant 0 <= i <= |turbines|
        invariant forall k :: 0 <= k < |turbines| && turbines[k] != null ==>
                    turbines[k].GetControls() == old(turbines[k].GetControls()) ||
                    turbines[k].GetControls() == Toggle(old(turbines[k].GetControls()), true, speed)
        invariant forall k :: 0 <= k < i && turbines[k] != null ==>
                    turbines[k].GetControls() == Toggle(old(turbines[k].GetControls()), true, speed)
      {
        var turbine := turbines[i];
        if turbine != null {
          turbine.ToggleManualControl(true, speed);
        }
        i := i + 1;
      }
    }

    /** Returns every turbine in the list to its natural wind; the manual
        speeds stay as they were. */
    method ResetTurbinesToAutomatic()
      modifies (set t: Turbine | t in turbines)`manualControl, (set t: Turbine | t in turbines)`manualWindSpeed
      ensures forall i :: 0 <= i < |turbines| && turbines[i] != null ==>
                turbines[i].GetControls() == Toggle(old(turbines[i].GetControls()), false, 0.0)
    {
      var i := 0;
      while i < |turbines|
        invariant 0 <= i <= |turbines|
        invariant forall k :: 0 <= k < |turbines| && turbines[k] != null ==>
                    turbines[k].GetControls() == old(turbines[k].GetControls()) ||
                    turbines[k].GetControls() == Toggle(old(turbines[k].GetControls()), false, 0.0)
        invariant forall k :: 0 <= k < i && turbines[k] != null ==>
                    turbines[k].GetControls() == Toggle(old(turbines[k].GetControls()), false, 0.0)
      {
        var turbine := turbines[i];
        if turbine != null {
          turbine.ToggleManualControl(false, 0.0);
        }
        i := i + 1;
      }
    }

    /** The control part of one pass of the monitoring loop: a pending
        emergency stop sets every turbine to manual speed 0, once. */
    method MonitorStep()
      modifies this`emergencyShutdown
      modifies (set t: Turbine | t in turbines)`manualControl, (set t: Turbine | t in turbines)`manualWindSpeed
      ensures !emergencyShutdown
      ensures forall i :: 0 <= i < |turbines| && turbines[i] != null ==>
                turbines[i].GetControls() ==
                  if old(emergencyShutdown) then Toggle(old(turbines[i].GetControls()), true, 0.0)
                  else old(turbines[i].GetControls())
    {
      if emergencyShutdown {
        SetAllTurbineWindSpeeds(0.0);
        emergencyShutdown := false;
      }
    }

    /** The generation total of HandleBatteryFullScenario. */
    method MeasureGeneration() returns (totalGeneration: real)
      ensures totalGeneration == Generation(RotorsOf(turbines))
    {
      totalGeneration := 0.0;
      var i := 0;
      while i < |turbines|
        invariant 0 <= i <= |turbines|
        invariant totalGeneration == Generation(RotorsOf(turbines)[..i])
      {
        var turbine := turbines[i];
        assert RotorsOf(turbines)[..i + 1] == RotorsOf(turbines)[..i] + [RotorOf(turbine)];
        GenerationAppend(RotorsOf(turbines)[..i], RotorOf(turbine));
        if turbine != null && turbine.base.isOperational {
          totalGeneration := totalGeneration + turbine.base.GetCurrentPower();
        }
        i := i + 1;
      }
      assert RotorsOf(turbines)[..i] == RotorsOf(turbines);
    }

    /** The throttling loop of HandleBatteryFullScenario. */
    method ThrottleTurbines(reductionFactor: real)
      modifies (set t: Turbine | t in turbines)`manualControl, (set t: Turbine | t in turbines)`manualWindSpeed
      ensures forall i :: 0 <= i < |turbines| && turbines[i] != null ==>
                turbines[i].GetControls() ==
                  Throttle(old(turbines[i].GetControls()), old(turbines[i].base.isOperational), reductionFactor)
    {
      var i := 0;
      while i < |turbines|
        invariant 0 <= i <= |turbines|
        invariant forall k :: 0 <= k < |turbines| && turbines[k] != null ==>
                    turbines[k].GetControls() == old(turbines[k].GetControls()) ||
                    turbines[k].GetControls() ==
                      Throttle(old(turbines[k].GetControls()), turbines[k].base.isOperational, reductionFactor)
        invariant forall k :: 0 <= k < i && turbines[k] != null ==>
                    turbines[k].GetControls() ==
                      Throttle(old(turbines[k].GetControls()), turbines[k].base.isOperational, reductionFactor)
      {
        var turbine := turbines[i];
        if turbine != null && turbine.base.isOperational {
          var currentSpeed := turbine.windSpeed;
          var newSpeed := currentSpeed * reductionFactor;
          turbine.ToggleManualControl(true, newSpeed);
        }
        i := i + 1;
      }
    }

    /** Nearly full battery and surplus generation: scale the turbines down
        towards 105% of the grid's demand (taken as 0 without a grid). */
    method HandleBatteryFullScenario() returns (ghost throttled: bool, ghost factor: real)
      requires battery != null ==> battery.maxCapacity != 0.0
      requires powerGrid != null ==> NonNegativeDemands(LoadsOf(powerGrid.connectedConsumers))
      modifies (set t: Turbine | t in turbines)`manualControl, (set t: Turbine | t in turbines)`manualWindSpeed
      ensures battery == null ==> !throttled
      ensures battery != null ==>
                var demand := old(if powerGrid == null then 0.0 else TotalDemand(LoadsOf(powerGrid.connectedConsumers)));
                var generation := old(Generation(RotorsOf(turbines)));
                && 0.0 <= demand
                && (throttled <==> ShouldThrottle(old(battery.GetChargePercentage()), generation, demand))
                && (throttled ==> factor == ReductionFactor(generation, demand))
      ensures forall i :: 0 <= i < |turbines| && turbines[i] != null ==>
                turbines[i].GetControls() ==
                  if throttled then Throttle(old(turbines[i].GetControls()), old(turbines[i].base.isOperational), factor)
                  else old(turbines[i].GetControls())
    {
      throttled, factor := false, 0.0;
      if battery == null {
        return;
      }
      var batteryPercentage := battery.GetChargePercentage();
      var totalDemand := 0.0;
      if powerGrid != null {
        totalDemand := powerGrid.GetTotalDemand();
        TotalDemandNonNegative(LoadsOf(powerGrid.connectedConsumers));
      }
      var totalGeneration := MeasureGeneration();
      RotorsUnchanged(turbines);
      if powerGrid != null {
        LoadsUnchanged(powerGrid.connectedConsumers);
      }
      throttled, factor := ThrottleIfDue(batteryPercentage, totalDemand, totalGeneration);
    }

    /** The decision of HandleBatteryFullScenario, once the three readings
        are taken. */
    method ThrottleIfDue(batteryPercentage: real, totalDemand: real, totalGeneration: real)
      returns (ghost throttled: bool, ghost factor: real)
      requires 0.0 <= totalDemand
      modifies (set t: Turbine | t in turbines)`manualControl, (set t: Turbine | t in turbines)`manualWindSpeed
      ensures throttled <==> ShouldThrottle(batteryPercentage, totalGeneration, totalDemand)
      ensures throttled ==> totalGeneration != 0.0 && factor == ReductionFactor(totalGeneration, totalDemand)
      ensures forall i :: 0 <= i < |turbines| && turbines[i] != null ==>
                turbines[i].GetControls() ==
                  if throttled then Throttle(old(turbines[i].GetControls()), old(turbines[i].base.isOperational), factor)
                  else old(turbines[i].GetControls())
    {
      throttled, factor := false, 0.0;
      if batteryPercentage > NearlyFullPercentage && totalGeneration > totalDemand * GenerationHeadroom {
        var targetGeneration := totalDemand * GenerationHeadroom;
        var reductionFactor := targetGeneration / totalGeneration;
        throttled, factor := true, reductionFactor;
        ThrottleTurbines(reductionFactor);
      }
    }
  }
}
