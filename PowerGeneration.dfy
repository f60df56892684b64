/** The power-generation attack (PowerGenerationAttack.cs): every cycle it
    picks turbines at random, forces each picked one under manual control
    at a random, possibly excessive speed, and records the picked ones in
    manipulatedTurbines; stopping returns every turbine to automatic. The
    random draws are a parameter of the cycle, and the three-second wait
    between cycles is the caller's business. */
module PowerGeneration {
  import opened Numeric
  import opened Turbines
  import opened PowerSystem
  import opened AttackBase

  const PowerGenerationName: string := "PowerGeneration"

  /** Random.Range's upper bound, as a multiple of the turbine's maxSpeed. */
  const OverspeedFactor: real := 1.5

  /** One turbine's draws in a cycle: whether it is picked (the 30% chance),
      the speed drawn, and whether that speed is then zeroed (the 20%
      chance). */
  datatype Draw = Draw(picked: bool, speed: real, zeroed: bool)

  /** The speed the picked turbine is given. */
  function DrawnSpeed(d: Draw): real
  {
    if d.zeroed then 0.0 else d.speed
  }

  /** The interval Random.Range(0, maxSpeed × 1.5) draws from. */
  predicate InSpeedRange(speed: real, maxSpeed: real)
  {
    Min(0.0, maxSpeed * OverspeedFactor) <= speed <= Max(0.0, maxSpeed * OverspeedFactor)
  }

  /** Zeroing keeps a drawn speed in range. */
  lemma DrawnSpeedInRange(d: Draw, maxSpeed: real)
    requires InSpeedRange(d.speed, maxSpeed)
    ensures InSpeedRange(DrawnSpeed(d), maxSpeed)
  {
  }

  /** The turbines of the list that the draws pick. */
  function Picked(ts: seq<Turbine?>, draws: seq<Draw>): set<Turbine>
    requires |ts| == |draws|
  {
    set t: Turbine | t in ts && exists i :: 0 <= i < |ts| && ts[i] == t && draws[i].picked
  }

  /** The turbines whose connection is redrawn: those that left the set
      and those that joined it. */
  function Changed(previous: set<Turbine>, current: set<Turbine>): set<Turbine>
  {
    (previous - current) + (current - previous)
  }

  /** No connection is redrawn exactly when the set did not change, and a
      turbine that stays manipulated is never redrawn. */
  lemma ChangedIsEmptyIffSame(previous: set<Turbine>, current: set<Turbine>)
    ensures Changed(previous, current) == {} <==> previous == current
    ensures Changed(previous, current) * (previous * current) == {}
  {
    if Changed(previous, current) == {} {
      forall t | t in previous ensures t in current {
        assert t !in previous - current;
      }
      forall t | t in current ensures t in previous {
        assert t !in current - previous;
      }
    }
  }

  class PowerGenerationAttack {
    const base: CyberAttackBase
    var manipulatedTurbines: set<Turbine>

    /** The turbines of the manager's list. */
    ghost function Fleet(): set<Turbine>
      reads base`powerSystemManager
    {
      if base.powerSystemManager == null then {} else set t: Turbine | t in base.powerSystemManager.turbines
    }

    constructor ()
      ensures fresh(base) && !base.isActive && !base.hasVisualiser && base.powerSystemManager == null
      ensures manipulatedTurbines == {}
    {
      base := new CyberAttackBase();
      manipulatedTurbines := {};
    }

    /** IsTurbineManipulated: plain membership, whatever the flag. */
    function IsTurbineManipulated(turbine: Turbine): (manipulated: bool)
      reads this`manipulatedTurbines
      ensures manipulated <==> turbine in manipulatedTurbines
    {
      turbine in manipulatedTurbines
    }

    /** StartAttack only launches the manipulation coroutine. Its passes,
        the first of which Unity runs within this call, are ManipulationCycle
        calls that the caller makes with the random draws. */
    method StartAttack()
    {
      if base.powerSystemManager == null {
        return;
      }
    }

    /** StopAttack: every turbine back to automatic and the set emptied;
        nothing at all without a manager. */
    method StopAttack()
      modifies this`manipulatedTurbines, Fleet()`manualControl, Fleet()`manualWindSpeed
      ensures base.powerSystemManager == null ==> manipulatedTurbines == old(manipulatedTurbines)
      ensures base.powerSystemManager != null ==>
                && manipulatedTurbines == {}
                && forall i :: 0 <= i < |base.powerSystemManager.turbines| && base.powerSystemManager.turbines[i] != null ==>
                     base.powerSystemManager.turbines[i].GetControls() ==
                       Toggle(old(base.powerSystemManager.turbines[i].GetControls()), false, 0.0)
    {
      if base.powerSystemManager == null {
        return;
      }
      base.powerSystemManager.ResetTurbinesToAutomatic();
      manipulatedTurbines := {};
    }

    method ToggleAttack()
      modifies base`isActive, this`manipulatedTurbines, Fleet()`manualControl, Fleet()`manualWindSpeed
      ensures base.isActive == !old(base.isActive)
      ensures base.isActive ==> manipulatedTurbines == old(manipulatedTurbines)
      ensures base.isActive ==> forall t :: t in Fleet() ==> t.GetControls() == old(t.GetControls())
      ensures !base.isActive && base.powerSystemManager != null ==>
                && manipulatedTurbines == {}
                && forall i :: 0 <= i < |base.powerSystemManager.turbines| && base.powerSystemManager.turbines[i] != null ==>
                     base.powerSystemManager.turbines[i].GetControls() ==
                       Toggle(old(base.powerSystemManager.turbines[i].GetControls()), false, 0.0)
    {
      var hook := base.Flip();
      if hook == StartHook {
        StartAttack();
      } else {
        StopAttack();
      }
    }

    /** OnDestroy: an active attack is stopped; otherwise nothing changes. */
    method OnDestroy()
      modifies this`manipulatedTurbines, Fleet()`manualControl, Fleet()`manualWindSpeed
      ensures !base.isActive ==> manipulatedTurbines == old(manipulatedTurbines)
      ensures !base.isActive ==> forall t :: t in Fleet() ==> t.GetControls() == old(t.GetControls())
      ensures base.isActive && base.powerSystemManager != null ==>
                && manipulatedTurbines == {}
                && forall i :: 0 <= i < |base.powerSystemManager.turbines| && base.powerSystemManager.turbines[i] != null ==>
                     base.powerSystemManager.turbines[i].GetControls() ==
                       Toggle(old(base.powerSystemManager.turbines[i].GetControls()), false, 0.0)
    {
      if base.isActive {
        StopAttack();
      }
    }

    /** One pass of the RandomTurbineManipulation coroutine, which runs
        while the attack is active. Afterwards the set is exactly the picked
        turbines, each under manual control at a speed in range; a turbine
        not picked keeps its controls, so one picked before stays manual.
        The result is the set of turbines whose connection is redrawn. */
    method ManipulationCycle(draws: seq<Draw>) returns (redrawn: set<Turbine>)
      requires base.isActive && base.powerSystemManager != null
      requires |draws| == |base.powerSystemManager.turbines|
      requires forall i :: 0 <= i < |draws| && base.powerSystemManager.turbines[i] != null ==>
                 InSpeedRange(draws[i].speed, base.powerSystemManager.turbines[i].maxSpeed)
      modifies this`manipulatedTurbines, Fleet()`manualControl, Fleet()`manualWindSpeed
      ensures manipulatedTurbines == Picked(base.powerSystemManager.turbines, draws)
      ensures forall i :: 0 <= i < |draws| && base.powerSystemManager.turbines[i] != null && draws[i].picked ==>
                && base.powerSystemManager.turbines[i].manualControl
                && InSpeedRange(base.powerSystemManager.turbines[i].manualWindSpeed,
                                base.powerSystemManager.turbines[i].maxSpeed)
      ensures forall t :: t in Fleet() && t !in manipulatedTurbines ==> t.GetControls() == old(t.GetControls())
      ensures redrawn == if base.hasVisualiser then Changed(old(manipulatedTurbines), manipulatedTurbines) else {}
    {
      var turbines := base.powerSystemManager.turbines;
      var previouslyManipulatedTurbines := manipulatedTurbines;
      manipulatedTurbines := {};
      var i := 0;
      while i < |turbines|
        invariant 0 <= i <= |turbines|
        invariant manipulatedTurbines == Picked(turbines[..i], draws[..i])
        invariant forall k :: 0 <= k < i && turbines[k] != null && draws[k].picked ==>
                    turbines[k].manualControl && InSpeedRange(turbines[k].manualWindSpeed, turbines[k].maxSpeed)
        invariant forall t :: t in Fleet() && t !in manipulatedTurbines ==> t.GetControls() == old(t.GetControls())
      {
        PickedStep(turbines, draws, i);
        var turbine := turbines[i];
        if turbine != null && draws[i].picked {
          var randomSpeed := draws[i].speed;
          if draws[i].zeroed {
            randomSpeed := 0.0;
          }
          turbine.ToggleManualControl(true, randomSpeed);
          manipulatedTurbines := manipulatedTurbines + {turbine};
        }
        i := i + 1;
      }
      assert turbines[..i] == turbines && draws[..i] == draws;
      redrawn := UpdateChangedTurbineConnections(previouslyManipulatedTurbines);
    }

    /** UpdateChangedTurbineConnections: nothing without a visualiser. */
    method UpdateChangedTurbineConnections(previouslyManipulated: set<Turbine>) returns (redrawn: set<Turbine>)
      ensures redrawn == if base.hasVisualiser then Changed(previouslyManipulated, manipulatedTurbines) else {}
    {
      redrawn := {};
      if !base.hasVisualiser {
        return;
      }
      redrawn := ChangedTurbines(previouslyManipulated, manipulatedTurbines);
    }
  }

  /** The two loops of UpdateChangedTurbineConnections: the turbines that
      left the set, then those that joined it. */
  method ChangedTurbines(previous: set<Turbine>, current: set<Turbine>) returns (redrawn: set<Turbine>)
    ensures redrawn == Changed(previous, current)
  {
    redrawn := {};
    var pending := previous;
    while pending != {}
      invariant pending <= previous
      invariant redrawn == (previous - pending) - current
      decreases pending
    {
      var turbine :| turbine in pending;
      if turbine !in current {
        redrawn := redrawn + {turbine};
      }
      pending := pending - {turbine};
    }
    pending := current;
    while pending != {}
      invariant pending <= current
      invariant redrawn == (previous - current) + ((current - pending) - previous)
      decreases pending
    {
      var turbine :| turbine in pending;
      if turbine !in previous {
        redrawn := redrawn + {turbine};
      }
      pending := pending - {turbine};
    }
  }

  /** One more turbine of the list. */
  lemma PickedStep(ts: seq<Turbine?>, draws: seq<Draw>, i: nat)
    requires |ts| == |draws| && i < |ts|
    ensures Picked(ts[..i + 1], draws[..i + 1]) ==
              Picked(ts[..i], draws[..i]) + (if ts[i] != null && draws[i].picked then {ts[i]} else {})
  {
    var before := Picked(ts[..i], draws[..i]);
    var after := Picked(ts[..i + 1], draws[..i + 1]);
    var added: set<Turbine> := if ts[i] != null && draws[i].picked then {ts[i]} else {};
    forall t | t in after ensures t in before + added {
      var k :| 0 <= k < i + 1 && ts[..i + 1][k] == t && draws[..i + 1][k].picked;
      if k < i {
        assert ts[..i][k] == t && draws[..i][k].picked;
      }
    }
    forall t | t in before + added ensures t in after {
      if t in before {
        var k :| 0 <= k < i && ts[..i][k] == t && draws[..i][k].picked;
        assert ts[..i + 1][k] == t && draws[..i + 1][k].picked;
      } else {
        assert ts[..i + 1][i] == t && draws[..i + 1][i].picked;
      }
    }
  }
}
