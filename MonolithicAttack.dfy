/** The monolithic attack script (CyberAttack.cs), which the per-attack
    classes later replaced: one object holding a dictionary of four attack
    flags, the visual-disruption flag and palette, and the set of turbines
    the power-generation attack manipulates. Buttons, their labels, log
    lines and the hiding of connection lines are drawing only; each
    coroutine is modelled by one method per pass, whose random draws are
    parameters. */
module MonolithicAttack {
  import opened ComponentBase
  import opened Turbines
  import opened PowerSystem
  import opened AttackEngine
  import opened VisualDisruption
  import opened SafetyOverride
  import opened MonitoringDisruption
  import opened PowerGeneration
  import Locked = AttackManager

  /** A Unity colour. */
  datatype Colour = Rgba(r: real, g: real, b: real, a: real)

  const Red: Colour := Rgba(1.0, 0.0, 0.0, 1.0)
  const Green: Colour := Rgba(0.0, 1.0, 0.0, 1.0)
  const Yellow: Colour := Rgba(1.0, 0.92, 0.016, 1.0)
  /** The value of a colour field never assigned. */
  const Clear: Colour := Rgba(0.0, 0.0, 0.0, 0.0)

  /** The colours the visual disruption draws from. */
  const DisruptionColours: seq<Colour> := [Red, Green, Yellow]

  /** The visualiser's three line colours. */
  datatype Palette = Palette(powerFlowing: Colour, noPower: Colour, insufficientPower: Colour)

  /** The keys Start puts in the dictionary. */
  const AttackNames: seq<string> := [VisualDisruptionName, SafetyOverrideName, MonitoringDisruptionName, PowerGenerationName]

  /** A disruption pass's palette, one draw per colour. */
  function DisruptedPalette(flowing: nat, noPower: nat, insufficient: nat): (p: Palette)
    requires flowing < |DisruptionColours| && noPower < |DisruptionColours| && insufficient < |DisruptionColours|
    ensures p.powerFlowing in DisruptionColours && p.noPower in DisruptionColours
    ensures p.insufficientPower in DisruptionColours
  {
    Palette(DisruptionColours[flowing], DisruptionColours[noPower], DisruptionColours[insufficient])
  }

  /** Every palette made of the three disruption colours is one a pass can
      draw, so the disruption reaches every such palette. */
  lemma EveryDisruptionPaletteIsDrawn(p: Palette)
    requires p.powerFlowing in DisruptionColours && p.noPower in DisruptionColours
    requires p.insufficientPower in DisruptionColours
    ensures exists i, j, k :: i < 3 && j < 3 && k < 3 && DisruptedPalette(i, j, k) == p
  {
    var i :| 0 <= i < 3 && DisruptionColours[i] == p.powerFlowing;
    var j :| 0 <= j < 3 && DisruptionColours[j] == p.noPower;
    var k :| 0 <= k < 3 && DisruptionColours[k] == p.insufficientPower;
    assert DisruptedPalette(i, j, k) == p;
  }

  class CyberAttack {
    /** Whether powerVisualiser is set. */
    var hasVisualiser: bool
    var powerSystemManager: PowerSystemManager?
    var visualDisruptionActive: bool
    /** The visualiser's colours, and those Start recorded. */
    var palette: Palette
    var originalPalette: Palette
    var activeAttacks: Flags
    var manipulatedTurbines: set<Turbine>

    ghost function Manager(): set<PowerSystemManager>
      reads this`powerSystemManager
    {
      if powerSystemManager == null then {} else {powerSystemManager}
    }

    /** Every node whose visualisation the monitoring attack switches. */
    ghost function Nodes(): set<PowerComponentBase>
      reads this`powerSystemManager
    {
      if powerSystemManager == null then {} else NodesOf(powerSystemManager)
    }

    /** The turbines of the manager's list. */
    ghost function Fleet(): set<Turbine>
      reads this`powerSystemManager
    {
      if powerSystemManager == null then {} else set t: Turbine | t in powerSystemManager.turbines
    }

    /** The dictionary's entry for the visual disruption agrees with its
        own flag. */
    predicate Consistent()
      reads this`activeAttacks, this`visualDisruptionActive
    {
      VisualDisruptionName in activeAttacks && activeAttacks[VisualDisruptionName] == visualDisruptionActive
    }

    /** The fields' initial values; the visualiser shows `colours`. */
    constructor (visualiser: bool, manager: PowerSystemManager?, colours: Palette)
      ensures hasVisualiser == visualiser && powerSystemManager == manager
      ensures !visualDisruptionActive && palette == colours && originalPalette == Palette(Clear, Clear, Clear)
      ensures activeAttacks == map[] && manipulatedTurbines == {}
    {
      hasVisualiser := visualiser;
      powerSystemManager := manager;
      visualDisruptionActive := false;
      palette := colours;
      originalPalette := Palette(Clear, Clear, Clear);
      activeAttacks := map[];
      manipulatedTurbines := {};
    }

    /** Start: the visualiser's colours recorded, and the four attacks
        entered in the dictionary as off; other entries stay as they were. */
    method Start()
      modifies this`originalPalette, this`activeAttacks
      ensures originalPalette == if hasVisualiser then palette else old(originalPalette)
      ensures activeAttacks.Keys == old(activeAttacks).Keys + set n | n in AttackNames
      ensures forall n :: n in activeAttacks ==> activeAttacks[n] == (n !in AttackNames && old(activeAttacks)[n])
      ensures Consistent() <==> !visualDisruptionActive
    {
      if hasVisualiser {
        originalPalette := palette;
      }
      Locked.NamesDiffer();
      activeAttacks := activeAttacks[VisualDisruptionName := false];
      activeAttacks := activeAttacks[SafetyOverrideName := false];
      activeAttacks := activeAttacks[MonitoringDisruptionName := false];
      activeAttacks := activeAttacks[PowerGenerationName := false];
    }

    /** ToggleVisualDisruptionAttack: nothing without a visualiser; else
        the flag flips and the dictionary follows it. Starting runs the
        coroutine's first pass at once, as StartCoroutine does, so the
        palette is scrambled with the given draws; stopping puts back the
        colours Start recorded. */
    method ToggleVisualDisruptionAttack(flowing: nat, noPower: nat, insufficient: nat)
      requires flowing < |DisruptionColours| && noPower < |DisruptionColours| && insufficient < |DisruptionColours|
      modifies this`visualDisruptionActive, this`activeAttacks, this`palette
      ensures !hasVisualiser ==> unchanged(this)
      ensures hasVisualiser ==> visualDisruptionActive == !old(visualDisruptionActive)
      ensures hasVisualiser ==> activeAttacks == old(activeAttacks)[VisualDisruptionName := visualDisruptionActive]
      ensures hasVisualiser ==> Consistent()
      ensures hasVisualiser ==>
                palette == if visualDisruptionActive then DisruptedPalette(flowing, noPower, insufficient) else originalPalette
    {
      if !hasVisualiser {
        return;
      }
      visualDisruptionActive := !visualDisruptionActive;
      if visualDisruptionActive {
        VisualDisruptionCycle(flowing, noPower, insufficient);
        activeAttacks := activeAttacks[VisualDisruptionName := true];
      } else {
        palette := originalPalette;
        activeAttacks := activeAttacks[VisualDisruptionName := false];
      }
    }

    /** One pass of the VisualDisruptionAttack coroutine, which runs while
        the flag is set: three colours drawn from the disruption colours. */
    method VisualDisruptionCycle(flowing: nat, noPower: nat, insufficient: nat)
      requires hasVisualiser && visualDisruptionActive
      requires flowing < |DisruptionColours| && noPower < |DisruptionColours| && insufficient < |DisruptionColours|
      modifies this`palette
      ensures palette == DisruptedPalette(flowing, noPower, insufficient)
    {
      palette := Palette(DisruptionColours[flowing], DisruptionColours[noPower], DisruptionColours[insufficient]);
    }

    /** ToggleSafetyOverrideAttack: only its own entry flips; nothing
        without a manager. Reading the entry before Start would throw. */
    method ToggleSafetyOverrideAttack()
      requires powerSystemManager != null ==> SafetyOverrideName in activeAttacks
      modifies this`activeAttacks
      ensures activeAttacks == if powerSystemManager == null then old(activeAttacks)
                               else ToggleNamed(old(activeAttacks), SafetyOverrideName, false)
    {
      if powerSystemManager == null {
        return;
      }
      var isActive := activeAttacks[SafetyOverrideName];
      activeAttacks := activeAttacks[SafetyOverrideName := !isActive];
    }

    /** ToggleComponentVisualisation: the turbines, the single nodes and
        the consumers. The inverter's switch does not exist, so it is
        skipped. */
    method ToggleComponentVisualisation(enabled: bool)
      requires powerSystemManager != null
      modifies Nodes()`visualisationEnabled
      ensures AllShow(powerSystemManager, enabled)
    {
      var m := powerSystemManager;
      ShowTurbines(m, enabled);
      ShowSingles(m, enabled);
      ShowConsumers(m, enabled);
    }

    /** ToggleMonitoringDisruptionAttack: needs the manager and the
        visualiser; its entry flips, and monitoring and every node's
        visualisation are set to the opposite of it. */
    method ToggleMonitoringDisruptionAttack()
      requires powerSystemManager != null && hasVisualiser ==> MonitoringDisruptionName in activeAttacks
      modifies this`activeAttacks, Manager()`debugMode, Nodes()`visualisationEnabled
      ensures powerSystemManager == null || !hasVisualiser ==>
                activeAttacks == old(activeAttacks) && unchanged(Manager()) && unchanged(Nodes())
      ensures powerSystemManager != null && hasVisualiser ==>
                && activeAttacks == ToggleNamed(old(activeAttacks), MonitoringDisruptionName, false)
                && powerSystemManager.debugMode == !activeAttacks[MonitoringDisruptionName]
                && AllShow(powerSystemManager, !activeAttacks[MonitoringDisruptionName])
    {
      if powerSystemManager == null || !hasVisualiser {
        return;
      }
      var isActive := activeAttacks[MonitoringDisruptionName];
      activeAttacks := activeAttacks[MonitoringDisruptionName := !isActive];
      powerSystemManager.debugMode := isActive;
      ToggleComponentVisualisation(isActive);
    }

    /** TogglePowerGenerationAttack: needs the manager; its entry flips.
        Starting runs the coroutine's first pass at once, as StartCoroutine
        does, with the given draws; stopping returns every turbine to
        automatic and empties the set. */
    method TogglePowerGenerationAttack(draws: seq<Draw>)
      requires powerSystemManager != null ==> PowerGenerationName in activeAttacks
      requires powerSystemManager != null ==> |draws| == |powerSystemManager.turbines|
      requires powerSystemManager != null ==>
                 forall i :: 0 <= i < |draws| && powerSystemManager.turbines[i] != null ==>
                   InSpeedRange(draws[i].speed, powerSystemManager.turbines[i].maxSpeed)
      modifies this`activeAttacks, this`manipulatedTurbines, Fleet()`manualControl, Fleet()`manualWindSpeed
      ensures powerSystemManager == null ==>
                activeAttacks == old(activeAttacks) && manipulatedTurbines == old(manipulatedTurbines)
      ensures powerSystemManager != null ==> activeAttacks == ToggleNamed(old(activeAttacks), PowerGenerationName, false)
      ensures powerSystemManager != null && activeAttacks[PowerGenerationName] ==>
                && manipulatedTurbines == Picked(powerSystemManager.turbines, draws)
                && (forall i :: 0 <= i < |draws| && powerSystemManager.turbines[i] != null && draws[i].picked ==>
                      && powerSystemManager.turbines[i].manualControl
                      && InSpeedRange(powerSystemManager.turbines[i].manualWindSpeed, powerSystemManager.turbines[i].maxSpeed))
                && forall t :: t in Fleet() && t !in manipulatedTurbines ==> t.GetControls() == old(t.GetControls())
      ensures powerSystemManager != null && !activeAttacks[PowerGenerationName] ==>
                && manipulatedTurbines == {}
                && forall i :: 0 <= i < |powerSystemManager.turbines| && powerSystemManager.turbines[i] != null ==>
                     powerSystemManager.turbines[i].GetControls() ==
                       Toggle(old(powerSystemManager.turbines[i].GetControls()), false, 0.0)
    {
      if powerSystemManager == null {
        return;
      }
      var isActive := activeAttacks[PowerGenerationName];
      activeAttacks := activeAttacks[PowerGenerationName := !isActive];
      if !isActive {
        var _ := ManipulationCycle(draws);
      } else {
        powerSystemManager.ResetTurbinesToAutomatic();
        manipulatedTurbines := {};
      }
    }

    /** One pass of the RandomTurbineManipulation coroutine, which runs
        while the entry is set: the set becomes the picked turbines, each
        manual at a speed in range, and a turbine not picked keeps its
        controls. The result is the set of turbines whose connection is
        redrawn, none without a visualiser. */
    method ManipulationCycle(draws: seq<Draw>) returns (redrawn: set<Turbine>)
      requires powerSystemManager != null
      requires PowerGenerationName in activeAttacks && activeAttacks[PowerGenerationName]
      requires |draws| == |powerSystemManager.turbines|
      requires forall i :: 0 <= i < |draws| && powerSystemManager.turbines[i] != null ==>
                 InSpeedRange(draws[i].speed, powerSystemManager.turbines[i].maxSpeed)
      modifies this`manipulatedTurbines, Fleet()`manualControl, Fleet()`manualWindSpeed
      ensures manipulatedTurbines == Picked(powerSystemManager.turbines, draws)
      ensures forall i :: 0 <= i < |draws| && powerSystemManager.turbines[i] != null && draws[i].picked ==>
                && powerSystemManager.turbines[i].manualControl
                && InSpeedRange(powerSystemManager.turbines[i].manualWindSpeed, powerSystemManager.turbines[i].maxSpeed)
      ensures forall t :: t in Fleet() && t !in manipulatedTurbines ==> t.GetControls() == old(t.GetControls())
      ensures redrawn == if hasVisualiser then Changed(old(manipulatedTurbines), manipulatedTurbines) else {}
    {
      var turbines := powerSystemManager.turbines;
      var previouslyManipulatedTurbines := manipulatedTurbines;
      manipulatedTurbines := {};
      var i := 0;
      while i < |turbines|
        invariant 0 <= i <= |turbines|
        invariant manipulatedTurbines == Picked(turbines[..i], draws[..i])
        invariant forall k :: 0 <= k < i && turbines[k] != null && draws[k].picked ==>
                    turbines[k].manualControl && InSpeedRange(turbines[k].manualWindSpeed, turbines[k].maxSpeed)
        invariant forall t :: t in Fleet() && t !in manipulatedTurbines ==> t.GetControls() == old(t.GetControls())
      {
        PickedStep(turbines, draws, i);
        var turbine := turbines[i];
        if turbine != null && draws[i].picked {
          var randomSpeed := draws[i].speed;
          if draws[i].zeroed {
            randomSpeed := 0.0;
          }
          turbine.ToggleManualControl(true, randomSpeed);
          manipulatedTurbines := manipulatedTurbines + {turbine};
        }
        i := i + 1;
      }
      assert turbines[..i] == turbines && draws[..i] == draws;
      redrawn := {};
      if hasVisualiser {
        redrawn := ChangedTurbines(previouslyManipulatedTurbines, manipulatedTurbines);
      }
    }

    /** IsTurbineManipulated: plain membership, whatever the entry. */
    function IsTurbineManipulated(turbine: Turbine): (manipulated: bool)
      reads this`manipulatedTurbines
      ensures manipulated <==> turbine in manipulatedTurbines
    {
      turbine in manipulatedTurbines
    }
  }
}
