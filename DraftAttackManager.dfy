/** The earlier attack manager (CyberAttackManager.cs at the top of the
    scripts): five attacks, the safety override among them, and no engage
    lock, so every ToggleAttack by a known name goes through. Buttons and
    their labels are drawing only. */
module DraftAttackManager {
  import opened ComponentBase
  import opened Turbines
  import opened Transformers
  import opened PowerSystem
  import opened StatusIndicators
  import opened AttackEngine
  import opened VisualDisruption
  import opened MonitoringDisruption
  import opened PowerGeneration
  import opened Substation
  import opened SafetyOverride
  import Locked = AttackManager

  /** CreateAttacks' keys, in the order they are added. */
  const Registry: seq<string> :=
    [VisualDisruptionName, SafetyOverrideName, MonitoringDisruptionName, PowerGenerationName, SubstationName]

  /** The registry holds five distinct names, the safety override among
      them. */
  lemma RegistryHasFiveAttacks()
    ensures |set n | n in Registry| == 5
    ensures SafetyOverrideName in Registry
  {
    Locked.NamesDiffer();
    assert (set n | n in Registry) ==
           {VisualDisruptionName, SafetyOverrideName, MonitoringDisruptionName, PowerGenerationName, SubstationName};
  }

  /** The registry's flags, one per attack. */
  function FlagsOf(visual: bool, safety: bool, monitoring: bool, generation: bool, substation: bool): (f: Flags)
    ensures f.Keys == set n | n in Registry
  {
    Flags5(VisualDisruptionName, SafetyOverrideName, MonitoringDisruptionName, PowerGenerationName, SubstationName,
           visual, safety, monitoring, generation, substation)
  }

  /** Toggling one attack by name in the registry's flags: its flag flips
      unless the start is refused, and the other four stay. */
  lemma ToggleVisualFlag(v: bool, o: bool, m: bool, p: bool, s: bool, refused: bool)
    ensures ToggleNamed(FlagsOf(v, o, m, p, s), VisualDisruptionName, refused) == FlagsOf(!v && !refused, o, m, p, s)
  {
    Locked.NamesDiffer();
    SetFlags5A(VisualDisruptionName, SafetyOverrideName, MonitoringDisruptionName, PowerGenerationName, SubstationName,
                v, o, m, p, s, !v && !refused);
  }

  lemma ToggleSafetyFlag(v: bool, o: bool, m: bool, p: bool, s: bool, refused: bool)
    ensures ToggleNamed(FlagsOf(v, o, m, p, s), SafetyOverrideName, refused) == FlagsOf(v, !o && !refused, m, p, s)
  {
    Locked.NamesDiffer();
    SetFlags5B(VisualDisruptionName, SafetyOverrideName, MonitoringDisruptionName, PowerGenerationName, SubstationName,
                v, o, m, p, s, !o && !refused);
  }

  lemma ToggleMonitoringFlag(v: bool, o: bool, m: bool, p: bool, s: bool, refused: bool)
    ensures ToggleNamed(FlagsOf(v, o, m, p, s), MonitoringDisruptionName, refused) == FlagsOf(v, o, !m && !refused, p, s)
  {
    Locked.NamesDiffer();
    SetFlags5C(VisualDisruptionName, SafetyOverrideName, MonitoringDisruptionName, PowerGenerationName, SubstationName,
                v, o, m, p, s, !m && !refused);
  }

  lemma ToggleGenerationFlag(v: bool, o: bool, m: bool, p: bool, s: bool, refused: bool)
    ensures ToggleNamed(FlagsOf(v, o, m, p, s), PowerGenerationName, refused) == FlagsOf(v, o, m, !p && !refused, s)
  {
    Locked.NamesDiffer();
    SetFlags5D(VisualDisruptionName, SafetyOverrideName, MonitoringDisruptionName, PowerGenerationName, SubstationName,
                v, o, m, p, s, !p && !refused);
  }

  lemma ToggleSubstationFlag(v: bool, o: bool, m: bool, p: bool, s: bool, refused: bool)
    ensures ToggleNamed(FlagsOf(v, o, m, p, s), SubstationName, refused) == FlagsOf(v, o, m, p, !s && !refused)
  {
    Locked.NamesDiffer();
    SetFlags5E(VisualDisruptionName, SafetyOverrideName, MonitoringDisruptionName, PowerGenerationName, SubstationName,
                v, o, m, p, s, !s && !refused);
  }

  class CyberAttackManager {
    var powerSystemManager: PowerSystemManager?
    var powerStatusIconManager: PowerStatusIndicatorManager?
    const visualDisruption: VisualDisruptionAttack
    const safetyOverride: SafetyOverrideAttack
    const monitoringDisruption: MonitoringDisruptionAttack
    const powerGeneration: PowerGenerationAttack
    const substation: SubstationAttack

    /** The five attacks have five distinct flags. */
    ghost predicate Valid()
    {
      && visualDisruption.base != safetyOverride.base
      && visualDisruption.base != monitoringDisruption.base
      && visualDisruption.base != powerGeneration.base
      && visualDisruption.base != substation.base
      && safetyOverride.base != monitoringDisruption.base
      && safetyOverride.base != powerGeneration.base
      && safetyOverride.base != substation.base
      && monitoringDisruption.base != powerGeneration.base
      && monitoringDisruption.base != substation.base
      && powerGeneration.base != substation.base
    }

    /** Each registered attack's IsActive, by name. */
    function Flags(): (f: Flags)
      reads visualDisruption.base`isActive, safetyOverride.base`isActive, monitoringDisruption.base`isActive
      reads powerGeneration.base`isActive, substation.base`isActive
      ensures f.Keys == set n | n in Registry
    {
      FlagsOf(visualDisruption.base.isActive, safetyOverride.base.isActive, monitoringDisruption.base.isActive,
              powerGeneration.base.isActive, substation.base.isActive)
    }

    /** Whether starting the named attack would be refused. */
    predicate Refused(name: string)
      reads substation`targetTransformer
    {
      name == SubstationName && substation.targetTransformer == null
    }

    /** Awake: CreateAttacks, every attack off. */
    constructor (systemManager: PowerSystemManager?, indicator: PowerStatusIndicatorManager?)
      ensures Valid() && Flags() == AllOff(Registry)
      ensures powerSystemManager == systemManager && powerStatusIconManager == indicator
      ensures visualDisruption.statusIndicator == indicator && monitoringDisruption.powerStatusIndicator == indicator
      ensures fresh(visualDisruption) && fresh(visualDisruption.base) && fresh(safetyOverride)
      ensures fresh(safetyOverride.base) && fresh(monitoringDisruption) && fresh(monitoringDisruption.base)
      ensures fresh(powerGeneration) && fresh(powerGeneration.base) && fresh(substation) && fresh(substation.base)
    {
      powerSystemManager := systemManager;
      powerStatusIconManager := indicator;
      var visual := new VisualDisruptionAttack();
      visual.SetPowerStatusIndicator(indicator);
      visualDisruption := visual;
      safetyOverride := new SafetyOverrideAttack();
      monitoringDisruption := new MonitoringDisruptionAttack(indicator);
      powerGeneration := new PowerGenerationAttack();
      substation := new SubstationAttack();
      new;
      assert Flags() == AllOff(Registry);
    }

    /** Start: every attack initialised with the visualiser and the
        manager; the substation attack finds its transformer. */
    method Start(visualiser: bool)
      modifies visualDisruption.base`hasVisualiser, visualDisruption.base`powerSystemManager
      modifies safetyOverride.base`hasVisualiser, safetyOverride.base`powerSystemManager
      modifies monitoringDisruption.base`hasVisualiser, monitoringDisruption.base`powerSystemManager
      modifies powerGeneration.base`hasVisualiser, powerGeneration.base`powerSystemManager
      modifies substation.base`hasVisualiser, substation.base`powerSystemManager, substation`targetTransformer
      ensures visualDisruption.base.hasVisualiser == visualiser && visualDisruption.base.powerSystemManager == powerSystemManager
      ensures safetyOverride.base.hasVisualiser == visualiser && safetyOverride.base.powerSystemManager == powerSystemManager
      ensures monitoringDisruption.base.hasVisualiser == visualiser && monitoringDisruption.base.powerSystemManager == powerSystemManager
      ensures powerGeneration.base.hasVisualiser == visualiser && powerGeneration.base.powerSystemManager == powerSystemManager
      ensures substation.base.hasVisualiser == visualiser && substation.base.powerSystemManager == powerSystemManager
      ensures substation.targetTransformer ==
                if powerSystemManager != null && powerSystemManager.transformer != null then powerSystemManager.transformer
                else old(substation.targetTransformer)
    {
      visualDisruption.Initialise(visualiser, powerSystemManager);
      safetyOverride.base.Initialise(visualiser, powerSystemManager);
      monitoringDisruption.base.Initialise(visualiser, powerSystemManager);
      powerGeneration.base.Initialise(visualiser, powerSystemManager);
      substation.Initialise(visualiser, powerSystemManager);
    }

    method ToggleVisualDisruption()
      requires Valid()
      modifies visualDisruption.base`isActive
      modifies visualDisruption.Indicator()`lastStatus, visualDisruption.Indicator()`consumerIcons
      ensures Flags() == ToggleNamed(old(Flags()), VisualDisruptionName, false)
    {
      ghost var v, o, m, p, s := visualDisruption.base.isActive, safetyOverride.base.isActive, monitoringDisruption.base.isActive,
                                 powerGeneration.base.isActive, substation.base.isActive;
      ToggleVisualFlag(v, o, m, p, s, false);
      visualDisruption.ToggleAttack();
    }

    method ToggleSafetyOverride()
      requires Valid()
      modifies safetyOverride.base`isActive
      ensures Flags() == ToggleNamed(old(Flags()), SafetyOverrideName, false)
    {
      ghost var v, o, m, p, s := visualDisruption.base.isActive, safetyOverride.base.isActive, monitoringDisruption.base.isActive,
                                 powerGeneration.base.isActive, substation.base.isActive;
      ToggleSafetyFlag(v, o, m, p, s, false);
      safetyOverride.ToggleAttack();
    }

    method ToggleMonitoringDisruption()
      requires Valid()
      modifies monitoringDisruption.base`isActive
      modifies monitoringDisruption.Manager()`debugMode, monitoringDisruption.Nodes()`visualisationEnabled
      modifies monitoringDisruption.Indicator()`active, monitoringDisruption.Indicator()`lastStatus
      modifies monitoringDisruption.Indicator()`consumerIcons
      ensures Flags() == ToggleNamed(old(Flags()), MonitoringDisruptionName, false)
    {
      ghost var v, o, m, p, s := visualDisruption.base.isActive, safetyOverride.base.isActive, monitoringDisruption.base.isActive,
                                 powerGeneration.base.isActive, substation.base.isActive;
      ToggleMonitoringFlag(v, o, m, p, s, false);
      monitoringDisruption.ToggleAttack();
    }

    method TogglePowerGeneration()
      requires Valid()
      modifies powerGeneration.base`isActive, powerGeneration`manipulatedTurbines
      modifies powerGeneration.Fleet()`manualControl, powerGeneration.Fleet()`manualWindSpeed
      ensures Flags() == ToggleNamed(old(Flags()), PowerGenerationName, false)
    {
      ghost var v, o, m, p, s := visualDisruption.base.isActive, safetyOverride.base.isActive, monitoringDisruption.base.isActive,
                                 powerGeneration.base.isActive, substation.base.isActive;
      ToggleGenerationFlag(v, o, m, p, s, false);
      powerGeneration.ToggleAttack();
    }

    method ToggleSubstation()
      requires Valid()
      modifies substation.base`isActive, substation`originalOperationalState, substation`isUnderAttack
      modifies (if substation.targetTransformer == null then {} else {substation.targetTransformer.base})`isOperational
      modifies (if substation.targetTransformer == null then {} else {substation.targetTransformer.base})`visualisationEnabled
      ensures Flags() == ToggleNamed(old(Flags()), SubstationName, old(substation.targetTransformer) == null)
    {
      ghost var v, o, m, p, s := visualDisruption.base.isActive, safetyOverride.base.isActive, monitoringDisruption.base.isActive,
                                 powerGeneration.base.isActive, substation.base.isActive;
      ToggleSubstationFlag(v, o, m, p, s, substation.targetTransformer == null);
      substation.ToggleAttack();
    }

    /** ToggleAttack: the named attack, and only it, with no lock; an
        unknown name changes nothing. */
    method ToggleAttack(attackName: string)
      requires Valid()
      modifies (if attackName == VisualDisruptionName then {visualDisruption.base} else {})`isActive
      modifies (if attackName == VisualDisruptionName then visualDisruption.Indicator() else {})`lastStatus
      modifies (if attackName == VisualDisruptionName then visualDisruption.Indicator() else {})`consumerIcons
      modifies (if attackName == SafetyOverrideName then {safetyOverride.base} else {})`isActive
      modifies (if attackName == MonitoringDisruptionName then {monitoringDisruption.base} else {})`isActive
      modifies (if attackName == MonitoringDisruptionName then monitoringDisruption.Manager() else {})`debugMode
      modifies (if attackName == MonitoringDisruptionName then monitoringDisruption.Nodes() else {})`visualisationEnabled
      modifies (if attackName == MonitoringDisruptionName then monitoringDisruption.Indicator() else {})`active
      modifies (if attackName == MonitoringDisruptionName then monitoringDisruption.Indicator() else {})`lastStatus
      modifies (if attackName == MonitoringDisruptionName then monitoringDisruption.Indicator() else {})`consumerIcons
      modifies (if attackName == PowerGenerationName then {powerGeneration.base} else {})`isActive
      modifies (if attackName == PowerGenerationName then {powerGeneration} else {})`manipulatedTurbines
      modifies (if attackName == PowerGenerationName then powerGeneration.Fleet() else {})`manualControl
      modifies (if attackName == PowerGenerationName then powerGeneration.Fleet() else {})`manualWindSpeed
      modifies (if attackName == SubstationName then {substation.base} else {})`isActive
      modifies (if attackName == SubstationName then {substation} else {})`originalOperationalState
      modifies (if attackName == SubstationName then {substation} else {})`isUnderAttack
      modifies (if attackName == SubstationName then (if substation.targetTransformer == null then {} else {substation.targetTransformer.base}) else {})`isOperational
      modifies (if attackName == SubstationName then (if substation.targetTransformer == null then {} else {substation.targetTransformer.base}) else {})`visualisationEnabled
      ensures Flags() == ToggleNamed(old(Flags()), attackName, old(Refused(attackName)))
    {
      Locked.NamesDiffer();
      if attackName == VisualDisruptionName {
        ToggleVisualDisruption();
      } else if attackName == SafetyOverrideName {
        ToggleSafetyOverride();
      } else if attackName == MonitoringDisruptionName {
        ToggleMonitoringDisruption();
      } else if attackName == PowerGenerationName {
        TogglePowerGeneration();
      } else if attackName == SubstationName {
        ToggleSubstation();
      } else {
        assert attackName !in Flags();
      }
    }

    /** IsTurbineManipulated: only while the power-generation attack is
        active, and then its own membership test. */
    function IsTurbineManipulated(turbine: Turbine): (manipulated: bool)
      reads powerGeneration.base`isActive, powerGeneration`manipulatedTurbines
      ensures manipulated <==> powerGeneration.base.isActive && turbine in powerGeneration.manipulatedTurbines
    {
      powerGeneration.base.isActive && powerGeneration.IsTurbineManipulated(turbine)
    }
  }
}
