/** The attack manager (Attacks/CyberAttackManager.cs): a registry of four
    attacks keyed by name, an engage lock that starts locked, toggling by
    name while engaged, and switching every active attack off when
    disengaged. Buttons and their colours are drawing only. The registry's
    values are the four concrete attacks, held here one field each; the
    dictionary's lookup is the dispatch on the name. */
module AttackManager {
  import opened ComponentBase
  import opened Turbines
  import opened Transformers
  import opened PowerSystem
  import opened StatusIndicators
  import opened AttackEngine
  import opened VisualDisruption
  import opened MonitoringDisruption
  import opened PowerGeneration
  import opened Substation
  import opened SafetyOverride

  /** CreateAttacks' keys, in the order they are added. */
  const Registry: seq<string> := [VisualDisruptionName, MonitoringDisruptionName, PowerGenerationName, SubstationName]

  /** The attacks' names differ pairwise. */
  lemma NamesDiffer()
    ensures VisualDisruptionName != MonitoringDisruptionName && VisualDisruptionName != PowerGenerationName
    ensures VisualDisruptionName != SubstationName && MonitoringDisruptionName != PowerGenerationName
    ensures MonitoringDisruptionName != SubstationName && PowerGenerationName != SubstationName
    ensures SafetyOverrideName != VisualDisruptionName && SafetyOverrideName != MonitoringDisruptionName
    ensures SafetyOverrideName != PowerGenerationName && SafetyOverrideName != SubstationName
  {
    assert VisualDisruptionName[0] == 'V' && MonitoringDisruptionName[0] == 'M';
    assert PowerGenerationName[0] == 'P' && SubstationName[0] == 'S';
    assert SafetyOverrideName[0] == 'S' && SafetyOverrideName[1] == 'a' && SubstationName[1] == 'u';
  }

  /** The registry holds four distinct names and no safety override. */
  lemma RegistryHasFourAttacks()
    ensures |set n | n in Registry| == 4
    ensures SafetyOverrideName !in Registry
  {
    NamesDiffer();
    assert (set n | n in Registry) == {VisualDisruptionName, MonitoringDisruptionName, PowerGenerationName, SubstationName};
  }

  /** The registry's flags, one per attack. */
  function FlagsOf(visual: bool, monitoring: bool, generation: bool, substation: bool): (f: Flags)
    ensures f.Keys == set n | n in Registry
  {
    Flags4(VisualDisruptionName, MonitoringDisruptionName, PowerGenerationName, SubstationName,
           visual, monitoring, generation, substation)
  }

  /** Toggling one attack by name in the registry's flags: its flag flips
      unless the start is refused, and the other three stay. */
  lemma ToggleVisualFlag(v: bool, m: bool, p: bool, s: bool, refused: bool)
    ensures ToggleNamed(FlagsOf(v, m, p, s), VisualDisruptionName, refused) == FlagsOf(!v && !refused, m, p, s)
  {
    NamesDiffer();
    SetFlags4A(VisualDisruptionName, MonitoringDisruptionName, PowerGenerationName, SubstationName, v, m, p, s, !v && !refused);
  }

  lemma ToggleMonitoringFlag(v: bool, m: bool, p: bool, s: bool, refused: bool)
    ensures ToggleNamed(FlagsOf(v, m, p, s), MonitoringDisruptionName, refused) == FlagsOf(v, !m && !refused, p, s)
  {
    NamesDiffer();
    SetFlags4B(VisualDisruptionName, MonitoringDisruptionName, PowerGenerationName, SubstationName, v, m, p, s, !m && !refused);
  }

  lemma ToggleGenerationFlag(v: bool, m: bool, p: bool, s: bool, refused: bool)
    ensures ToggleNamed(FlagsOf(v, m, p, s), PowerGenerationName, refused) == FlagsOf(v, m, !p && !refused, s)
  {
    NamesDiffer();
    SetFlags4C(VisualDisruptionName, MonitoringDisruptionName, PowerGenerationName, SubstationName, v, m, p, s, !p && !refused);
  }

  lemma ToggleSubstationFlag(v: bool, m: bool, p: bool, s: bool, refused: bool)
    ensures ToggleNamed(FlagsOf(v, m, p, s), SubstationName, refused) == FlagsOf(v, m, p, !s && !refused)
  {
    NamesDiffer();
    SetFlags4D(VisualDisruptionName, MonitoringDisruptionName, PowerGenerationName, SubstationName, v, m, p, s, !s && !refused);
  }

  class CyberAttackManager {
    var powerSystemManager: PowerSystemManager?
    var powerStatusIconManager: PowerStatusIndicatorManager?
    const visualDisruption: VisualDisruptionAttack
    const monitoringDisruption: MonitoringDisruptionAttack
    const powerGeneration: PowerGenerationAttack
    const substation: SubstationAttack
    /** The lock: attacks can be toggled only while it is set. */
    var engageAttacks: bool

    /** The four attacks have four distinct flags. */
    ghost predicate Valid()
    {
      && visualDisruption.base != monitoringDisruption.base
      && visualDisruption.base != powerGeneration.base
      && visualDisruption.base != substation.base
      && monitoringDisruption.base != powerGeneration.base
      && monitoringDisruption.base != substation.base
      && powerGeneration.base != substation.base
    }

    /** Each registered attack's IsActive, by name. */
    function Flags(): (f: Flags)
      reads visualDisruption.base`isActive, monitoringDisruption.base`isActive
      reads powerGeneration.base`isActive, substation.base`isActive
      ensures f.Keys == set n | n in Registry
    {
      FlagsOf(visualDisruption.base.isActive, monitoringDisruption.base.isActive,
              powerGeneration.base.isActive, substation.base.isActive)
    }

    function GetEngine(): Engine
      reads this`engageAttacks
      reads visualDisruption.base`isActive, monitoringDisruption.base`isActive
      reads powerGeneration.base`isActive, substation.base`isActive
    {
      Engine(engageAttacks, Flags())
    }

    /** Whether starting the named attack would be refused. */
    predicate Refused(name: string)
      reads substation`targetTransformer
    {
      name == SubstationName && substation.targetTransformer == null
    }

    /** Awake: CreateAttacks; the manager starts locked with every attack
        off. */
    constructor (systemManager: PowerSystemManager?, indicator: PowerStatusIndicatorManager?)
      ensures Valid() && GetEngine() == Engine(false, AllOff(Registry))
      ensures powerSystemManager == systemManager && powerStatusIconManager == indicator
      ensures visualDisruption.statusIndicator == indicator && monitoringDisruption.powerStatusIndicator == indicator
      ensures fresh(visualDisruption) && fresh(visualDisruption.base) && fresh(monitoringDisruption)
      ensures fresh(monitoringDisruption.base) && fresh(powerGeneration) && fresh(powerGeneration.base)
      ensures fresh(substation) && fresh(substation.base)
    {
      powerSystemManager := systemManager;
      powerStatusIconManager := indicator;
      var visual := new VisualDisruptionAttack();
      visual.SetPowerStatusIndicator(indicator);
      visualDisruption := visual;
      monitoringDisruption := new MonitoringDisruptionAttack(indicator);
      powerGeneration := new PowerGenerationAttack();
      substation := new SubstationAttack();
      engageAttacks := false;
      new;
      assert Flags() == AllOff(Registry);
    }

    /** Start: every attack initialised with the visualiser and the
        manager; the substation attack finds its transformer. */
    method Start(visualiser: bool)
      modifies visualDisruption.base`hasVisualiser, visualDisruption.base`powerSystemManager
      modifies monitoringDisruption.base`hasVisualiser, monitoringDisruption.base`powerSystemManager
      modifies powerGeneration.base`hasVisualiser, powerGeneration.base`powerSystemManager
      modifies substation.base`hasVisualiser, substation.base`powerSystemManager, substation`targetTransformer
      ensures visualDisruption.base.hasVisualiser == visualiser && visualDisruption.base.powerSystemManager == powerSystemManager
      ensures monitoringDisruption.base.hasVisualiser == visualiser && monitoringDisruption.base.powerSystemManager == powerSystemManager
      ensures powerGeneration.base.hasVisualiser == visualiser && powerGeneration.base.powerSystemManager == powerSystemManager
      ensures substation.base.hasVisualiser == visualiser && substation.base.powerSystemManager == powerSystemManager
      ensures substation.targetTransformer ==
                if powerSystemManager != null && powerSystemManager.transformer != null then powerSystemManager.transformer
                else old(substation.targetTransformer)
    {
      visualDisruption.Initialise(visualiser, powerSystemManager);
      monitoringDisruption.base.Initialise(visualiser, powerSystemManager);
      powerGeneration.base.Initialise(visualiser, powerSystemManager);
      substation.Initialise(visualiser, powerSystemManager);
    }

    /** What the attacks' frames are computed from: the overlays, the
        managers the monitoring and generation attacks were given, and the
        substation's target. No toggle changes any of them. */
    ghost function Frames(): (PowerStatusIndicatorManager?, (PowerStatusIndicatorManager?, PowerSystemManager?),
                              PowerSystemManager?, Transformer?)
      reads visualDisruption`statusIndicator, monitoringDisruption`powerStatusIndicator
      reads monitoringDisruption.base`powerSystemManager, powerGeneration.base`powerSystemManager
      reads substation`targetTransformer
    {
      (visualDisruption.statusIndicator, monitoringDisruption.Frame(), powerGeneration.base.powerSystemManager,
       substation.targetTransformer)
    }

    method ToggleVisualDisruption()
      requires Valid()
      modifies visualDisruption.base`isActive
      modifies visualDisruption.Indicator()`lastStatus, visualDisruption.Indicator()`consumerIcons
      ensures Flags() == ToggleNamed(old(Flags()), VisualDisruptionName, false)
      ensures Frames() == old(Frames())
    {
      ghost var v, m, p, s := visualDisruption.base.isActive, monitoringDisruption.base.isActive,
                              powerGeneration.base.isActive, substation.base.isActive;
      ToggleVisualFlag(v, m, p, s, false);
      visualDisruption.ToggleAttack();
    }

    method ToggleMonitoringDisruption()
      requires Valid()
      modifies monitoringDisruption.base`isActive
      modifies monitoringDisruption.Manager()`debugMode, monitoringDisruption.Nodes()`visualisationEnabled
      modifies monitoringDisruption.Indicator()`active, monitoringDisruption.Indicator()`lastStatus
      modifies monitoringDisruption.Indicator()`consumerIcons
      ensures Flags() == ToggleNamed(old(Flags()), MonitoringDisruptionName, false)
      ensures Frames() == old(Frames())
    {
      ghost var v, m, p, s := visualDisruption.base.isActive, monitoringDisruption.base.isActive,
                              powerGeneration.base.isActive, substation.base.isActive;
      ToggleMonitoringFlag(v, m, p, s, false);
      monitoringDisruption.ToggleAttack();
    }

    method TogglePowerGeneration()
      requires Valid()
      modifies powerGeneration.base`isActive, powerGeneration`manipulatedTurbines
      modifies powerGeneration.Fleet()`manualControl, powerGeneration.Fleet()`manualWindSpeed
      ensures Flags() == ToggleNamed(old(Flags()), PowerGenerationName, false)
      ensures Frames() == old(Frames())
    {
      ghost var v, m, p, s := visualDisruption.base.isActive, monitoringDisruption.base.isActive,
                              powerGeneration.base.isActive, substation.base.isActive;
      ToggleGenerationFlag(v, m, p, s, false);
      powerGeneration.ToggleAttack();
    }

    method ToggleSubstation()
      requires Valid()
      modifies substation.base`isActive, substation`originalOperationalState, substation`isUnderAttack
      modifies (if substation.targetTransformer == null then {} else {substation.targetTransformer.base})`isOperational
      modifies (if substation.targetTransformer == null then {} else {substation.targetTransformer.base})`visualisationEnabled
      ensures Flags() == ToggleNamed(old(Flags()), SubstationName, old(substation.targetTransformer) == null)
      ensures Frames() == old(Frames())
    {
      ghost var v, m, p, s := visualDisruption.base.isActive, monitoringDisruption.base.isActive,
                              powerGeneration.base.isActive, substation.base.isActive;
      ToggleSubstationFlag(v, m, p, s, substation.targetTransformer == null);
      substation.ToggleAttack();
    }

    /** No field that any attack's toggle may write has changed. */
    twostate predicate Untouched()
      reads *
    {
      && unchanged(visualDisruption.base`isActive, monitoringDisruption.base`isActive)
      && unchanged(powerGeneration.base`isActive, substation.base`isActive)
      && unchanged(old(visualDisruption.Indicator())`lastStatus, old(visualDisruption.Indicator())`consumerIcons)
      && unchanged(old(monitoringDisruption.Manager())`debugMode, old(monitoringDisruption.Nodes())`visualisationEnabled)
      && unchanged(old(monitoringDisruption.Indicator())`active, old(monitoringDisruption.Indicator())`lastStatus)
      && unchanged(old(monitoringDisruption.Indicator())`consumerIcons)
      && unchanged(powerGeneration`manipulatedTurbines)
      && unchanged(old(powerGeneration.Fleet())`manualControl, old(powerGeneration.Fleet())`manualWindSpeed)
      && unchanged(substation`originalOperationalState, substation`isUnderAttack)
      && (old(substation.targetTransformer) != null ==>
            unchanged(old(substation.targetTransformer.base)`isOperational, old(substation.targetTransformer.base)`visualisationEnabled))
    }

    /** The dictionary lookup and the attack's own ToggleAttack. The frame
        names, for each attack, what its toggle writes, and only when the
        name picks that attack: the other attacks, and everything for an
        unknown name, stay as they were. */
    method Dispatch(attackName: string)
      requires Valid()
      modifies (if attackName == VisualDisruptionName then {visualDisruption.base} else {})`isActive
      modifies (if attackName == VisualDisruptionName then visualDisruption.Indicator() else {})`lastStatus
      modifies (if attackName == VisualDisruptionName then visualDisruption.Indicator() else {})`consumerIcons
      modifies (if attackName == MonitoringDisruptionName then {monitoringDisruption.base} else {})`isActive
      modifies (if attackName == MonitoringDisruptionName then monitoringDisruption.Manager() else {})`debugMode
      modifies (if attackName == MonitoringDisruptionName then monitoringDisruption.Nodes() else {})`visualisationEnabled
      modifies (if attackName == MonitoringDisruptionName then monitoringDisruption.Indicator() else {})`active
      modifies (if attackName == MonitoringDisruptionName then monitoringDisruption.Indicator() else {})`lastStatus
      modifies (if attackName == MonitoringDisruptionName then monitoringDisruption.Indicator() else {})`consumerIcons
      modifies (if attackName == PowerGenerationName then {powerGeneration.base} else {})`isActive
      modifies (if attackName == PowerGenerationName then {powerGeneration} else {})`manipulatedTurbines
      modifies (if attackName == PowerGenerationName then powerGeneration.Fleet() else {})`manualControl
      modifies (if attackName == PowerGenerationName then powerGeneration.Fleet() else {})`manualWindSpeed
      modifies (if attackName == SubstationName then {substation.base} else {})`isActive
      modifies (if attackName == SubstationName then {substation} else {})`originalOperationalState, (if attackName == SubstationName then {substation} else {})`isUnderAttack
      modifies (if attackName == SubstationName then (if substation.targetTransformer == null then {} else {substation.targetTransformer.base}) else {})`isOperational
      modifies (if attackName == SubstationName then (if substation.targetTransformer == null then {} else {substation.targetTransformer.base}) else {})`visualisationEnabled
      ensures Flags() == ToggleNamed(old(Flags()), attackName, old(Refused(attackName)))
      ensures Frames() == old(Frames())
    {
      NamesDiffer();
      if attackName == VisualDisruptionName {
        ToggleVisualDisruption();
      } else if attackName == MonitoringDisruptionName {
        ToggleMonitoringDisruption();
      } else if attackName == PowerGenerationName {
        TogglePowerGeneration();
      } else if attackName == SubstationName {
        ToggleSubstation();
      } else {
        assert attackName !in Flags();
      }
    }

    /** ToggleAttack: nothing while locked or for an unknown name; the
        named attack, and only it, otherwise (the frame is the lookup's). */
    method ToggleAttack(attackName: string)
      requires Valid()
      modifies (if attackName == VisualDisruptionName then {visualDisruption.base} else {})`isActive
      modifies (if attackName == VisualDisruptionName then visualDisruption.Indicator() else {})`lastStatus
      modifies (if attackName == VisualDisruptionName then visualDisruption.Indicator() else {})`consumerIcons
      modifies (if attackName == MonitoringDisruptionName then {monitoringDisruption.base} else {})`isActive
      modifies (if attackName == MonitoringDisruptionName then monitoringDisruption.Manager() else {})`debugMode
      modifies (if attackName == MonitoringDisruptionName then monitoringDisruption.Nodes() else {})`visualisationEnabled
      modifies (if attackName == MonitoringDisruptionName then monitoringDisruption.Indicator() else {})`active
      modifies (if attackName == MonitoringDisruptionName then monitoringDisruption.Indicator() else {})`lastStatus
      modifies (if attackName == MonitoringDisruptionName then monitoringDisruption.Indicator() else {})`consumerIcons
      modifies (if attackName == PowerGenerationName then {powerGeneration.base} else {})`isActive
      modifies (if attackName == PowerGenerationName then {powerGeneration} else {})`manipulatedTurbines
      modifies (if attackName == PowerGenerationName then powerGeneration.Fleet() else {})`manualControl
      modifies (if attackName == PowerGenerationName then powerGeneration.Fleet() else {})`manualWindSpeed
      modifies (if attackName == SubstationName then {substation.base} else {})`isActive
      modifies (if attackName == SubstationName then {substation} else {})`originalOperationalState, (if engageAttacks && attackName == SubstationName then {substation} else {})`isUnderAttack
      modifies (if attackName == SubstationName then (if substation.targetTransformer == null then {} else {substation.targetTransformer.base}) else {})`isOperational
      modifies (if attackName == SubstationName then (if substation.targetTransformer == null then {} else {substation.targetTransformer.base}) else {})`visualisationEnabled
      ensures GetEngine() == LockedToggle(old(GetEngine()), attackName, old(Refused(attackName)))
      ensures !old(engageAttacks) ==> Untouched()
    {
      if !engageAttacks {
        return;
      }
      Dispatch(attackName);
    }

    /** SetEngageAttacks: disengaging toggles every active attack off, in
        registry order; engaging sets the lock and nothing else. */
    method SetEngageAttacks(value: bool)
      requires Valid()
      modifies this`engageAttacks
      modifies (if !value then {visualDisruption.base} else {})`isActive, (if !value then {monitoringDisruption.base} else {})`isActive
      modifies (if !value then {powerGeneration.base} else {})`isActive, (if !value then {substation.base} else {})`isActive
      modifies (if !value then visualDisruption.Indicator() else {})`lastStatus, (if !value then visualDisruption.Indicator() else {})`consumerIcons
      modifies (if !value then monitoringDisruption.Manager() else {})`debugMode, (if !value then monitoringDisruption.Nodes() else {})`visualisationEnabled
      modifies (if !value then monitoringDisruption.Indicator() else {})`active, (if !value then monitoringDisruption.Indicator() else {})`lastStatus
      modifies (if !value then monitoringDisruption.Indicator() else {})`consumerIcons
      modifies (if !value then {powerGeneration} else {})`manipulatedTurbines
      modifies (if !value then powerGeneration.Fleet() else {})`manualControl, (if !value then powerGeneration.Fleet() else {})`manualWindSpeed
      modifies (if !value then {substation} else {})`originalOperationalState, (if !value then {substation} else {})`isUnderAttack
      modifies (if !value then (if substation.targetTransformer == null then {} else {substation.targetTransformer.base}) else {})`isOperational
      modifies (if !value then (if substation.targetTransformer == null then {} else {substation.targetTransformer.base}) else {})`visualisationEnabled
      ensures GetEngine() == SetEngage(old(GetEngine()), value, Registry)
      ensures !value ==> forall n :: n in Flags() ==> !Flags()[n]
      ensures value ==> Untouched()
    {
      engageAttacks := value;
      if !engageAttacks {
        TurnOffActiveAttacks();
        DisengageLeavesNoneActive(old(GetEngine()), Registry);
      }
    }

    /** The disengage loop over the registry. */
    method TurnOffActiveAttacks()
      requires Valid()
      modifies visualDisruption.base`isActive, monitoringDisruption.base`isActive
      modifies powerGeneration.base`isActive, substation.base`isActive
      modifies visualDisruption.Indicator()`lastStatus, visualDisruption.Indicator()`consumerIcons
      modifies monitoringDisruption.Manager()`debugMode, monitoringDisruption.Nodes()`visualisationEnabled
      modifies monitoringDisruption.Indicator()`active, monitoringDisruption.Indicator()`lastStatus
      modifies monitoringDisruption.Indicator()`consumerIcons
      modifies powerGeneration`manipulatedTurbines
      modifies powerGeneration.Fleet()`manualControl, powerGeneration.Fleet()`manualWindSpeed
      modifies substation`originalOperationalState, substation`isUnderAttack
      modifies (if substation.targetTransformer == null then {} else {substation.targetTransformer.base})`isOperational
      modifies (if substation.targetTransformer == null then {} else {substation.targetTransformer.base})`visualisationEnabled
      ensures Flags() == SwitchOff(old(Flags()), Registry)
    {
      ghost var f0 := Flags();
      var i := 0;
      while i < |Registry|
        invariant 0 <= i <= |Registry|
        invariant Flags() == SwitchOff(f0, Registry[..i])
        invariant Frames() == old(Frames())
      {
        SwitchOffStep(f0, Registry, i);
        TurnOff(Registry[i]);
        i := i + 1;
      }
      assert Registry[..i] == Registry;
    }

    /** One pass of the disengage loop: the attack is toggled if active. */
    method TurnOff(name: string)
      requires Valid()
      modifies (if name == VisualDisruptionName then {visualDisruption.base} else {})`isActive
      modifies (if name == VisualDisruptionName then visualDisruption.Indicator() else {})`lastStatus
      modifies (if name == VisualDisruptionName then visualDisruption.Indicator() else {})`consumerIcons
      modifies (if name == MonitoringDisruptionName then {monitoringDisruption.base} else {})`isActive
      modifies (if name == MonitoringDisruptionName then monitoringDisruption.Manager() else {})`debugMode
      modifies (if name == MonitoringDisruptionName then monitoringDisruption.Nodes() else {})`visualisationEnabled
      modifies (if name == MonitoringDisruptionName then monitoringDisruption.Indicator() else {})`active
      modifies (if name == MonitoringDisruptionName then monitoringDisruption.Indicator() else {})`lastStatus
      modifies (if name == MonitoringDisruptionName then monitoringDisruption.Indicator() else {})`consumerIcons
      modifies (if name == PowerGenerationName then {powerGeneration.base} else {})`isActive
      modifies (if name == PowerGenerationName then {powerGeneration} else {})`manipulatedTurbines
      modifies (if name == PowerGenerationName then powerGeneration.Fleet() else {})`manualControl
      modifies (if name == PowerGenerationName then powerGeneration.Fleet() else {})`manualWindSpeed
      modifies (if name == SubstationName then {substation.base} else {})`isActive
      modifies (if name == SubstationName then {substation} else {})`originalOperationalState, (if name == SubstationName then {substation} else {})`isUnderAttack
      modifies (if name == SubstationName then (if substation.targetTransformer == null then {} else {substation.targetTransformer.base}) else {})`isOperational
      modifies (if name == SubstationName then (if substation.targetTransformer == null then {} else {substation.targetTransformer.base}) else {})`visualisationEnabled
      ensures Flags() == if name in old(Flags()) && old(Flags())[name] then ToggleNamed(old(Flags()), name, false) else old(Flags())
      ensures Frames() == old(Frames())
    {
      if IsActive(name) {
        Dispatch(name);
      }
    }

    /** The named attack's IsActive. */
    function IsActive(name: string): (active: bool)
      reads visualDisruption.base`isActive, monitoringDisruption.base`isActive
      reads powerGeneration.base`isActive, substation.base`isActive
      ensures name in Flags() ==> (active <==> Flags()[name])
      ensures name !in Flags() ==> !active
    {
      if name == VisualDisruptionName then visualDisruption.base.isActive
      else if name == MonitoringDisruptionName then monitoringDisruption.base.isActive
      else if name == PowerGenerationName then powerGeneration.base.isActive
      else if name == SubstationName then substation.base.isActive
      else false
    }

    /** IsTurbineManipulated: only while the power-generation attack is
        active, and then its own membership test. */
    function IsTurbineManipulated(turbine: Turbine): (manipulated: bool)
      reads powerGeneration.base`isActive, powerGeneration`manipulatedTurbines
      ensures manipulated <==> powerGeneration.base.isActive && turbine in powerGeneration.manipulatedTurbines
      ensures !powerGeneration.base.isActive ==> !manipulated
    {
      powerGeneration.base.isActive && powerGeneration.IsTurbineManipulated(turbine)
    }
  }
}
