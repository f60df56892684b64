/** The monitoring-disruption attack (MonitoringDisruptionAttack.cs):
    switches off the system manager's monitoring, every node's
    visualisation and the status overlay; stopping switches all of them on
    again and restarts the overlay's monitoring. Hiding and showing the
    connection lines is drawing only and is not modelled. */
module MonitoringDisruption {
  import opened ComponentBase
  import opened Turbines
  import opened WindFarms
  import opened Transformers
  import opened Batteries
  import opened Grid
  import opened PowerSystem
  import opened StatusIndicators
  import opened AttackBase

  const MonitoringDisruptionName: string := "MonitoringDisruption"

  /** The common parts of every node the manager lists. The inverter has
      no visualisation switch. */
  ghost function NodesOf(m: PowerSystemManager): set<PowerComponentBase>
  {
    (set t: Turbine | t in m.turbines :: t.base)
    + (if m.windFarm == null then {} else {m.windFarm.base})
    + (if m.transformer == null then {} else {m.transformer.base})
    + (if m.battery == null then {} else {m.battery.base})
    + (if m.powerGrid == null then {} else {m.powerGrid.base})
    + (set c: Consumer | c in m.consumers :: c.base)
  }

  /** Every listed turbine's visualisation is `enabled`. */
  ghost predicate TurbinesShow(m: PowerSystemManager, enabled: bool)
    reads (set t: Turbine | t in m.turbines :: t.base)`visualisationEnabled
  {
    forall i :: 0 <= i < |m.turbines| && m.turbines[i] != null ==> m.turbines[i].base.visualisationEnabled == enabled
  }

  /** The single nodes' visualisation is `enabled`. */
  ghost predicate SinglesShow(m: PowerSystemManager, enabled: bool)
    reads (if m.windFarm == null then {} else {m.windFarm.base})`visualisationEnabled
    reads (if m.transformer == null then {} else {m.transformer.base})`visualisationEnabled
    reads (if m.battery == null then {} else {m.battery.base})`visualisationEnabled
    reads (if m.powerGrid == null then {} else {m.powerGrid.base})`visualisationEnabled
  {
    && (m.windFarm != null ==> m.windFarm.base.visualisationEnabled == enabled)
    && (m.transformer != null ==> m.transformer.base.visualisationEnabled == enabled)
    && (m.battery != null ==> m.battery.base.visualisationEnabled == enabled)
    && (m.powerGrid != null ==> m.powerGrid.base.visualisationEnabled == enabled)
  }

  /** Every listed consumer's visualisation is `enabled`. */
  ghost predicate ConsumersShow(m: PowerSystemManager, enabled: bool)
    reads (set c: Consumer | c in m.consumers :: c.base)`visualisationEnabled
  {
    forall i :: 0 <= i < |m.consumers| && m.consumers[i] != null ==> m.consumers[i].base.visualisationEnabled == enabled
  }

  /** Every node's visualisation is `enabled`. */
  ghost predicate AllShow(m: PowerSystemManager, enabled: bool)
    reads NodesOf(m)`visualisationEnabled
  {
    TurbinesShow(m, enabled) && SinglesShow(m, enabled) && ConsumersShow(m, enabled)
  }

  /** The turbine loop of ToggleComponentVisualisation. */
  method ShowTurbines(m: PowerSystemManager, enabled: bool)
    modifies (set t: Turbine | t in m.turbines :: t.base)`visualisationEnabled
    ensures TurbinesShow(m, enabled)
  {
    var i := 0;
    while i < |m.turbines|
      invariant 0 <= i <= |m.turbines|
      invariant forall k :: 0 <= k < i && m.turbines[k] != null ==> m.turbines[k].base.visualisationEnabled == enabled
    {
      if m.turbines[i] != null {
        m.turbines[i].base.visualisationEnabled := enabled;
      }
      i := i + 1;
    }
  }

  /** The wind farm, transformer, battery and grid, keeping what the
      turbine loop did. */
  method ShowSingles(m: PowerSystemManager, enabled: bool)
    requires TurbinesShow(m, enabled)
    modifies (if m.windFarm == null then {} else {m.windFarm.base})`visualisationEnabled
    modifies (if m.transformer == null then {} else {m.transformer.base})`visualisationEnabled
    modifies (if m.battery == null then {} else {m.battery.base})`visualisationEnabled
    modifies (if m.powerGrid == null then {} else {m.powerGrid.base})`visualisationEnabled
    ensures TurbinesShow(m, enabled) && SinglesShow(m, enabled)
  {
    if m.windFarm != null {
      m.windFarm.base.visualisationEnabled := enabled;
    }
    if m.transformer != null {
      m.transformer.base.visualisationEnabled := enabled;
    }
    if m.battery != null {
      m.battery.base.visualisationEnabled := enabled;
    }
    if m.powerGrid != null {
      m.powerGrid.base.visualisationEnabled := enabled;
    }
  }

  /** The consumer loop, keeping what the earlier steps did. */
  method ShowConsumers(m: PowerSystemManager, enabled: bool)
    requires TurbinesShow(m, enabled) && SinglesShow(m, enabled)
    modifies (set c: Consumer | c in m.consumers :: c.base)`visualisationEnabled
    ensures AllShow(m, enabled)
  {
    var i := 0;
    while i < |m.consumers|
      invariant 0 <= i <= |m.consumers|
      invariant TurbinesShow(m, enabled) && SinglesShow(m, enabled)
      invariant forall k :: 0 <= k < i && m.consumers[k] != null ==> m.consumers[k].base.visualisationEnabled == enabled
    {
      if m.consumers[i] != null {
        m.consumers[i].base.visualisationEnabled := enabled;
      }
      i := i + 1;
    }
  }

  class MonitoringDisruptionAttack {
    const base: CyberAttackBase
    var powerStatusIndicator: PowerStatusIndicatorManager?

    /** The manager, as a set for frames. */
    ghost function Manager(): set<PowerSystemManager>
      reads base`powerSystemManager
    {
      if base.powerSystemManager == null then {} else {base.powerSystemManager}
    }

    ghost function Nodes(): set<PowerComponentBase>
      reads base`powerSystemManager
    {
      if base.powerSystemManager == null then {} else NodesOf(base.powerSystemManager)
    }

    ghost function Indicator(): set<PowerStatusIndicatorManager>
      reads this`powerStatusIndicator
    {
      if powerStatusIndicator == null then {} else {powerStatusIndicator}
    }

    /** The references the attack's frames are computed from: the overlay
        and the manager. */
    ghost function Frame(): (PowerStatusIndicatorManager?, PowerSystemManager?)
      reads this`powerStatusIndicator, base`powerSystemManager
    {
      (powerStatusIndicator, base.powerSystemManager)
    }

    /** Both hooks go ahead only with a manager and a visualiser. */
    predicate Armed()
      reads base`powerSystemManager, base`hasVisualiser
    {
      base.powerSystemManager != null && base.hasVisualiser
    }

    /** The system manager's monitoring, every node's visualisation and
        the overlay are all `on`. */
    ghost predicate Monitoring(on: bool)
      requires base.powerSystemManager != null
      reads base`powerSystemManager, Manager()`debugMode
      reads Nodes()`visualisationEnabled, this`powerStatusIndicator, Indicator()`active
    {
      && base.powerSystemManager.debugMode == on
      && AllShow(base.powerSystemManager, on)
      && (powerStatusIndicator != null ==> powerStatusIndicator.active == on)
    }

    constructor (indicator: PowerStatusIndicatorManager?)
      ensures fresh(base) && !base.isActive && !base.hasVisualiser && base.powerSystemManager == null
      ensures powerStatusIndicator == indicator
    {
      base := new CyberAttackBase();
      powerStatusIndicator := indicator;
    }

    /** ToggleComponentVisualisation: the turbines, the single nodes, then
        the consumers. */
    method ToggleComponentVisualisation(enabled: bool)
      requires base.powerSystemManager != null
      modifies Nodes()`visualisationEnabled
      ensures AllShow(base.powerSystemManager, enabled)
    {
      var m := base.powerSystemManager;
      ShowTurbines(m, enabled);
      ShowSingles(m, enabled);
      ShowConsumers(m, enabled);
    }

    /** StartAttack: monitoring, visualisation and the overlay all off. */
    method StartAttack()
      modifies Manager()`debugMode, Nodes()`visualisationEnabled, Indicator()`active
      ensures Frame() == old(Frame())
      ensures !Armed() ==> unchanged(old(Nodes()))
      ensures !Armed() && base.powerSystemManager != null ==> base.powerSystemManager.debugMode == old(base.powerSystemManager.debugMode)
      ensures !Armed() && powerStatusIndicator != null ==> powerStatusIndicator.active == old(powerStatusIndicator.active)
      ensures powerStatusIndicator != null ==> powerStatusIndicator.GetMonitor() == old(powerStatusIndicator.GetMonitor())
      ensures Armed() ==> Monitoring(false)
    {
      if base.powerSystemManager == null || !base.hasVisualiser {
        return;
      }
      base.powerSystemManager.debugMode := false;
      ToggleComponentVisualisation(false);
      if powerStatusIndicator != null {
        powerStatusIndicator.active := false;
      }
    }

    /** StopAttack: everything forced back on, whatever it was before the
        attack, and the overlay's monitoring restarted from scratch; the
        restarted pass leaves the overlay as a refresh would. */
    method StopAttack()
      modifies Manager()`debugMode, Nodes()`visualisationEnabled
      modifies Indicator()`active, Indicator()`lastStatus, Indicator()`consumerIcons
      ensures Frame() == old(Frame())
      ensures !Armed() ==> unchanged(old(Nodes()))
      ensures !Armed() && base.powerSystemManager != null ==> base.powerSystemManager.debugMode == old(base.powerSystemManager.debugMode)
      ensures !Armed() && powerStatusIndicator != null ==>
                powerStatusIndicator.active == old(powerStatusIndicator.active) &&
                powerStatusIndicator.GetMonitor() == old(powerStatusIndicator.GetMonitor())
      ensures Armed() ==> Monitoring(true)
      ensures Armed() && powerStatusIndicator != null ==> powerStatusIndicator.Refreshed()
    {
      if base.powerSystemManager == null || !base.hasVisualiser {
        return;
      }
      base.powerSystemManager.debugMode := true;
      ToggleComponentVisualisation(true);
      if powerStatusIndicator != null {
        powerStatusIndicator.active := true;
        powerStatusIndicator.RestartMonitoring();
      }
    }

    /** ToggleAttack: unarmed, only the flag flips; starting keeps the
        overlay's statuses and icons. */
    method ToggleAttack()
      modifies base`isActive, Manager()`debugMode, Nodes()`visualisationEnabled
      modifies Indicator()`active, Indicator()`lastStatus, Indicator()`consumerIcons
      ensures base.isActive == !old(base.isActive)
      ensures Frame() == old(Frame())
      ensures !Armed() ==> unchanged(old(Nodes())`visualisationEnabled)
      ensures !Armed() && base.powerSystemManager != null ==> base.powerSystemManager.debugMode == old(base.powerSystemManager.debugMode)
      ensures !Armed() && powerStatusIndicator != null ==>
                powerStatusIndicator.active == old(powerStatusIndicator.active) &&
                powerStatusIndicator.GetMonitor() == old(powerStatusIndicator.GetMonitor())
      ensures base.isActive && powerStatusIndicator != null ==> powerStatusIndicator.GetMonitor() == old(powerStatusIndicator.GetMonitor())
      ensures Armed() ==> Monitoring(!base.isActive)
      ensures Armed() && powerStatusIndicator != null && !base.isActive ==> powerStatusIndicator.Refreshed()
    {
      var hook := base.Flip();
      assert unchanged(old(Nodes())`visualisationEnabled);
      if hook == StartHook {
        StartAttack();
      } else {
        StopAttack();
      }
    }

    /** OnDestroy: an active attack is stopped; otherwise nothing changes. */
    method OnDestroy()
      modifies Manager()`debugMode, Nodes()`visualisationEnabled
      modifies Indicator()`active, Indicator()`lastStatus, Indicator()`consumerIcons
      ensures Frame() == old(Frame())
      ensures !(base.isActive && Armed()) ==> unchanged(old(Nodes()))
      ensures !(base.isActive && Armed()) && base.powerSystemManager != null ==>
                base.powerSystemManager.debugMode == old(base.powerSystemManager.debugMode)
      ensures !(base.isActive && Armed()) && powerStatusIndicator != null ==>
                powerStatusIndicator.active == old(powerStatusIndicator.active) &&
                powerStatusIndicator.GetMonitor() == old(powerStatusIndicator.GetMonitor())
      ensures base.isActive && Armed() ==> Monitoring(true)
      ensures base.isActive && Armed() && powerStatusIndicator != null ==> powerStatusIndicator.Refreshed()
    {
      if base.isActive {
        StopAttack();
      }
    }
  }
}
