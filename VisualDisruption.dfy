/** The visual-disruption attack (VisualDisruptionAttack.cs): while active
    it scrambles the visualiser's line colours and the overlay's icon
    sprites and has the overlay rebuild its icons; stopping puts the
    colours and sprites back and rebuilds the icons once more. Colours and
    sprites are drawing only; the icon rebuilds are what the model keeps. */
module VisualDisruption {
  import opened StatusIndicators
  import opened PowerSystem
  import opened AttackBase

  const VisualDisruptionName: string := "VisualDisruption"

  class VisualDisruptionAttack {
    const base: CyberAttackBase
    var statusIndicator: PowerStatusIndicatorManager?

    ghost function Indicator(): set<PowerStatusIndicatorManager>
      reads this`statusIndicator
    {
      if statusIndicator == null then {} else {statusIndicator}
    }

    constructor ()
      ensures fresh(base) && !base.isActive && !base.hasVisualiser && base.powerSystemManager == null
      ensures statusIndicator == null
    {
      base := new CyberAttackBase();
      statusIndicator := null;
    }

    /** SetPowerStatusIndicator. */
    method SetPowerStatusIndicator(indicatorManager: PowerStatusIndicatorManager?)
      modifies this`statusIndicator
      ensures statusIndicator == indicatorManager
    {
      statusIndicator := indicatorManager;
    }

    /** Initialise: the base's references; the colour and sprite snapshots
        are drawing only. */
    method Initialise(visualiser: bool, systemManager: PowerSystemManager?)
      modifies base`hasVisualiser, base`powerSystemManager
      ensures base.hasVisualiser == visualiser && base.powerSystemManager == systemManager
    {
      base.Initialise(visualiser, systemManager);
    }

    /** StartAttack launches the disruption coroutine, whose first pass
        runs within the call while the attack is active; later passes are
        DisruptionCycle calls. */
    method StartAttack()
      modifies Indicator()`lastStatus, Indicator()`consumerIcons
      ensures !(base.hasVisualiser && base.isActive && statusIndicator != null) ==> unchanged(Indicator())
      ensures base.hasVisualiser && base.isActive && statusIndicator != null ==> statusIndicator.Refreshed()
    {
      if !base.hasVisualiser {
        return;
      }
      if base.isActive {
        DisruptionCycle();
      }
    }

    /** One pass of VisualDisruptionAttackRoutine: with an overlay, its
        icons are rebuilt from the current readings. */
    method DisruptionCycle()
      requires base.isActive
      modifies Indicator()`lastStatus, Indicator()`consumerIcons
      ensures statusIndicator == null ==> unchanged(Indicator())
      ensures statusIndicator != null ==> statusIndicator.Refreshed()
    {
      if statusIndicator != null {
        statusIndicator.ForceRefreshAllIcons();
      }
    }

    /** StopAttack: without a visualiser nothing happens; otherwise the
        overlay, if any, rebuilds its icons. */
    method StopAttack()
      modifies Indicator()`lastStatus, Indicator()`consumerIcons
      ensures !base.hasVisualiser || statusIndicator == null ==> unchanged(Indicator())
      ensures base.hasVisualiser && statusIndicator != null ==> statusIndicator.Refreshed()
    {
      if !base.hasVisualiser {
        return;
      }
      if statusIndicator != null {
        statusIndicator.ForceRefreshAllIcons();
      }
    }

    method ToggleAttack()
      modifies base`isActive, Indicator()`lastStatus, Indicator()`consumerIcons
      ensures base.isActive == !old(base.isActive)
      ensures !base.hasVisualiser || statusIndicator == null ==> unchanged(Indicator())
      ensures base.hasVisualiser && statusIndicator != null ==> statusIndicator.Refreshed()
    {
      var hook := base.Flip();
      if hook == StartHook {
        StartAttack();
      } else {
        StopAttack();
      }
    }

    /** OnDestroy: an active attack is stopped; otherwise nothing changes. */
    method OnDestroy()
      modifies Indicator()`lastStatus, Indicator()`consumerIcons
      ensures !(base.isActive && base.hasVisualiser) ==> unchanged(Indicator())
      ensures base.isActive && base.hasVisualiser && statusIndicator != null ==> statusIndicator.Refreshed()
    {
      if base.isActive {
        StopAttack();
      }
    }
  }
}
