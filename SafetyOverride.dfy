/** The safety-override attack (SafetyOverrideAttack.cs): its hooks only
    log, with or without a manager, so toggling it moves the flag and
    nothing else. */
module SafetyOverride {
  import opened AttackBase

  const SafetyOverrideName: string := "SafetyOverride"

  class SafetyOverrideAttack {
    const base: CyberAttackBase

    constructor ()
      ensures fresh(base) && !base.isActive && !base.hasVisualiser && base.powerSystemManager == null
    {
      base := new CyberAttackBase();
    }

    /** StartAttack: no modelled state changes, manager or not. */
    method StartAttack()
    {
      if base.powerSystemManager == null {
        return;
      }
    }

    /** StopAttack: likewise. */
    method StopAttack()
    {
      if base.powerSystemManager == null {
        return;
      }
    }

    method ToggleAttack()
      modifies base`isActive
      ensures base.isActive == !old(base.isActive)
    {
      var hook := base.Flip();
      if hook == StartHook {
        StartAttack();
      } else {
        StopAttack();
      }
    }

    method OnDestroy()
    {
      if base.isActive {
        StopAttack();
      }
    }
  }
}
