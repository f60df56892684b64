/** The common part of every cyber attack (CyberAttackBase.cs): an
    on/off flag that starts off, and a toggle that flips it and then runs
    the attack's start hook when it is now on, its stop hook otherwise.
    The concrete attacks hold one of these as `base` and supply the hooks.
    The visualiser is only ever checked for presence, so it is a flag. */
module AttackBase {
  import opened PowerSystem

  /** The hook ToggleAttack runs after flipping the flag. */
  datatype Hook = StartHook | StopHook

  /** The hook that follows a flip to `active`. */
  function HookAfter(active: bool): (h: Hook)
    ensures h == StartHook <==> active
  {
    if active then StartHook else StopHook
  }

  class CyberAttackBase {
    var hasVisualiser: bool
    var powerSystemManager: PowerSystemManager?
    var isActive: bool

    constructor ()
      ensures !isActive && !hasVisualiser && powerSystemManager == null
    {
      hasVisualiser := false;
      powerSystemManager := null;
      isActive := false;
    }

    /** Initialise stores the two references and nothing else. */
    method Initialise(visualiser: bool, systemManager: PowerSystemManager?)
      modifies this`hasVisualiser, this`powerSystemManager
      ensures hasVisualiser == visualiser && powerSystemManager == systemManager
    {
      hasVisualiser := visualiser;
      powerSystemManager := systemManager;
    }

    function IsActive(): bool
      reads this`isActive
    {
      isActive
    }

    /** The first half of ToggleAttack: the flag flips and the hook to run
        is returned; each attack's ToggleAttack runs it. */
    method Flip() returns (hook: Hook)
      modifies this`isActive
      ensures isActive == !old(isActive) && hook == HookAfter(isActive)
    {
      isActive := !isActive;
      hook := if isActive then StartHook else StopHook;
    }
  }
}
