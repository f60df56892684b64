/** The substation attack (SubstationAttack.cs): takes the transformer out
    of service, remembering whether it was in service, and puts that back
    when stopped. The visualisation coroutine it runs meanwhile is not
    modelled. */
module Substation {
  import opened ComponentBase
  import opened Transformers
  import opened PowerSystem
  import opened AttackBase

  const SubstationName: string := "SubstationAttack"

  /** What the attack touches: whether it has a target transformer, that
      transformer's isOperational and visualisationEnabled, the snapshot
      originalOperationalState, isUnderAttack and isActive. */
  datatype Siege = Siege(targeted: bool, operational: bool, visualised: bool,
                         snapshot: bool, underAttack: bool, active: bool)

  /** StartAttack. */
  function Start(s: Siege): Siege
  {
    if s.targeted then s.(snapshot := s.operational, operational := false, underAttack := true, visualised := false)
    else s.(active := false)
  }

  /** StopAttack: the visualisation is switched on, whatever it was. */
  function Stop(s: Siege): Siege
  {
    if s.targeted then s.(operational := s.snapshot, underAttack := false, visualised := true)
    else s
  }

  /** ToggleAttack: flip the flag, then start or stop. */
  function Toggle(s: Siege): (s': Siege)
    ensures s'.targeted == s.targeted
  {
    var flipped := s.(active := !s.active);
    if flipped.active then Start(flipped) else Stop(flipped)
  }

  /** OnDestroy: stop an active attack without clearing its flag. */
  function Destroy(s: Siege): Siege
  {
    if s.active then Stop(s) else s
  }

  /** isUnderAttack is true exactly while the attack is active, and it is
      only ever active with a target. */
  predicate Inv(s: Siege)
  {
    s.underAttack == s.active && (s.active ==> s.targeted)
  }

  lemma ToggleKeepsInv(s: Siege)
    requires Inv(s)
    ensures Inv(Toggle(s))
  {
  }

  /** Starting takes the transformer out of service; stopping afterwards
      puts back exactly the flag it had, switches its visualisation on and
      leaves the snapshot behind. */
  lemma OnThenOffRestoresOperational(s: Siege)
    requires Inv(s) && s.targeted && !s.active
    ensures !Toggle(s).operational && !Toggle(s).visualised && Toggle(s).active
    ensures Toggle(Toggle(s)) == s.(visualised := true, snapshot := s.operational)
  {
  }

  /** The visualisation flag is forced on, not restored: after starting
      and stopping, the transformer's visualisation is on, so it is what it
      was before exactly when it was on before. */
  lemma StopDoesNotRestoreVisualisation(s: Siege)
    requires Inv(s) && s.targeted && !s.active
    ensures Toggle(Toggle(s)).visualised
    ensures Toggle(Toggle(s)).visualised == s.visualised <==> s.visualised
  {
  }

  /** Without a target the attack cannot start: toggling it changes
      nothing at all. */
  lemma UntargetedNeverStarts(s: Siege)
    requires !s.targeted && !s.active
    ensures Toggle(s) == s
  {
  }

  /** Destroying an active attack restores the transformer but leaves the
      flag set, so isUnderAttack and isActive then disagree. */
  lemma DestroyLeavesFlagSet(s: Siege)
    requires Inv(s) && s.active
    ensures Destroy(s).operational == s.snapshot && Destroy(s).active && !Destroy(s).underAttack
    ensures !Inv(Destroy(s))
  {
  }

  class SubstationAttack {
    const base: CyberAttackBase
    var targetTransformer: Transformer?
    var originalOperationalState: bool
    var isUnderAttack: bool

    function State(): Siege
      reads this`targetTransformer, this`originalOperationalState, this`isUnderAttack, base`isActive
      reads if targetTransformer == null then {} else {targetTransformer.base}`isOperational
      reads if targetTransformer == null then {} else {targetTransformer.base}`visualisationEnabled
    {
      if targetTransformer == null then
        Siege(false, false, false, originalOperationalState, isUnderAttack, base.isActive)
      else
        Siege(true, targetTransformer.base.isOperational, targetTransformer.base.visualisationEnabled,
              originalOperationalState, isUnderAttack, base.isActive)
    }

    constructor ()
      ensures fresh(base) && !base.isActive && !base.hasVisualiser && base.powerSystemManager == null
      ensures targetTransformer == null && !isUnderAttack && !originalOperationalState
      ensures Inv(State())
    {
      base := new CyberAttackBase();
      targetTransformer := null;
      originalOperationalState := false;
      isUnderAttack := false;
    }

    /** Initialise: the target is the manager's transformer when there is
        one; otherwise the previous target stays. */
    method Initialise(visualiser: bool, systemManager: PowerSystemManager?)
      modifies base`hasVisualiser, base`powerSystemManager, this`targetTransformer
      ensures base.hasVisualiser == visualiser && base.powerSystemManager == systemManager
      ensures targetTransformer ==
                if systemManager != null && systemManager.transformer != null then systemManager.transformer
                else old(targetTransformer)
    {
      base.Initialise(visualiser, systemManager);
      if systemManager != null && systemManager.transformer != null {
        targetTransformer := systemManager.transformer;
      }
    }

    method StartAttack()
      modifies this`originalOperationalState, this`isUnderAttack, base`isActive
      modifies (if targetTransformer == null then {} else {targetTransformer.base})`isOperational
      modifies (if targetTransformer == null then {} else {targetTransformer.base})`visualisationEnabled
      ensures State() == Start(old(State()))
    {
      if targetTransformer != null {
        originalOperationalState := targetTransformer.base.isOperational;
        targetTransformer.base.isOperational := false;
        isUnderAttack := true;
        targetTransformer.base.visualisationEnabled := false;
      } else {
        base.isActive := false;
      }
    }

    method StopAttack()
      modifies this`isUnderAttack
      modifies (if targetTransformer == null then {} else {targetTransformer.base})`isOperational
      modifies (if targetTransformer == null then {} else {targetTransformer.base})`visualisationEnabled
      ensures State() == Stop(old(State()))
    {
      if targetTransformer != null {
        targetTransformer.base.isOperational := originalOperationalState;
        isUnderAttack := false;
        targetTransformer.base.visualisationEnabled := true;
      }
    }

    method ToggleAttack()
      modifies this`originalOperationalState, this`isUnderAttack, base`isActive
      modifies (if targetTransformer == null then {} else {targetTransformer.base})`isOperational
      modifies (if targetTransformer == null then {} else {targetTransformer.base})`visualisationEnabled
      ensures State() == Toggle(old(State()))
    {
      var hook := base.Flip();
      if hook == StartHook {
        StartAttack();
      } else {
        StopAttack();
      }
    }

    method OnDestroy()
      modifies this`isUnderAttack
      modifies (if targetTransformer == null then {} else {targetTransformer.base})`isOperational
      modifies (if targetTransformer == null then {} else {targetTransformer.base})`visualisationEnabled
      ensures State() == Destroy(old(State()))
    {
      if base.isActive {
        StopAttack();
      }
    }
  }
}
