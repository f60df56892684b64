/** What the attack managers do to the attacks' on/off flags, as values: a
    registry from attack name to flag, toggling one attack by name, and
    switching every active attack off. Both managers (the locked one under
    Attacks/ and the earlier draft) are proved against these functions. */
module AttackEngine {

  /** Attack name to that attack's isActive. */
  type Flags = map<string, bool>

  /** The locked manager: the engage lock and the flags. */
  datatype Engine = Engine(engaged: bool, active: Flags)

  /** Every registered attack off. */
  function AllOff(names: seq<string>): (f: Flags)
    ensures f.Keys == set n | n in names
    ensures forall n :: n in f ==> !f[n]
  {
    map n | n in names :: false
  }

  /** ToggleAttack(name) reaching the attack's own ToggleAttack: the named
      flag flips, except that a start the attack refuses (the substation
      attack with no transformer) leaves it off; an unknown name changes
      nothing. */
  function ToggleNamed(active: Flags, name: string, refused: bool): Flags
  {
    if name in active then active[name := !active[name] && !refused] else active
  }

  /** The locked manager's ToggleAttack: nothing while locked. */
  function LockedToggle(e: Engine, name: string, refused: bool): Engine
  {
    if e.engaged then e.(active := ToggleNamed(e.active, name, refused)) else e
  }

  /** The disengage loop over the first names of the registry: each
      attack still active is toggled, hence switched off. */
  function SwitchOff(active: Flags, names: seq<string>): Flags
  {
    if names == [] then active
    else
      var before := SwitchOff(active, names[..|names| - 1]);
      var name := names[|names| - 1];
      if name in before && before[name] then ToggleNamed(before, name, false) else before
  }

  /** SetEngageAttacks(value). */
  function SetEngage(e: Engine, value: bool, registry: seq<string>): Engine
  {
    if value then e.(engaged := true) else Engine(false, SwitchOff(e.active, registry))
  }

  /** The flags of four attacks with distinct names (generic in the key
      type, so that these facts about map displays involve no string
      comparison). */
  function Flags4<K>(a: K, b: K, c: K, d: K, fa: bool, fb: bool, fc: bool, fd: bool): map<K, bool>
  {
    map[a := fa, b := fb, c := fc, d := fd]
  }

  /** Setting the flag of one of the four attacks (one lemma per
      position). */
  lemma SetFlags4A<K>(a: K, b: K, c: K, d: K,
                      fa: bool, fb: bool, fc: bool, fd: bool, x: bool)
    requires a != b && a != c && a != d && b != c && b != d && c != d
    ensures Flags4(a, b, c, d, fa, fb, fc, fd)[a := x] == Flags4(a, b, c, d, x, fb, fc, fd)
  {
  }

  lemma SetFlags4B<K>(a: K, b: K, c: K, d: K,
                      fa: bool, fb: bool, fc: bool, fd: bool, x: bool)
    requires a != b && a != c && a != d && b != c && b != d && c != d
    ensures Flags4(a, b, c, d, fa, fb, fc, fd)[b := x] == Flags4(a, b, c, d, fa, x, fc, fd)
  {
  }

  lemma SetFlags4C<K>(a: K, b: K, c: K, d: K,
                      fa: bool, fb: bool, fc: bool, fd: bool, x: bool)
    requires a != b && a != c && a != d && b != c && b != d && c != d
    ensures Flags4(a, b, c, d, fa, fb, fc, fd)[c := x] == Flags4(a, b, c, d, fa, fb, x, fd)
  {
  }

  lemma SetFlags4D<K>(a: K, b: K, c: K, d: K,
                      fa: bool, fb: bool, fc: bool, fd: bool, x: bool)
    requires a != b && a != c && a != d && b != c && b != d && c != d
    ensures Flags4(a, b, c, d, fa, fb, fc, fd)[d := x] == Flags4(a, b, c, d, fa, fb, fc, x)
  {
  }

  /** The flags of five attacks with distinct names. */
  function Flags5<K>(a: K, b: K, c: K, d: K, e: K,
                     fa: bool, fb: bool, fc: bool, fd: bool, fe: bool): map<K, bool>
  {
    map[a := fa, b := fb, c := fc, d := fd, e := fe]
  }

  /** Setting the flag of one of the five attacks. */
  lemma SetFlags5A<K>(a: K, b: K, c: K, d: K, e: K,
                      fa: bool, fb: bool, fc: bool, fd: bool, fe: bool, x: bool)
    requires a != b && a != c && a != d && a != e && b != c && b != d && b != e && c != d && c != e && d != e
    ensures Flags5(a, b, c, d, e, fa, fb, fc, fd, fe)[a := x] == Flags5(a, b, c, d, e, x, fb, fc, fd, fe)
  {
  }

  lemma SetFlags5B<K>(a: K, b: K, c: K, d: K, e: K,
                      fa: bool, fb: bool, fc: bool, fd: bool, fe: bool, x: bool)
    requires a != b && a != c && a != d && a != e && b != c && b != d && b != e && c != d && c != e && d != e
    ensures Flags5(a, b, c, d, e, fa, fb, fc, fd, fe)[b := x] == Flags5(a, b, c, d, e, fa, x, fc, fd, fe)
  {
  }

  lemma SetFlags5C<K>(a: K, b: K, c: K, d: K, e: K,
                      fa: bool, fb: bool, fc: bool, fd: bool, fe: bool, x: bool)
    requires a != b && a != c && a != d && a != e && b != c && b != d && b != e && c != d && c != e && d != e
    ensures Flags5(a, b, c, d, e, fa, fb, fc, fd, fe)[c := x] == Flags5(a, b, c, d, e, fa, fb, x, fd, fe)
  {
  }

  lemma SetFlags5D<K>(a: K, b: K, c: K, d: K, e: K,
                      fa: bool, fb: bool, fc: bool, fd: bool, fe: bool, x: bool)
    requires a != b && a != c && a != d && a != e && b != c && b != d && b != e && c != d && c != e && d != e
    ensures Flags5(a, b, c, d, e, fa, fb, fc, fd, fe)[d := x] == Flags5(a, b, c, d, e, fa, fb, fc, x, fe)
  {
  }

  lemma SetFlags5E<K>(a: K, b: K, c: K, d: K, e: K,
                      fa: bool, fb: bool, fc: bool, fd: bool, fe: bool, x: bool)
    requires a != b && a != c && a != d && a != e && b != c && b != d && b != e && c != d && c != e && d != e
    ensures Flags5(a, b, c, d, e, fa, fb, fc, fd, fe)[e := x] == Flags5(a, b, c, d, e, fa, fb, fc, fd, x)
  {
  }

  /** Toggling changes the named flag and no other, and keeps the keys. */
  lemma ToggleOnlyNamed(active: Flags, name: string, refused: bool)
    requires name in active
    ensures ToggleNamed(active, name, refused).Keys == active.Keys
    ensures ToggleNamed(active, name, refused)[name] <==> !active[name] && !refused
    ensures forall n :: n in active && n != name ==> ToggleNamed(active, name, refused)[n] == active[n]
  {
  }

  /** Toggling an unknown name changes nothing. */
  lemma UnknownNameIsIgnored(active: Flags, name: string, refused: bool)
    requires name !in active
    ensures ToggleNamed(active, name, refused) == active
  {
  }

  /** Toggling twice with no refusal restores every flag. */
  lemma ToggleTwiceRestores(active: Flags, name: string)
    ensures ToggleNamed(ToggleNamed(active, name, false), name, false) == active
  {
  }

  /** While locked, ToggleAttack changes nothing at all. */
  lemma LockedIsIdle(e: Engine, name: string, refused: bool)
    requires !e.engaged
    ensures LockedToggle(e, name, refused) == e
  {
  }

  /** Engaging moves the lock and no attack. */
  lemma EngageKeepsAttacks(e: Engine, registry: seq<string>)
    ensures SetEngage(e, true, registry) == Engine(true, e.active)
  {
  }

  /** After the disengage loop over `names`, a flag is on exactly when it
      was on and its name was not visited; the keys stay the same. */
  lemma {:induction false} SwitchOffClears(active: Flags, names: seq<string>)
    ensures SwitchOff(active, names).Keys == active.Keys
    ensures forall n :: n in active ==> (SwitchOff(active, names)[n] <==> active[n] && n !in names)
  {
    if names != [] {
      var init := names[..|names| - 1];
      var name := names[|names| - 1];
      SwitchOffClears(active, init);
      assert names == init + [name];
      var before := SwitchOff(active, init);
      if name in before && before[name] {
        ToggleOnlyNamed(before, name, false);
      }
    }
  }

  /** Disengaging leaves every registered attack off. */
  lemma DisengageLeavesNoneActive(e: Engine, registry: seq<string>)
    requires e.active.Keys <= set n | n in registry
    ensures !SetEngage(e, false, registry).engaged
    ensures SetEngage(e, false, registry).active.Keys == e.active.Keys
    ensures forall n :: n in e.active ==> !SetEngage(e, false, registry).active[n]
  {
    SwitchOffClears(e.active, registry);
  }

  /** The disengage loop, one more name. */
  lemma SwitchOffStep(active: Flags, names: seq<string>, i: nat)
    requires i < |names|
    ensures SwitchOff(active, names[..i + 1]) ==
              var before := SwitchOff(active, names[..i]);
              if names[i] in before && before[names[i]] then ToggleNamed(before, names[i], false) else before
  {
    assert names[..i + 1][..i] == names[..i];
  }
}
