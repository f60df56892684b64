/** The battery (Battery.cs): a bounded store that takes surplus with a
    charging loss and, when asked, releases charge with a discharging loss.
    A request only records how much to withdraw; the withdrawal itself
    happens in the battery's next Update, which then forgets the request. */
module Batteries {
  import opened Numeric
  import opened ComponentBase
  import opened Grid

  /** The battery's configuration (maxCapacity, chargeEfficiency,
      dischargeEfficiency). */
  datatype Settings = Settings(maxCapacity: real, chargeEfficiency: real, dischargeEfficiency: real)

  /** The battery's changing state: its charge and the pending withdrawal
      (the private dischargeAmount). */
  datatype Reserve = Reserve(charge: real, pending: real)

  const DefaultSettings: Settings := Settings(0.0, 0.9, 0.95)

  /** Efficiencies that lose energy rather than create it; a usable capacity. */
  predicate Sensible(s: Settings)
  {
    0.0 <= s.maxCapacity && 0.0 <= s.chargeEfficiency <= 1.0 && 0.0 < s.dischargeEfficiency <= 1.0
  }

  predicate InBounds(s: Settings, r: Reserve)
  {
    0.0 <= r.charge <= s.maxCapacity
  }

  /** StorePower: nothing when out of service; otherwise the charge grows by
      the surplus after the charging loss, capped by the room left. */
  function Store(s: Settings, r: Reserve, operational: bool, excess: real): (r': Reserve)
    ensures r'.pending == r.pending
    ensures !operational ==> r' == r
    ensures operational ==> r'.charge - r.charge <= excess * s.chargeEfficiency
    ensures operational ==> r'.charge <= s.maxCapacity
  {
    if !operational then r
    else Reserve(r.charge + Min(excess * s.chargeEfficiency, s.maxCapacity - r.charge), r.pending)
  }

  /** RequestPower: the pending withdrawal is replaced (not added to) by what
      must leave the store for `needed` to arrive after the discharging loss. */
  function Request(s: Settings, r: Reserve, operational: bool, needed: real): (r': Reserve)
    requires s.dischargeEfficiency != 0.0
    ensures r'.charge == r.charge
    ensures !operational ==> r' == r
    ensures operational ==> r'.pending * s.dischargeEfficiency == needed
  {
    if !operational then r else Reserve(r.charge, needed / s.dischargeEfficiency)
  }

  /** How much charge the next Update takes out. */
  function Withdrawal(r: Reserve): (w: real)
    ensures 0.0 <= w
    ensures w <= r.pending || w == 0.0
    ensures w <= r.charge || w == 0.0
  {
    if r.pending > 0.0 && r.charge > 0.0 then Min(r.pending, r.charge) else 0.0
  }

  /** The battery's Update on its reserve: a withdrawal and a forgotten
      request in service; out of service nothing at all, so a request made
      during an outage is still pending afterwards. */
  function Tick(r: Reserve, operational: bool): (r': Reserve)
    ensures !operational ==> r' == r
    ensures operational ==> r'.pending == 0.0
  {
    if !operational then r else Reserve(r.charge - Withdrawal(r), 0.0)
  }

  /** The power the battery's Update reports (its currentPower). */
  function Output(s: Settings, r: Reserve, operational: bool): real
  {
    if operational then Withdrawal(r) * s.dischargeEfficiency else 0.0
  }

  /** GetChargePercentage; the source divides without a guard. */
  function ChargePercentage(s: Settings, r: Reserve): (p: real)
    requires s.maxCapacity != 0.0
    ensures InBounds(s, r) ==> 0.0 <= p <= 100.0
    ensures p == 100.0 <==> r.charge == s.maxCapacity
  {
    (r.charge / s.maxCapacity) * 100.0
  }

  lemma StoreKeepsBounds(s: Settings, r: Reserve, operational: bool, excess: real)
    requires InBounds(s, r) && 0.0 <= s.chargeEfficiency && 0.0 <= excess
    ensures InBounds(s, Store(s, r, operational, excess))
    ensures r.charge <= Store(s, r, operational, excess).charge
  {
  }

  lemma TickKeepsBounds(s: Settings, r: Reserve, operational: bool)
    requires InBounds(s, r)
    ensures InBounds(s, Tick(r, operational))
    ensures Tick(r, operational).charge == r.charge - (if operational then Withdrawal(r) else 0.0)
  {
  }

  /** What reaches the grid never exceeds what was asked for. */
  lemma DeliveredWithinRequest(s: Settings, r: Reserve, needed: real)
    requires Sensible(s) && 0.0 <= needed
    ensures Output(s, Request(s, r, true, needed), true) <= needed
  {
    var r' := Request(s, r, true, needed);
    var w := Withdrawal(r');
    if w != 0.0 {
      assert w <= r'.pending;
      assert w * s.dischargeEfficiency <= r'.pending * s.dischargeEfficiency;
    }
  }

  /** With enough charge, a request is met exactly. */
  lemma RequestMetWhenCharged(s: Settings, r: Reserve, needed: real)
    requires Sensible(s) && 0.0 <= needed && needed / s.dischargeEfficiency <= r.charge
    ensures Output(s, Request(s, r, true, needed), true) == needed
    ensures Tick(Request(s, r, true, needed), true).charge == r.charge - needed / s.dischargeEfficiency
  {
  }

  lemma ProductNonNegative(a: real, b: real)
    requires 0.0 <= a && 0.0 <= b
    ensures 0.0 <= a * b
  {
  }

  lemma ScaleBack(a: real, b: real)
    requires 0.0 < b
    ensures (a * b) / b == a
  {
  }

  /** Storing `x` with room to spare and then asking for what survives both
      losses delivers exactly that amount. */
  lemma StoreThenRequest(s: Settings, r: Reserve, x: real)
    requires Sensible(s) && InBounds(s, r) && 0.0 <= x
    requires x * s.chargeEfficiency <= s.maxCapacity - r.charge
    ensures Output(s, Request(s, Store(s, r, true, x), true, x * s.chargeEfficiency * s.dischargeEfficiency), true)
              == x * s.chargeEfficiency * s.dischargeEfficiency
  {
    var kept := x * s.chargeEfficiency;
    var asked := kept * s.dischargeEfficiency;
    ProductNonNegative(x, s.chargeEfficiency);
    ScaleBack(kept, s.dischargeEfficiency);
    var stored := Store(s, r, true, x);
    assert stored.charge == r.charge + kept;
    var r' := Request(s, stored, true, asked);
    assert r' == Reserve(r.charge + kept, kept);
    assert Withdrawal(r') == kept;
  }

  /** One call on the battery from outside, in the order they happen. */
  datatype Call = StoreCall(excess: real) | RequestCall(needed: real) | UpdateCall

  function Apply(s: Settings, r: Reserve, operational: bool, c: Call): Reserve
    requires s.dischargeEfficiency != 0.0
  {
    match c
    case StoreCall(excess) => Store(s, r, operational, excess)
    case RequestCall(needed) => Request(s, r, operational, needed)
    case UpdateCall => Tick(r, operational)
  }

  function Run(s: Settings, r: Reserve, operational: bool, cs: seq<Call>): Reserve
    requires s.dischargeEfficiency != 0.0
    decreases cs
  {
    if cs == [] then r else Run(s, Apply(s, r, operational, cs[0]), operational, cs[1..])
  }

  predicate NonNegativeOffers(cs: seq<Call>)
  {
    forall i :: 0 <= i < |cs| && cs[i].StoreCall? ==> 0.0 <= cs[i].excess
  }

  /** Whatever sequence of surplus offers, requests and updates reaches the
      battery, its charge stays between empty and full. */
  lemma {:induction false} ChargeStaysInBounds(s: Settings, r: Reserve, operational: bool, cs: seq<Call>)
    requires Sensible(s) && InBounds(s, r) && NonNegativeOffers(cs)
    ensures InBounds(s, Run(s, r, operational, cs))
    decreases cs
  {
    if cs != [] {
      match cs[0] {
        case StoreCall(excess) => StoreKeepsBounds(s, r, operational, excess);
        case RequestCall(_) =>
        case UpdateCall => TickKeepsBounds(s, r, operational);
      }
      assert NonNegativeOffers(cs[1..]) by {
        forall i | 0 <= i < |cs[1..]| && cs[1..][i].StoreCall? ensures 0.0 <= cs[1..][i].excess {
          assert cs[1..][i] == cs[i + 1];
        }
      }
      ChargeStaysInBounds(s, Apply(s, r, operational, cs[0]), operational, cs[1..]);
    }
  }

  class Battery {
    const base: PowerComponentBase
    var outputGrid: PowerGrid?
    var maxCapacity: real
    var currentCharge: real
    var chargeEfficiency: real
    var dischargeEfficiency: real
    var dischargeAmount: real

    function GetSettings(): Settings
      reads this`maxCapacity, this`chargeEfficiency, this`dischargeEfficiency
    {
      Settings(maxCapacity, chargeEfficiency, dischargeEfficiency)
    }

    function GetReserve(): Reserve
      reads this`currentCharge, this`dischargeAmount
    {
      Reserve(currentCharge, dischargeAmount)
    }

    constructor (grid: PowerGrid?, capacity: real)
      ensures fresh(base) && base.isOperational && base.currentPower == 0.0
      ensures outputGrid == grid
      ensures GetSettings() == DefaultSettings.(maxCapacity := capacity)
      ensures GetReserve() == Reserve(0.0, 0.0)
    {
      base := new PowerComponentBase();
      outputGrid := grid;
      maxCapacity := capacity;
      currentCharge := 0.0;
      chargeEfficiency := 0.9;
      dischargeEfficiency := 0.95;
      dischargeAmount := 0.0;
    }

    /** The battery's per-frame Update. */
    method Update()
      modifies this`currentCharge, this`dischargeAmount, base`currentPower
      modifies (if outputGrid == null then {} else {outputGrid})`powerSources
      modifies (if outputGrid == null then {} else {outputGrid})`totalAvailablePower
      ensures GetReserve() == Tick(old(GetReserve()), base.isOperational)
      ensures base.currentPower == Output(GetSettings(), old(GetReserve()), base.isOperational)
      ensures outputGrid != null ==>
                (outputGrid.GetLedger() ==
                   if base.isOperational && Withdrawal(old(GetReserve())) != 0.0
                   then Receive(old(outputGrid.GetLedger()), this, base.currentPower)
                   else old(outputGrid.GetLedger()))
    {
      if !base.isOperational {
        base.currentPower := 0.0;
        return;
      }
      if dischargeAmount > 0.0 && currentCharge > 0.0 {
        var actualDischarge := Min(dischargeAmount, currentCharge);
        base.currentPower := actualDischarge * dischargeEfficiency;
        currentCharge := currentCharge - actualDischarge;
        if outputGrid != null {
          outputGrid.ReceivePower(this, base.currentPower);
        }
      } else {
        base.currentPower := 0.0;
      }
      dischargeAmount := 0.0;
    }

    method StorePower(excessPower: real)
      modifies this`currentCharge
      ensures GetReserve() == Store(GetSettings(), old(GetReserve()), base.isOperational, excessPower)
    {
      if !base.isOperational {
        return;
      }
      var spaceAvailable := maxCapacity - currentCharge;
      var actualCharge := Min(excessPower * chargeEfficiency, spaceAvailable);
      currentCharge := currentCharge + actualCharge;
    }

    method RequestPower(neededAmount: real)
      requires dischargeEfficiency != 0.0
      modifies this`dischargeAmount
      ensures GetReserve() == Request(GetSettings(), old(GetReserve()), base.isOperational, neededAmount)
    {
      if !base.isOperational {
        return;
      }
      dischargeAmount := neededAmount / dischargeEfficiency;
    }

    function GetChargePercentage(): real
      requires maxCapacity != 0.0
      reads this`currentCharge, this`dischargeAmount
      reads this`maxCapacity, this`chargeEfficiency, this`dischargeEfficiency
    {
      ChargePercentage(GetSettings(), GetReserve())
    }
  }
}
