/** The power grid and its consumers (PowerGrid.cs and Consumer.cs). The two
    classes call each other (a consumer registers with its grid, the grid
    feeds its consumers), so they share one module.

    The grid sums whatever its sources (transformer, battery) report during a
    frame and, in its own Update, rations that total to the operational
    consumers: everyone gets their demand when there is enough, otherwise
    everyone gets the same fraction of their demand. */
module Grid {
  import opened Numeric
  import opened Collections
  import opened ComponentBase

  // ---------------------------------------------------------------------
  // The rationing rule, on values

  /** What the grid reads from one entry of its consumer list: whether the
      reference is live (non-null), whether that consumer is operational,
      and its configured demand. */
  datatype Load = Load(live: bool, operational: bool, demand: real)

  /** The entry's term in GetTotalDemand. */
  function Demand(l: Load): real
  {
    if l.live && l.operational then l.demand else 0.0
  }

  function Demands(ls: seq<Load>): (ds: seq<real>)
    ensures |ds| == |ls|
    ensures forall i :: 0 <= i < |ls| ==> ds[i] == Demand(ls[i])
  {
    seq(|ls|, i requires 0 <= i < |ls| => Demand(ls[i]))
  }

  function TotalDemand(ls: seq<Load>): real
  {
    Sum(Demands(ls))
  }

  predicate NonNegativeDemands(ls: seq<Load>)
  {
    forall i :: 0 <= i < |ls| ==> 0.0 <= ls[i].demand
  }

  lemma TotalDemandAppend(ls: seq<Load>, l: Load)
    ensures TotalDemand(ls + [l]) == TotalDemand(ls) + Demand(l)
  {
    assert Demands(ls + [l]) == Demands(ls) + [Demand(l)];
    assert (Demands(ls) + [Demand(l)])[..|ls|] == Demands(ls);
  }

  lemma TotalDemandNonNegative(ls: seq<Load>)
    requires NonNegativeDemands(ls)
    ensures 0.0 <= TotalDemand(ls)
  {
    SumNonNegative(Demands(ls));
  }

  /** An entry's share under rationing: its demand times the common ratio. */
  function Share(demand: real, ratio: real): real
  {
    demand * ratio
  }

  /** What DistributePower hands one entry: its demand when the power
      covers the total (`full`), otherwise its demand times the common
      `ratio`; None when the entry is skipped. */
  function Grant(l: Load, full: bool, ratio: real): Option<real>
  {
    if !(l.live && l.operational) then None
    else if full then Some(l.demand)
    else Some(Share(l.demand, ratio))
  }

  /** DistributePower over the whole list: nothing at all when the list is
      empty or the total demand is not positive; otherwise every entry is
      granted against the same test and the same ratio, power over total
      demand. */
  function Distribution(ls: seq<Load>, power: real): (gs: seq<Option<real>>)
    ensures |gs| == |ls|
  {
    if |ls| == 0 || TotalDemand(ls) <= 0.0 then seq(|ls|, _ => None)
    else
      var total := TotalDemand(ls);
      seq(|ls|, i requires 0 <= i < |ls| => Grant(ls[i], power >= total, power / total))
  }

  /** A consumer's received power after DistributePower: the grant, or what
      it held before when it was skipped. */
  function Granted(g: Option<real>, previous: real): real
  {
    if g.Some? then g.value else previous
  }

  function Delivered(g: Option<real>): real
  {
    if g.Some? then g.value else 0.0
  }

  /** The sum of everything DistributePower hands out. */
  function TotalDelivered(gs: seq<Option<real>>): real
  {
    Sum(seq(|gs|, i requires 0 <= i < |gs| => Delivered(gs[i])))
  }

  /** No consumer is handed more than it asked for, nor a negative amount. */
  lemma GrantWithinDemand(ls: seq<Load>, power: real, i: nat)
    requires NonNegativeDemands(ls) && 0.0 <= power && i < |ls|
    ensures Distribution(ls, power)[i].Some? ==>
              0.0 <= Distribution(ls, power)[i].value <= ls[i].demand
  {
    if Distribution(ls, power)[i].Some? {
      var total := TotalDemand(ls);
      if power < total {
        var r := power / total;
        assert 0.0 <= r <= 1.0;
        assert ls[i].demand * r <= ls[i].demand * 1.0;
      }
    }
  }

  /** With positive total demand, each entry is handed its Grant. */
  lemma GrantAt(ls: seq<Load>, power: real, i: nat)
    requires i < |ls| && 0.0 < TotalDemand(ls)
    ensures Distribution(ls, power)[i] == Grant(ls[i], power >= TotalDemand(ls), power / TotalDemand(ls))
  {
  }

  /** With enough power, every live operational consumer is handed exactly
      its demand, and skipped entries are exactly the others. */
  lemma FullSupply(ls: seq<Load>, power: real, i: nat)
    requires i < |ls| && 0.0 < TotalDemand(ls) <= power
    ensures Distribution(ls, power)[i] ==
              if ls[i].live && ls[i].operational then Some(ls[i].demand) else None
  {
    GrantAt(ls, power, i);
  }

  /** Under shortage every live operational consumer is handed the same
      fraction, power over total demand, of its demand, and skipped
      entries are exactly the others. */
  lemma Shortage(ls: seq<Load>, power: real, i: nat)
    requires i < |ls| && 0.0 < TotalDemand(ls) && power < TotalDemand(ls)
    ensures Distribution(ls, power)[i] ==
              if ls[i].live && ls[i].operational then Some(Share(ls[i].demand, power / TotalDemand(ls))) else None
  {
    GrantAt(ls, power, i);
  }

  /** Under shortage the hand-outs add up to exactly the power held:
      rationing is proportional and loses nothing. */
  lemma {:induction false} ShortageSharesEverything(ls: seq<Load>, power: real)
    requires 0.0 < TotalDemand(ls) && power < TotalDemand(ls)
    ensures TotalDelivered(Distribution(ls, power)) == power
  {
    var total := TotalDemand(ls);
    var gs := Distribution(ls, power);
    var delivered := seq(|gs|, i requires 0 <= i < |gs| => Delivered(gs[i]));
    forall i | 0 <= i < |ls| ensures delivered[i] == Demands(ls)[i] * (power / total) {
    }
    SumScaled(Demands(ls), delivered, power / total);
    assert Sum(delivered) == total * (power / total);
  }

  /** Whatever the power, the grid never hands out more than it holds. */
  lemma NeverOverAllocates(ls: seq<Load>, power: real)
    requires NonNegativeDemands(ls) && 0.0 <= power
    ensures TotalDelivered(Distribution(ls, power)) <= power
  {
    var gs := Distribution(ls, power);
    var delivered := seq(|gs|, i requires 0 <= i < |gs| => Delivered(gs[i]));
    if |ls| == 0 || TotalDemand(ls) <= 0.0 {
      assert forall i :: 0 <= i < |delivered| ==> delivered[i] == 0.0 * 1.0;
      SumScaled(delivered, delivered, 0.0);
    } else if TotalDemand(ls) <= power {
      assert delivered == Demands(ls);
    } else {
      ShortageSharesEverything(ls, power);
    }
  }

  /** The grid's power bookkeeping for one frame: the last amount each
      source reported, and the running total of everything reported. */
  datatype Ledger = Ledger(sources: map<object, real>, total: real)

  /** ReceivePower: the source's entry is overwritten, the total is added to. */
  function Receive(l: Ledger, source: object, power: real): (r: Ledger)
    ensures r.sources.Keys == l.sources.Keys + {source}
    ensures r.sources[source] == power && r.total == l.total + power
    ensures forall o :: o in l.sources && o != source ==> r.sources[o] == l.sources[o]
  {
    Ledger(l.sources[source := power], l.total + power)
  }

  /** The end of Update: an operational grid starts the next frame empty; a
      non-operational one returns before the reset and keeps everything. */
  function AfterUpdate(l: Ledger, operational: bool): Ledger
  {
    if operational then Ledger(map[], 0.0) else l
  }

  /** `frames` frames in which one source reports `power` and the grid then
      runs its Update with the given operational flag. */
  function Frames(l: Ledger, source: object, power: real, operational: bool, frames: nat): Ledger
  {
    if frames == 0 then l
    else AfterUpdate(Receive(Frames(l, source, power, operational, frames - 1), source, power), operational)
  }

  /** Reporting twice from the same source counts twice in the total, though
      the per-source entry shows only the last report. */
  lemma RepeatedReportCountsTwice(l: Ledger, source: object, power: real)
    ensures Receive(Receive(l, source, power), source, power).total == l.total + 2.0 * power
    ensures Receive(Receive(l, source, power), source, power).sources[source] == power
  {
  }

  /** While the grid is out of service, reported power piles up frame after
      frame instead of being discarded. */
  lemma {:induction false} OutageAccumulates(l: Ledger, source: object, power: real, frames: nat)
    ensures Frames(l, source, power, false, frames).total == l.total + (frames as real) * power
  {
    if frames > 0 {
      OutageAccumulates(l, source, power, frames - 1);
    }
  }

  /** In service, each frame starts from an empty ledger. */
  lemma InServiceResets(l: Ledger, source: object, power: real, frames: nat)
    requires 0 < frames
    ensures Frames(l, source, power, true, frames) == Ledger(map[], 0.0)
  {
  }

  // ---------------------------------------------------------------------
  // The objects

  class Consumer {
    const base: PowerComponentBase
    var inputGrid: PowerGrid?
    var powerDemand: real
    var receivedPower: real
    var isPowerShortage: bool
    /** Consumer.cs declares its own `currentPower` property, which hides the
        inherited field: `base.currentPower` is never written by a consumer,
        so the inherited GetCurrentPower keeps reporting 0. */
    var currentPower: real

    constructor (grid: PowerGrid?)
      ensures fresh(base) && base.isOperational && base.visualisationEnabled
      ensures base.currentPower == 0.0 && inputGrid == grid
      ensures powerDemand == 5.0 && receivedPower == 0.0 && currentPower == 0.0
      ensures !isPowerShortage
    {
      base := new PowerComponentBase();
      inputGrid := grid;
      powerDemand := 5.0;
      receivedPower := 0.0;
      isPowerShortage := false;
      currentPower := 0.0;
    }

    /** Registration done in Awake. */
    method Awake()
      requires inputGrid != null ==> inputGrid.Valid()
      modifies inputGrid
      ensures inputGrid != null ==> inputGrid.Valid() && this in inputGrid.connectedConsumers
      ensures inputGrid != null ==>
                inputGrid.connectedConsumers == AddIfAbsent(old(inputGrid.connectedConsumers), this)
      ensures inputGrid != null ==> unchanged(inputGrid`powerSources, inputGrid`totalAvailablePower)
    {
      if inputGrid != null {
        inputGrid.RegisterConsumer(this);
      }
    }

    /** Deregistration done in OnDestroy. */
    method OnDestroy()
      requires inputGrid != null ==> inputGrid.Valid()
      modifies inputGrid
      ensures inputGrid != null ==> inputGrid.Valid() && this !in inputGrid.connectedConsumers
      ensures inputGrid != null ==>
                inputGrid.connectedConsumers == RemoveFirst(old(inputGrid.connectedConsumers), this)
      ensures inputGrid != null ==> unchanged(inputGrid`powerSources, inputGrid`totalAvailablePower)
    {
      if inputGrid != null {
        inputGrid.UnregisterConsumer(this);
      }
    }

    /** The consumer's per-frame Update. */
    method Update()
      modifies this`currentPower, this`isPowerShortage, this`receivedPower
      ensures !base.isOperational ==> currentPower == 0.0
      ensures !base.isOperational ==>
                receivedPower == old(receivedPower) && isPowerShortage == old(isPowerShortage)
      ensures base.isOperational ==> currentPower == old(receivedPower) && receivedPower == 0.0
      ensures base.isOperational ==> (isPowerShortage <==> currentPower < powerDemand * 0.99)
    {
      if !base.isOperational {
        currentPower := 0.0;
        return;
      }
      currentPower := receivedPower;
      isPowerShortage := currentPower < powerDemand * 0.99;
      receivedPower := 0.0;
    }

    method ReceivePower(power: real)
      modifies this`receivedPower
      ensures receivedPower == power
    {
      receivedPower := power;
    }

    function GetPowerDemand(): real
      reads this`powerDemand, base`isOperational
    {
      if base.isOperational then powerDemand else 0.0
    }
  }

  /** The entry the grid sees for one reference in its consumer list. */
  function LoadOf(c: Consumer?): (l: Load)
    reads if c == null then {} else {c}`powerDemand, if c == null then {} else {c.base}`isOperational
  {
    if c == null then Load(false, false, 0.0)
    else Load(true, c.base.isOperational, c.powerDemand)
  }

  /** What a consumer reports as its demand is exactly what the grid's total
      counts for it. */
  lemma ReportedDemandIsCounted(c: Consumer)
    ensures c.GetPowerDemand() == Demand(LoadOf(c))
  {
  }

  function LoadsOf(cs: seq<Consumer?>): (ls: seq<Load>)
    reads (set c: Consumer | c in cs)`powerDemand, (set c: Consumer | c in cs :: c.base)`isOperational
    ensures |ls| == |cs|
    ensures forall i :: 0 <= i < |cs| ==> ls[i] == LoadOf(cs[i])
  {
    if cs == [] then [] else LoadsOf(cs[..|cs| - 1]) + [LoadOf(cs[|cs| - 1])]
  }

  /** The loads read from a list stay put while no consumer's demand or
      operational flag changes. */
  twostate lemma LoadsUnchanged(cs: seq<Consumer?>)
    requires unchanged((set c: Consumer | c in cs)`powerDemand, (set c: Consumer | c in cs :: c.base)`isOperational)
    ensures LoadsOf(cs) == old(LoadsOf(cs))
  {
  }

  /** What the status overlay and the money manager read from a consumer: its operational flag, the
      consumer's own currentPower and GetPowerDemand(). */
  datatype Reading = Reading(operational: bool, power: real, demand: real)

  /** A consumer as those managers see it. */
  function ReadingOf(c: Consumer): Reading
    reads c`currentPower, c`powerDemand, c.base`isOperational
  {
    Reading(c.base.isOperational, c.currentPower, c.GetPowerDemand())
  }

  /** A null entry reads as a non-operational consumer. */
  function ReadingsOf(cs: seq<Consumer?>): (rs: seq<Reading>)
    reads (set c: Consumer | c in cs)`currentPower, (set c: Consumer | c in cs)`powerDemand
    reads (set c: Consumer | c in cs :: c.base)`isOperational
    ensures |rs| == |cs|
    ensures forall i :: 0 <= i < |cs| && cs[i] != null ==> rs[i] == ReadingOf(cs[i])
    ensures forall i :: 0 <= i < |cs| && cs[i] == null ==> rs[i] == Reading(false, 0.0, 0.0)
  {
    if cs == [] then []
    else
      var c := cs[|cs| - 1];
      ReadingsOf(cs[..|cs| - 1]) + [if c == null then Reading(false, 0.0, 0.0) else ReadingOf(c)]
  }

  /** The readings of a list stay put while no consumer's power, demand or
      operational flag changes. */
  twostate lemma ReadingsUnchanged(cs: seq<Consumer?>)
    requires unchanged((set c: Consumer | c in cs)`currentPower, (set c: Consumer | c in cs)`powerDemand)
    requires unchanged((set c: Consumer | c in cs :: c.base)`isOperational)
    ensures ReadingsOf(cs) == old(ReadingsOf(cs))
  {
  }

  class PowerGrid {
    const base: PowerComponentBase
    var connectedConsumers: seq<Consumer?>
    var powerSources: map<object, real>
    var totalAvailablePower: real

    /** RegisterConsumer never adds a consumer twice. */
    ghost predicate Valid()
      reads this
    {
      NoDuplicates(connectedConsumers)
    }

    function GetLedger(): Ledger
      reads this`powerSources, this`totalAvailablePower
    {
      Ledger(powerSources, totalAvailablePower)
    }

    constructor ()
      ensures Valid() && fresh(base) && base.isOperational && base.currentPower == 0.0
      ensures connectedConsumers == [] && GetLedger() == Ledger(map[], 0.0)
    {
      base := new PowerComponentBase();
      connectedConsumers := [];
      powerSources := map[];
      totalAvailablePower := 0.0;
    }

    method RegisterConsumer(consumer: Consumer?)
      requires Valid()
      modifies this`connectedConsumers
      ensures Valid() && consumer in connectedConsumers
      ensures connectedConsumers == AddIfAbsent(old(connectedConsumers), consumer)
    {
      if consumer !in connectedConsumers {
        connectedConsumers := connectedConsumers + [consumer];
      }
    }

    method UnregisterConsumer(consumer: Consumer?)
      requires Valid()
      modifies this`connectedConsumers
      ensures Valid() && consumer !in connectedConsumers
      ensures connectedConsumers == RemoveFirst(old(connectedConsumers), consumer)
      ensures forall c :: c != consumer ==> (c in connectedConsumers <==> c in old(connectedConsumers))
    {
      RemoveFirstRemovesAll(connectedConsumers, consumer);
      connectedConsumers := RemoveFirst(connectedConsumers, consumer);
    }

    /** Called by the transformer and the battery. */
    method ReceivePower(source: object, power: real)
      modifies this`powerSources, this`totalAvailablePower
      ensures GetLedger() == Receive(old(GetLedger()), source, power)
    {
      powerSources := powerSources[source := power];
      totalAvailablePower := totalAvailablePower + power;
    }

    /** The summing loop of GetTotalDemand. */
    method GetTotalDemand() returns (totalDemand: real)
      ensures totalDemand == TotalDemand(LoadsOf(connectedConsumers))
    {
      totalDemand := 0.0;
      var i := 0;
      while i < |connectedConsumers|
        invariant 0 <= i <= |connectedConsumers|
        invariant totalDemand == TotalDemand(LoadsOf(connectedConsumers)[..i])
      {
        var consumer := connectedConsumers[i];
        assert LoadsOf(connectedConsumers)[..i + 1] == LoadsOf(connectedConsumers)[..i] + [LoadOf(consumer)];
        TotalDemandAppend(LoadsOf(connectedConsumers)[..i], LoadOf(consumer));
        if consumer != null && consumer.base.IsOperational() {
          totalDemand := totalDemand + consumer.GetPowerDemand();
        }
        i := i + 1;
      }
      assert LoadsOf(connectedConsumers)[..i] == LoadsOf(connectedConsumers);
    }

    /** The full-supply loop of DistributePower: every live, operational
        consumer receives its demand; the others keep what they had. */
    method GiveDemands()
      requires Valid()
      modifies (set c: Consumer | c in connectedConsumers)`receivedPower
      ensures forall k :: 0 <= k < |connectedConsumers| && connectedConsumers[k] != null ==>
                connectedConsumers[k].receivedPower ==
                  if connectedConsumers[k].base.isOperational then connectedConsumers[k].powerDemand
                  else old(connectedConsumers[k].receivedPower)
    {
      var i := 0;
      while i < |connectedConsumers|
        invariant 0 <= i <= |connectedConsumers|
        invariant forall k :: 0 <= k < i && connectedConsumers[k] != null ==>
                    connectedConsumers[k].receivedPower ==
                      if connectedConsumers[k].base.isOperational then connectedConsumers[k].powerDemand
                      else old(connectedConsumers[k].receivedPower)
        invariant forall k :: i <= k < |connectedConsumers| && connectedConsumers[k] != null ==>
                    connectedConsumers[k].receivedPower == old(connectedConsumers[k].receivedPower)
      {
        var consumer := connectedConsumers[i];
        if consumer != null && consumer.base.IsOperational() {
          assert forall k :: 0 <= k < |connectedConsumers| && k != i ==> connectedConsumers[k] != consumer;
          consumer.ReceivePower(consumer.GetPowerDemand());
        }
        i := i + 1;
      }
    }

    /** The shortage loop of DistributePower: every live, operational
        consumer receives its demand times `ratio`; the others keep what
        they had. */
    method GiveShares(ratio: real)
      requires Valid()
      modifies (set c: Consumer | c in connectedConsumers)`receivedPower
      ensures forall k :: 0 <= k < |connectedConsumers| && connectedConsumers[k] != null ==>
                connectedConsumers[k].receivedPower ==
                  if connectedConsumers[k].base.isOperational then Share(connectedConsumers[k].powerDemand, ratio)
                  else old(connectedConsumers[k].receivedPower)
    {
      var i := 0;
      while i < |connectedConsumers|
        invariant 0 <= i <= |connectedConsumers|
        invariant forall k :: 0 <= k < i && connectedConsumers[k] != null ==>
                    connectedConsumers[k].receivedPower ==
                      if connectedConsumers[k].base.isOperational then Share(connectedConsumers[k].powerDemand, ratio)
                      else old(connectedConsumers[k].receivedPower)
        invariant forall k :: i <= k < |connectedConsumers| && connectedConsumers[k] != null ==>
                    connectedConsumers[k].receivedPower == old(connectedConsumers[k].receivedPower)
      {
        var consumer := connectedConsumers[i];
        if consumer != null && consumer.base.IsOperational() {
          var allocation := consumer.GetPowerDemand() * ratio;
          assert forall k :: 0 <= k < |connectedConsumers| && k != i ==> connectedConsumers[k] != consumer;
          consumer.ReceivePower(allocation);
        }
        i := i + 1;
      }
    }

    /** Hands each operational consumer its share of `base.currentPower`. */
    method DistributePower()
      requires Valid()
      modifies (set c: Consumer | c in connectedConsumers)`receivedPower
      ensures forall i :: 0 <= i < |connectedConsumers| && connectedConsumers[i] != null ==>
                connectedConsumers[i].receivedPower ==
                  Granted(Distribution(old(LoadsOf(connectedConsumers)), base.currentPower)[i],
                          old(connectedConsumers[i].receivedPower))
    {
      var totalDemand := GetTotalDemand();
      ghost var ls := LoadsOf(connectedConsumers);
      if |connectedConsumers| == 0 || totalDemand <= 0.0 {
        return;
      }
      if base.currentPower >= totalDemand {
        GiveDemands();
        forall i | 0 <= i < |connectedConsumers| && connectedConsumers[i] != null
          ensures connectedConsumers[i].receivedPower ==
                    Granted(Distribution(ls, base.currentPower)[i], old(connectedConsumers[i].receivedPower))
        {
          FullSupply(ls, base.currentPower, i);
        }
      } else {
        var ratio := base.currentPower / totalDemand;
        GiveShares(ratio);
        forall i | 0 <= i < |connectedConsumers| && connectedConsumers[i] != null
          ensures connectedConsumers[i].receivedPower ==
                    Granted(Distribution(ls, base.currentPower)[i], old(connectedConsumers[i].receivedPower))
        {
          Shortage(ls, base.currentPower, i);
        }
      }
    }

    /** The grid's per-frame Update. */
    method Update()
      requires Valid()
      modifies base`currentPower, this`totalAvailablePower, this`powerSources
      modifies (set c: Consumer | c in connectedConsumers)`receivedPower
      ensures !old(base.isOperational) ==> base.currentPower == 0.0
      ensures GetLedger() == AfterUpdate(old(GetLedger()), old(base.isOperational))
      ensures old(base.isOperational) ==> base.currentPower == old(totalAvailablePower)
      ensures forall i :: 0 <= i < |connectedConsumers| && connectedConsumers[i] != null ==>
                connectedConsumers[i].receivedPower ==
                  if !old(base.isOperational) then old(connectedConsumers[i].receivedPower)
                  else Granted(Distribution(old(LoadsOf(connectedConsumers)), old(totalAvailablePower))[i],
                               old(connectedConsumers[i].receivedPower))
    {
      if !base.isOperational {
        base.currentPower := 0.0;
        return;
      }
      base.currentPower := totalAvailablePower;
      DistributePower();
      totalAvailablePower := 0.0;
      powerSources := map[];
    }
  }
}
