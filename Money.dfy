/** Revenue and insurance accounting (MoneyManager.cs). Every interval the
    manager prices what each operational consumer asked for and what it
    was actually given, and keeps a per-consumer outage timer that pays a
    fixed insurance sum once per continuous outage. */
module Money {
  import opened Numeric
  import opened Grid
  import opened PowerSystem

  /** basePricePerUnit, insuranceThreshold, insurancePayout and updateInterval. */
  datatype Tariff = Tariff(price: real, threshold: real, payout: real, interval: real)

  const DefaultTariff: Tariff := Tariff(0.15, 10.0, 50.0, 1.0)

  /** Below this share of its demand a consumer is in outage. */
  const OutageRatio: real := 0.1

  /** What an operational consumer could pay this interval. */
  function Potential(r: Reading, price: real): real
  {
    if r.operational then r.demand * price else 0.0
  }

  /** The share of its demand a consumer paid for: delivered over demanded,
      clamped to [0, 1], and 0 when nothing is demanded. */
  function Satisfaction(r: Reading): (x: real)
    ensures 0.0 <= x <= 1.0
    ensures 0.0 < r.demand <= r.power ==> x == 1.0
    ensures r.demand <= 0.0 || r.power <= 0.0 ==> x == 0.0
  {
    if r.demand > 0.0 then
      var q := r.power / r.demand;
      assert r.demand <= r.power ==> 1.0 <= q by {
        if r.demand <= r.power && q < 1.0 {
          assert false;
        }
      }
      assert r.power <= 0.0 ==> q <= 0.0 by {
        if r.power <= 0.0 && 0.0 < q {
          assert false;
        }
      }
      Clamp01(q)
    else 0.0
  }

  /** What the consumer actually paid. */
  function Actual(r: Reading, price: real): real
  {
    Potential(r, price) * Satisfaction(r)
  }

  function Potentials(rs: seq<Reading>, price: real): (ps: seq<real>)
    ensures |ps| == |rs|
    ensures forall i :: 0 <= i < |rs| ==> ps[i] == Potential(rs[i], price)
  {
    seq(|rs|, i requires 0 <= i < |rs| => Potential(rs[i], price))
  }

  function Actuals(rs: seq<Reading>, price: real): (xs: seq<real>)
    ensures |xs| == |rs|
    ensures forall i :: 0 <= i < |rs| ==> xs[i] == Actual(rs[i], price)
  {
    seq(|rs|, i requires 0 <= i < |rs| => Actual(rs[i], price))
  }

  /** totalPotentialRevenue and actualRevenue for one interval. */
  datatype Revenue = Revenue(potential: real, actual: real)

  function RevenueOf(rs: seq<Reading>, price: real): Revenue
  {
    Revenue(Sum(Potentials(rs, price)), Sum(Actuals(rs, price)))
  }

  /** Demands are non-negative for every operational consumer. */
  predicate SensibleDemands(rs: seq<Reading>)
  {
    forall i :: 0 <= i < |rs| && rs[i].operational ==> 0.0 <= rs[i].demand
  }

  /** Because the satisfaction is clamped, a consumer never pays more than
      it could, so the revenue loss is never negative. */
  lemma ActualWithinPotential(rs: seq<Reading>, price: real)
    requires 0.0 <= price && SensibleDemands(rs)
    ensures 0.0 <= RevenueOf(rs, price).actual <= RevenueOf(rs, price).potential
  {
    var ps := Potentials(rs, price);
    var xs := Actuals(rs, price);
    forall i | 0 <= i < |rs|
      ensures 0.0 <= xs[i] <= ps[i]
    {
      var p := Potential(rs[i], price);
      var s := Satisfaction(rs[i]);
      assert 0.0 <= p;
      assert p * s <= p * 1.0;
    }
    SumNonNegative(xs);
    SumMonotone(xs, ps);
  }

  /** When every operational consumer gets at least its demand, nothing is
      lost. */
  lemma FullSupplyLosesNothing(rs: seq<Reading>, price: real)
    requires forall i :: 0 <= i < |rs| && rs[i].operational ==> 0.0 <= rs[i].demand <= rs[i].power
    ensures RevenueOf(rs, price).actual == RevenueOf(rs, price).potential
  {
    assert Actuals(rs, price) == Potentials(rs, price) by {
      forall i | 0 <= i < |rs|
        ensures Actual(rs[i], price) == Potential(rs[i], price)
      {
        if rs[i].operational && rs[i].demand == 0.0 {
          assert Potential(rs[i], price) == 0.0;
        }
      }
    }
  }

  /** The outage timers (consumerOutages) and insurancePayoutTotal. */
  datatype Outages = Outages(timers: map<Consumer, real>, payouts: real)

  /** The unclamped ratio TrackOutage compares with OutageRatio. */
  function SupplyRatio(r: Reading): real
  {
    if r.demand > 0.0 then r.power / r.demand else 0.0
  }

  /** The timer has just crossed the threshold: it lies in the one interval
      after it. */
  predicate PaysOut(timer: real, t: Tariff)
  {
    t.threshold <= timer < t.threshold + t.interval
  }

  /** TrackOutage for one consumer. A consumer that is out of service keeps
      whatever timer it had. */
  function TrackOne(o: Outages, c: Consumer, r: Reading, t: Tariff): (o': Outages)
    ensures !r.operational ==> o' == o
    ensures r.operational && SupplyRatio(r) < OutageRatio ==>
              && c in o'.timers
              && o'.timers[c] == (if c in o.timers then o.timers[c] else 0.0) + t.interval
              && o'.timers == o.timers[c := o'.timers[c]]
              && o'.payouts == o.payouts + (if PaysOut(o'.timers[c], t) then t.payout else 0.0)
    ensures r.operational && OutageRatio <= SupplyRatio(r) ==>
              o'.timers == o.timers - {c} && o'.payouts == o.payouts
  {
    if !r.operational then o
    else if SupplyRatio(r) < OutageRatio then
      var timer := (if c in o.timers then o.timers[c] else 0.0) + t.interval;
      Outages(o.timers[c := timer], o.payouts + if PaysOut(timer, t) then t.payout else 0.0)
    else Outages(o.timers - {c}, o.payouts)
  }

  /** An operational consumer that demands nothing counts as being in
      outage, whatever it receives. */
  lemma ZeroDemandIsOutage(o: Outages, c: Consumer, r: Reading, t: Tariff)
    requires r.operational && r.demand <= 0.0
    ensures c in TrackOne(o, c, r, t).timers
  {
  }

  /** The same consumer tracked `n` times in a row with the same reading. */
  function Repeat(o: Outages, c: Consumer, r: Reading, t: Tariff, n: nat): Outages
    decreases n
  {
    if n == 0 then o else TrackOne(Repeat(o, c, r, t, n - 1), c, r, t)
  }

  /** A continuous outage starting from no timer: after `n` intervals the
      timer reads n intervals, and the insurance has paid out exactly once
      if the timer has reached the threshold and not at all before. */
  lemma {:induction false} PayoutOncePerOutage(o: Outages, c: Consumer, r: Reading, t: Tariff, n: nat)
    requires r.operational && SupplyRatio(r) < OutageRatio && c !in o.timers
    requires 0.0 < t.interval && 0.0 < t.threshold
    ensures 0 < n ==> c in Repeat(o, c, r, t, n).timers && Repeat(o, c, r, t, n).timers[c] == n as real * t.interval
    ensures Repeat(o, c, r, t, n).payouts ==
              o.payouts + if t.threshold <= n as real * t.interval then t.payout else 0.0
    decreases n
  {
    if n > 0 {
      var before := Repeat(o, c, r, t, n - 1);
      PayoutOncePerOutage(o, c, r, t, n - 1);
      var previous := if c in before.timers then before.timers[c] else 0.0;
      assert previous == (n - 1) as real * t.interval;
      assert n as real * t.interval == previous + t.interval;
    }
  }

  /** TrackOutage over the manager's list, first to last. */
  function TrackAll(o: Outages, cs: seq<Consumer?>, rs: seq<Reading>, t: Tariff): Outages
    requires |cs| == |rs|
    decreases |cs|
  {
    if cs == [] then o
    else
      var o' := TrackAll(o, cs[..|cs| - 1], rs[..|rs| - 1], t);
      if cs[|cs| - 1] == null then o' else TrackOne(o', cs[|cs| - 1], rs[|rs| - 1], t)
  }

  lemma TrackAllStep(o: Outages, cs: seq<Consumer?>, rs: seq<Reading>, t: Tariff, i: nat)
    requires |cs| == |rs| && i < |cs|
    ensures TrackAll(o, cs[..i + 1], rs[..i + 1], t) ==
              if cs[i] == null then TrackAll(o, cs[..i], rs[..i], t)
              else TrackOne(TrackAll(o, cs[..i], rs[..i], t), cs[i], rs[i], t)
  {
    assert cs[..i + 1][..i] == cs[..i];
    assert rs[..i + 1][..i] == rs[..i];
  }

  /** Payouts only ever accumulate, by non-negative amounts. */
  lemma {:induction false} PayoutsNeverShrink(o: Outages, cs: seq<Consumer?>, rs: seq<Reading>, t: Tariff)
    requires |cs| == |rs| && 0.0 <= t.payout
    ensures o.payouts <= TrackAll(o, cs, rs, t).payouts
    decreases |cs|
  {
    if cs != [] {
      PayoutsNeverShrink(o, cs[..|cs| - 1], rs[..|rs| - 1], t);
    }
  }

  /** The body of CalculateRevenue's loop for one operational consumer. */
  method ConsumerRevenue(consumer: Consumer, price: real) returns (potentialRevenue: real, actualConsumerRevenue: real)
    requires consumer.base.isOperational
    ensures potentialRevenue == Potential(ReadingOf(consumer), price)
    ensures actualConsumerRevenue == Actual(ReadingOf(consumer), price)
  {
    potentialRevenue := consumer.GetPowerDemand() * price;
    var satisfactionRatio :=
      if consumer.GetPowerDemand() > 0.0 then Clamp01(consumer.currentPower / consumer.GetPowerDemand()) else 0.0;
    actualConsumerRevenue := potentialRevenue * satisfactionRatio;
  }

  /** The loop of CalculateRevenue: both totals start at zero and every
      non-null operational consumer adds its potential and actual revenue. */
  method TallyRevenue(consumers: seq<Consumer?>, price: real) returns (potential: real, actual: real)
    ensures Revenue(potential, actual) == RevenueOf(ReadingsOf(consumers), price)
  {
    ghost var rs := ReadingsOf(consumers);
    ghost var ps := Potentials(rs, price);
    ghost var xs := Actuals(rs, price);
    potential := 0.0;
    actual := 0.0;
    var i := 0;
    while i < |consumers|
      invariant 0 <= i <= |consumers|
      invariant potential == Sum(ps[..i])
      invariant actual == Sum(xs[..i])
    {
      SumPrefixStep(ps, i);
      SumPrefixStep(xs, i);
      var consumer := consumers[i];
      if consumer != null && consumer.base.isOperational {
        assert rs[i] == ReadingOf(consumer);
        var potentialRevenue, actualConsumerRevenue := ConsumerRevenue(consumer, price);
        potential := potential + potentialRevenue;
        actual := actual + actualConsumerRevenue;
      } else {
        assert !rs[i].operational;
        assert ps[i] == 0.0 && xs[i] == 0.0;
      }
      i := i + 1;
    }
    assert ps[..i] == ps && xs[..i] == xs;
  }

  /** The body of TrackOutage's loop for one operational consumer. */
  method ConsumerOutage(consumer: Consumer, consumerOutages: map<Consumer, real>, insurancePayoutTotal: real, t: Tariff)
    returns (timers: map<Consumer, real>, payouts: real)
    requires consumer.base.isOperational
    ensures Outages(timers, payouts) == TrackOne(Outages(consumerOutages, insurancePayoutTotal), consumer, ReadingOf(consumer), t)
  {
    timers, payouts := consumerOutages, insurancePayoutTotal;
    var satisfactionRatio :=
      if consumer.GetPowerDemand() > 0.0 then consumer.currentPower / consumer.GetPowerDemand() else 0.0;
    if satisfactionRatio < OutageRatio {
      if consumer !in timers {
        timers := timers[consumer := 0.0];
      }
      timers := timers[consumer := timers[consumer] + t.interval];
      if timers[consumer] >= t.threshold && timers[consumer] < t.threshold + t.interval {
        payouts := payouts + t.payout;
      }
    } else {
      timers := timers - {consumer};
    }
  }

  /** The loop of TrackOutage, over the timers and the payout total. */
  method TallyOutages(consumers: seq<Consumer?>, o: Outages, t: Tariff) returns (o': Outages)
    ensures o' == TrackAll(o, consumers, ReadingsOf(consumers), t)
  {
    ghost var rs := ReadingsOf(consumers);
    var consumerOutages: map<Consumer, real> := o.timers;
    var insurancePayoutTotal: real := o.payouts;
    var i := 0;
    while i < |consumers|
      invariant 0 <= i <= |consumers|
      invariant Outages(consumerOutages, insurancePayoutTotal) == TrackAll(o, consumers[..i], rs[..i], t)
    {
      TrackAllStep(o, consumers, rs, t, i);
      var consumer := consumers[i];
      if consumer != null && consumer.base.isOperational {
        assert rs[i] == ReadingOf(consumer);
        consumerOutages, insurancePayoutTotal := ConsumerOutage(consumer, consumerOutages, insurancePayoutTotal, t);
      } else {
        assert consumer != null ==> !rs[i].operational;
      }
      i := i + 1;
    }
    assert consumers[..i] == consumers && rs[..i] == rs;
    o' := Outages(consumerOutages, insurancePayoutTotal);
  }

  class MoneyManager {
    var powerSystemManager: PowerSystemManager?
    var basePricePerUnit: real
    var insuranceThreshold: real
    var insurancePayout: real
    var updateInterval: real
    var totalPotentialRevenue: real
    var actualRevenue: real
    var revenueLoss: real
    var periodTimer: real
    var consumerOutages: map<Consumer, real>
    var insurancePayoutTotal: real

    function GetTariff(): Tariff
      reads this`basePricePerUnit, this`insuranceThreshold, this`insurancePayout, this`updateInterval
    {
      Tariff(basePricePerUnit, insuranceThreshold, insurancePayout, updateInterval)
    }

    function GetOutages(): Outages
      reads this`consumerOutages, this`insurancePayoutTotal
    {
      Outages(consumerOutages, insurancePayoutTotal)
    }

    /** The loss reported is always potential minus actual revenue. */
    ghost predicate Valid()
      reads this`totalPotentialRevenue, this`actualRevenue, this`revenueLoss
    {
      revenueLoss == totalPotentialRevenue - actualRevenue
    }

    constructor (manager: PowerSystemManager?)
      ensures powerSystemManager == manager && GetTariff() == DefaultTariff
      ensures totalPotentialRevenue == 0.0 && actualRevenue == 0.0 && revenueLoss == 0.0
      ensures periodTimer == 0.0 && GetOutages() == Outages(map[], 0.0) && Valid()
    {
      powerSystemManager := manager;
      basePricePerUnit := DefaultTariff.price;
      insuranceThreshold := DefaultTariff.threshold;
      insurancePayout := DefaultTariff.payout;
      updateInterval := DefaultTariff.interval;
      totalPotentialRevenue := 0.0;
      actualRevenue := 0.0;
      revenueLoss := 0.0;
      periodTimer := 0.0;
      consumerOutages := map[];
      insurancePayoutTotal := 0.0;
    }

    /** CalculateRevenue; the demand and supply totals it also sums are
        never used and are not modelled. */
    method CalculateRevenue()
      requires powerSystemManager != null
      modifies this`totalPotentialRevenue, this`actualRevenue, this`revenueLoss
      ensures Revenue(totalPotentialRevenue, actualRevenue) ==
                RevenueOf(old(ReadingsOf(powerSystemManager.consumers)), basePricePerUnit)
      ensures Valid()
    {
      totalPotentialRevenue, actualRevenue := TallyRevenue(powerSystemManager.consumers, basePricePerUnit);
      ReadingsUnchanged(powerSystemManager.consumers);
      revenueLoss := totalPotentialRevenue - actualRevenue;
    }

    method TrackOutage()
      requires powerSystemManager != null
      modifies this`consumerOutages, this`insurancePayoutTotal
      ensures GetOutages() == TrackAll(old(GetOutages()), powerSystemManager.consumers,
                                       old(ReadingsOf(powerSystemManager.consumers)), GetTariff())
    {
      var outages := TallyOutages(powerSystemManager.consumers, GetOutages(), GetTariff());
      ReadingsUnchanged(powerSystemManager.consumers);
      consumerOutages := outages.timers;
      insurancePayoutTotal := outages.payouts;
    }

    /** One iteration of the UpdateMoneySystem coroutine; the display
        refresh is not modelled. */
    method UpdateMoneySystem()
      modifies this`totalPotentialRevenue, this`actualRevenue, this`revenueLoss
      modifies this`consumerOutages, this`insurancePayoutTotal, this`periodTimer
      ensures powerSystemManager == null ==>
                unchanged(this`totalPotentialRevenue, this`actualRevenue, this`revenueLoss) &&
                unchanged(this`consumerOutages, this`insurancePayoutTotal, this`periodTimer)
      ensures powerSystemManager != null ==>
                && Revenue(totalPotentialRevenue, actualRevenue) ==
                     RevenueOf(old(ReadingsOf(powerSystemManager.consumers)), basePricePerUnit)
                && Valid()
                && GetOutages() == TrackAll(old(GetOutages()), powerSystemManager.consumers,
                                            old(ReadingsOf(powerSystemManager.consumers)), GetTariff())
                && periodTimer == old(periodTimer) + updateInterval
    {
      if powerSystemManager != null {
        CalculateRevenue();
        ReadingsUnchanged(powerSystemManager.consumers);
        TrackOutage();
        periodTimer := periodTimer + updateInterval;
      }
    }

    /** ResetPeriod: every total, the timer and every outage go back to zero. */
    method ResetPeriod()
      modifies this`totalPotentialRevenue, this`actualRevenue, this`revenueLoss
      modifies this`consumerOutages, this`insurancePayoutTotal, this`periodTimer
      ensures periodTimer == 0.0 && totalPotentialRevenue == 0.0 && actualRevenue == 0.0
      ensures revenueLoss == 0.0 && GetOutages() == Outages(map[], 0.0) && Valid()
    {
      periodTimer := 0.0;
      totalPotentialRevenue := 0.0;
      actualRevenue := 0.0;
      revenueLoss := 0.0;
      insurancePayoutTotal := 0.0;
      consumerOutages := map[];
    }

    /** GetFinancialStatus: the four totals as they stand; the loss is the
        gap between the other two. */
    function GetFinancialStatus(): (status: (real, real, real, real))
      reads this`totalPotentialRevenue, this`actualRevenue, this`revenueLoss, this`insurancePayoutTotal
      ensures status.0 == totalPotentialRevenue && status.1 == actualRevenue
      ensures status.3 == insurancePayoutTotal
      ensures Valid() ==> status.2 == status.0 - status.1
    {
      (totalPotentialRevenue, actualRevenue, revenueLoss, insurancePayoutTotal)
    }
  }
}
