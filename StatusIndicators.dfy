/** The consumer status overlay (PowerStatusIndicatorManager.cs). Each
    consumer's delivered-to-demanded ratio is classified against two
    thresholds; a last-status map detects changes and the icon map records
    which icon each consumer shows. Sprites, placement and fading are not
    modelled: an icon is the status it shows and whether it was created with
    the recovery animation. */
module StatusIndicators {
  import opened Grid

  datatype PowerStatus = Good | Warning | Critical

  /** criticalPowerThreshold and warningPowerThreshold. */
  datatype Thresholds = Thresholds(critical: real, warning: real)

  const DefaultThresholds: Thresholds := Thresholds(0.25, 0.85)

  /** An icon in the overlay: its status and whether it animates a recovery. */
  datatype Icon = Icon(status: PowerStatus, animated: bool)

  /** How bad a status is: Good < Warning < Critical. */
  function Severity(s: PowerStatus): nat
  {
    match s
    case Good => 0
    case Warning => 1
    case Critical => 2
  }

  /** GetStatusFromPowerRatio: the first threshold the ratio falls below. */
  function Classify(ratio: real, t: Thresholds): (s: PowerStatus)
    ensures s == Critical <==> ratio < t.critical
    ensures s == Warning <==> t.critical <= ratio < t.warning
    ensures s == Good <==> t.critical <= ratio && t.warning <= ratio
  {
    if ratio < t.critical then Critical
    else if ratio < t.warning then Warning
    else Good
  }

  /** With ordered thresholds, more power never gives a worse status. */
  lemma ClassifyMonotone(lower: real, higher: real, t: Thresholds)
    requires lower <= higher && t.critical <= t.warning
    ensures Severity(Classify(higher, t)) <= Severity(Classify(lower, t))
  {
  }

  /** With the default thresholds a fully supplied consumer is Good and an
      unsupplied one Critical. */
  lemma DefaultBands(demand: real)
    requires 0.0 < demand
    ensures Classify(demand / demand, DefaultThresholds) == Good
    ensures Classify(0.0 / demand, DefaultThresholds) == Critical
  {
  }

  /** The status of an operational consumer. The C# divides in single
      precision: a zero demand gives an infinite ratio for positive power
      (Good), not-a-number for zero power (every comparison fails, so Good)
      and minus infinity for negative power (Critical). */
  function StatusOf(r: Reading, t: Thresholds): (s: PowerStatus)
    ensures r.demand != 0.0 ==> s == Classify(r.power / r.demand, t)
    ensures r.demand == 0.0 ==> (s == Critical <==> r.power < 0.0)
    ensures r.demand == 0.0 ==> s != Warning
  {
    if r.demand != 0.0 then Classify(r.power / r.demand, t)
    else if r.power < 0.0 then Critical
    else Good
  }

  /** The two dictionaries: lastStatus and consumerIcons. */
  datatype Monitor = Monitor(lastStatus: map<Consumer, PowerStatus>, icons: map<Consumer, Icon>)

  /** Every icon shows the status recorded for its consumer. */
  predicate Coherent(m: Monitor)
  {
    forall c :: c in m.icons ==> c in m.lastStatus && m.icons[c].status == m.lastStatus[c]
  }

  /** UpdateConsumerStatus for one consumer. */
  function Observe(m: Monitor, c: Consumer, r: Reading, t: Thresholds): (m': Monitor)
    ensures !r.operational ==> m'.lastStatus == m.lastStatus - {c} && m'.icons == m.icons - {c}
    ensures r.operational ==> c in m'.lastStatus && m'.lastStatus[c] == StatusOf(r, t)
    ensures r.operational && c !in m.lastStatus ==> m'.icons == m.icons[c := Icon(StatusOf(r, t), false)]
    ensures r.operational && c in m.lastStatus && m.lastStatus[c] != StatusOf(r, t) ==>
              c in m'.icons && m'.icons[c].status == StatusOf(r, t) &&
              (m'.icons[c].animated <==> StatusOf(r, t) == Good && m.lastStatus[c] in {Warning, Critical})
    ensures r.operational && c in m.lastStatus && m.lastStatus[c] == StatusOf(r, t) ==> m' == m
    ensures m'.lastStatus.Keys - {c} == m.lastStatus.Keys - {c} && m'.icons.Keys - {c} == m.icons.Keys - {c}
    ensures forall d :: d != c && d in m.lastStatus ==> d in m'.lastStatus && m'.lastStatus[d] == m.lastStatus[d]
    ensures forall d :: d != c && d in m.icons ==> d in m'.icons && m'.icons[d] == m.icons[d]
    ensures Coherent(m) ==> Coherent(m')
  {
    if !r.operational then Monitor(m.lastStatus - {c}, m.icons - {c})
    else
      var s := StatusOf(r, t);
      if c !in m.lastStatus then Monitor(m.lastStatus[c := s], m.icons[c := Icon(s, false)])
      else if m.lastStatus[c] != s then
        var recovering := s == Good && (m.lastStatus[c] == Warning || m.lastStatus[c] == Critical);
        Monitor(m.lastStatus[c := s], m.icons[c := Icon(s, recovering)])
      else m
  }

  /** The monitor already agrees with this reading of the consumer. */
  predicate Settled(m: Monitor, c: Consumer, r: Reading, t: Thresholds)
  {
    if r.operational then c in m.lastStatus && m.lastStatus[c] == StatusOf(r, t)
    else c !in m.lastStatus && c !in m.icons
  }

  /** Observing a settled consumer changes nothing, and after any
      observation the consumer is settled. */
  lemma ObserveSettles(m: Monitor, c: Consumer, r: Reading, t: Thresholds)
    ensures Settled(Observe(m, c, r, t), c, r, t)
    ensures Settled(m, c, r, t) ==> Observe(m, c, r, t) == m
  {
    if Settled(m, c, r, t) && !r.operational {
      assert m.lastStatus - {c} == m.lastStatus;
      assert m.icons - {c} == m.icons;
    }
  }

  /** One pass of the periodic check: UpdateConsumerStatus on each non-null
      consumer of the list, in order. */
  function ObserveEach(m: Monitor, cs: seq<Consumer?>, rs: seq<Reading>, t: Thresholds): Monitor
    requires |cs| == |rs|
    decreases |cs|
  {
    if cs == [] then m
    else
      var m' := ObserveEach(m, cs[..|cs| - 1], rs[..|rs| - 1], t);
      if cs[|cs| - 1] == null then m' else Observe(m', cs[|cs| - 1], rs[|rs| - 1], t)
  }

  /** The same consumer listed twice reads the same. */
  predicate SameReadings(cs: seq<Consumer?>, rs: seq<Reading>)
    requires |cs| == |rs|
  {
    forall i, j :: 0 <= i < |cs| && 0 <= j < |cs| && cs[i] == cs[j] ==> rs[i] == rs[j]
  }

  predicate AllSettled(m: Monitor, cs: seq<Consumer?>, rs: seq<Reading>, t: Thresholds)
    requires |cs| == |rs|
  {
    forall i :: 0 <= i < |cs| && cs[i] != null ==> Settled(m, cs[i], rs[i], t)
  }

  /** Observing one consumer leaves every other consumer's settledness alone. */
  lemma ObserveKeepsOthersSettled(m: Monitor, c: Consumer, r: Reading, d: Consumer, q: Reading, t: Thresholds)
    requires d != c && Settled(m, d, q, t)
    ensures Settled(Observe(m, c, r, t), d, q, t)
  {
  }

  /** After a pass every listed consumer is settled. */
  lemma {:induction false} ObserveEachSettles(m: Monitor, cs: seq<Consumer?>, rs: seq<Reading>, t: Thresholds)
    requires |cs| == |rs| && SameReadings(cs, rs)
    ensures AllSettled(ObserveEach(m, cs, rs, t), cs, rs, t)
    decreases |cs|
  {
    if cs != [] {
      var n := |cs| - 1;
      var m' := ObserveEach(m, cs[..n], rs[..n], t);
      assert SameReadings(cs[..n], rs[..n]) by {
        forall i, j | 0 <= i < n && 0 <= j < n && cs[..n][i] == cs[..n][j]
          ensures rs[..n][i] == rs[..n][j]
        {
          assert cs[i] == cs[j];
        }
      }
      ObserveEachSettles(m, cs[..n], rs[..n], t);
      if cs[n] != null {
        var c := cs[n];
        ObserveSettles(m', c, rs[n], t);
        forall i | 0 <= i < |cs| && cs[i] != null
          ensures Settled(Observe(m', c, rs[n], t), cs[i], rs[i], t)
        {
          if cs[i] == c {
            assert rs[i] == rs[n];
          } else {
            assert i < n;
            assert Settled(m', cs[..n][i], rs[..n][i], t);
            ObserveKeepsOthersSettled(m', c, rs[n], cs[i], rs[i], t);
          }
        }
      } else {
        forall i | 0 <= i < |cs| && cs[i] != null
          ensures Settled(m', cs[i], rs[i], t)
        {
          assert i < n;
          assert Settled(m', cs[..n][i], rs[..n][i], t);
        }
      }
    }
  }

  /** A pass over consumers that are all settled changes nothing. */
  lemma {:induction false} SettledPassIsIdle(m: Monitor, cs: seq<Consumer?>, rs: seq<Reading>, t: Thresholds)
    requires |cs| == |rs| && AllSettled(m, cs, rs, t)
    ensures ObserveEach(m, cs, rs, t) == m
    decreases |cs|
  {
    if cs != [] {
      var n := |cs| - 1;
      assert AllSettled(m, cs[..n], rs[..n], t) by {
        forall i | 0 <= i < n && cs[..n][i] != null
          ensures Settled(m, cs[..n][i], rs[..n][i], t)
        {
          assert cs[..n][i] == cs[i] && rs[..n][i] == rs[i];
        }
      }
      SettledPassIsIdle(m, cs[..n], rs[..n], t);
      if cs[n] != null {
        ObserveSettles(m, cs[n], rs[n], t);
      }
    }
  }

  /** While no consumer's reading changes, the backup check is idempotent:
      a second pass finds nothing to update. */
  lemma SecondPassIsIdle(m: Monitor, cs: seq<Consumer?>, rs: seq<Reading>, t: Thresholds)
    requires |cs| == |rs| && SameReadings(cs, rs)
    ensures ObserveEach(ObserveEach(m, cs, rs, t), cs, rs, t) == ObserveEach(m, cs, rs, t)
  {
    ObserveEachSettles(m, cs, rs, t);
    SettledPassIsIdle(ObserveEach(m, cs, rs, t), cs, rs, t);
  }

  /** One more consumer of the list. */
  lemma ObserveEachStep(m: Monitor, cs: seq<Consumer?>, rs: seq<Reading>, t: Thresholds, i: nat)
    requires |cs| == |rs| && i < |cs|
    ensures ObserveEach(m, cs[..i + 1], rs[..i + 1], t) ==
              if cs[i] == null then ObserveEach(m, cs[..i], rs[..i], t)
              else Observe(ObserveEach(m, cs[..i], rs[..i], t), cs[i], rs[i], t)
  {
    assert cs[..i + 1][..i] == cs[..i];
    assert rs[..i + 1][..i] == rs[..i];
  }

  /** ForceRefreshAllIcons on values: both maps rebuilt from empty, an
      unanimated icon for each operational consumer of the list. */
  function Rebuild(cs: seq<Consumer?>, rs: seq<Reading>, t: Thresholds): Monitor
    requires |cs| == |rs|
    decreases |cs|
  {
    if cs == [] then Monitor(map[], map[])
    else
      var n := |cs| - 1;
      var m := Rebuild(cs[..n], rs[..n], t);
      if cs[n] == null || !rs[n].operational then m
      else Monitor(m.lastStatus[cs[n] := StatusOf(rs[n], t)], m.icons[cs[n] := Icon(StatusOf(rs[n], t), false)])
  }

  /** One more consumer of the list. */
  lemma RebuildStep(cs: seq<Consumer?>, rs: seq<Reading>, t: Thresholds, i: nat)
    requires |cs| == |rs| && i < |cs|
    ensures Rebuild(cs[..i + 1], rs[..i + 1], t) ==
              var m := Rebuild(cs[..i], rs[..i], t);
              if cs[i] == null || !rs[i].operational then m
              else Monitor(m.lastStatus[cs[i] := StatusOf(rs[i], t)], m.icons[cs[i] := Icon(StatusOf(rs[i], t), false)])
  {
    assert cs[..i + 1][..i] == cs[..i];
    assert rs[..i + 1][..i] == rs[..i];
  }

  /** After a refresh every listed consumer is settled, only listed
      consumers are tracked, and each tracked consumer has exactly one
      unanimated icon showing its status. */
  lemma {:induction false} RebuildContents(cs: seq<Consumer?>, rs: seq<Reading>, t: Thresholds)
    requires |cs| == |rs| && SameReadings(cs, rs)
    ensures AllSettled(Rebuild(cs, rs, t), cs, rs, t)
    ensures forall c :: c in Rebuild(cs, rs, t).lastStatus ==> c in cs
    ensures Rebuild(cs, rs, t).icons.Keys == Rebuild(cs, rs, t).lastStatus.Keys
    ensures forall c :: c in Rebuild(cs, rs, t).icons ==>
              Rebuild(cs, rs, t).icons[c] == Icon(Rebuild(cs, rs, t).lastStatus[c], false)
    decreases |cs|
  {
    if cs != [] {
      var n := |cs| - 1;
      var m := Rebuild(cs[..n], rs[..n], t);
      assert SameReadings(cs[..n], rs[..n]) by {
        forall i, j | 0 <= i < n && 0 <= j < n && cs[..n][i] == cs[..n][j]
          ensures rs[..n][i] == rs[..n][j]
        {
          assert cs[i] == cs[j];
        }
      }
      RebuildContents(cs[..n], rs[..n], t);
      forall c | c in Rebuild(cs, rs, t).lastStatus
        ensures c in cs
      {
        if c != cs[n] {
          assert c in cs[..n];
        }
      }
      forall i | 0 <= i < |cs| && cs[i] != null
        ensures Settled(Rebuild(cs, rs, t), cs[i], rs[i], t)
      {
        if i < n {
          assert Settled(m, cs[..n][i], rs[..n][i], t);
        }
        if cs[i] == cs[n] {
          assert rs[i] == rs[n];
        }
      }
    }
  }

  /** A backup check right after a refresh finds nothing to update. */
  lemma CheckAfterRefreshIsIdle(cs: seq<Consumer?>, rs: seq<Reading>, t: Thresholds)
    requires |cs| == |rs| && SameReadings(cs, rs)
    ensures ObserveEach(Rebuild(cs, rs, t), cs, rs, t) == Rebuild(cs, rs, t)
  {
    RebuildContents(cs, rs, t);
    SettledPassIsIdle(Rebuild(cs, rs, t), cs, rs, t);
  }

  /** A monitoring pass that starts from empty maps builds exactly what a
      refresh builds: an unanimated icon and the current status for every
      operational listed consumer, and nothing else. */
  lemma {:induction false} PassFromEmptyIsRefresh(cs: seq<Consumer?>, rs: seq<Reading>, t: Thresholds)
    requires |cs| == |rs| && SameReadings(cs, rs)
    ensures ObserveEach(Monitor(map[], map[]), cs, rs, t) == Rebuild(cs, rs, t)
    decreases |cs|
  {
    if cs != [] {
      var n := |cs| - 1;
      assert SameReadings(cs[..n], rs[..n]) by {
        forall i, j | 0 <= i < n && 0 <= j < n && cs[..n][i] == cs[..n][j]
          ensures rs[..n][i] == rs[..n][j]
        {
          assert cs[i] == cs[j];
        }
      }
      PassFromEmptyIsRefresh(cs[..n], rs[..n], t);
      var m := Rebuild(cs[..n], rs[..n], t);
      RebuildContents(cs[..n], rs[..n], t);
      if cs[n] != null {
        var c := cs[n];
        if c in m.lastStatus {
          var i :| 0 <= i < n && cs[..n][i] == c;
          assert Settled(m, cs[..n][i], rs[..n][i], t);
          assert rs[i] == rs[n];
          RefreshedObserveSettled(m, c, rs[n], t);
        } else if !rs[n].operational {
          RefreshedObserveAbsent(m, c, rs[n], t);
        }
      }
    }
  }

  /** A refreshed monitor: one unanimated icon per tracked consumer,
      showing its status. */
  predicate AsRefreshed(m: Monitor)
  {
    && m.icons.Keys == m.lastStatus.Keys
    && forall c :: c in m.icons ==> m.icons[c] == Icon(m.lastStatus[c], false)
  }

  /** Observing a consumer a refreshed monitor already shows with its
      current status changes nothing, as a refresh would not either. */
  lemma RefreshedObserveSettled(m: Monitor, c: Consumer, r: Reading, t: Thresholds)
    requires AsRefreshed(m) && r.operational && c in m.lastStatus && m.lastStatus[c] == StatusOf(r, t)
    ensures Observe(m, c, r, t) == m
    ensures m == Monitor(m.lastStatus[c := StatusOf(r, t)], m.icons[c := Icon(StatusOf(r, t), false)])
  {
    assert m.lastStatus[c := StatusOf(r, t)] == m.lastStatus;
    assert m.icons[c := Icon(StatusOf(r, t), false)] == m.icons;
  }

  /** Observing an out-of-service consumer a refreshed monitor does not
      track changes nothing. */
  lemma RefreshedObserveAbsent(m: Monitor, c: Consumer, r: Reading, t: Thresholds)
    requires AsRefreshed(m) && !r.operational && c !in m.lastStatus
    ensures Observe(m, c, r, t) == m
  {
    assert m.lastStatus - {c} == m.lastStatus;
    assert m.icons - {c} == m.icons;
  }

  /** What the end of a Good icon's timer does to the maps: the consumer's
      icon, whatever it shows by then, is removed and its status is kept. */
  function Expire(m: Monitor, c: Consumer): (m': Monitor)
    ensures m'.lastStatus == m.lastStatus && c !in m'.icons
    ensures forall d :: d != c && d in m.icons ==> d in m'.icons && m'.icons[d] == m.icons[d]
    ensures m'.icons.Keys == m.icons.Keys - {c}
  {
    Monitor(m.lastStatus, m.icons - {c})
  }

  /** Once its icon has expired, a consumer whose status does not change
      gets no icon back: passes over settled consumers leave the expired
      monitor as it is. */
  lemma ExpiredIconStaysGone(m: Monitor, c: Consumer, cs: seq<Consumer?>, rs: seq<Reading>, t: Thresholds)
    requires |cs| == |rs| && AllSettled(m, cs, rs, t)
    ensures ObserveEach(Expire(m, c), cs, rs, t) == Expire(m, c)
    ensures c !in ObserveEach(Expire(m, c), cs, rs, t).icons
  {
    assert AllSettled(Expire(m, c), cs, rs, t) by {
      forall i | 0 <= i < |cs| && cs[i] != null
        ensures Settled(Expire(m, c), cs[i], rs[i], t)
      {
        assert Settled(m, cs[i], rs[i], t);
      }
    }
    SettledPassIsIdle(Expire(m, c), cs, rs, t);
  }

  /** Readings taken from the objects themselves agree for duplicates. */
  lemma ReadingsAreConsistent(cs: seq<Consumer?>)
    ensures SameReadings(cs, ReadingsOf(cs))
  {
  }

  class PowerStatusIndicatorManager {
    var consumers: seq<Consumer?>
    var criticalPowerThreshold: real
    var warningPowerThreshold: real
    var lastStatus: map<Consumer, PowerStatus>
    var consumerIcons: map<Consumer, Icon>
    /** Whether the indicator's game object is active. */
    var active: bool

    function GetThresholds(): Thresholds
      reads this`criticalPowerThreshold, this`warningPowerThreshold
    {
      Thresholds(criticalPowerThreshold, warningPowerThreshold)
    }

    function GetMonitor(): Monitor
      reads this`lastStatus, this`consumerIcons
    {
      Monitor(lastStatus, consumerIcons)
    }

    constructor (monitored: seq<Consumer?>)
      ensures consumers == monitored && GetThresholds() == DefaultThresholds
      ensures GetMonitor() == Monitor(map[], map[]) && active
    {
      consumers := monitored;
      criticalPowerThreshold := DefaultThresholds.critical;
      warningPowerThreshold := DefaultThresholds.warning;
      lastStatus := map[];
      consumerIcons := map[];
      active := true;
    }

    /** GetStatusFromPowerRatio. */
    function GetStatusFromPowerRatio(powerRatio: real): (s: PowerStatus)
      reads this`criticalPowerThreshold, this`warningPowerThreshold
      ensures s == Classify(powerRatio, GetThresholds())
    {
      if powerRatio < criticalPowerThreshold then Critical
      else if powerRatio < warningPowerThreshold then Warning
      else Good
    }

    /** RemoveIcon. */
    method RemoveIcon(consumer: Consumer)
      modifies this`consumerIcons
      ensures consumerIcons == old(consumerIcons) - {consumer}
    {
      if consumer in consumerIcons {
        consumerIcons := consumerIcons - {consumer};
      }
    }

    /** The end of a RemoveIconAfterDelay coroutine, which UpdateStatusIcon
        starts for an unanimated Good icon: after the wait the consumer's
        icon is removed, whichever icon it is by then. */
    method RemoveIconAfterDelay(consumer: Consumer)
      modifies this`consumerIcons
      ensures GetMonitor() == Expire(old(GetMonitor()), consumer)
    {
      RemoveIcon(consumer);
    }

    /** The end of an AnimateGoodIcon coroutine, which UpdateStatusIcon
        starts for an animated Good icon: after the wait and the fade the
        consumer's icon is removed, whichever icon it is by then. */
    method AnimateGoodIcon(consumer: Consumer)
      modifies this`consumerIcons
      ensures GetMonitor() == Expire(old(GetMonitor()), consumer)
    {
      RemoveIcon(consumer);
    }

    /** UpdateStatusIcon: the previous icon is replaced. */
    method UpdateStatusIcon(consumer: Consumer, status: PowerStatus, animate: bool)
      modifies this`consumerIcons
      ensures consumerIcons == old(consumerIcons)[consumer := Icon(status, animate)]
    {
      RemoveIcon(consumer);
      consumerIcons := consumerIcons[consumer := Icon(status, animate)];
    }

    method UpdateConsumerStatus(consumer: Consumer)
      modifies this`lastStatus, this`consumerIcons
      ensures GetMonitor() == old(Observe(GetMonitor(), consumer, ReadingOf(consumer), GetThresholds()))
    {
      if !consumer.base.isOperational {
        RemoveIcon(consumer);
        lastStatus := lastStatus - {consumer};
        return;
      }
      var currentStatus;
      if consumer.GetPowerDemand() != 0.0 {
        var powerRatio := consumer.currentPower / consumer.GetPowerDemand();
        currentStatus := GetStatusFromPowerRatio(powerRatio);
      } else {
        currentStatus := if consumer.currentPower < 0.0 then Critical else Good;
      }
      if consumer !in lastStatus {
        lastStatus := lastStatus[consumer := currentStatus];
        UpdateStatusIcon(consumer, currentStatus, false);
      } else if lastStatus[consumer] != currentStatus {
        var previousStatus := lastStatus[consumer];
        lastStatus := lastStatus[consumer := currentStatus];
        if currentStatus == Good && (previousStatus == Warning || previousStatus == Critical) {
          UpdateStatusIcon(consumer, Good, true);
        } else {
          UpdateStatusIcon(consumer, currentStatus, false);
        }
      }
    }

    /** One iteration of the CheckAllConsumersPowerStatus coroutine. */
    method CheckAllConsumersPowerStatus()
      modifies this`lastStatus, this`consumerIcons
      ensures GetMonitor() == ObserveEach(old(GetMonitor()), consumers, ReadingsOf(consumers), GetThresholds())
    {
      ghost var rs := ReadingsOf(consumers);
      ghost var m0 := GetMonitor();
      ghost var t := GetThresholds();
      var i := 0;
      while i < |consumers|
        invariant 0 <= i <= |consumers|
        invariant GetMonitor() == ObserveEach(m0, consumers[..i], rs[..i], t)
      {
        ObserveEachStep(m0, consumers, rs, t, i);
        var consumer := consumers[i];
        if consumer != null {
          assert ReadingOf(consumer) == rs[i];
          UpdateConsumerStatus(consumer);
        }
        i := i + 1;
      }
      assert consumers[..i] == consumers && rs[..i] == rs;
      ReadingsUnchanged(consumers);
    }

    /** The maps are what a refresh builds from the current readings. */
    ghost predicate Refreshed()
      reads this`consumers, this`lastStatus, this`consumerIcons
      reads this`criticalPowerThreshold, this`warningPowerThreshold
      reads (set c: Consumer | c in consumers)`currentPower, (set c: Consumer | c in consumers)`powerDemand
      reads (set c: Consumer | c in consumers :: c.base)`isOperational
    {
      GetMonitor() == Rebuild(consumers, ReadingsOf(consumers), GetThresholds())
    }

    /** ForceRefreshAllIcons: both maps are rebuilt from scratch, with an
        unanimated icon for every operational consumer. */
    method ForceRefreshAllIcons()
      modifies this`lastStatus, this`consumerIcons
      ensures Refreshed()
    {
      ghost var rs := ReadingsOf(consumers);
      ghost var t := GetThresholds();
      consumerIcons := map[];
      lastStatus := map[];
      var i := 0;
      while i < |consumers|
        invariant 0 <= i <= |consumers|
        invariant GetMonitor() == Rebuild(consumers[..i], rs[..i], t)
      {
        RebuildStep(consumers, rs, t, i);
        var consumer := consumers[i];
        if consumer != null && consumer.base.isOperational {
          assert ReadingOf(consumer) == rs[i];
          var status;
          if consumer.GetPowerDemand() != 0.0 {
            var powerRatio := consumer.currentPower / consumer.GetPowerDemand();
            status := GetStatusFromPowerRatio(powerRatio);
          } else {
            status := if consumer.currentPower < 0.0 then Critical else Good;
          }
          UpdateStatusIcon(consumer, status, false);
          lastStatus := lastStatus[consumer := status];
        }
        i := i + 1;
      }
      assert consumers[..i] == consumers && rs[..i] == rs;
      ReadingsUnchanged(consumers);
    }

    /** RestartMonitoring: forget every icon and every status, then restart
        the monitoring coroutine, whose first pass runs within the call.
        Destroying the icon objects is not modelled. The maps end up as a
        refresh would leave them. */
    method RestartMonitoring()
      modifies this`lastStatus, this`consumerIcons
      ensures GetMonitor() == ObserveEach(Monitor(map[], map[]), consumers, ReadingsOf(consumers), GetThresholds())
      ensures Refreshed()
    {
      consumerIcons := map[];
      lastStatus := map[];
      CheckAllConsumersPowerStatus();
      ReadingsAreConsistent(consumers);
      PassFromEmptyIsRefresh(consumers, ReadingsOf(consumers), GetThresholds());
    }
  }
}
