/** The wind farm (WindFarm.cs): a table of the last power each turbine
    reported, and their sum forwarded to the inverter. Entries are never
    removed, so a turbine that stops reporting keeps its last value in the
    sum. The table is keyed by object identity; the turbine class refers to
    the farm, so the farm cannot name the turbine class here. */
module WindFarms {
  import opened Numeric
  import opened Collections
  import opened ComponentBase
  import opened Inverters

  /** connectedTurbines and the turbinePower dictionary. */
  datatype FarmTable = FarmTable(order: seq<object>, readings: map<object, real>)

  /** ReceivePower keeps the list free of duplicates and the dictionary's
      keys exactly the listed turbines. */
  predicate Consistent(f: FarmTable)
  {
    && NoDuplicates(f.order)
    && (forall i :: 0 <= i < |f.order| ==> f.order[i] in f.readings)
    && (forall k :: k in f.readings ==> k in f.order)
  }

  /** The stored readings, in the order the turbines first reported. */
  function Readings(f: FarmTable): (rs: seq<real>)
    requires Consistent(f)
    ensures |rs| == |f.order|
    ensures forall i :: 0 <= i < |f.order| ==> rs[i] == f.readings[f.order[i]]
  {
    seq(|f.order|, i requires 0 <= i < |f.order| => f.readings[f.order[i]])
  }

  /** The farm's currentPower after its Update. */
  function Total(f: FarmTable): real
    requires Consistent(f)
  {
    Sum(Readings(f))
  }

  /** ReceivePower: list the turbine if new, overwrite its reading. */
  function Receive(f: FarmTable, turbine: object, power: real): (r: FarmTable)
    ensures Consistent(f) ==> Consistent(r)
    ensures turbine in r.readings && r.readings[turbine] == power
    ensures forall i :: 0 <= i < |f.order| ==> f.order[i] in r.order
  {
    FarmTable(AddIfAbsent(f.order, turbine), f.readings[turbine := power])
  }

  /** A listed turbine's report overwrites its own slot of the readings. */
  lemma ReceiveListed(f: FarmTable, turbine: object, power: real, i: nat)
    requires Consistent(f) && i < |f.order| && f.order[i] == turbine
    ensures Readings(Receive(f, turbine, power)) == Readings(f)[i := power]
  {
    var r := Receive(f, turbine, power);
    assert r.order == f.order;
    forall k | 0 <= k < |f.order| ensures Readings(r)[k] == Readings(f)[i := power][k] {
      if k != i {
        assert f.order[k] != turbine;
      }
    }
  }

  /** A new turbine's report is appended to the readings. */
  lemma ReceiveUnlisted(f: FarmTable, turbine: object, power: real)
    requires Consistent(f) && turbine !in f.readings
    ensures Readings(Receive(f, turbine, power)) == Readings(f) + [power]
  {
    var r := Receive(f, turbine, power);
    assert turbine !in f.order;
    assert r.order == f.order + [turbine];
    forall k | 0 <= k < |r.order| ensures Readings(r)[k] == (Readings(f) + [power])[k] {
      if k < |f.order| {
        assert f.order[k] != turbine;
      }
    }
  }

  /** A report replaces the turbine's previous reading in the total rather
      than adding to it. */
  lemma ReceiveReplacesReading(f: FarmTable, turbine: object, power: real)
    requires Consistent(f)
    ensures Total(Receive(f, turbine, power)) ==
              Total(f) - (if turbine in f.readings then f.readings[turbine] else 0.0) + power
  {
    if turbine in f.readings {
      var i :| 0 <= i < |f.order| && f.order[i] == turbine;
      ReceiveListed(f, turbine, power, i);
      SumUpdate(Readings(f), i, power);
    } else {
      ReceiveUnlisted(f, turbine, power);
      SumAppend(Readings(f), power);
    }
  }

  /** Reports from other turbines never touch a turbine's stored reading. */
  lemma {:induction false} ReadingPersists(f: FarmTable, turbine: object, others: seq<(object, real)>)
    requires turbine in f.readings
    requires forall j :: 0 <= j < |others| ==> others[j].0 != turbine
    ensures turbine in ReceiveAll(f, others).readings
    ensures ReceiveAll(f, others).readings[turbine] == f.readings[turbine]
    decreases |others|
  {
    if others != [] {
      ReadingPersists(f, turbine, others[..|others| - 1]);
    }
  }

  /** A sequence of reports, first to last. */
  function ReceiveAll(f: FarmTable, reports: seq<(object, real)>): FarmTable
    decreases |reports|
  {
    if reports == [] then f
    else
      var last := reports[|reports| - 1];
      Receive(ReceiveAll(f, reports[..|reports| - 1]), last.0, last.1)
  }

  class WindFarm {
    const base: PowerComponentBase
    var outputInverter: Inverter?
    var turbinePower: map<object, real>
    var connectedTurbines: seq<object>

    function Table(): FarmTable
      reads this`connectedTurbines, this`turbinePower
    {
      FarmTable(connectedTurbines, turbinePower)
    }

    ghost predicate Valid()
      reads this`connectedTurbines, this`turbinePower
    {
      Consistent(Table())
    }

    constructor (inverter: Inverter?)
      ensures fresh(base) && base.isOperational && base.currentPower == 0.0
      ensures Valid() && outputInverter == inverter && Table() == FarmTable([], map[])
    {
      base := new PowerComponentBase();
      outputInverter := inverter;
      turbinePower := map[];
      connectedTurbines := [];
    }

    /** Called by each operational turbine every frame. */
    method ReceivePower(turbine: object, power: real)
      modifies this`connectedTurbines, this`turbinePower
      ensures Table() == Receive(old(Table()), turbine, power)
    {
      if turbine !in connectedTurbines {
        connectedTurbines := connectedTurbines + [turbine];
      }
      turbinePower := turbinePower[turbine := power];
    }

    /** The farm's per-frame Update: the sum is taken even when the farm is
        out of service; only the forwarding is gated. */
    method Update()
      requires Valid()
      modifies base`currentPower
      modifies (if outputInverter == null then {} else {outputInverter})`inputPower
      ensures base.currentPower == Total(Table())
      ensures outputInverter != null ==>
                outputInverter.inputPower == if base.isOperational then base.currentPower else old(outputInverter.inputPower)
    {
      base.currentPower := 0.0;
      var i := 0;
      while i < |connectedTurbines|
        modifies base`currentPower
        invariant 0 <= i <= |connectedTurbines|
        invariant base.currentPower == Sum(Readings(Table())[..i])
      {
        SumPrefixStep(Readings(Table()), i);
        base.currentPower := base.currentPower + turbinePower[connectedTurbines[i]];
        i := i + 1;
      }
      assert Readings(Table())[..i] == Readings(Table());
      if outputInverter != null && base.isOperational {
        outputInverter.ReceivePower(base.currentPower);
      }
    }
  }
}
