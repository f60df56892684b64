/** The wind turbine (Turbine.cs). Its power is simply its effective wind
    speed: the natural wind, or the operator's manual speed while manual
    control is on. Every Update recomputes the operational flag from that
    speed, and only an operational turbine reports to its wind farm. */
module Turbines {
  import opened Numeric
  import opened ComponentBase
  import opened WindFarms

  /** The control fields: windSpeed, manualControl, manualWindSpeed. */
  datatype Controls = Controls(windSpeed: real, manualControl: bool, manualWindSpeed: real)

  const DefaultMaxSpeed: real := 20.0

  /** The speed Update works from. */
  function EffectiveSpeed(c: Controls): real
  {
    if c.manualControl then c.manualWindSpeed else c.windSpeed
  }

  /** SetWindSpeed: only honoured under manual control. */
  function SetSpeed(c: Controls, speed: real): (c': Controls)
    ensures c'.windSpeed == c.windSpeed && c'.manualControl == c.manualControl
    ensures c.manualControl ==> EffectiveSpeed(c') == speed
    ensures !c.manualControl ==> c' == c
  {
    if c.manualControl then c.(manualWindSpeed := speed) else c
  }

  /** ToggleManualControl(enabled, initialSpeed): the speed is only taken
      when enabling; disabling keeps the old manual speed. */
  function Toggle(c: Controls, enabled: bool, initialSpeed: real): (c': Controls)
    ensures c'.windSpeed == c.windSpeed && c'.manualControl == enabled
    ensures enabled ==> EffectiveSpeed(c') == initialSpeed
    ensures !enabled ==> EffectiveSpeed(c') == c.windSpeed && c'.manualWindSpeed == c.manualWindSpeed
  {
    if enabled then c.(manualControl := true, manualWindSpeed := initialSpeed)
    else c.(manualControl := false)
  }

  /** Returning to automatic and back to manual without a speed argument
      would run at 0: the C# default for the omitted initialSpeed. */
  lemma ReenableWithoutSpeedStops(c: Controls)
    ensures EffectiveSpeed(Toggle(Toggle(c, false, c.manualWindSpeed), true, 0.0)) == 0.0
  {
  }

  /** Whether Update leaves the turbine operational, and the power it reports. */
  function Operational(c: Controls): bool
  {
    EffectiveSpeed(c) > 0.0
  }

  function PowerOutput(c: Controls): (p: real)
    ensures 0.0 <= p
    ensures p == 0.0 <==> !Operational(c)
  {
    if Operational(c) then EffectiveSpeed(c) else 0.0
  }

  /** What Update does to its wind farm's table. */
  function Report(f: FarmTable, turbine: object, c: Controls): (f': FarmTable)
    ensures Operational(c) ==> turbine in f'.readings && f'.readings[turbine] == PowerOutput(c)
    ensures !Operational(c) ==> f' == f
  {
    if Operational(c) then Receive(f, turbine, PowerOutput(c)) else f
  }

  /** A turbine that stops after reporting leaves its last positive reading
      in the farm's total: stopping never reports a 0. */
  lemma StoppedTurbineStillCounted(f: FarmTable, turbine: object, running: Controls, stopped: Controls)
    requires Consistent(f) && Operational(running) && !Operational(stopped)
    ensures Consistent(Report(Report(f, turbine, running), turbine, stopped))
    ensures Total(Report(Report(f, turbine, running), turbine, stopped)) ==
              Total(f) - (if turbine in f.readings then f.readings[turbine] else 0.0) + PowerOutput(running)
    ensures Report(Report(f, turbine, running), turbine, stopped).readings[turbine] > 0.0
  {
    ReceiveReplacesReading(f, turbine, PowerOutput(running));
  }

  /** What the system manager reads from one entry of its turbine list. */
  datatype Rotor = Rotor(live: bool, operational: bool, power: real, windSpeed: real)

  /** The turbine's term in the generation total. */
  function Contribution(r: Rotor): real
  {
    if r.live && r.operational then r.power else 0.0
  }

  function Contributions(rs: seq<Rotor>): (cs: seq<real>)
    ensures |cs| == |rs|
    ensures forall i :: 0 <= i < |rs| ==> cs[i] == Contribution(rs[i])
  {
    seq(|rs|, i requires 0 <= i < |rs| => Contribution(rs[i]))
  }

  /** Total generation: the sum of the operational turbines' power. */
  function Generation(rs: seq<Rotor>): real
  {
    Sum(Contributions(rs))
  }

  lemma GenerationAppend(rs: seq<Rotor>, r: Rotor)
    ensures Generation(rs + [r]) == Generation(rs) + Contribution(r)
  {
    assert Contributions(rs + [r]) == Contributions(rs) + [Contribution(r)];
    SumAppend(Contributions(rs), Contribution(r));
  }

  class Turbine {
    const base: PowerComponentBase
    var outputWindFarm: WindFarm?
    var windSpeed: real
    var maxSpeed: real
    var manualControl: bool
    var manualWindSpeed: real

    function GetControls(): Controls
      reads this`windSpeed, this`manualControl, this`manualWindSpeed
    {
      Controls(windSpeed, manualControl, manualWindSpeed)
    }

    constructor (farm: WindFarm?, wind: real)
      ensures fresh(base) && base.isOperational && base.currentPower == 0.0
      ensures outputWindFarm == farm && maxSpeed == DefaultMaxSpeed
      ensures GetControls() == Controls(wind, false, 0.0)
    {
      base := new PowerComponentBase();
      outputWindFarm := farm;
      windSpeed := wind;
      maxSpeed := DefaultMaxSpeed;
      manualControl := false;
      manualWindSpeed := 0.0;
    }

    /** The turbine's per-frame Update. Whatever isOperational held before
        is overwritten; the blade rotation is not modelled. */
    method Update()
      modifies base`isOperational, base`currentPower
      modifies (if outputWindFarm == null then {} else {outputWindFarm})`connectedTurbines
      modifies (if outputWindFarm == null then {} else {outputWindFarm})`turbinePower
      ensures base.isOperational == Operational(GetControls())
      ensures base.currentPower == PowerOutput(GetControls())
      ensures outputWindFarm != null ==>
                outputWindFarm.Table() == Report(old(outputWindFarm.Table()), this, GetControls())
    {
      var effectiveWindSpeed := if manualControl then manualWindSpeed else windSpeed;
      base.isOperational := effectiveWindSpeed > 0.0;
      if base.isOperational {
        base.currentPower := effectiveWindSpeed;
        if outputWindFarm != null {
          outputWindFarm.ReceivePower(this, base.currentPower);
        }
      } else {
        base.currentPower := 0.0;
      }
    }

    method SetWindSpeed(speed: real)
      modifies this`manualWindSpeed
      ensures GetControls() == SetSpeed(old(GetControls()), speed)
    {
      if manualControl {
        manualWindSpeed := speed;
      }
    }

    /** ToggleManualControl; the C# default of 0 for `initialSpeed` is passed
        explicitly by callers that omit it. */
    method ToggleManualControl(enabled: bool, initialSpeed: real)
      modifies this`manualControl, this`manualWindSpeed
      ensures GetControls() == Toggle(old(GetControls()), enabled, initialSpeed)
    {
      manualControl := enabled;
      if enabled {
        manualWindSpeed := initialSpeed;
      }
    }
  }

  /** The entry the system manager sees for one reference in its list. */
  function RotorOf(t: Turbine?): Rotor
    reads if t == null then {} else {t}`windSpeed
    reads if t == null then {} else {t.base}`isOperational, if t == null then {} else {t.base}`currentPower
  {
    if t == null then Rotor(false, false, 0.0, 0.0)
    else Rotor(true, t.base.isOperational, t.base.currentPower, t.windSpeed)
  }

  function RotorsOf(ts: seq<Turbine?>): (rs: seq<Rotor>)
    reads (set t: Turbine | t in ts)`windSpeed
    reads (set t: Turbine | t in ts :: t.base)`isOperational, (set t: Turbine | t in ts :: t.base)`currentPower
    ensures |rs| == |ts|
    ensures forall i :: 0 <= i < |ts| ==> rs[i] == RotorOf(ts[i])
  {
    if ts == [] then [] else RotorsOf(ts[..|ts| - 1]) + [RotorOf(ts[|ts| - 1])]
  }

  /** The rotors read from a list stay put while no turbine's wind speed,
      operational flag or output changes. */
  twostate lemma RotorsUnchanged(ts: seq<Turbine?>)
    requires unchanged((set t: Turbine | t in ts)`windSpeed)
    requires unchanged((set t: Turbine | t in ts :: t.base)`isOperational, (set t: Turbine | t in ts :: t.base)`currentPower)
    ensures RotorsOf(ts) == old(RotorsOf(ts))
  {
  }
}
