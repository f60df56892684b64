/** The transformer (Transformer.cs): a greedy router between the inverter
    and the grid. The grid's demand is served first; a surplus is offered to
    the battery, a shortfall is requested from it. */
module Transformers {
  import opened Numeric
  import opened ComponentBase
  import opened Grid
  import opened Batteries

  /** What the transformer asks of its battery in one Update. */
  datatype BatteryCall = NoBatteryCall | AskBattery(needed: real) | OfferBattery(excess: real)

  /** One routing decision: the grid's share and the battery call. */
  datatype Route = Route(gridShare: real, batteryCall: BatteryCall)

  /** The routing rule of Update, for a given input and demand. */
  function Routing(input: real, demand: real): (r: Route)
    ensures r.gridShare == Min(input, demand)
    ensures input < demand <==> r.batteryCall.AskBattery?
    ensures r.batteryCall.AskBattery? ==> r.gridShare + r.batteryCall.needed == demand
    ensures demand < input <==> r.batteryCall.OfferBattery?
    ensures r.batteryCall.OfferBattery? ==> r.gridShare + r.batteryCall.excess == input
    ensures r.batteryCall.AskBattery? ==> 0.0 < r.batteryCall.needed
    ensures r.batteryCall.OfferBattery? ==> 0.0 < r.batteryCall.excess
  {
    if input <= demand then
      Route(input, if input < demand then AskBattery(demand - input) else NoBatteryCall)
    else
      Route(demand, OfferBattery(input - demand))
  }

  /** The grid never receives more than it asked for, nor more than came in. */
  lemma GridShareWithinBoth(input: real, demand: real)
    ensures Routing(input, demand).gridShare <= demand
    ensures Routing(input, demand).gridShare <= input
  {
  }

  /** Nothing is lost or invented by routing a surplus: the grid's share and
      the battery's offer add up to the input. */
  lemma SharesSumToInput(input: real, demand: real)
    requires demand <= input
    ensures Routing(input, demand).gridShare +
              (if Routing(input, demand).batteryCall.OfferBattery? then Routing(input, demand).batteryCall.excess else 0.0)
            == input
  {
  }

  /** The battery's reserve after the call the transformer makes on it. */
  function AfterCall(s: Settings, r: Reserve, operational: bool, c: BatteryCall): Reserve
    requires s.dischargeEfficiency != 0.0
  {
    match c
    case NoBatteryCall => r
    case AskBattery(needed) => Request(s, r, operational, needed)
    case OfferBattery(excess) => Store(s, r, operational, excess)
  }

  /** Across one frame with the transformer running before the battery: if
      the battery is in service and holds enough, the grid receives exactly
      its demand from the two of them together. */
  lemma DemandMetWithBatteryHelp(s: Settings, r: Reserve, input: real, demand: real)
    requires Sensible(s) && 0.0 <= input < demand
    requires (demand - input) / s.dischargeEfficiency <= r.charge
    ensures Routing(input, demand).gridShare +
              Output(s, AfterCall(s, r, true, Routing(input, demand).batteryCall), true) == demand
  {
    RequestMetWhenCharged(s, r, demand - input);
  }

  /** Under surplus, a battery in service never ends up above capacity and
      keeps no more than the offer after the charging loss. */
  lemma SurplusStoredWithinCapacity(s: Settings, r: Reserve, input: real, demand: real)
    requires Sensible(s) && InBounds(s, r) && demand < input
    ensures InBounds(s, AfterCall(s, r, true, Routing(input, demand).batteryCall))
    ensures AfterCall(s, r, true, Routing(input, demand).batteryCall).charge - r.charge
              <= (input - demand) * s.chargeEfficiency
  {
    StoreKeepsBounds(s, r, true, input - demand);
  }

  class Transformer {
    const base: PowerComponentBase
    var outputGrid: PowerGrid?
    var outputBattery: Battery?
    var inputPower: real
    var currentDemand: real

    constructor (grid: PowerGrid?, battery: Battery?)
      ensures fresh(base) && base.isOperational && base.currentPower == 0.0
      ensures outputGrid == grid && outputBattery == battery
      ensures inputPower == 0.0 && currentDemand == 0.0
    {
      base := new PowerComponentBase();
      outputGrid := grid;
      outputBattery := battery;
      inputPower := 0.0;
      currentDemand := 0.0;
    }

    /** Called by the inverter; never reset by Update. */
    method ReceivePower(power: real)
      modifies this`inputPower
      ensures inputPower == power
    {
      inputPower := power;
    }

    /** The transformer's per-frame Update. The demand is refreshed only
        when a grid is attached; otherwise the last value is used. */
    method Update()
      requires outputBattery != null ==> outputBattery.dischargeEfficiency != 0.0
      modifies base`currentPower, this`currentDemand
      modifies (if outputGrid == null then {} else {outputGrid})`powerSources
      modifies (if outputGrid == null then {} else {outputGrid})`totalAvailablePower
      modifies (if outputBattery == null then {} else {outputBattery})`currentCharge
      modifies (if outputBattery == null then {} else {outputBattery})`dischargeAmount
      ensures !base.isOperational ==> base.currentPower == 0.0
      ensures base.isOperational ==> base.currentPower == inputPower
      ensures currentDemand ==
                if base.isOperational && outputGrid != null
                then old(TotalDemand(LoadsOf(outputGrid.connectedConsumers)))
                else old(currentDemand)
      ensures outputGrid != null ==>
                (outputGrid.GetLedger() ==
                   if base.isOperational
                   then Receive(old(outputGrid.GetLedger()), this, Routing(inputPower, currentDemand).gridShare)
                   else old(outputGrid.GetLedger()))
      ensures outputBattery != null ==>
                (outputBattery.GetReserve() ==
                   if base.isOperational
                   then AfterCall(outputBattery.GetSettings(), old(outputBattery.GetReserve()),
                                  outputBattery.base.isOperational, Routing(inputPower, currentDemand).batteryCall)
                   else old(outputBattery.GetReserve()))
    {
      if !base.isOperational {
        base.currentPower := 0.0;
        return;
      }
      if outputGrid != null {
        currentDemand := outputGrid.GetTotalDemand();
        LoadsUnchanged(outputGrid.connectedConsumers);
      }
      base.currentPower := inputPower;
      Dispatch();
    }

    /** The routing half of Update, for the demand already read. */
    method Dispatch()
      requires outputBattery != null ==> outputBattery.dischargeEfficiency != 0.0
      modifies (if outputGrid == null then {} else {outputGrid})`powerSources
      modifies (if outputGrid == null then {} else {outputGrid})`totalAvailablePower
      modifies (if outputBattery == null then {} else {outputBattery})`currentCharge
      modifies (if outputBattery == null then {} else {outputBattery})`dischargeAmount
      ensures outputGrid != null ==>
                outputGrid.GetLedger() == Receive(old(outputGrid.GetLedger()), this, Routing(inputPower, currentDemand).gridShare)
      ensures outputBattery != null ==>
                outputBattery.GetReserve() ==
                  AfterCall(outputBattery.GetSettings(), old(outputBattery.GetReserve()),
                            outputBattery.base.isOperational, Routing(inputPower, currentDemand).batteryCall)
    {
      if inputPower <= currentDemand {
        if outputGrid != null {
          outputGrid.ReceivePower(this, inputPower);
        }
        if outputBattery != null && inputPower < currentDemand {
          var neededPower := currentDemand - inputPower;
          outputBattery.RequestPower(neededPower);
        }
      } else {
        if outputGrid != null {
          outputGrid.ReceivePower(this, currentDemand);
        }
        if outputBattery != null {
          var excessPower := inputPower - currentDemand;
          outputBattery.StorePower(excessPower);
        }
      }
    }
  }
}
