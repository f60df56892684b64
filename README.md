# Wind-farm power pipeline and cyber-attack demonstrator, in Dafny

This project models the simulation core of a Unity demonstrator of a small
wind-power system under cyber attack.

- **Power pipeline.** Power flows through a chain of nodes updated once per frame:
  turbines → wind farm → inverter → transformer → grid and battery → consumers.
  - Each turbine produces power equal to its effective wind speed.
  - The wind farm keeps a table of the last reading from each turbine and sums it.
  - The inverter relays its input.
  - The transformer serves the grid's demand first. It offers any surplus to the battery and asks the battery for any shortfall.
  - The battery is a bounded store with charge and discharge efficiencies.
  - The grid rations what it received to its consumers, in proportion to their demands.
- **PowerSystemManager** holds bulk turbine controls: manual speed for every turbine, reset to automatic, emergency stop, and throttling when the battery is nearly full.
- **Cyber attacks** share an on/off base with start and stop hooks.
  - The substation attack takes the transformer out of service.
  - The power-generation attack overrides random turbines.
  - The monitoring-disruption attack switches off monitoring, node visualisation and the status overlay.
  - The safety-override attack does nothing.
  - The visual-disruption attack scrambles colours and rebuilds the overlay's icons.
- **The attacks are driven by three managers:**
  - the current manager (`Attacks/CyberAttackManager.cs`), with an engage lock that switches every attack off when released;
  - an earlier draft without the lock (`CyberAttackManager.cs`);
  - the original monolithic `CyberAttack.cs`, which keeps a dictionary of flags.
- **Two readers of the ledger:**
  - the status overlay, which classifies each consumer's supply ratio and tracks status changes;
  - the money manager, which prices the supply and pays insurance once per continuous outage.

**How the model is built.**
- Every C# class whose fields change in place is a Dafny `class` with those fields.
- Each class's methods are proved against pure functions that are specified separately, for example `Batteries.Store`, `Grid.Distribution`, `StatusIndicators.Observe`, `Money.TrackOne` and `AttackEngine.ToggleNamed`. The lemmas about those functions carry the properties.
- Inheritance becomes composition:
  - every node holds a `PowerComponentBase` as `base`, with the fields `isOperational`, `currentPower` and `visualisationEnabled`;
  - every attack holds a `CyberAttackBase` as `base`;
  - an attack's `ToggleAttack` calls `base.Flip()` and then runs its own start or stop hook.
- Power and money are `real`.
- Randomness is a parameter: the draws of a manipulation cycle, and the colour indices of a disruption cycle.
- Each coroutine iteration is one method call.
- Unity gives no ordering guarantee between components. A frame is therefore modelled as the caller invoking the nodes' `Update` methods in pipeline order; this order is an assumption.

The C# files do not compile as one unit: two classes are named `CyberAttackManager`. They are kept in separate modules, `AttackManager` and `DraftAttackManager`.

## Model

| member | source | states |
|---|---|---|
| ComponentBase.PowerComponentBase.constructor | Assets/SCRIPTS/PowerComponentBase.cs:7-10 | a new node is operational, visualised and carries no power |
| ComponentBase.PowerComponentBase.VisualisationPass | Assets/SCRIPTS/PowerComponentBase.cs:35-45 | a pass of the visualisation routine draws the connections if and only if visualisation is enabled |
| Collections.AddIfAbsent | Assets/SCRIPTS/PowerGrid.cs:37-43 | adding a consumer keeps every earlier entry, adds nothing else, never creates a duplicate and is the identity when the consumer is already present |
| Collections.RemoveFirst | Assets/SCRIPTS/PowerGrid.cs:46-49 | removal shortens the list by one exactly when the consumer is listed, and otherwise changes nothing |
| Collections.RemoveFirstRemovesAll | Assets/SCRIPTS/PowerGrid.cs:46-49 | in a duplicate-free list, removing the first occurrence removes the consumer altogether and keeps every other one |
| Turbines.SetSpeed | Assets/SCRIPTS/Turbine.cs:69-75 | under manual control the effective speed becomes the new speed; in automatic mode nothing changes |
| Turbines.Toggle | Assets/SCRIPTS/Turbine.cs:78-85 | switching manual control on sets the effective speed to the initial speed; switching it off returns to the natural wind speed and keeps the stored manual speed |
| Turbines.ReenableWithoutSpeedStops | Assets/SCRIPTS/Turbine.cs:78-85 | re-enabling manual control with the default speed stops the turbine, whatever manual speed it had |
| Turbines.PowerOutput | Assets/SCRIPTS/Turbine.cs:30-48 | output is never negative, and is zero exactly when the turbine is not operational (effective speed not positive) |
| Turbines.Report | Assets/SCRIPTS/Turbine.cs:33-48 | an operational turbine overwrites its wind-farm entry with its output; a stopped one reports nothing |
| Turbines.StoppedTurbineStillCounted | Assets/SCRIPTS/Turbine.cs:44-48 | a turbine that stops after reporting keeps its last positive reading in the farm's total |
| Turbines.GenerationAppend | Assets/SCRIPTS/PowerSystemManager.cs:101-109 | total generation is the sum of the operational turbines' outputs, built one turbine at a time |
| Turbines.Turbine.constructor | Assets/SCRIPTS/Turbine.cs:10-19 | a new turbine is in automatic mode with no manual speed and the default maximum speed |
| Turbines.Turbine.Update | Assets/SCRIPTS/Turbine.cs:27-49 | each frame recomputes the operational flag and the power from the effective speed, and reports to the farm only when operational |
| Turbines.Turbine.SetWindSpeed | Assets/SCRIPTS/Turbine.cs:69-75 | the controls become SetSpeed of the old controls |
| Turbines.Turbine.ToggleManualControl | Assets/SCRIPTS/Turbine.cs:78-85 | the controls become Toggle of the old controls |
| WindFarms.Receive | Assets/SCRIPTS/WindFarm.cs:37-45 | a reading overwrites the turbine's entry, every listed turbine stays listed, and a consistent table (no turbine listed twice, keys exactly the listed turbines) stays consistent |
| WindFarms.ReceiveReplacesReading | Assets/SCRIPTS/WindFarm.cs:37-45 | a repeat report from a listed turbine changes the total by the difference, and does not add to it |
| WindFarms.ReceiveListed | Assets/SCRIPTS/WindFarm.cs:37-45 | a report from a turbine already in the table overwrites that turbine's reading in place and leaves every other reading as it was |
| WindFarms.ReceiveUnlisted | Assets/SCRIPTS/WindFarm.cs:37-45 | a report from a turbine not yet in the table appends its reading after all the existing ones |
| WindFarms.ReadingPersists | Assets/SCRIPTS/WindFarm.cs:37-45 | entries are never removed: reports from other turbines leave a turbine's last reading in place |
| WindFarms.WindFarm.constructor | Assets/SCRIPTS/WindFarm.cs:10-11 | a new farm has an empty table |
| WindFarms.WindFarm.ReceivePower | Assets/SCRIPTS/WindFarm.cs:37-45 | the table becomes Receive of the old table |
| WindFarms.WindFarm.Update | Assets/SCRIPTS/WindFarm.cs:20-34 | the farm's power is the sum of its table; it is computed even when the farm is out of service, and forwarded only when it is in service and has an inverter |
| Inverters.Relay | Assets/SCRIPTS/Inverter.cs:23-30 | with a transformer the output equals the input, with no loss; without one the output is kept |
| Inverters.RelayRepeats | Assets/SCRIPTS/Inverter.cs:18-30 | the input is never reset, so the same value is relayed in every later frame |
| Inverters.Inverter.constructor | Assets/SCRIPTS/Inverter.cs:15-16 | a new inverter holds no power |
| Inverters.Inverter.ReceivePower | Assets/SCRIPTS/Inverter.cs:18-21 | only the input is stored |
| Inverters.Inverter.Update | Assets/SCRIPTS/Inverter.cs:23-30 | the output follows Relay, and the transformer receives the input unchanged |
| ElectricalComponents.Provide | Assets/SCRIPTS/ElectricalComponent.cs:17-22 | the amount provided is the smaller of the request and the stored output, and what is left plus what is provided equals what was stored |
| ElectricalComponents.ProvideKeepsOutputNonNegative | Assets/SCRIPTS/ElectricalComponent.cs:17-22 | with non-negative request and output, the amount provided and the remainder are both non-negative |
| ElectricalComponents.SuccessiveRequestsBounded | Assets/SCRIPTS/ElectricalComponent.cs:17-22 | two successive requests together never receive more than was stored |
| ElectricalComponents.ElectricalComponent.constructor | Assets/SCRIPTS/ElectricalComponent.cs:6-7 | a new component holds no power |
| ElectricalComponents.ElectricalComponent.ReceivePower | Assets/SCRIPTS/ElectricalComponent.cs:11-15 | input and output both become the received power |
| ElectricalComponents.ElectricalComponent.ProvidePower | Assets/SCRIPTS/ElectricalComponent.cs:17-22 | the amount returned and the new output follow Provide |
| ElectricalComponents.ElectricalComponent.Charge | Assets/SCRIPTS/ElectricalComponent.cs:24 | the default charge stores nothing |
| ElectricalComponents.ElectricalComponent.Discharge | Assets/SCRIPTS/ElectricalComponent.cs:25 | the default discharge releases nothing |
| ElectricalComponents.ElectricalComponent.SetOutputPower | Assets/SCRIPTS/ElectricalComponent.cs:27-30 | the output becomes the given power |
| Transformers.Routing | Assets/SCRIPTS/Transformer.cs:37-66 | the grid gets the smaller of input and demand; the battery is asked for exactly the positive shortfall, or offered exactly the positive surplus |
| Transformers.GridShareWithinBoth | Assets/SCRIPTS/Transformer.cs:37-66 | the grid never receives more than it demands or more than came in |
| Transformers.SharesSumToInput | Assets/SCRIPTS/Transformer.cs:52-66 | when the input covers the demand, the grid share plus the battery share equals the input |
| Transformers.DemandMetWithBatteryHelp | Assets/SCRIPTS/Transformer.cs:37-50 | in a shortage that a charged battery can cover, the grid share plus the battery's delivery meets the demand exactly |
| Transformers.SurplusStoredWithinCapacity | Assets/SCRIPTS/Transformer.cs:52-66 | storing the surplus keeps the battery within its bounds, and stores at most the surplus times the charge efficiency |
| Transformers.Transformer.constructor | Assets/SCRIPTS/Transformer.cs:11-12 | a new transformer has no input and no demand |
| Transformers.Transformer.ReceivePower | Assets/SCRIPTS/Transformer.cs:70-73 | only the input is stored; Update never resets it |
| Transformers.Transformer.Update | Assets/SCRIPTS/Transformer.cs:20-67 | out of service it carries no power and touches neither grid nor battery; in service its power equals its input, the demand is refreshed only when a grid is attached (otherwise the last demand is reused), and the grid and battery receive what Routing assigns |
| Transformers.Transformer.Dispatch | Assets/SCRIPTS/Transformer.cs:37-66 | the grid's ledger and the battery's reserve change exactly as Routing assigns |
| Batteries.Store | Assets/SCRIPTS/Battery.cs:59-74 | out of service nothing changes; otherwise the charge grows by at most excess times efficiency and never past the capacity, and the pending request is kept |
| Batteries.Request | Assets/SCRIPTS/Battery.cs:77-83 | out of service nothing changes; otherwise the pending withdrawal is overwritten so that, times the discharge efficiency, it equals the amount needed |
| Batteries.Withdrawal | Assets/SCRIPTS/Battery.cs:33-36 | the withdrawal is non-negative, and when it is not zero it exceeds neither the pending request nor the charge |
| Batteries.Tick | Assets/SCRIPTS/Battery.cs:24-56 | an operational frame clears the pending request; a non-operational frame keeps it |
| Batteries.ChargePercentage | Assets/SCRIPTS/Battery.cs:85-88 | a charge within bounds reads between 0 and 100, and exactly 100 when full |
| Batteries.StoreKeepsBounds | Assets/SCRIPTS/Battery.cs:59-67 | storing a non-negative excess keeps the charge within [0, capacity] and never lowers it |
| Batteries.TickKeepsBounds | Assets/SCRIPTS/Battery.cs:33-42 | a frame lowers the charge by exactly the withdrawal and keeps it within bounds |
| Batteries.DeliveredWithinRequest | Assets/SCRIPTS/Battery.cs:24-83 | the power delivered after a request never exceeds the amount requested |
| Batteries.RequestMetWhenCharged | Assets/SCRIPTS/Battery.cs:24-83 | with enough charge the request is met exactly, and the charge drops by need over discharge efficiency |
| Batteries.StoreThenRequest | Assets/SCRIPTS/Battery.cs:59-83 | storing X with room to spare, then requesting X times both efficiencies, delivers exactly that amount |
| Batteries.ChargeStaysInBounds | Assets/SCRIPTS/Battery.cs:24-83 | any sequence of stores, requests and frames keeps the charge within [0, capacity] |
| Batteries.Battery.constructor | Assets/SCRIPTS/Battery.cs:11-16 | a new battery is empty, with the default efficiencies and the given capacity |
| Batteries.Battery.Update | Assets/SCRIPTS/Battery.cs:24-56 | the reserve follows Tick; the battery's power is what it delivered, and that is sent to the grid |
| Batteries.Battery.StorePower | Assets/SCRIPTS/Battery.cs:59-74 | the reserve becomes Store of the old reserve |
| Batteries.Battery.RequestPower | Assets/SCRIPTS/Battery.cs:77-83 | the reserve becomes Request of the old reserve |
| Grid.TotalDemandAppend | Assets/SCRIPTS/PowerGrid.cs:59-70 | total demand is the sum of the operational consumers' demands, built one consumer at a time |
| Grid.TotalDemandNonNegative | Assets/SCRIPTS/PowerGrid.cs:59-70 | non-negative demands give a non-negative total |
| Grid.Distribution | Assets/SCRIPTS/PowerGrid.cs:73-104 | one grant per listed consumer |
| Grid.GrantWithinDemand | Assets/SCRIPTS/PowerGrid.cs:80-103 | no consumer is granted more than it demands, nor a negative amount |
| Grid.FullSupply | Assets/SCRIPTS/PowerGrid.cs:81-90 | when the power covers the total demand, each operational consumer receives exactly its demand |
| Grid.Shortage | Assets/SCRIPTS/PowerGrid.cs:92-103 | under a shortage each operational consumer is granted its demand times the power divided by the total demand, and any other consumer is granted nothing |
| Grid.ShortageSharesEverything | Assets/SCRIPTS/PowerGrid.cs:92-103 | under a shortage, the grants are proportional and add up to exactly the power available |
| Grid.NeverOverAllocates | Assets/SCRIPTS/PowerGrid.cs:73-104 | the grid never hands out more than it holds |
| Grid.Receive | Assets/SCRIPTS/PowerGrid.cs:52-56 | a report overwrites its source's entry with the power and adds the power to the total, whether or not the source had reported before; every other source keeps its entry |
| Grid.RepeatedReportCountsTwice | Assets/SCRIPTS/PowerGrid.cs:52-56 | a repeat report from the same source is counted twice in the total, while the source's entry holds it once |
| Grid.OutageAccumulates | Assets/SCRIPTS/PowerGrid.cs:17-34 | while the grid is out of service, received power piles up frame after frame |
| Grid.InServiceResets | Assets/SCRIPTS/PowerGrid.cs:17-34 | an operational frame empties the sources and the total |
| Grid.Consumer.constructor | Assets/SCRIPTS/Consumer.cs:8-13 | a new consumer demands 5, has received nothing and is not short |
| Grid.Consumer.Awake | Assets/SCRIPTS/Consumer.cs:15-25 | the consumer registers with its grid |
| Grid.Consumer.OnDestroy | Assets/SCRIPTS/Consumer.cs:27-34 | the consumer unregisters from its grid |
| Grid.Consumer.Update | Assets/SCRIPTS/Consumer.cs:36-55 | out of service its power is 0 and what it received is kept; in service its power is what it received, that buffer is cleared, and it is short exactly below 99% of its demand |
| Grid.Consumer.ReceivePower | Assets/SCRIPTS/Consumer.cs:58-61 | the received power is overwritten |
| Grid.ReportedDemandIsCounted | Assets/SCRIPTS/Consumer.cs:64-67 | a consumer's reported demand is its demand when operational and 0 otherwise |
| Grid.PowerGrid.constructor | Assets/SCRIPTS/PowerGrid.cs:7-9 | a new grid has no consumers, no sources and no power |
| Grid.PowerGrid.RegisterConsumer | Assets/SCRIPTS/PowerGrid.cs:37-43 | registering is idempotent and leaves the list free of duplicates |
| Grid.PowerGrid.UnregisterConsumer | Assets/SCRIPTS/PowerGrid.cs:46-49 | the consumer is no longer listed and every other consumer stays |
| Grid.PowerGrid.ReceivePower | Assets/SCRIPTS/PowerGrid.cs:52-56 | the ledger becomes Receive of the old ledger |
| Grid.PowerGrid.GetTotalDemand | Assets/SCRIPTS/PowerGrid.cs:59-70 | the loop returns the sum of the operational consumers' demands |
| Grid.PowerGrid.GiveDemands | Assets/SCRIPTS/PowerGrid.cs:83-89 | every operational listed consumer receives exactly its demand, and every other listed consumer keeps what it had received |
| Grid.PowerGrid.GiveShares | Assets/SCRIPTS/PowerGrid.cs:94-101 | every operational listed consumer receives its demand times the ratio, and every other listed consumer keeps what it had received |
| Grid.PowerGrid.DistributePower | Assets/SCRIPTS/PowerGrid.cs:73-104 | every listed consumer receives the amount Distribution grants it, or keeps what it had when nothing is distributed |
| Grid.PowerGrid.Update | Assets/SCRIPTS/PowerGrid.cs:17-34 | out of service the grid carries no power and keeps accumulating; in service it distributes the accumulated total and then resets the ledger |
| PowerSystem.ThrottleReachesTarget | Assets/SCRIPTS/PowerSystemManager.cs:111-127 | over the turbines' actual controls, manual or not: after throttling, generation is exactly 105% of a non-zero demand if and only if the natural-wind total equals the generation the factor came from, and it always is when every operational turbine ran on its natural wind |
| PowerSystem.ThrottleScalesNaturalWind | Assets/SCRIPTS/PowerSystemManager.cs:119-127 | whatever the controls were, the throttled total is the factor times the natural-wind total, not times the measured generation |
| PowerSystem.ThrottleSlowsDown | Assets/SCRIPTS/PowerSystemManager.cs:112-127 | when throttling applies, the reduction factor is in [0, 1) and no throttled turbine runs faster than its natural wind speed |
| PowerSystem.PowerSystemManager.constructor | Assets/SCRIPTS/PowerSystemManager.cs:9-22 | a new manager is wired to the given turbines, wind farm, inverter, transformer, battery, grid and consumers, with debug monitoring on and no pending emergency stop |
| PowerSystem.PowerSystemManager.SetAllTurbineWindSpeeds | Assets/SCRIPTS/PowerSystemManager.cs:71-80 | every listed turbine is put under manual control at the given speed |
| PowerSystem.PowerSystemManager.ResetTurbinesToAutomatic | Assets/SCRIPTS/PowerSystemManager.cs:83-92 | every listed turbine leaves manual control and keeps its manual speed |
| PowerSystem.PowerSystemManager.MonitorStep | Assets/SCRIPTS/PowerSystemManager.cs:59-64 | an emergency stops every turbine at manual speed 0 and then clears the flag |
| PowerSystem.PowerSystemManager.MeasureGeneration | Assets/SCRIPTS/PowerSystemManager.cs:101-109 | the loop returns the sum of the operational turbines' outputs |
| PowerSystem.PowerSystemManager.ThrottleTurbines | Assets/SCRIPTS/PowerSystemManager.cs:119-127 | every operational turbine is set to manual at its natural wind speed times the factor; the others are untouched |
| PowerSystem.PowerSystemManager.HandleBatteryFullScenario | Assets/SCRIPTS/PowerSystemManager.cs:95-131 | nothing changes without a battery; otherwise the turbines are throttled exactly when the charge is over 95% and generation exceeds 105% of demand, with demand 0 when there is no grid |
| PowerSystem.PowerSystemManager.ThrottleIfDue | Assets/SCRIPTS/PowerSystemManager.cs:111-130 | the throttle decision for given readings; when it fires, generation is non-zero and the factor is 105% of demand over generation |
| StatusIndicators.Classify | Assets/SCRIPTS/PowerStatusIndicatorManager.cs:136-141 | Critical exactly below the critical threshold, Warning exactly between the two thresholds, Good exactly at or above both |
| StatusIndicators.ClassifyMonotone | Assets/SCRIPTS/PowerStatusIndicatorManager.cs:136-141 | with ordered thresholds, a higher ratio never gives a worse status |
| StatusIndicators.DefaultBands | Assets/SCRIPTS/PowerStatusIndicatorManager.cs:23-24 | with the default thresholds, full supply is Good and no supply is Critical |
| StatusIndicators.StatusOf | Assets/SCRIPTS/PowerStatusIndicatorManager.cs:102-103 | the status is the classification of supply over demand; with zero demand it is never Warning, and Critical exactly for negative power |
| StatusIndicators.Observe | Assets/SCRIPTS/PowerStatusIndicatorManager.cs:93-134 | a non-operational consumer is dropped from both maps; a first reading is recorded with an icon; a change updates the status and animates exactly a recovery to Good; an unchanged status changes nothing; other consumers are untouched and icons stay coherent with statuses |
| StatusIndicators.ObserveSettles | Assets/SCRIPTS/PowerStatusIndicatorManager.cs:93-134 | after an update the consumer is settled, and updating a settled consumer changes nothing |
| StatusIndicators.ObserveKeepsOthersSettled | Assets/SCRIPTS/PowerStatusIndicatorManager.cs:93-134 | updating one consumer leaves every other consumer settled |
| StatusIndicators.ObserveEachSettles | Assets/SCRIPTS/PowerStatusIndicatorManager.cs:77-91 | after a pass of the periodic check every listed consumer is settled |
| StatusIndicators.SettledPassIsIdle | Assets/SCRIPTS/PowerStatusIndicatorManager.cs:77-91 | a pass over settled consumers changes nothing |
| StatusIndicators.SecondPassIsIdle | Assets/SCRIPTS/PowerStatusIndicatorManager.cs:77-91 | with unchanged readings the periodic check is idempotent |
| StatusIndicators.PowerStatusIndicatorManager.constructor | Assets/SCRIPTS/PowerStatusIndicatorManager.cs:15-42 | default thresholds 0.25 and 0.85, empty maps, active |
| StatusIndicators.PowerStatusIndicatorManager.GetStatusFromPowerRatio | Assets/SCRIPTS/PowerStatusIndicatorManager.cs:136-141 | the classification against the manager's own thresholds |
| StatusIndicators.PowerStatusIndicatorManager.RemoveIcon | Assets/SCRIPTS/PowerStatusIndicatorManager.cs:214-221 | the consumer's icon, if any, is removed |
| StatusIndicators.PowerStatusIndicatorManager.UpdateStatusIcon | Assets/SCRIPTS/PowerStatusIndicatorManager.cs:143-177 | the consumer's icon is replaced by one showing the status |
| StatusIndicators.PowerStatusIndicatorManager.UpdateConsumerStatus | Assets/SCRIPTS/PowerStatusIndicatorManager.cs:93-134 | both maps become Observe of the old maps, for the consumer's current reading |
| StatusIndicators.PowerStatusIndicatorManager.CheckAllConsumersPowerStatus | Assets/SCRIPTS/PowerStatusIndicatorManager.cs:77-91 | one iteration updates every listed non-null consumer in order |
| StatusIndicators.PowerStatusIndicatorManager.ForceRefreshAllIcons | Assets/SCRIPTS/PowerStatusIndicatorManager.cs:259-292 | afterwards the statuses are exactly those of the operational listed consumers, each with its current classification and an unanimated icon |
| StatusIndicators.RebuildContents | Assets/SCRIPTS/PowerStatusIndicatorManager.cs:259-292 | right after a refresh every operational listed consumer shows its current status, only listed consumers are tracked, and each tracked consumer has exactly one unanimated icon matching its status (until a Good icon's timer removes it: Expire) |
| StatusIndicators.CheckAfterRefreshIsIdle | Assets/SCRIPTS/PowerStatusIndicatorManager.cs:259-292 | a monitoring pass right after a refresh, on the same readings, changes neither map |
| StatusIndicators.PowerStatusIndicatorManager.RestartMonitoring | Assets/SCRIPTS/PowerStatusIndicatorManager.cs:294-310 | both maps are emptied and the restarted monitoring pass, which runs within the call, leaves them exactly as a refresh would |
| StatusIndicators.PassFromEmptyIsRefresh | Assets/SCRIPTS/PowerStatusIndicatorManager.cs:77-91 | a monitoring pass from empty maps builds exactly what a refresh builds from the same readings |
| StatusIndicators.Expire | Assets/SCRIPTS/PowerStatusIndicatorManager.cs:214-221 | a Good icon's timer running out removes that consumer's icon, keeps every other icon and keeps every status |
| StatusIndicators.ExpiredIconStaysGone | Assets/SCRIPTS/PowerStatusIndicatorManager.cs:93-134 | once a settled consumer's icon has expired, monitoring passes over unchanged readings do not bring it back |
| StatusIndicators.PowerStatusIndicatorManager.RemoveIconAfterDelay | Assets/SCRIPTS/PowerStatusIndicatorManager.cs:234-238 | the end of the timer of an unanimated Good icon: the maps become Expire of the old maps |
| StatusIndicators.PowerStatusIndicatorManager.AnimateGoodIcon | Assets/SCRIPTS/PowerStatusIndicatorManager.cs:179-212 | the end of the fade of an animated Good icon: the maps become Expire of the old maps |
| Money.Satisfaction | Assets/SCRIPTS/MoneyManager.cs:91-92 | the paid share lies in [0, 1]; it is 1 when demand is met and 0 when nothing is demanded or delivered |
| Money.ActualWithinPotential | Assets/SCRIPTS/MoneyManager.cs:68-99 | with a non-negative price and demands, actual revenue is between 0 and potential revenue, so the loss is never negative |
| Money.FullSupplyLosesNothing | Assets/SCRIPTS/MoneyManager.cs:68-99 | when every operational consumer is fully supplied, actual revenue equals potential revenue |
| Money.TrackOne | Assets/SCRIPTS/MoneyManager.cs:102-137 | an out-of-service consumer changes nothing; below 10% supply its timer grows by one interval (from 0 if absent) and the payout is added exactly when the timer lands in [threshold, threshold + interval); at or above 10% its timer is removed and nothing is paid |
| Money.ConsumerOutage | Assets/SCRIPTS/MoneyManager.cs:107-135 | one pass of the outage loop for an operational consumer gives the timers and payout total that TrackOne prescribes |
| Money.ZeroDemandIsOutage | Assets/SCRIPTS/MoneyManager.cs:109-113 | an operational consumer that demands nothing is counted as in outage |
| Money.PayoutOncePerOutage | Assets/SCRIPTS/MoneyManager.cs:113-129 | during a continuous outage the timer reads n intervals, and the insurance has been paid exactly once once the threshold is reached |
| Money.PayoutsNeverShrink | Assets/SCRIPTS/MoneyManager.cs:102-137 | with a non-negative payout the insurance total never decreases |
| Money.ConsumerRevenue | Assets/SCRIPTS/MoneyManager.cs:80-95 | one operational consumer's potential and actual revenue |
| Money.TallyRevenue | Assets/SCRIPTS/MoneyManager.cs:68-96 | the loop's totals are the sums of every consumer's potential and actual revenue |
| Money.TallyOutages | Assets/SCRIPTS/MoneyManager.cs:102-137 | the loop updates the timers and payouts consumer by consumer, as TrackOne does |
| Money.MoneyManager.constructor | Assets/SCRIPTS/MoneyManager.cs:20-35 | default tariff (price 0.15, threshold 10, payout 50, interval 1) and all totals zero |
| Money.MoneyManager.CalculateRevenue | Assets/SCRIPTS/MoneyManager.cs:68-100 | the totals are the revenue of the current readings, and the loss is potential minus actual |
| Money.MoneyManager.TrackOutage | Assets/SCRIPTS/MoneyManager.cs:102-137 | the timers and insurance total advance by one pass over the consumers |
| Money.MoneyManager.UpdateMoneySystem | Assets/SCRIPTS/MoneyManager.cs:49-66 | without a system manager nothing changes; otherwise revenue and outages are updated and the period timer advances by one interval |
| Money.MoneyManager.ResetPeriod | Assets/SCRIPTS/MoneyManager.cs:191-200 | the timer, every total and the insurance are zero, and no outage is tracked |
| Money.MoneyManager.GetFinancialStatus | Assets/SCRIPTS/MoneyManager.cs:203-206 | the four totals as stored; the loss is potential minus actual |
| AttackBase.HookAfter | Assets/SCRIPTS/CyberAttackBase.cs:24-36 | the start hook runs exactly when the attack has just become active |
| AttackBase.CyberAttackBase.constructor | Assets/SCRIPTS/CyberAttackBase.cs:6-8 | an attack starts inactive, with no references |
| AttackBase.CyberAttackBase.Initialise | Assets/SCRIPTS/CyberAttackBase.cs:13-17 | only the visualiser and manager references are stored |
| AttackBase.CyberAttackBase.Flip | Assets/SCRIPTS/CyberAttackBase.cs:24-36 | the flag flips, and the hook returned matches the new flag |
| SafetyOverride.SafetyOverrideAttack.constructor | Assets/SCRIPTS/Attacks/SafetyOverrideAttack.cs:3-5 | a new safety-override attack is inactive |
| SafetyOverride.SafetyOverrideAttack.ToggleAttack | Assets/SCRIPTS/Attacks/SafetyOverrideAttack.cs:7-22 | toggling flips the flag and changes nothing else, with or without a manager |
| Substation.Toggle | Assets/SCRIPTS/SubstationAttack.cs:37-83 | toggling never changes whether the attack has a target |
| Substation.ToggleKeepsInv | Assets/SCRIPTS/SubstationAttack.cs:37-83 | being under attack coincides with being active, and only a targeted attack is active; toggling preserves both |
| Substation.OnThenOffRestoresOperational | Assets/SCRIPTS/SubstationAttack.cs:37-83 | starting takes the transformer out of service; stopping then restores exactly its previous operational flag |
| Substation.StopDoesNotRestoreVisualisation | Assets/SCRIPTS/SubstationAttack.cs:65-79 | for every targeted inactive attack, starting then stopping leaves the visualisation on, so it is as before exactly when it was on before |
| Substation.UntargetedNeverStarts | Assets/SCRIPTS/SubstationAttack.cs:58-62 | without a transformer the start is refused and toggling changes nothing |
| Substation.DestroyLeavesFlagSet | Assets/SCRIPTS/CyberAttackBase.cs:41-48 | destroying an active attack restores the transformer but leaves the attack flagged active |
| Substation.SubstationAttack.constructor | Assets/SCRIPTS/SubstationAttack.cs:8-14 | a new attack has no target and is not under attack |
| Substation.SubstationAttack.Initialise | Assets/SCRIPTS/SubstationAttack.cs:22-35 | the target becomes the manager's transformer when there is one; otherwise the previous target is kept |
| Substation.SubstationAttack.StartAttack | Assets/SCRIPTS/SubstationAttack.cs:37-63 | the state becomes Start of the old state |
| Substation.SubstationAttack.StopAttack | Assets/SCRIPTS/SubstationAttack.cs:65-83 | the state becomes Stop of the old state |
| Substation.SubstationAttack.ToggleAttack | Assets/SCRIPTS/CyberAttackBase.cs:24-36 | the state becomes Toggle of the old state |
| Substation.SubstationAttack.OnDestroy | Assets/SCRIPTS/CyberAttackBase.cs:41-48 | an active attack is stopped; an inactive one is left alone |
| PowerGeneration.DrawnSpeedInRange | Assets/SCRIPTS/PowerGenerationAttack.cs:64-65 | zeroing a drawn speed keeps it within [0, 1.5 × maxSpeed] |
| PowerGeneration.ChangedIsEmptyIffSame | Assets/SCRIPTS/PowerGenerationAttack.cs:82-105 | nothing is redrawn exactly when the set did not change, and a turbine that stays manipulated is never redrawn |
| PowerGeneration.ChangedTurbines | Assets/SCRIPTS/PowerGenerationAttack.cs:86-104 | the two loops collect exactly the symmetric difference of the old and new sets |
| PowerGeneration.PowerGenerationAttack.constructor | Assets/SCRIPTS/PowerGenerationAttack.cs:10 | a new attack manipulates no turbine |
| PowerGeneration.PowerGenerationAttack.IsTurbineManipulated | Assets/SCRIPTS/PowerGenerationAttack.cs:108-111 | plain membership in the manipulated set, whether or not the attack is active |
| PowerGeneration.PowerGenerationAttack.StopAttack | Assets/SCRIPTS/PowerGenerationAttack.cs:23-45 | with a manager, every turbine returns to automatic and the set is emptied; without one nothing changes |
| PowerGeneration.PowerGenerationAttack.ToggleAttack | Assets/SCRIPTS/PowerGenerationAttack.cs:13-45 | the flag flips; stopping with a manager resets every turbine and empties the set; starting is stated before the first manipulation pass (see Left out) |
| PowerGeneration.PowerGenerationAttack.OnDestroy | Assets/SCRIPTS/CyberAttackBase.cs:41-48 | an inactive attack keeps its set and every turbine's controls; an active one with a manager empties the set and returns every turbine to automatic, keeping its manual speed |
| PowerGeneration.PowerGenerationAttack.ManipulationCycle | Assets/SCRIPTS/PowerGenerationAttack.cs:47-79 | the set becomes exactly the picked turbines, each manual at a speed in range; unpicked turbines keep their controls, so one that leaves the set stays manual; the redrawn turbines are the changed ones |
| PowerGeneration.PowerGenerationAttack.UpdateChangedTurbineConnections | Assets/SCRIPTS/PowerGenerationAttack.cs:82-105 | without a visualiser nothing is redrawn; otherwise exactly the changed turbines are |
| MonitoringDisruption.ShowTurbines | Assets/SCRIPTS/Attacks/MonitoringDisruptionAttack.cs:84-90 | every listed turbine's visualisation is set to the value |
| MonitoringDisruption.ShowSingles | Assets/SCRIPTS/Attacks/MonitoringDisruptionAttack.cs:93-120 | the wind farm, transformer, battery and grid are set to the value, and the turbines stay set |
| MonitoringDisruption.ShowConsumers | Assets/SCRIPTS/Attacks/MonitoringDisruptionAttack.cs:123-129 | every listed consumer is set to the value, and the earlier nodes stay set |
| MonitoringDisruption.MonitoringDisruptionAttack.constructor | Assets/SCRIPTS/Attacks/MonitoringDisruptionAttack.cs:5-6 | a new attack is inactive and holds the given overlay |
| MonitoringDisruption.MonitoringDisruptionAttack.ToggleComponentVisualisation | Assets/SCRIPTS/Attacks/MonitoringDisruptionAttack.cs:81-130 | every node's visualisation is set to the value |
| MonitoringDisruption.MonitoringDisruptionAttack.StartAttack | Assets/SCRIPTS/Attacks/MonitoringDisruptionAttack.cs:13-33 | without a manager or a visualiser nothing changes; otherwise monitoring, every node's visualisation and the overlay are off; the overlay's statuses and icons are kept in every case |
| MonitoringDisruption.MonitoringDisruptionAttack.StopAttack | Assets/SCRIPTS/Attacks/MonitoringDisruptionAttack.cs:35-57 | without a manager or a visualiser nothing changes; otherwise everything is forced on, not restored, and the restarted monitoring leaves the overlay exactly as a refresh would |
| MonitoringDisruption.MonitoringDisruptionAttack.ToggleAttack | Assets/SCRIPTS/CyberAttackBase.cs:24-36 | the flag flips; without a manager or a visualiser no node, no monitoring flag and nothing in the overlay changes; otherwise monitoring is on exactly when the attack is now inactive; starting keeps the overlay's statuses and icons, and stopping leaves the overlay as a refresh would |
| MonitoringDisruption.MonitoringDisruptionAttack.OnDestroy | Assets/SCRIPTS/CyberAttackBase.cs:41-48 | destroying an active attack with a manager and a visualiser turns monitoring back on and leaves the overlay as a refresh would; in every other case no node, no monitoring flag and nothing in the overlay changes |
| VisualDisruption.VisualDisruptionAttack.constructor | Assets/SCRIPTS/VisualDisruptionAttack.cs:6-20 | a new attack is inactive with no overlay |
| VisualDisruption.VisualDisruptionAttack.SetPowerStatusIndicator | Assets/SCRIPTS/VisualDisruptionAttack.cs:28-31 | the overlay reference is stored |
| VisualDisruption.VisualDisruptionAttack.Initialise | Assets/SCRIPTS/VisualDisruptionAttack.cs:33-60 | the base's references are stored |
| VisualDisruption.VisualDisruptionAttack.DisruptionCycle | Assets/SCRIPTS/VisualDisruptionAttack.cs:100-120 | with an overlay, each pass leaves its icons rebuilt from the current readings |
| VisualDisruption.VisualDisruptionAttack.StopAttack | Assets/SCRIPTS/VisualDisruptionAttack.cs:70-98 | with a visualiser and an overlay the icons are rebuilt; otherwise the overlay is untouched |
| VisualDisruption.VisualDisruptionAttack.StartAttack | Assets/SCRIPTS/VisualDisruptionAttack.cs:62-68 | with a visualiser, an active attack and an overlay, the coroutine's first pass rebuilds the overlay from the current readings; otherwise the overlay is untouched |
| VisualDisruption.VisualDisruptionAttack.ToggleAttack | Assets/SCRIPTS/CyberAttackBase.cs:24-36 | the flag flips; with a visualiser and an overlay both starting (whose first pass runs at once) and stopping leave the overlay rebuilt from the current readings; otherwise the overlay is untouched |
| VisualDisruption.VisualDisruptionAttack.OnDestroy | Assets/SCRIPTS/CyberAttackBase.cs:41-48 | destroying an active attack with a visualiser leaves the overlay as a refresh would; otherwise the overlay is untouched |
| AttackEngine.AllOff | Assets/SCRIPTS/Attacks/CyberAttackManager.cs:50-65 | a flag for every registered name, each off |
| AttackEngine.ToggleOnlyNamed | Assets/SCRIPTS/Attacks/CyberAttackManager.cs:96-98 | toggling a registered attack flips its flag unless its start is refused, and leaves every other flag and the set of names alone |
| AttackEngine.UnknownNameIsIgnored | Assets/SCRIPTS/Attacks/CyberAttackManager.cs:105-108 | toggling an unknown name changes nothing |
| AttackEngine.ToggleTwiceRestores | Assets/SCRIPTS/CyberAttackBase.cs:24-36 | two unrefused toggles of the same name restore every flag |
| AttackEngine.LockedIsIdle | Assets/SCRIPTS/Attacks/CyberAttackManager.cs:90-94 | while locked, toggling changes nothing at all |
| AttackEngine.EngageKeepsAttacks | Assets/SCRIPTS/Attacks/CyberAttackManager.cs:135-140 | engaging moves the lock and no attack |
| AttackEngine.SwitchOffClears | Assets/SCRIPTS/Attacks/CyberAttackManager.cs:142-149 | after the disengage loop over some names, a flag is on exactly when it was on and its name was not visited |
| AttackEngine.DisengageLeavesNoneActive | Assets/SCRIPTS/Attacks/CyberAttackManager.cs:135-156 | disengaging locks the manager and leaves every registered attack off |
| AttackManager.RegistryHasFourAttacks | Assets/SCRIPTS/Attacks/CyberAttackManager.cs:50-65 | the registry holds four distinct names, without the safety override |
| AttackManager.CyberAttackManager.Flags | Assets/SCRIPTS/Attacks/CyberAttackManager.cs:24 | the dictionary is keyed by exactly the four registered names |
| AttackManager.CyberAttackManager.constructor | Assets/SCRIPTS/Attacks/CyberAttackManager.cs:26-65 | the manager starts locked with four distinct attacks, all off, sharing the overlay |
| AttackManager.CyberAttackManager.Start | Assets/SCRIPTS/Attacks/CyberAttackManager.cs:33-48 | every attack is initialised with the visualiser and the manager, and the substation attack finds its transformer |
| AttackManager.CyberAttackManager.ToggleVisualDisruption | Assets/SCRIPTS/Attacks/CyberAttackManager.cs:96-98 | exactly the visual-disruption flag flips |
| AttackManager.CyberAttackManager.ToggleMonitoringDisruption | Assets/SCRIPTS/Attacks/CyberAttackManager.cs:96-98 | exactly the monitoring-disruption flag flips |
| AttackManager.CyberAttackManager.TogglePowerGeneration | Assets/SCRIPTS/Attacks/CyberAttackManager.cs:96-98 | exactly the power-generation flag flips |
| AttackManager.CyberAttackManager.ToggleSubstation | Assets/SCRIPTS/Attacks/CyberAttackManager.cs:96-98 | exactly the substation flag flips, unless there is no transformer, in which case it stays off |
| AttackManager.CyberAttackManager.Dispatch | Assets/SCRIPTS/Attacks/CyberAttackManager.cs:96-108 | the flags become ToggleNamed of the old flags; the frame lets the call write only the named attack's fields and its targets, so the other attacks, and everything for an unknown name, stay as they were |
| AttackManager.CyberAttackManager.ToggleAttack | Assets/SCRIPTS/Attacks/CyberAttackManager.cs:88-109 | the lock and flags become LockedToggle of the old ones; while locked no field any attack writes changes; engaged, only the named attack's fields may change and an unknown name changes nothing |
| AttackManager.CyberAttackManager.SetEngageAttacks | Assets/SCRIPTS/Attacks/CyberAttackManager.cs:135-156 | the lock and flags become SetEngage of the old ones; engaging changes the lock and no attack state; after disengaging no attack is active |
| AttackManager.CyberAttackManager.TurnOffActiveAttacks | Assets/SCRIPTS/Attacks/CyberAttackManager.cs:144-149 | the loop switches off every active attack in registry order |
| AttackManager.CyberAttackManager.TurnOff | Assets/SCRIPTS/Attacks/CyberAttackManager.cs:146-147 | an active attack is toggled; an inactive one is left alone |
| AttackManager.CyberAttackManager.IsActive | Assets/SCRIPTS/Attacks/CyberAttackManager.cs:146 | a registered attack's own flag, and false for any other name |
| AttackManager.CyberAttackManager.IsTurbineManipulated | Assets/SCRIPTS/Attacks/CyberAttackManager.cs:111-121 | true exactly when the power-generation attack is active and holds the turbine |
| DraftAttackManager.RegistryHasFiveAttacks | Assets/SCRIPTS/CyberAttackManager.cs:48-73 | the registry holds five distinct names, the safety override among them |
| DraftAttackManager.CyberAttackManager.Flags | Assets/SCRIPTS/CyberAttackManager.cs:22 | the dictionary is keyed by exactly the five registered names |
| DraftAttackManager.CyberAttackManager.constructor | Assets/SCRIPTS/CyberAttackManager.cs:24-73 | five distinct attacks, all off, sharing the overlay |
| DraftAttackManager.CyberAttackManager.Start | Assets/SCRIPTS/CyberAttackManager.cs:30-46 | every attack is initialised with the visualiser and the manager |
| DraftAttackManager.CyberAttackManager.ToggleVisualDisruption | Assets/SCRIPTS/CyberAttackManager.cs:111-114 | exactly the visual-disruption flag flips |
| DraftAttackManager.CyberAttackManager.ToggleSafetyOverride | Assets/SCRIPTS/CyberAttackManager.cs:111-114 | exactly the safety-override flag flips |
| DraftAttackManager.CyberAttackManager.ToggleMonitoringDisruption | Assets/SCRIPTS/CyberAttackManager.cs:111-114 | exactly the monitoring-disruption flag flips |
| DraftAttackManager.CyberAttackManager.TogglePowerGeneration | Assets/SCRIPTS/CyberAttackManager.cs:111-114 | exactly the power-generation flag flips |
| DraftAttackManager.CyberAttackManager.ToggleSubstation | Assets/SCRIPTS/CyberAttackManager.cs:111-114 | exactly the substation flag flips, unless the start is refused |
| DraftAttackManager.CyberAttackManager.ToggleAttack | Assets/SCRIPTS/CyberAttackManager.cs:109-126 | with no lock, the flags become ToggleNamed of the old flags; the frame lets the call write only the named attack's fields, so the other attacks, and everything for an unknown name, stay as they were |
| DraftAttackManager.CyberAttackManager.IsTurbineManipulated | Assets/SCRIPTS/CyberAttackManager.cs:129-140 | true exactly when the power-generation attack is active and holds the turbine |
| MonolithicAttack.DisruptedPalette | Assets/SCRIPTS/CyberAttack.cs:134-153 | every scrambled colour is red, green or yellow |
| MonolithicAttack.EveryDisruptionPaletteIsDrawn | Assets/SCRIPTS/CyberAttack.cs:150-153 | every palette of disruption colours can be drawn |
| MonolithicAttack.CyberAttack.constructor | Assets/SCRIPTS/CyberAttack.cs:20-36 | no attack flags, visual disruption off, no manipulated turbines |
| MonolithicAttack.CyberAttack.Start | Assets/SCRIPTS/CyberAttack.cs:38-64 | the four attack flags are present and off, other entries are kept, and the palette is recorded when there is a visualiser |
| MonolithicAttack.CyberAttack.ToggleVisualDisruptionAttack | Assets/SCRIPTS/CyberAttack.cs:94-148 | without a visualiser nothing changes; otherwise the flag and its dictionary entry flip together, starting scrambles the palette at once with the first pass's draws, and stopping restores the recorded palette |
| MonolithicAttack.CyberAttack.VisualDisruptionCycle | Assets/SCRIPTS/CyberAttack.cs:134-148 | the palette becomes the drawn disruption colours |
| MonolithicAttack.CyberAttack.ToggleSafetyOverrideAttack | Assets/SCRIPTS/CyberAttack.cs:165-187 | without a manager nothing changes; otherwise exactly the safety-override entry flips |
| MonolithicAttack.CyberAttack.ToggleComponentVisualisation | Assets/SCRIPTS/CyberAttack.cs:288-337 | every node's visualisation is set to the value |
| MonolithicAttack.CyberAttack.ToggleMonitoringDisruptionAttack | Assets/SCRIPTS/CyberAttack.cs:191-226 | without a manager or visualiser nothing changes; otherwise exactly its entry flips, and monitoring and every node's visualisation are on exactly when it is now off |
| MonolithicAttack.CyberAttack.TogglePowerGenerationAttack | Assets/SCRIPTS/CyberAttack.cs:229-264 | without a manager nothing changes; otherwise exactly its entry flips; starting runs the first manipulation pass at once, so the set is the picked turbines, each manual at a speed in range; stopping resets every turbine to automatic and empties the set |
| MonolithicAttack.CyberAttack.ManipulationCycle | Assets/SCRIPTS/CyberAttack.cs:338-396 | the set becomes exactly the picked turbines, each manual at a speed in range; the redrawn turbines are the changed ones |
| MonolithicAttack.CyberAttack.IsTurbineManipulated | Assets/SCRIPTS/CyberAttack.cs:478-481 | plain membership, not gated by the attack's flag |

## Left out

- Drawing is not modelled: connection lines, line colours, dots, blade rotation, icon sprites, icon placement and the fade-out animation. An icon is the status it shows plus whether it animates a recovery.
- Buttons, their labels and colours, and every `UpdateButtonState` are not modelled. So are the display-mode toggle of the money manager and its `UpdateUI` text.
- Logging is not modelled, including the system manager's monitoring printout.
- Coroutines, `WaitForSeconds` and frame scheduling are not modelled. Each coroutine iteration is one method call, and the caller decides when the next one happens. Unity runs a coroutine's first iteration inside `StartCoroutine`; where the model starts a coroutine it runs that iteration within the same call, except in the attack named in the next line.
- PowerGeneration.PowerGenerationAttack.ToggleAttack: starting is stated before the first pass of `RandomTurbineManipulation`, which Unity runs inside `StartCoroutine` (PowerGenerationAttack.cs:20). That pass needs random draws, which would have to be threaded through both managers' toggles; the pass itself is `ManipulationCycle`. The same holds for `StartAttack`, and for `TogglePowerGeneration`, `Dispatch` and `ToggleAttack` of both managers when they start this attack.
- Pending Good-icon timers are cancelled by `StopAllCoroutines` in `RestartMonitoring`; in the model a timer's end is a call the caller makes, so it simply is not made.
- `StopCoroutine(RandomTurbineManipulation())` in `CyberAttack.cs` (line 249) passes a fresh enumerator, so the running loop is not stopped by it. The loop checks the flag only after its 3-second wait (lines 343 and 365). If the attack is started again before then, the old loop sees the flag set and carries on. The restart at line 241 starts a second loop, and both then manipulate the turbines. In the model this is only more `MonolithicAttack.CyberAttack.ManipulationCycle` calls, and when they happen is the caller's choice. If the attack stays off, the old loop ends at its next check and changes nothing.
- Randomness is a parameter. The model states only the ranges the draws come from.
- `float` arithmetic is `real`; IEEE rounding is not modelled.
- Batteries.ChargePercentage: requires a non-zero capacity. Where C# would produce an infinity or not-a-number, the model has no such value.
- Batteries.Request: requires a non-zero discharge efficiency, for the same reason. So do `Batteries.Battery.RequestPower`, `Transformers.Transformer.Update` and `Transformers.Transformer.Dispatch`, which call it.
- PowerSystem.PowerSystemManager.HandleBatteryFullScenario: requires a non-zero battery capacity and non-negative consumer demands. These keep its division and its charge percentage finite.
- In the status overlay a zero demand is handled as the C# comparisons behave on infinities and not-a-number: Good for non-negative power and Critical for negative power.
- Unity's null test on destroyed objects is not modelled: a reference is null or it is live.
- The system manager's component references (turbines, wind farm, inverter, transformer, battery, grid, consumers) are set once, at construction. In the game they are public fields wired in the scene, and no script reassigns them.
- `CyberAttack.cs` line 308 sets `visualisationEnabled` on the inverter, which has no such field. The model skips the inverter there; the monitoring-disruption attack does the same. The inverter is not a `PowerComponentBase`.
- MonolithicAttack.CyberAttack.ToggleSafetyOverrideAttack: requires the attack's dictionary entry to exist when there is a manager. C# would throw `KeyNotFoundException` before `Start` has run. The same applies to the monitoring and power-generation toggles and `ManipulationCycle`.
- The attack managers hold their dictionary as one field per concrete attack. Lookup by name is a dispatch on the name, and the flags are exposed as a map from name to `isActive`.
- `Start` in both managers sets `powerVisualiser.cyberAttack` and the buttons. Those are drawing and UI and are not modelled.
- `OnDestroy` of the managers only removes button listeners and is not modelled.
- `Awake` of the status overlay subscribes to consumer events and updates each consumer once. That first update is the same as one `CheckAllConsumersPowerStatus` pass; the event subscription is not modelled.
- In `VisualDisruptionAttack.cs` the colour and sprite snapshots and scrambles are drawing only; only its icon rebuilds are modelled. The monolithic `CyberAttack.cs` instead keeps the three colours it records, scrambles and restores as its own state, and that palette is modelled.
- `IPowerComponent.cs`, `Power_Grid.cs`, the visualiser and the UI scripts are not part of this model.
- No priority ordering of consumers is modelled: the grid rations in proportion to demand.
