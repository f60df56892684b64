/** ElectricalComponent.cs: an abstract helper no node uses. Power that
    arrives becomes available output; a request takes what it can from that
    output. Storage hooks default to storing and releasing nothing. */
module ElectricalComponents {
  import opened Numeric

  /** What ProvidePower hands out, and the output left behind. */
  function Provide(requested: real, output: real): (r: (real, real))
    ensures r.0 <= requested && r.0 <= output
    ensures r.0 == requested || r.0 == output
    ensures r.0 + r.1 == output
  {
    (Min(requested, output), output - Min(requested, output))
  }

  /** Non-negative requests never drive the output below zero, and nothing
      is created: what is provided plus what remains is what there was. */
  lemma ProvideKeepsOutputNonNegative(requested: real, output: real)
    requires 0.0 <= requested && 0.0 <= output
    ensures 0.0 <= Provide(requested, output).0
    ensures 0.0 <= Provide(requested, output).1 <= output
  {
  }

  /** Two requests in a row never hand out more than the output held. */
  lemma SuccessiveRequestsBounded(first: real, second: real, output: real)
    requires 0.0 <= first && 0.0 <= second && 0.0 <= output
    ensures Provide(first, output).0 + Provide(second, Provide(first, output).1).0 <= output
  {
  }

  class ElectricalComponent {
    var inputPower: real
    var outputPower: real

    constructor ()
      ensures inputPower == 0.0 && outputPower == 0.0
    {
      inputPower := 0.0;
      outputPower := 0.0;
    }

    method ReceivePower(power: real)
      modifies this`inputPower, this`outputPower
      ensures inputPower == power && outputPower == power
    {
      inputPower := power;
      SetOutputPower(power);
    }

    method ProvidePower(requestedPower: real) returns (providedPower: real)
      modifies this`outputPower
      ensures (providedPower, outputPower) == Provide(requestedPower, old(outputPower))
    {
      providedPower := Min(requestedPower, outputPower);
      outputPower := outputPower - providedPower;
    }

    /** The default storage hooks: nothing is stored, nothing released. */
    method Charge(power: real) returns (stored: real)
      ensures stored == 0.0
    {
      stored := 0.0;
    }

    method Discharge(requestedPower: real) returns (released: real)
      ensures released == 0.0
    {
      released := 0.0;
    }

    method SetOutputPower(power: real)
      modifies this`outputPower
      ensures outputPower == power
    {
      outputPower := power;
    }
  }
}
