/** The inverter (Inverter.cs): a lossless relay from the wind farm to the
    transformer. It is a plain component, not a power node, so it has no
    operational flag and no visualisation switch. */
module Inverters {
  import opened Transformers

  /** The relay rule: with a transformer attached, the output becomes the
      input and is what the transformer receives; without one, nothing. */
  function Relay(input: real, output: real, attached: bool): (r: (real, real))
    ensures attached ==> r.0 == input && r.1 == input
    ensures !attached ==> r.1 == output
  {
    if attached then (input, input) else (input, output)
  }

  /** The input is never cleared, so once the farm stops reporting the same
      value goes to the transformer frame after frame. */
  lemma {:induction false} RelayRepeats(input: real, output: real, frames: nat)
    requires 0 < frames
    ensures Relays(input, output, frames) == input
    decreases frames
  {
    if frames > 1 {
      RelayRepeats(input, Relay(input, output, true).1, frames - 1);
    }
  }

  /** The output after `frames` Updates with a transformer attached and no
      new report from the farm. */
  function Relays(input: real, output: real, frames: nat): real
    decreases frames
  {
    if frames == 0 then output else Relays(input, Relay(input, output, true).1, frames - 1)
  }

  class Inverter {
    var outputTransformer: Transformer?
    var inputPower: real
    var outputPower: real

    constructor (transformer: Transformer?)
      ensures outputTransformer == transformer && inputPower == 0.0 && outputPower == 0.0
    {
      outputTransformer := transformer;
      inputPower := 0.0;
      outputPower := 0.0;
    }

    /** Called by the wind farm. */
    method ReceivePower(power: real)
      modifies this`inputPower
      ensures inputPower == power
    {
      inputPower := power;
    }

    /** The inverter's per-frame Update. */
    method Update()
      modifies this`outputPower
      modifies (if outputTransformer == null then {} else {outputTransformer})`inputPower
      ensures (inputPower, outputPower) == Relay(inputPower, old(outputPower), outputTransformer != null)
      ensures outputTransformer != null ==> outputTransformer.inputPower == inputPower
    {
      if outputTransformer != null {
        outputPower := inputPower;
        outputTransformer.ReceivePower(outputPower);
      }
    }
  }
}
