/** The fields every power node shares (PowerComponentBase.cs). Dafny has no
    class inheritance here, so each node class holds one of these objects as
    its `base` part, and the node's own rules read and write it. */
module ComponentBase {

  class PowerComponentBase {
    var isOperational: bool
    var currentPower: real
    var visualisationEnabled: bool

    /** A fresh node is operational, drawn, and carries no power. */
    constructor ()
      ensures isOperational && visualisationEnabled && currentPower == 0.0
    {
      isOperational := true;
      currentPower := 0.0;
      visualisationEnabled := true;
    }

    function GetCurrentPower(): real
      reads this
    {
      currentPower
    }

    function IsOperational(): bool
      reads this
    {
      isOperational
    }

    /** One pass of UpdateVisualisationRoutine: whether VisualiseConnections
        runs this pass. The drawing itself and the wait are not modelled. */
    method VisualisationPass() returns (visualised: bool)
      ensures visualised <==> visualisationEnabled
    {
      visualised := false;
      if visualisationEnabled {
        visualised := true;
      }
    }
  }
}
