/** The metrics that record how a request ended. */
module Observe {

  class Metrics {
    var results: seq<bool>
    var backendErrors: seq<string>
    var saturated: nat

    constructor ()
      ensures results == [] && backendErrors == [] && saturated == 0
    {
      results, backendErrors, saturated := [], [], 0;
    }
  }
}
