/**
  The flood panel (src/pages/DisasterAlerts.jsx): the latest river discharge measured against a
  fixed threshold becomes a risk percentage and a warning flag, which the page draws as a bar of
  bounded width in one of three colours.
*/
module DisasterAlerts {
  import opened Wrappers
  import opened Fetching

  /** The discharge, in m³/s, at which the risk reaches 100 %. */
  const Threshold: real := 20.0

  /** `{ floodRisk, floodWarning }` as `fetchFloodData` derives them. `None` stands for NaN. */
  datatype Assessment = Assessment(risk: Option<real>, warning: bool)

  /**
    The last discharge reading over the threshold, as a percentage, and whether it reached the
    threshold. An empty series has no last reading: the risk is NaN and no warning is raised.
  */
  function Assess(discharge: seq<real>): (a: Assessment)
    ensures discharge == [] ==> a.risk.None? && !a.warning
    ensures discharge != [] ==>
              var latest := discharge[|discharge| - 1];
              && a.risk.Some?
              && a.risk.value * Threshold / 100.0 == latest
              && (a.warning <==> latest >= Threshold)
  {
    if discharge == [] then Assessment(None, false)
    else
      var latestDischarge := discharge[|discharge| - 1];
      Assessment(Some(latestDischarge / Threshold * 100.0), latestDischarge >= Threshold)
  }

  /** The warning is raised exactly when the risk reaches 100 %. */
  lemma WarningIffFullRisk(discharge: seq<real>)
    ensures Assess(discharge).warning <==> Assess(discharge).risk.Some? && Assess(discharge).risk.value >= 100.0
  {
  }

  /** Only the last reading counts: earlier readings never change the assessment. */
  lemma OnlyLatestCounts(earlier: seq<real>, later: seq<real>, latest: real)
    ensures Assess(earlier + [latest]) == Assess(later + [latest])
  {
  }

  /** A higher latest discharge never lowers the risk. */
  lemma RiskMonotone(a: seq<real>, b: seq<real>)
    requires a != [] && b != [] && a[|a| - 1] <= b[|b| - 1]
    ensures Assess(a).risk.value <= Assess(b).risk.value
  {
  }

  /** `Math.min(floodRisk, 100)`, the bar width in percent; NaN stays NaN. */
  function BarWidth(risk: Option<real>): (width: Option<real>)
    ensures risk.None? <==> width.None?
    ensures risk.Some? ==>
              && width.value <= 100.0 && width.value <= risk.value
              && (width.value == risk.value || width.value == 100.0)
  {
    match risk
    case None => None
    case Some(r) => Some(if r < 100.0 then r else 100.0)
  }

  datatype Colour = Red | Yellow | Green

  /** The bar colour: over 75 % red, over 50 % yellow, otherwise (NaN included) green. */
  function ColourBand(risk: Option<real>): (colour: Colour)
    ensures colour == Red <==> risk.Some? && risk.value > 75.0
    ensures colour == Yellow <==> risk.Some? && 50.0 < risk.value <= 75.0
    ensures colour == Green <==> risk.None? || risk.value <= 50.0
  {
    match risk
    case None => Green
    case Some(r) => if r > 75.0 then Red else if r > 50.0 then Yellow else Green
  }

  /** A raised warning is always drawn as a full red bar. */
  lemma WarningIsRed(discharge: seq<real>)
    requires Assess(discharge).warning
    ensures ColourBand(Assess(discharge).risk) == Red
    ensures BarWidth(Assess(discharge).risk) == Some(100.0)
  {
  }

  /** What the flood API returned: a failed exchange, a status that is not ok, or a body. */
  datatype FloodResponse =
    | FetchFailed(message: string)
    | HttpError(status: nat)
    | Body(riverDischarge: Option<seq<real>>) // `data.daily.river_discharge`, `None` when `daily` or it is missing

  /** The panel state `fetchFloodData` writes. */
  class FloodPanel {
    var floodRisk: Option<real>
    var floodWarning: bool
    var loading: bool
    var error: Option<string>

    constructor ()
      ensures floodRisk == Some(0.0) && !floodWarning && loading && error == None
    {
      floodRisk, floodWarning := Some(0.0), false;
      loading, error := true, None;
    }

    /**
      `fetchFloodData(latitude, longitude)` given the API's `response`: a usable series is
      assessed; every failure reports its message and resets the risk to 0 and the warning.
    */
    method FetchFloodData(response: FloodResponse)
      modifies this
      ensures !loading
      ensures response.Body? && response.riverDischarge.Some? ==>
                var a := Assess(response.riverDischarge.value);
                floodRisk == a.risk && floodWarning == a.warning && error == None
      ensures !(response.Body? && response.riverDischarge.Some?) ==>
                && floodRisk == Some(0.0) && !floodWarning
                && error == Some(match response
                                 case FetchFailed(message) => message
                                 case HttpError(status) => StatusMessage(status)
                                 case Body(_) => FormatMessage)
    {
      loading := true;
      match response {
        case FetchFailed(message) =>
          error, floodRisk, floodWarning := Some(message), Some(0.0), false;
        case HttpError(status) =>
          error, floodRisk, floodWarning := Some(StatusMessage(status)), Some(0.0), false;
        case Body(riverDischarge) =>
          if riverDischarge.None? {
            error, floodRisk, floodWarning := Some(FormatMessage), Some(0.0), false;
          } else {
            var dischargeData := riverDischarge.value;
            var a := Assess(dischargeData);
            floodRisk := a.risk;
            floodWarning := a.warning;
            error := None;
          }
      }
      loading := false;
    }
  }
}
