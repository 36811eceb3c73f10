/**
  The irrigation advisor (src/pages/Irrigation.jsx): the weekly water balance computed from the
  mean daily precipitation of the last week, its three-way status, the valid-reading average the
  balance is fed with, and the rain and soil messages the page derives from the same numbers.
*/
module Irrigation {
  import opened Wrappers
  import opened Seqs
  import opened Power
  import opened Fetching
  import Location

  /** Water a typical crop needs per day, in mm. */
  const OptimalWaterPerDay: real := 6.0
  /** Days in the window the page looks back over. */
  const DaysPerWeek: real := 7.0
  /** The weekly need: 42 mm. */
  const WeeklyOptimal: real := OptimalWaterPerDay * DaysPerWeek

  datatype Status = Increase | Decrease | Maintain

  /** `{ recommended, status, deficit }`, before `toFixed(1)` turns the amounts into text. */
  datatype Advice = Advice(recommended: real, status: Status, deficit: real)

  /**
    `calculateIrrigationNeeds(precipitation)`: the deficit is the weekly need minus a week of the
    given daily rain; only a positive deficit is recommended as extra water, and the status says
    whether to water more (a deficit), less (a surplus of more than 2 mm) or as before.
  */
  function CalculateIrrigationNeeds(precipitation: real): (advice: Advice)
    ensures advice.deficit == 42.0 - 7.0 * precipitation
    ensures advice.recommended >= 0.0 && advice.recommended >= advice.deficit
    ensures advice.recommended == 0.0 || advice.recommended == advice.deficit
    ensures precipitation >= OptimalWaterPerDay ==> advice.recommended == 0.0
    ensures advice.status == Increase <==> advice.deficit > 0.0
    ensures advice.status == Decrease <==> advice.deficit < -2.0
    ensures advice.status == Maintain <==> -2.0 <= advice.deficit <= 0.0
  {
    var actualWater := precipitation * DaysPerWeek;
    var waterDifference := WeeklyOptimal - actualWater;
    Advice(
      if waterDifference > 0.0 then waterDifference else 0.0,
      if waterDifference > 0.0 then Increase else if waterDifference < -2.0 then Decrease else Maintain,
      waterDifference)
  }

  /** The status read directly off the daily precipitation: below 6 mm water more, above 44/7 mm less. */
  lemma StatusByPrecipitation(precipitation: real)
    ensures CalculateIrrigationNeeds(precipitation).status == Increase <==> precipitation < 6.0
    ensures CalculateIrrigationNeeds(precipitation).status == Decrease <==> precipitation > 44.0 / 7.0
    ensures CalculateIrrigationNeeds(precipitation).status == Maintain <==> 6.0 <= precipitation <= 44.0 / 7.0
  {
  }

  /** More rain never asks for more water. */
  lemma RecommendedAntitone(p: real, q: real)
    requires p <= q
    ensures CalculateIrrigationNeeds(q).recommended <= CalculateIrrigationNeeds(p).recommended
  {
  }

  /** The test `fetchData` filters the readings with: not negative, which drops the provider's -999 fill. */
  predicate NonNegative(value: real) {
    value >= 0.0
  }

  /** The readings `fetchData` keeps. */
  function ValidReadings(values: seq<real>): seq<real> {
    Filter(NonNegative, values)
  }

  /**
    The mean of the valid readings, their sum over their count. Without a valid reading that is 0 / 0,
    which is NaN in JavaScript; that is `None` here.
  */
  function AveragePrecipitation(values: seq<real>): (average: Option<real>)
    ensures average.None? <==> forall i :: 0 <= i < |values| ==> values[i] < 0.0
    ensures average.Some? ==>
              var valid := ValidReadings(values);
              valid != [] && Min(valid) <= average.value <= Max(valid) && average.value >= 0.0
  {
    var valid := ValidReadings(values);
    FilterMembers(NonNegative, values);
    if valid == [] then
      assert forall i :: 0 <= i < |values| ==> values[i] in values;
      None
    else
      assert values[0] in values;
      assert Min(valid) in valid;
      MeanBounds(valid, Min(valid), Max(valid));
      Some(Mean(valid))
  }

  /** A reading below zero is ignored: adding one changes nothing. */
  lemma {:induction false} NegativeReadingIgnored(values: seq<real>, v: real)
    requires v < 0.0
    ensures AveragePrecipitation(values + [v]) == AveragePrecipitation(values)
  {
    FilterConcat(NonNegative, values, [v]);
    assert Filter(NonNegative, [v]) == [];
    assert ValidReadings(values + [v]) == ValidReadings(values) + [];
    assert ValidReadings(values + [v]) == ValidReadings(values);
  }

  /** The weekly rain message. */
  datatype RainMessage = HeavyRain | GoodRain | LowRain

  /** The "Recent Rain" line: over 35 mm in the week is heavy, over 15 mm good, anything else low. */
  function RainBand(averagePrecipitation: real): (band: RainMessage)
    ensures band == HeavyRain <==> averagePrecipitation * 7.0 > 35.0
    ensures band == GoodRain <==> 15.0 < averagePrecipitation * 7.0 <= 35.0
    ensures band == LowRain <==> averagePrecipitation * 7.0 <= 15.0
  {
    var weekly := averagePrecipitation * DaysPerWeek;
    if weekly > 35.0 then HeavyRain else if weekly > 15.0 then GoodRain else LowRain
  }

  /** The soil message. */
  datatype SoilMessage = Dry | Wet | Perfect

  /** The "Soil Condition" line: a deficit over 2 mm is dry, a surplus over 2 mm wet. */
  function SoilBand(deficit: real): (band: SoilMessage)
    ensures band == Dry <==> deficit > 2.0
    ensures band == Wet <==> deficit < -2.0
    ensures band == Perfect <==> -2.0 <= deficit <= 2.0
  {
    if deficit > 2.0 then Dry else if deficit < -2.0 then Wet else Perfect
  }

  /**
    `x.toFixed(1)` read back as a number, which is what the soil card compares: the magnitude is
    rounded to the nearest tenth, a half going up, and the sign is kept.
  */
  function ToFixed1(x: real): (r: real)
    ensures x - 0.05 <= r <= x + 0.05
    ensures (r * 10.0).Floor as real == r * 10.0
    ensures x >= 0.0 ==> r >= 0.0
    ensures x <= 0.0 ==> r <= 0.0
  {
    var n := if x >= 0.0 then NearestTenths(x) else -NearestTenths(-x);
    assert (n as real / 10.0) * 10.0 == n as real;
    n as real / 10.0
  }

  /** The number of tenths nearest to `m`, a half going up. */
  function NearestTenths(m: real): (n: int)
    requires m >= 0.0
    ensures n >= 0
    ensures m * 10.0 - 0.5 < n as real <= m * 10.0 + 0.5
  {
    (m * 10.0 + 0.5).Floor
  }

  /** The "Soil Condition" card: the advice's deficit as `toFixed(1)` left it, put in its band. */
  function SoilCard(advice: Advice): SoilMessage {
    SoilBand(ToFixed1(advice.deficit))
  }

  /** Because of the rounding, the card is wet from a surplus of 2.05 mm on and dry from a deficit of 2.05 mm on. */
  lemma SoilCardThresholds(advice: Advice)
    ensures SoilCard(advice) == Wet <==> advice.deficit <= -2.05
    ensures SoilCard(advice) == Dry <==> advice.deficit >= 2.05
    ensures SoilCard(advice) == Perfect <==> -2.05 < advice.deficit < 2.05
  {
    var d := advice.deficit;
    if d >= 0.0 {
      var n := (d * 10.0 + 0.5).Floor;
      assert n >= 21 <==> d * 10.0 + 0.5 >= 21.0;
    } else {
      var n := (-d * 10.0 + 0.5).Floor;
      assert n >= 21 <==> -d * 10.0 + 0.5 >= 21.0;
    }
  }

  /**
    The two cards agree: a wet soil card comes only with the advice to water less, and with it as
    soon as the surplus reaches 2.05 mm; a dry card always comes with more water, and a low-rain
    week always asks for more water. A heavy-rain week recommends less than 7 mm, shown as at
    most "7.0".
  */
  lemma MessagesAgreeWithStatus(precipitation: real)
    ensures var advice := CalculateIrrigationNeeds(precipitation);
            && (SoilCard(advice) == Wet <==> advice.status == Decrease && advice.deficit <= -2.05)
            && (SoilCard(advice) == Dry ==> advice.status == Increase)
            && (RainBand(precipitation) == LowRain ==> advice.status == Increase)
            && (RainBand(precipitation) == HeavyRain ==> advice.recommended < 7.0 && ToFixed1(advice.recommended) <= 7.0)
  {
    var advice := CalculateIrrigationNeeds(precipitation);
    SoilCardThresholds(advice);
  }

  /**
    Between a surplus of 2 mm and one of 2.05 mm the advice is to water less while the soil card,
    reading the rounded "-2.0", says the moisture is perfect: a daily rain of 6.29 mm is one such case.
  */
  lemma SurplusRoundedToPerfect()
    ensures CalculateIrrigationNeeds(6.29).status == Decrease
    ensures CalculateIrrigationNeeds(6.29).deficit == -2.03
    ensures SoilCard(CalculateIrrigationNeeds(6.29)) == Perfect
  {
    SoilCardThresholds(CalculateIrrigationNeeds(6.29));
  }

  const LocationMessage := "Location not available"

  /** The state `fetchData` writes. */
  class IrrigationPage {
    var averagePrecipitation: Option<real>
    var irrigationRecommendation: Option<Advice>
    var loading: bool
    var error: Option<string>

    constructor ()
      ensures averagePrecipitation == None && irrigationRecommendation == None
      ensures loading && error == None
    {
      averagePrecipitation, irrigationRecommendation := None, None;
      loading, error := true, None;
    }

    /**
      `fetchData(latitude, longitude)` given the provider's `response`: without a coordinate the
      page reports it; a failed exchange, a status that is not ok or a body without
      `PRECTOTCORR` becomes the error text; otherwise the average and its advice are shown.
    */
    method FetchData(latitude: Option<real>, longitude: Option<real>, response: Response)
      modifies this
      ensures !loading
      ensures Location.CoordinatesMissing(latitude, longitude) ==>
                && error == Some(LocationMessage)
                && averagePrecipitation == old(averagePrecipitation)
                && irrigationRecommendation == old(irrigationRecommendation)
      ensures !Location.CoordinatesMissing(latitude, longitude) ==>
                match response
                case FetchFailed(message) =>
                  && error == Some(message)
                  && averagePrecipitation == old(averagePrecipitation)
                  && irrigationRecommendation == old(irrigationRecommendation)
                case HttpError(status) =>
                  && error == Some(StatusMessage(status))
                  && averagePrecipitation == old(averagePrecipitation)
                  && irrigationRecommendation == old(irrigationRecommendation)
                case Body(parameter) =>
                  if parameter.None? || parameter.value.prectotcorr.None? then
                    && error == Some(FormatMessage)
                    && averagePrecipitation == old(averagePrecipitation)
                    && irrigationRecommendation == old(irrigationRecommendation)
                  else
                    var average := AveragePrecipitation(Values(parameter.value.prectotcorr.value));
                    && error == None
                    && averagePrecipitation == average
                    && (average.Some? ==> irrigationRecommendation == Some(CalculateIrrigationNeeds(average.value)))
                    && (average.None? ==> irrigationRecommendation == None)
    {
      if Location.CoordinatesMissing(latitude, longitude) {
        error := Some(LocationMessage);
        loading := false;
        return;
      }
      match response {
        case FetchFailed(message) =>
          error := Some(message);
        case HttpError(status) =>
          error := Some(StatusMessage(status));
        case Body(parameter) =>
          if parameter.None? || parameter.value.prectotcorr.None? {
            error := Some(FormatMessage);
          } else {
            var average := AveragePrecipitation(Values(parameter.value.prectotcorr.value));
            averagePrecipitation := average;
            if average.Some? {
              irrigationRecommendation := Some(CalculateIrrigationNeeds(average.value));
            } else {
              irrigationRecommendation := None;
            }
            error := None;
          }
      }
      loading := false;
    }
  }
}
