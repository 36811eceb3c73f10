/**
  The climate charts page (src/pages/Charts.jsx): the conversion between the date forms the user
  types and the provider expects, and the record lists built from a provider's parameter
  objects for the precipitation and soil-wetness charts.
*/
module Charts {
  import opened Wrappers
  import opened Seqs
  import opened Power
  import opened Fetching

  /** The per-character test of `formatDate`'s global replace: everything but '-' is kept. */
  predicate NotHyphen(c: char) {
    c != '-'
  }

  /** `formatDate(date)`: `date` with every '-' removed. */
  function FormatDate(date: string): (basic: string)
    ensures |basic| <= |date|
  {
    Filter(NotHyphen, date)
  }

  /** The result has no '-' and keeps every other character of the input, in its order. */
  lemma FormatDateRemovesHyphens(date: string) returns (idx: seq<int>)
    ensures '-' !in FormatDate(date)
    ensures multiset(FormatDate(date)) == multiset(date)['-' := 0]
    ensures forall c :: c in FormatDate(date) <==> c in date && c != '-'
    ensures Embeds(FormatDate(date), date, idx)
  {
    FilterMembers(NotHyphen, date);
    idx := FilterEmbeds(NotHyphen, date);
    HyphensCounted(date);
  }

  /** Removing the hyphens takes out every '-' and nothing else, counting repeated characters. */
  lemma {:induction false} HyphensCounted(date: string)
    ensures multiset(FormatDate(date)) == multiset(date)['-' := 0]
    decreases |date|
  {
    if date != [] {
      var front, c := date[..|date| - 1], date[|date| - 1];
      assert date == front + [c];
      HyphensCounted(front);
      FormatDateConcat(front, [c]);
      assert FormatDate([c]) == (if c == '-' then [] else [c]) + Filter(NotHyphen, []);
    }
  }

  /** Pieces of a date are converted independently. */
  lemma FormatDateConcat(a: string, b: string)
    ensures FormatDate(a + b) == FormatDate(a) + FormatDate(b)
  {
    FilterConcat(NotHyphen, a, b);
  }

  /** A date without '-' is passed through unchanged. */
  lemma FormatDateKeeps(s: string)
    requires '-' !in s
    ensures FormatDate(s) == s
  {
    FilterKeepsAll(NotHyphen, s);
  }

  /** `s.slice(start, end)` for non-negative bounds: both are clamped to the length. */
  function Slice(s: string, start: nat, end: nat): (r: string)
    ensures end <= |s| && start <= end ==> r == s[start..end]
    ensures |s| <= start ==> r == ""
  {
    var from := if start < |s| then start else |s|;
    var to := if end < |s| then end else |s|;
    if from < to then s[from..to] else ""
  }

  /** `formatXAxis(tickItem)`: '-' put after the fourth and the sixth character. */
  function FormatXAxis(tickItem: string): (formatted: string)
    ensures 6 <= |tickItem| <= 8 ==> formatted == tickItem[..4] + "-" + tickItem[4..6] + "-" + tickItem[6..]
    ensures |tickItem| > 8 ==> formatted == tickItem[..4] + "-" + tickItem[4..6] + "-" + tickItem[6..8]
    ensures 4 <= |tickItem| < 6 ==> formatted == tickItem[..4] + "-" + tickItem[4..] + "-"
    ensures |tickItem| < 4 ==> formatted == tickItem + "--"
    ensures |formatted| == (if |tickItem| < 8 then |tickItem| else 8) + 2
  {
    Slice(tickItem, 0, 4) + "-" + Slice(tickItem, 4, 6) + "-" + Slice(tickItem, 6, 8)
  }

  predicate IsDigit(c: char) {
    '0' <= c <= '9'
  }

  /** The basic form of a complete calendar date, `YYYYMMDD` (ISO 8601, section 4.1.2.2). */
  predicate IsBasicDate(s: string) {
    |s| == 8 && forall i :: 0 <= i < 8 ==> IsDigit(s[i])
  }

  /** The extended form of a complete calendar date, `YYYY-MM-DD` (ISO 8601, section 4.1.2.2). */
  predicate IsExtendedDate(s: string) {
    && |s| == 10 && s[4] == '-' && s[7] == '-'
    && forall i :: 0 <= i < 10 && i != 4 && i != 7 ==> IsDigit(s[i])
  }

  /** Relabelling an eight-character key without '-' and stripping the label again gives the key back. */
  lemma {:induction false} LabelRoundTrip(s: string)
    requires |s| == 8 && '-' !in s
    ensures FormatDate(FormatXAxis(s)) == s
  {
    var a, b, c := s[..4], s[4..6], s[6..];
    assert '-' !in a && '-' !in b && '-' !in c by {
      assert forall x :: x in a || x in b || x in c ==> x in s;
    }
    FormatDateConcat(a + "-" + b + "-", c);
    FormatDateConcat(a + "-" + b, "-");
    FormatDateConcat(a + "-", b);
    FormatDateConcat(a, "-");
    assert FormatDate("-") == "";
    FormatDateKeeps(a);
    FormatDateKeeps(b);
    FormatDateKeeps(c);
    assert a + b + c == s;
  }

  /** Stripping a `YYYY-MM-DD` date and relabelling it gives the date back. */
  lemma {:induction false} DateRoundTrip(d: string)
    requires |d| == 10 && d[4] == '-' && d[7] == '-'
    requires forall i :: 0 <= i < 10 && i != 4 && i != 7 ==> d[i] != '-'
    ensures |FormatDate(d)| == 8
    ensures FormatXAxis(FormatDate(d)) == d
  {
    var a, b, c := d[..4], d[5..7], d[8..];
    assert d == a + "-" + b + "-" + c;
    assert '-' !in a && '-' !in b && '-' !in c;
    FormatDateConcat(a + "-" + b + "-", c);
    FormatDateConcat(a + "-" + b, "-");
    FormatDateConcat(a + "-", b);
    FormatDateConcat(a, "-");
    assert FormatDate("-") == "";
    FormatDateKeeps(a);
    FormatDateKeeps(b);
    FormatDateKeeps(c);
    assert FormatDate(d) == a + b + c;
  }

  /**
    The moisture charts use the same formatter on the monthly provider's `YYYYMM` keys: the label
    keeps the year and the month and ends in a stray '-'.
  */
  lemma MonthlyLabelAsWritten(key: string)
    requires |key| == 6
    ensures FormatXAxis(key) == key[..4] + "-" + key[4..] + "-"
    ensures FormatXAxis(key)[|FormatXAxis(key)| - 1] == '-'
  {
    assert Slice(key, 6, 8) == "";
  }

  /** The monthly key 202001 is labelled "2020-01-". */
  lemma MonthlyLabelExample()
    ensures FormatXAxis("202001") == "2020-01-"
  {
    MonthlyLabelAsWritten("202001");
  }

  /** An axis label for both kinds of key: `YYYY-MM` for a monthly key, as `FormatXAxis` otherwise. */
  function FormatAxisLabel(tickItem: string): (shown: string)
    ensures |tickItem| == 6 ==> |shown| == 7 && shown[4] == '-'
    ensures |tickItem| != 6 ==> shown == FormatXAxis(tickItem)
  {
    if |tickItem| == 6 then Slice(tickItem, 0, 4) + "-" + Slice(tickItem, 4, 6) else FormatXAxis(tickItem)
  }

  /**
    A monthly or daily key without '-' is labelled without a trailing '-', and stripping the label
    gives the key back.
  */
  lemma {:induction false} AxisLabelRoundTrip(key: string)
    requires (|key| == 6 || |key| == 8) && '-' !in key
    ensures FormatDate(FormatAxisLabel(key)) == key
    ensures FormatAxisLabel(key)[|FormatAxisLabel(key)| - 1] != '-'
  {
    if |key| == 8 {
      LabelRoundTrip(key);
      assert FormatAxisLabel(key)[9] == key[7];
      assert key[7] in key;
    } else {
      var a, b := key[..4], key[4..];
      assert '-' !in a && '-' !in b by {
        assert forall x :: x in a || x in b ==> x in key;
      }
      assert FormatAxisLabel(key) == (a + "-") + b;
      FormatDateConcat(a + "-", b);
      FormatDateConcat(a, "-");
      assert FormatDate("-") == "";
      FormatDateKeeps(a);
      FormatDateKeeps(b);
      assert a + b == key;
      assert FormatAxisLabel(key)[6] == key[5];
      assert key[5] in key;
    }
  }

  /** The two functions convert between the basic and the extended form of a calendar date. */
  lemma CalendarDateForms(basic: string, extended: string)
    ensures IsBasicDate(basic) ==> IsExtendedDate(FormatXAxis(basic)) && FormatDate(FormatXAxis(basic)) == basic
    ensures IsExtendedDate(extended) ==> IsBasicDate(FormatDate(extended)) && FormatXAxis(FormatDate(extended)) == extended
  {
    if IsBasicDate(basic) {
      assert forall i :: 0 <= i < 8 ==> basic[i] != '-';
      LabelRoundTrip(basic);
      var relabelled := FormatXAxis(basic);
      assert forall i :: 0 <= i < 4 ==> relabelled[i] == basic[i];
      assert forall i :: 5 <= i < 7 ==> relabelled[i] == basic[i - 1];
      assert forall i :: 8 <= i < 10 ==> relabelled[i] == basic[i - 2];
    }
    if IsExtendedDate(extended) {
      DateRoundTrip(extended);
      var stripped := FormatDate(extended);
      var relabelled := FormatXAxis(stripped);
      assert forall i :: 0 <= i < 4 ==> stripped[i] == extended[i];
      assert forall i :: 4 <= i < 6 ==> stripped[i] == extended[i + 1];
      assert forall i :: 6 <= i < 8 ==> stripped[i] == extended[i + 2];
    }
  }

  /** `{ date, precipitation }`; the value is `precipitationData[date]`, `None` if undefined. */
  datatype PrecipitationRecord = PrecipitationRecord(date: string, precipitation: Option<real>)

  /** `{ date, GWETROOT, GWETPROF }`, each value read at `date`. */
  datatype MoistureRecord = MoistureRecord(date: string, gwetroot: Option<real>, gwetprof: Option<real>)

  /** The precipitation chart records: one per key of the PRECTOTCORR object, with the value stored under it. */
  function PrecipitationRecords(data: Series): (records: seq<PrecipitationRecord>)
    ensures |records| == |data|
    ensures forall i :: 0 <= i < |data| ==>
              records[i].date == data[i].key && records[i].precipitation.Some?
  {
    var keys := Keys(data);
    seq(|keys|, i requires 0 <= i < |keys| => PrecipitationRecord(keys[i], Lookup(data, keys[i])))
  }

  /** One record per entry, in key order, carrying that entry's own value. */
  lemma PrecipitationRecordsFaithful(data: Series)
    requires DistinctKeys(data)
    ensures forall i :: 0 <= i < |data| ==>
              PrecipitationRecords(data)[i] == PrecipitationRecord(data[i].key, Some(data[i].value))
  {
    forall i | 0 <= i < |data| ensures Lookup(data, data[i].key) == Some(data[i].value) {
      LookupEntry(data, i);
    }
  }

  /**
    The soil-wetness chart records: the records follow the root-zone dates, and the profile value is whatever GWETPROF holds at
    the same date.
  */
  function MoistureRecords(root: Series, profile: Series): (records: seq<MoistureRecord>)
    ensures |records| == |root|
    ensures forall i :: 0 <= i < |root| ==>
              && records[i].date == root[i].key
              && records[i].gwetroot.Some?
              && (records[i].gwetprof.None? <==> root[i].key !in Keys(profile))
  {
    var keys := Keys(root);
    seq(|keys|, i requires 0 <= i < |keys| => MoistureRecord(keys[i], Lookup(root, keys[i]), Lookup(profile, keys[i])))
  }

  /** When both parameters list the same dates, every record pairs the two readings of its date. */
  lemma MoistureRecordsAligned(root: Series, profile: Series)
    requires DistinctKeys(root) && DistinctKeys(profile)
    requires Keys(root) == Keys(profile)
    ensures forall i :: 0 <= i < |root| ==>
              MoistureRecords(root, profile)[i] == MoistureRecord(root[i].key, Some(root[i].value), Some(profile[i].value))
  {
    forall i | 0 <= i < |root|
      ensures Lookup(root, root[i].key) == Some(root[i].value)
      ensures Lookup(profile, root[i].key) == Some(profile[i].value)
    {
      LookupEntry(root, i);
      assert Keys(root)[i] == Keys(profile)[i];
      LookupEntry(profile, i);
    }
  }

  /**
    Whatever dates the two parameters list, and in whatever order: each record carries its date's
    root-zone reading, and its date's profile reading wherever GWETPROF has that date.
  */
  lemma MoistureRecordValues(root: Series, profile: Series, i: nat, j: int)
    requires DistinctKeys(root) && DistinctKeys(profile) && i < |root|
    ensures MoistureRecords(root, profile)[i].gwetroot == Some(root[i].value)
    ensures 0 <= j < |profile| && profile[j].key == root[i].key ==>
              MoistureRecords(root, profile)[i].gwetprof == Some(profile[j].value)
  {
    LookupEntry(root, i);
    if 0 <= j < |profile| && profile[j].key == root[i].key {
      LookupEntry(profile, j);
    }
  }

  const LocationMessage := "Location not available"

  /**
    Reading a property of `undefined` throws a TypeError, whose text comes from the JavaScript
    engine; this constant stands for it.
  */
  const TypeErrorMessage := "TypeError"

  /** The error the page shows when the device's position cannot be read. */
  const PositionMessage := "Failed to get current location"

  /** The chart page state the two fetches write. */
  class ChartsPage {
    var latitude: Option<real>
    var longitude: Option<real>
    var chartData: seq<PrecipitationRecord>
    var moistureData: seq<MoistureRecord>
    var error: Option<string>

    constructor ()
      ensures latitude == None && longitude == None
      ensures chartData == [] && moistureData == [] && error == None
    {
      latitude, longitude := None, None;
      chartData, moistureData, error := [], [], None;
    }

    /**
      The geolocation effect's success callback: the device's position becomes the page's
      coordinates; the charts and the error are untouched.
    */
    method SetPosition(lat: real, lon: real)
      modifies this
      ensures latitude == Some(lat) && longitude == Some(lon)
      ensures chartData == old(chartData) && moistureData == old(moistureData) && error == old(error)
    {
      latitude, longitude := Some(lat), Some(lon);
    }

    /** The geolocation effect's error callback: the page reports that no position is available. */
    method PositionUnavailable()
      modifies this
      ensures error == Some(PositionMessage)
      ensures latitude == old(latitude) && longitude == old(longitude)
      ensures chartData == old(chartData) && moistureData == old(moistureData)
    {
      error := Some(PositionMessage);
    }

    /**
      `fetchPrecipitationData(start, end)` given the provider's `response`: without a position
      nothing is fetched; a usable PRECTOTCORR object becomes the chart records; any failure
      reports its message and empties the chart.
    */
    method FetchPrecipitationData(response: Response)
      modifies this
      ensures latitude == old(latitude) && longitude == old(longitude) && moistureData == old(moistureData)
      ensures old(latitude).None? || old(longitude).None? ==>
                error == Some(LocationMessage) && chartData == old(chartData)
      ensures old(latitude).Some? && old(longitude).Some? ==>
                match response
                case FetchFailed(message) => error == Some(message) && chartData == []
                case HttpError(status) => error == Some(StatusMessage(status)) && chartData == []
                case Body(parameter) =>
                  if parameter.None? || parameter.value.prectotcorr.None? then
                    error == Some(FormatMessage) && chartData == []
                  else
                    error == None && chartData == PrecipitationRecords(parameter.value.prectotcorr.value)
    {
      if latitude.None? || longitude.None? {
        error := Some(LocationMessage);
        return;
      }
      match response {
        case FetchFailed(message) =>
          error, chartData := Some(message), [];
        case HttpError(status) =>
          error, chartData := Some(StatusMessage(status)), [];
        case Body(parameter) =>
          if parameter.None? || parameter.value.prectotcorr.None? {
            error, chartData := Some(FormatMessage), [];
          } else {
            chartData := PrecipitationRecords(parameter.value.prectotcorr.value);
            error := None;
          }
      }
    }

    /**
      `fetchMoistureData(start, end)` given the provider's `response`. There is no check on the
      two parameters themselves: without GWETROOT, or without GWETPROF while GWETROOT has
      dates, building the records throws a TypeError, which is reported like any other error.
    */
    method FetchMoistureData(response: Response)
      modifies this
      ensures latitude == old(latitude) && longitude == old(longitude) && chartData == old(chartData)
      ensures old(latitude).None? || old(longitude).None? ==>
                error == Some(LocationMessage) && moistureData == old(moistureData)
      ensures old(latitude).Some? && old(longitude).Some? ==>
                match response
                case FetchFailed(message) => error == Some(message) && moistureData == []
                case HttpError(status) => error == Some(StatusMessage(status)) && moistureData == []
                case Body(parameter) =>
                  if parameter.None? then
                    error == Some(FormatMessage) && moistureData == []
                  else if parameter.value.gwetroot.None?
                          || (parameter.value.gwetroot.value != [] && parameter.value.gwetprof.None?) then
                    error == Some(TypeErrorMessage) && moistureData == []
                  else
                    && error == None
                    && moistureData == MoistureRecords(parameter.value.gwetroot.value, parameter.value.gwetprof.GetOr([]))
    {
      if latitude.None? || longitude.None? {
        error := Some(LocationMessage);
        return;
      }
      match response {
        case FetchFailed(message) =>
          error, moistureData := Some(message), [];
        case HttpError(status) =>
          error, moistureData := Some(StatusMessage(status)), [];
        case Body(parameter) =>
          if parameter.None? {
            error, moistureData := Some(FormatMessage), [];
          } else if parameter.value.gwetroot.None? {
            error, moistureData := Some(TypeErrorMessage), [];
          } else if parameter.value.gwetroot.value != [] && parameter.value.gwetprof.None? {
            error, moistureData := Some(TypeErrorMessage), [];
          } else {
            moistureData := MoistureRecords(parameter.value.gwetroot.value, parameter.value.gwetprof.GetOr([]));
            error := None;
          }
      }
    }
  }
}
