/**
  The climate-driven crop recommendation page (src/pages/CropSuggestion.jsx): a fixed catalog of
  crop profiles, the reduction of NASA POWER monthly readings for 2020-2022 to one climate
  summary, and the filter that keeps the crops whose ranges contain that summary.
*/
module CropSuggestion {
  import opened Wrappers
  import opened Seqs
  import opened Power
  import Location

  /** One `cropDatabase` entry; `name` is its key. */
  datatype CropProfile = CropProfile(
    name: string,
    minTemp: real, maxTemp: real,
    minRain: real, maxRain: real,
    description: string, season: string, tips: string)

  const Rice := CropProfile("rice", 20.0, 35.0, 1200.0, 2400.0,
    "Staple grain crop, needs consistent water", "Kharif", "Plant in standing water, maintain water level")
  const Wheat := CropProfile("wheat", 15.0, 25.0, 480.0, 1200.0,
    "Winter cereal crop, moderate water needs", "Rabi", "Sow seeds 2-3 cm deep, needs well-drained soil")
  const Cotton := CropProfile("cotton", 20.0, 30.0, 500.0, 1000.0,
    "Fiber crop, needs warm climate", "Kharif", "Plant in full sun, avoid waterlogging")
  const Maize := CropProfile("maize", 18.0, 32.0, 500.0, 1000.0,
    "Grain crop, needs well-drained soil", "Kharif", "Plant in blocks for pollination, water regularly")
  const Sugarcane := CropProfile("sugarcane", 20.0, 35.0, 750.0, 2000.0,
    "Tropical crop, high water needs", "Kharif", "Plant in rows, needs rich soil")
  const Potato := CropProfile("potato", 10.0, 25.0, 400.0, 800.0,
    "Root crop, grows in cool weather", "Rabi", "Plant in trenches, hill up soil around plants")
  const Tomato := CropProfile("tomato", 15.0, 30.0, 500.0, 1000.0,
    "Warm-season crop, needs full sun", "Kharif", "Stake plants, water at base to avoid leaf diseases")
  const Chilli := CropProfile("chilli", 20.0, 30.0, 500.0, 1000.0,
    "Spice crop, grows in hot climate", "Kharif", "Mulch soil, avoid overwatering")
  const Onion := CropProfile("onion", 10.0, 25.0, 400.0, 800.0,
    "Bulb crop, grows in cool weather", "Rabi", "Plant in rows, water moderately")
  const Banana := CropProfile("banana", 20.0, 35.0, 1000.0, 2000.0,
    "Tropical fruit crop, high water needs", "Kharif", "Plant in rich soil, water regularly")
  const Mango := CropProfile("mango", 20.0, 35.0, 1000.0, 2000.0,
    "Tropical fruit crop, high water needs", "Kharif", "Prune trees, water deeply but infrequently")
  const Coconut := CropProfile("coconut", 20.0, 35.0, 1500.0, 3000.0,
    "Tropical fruit crop, high water needs", "Kharif", "Plant in sandy soil, water regularly")
  const Tea := CropProfile("tea", 15.0, 30.0, 1500.0, 3000.0,
    "Beverage crop, needs humid climate", "Kharif", "Plant in shade, water regularly")
  const Coffee := CropProfile("coffee", 15.0, 30.0, 1500.0, 3000.0,
    "Beverage crop, needs humid climate", "Kharif", "Plant in shade, water regularly")
  const Rubber := CropProfile("rubber", 20.0, 35.0, 1500.0, 3000.0,
    "Latex crop, high water needs", "Kharif", "Plant in well-drained soil, water regularly")
  const Jute := CropProfile("jute", 20.0, 35.0, 1500.0, 3000.0,
    "Fiber crop, grows in hot climate", "Kharif", "Plant in rows, water regularly")
  const Silk := CropProfile("silk", 20.0, 35.0, 1500.0, 3000.0,
    "Fiber crop, high water needs", "Kharif", "Plant in rows, water regularly")
  const Sunflower := CropProfile("sunflower", 20.0, 35.0, 500.0, 1000.0,
    "Oilseed crop, grows in hot climate", "Kharif", "Plant in full sun, water regularly")

  /** `Object.entries(cropDatabase)`, in insertion order. */
  function Catalog(): (catalog: seq<CropProfile>)
    ensures |catalog| == 18
    ensures forall i :: 0 <= i < |catalog| ==> catalog[i].minTemp <= catalog[i].maxTemp && catalog[i].minRain <= catalog[i].maxRain
  {
    [Rice, Wheat, Cotton, Maize, Sugarcane, Potato, Tomato, Chilli, Onion,
     Banana, Mango, Coconut, Tea, Coffee, Rubber, Jute, Silk, Sunflower]
  }

  /** The catalog is keyed by crop name, so no name occurs twice. */
  lemma CatalogNamesDistinct(catalog: seq<CropProfile>)
    requires catalog == Catalog()
    ensures forall i, j :: 0 <= i < j < |catalog| ==> catalog[i].name != catalog[j].name
    ensures Distinct(catalog)
  {
  }

  /** The three scalars the page derives from the provider: °C, mm per month, a fraction in [0, 1]. */
  datatype Summary = Summary(avgTemp: real, totalRain: real, soilMoisture: real)

  /** Monthly-equivalent rainfall is scaled by 12 to compare with a crop's yearly range. */
  const RainScale: real := 12.0
  /** The crop-independent minimum soil moisture. */
  const MinSoilMoisture: real := 0.2
  /** The page never measures temperature; it assumes this value. */
  const AssumedTemp: real := 25.0
  /** The summary substituted when the provider call fails. */
  const Fallback := Summary(25.0, 100.0, 0.5)

  /** The `filter` callback of `generateRecommendations`. */
  predicate Suitable(data: Summary, crop: CropProfile) {
    var yearlyRainfall := data.totalRain * RainScale;
    && data.avgTemp >= crop.minTemp
    && data.avgTemp <= crop.maxTemp
    && yearlyRainfall >= crop.minRain
    && yearlyRainfall <= crop.maxRain
    && data.soilMoisture >= MinSoilMoisture
  }

  /**
    The filter of `generateRecommendations`: no summary gives no crops; otherwise a crop is kept exactly when the
    assumed temperature and the twelvefold rainfall lie in its closed ranges and the soil is moist
    enough.
  */
  function Recommend(data: Option<Summary>, catalog: seq<CropProfile>): (suitable: seq<CropProfile>)
    ensures data.None? ==> suitable == []
    ensures data.Some? && data.value.soilMoisture < 0.2 ==> suitable == []
    ensures forall c :: c in suitable ==>
              && c in catalog && data.Some?
              && c.minTemp <= data.value.avgTemp <= c.maxTemp
              && c.minRain <= data.value.totalRain * 12.0 <= c.maxRain
              && data.value.soilMoisture >= 0.2
    ensures forall c :: c in catalog && data.Some?
              && c.minTemp <= data.value.avgTemp <= c.maxTemp
              && c.minRain <= data.value.totalRain * 12.0 <= c.maxRain
              && data.value.soilMoisture >= 0.2
              ==> c in suitable
  {
    match data
    case None => []
    case Some(d) =>
      FilterMembers(SuitableFor(d), catalog);
      Filter(SuitableFor(d), catalog)
  }

  /** `Suitable` as the callback value handed to `filter`. */
  function SuitableFor(data: Summary): CropProfile -> bool {
    c => Suitable(data, c)
  }

  /**
    The recommendations are catalog entries in catalog order, each at most once: they embed into
    the catalog at strictly increasing positions.
  */
  lemma RecommendationsFollowCatalog(data: Option<Summary>, catalog: seq<CropProfile>) returns (idx: seq<int>)
    ensures Embeds(Recommend(data, catalog), catalog, idx)
    ensures Distinct(catalog) ==> Distinct(Recommend(data, catalog))
  {
    match data
    case None =>
      idx := [];
    case Some(d) =>
      idx := FilterEmbeds(SuitableFor(d), catalog);
      if Distinct(catalog) {
        SubsequenceDistinct(Recommend(data, catalog), catalog, idx);
      }
  }

  /**
    With the fallback summary the yearly rainfall is exactly 1200 mm, the upper end of wheat and
    the lower end of rice, and both are recommended.
  */
  lemma FallbackRecommendations(catalog: seq<CropProfile>)
    requires catalog == Catalog()
    ensures Recommend(Some(Fallback), catalog) == [Rice, Wheat, Sugarcane, Banana, Mango]
  {
    FallbackFilter(catalog);
  }

  /**
    Proof step of `FallbackRecommendations`, not a separate result: the filter evaluated on the
    catalog in three slices of six crops.
  */
  lemma FallbackFilter(catalog: seq<CropProfile>)
    requires catalog == Catalog()
    ensures Filter(SuitableFor(Fallback), catalog) == [Rice, Wheat, Sugarcane, Banana, Mango]
  {
    var p := SuitableFor(Fallback);
    var head := [Rice, Wheat, Cotton, Maize, Sugarcane, Potato];
    var mid := [Tomato, Chilli, Onion, Banana, Mango, Coconut];
    var tail := [Tea, Coffee, Rubber, Jute, Silk, Sunflower];
    FallbackHead(p, head);
    FallbackMid(p, mid);
    FallbackTail(p, tail);
    CatalogSlices(catalog, head, mid, tail);
    FallbackParts(p, head, mid, tail);
  }

  lemma CatalogSlices(catalog: seq<CropProfile>, head: seq<CropProfile>, mid: seq<CropProfile>, tail: seq<CropProfile>)
    requires catalog == Catalog()
    requires head == [Rice, Wheat, Cotton, Maize, Sugarcane, Potato]
    requires mid == [Tomato, Chilli, Onion, Banana, Mango, Coconut]
    requires tail == [Tea, Coffee, Rubber, Jute, Silk, Sunflower]
    ensures catalog == head + (mid + tail)
  {
    assert |catalog| == |head + (mid + tail)| == 18;
    forall i | 0 <= i < 18 ensures catalog[i] == (head + (mid + tail))[i] {
    }
  }

  /** Proof step of `FallbackRecommendations`: the three slices' filtered parts joined. */
  lemma FallbackParts(p: CropProfile -> bool, head: seq<CropProfile>, mid: seq<CropProfile>, tail: seq<CropProfile>)
    requires Filter(p, head) == [Rice, Wheat, Sugarcane]
    requires Filter(p, mid) == [Banana, Mango]
    requires Filter(p, tail) == []
    ensures Filter(p, head + (mid + tail)) == [Rice, Wheat, Sugarcane, Banana, Mango]
  {
    FilterConcat(p, mid, tail);
    FilterConcat(p, head, mid + tail);
  }

  /** Proof step of `FallbackRecommendations`: the filter evaluated on the first six crops. */
  lemma FallbackHead(p: CropProfile -> bool, head: seq<CropProfile>)
    requires p == SuitableFor(Fallback) && head == [Rice, Wheat, Cotton, Maize, Sugarcane, Potato]
    ensures Filter(p, head) == [Rice, Wheat, Sugarcane]
  {
    FilterCons(p, Potato, []);
    FilterCons(p, Sugarcane, [Potato]);
    FilterCons(p, Maize, [Sugarcane, Potato]);
    FilterCons(p, Cotton, [Maize, Sugarcane, Potato]);
    FilterCons(p, Wheat, [Cotton, Maize, Sugarcane, Potato]);
    FilterCons(p, Rice, [Wheat, Cotton, Maize, Sugarcane, Potato]);
  }

  /** Proof step of `FallbackRecommendations`: the filter evaluated on the middle six crops. */
  lemma FallbackMid(p: CropProfile -> bool, mid: seq<CropProfile>)
    requires p == SuitableFor(Fallback) && mid == [Tomato, Chilli, Onion, Banana, Mango, Coconut]
    ensures Filter(p, mid) == [Banana, Mango]
  {
    FilterCons(p, Coconut, []);
    FilterCons(p, Mango, [Coconut]);
    FilterCons(p, Banana, [Mango, Coconut]);
    FilterCons(p, Onion, [Banana, Mango, Coconut]);
    FilterCons(p, Chilli, [Onion, Banana, Mango, Coconut]);
    FilterCons(p, Tomato, [Chilli, Onion, Banana, Mango, Coconut]);
  }

  /** Proof step of `FallbackRecommendations`: the filter evaluated on the last six crops. */
  lemma FallbackTail(p: CropProfile -> bool, tail: seq<CropProfile>)
    requires p == SuitableFor(Fallback) && tail == [Tea, Coffee, Rubber, Jute, Silk, Sunflower]
    ensures Filter(p, tail) == []
  {
    FilterCons(p, Sunflower, []);
    FilterCons(p, Silk, [Sunflower]);
    FilterCons(p, Jute, [Silk, Sunflower]);
    FilterCons(p, Rubber, [Jute, Silk, Sunflower]);
    FilterCons(p, Coffee, [Rubber, Jute, Silk, Sunflower]);
    FilterCons(p, Tea, [Coffee, Rubber, Jute, Silk, Sunflower]);
  }

  /** `date.substring(0, 4)`. */
  function YearOf(date: string): string {
    if |date| < 4 then date else date[..4]
  }

  /** The three buckets of `yearlyData`. */
  const Years: set<string> := {"2020", "2021", "2022"}

  /** A precipitation entry that is added to `year`'s total: right year and not negative. */
  predicate IsRainReading(e: Entry, year: string) {
    YearOf(e.key) == year && e.value >= 0.0
  }

  /** A root-zone moisture entry that is collected for `year`: right year and within [0, 1]. */
  predicate IsMoistureReading(e: Entry, year: string) {
    YearOf(e.key) == year && 0.0 <= e.value <= 1.0
  }

  /** The precipitation values kept for `year`, in series order. */
  function RainReadings(precip: Series, year: string): seq<real> {
    Values(Filter(e => IsRainReading(e, year), precip))
  }

  /** The moisture values kept for `year`, in series order. */
  function MoistureReadings(moisture: Series, year: string): seq<real> {
    Values(Filter(e => IsMoistureReading(e, year), moisture))
  }

  /** Every kept precipitation value is at least 0. */
  lemma RainReadingsNonNegative(precip: Series, year: string)
    ensures forall i :: 0 <= i < |RainReadings(precip, year)| ==> 0.0 <= RainReadings(precip, year)[i]
  {
    var kept := Filter(e => IsRainReading(e, year), precip);
    FilterMembers(e => IsRainReading(e, year), precip);
    forall i | 0 <= i < |kept| ensures 0.0 <= kept[i].value {
      assert kept[i] in kept;
    }
  }

  /** Every kept moisture value lies in [0, 1]. */
  lemma MoistureReadingsInUnit(moisture: Series, year: string)
    ensures forall i :: 0 <= i < |MoistureReadings(moisture, year)| ==>
              0.0 <= MoistureReadings(moisture, year)[i] <= 1.0
  {
    var kept := Filter(e => IsMoistureReading(e, year), moisture);
    FilterMembers(e => IsMoistureReading(e, year), moisture);
    forall i | 0 <= i < |kept| ensures 0.0 <= kept[i].value <= 1.0 {
      assert kept[i] in kept;
    }
  }

  /** A year's total precipitation. */
  function YearRain(precip: Series, year: string): (total: real)
    ensures total >= 0.0
  {
    RainReadingsNonNegative(precip, year);
    SumNonNegative(RainReadings(precip, year));
    Sum(RainReadings(precip, year))
  }

  /** A year's mean moisture, 0 for a year without readings. */
  function YearMoisture(moisture: Series, year: string): (m: real)
    ensures 0.0 <= m <= 1.0
    ensures MoistureReadings(moisture, year) == [] ==> m == 0.0
  {
    var xs := MoistureReadings(moisture, year);
    if xs == [] then 0.0
    else
      MoistureReadingsInUnit(moisture, year);
      MeanBounds(xs, 0.0, 1.0);
      Mean(xs)
  }

  /**
    The summary `fetchWeatherData` computes: the assumed temperature, the mean of the three yearly
    precipitation totals (a year without data counts as 0) and the mean of the three yearly
    moisture means.
  */
  function SummaryOf(precip: Series, moisture: Series): (s: Summary)
    ensures s.avgTemp == AssumedTemp
    ensures s.totalRain >= 0.0
    ensures 0.0 <= s.soilMoisture <= 1.0
  {
    Summary(
      AssumedTemp,
      (YearRain(precip, "2020") + YearRain(precip, "2021") + YearRain(precip, "2022")) / 3.0,
      (YearMoisture(moisture, "2020") + YearMoisture(moisture, "2021") + YearMoisture(moisture, "2022")) / 3.0)
  }

  /**
    One more precipitation entry adds its value to its own year's total when it is not negative
    (a reading of 0 is kept), and leaves every other total as it was.
  */
  lemma {:induction false} RainReadingAppended(precip: Series, e: Entry, year: string)
    ensures RainReadings(precip + [e], year) == RainReadings(precip, year) + (if IsRainReading(e, year) then [e.value] else [])
    ensures YearRain(precip + [e], year) == YearRain(precip, year) + (if IsRainReading(e, year) then e.value else 0.0)
  {
    var p := x => IsRainReading(x, year);
    FilterConcat(p, precip, [e]);
    assert Filter(p, [e]) == (if p(e) then [e] else []) + Filter(p, []);
    ValuesConcat(Filter(p, precip), Filter(p, [e]));
    SumConcat(RainReadings(precip, year), if p(e) then [e.value] else []);
    assert Sum([e.value]) == e.value + Sum([]);
  }

  /** One more moisture entry is collected for its year exactly when it lies within [0, 1]. */
  lemma {:induction false} MoistureReadingAppended(moisture: Series, e: Entry, year: string)
    ensures MoistureReadings(moisture + [e], year)
            == MoistureReadings(moisture, year) + (if IsMoistureReading(e, year) then [e.value] else [])
  {
    var p := x => IsMoistureReading(x, year);
    FilterConcat(p, moisture, [e]);
    assert Filter(p, [e]) == (if p(e) then [e] else []) + Filter(p, []);
    ValuesConcat(Filter(p, moisture), Filter(p, [e]));
  }

  /**
    A year's precipitation total does not depend on the order in which the provider lists its
    months: any rearrangement of the series gives the same total.
  */
  lemma RainTotalIgnoresOrder(a: Series, b: Series, year: string)
    requires multiset(a) == multiset(b)
    ensures YearRain(a, year) == YearRain(b, year)
  {
    var p := x => IsRainReading(x, year);
    FilterPermutation(p, a, b);
    ValuesPermutation(Filter(p, a), Filter(p, b));
    SumPermutation(RainReadings(a, year), RainReadings(b, year));
  }

  /** Likewise a year's mean moisture, including whether the year has any reading at all. */
  lemma MoistureIgnoresOrder(a: Series, b: Series, year: string)
    requires multiset(a) == multiset(b)
    ensures |MoistureReadings(a, year)| == |MoistureReadings(b, year)|
    ensures YearMoisture(a, year) == YearMoisture(b, year)
  {
    var p := x => IsMoistureReading(x, year);
    FilterPermutation(p, a, b);
    ValuesPermutation(Filter(p, a), Filter(p, b));
    var xs, ys := MoistureReadings(a, year), MoistureReadings(b, year);
    assert |xs| == |multiset(xs)| == |multiset(ys)| == |ys|;
    SumPermutation(xs, ys);
  }

  /** So the whole summary is the same for any rearrangement of either series. */
  lemma SummaryIgnoresOrder(precip: Series, precip': Series, moisture: Series, moisture': Series)
    requires multiset(precip) == multiset(precip')
    requires multiset(moisture) == multiset(moisture')
    ensures SummaryOf(precip, moisture) == SummaryOf(precip', moisture')
  {
    RainTotalIgnoresOrder(precip, precip', "2020");
    RainTotalIgnoresOrder(precip, precip', "2021");
    RainTotalIgnoresOrder(precip, precip', "2022");
    MoistureIgnoresOrder(moisture, moisture', "2020");
    MoistureIgnoresOrder(moisture, moisture', "2021");
    MoistureIgnoresOrder(moisture, moisture', "2022");
  }

  /** The boundary readings: 0 mm and a moisture of 1.0 are kept; -999, 1.1 and other years are not. */
  lemma ReadingBoundaries()
    ensures IsRainReading(Entry("202003", 0.0), "2020")
    ensures !IsRainReading(Entry("202003", -999.0), "2020")
    ensures !IsRainReading(Entry("201912", 4.2), "2020")
    ensures IsMoistureReading(Entry("202103", 1.0), "2021")
    ensures !IsMoistureReading(Entry("202103", 1.1), "2021")
    ensures !IsMoistureReading(Entry("202103", -0.1), "2021")
  {
    assert YearOf("201912")[3] == '9';
  }

  /** `{ rain, moisture }`: one year's running total and collected moisture readings. */
  datatype Bucket = Bucket(rain: real, moisture: seq<real>)

  /** The buckets `yearlyData` starts from. */
  const EmptyBuckets: map<string, Bucket> :=
    map["2020" := Bucket(0.0, []), "2021" := Bucket(0.0, []), "2022" := Bucket(0.0, [])]

  /** The buckets after one precipitation entry: a non-negative value is added to its year's total, if that year has a bucket. */
  function WithRain(buckets: map<string, Bucket>, date: string, rain: real): map<string, Bucket> {
    var year := YearOf(date);
    if year in buckets && rain >= 0.0
    then buckets[year := buckets[year].(rain := buckets[year].rain + rain)]
    else buckets
  }

  /** The buckets after one moisture entry: a value in [0, 1] is appended to its year's list, if that year has a bucket. */
  function WithMoisture(buckets: map<string, Bucket>, date: string, moisture: real): map<string, Bucket> {
    var year := YearOf(date);
    if year in buckets && 0.0 <= moisture <= 1.0
    then buckets[year := buckets[year].(moisture := buckets[year].moisture + [moisture])]
    else buckets
  }

  /** What the three buckets hold once both series have been read. */
  function BucketsFor(precip: Series, moisture: Series): map<string, Bucket> {
    map["2020" := Bucket(YearRain(precip, "2020"), MoistureReadings(moisture, "2020")),
        "2021" := Bucket(YearRain(precip, "2021"), MoistureReadings(moisture, "2021")),
        "2022" := Bucket(YearRain(precip, "2022"), MoistureReadings(moisture, "2022"))]
  }

  lemma BucketsForEmpty()
    ensures BucketsFor([], []) == EmptyBuckets
  {
    assert Filter(e => IsRainReading(e, "2020"), []) == [];
  }

  /** Reading one more precipitation entry moves the buckets from one prefix to the next. */
  lemma RainStep(precip: Series, e: Entry)
    ensures WithRain(BucketsFor(precip, []), e.key, e.value) == BucketsFor(precip + [e], [])
  {
    RainReadingAppended(precip, e, "2020");
    RainReadingAppended(precip, e, "2021");
    RainReadingAppended(precip, e, "2022");
  }

  /** Reading one more moisture entry moves the buckets from one prefix to the next. */
  lemma MoistureStep(precip: Series, moisture: Series, e: Entry)
    ensures WithMoisture(BucketsFor(precip, moisture), e.key, e.value) == BucketsFor(precip, moisture + [e])
  {
    MoistureReadingAppended(moisture, e, "2020");
    MoistureReadingAppended(moisture, e, "2021");
    MoistureReadingAppended(moisture, e, "2022");
    var before := BucketsFor(precip, moisture);
    var year := YearOf(e.key);
    if year in before && 0.0 <= e.value <= 1.0 {
      var after := BucketsFor(precip, moisture + [e]);
      var updated := before[year := before[year].(moisture := before[year].moisture + [e.value])];
      assert year == "2020" || year == "2021" || year == "2022";
      assert after.Keys == updated.Keys;
      assert after["2020"] == updated["2020"];
      assert after["2021"] == updated["2021"];
      assert after["2022"] == updated["2022"];
      assert after == updated;
    } else {
      assert !IsMoistureReading(e, "2020") && !IsMoistureReading(e, "2021") && !IsMoistureReading(e, "2022");
      assert MoistureReadings(moisture + [e], "2020") == MoistureReadings(moisture, "2020") + [];
      assert MoistureReadings(moisture + [e], "2021") == MoistureReadings(moisture, "2021") + [];
      assert MoistureReadings(moisture + [e], "2022") == MoistureReadings(moisture, "2022") + [];
      assert WithMoisture(before, e.key, e.value) == before;
      var after := BucketsFor(precip, moisture + [e]);
      assert after.Keys == before.Keys;
      assert after["2020"] == before["2020"];
      assert after["2021"] == before["2021"];
      assert after["2022"] == before["2022"];
      assert after == before;
    }
  }

  /** `yearlyData`, the per-year buckets that the aggregation updates in place. */
  class YearlyData {
    var buckets: map<string, Bucket>

    constructor ()
      ensures buckets == EmptyBuckets
    {
      buckets := EmptyBuckets;
    }

    method AddRain(date: string, rain: real)
      modifies this
      ensures buckets == WithRain(old(buckets), date, rain)
    {
      var year := YearOf(date);
      if year in buckets && rain >= 0.0 {
        buckets := buckets[year := buckets[year].(rain := buckets[year].rain + rain)];
      }
    }

    method AddMoisture(date: string, moisture: real)
      modifies this
      ensures buckets == WithMoisture(old(buckets), date, moisture)
    {
      var year := YearOf(date);
      if year in buckets && 0.0 <= moisture && moisture <= 1.0 {
        buckets := buckets[year := buckets[year].(moisture := buckets[year].moisture + [moisture])];
      }
    }
  }

  /** One year's mean moisture: the readings' sum over their count, or 0 without readings. */
  function BucketMoisture(b: Bucket): real {
    if |b.moisture| > 0 then Mean(b.moisture) else 0.0
  }

  /**
    The aggregation inside `fetchWeatherData`: both series are folded into the yearly buckets one
    entry at a time, then the buckets are averaged. The result is the specified summary.
  */
  method Aggregate(precip: Series, moisture: Series) returns (summary: Summary)
    ensures summary == SummaryOf(precip, moisture)
  {
    var yearly := new YearlyData();
    BucketsForEmpty();
    for i := 0 to |precip|
      invariant yearly.buckets == BucketsFor(precip[..i], [])
    {
      RainStep(precip[..i], precip[i]);
      assert precip[..i + 1] == precip[..i] + [precip[i]];
      yearly.AddRain(precip[i].key, precip[i].value);
    }
    assert precip[..|precip|] == precip;
    for i := 0 to |moisture|
      invariant yearly.buckets == BucketsFor(precip, moisture[..i])
    {
      MoistureStep(precip, moisture[..i], moisture[i]);
      assert moisture[..i + 1] == moisture[..i] + [moisture[i]];
      yearly.AddMoisture(moisture[i].key, moisture[i].value);
    }
    assert moisture[..|moisture|] == moisture;
    BucketsAverage(precip, moisture);
    summary := Averages(yearly.buckets);
  }

  /** The averaging step: the mean yearly total and the mean of the yearly moisture means. */
  function Averages(b: map<string, Bucket>): Summary
    requires Years <= b.Keys
  {
    Summary(
      AssumedTemp,
      (b["2020"].rain + b["2021"].rain + b["2022"].rain) / 3.0,
      (BucketMoisture(b["2020"]) + BucketMoisture(b["2021"]) + BucketMoisture(b["2022"])) / 3.0)
  }

  /** Averaging the buckets both series fill gives the specified summary. */
  lemma BucketsAverage(precip: Series, moisture: Series)
    ensures Years <= BucketsFor(precip, moisture).Keys
    ensures Averages(BucketsFor(precip, moisture)) == SummaryOf(precip, moisture)
  {
    var b := BucketsFor(precip, moisture);
    assert BucketMoisture(b["2020"]) == YearMoisture(moisture, "2020");
    assert BucketMoisture(b["2021"]) == YearMoisture(moisture, "2021");
    assert BucketMoisture(b["2022"]) == YearMoisture(moisture, "2022");
  }

  const InvalidCoordinatesMessage := "Invalid location coordinates"
  const HistoricalDataMessage := "Unable to fetch historical weather data"

  /** The page state that `fetchWeatherData` and `generateRecommendations` set. */
  class CropSuggestionPage {
    /** `cropDatabase`, fixed when the page is created. */
    const catalog: seq<CropProfile>
    var loading: bool
    var error: Option<string>
    var weatherData: Option<Summary>
    var recommendations: seq<CropProfile>

    constructor ()
      ensures catalog == Catalog()
      ensures loading && error == None && weatherData == None && recommendations == []
    {
      catalog := Catalog();
      loading, error, weatherData, recommendations := true, None, None, [];
    }

    /** `generateRecommendations(data)`: the suitable catalog entries become the page's list. */
    method GenerateRecommendations(data: Option<Summary>)
      modifies this
      ensures recommendations == Recommend(data, catalog)
      ensures loading == old(loading) && error == old(error) && weatherData == old(weatherData)
    {
      recommendations := Recommend(data, catalog);
    }

    /**
      `fetchWeatherData(latitude, longitude)` given the provider's `response`. Without a coordinate
      the page reports it and stops. A usable body is aggregated and filtered; any failure or a
      body without `properties.parameter` puts the fallback summary and its crops on the page
      (the five crops of `FallbackRecommendations`), with an error message that marks them as
      estimated.
    */
    method FetchWeatherData(latitude: Option<real>, longitude: Option<real>, response: Response)
      modifies this
      ensures !loading
      ensures Location.CoordinatesMissing(latitude, longitude) ==>
                && error == Some(InvalidCoordinatesMessage)
                && weatherData == old(weatherData) && recommendations == old(recommendations)
      ensures !Location.CoordinatesMissing(latitude, longitude) && response.Body? && response.parameter.Some? ==>
                var p := response.parameter.value;
                var s := SummaryOf(p.prectotcorr.GetOr([]), p.gwetroot.GetOr([]));
                && weatherData == Some(s)
                && recommendations == Recommend(Some(s), catalog)
                && error == None
      ensures !Location.CoordinatesMissing(latitude, longitude) && !(response.Body? && response.parameter.Some?) ==>
                && weatherData == Some(Fallback)
                && recommendations == Recommend(Some(Fallback), catalog)
                && error == Some(HistoricalDataMessage)
    {
      if Location.CoordinatesMissing(latitude, longitude) {
        error := Some(InvalidCoordinatesMessage);
        loading := false;
        return;
      }
      loading := true;
      if response.Body? && response.parameter.Some? {
        var p := response.parameter.value;
        var summary := Aggregate(p.prectotcorr.GetOr([]), p.gwetroot.GetOr([]));
        GenerateRecommendations(Some(summary));
        weatherData := Some(summary);
        error := None;
      } else {
        GenerateRecommendations(Some(Fallback));
        weatherData := Some(Fallback);
        error := Some(HistoricalDataMessage);
      }
      loading := false;
    }
  }
}
