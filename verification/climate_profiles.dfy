/**
  `process_monthly_data` and the per-zone loop of the climate fetcher: a raw
  API response becomes a climate profile of four sections, and every zone of
  the registry ends up with exactly one document, a profile or an error.
  The HTTP fetch is a function parameter returning success or failure; the
  pause between requests, the console output and the file writing are not
  modelled.
*/
module ClimateProfiles {
  import opened Wrappers
  import opened ClimateRecords
  import opened MonthlyClimatology
  import opened AnnualSummary
  import opened YearlySeries
  import opened Variability

  /** The part of the decoded response that is read: `properties.parameter`. */
  datatype ApiProperties = ApiProperties(parameter: Option<RawRecord>)
  datatype ApiResponse = ApiResponse(properties: Option<ApiProperties>)

  datatype ClimateProfile = ClimateProfile(
    monthlyClimatology: seq<MonthEntry>,
    annualSummary: map<string, SummaryStats>,
    yearlyData: map<string, map<string, real>>,
    variability: VariabilityMetrics)

  /** `api_response["properties"]["parameter"]`, failing like the subscripts do. */
  function ParametersOf(response: ApiResponse): Result<RawRecord, Failure>
  {
    match response.properties
    case None => Err(KeyMissing("properties"))
    case Some(props) =>
      match props.parameter
      case None => Err(KeyMissing("parameter"))
      case Some(rec) => Ok(rec)
  }

  /** The profile `process_monthly_data` returns, or the error it raises. */
  function ProfileOf(response: ApiResponse, start: int, end: int): Result<ClimateProfile, Failure>
  {
    match ParametersOf(response)
    case Err(e) => Err(e)
    case Ok(rec) =>
      match VariabilityOf(rec, start, end)
      case Err(e) => Err(e)
      case Ok(v) => Ok(ClimateProfile(Climatology(rec, start, end), Annual(rec, start, end), Yearly(rec, start, end), v))
  }

  /**
    A profile has the twelve months in calendar order and one yearly record per
    year in range; it fails only for a response without `properties.parameter`
    or for a `null` temperature reaching the January/July sums.
  */
  lemma ProfileShape(response: ApiResponse, start: int, end: int)
    ensures ProfileOf(response, start, end).Ok? ==>
      var p := ProfileOf(response, start, end).value;
      |p.monthlyClimatology| == 12 &&
      (forall i :: 0 <= i < 12 ==> p.monthlyClimatology[i].0 == MONTH_NAMES[i]) &&
      |p.yearlyData| == (if end < start then 0 else end - start + 1)
    ensures ProfileOf(response, start, end).Err? <==>
      ParametersOf(response).Err? || TemperatureOf(ParametersOf(response).value, start, end).Err?
    ensures response.properties.None? ==> ProfileOf(response, start, end) == Err(KeyMissing("properties"))
    ensures response.properties.Some? && response.properties.value.parameter.None? ==>
      ProfileOf(response, start, end) == Err(KeyMissing("parameter"))
  {
    if ParametersOf(response).Ok? {
      YearlySize(ParametersOf(response).value, start, end);
    }
  }

  /** `process_monthly_data`: the four sections, built in order. */
  method ProcessMonthlyData(response: ApiResponse, start: int, end: int) returns (r: Result<ClimateProfile, Failure>)
    ensures r == ProfileOf(response, start, end)
  {
    if response.properties.None? {
      return Err(KeyMissing("properties"));
    }
    if response.properties.value.parameter.None? {
      return Err(KeyMissing("parameter"));
    }
    var paramsData := response.properties.value.parameter.value;
    var monthlyClim := BuildClimatology(paramsData, start, end);
    var annual := BuildAnnual(paramsData, start, end);
    var yearlyData := BuildYearly(paramsData, start, end);
    var variability := ComputeVariability(paramsData, start, end);
    if variability.Err? {
      return Err(variability.error);
    }
    r := Ok(ClimateProfile(monthlyClim, annual, yearlyData, variability.value));
  }

  /** `representative_point`. */
  datatype Point = Point(lat: real, lon: real, pointLabel: string)

  /** A registry entry: its key in the registry, its name and its point. */
  datatype Zone = Zone(id: string, name: string, point: Point)

  /** The outcome of `fetch_nasa_power`: the decoded response or the raised error. */
  datatype FetchResult = Fetched(response: ApiResponse) | FetchFailed(message: string)

  /** The document stored for a zone: its profile or the error, with name and point either way. */
  datatype ZoneDocument =
    | Profiled(zoneName: string, point: Point, profile: ClimateProfile)
    | Failed(zoneName: string, point: Point, error: Failure)

  /** The body of the `try`/`except` for one zone. */
  function ZoneDocumentOf(zone: Zone, fetch: (real, real, int, int) -> FetchResult, start: int, end: int): ZoneDocument
  {
    match fetch(zone.point.lat, zone.point.lon, start, end)
    case FetchFailed(msg) => Failed(zone.name, zone.point, FetchError(msg))
    case Fetched(response) =>
      match ProfileOf(response, start, end)
      case Ok(profile) => Profiled(zone.name, zone.point, profile)
      case Err(e) => Failed(zone.name, zone.point, e)
  }

  /** Registry keys are distinct, as the keys of a JSON object are. */
  predicate DistinctIds(zones: seq<Zone>)
  {
    forall i, j :: 0 <= i < j < |zones| ==> zones[i].id != zones[j].id
  }

  function Ids(zones: seq<Zone>): set<string>
  {
    set z | z in zones :: z.id
  }

  /**
    A zone's document keeps its name and point and is an error exactly when the
    fetch failed or the response could not be reduced; a failed fetch is
    reported as such.
  */
  lemma ZoneDocumentCases(zone: Zone, fetch: (real, real, int, int) -> FetchResult, start: int, end: int)
    ensures ZoneDocumentOf(zone, fetch, start, end).zoneName == zone.name
    ensures ZoneDocumentOf(zone, fetch, start, end).point == zone.point
    ensures ZoneDocumentOf(zone, fetch, start, end).Profiled? <==>
      fetch(zone.point.lat, zone.point.lon, start, end).Fetched? &&
      ProfileOf(fetch(zone.point.lat, zone.point.lon, start, end).response, start, end).Ok?
    ensures fetch(zone.point.lat, zone.point.lon, start, end).FetchFailed? ==>
      ZoneDocumentOf(zone, fetch, start, end).error == FetchError(fetch(zone.point.lat, zone.point.lon, start, end).message)
  {
  }

  lemma NextId(zones: seq<Zone>, k: int)
    requires DistinctIds(zones) && 0 <= k < |zones|
    ensures zones[k].id !in Ids(zones[..k])
    ensures Ids(zones[..k + 1]) == Ids(zones[..k]) + {zones[k].id}
  {
    assert zones[..k + 1] == zones[..k] + [zones[k]];
  }

  /** One iteration of the zone loop: fetch, reduce, and catch any failure. */
  method ProcessZone(zone: Zone, fetch: (real, real, int, int) -> FetchResult, start: int, end: int)
    returns (document: ZoneDocument)
    ensures document == ZoneDocumentOf(zone, fetch, start, end)
  {
    var raw := fetch(zone.point.lat, zone.point.lon, start, end);
    if raw.FetchFailed? {
      return Failed(zone.name, zone.point, FetchError(raw.message));
    }
    var profile := ProcessMonthlyData(raw.response, start, end);
    if profile.Ok? {
      document := Profiled(zone.name, zone.point, profile.value);
    } else {
      document := Failed(zone.name, zone.point, profile.error);
    }
  }

  /**
    The zone loop: each zone is processed independently of the others' outcome,
    and every registry zone gets exactly one document.
  */
  method ProcessZones(zones: seq<Zone>, fetch: (real, real, int, int) -> FetchResult, start: int, end: int)
    returns (docs: map<string, ZoneDocument>)
    requires DistinctIds(zones)
    ensures docs.Keys == Ids(zones)
    ensures |docs| == |zones|
    ensures forall i :: 0 <= i < |zones| ==> docs[zones[i].id] == ZoneDocumentOf(zones[i], fetch, start, end)
  {
    docs := map[];
    var k := 0;
    while k < |zones|
      invariant 0 <= k <= |zones|
      invariant docs.Keys == Ids(zones[..k])
      invariant forall i :: 0 <= i < k ==> docs[zones[i].id] == ZoneDocumentOf(zones[i], fetch, start, end)
    {
      var document := ProcessZone(zones[k], fetch, start, end);
      NextId(zones, k);
      docs := docs[zones[k].id := document];
      k := k + 1;
    }
    assert zones[..|zones|] == zones;
    IdsSize(zones);
  }

  /** Distinct registry keys: as many ids as zones. */
  lemma {:induction false} IdsSize(zones: seq<Zone>)
    requires DistinctIds(zones)
    ensures |Ids(zones)| == |zones|
  {
    if zones != [] {
      var last := |zones| - 1;
      assert DistinctIds(zones[..last]);
      IdsSize(zones[..last]);
      NextId(zones, last);
      assert zones[..last + 1] == zones;
    }
  }
}
