/**
  The `variability` section: inter-annual precipitation variability over the
  full-coverage yearly totals, and the January/July temperature spread.
  The standard deviation is kept as its variance: the drought test
  `p < mean - std` is stated as `p < mean && (mean - p)^2 > variance`, which is
  the same test for the non-negative root (see `DroughtThreshold`).
*/
module Variability {
  import opened Wrappers
  import opened Stats
  import opened PeriodKeys
  import opened ClimateRecords
  import opened AnnualSummary

  /**
    `{"cv", "drought_frequency", "drought_threshold_mm", "wet_frequency",
    "wet_threshold_mm"}`: the thresholds are `mean -/+ sqrt(variance)` and `cv`
    is kept squared, `None` when the mean is not positive.
  */
  datatype PrecipBlock = PrecipBlock(
    mean: real,
    variance: real,
    cvSquared: Option<real>,
    droughtFrequency: real,
    wetFrequency: real)

  /** `{"jan_mean_std", "jul_mean_std", "thermal_amplitude_mean"}`, spreads kept as variances. */
  datatype TempBlock = TempBlock(janVariance: real, julVariance: real, thermalAmplitude: real)

  /** The two optional blocks of the `variability` dict. */
  datatype VariabilityMetrics = VariabilityMetrics(precipitation: Option<PrecipBlock>, temperature: Option<TempBlock>)

  /** A drought year: strictly below `mean - std`. */
  predicate IsDrought(p: real, mean: real, variance: real)
  {
    p < mean && (mean - p) * (mean - p) > variance
  }

  /** A wet year: strictly above `mean + std`. */
  predicate IsWet(p: real, mean: real, variance: real)
  {
    p > mean && (p - mean) * (p - mean) > variance
  }

  function DroughtCount(totals: seq<real>, mean: real, variance: real): (n: nat)
    ensures n <= |totals|
  {
    if totals == [] then 0
    else (if IsDrought(totals[0], mean, variance) then 1 else 0) + DroughtCount(totals[1..], mean, variance)
  }

  function WetCount(totals: seq<real>, mean: real, variance: real): (n: nat)
    ensures n <= |totals|
  {
    if totals == [] then 0
    else (if IsWet(totals[0], mean, variance) then 1 else 0) + WetCount(totals[1..], mean, variance)
  }

  /** `sum(1 for p in totals if p < t)`. */
  function CountBelow(totals: seq<real>, t: real): nat
  {
    if totals == [] then 0 else (if totals[0] < t then 1 else 0) + CountBelow(totals[1..], t)
  }

  /** `sum(1 for p in totals if p > t)`. */
  function CountAbove(totals: seq<real>, t: real): nat
  {
    if totals == [] then 0 else (if totals[0] > t then 1 else 0) + CountAbove(totals[1..], t)
  }

  /** No year is both a drought year and a wet year. */
  lemma {:induction false} CountsDisjoint(totals: seq<real>, mean: real, variance: real)
    ensures DroughtCount(totals, mean, variance) + WetCount(totals, mean, variance) <= |totals|
  {
    if totals != [] {
      CountsDisjoint(totals[1..], mean, variance);
    }
  }

  lemma FractionBounds(a: real, b: real, n: real)
    requires 0.0 <= a && 0.0 <= b && a + b <= n && n > 0.0
    ensures 0.0 <= a / n <= 1.0 && 0.0 <= b / n <= 1.0 && a / n + b / n <= 1.0
  {
    DivideBounds(a + b, n, 0.0, 1.0);
    DivideBounds(a, n, 0.0, 1.0);
    DivideBounds(b, n, 0.0, 1.0);
    assert a / n + b / n == (a + b) / n;
  }

  /** The precipitation block of a non-empty list of yearly totals. */
  function PrecipBlockOf(totals: seq<real>): (b: PrecipBlock)
    requires totals != []
    ensures b.variance >= 0.0
    ensures b.cvSquared.None? <==> b.mean <= 0.0
    ensures 0.0 <= b.droughtFrequency <= 1.0 && 0.0 <= b.wetFrequency <= 1.0
    ensures b.droughtFrequency + b.wetFrequency <= 1.0
  {
    var mean := Mean(totals);
    var variance := Variance(totals);
    var n := |totals| as real;
    var drought := DroughtCount(totals, mean, variance) as real;
    var wet := WetCount(totals, mean, variance) as real;
    CountsDisjoint(totals, mean, variance);
    FractionBounds(drought, wet, n);
    PrecipBlock(mean, variance, if mean > 0.0 then Some(variance / mean / mean) else None, drought / n, wet / n)
  }

  /** The block exists when precipitation is in the record and some year is full. */
  function PrecipitationOf(rec: RawRecord, start: int, end: int): Option<PrecipBlock>
  {
    if PRECIP in rec && FullYearValues(PRECIP, rec[PRECIP], start, end) != [] then
      Some(PrecipBlockOf(FullYearValues(PRECIP, rec[PRECIP], start, end)))
    else None
  }

  lemma MulPos(a: real, b: real)
    requires a > 0.0 && b > 0.0
    ensures a * b > 0.0
  {
  }

  lemma SquareMonotone(d: real, s: real)
    requires d > 0.0 && s >= d
    ensures s * s >= d * d
  {
  }

  /** For `d > 0` and `s >= 0`: `d * d > s * s` exactly when `d > s`. */
  lemma SquareCompare(d: real, s: real)
    requires d > 0.0 && s >= 0.0
    ensures d * d > s * s <==> d > s
  {
    if d > s {
      MulPos(d - s, d + s);
      assert (d - s) * (d + s) == d * d - s * s;
    } else {
      SquareMonotone(d, s);
    }
  }

  /** With `std` the non-negative root of the variance, the drought test is `p < mean - std`. */
  lemma DroughtThreshold(p: real, mean: real, std: real)
    requires std >= 0.0
    ensures IsDrought(p, mean, std * std) <==> p < mean - std
  {
    if p < mean {
      SquareCompare(mean - p, std);
    }
  }

  /** With `std` the non-negative root of the variance, the wet test is `p > mean + std`. */
  lemma WetThreshold(p: real, mean: real, std: real)
    requires std >= 0.0
    ensures IsWet(p, mean, std * std) <==> p > mean + std
  {
    if p > mean {
      SquareCompare(p - mean, std);
    }
  }

  /**
    The drought and wet counts are the counts of years strictly below
    `mean - std` and strictly above `mean + std`.
  */
  lemma {:induction false} CountsMatchThresholds(totals: seq<real>, mean: real, std: real)
    requires std >= 0.0
    ensures DroughtCount(totals, mean, std * std) == CountBelow(totals, mean - std)
    ensures WetCount(totals, mean, std * std) == CountAbove(totals, mean + std)
  {
    if totals != [] {
      CountsMatchThresholds(totals[1..], mean, std);
      DroughtThreshold(totals[0], mean, std);
      WetThreshold(totals[0], mean, std);
    }
  }

  /**
    The precipitation block is present exactly when the record has precipitation
    and at least one year in range is full; it is built from the full-year totals.
  */
  lemma PrecipitationPresence(rec: RawRecord, start: int, end: int)
    ensures PrecipitationOf(rec, start, end).Some? <==>
      PRECIP in rec && exists y :: start <= y <= end && FullYear(rec[PRECIP], y)
  {
    if PRECIP in rec {
      FullYearValuesNonEmpty(PRECIP, rec[PRECIP], start, end);
    }
  }

  /**
    Five yearly totals 100, 100, 100, 100, 500: mean 180, variance 32000
    (std about 178.9), so no year falls below 1.1 and one of five lies above 358.9.
  */
  lemma ExampleBlock()
    ensures PrecipBlockOf([100.0, 100.0, 100.0, 100.0, 500.0]) ==
      PrecipBlock(180.0, 32000.0, Some(32000.0 / 32400.0), 0.0, 0.2)
  {
    var t := [100.0, 100.0, 100.0, 100.0, 500.0];
    assert Sum(t) == 900.0;
    assert Mean(t) == 180.0;
    assert SumSqDev(t, 180.0) == 128000.0;
    assert Variance(t) == 32000.0;
    assert DroughtCount(t, 180.0, 32000.0) == 0;
    assert WetCount(t, 180.0, 32000.0) == 1;
  }

  /**
    The temperature look-up: `series.get(key, -999)` kept unless it is -999.
    Unlike the other sections, a stored `null` is kept.
  */
  function RawReading(series: Series, year: int, month: int): Option<Reading>
    requires 1 <= month <= 12
  {
    var key := PeriodKey(year, month);
    var val := if key in series then series[key] else Num(MISSING);
    if val != Num(MISSING) then Some(val) else None
  }

  /** The `jan_temps` / `jul_temps` list for `month` over `start..end`. */
  function ReadingsAcrossYears(series: Series, month: int, start: int, end: int): seq<Reading>
    requires 1 <= month <= 12
    decreases end - start
  {
    if end < start then [] else ReadingsAcrossYears(series, month, start, end - 1) + RawReading(series, end, month).ToSeq()
  }

  /** The numbers of a list of readings holding no `null`. */
  function Numbers(rs: seq<Reading>): (xs: seq<real>)
    requires Null !in rs
    ensures |xs| == |rs|
    ensures forall i :: 0 <= i < |rs| ==> rs[i] == Num(xs[i])
  {
    if rs == [] then [] else [rs[0].v] + Numbers(rs[1..])
  }

  /**
    The temperature block: absent without `T2M` or when either month list is
    empty; a `null` in either list makes the sums fail.
  */
  function TemperatureOf(rec: RawRecord, start: int, end: int): Result<Option<TempBlock>, Failure>
  {
    if TEMP !in rec then Ok(None)
    else
      var jul := ReadingsAcrossYears(rec[TEMP], 7, start, end);
      var jan := ReadingsAcrossYears(rec[TEMP], 1, start, end);
      if jul == [] || jan == [] then Ok(None)
      else if Null in jan || Null in jul then Err(NoneOperand)
      else
        var janTemps := Numbers(jan);
        var julTemps := Numbers(jul);
        Ok(Some(TempBlock(Variance(janTemps), Variance(julTemps), Mean(julTemps) - Mean(janTemps))))
  }

  /** `_compute_variability`. */
  function VariabilityOf(rec: RawRecord, start: int, end: int): Result<VariabilityMetrics, Failure>
  {
    match TemperatureOf(rec, start, end)
    case Err(e) => Err(e)
    case Ok(temperature) => Ok(VariabilityMetrics(PrecipitationOf(rec, start, end), temperature))
  }

  /**
    The readings of a month are exactly the non-fill readings of the years in
    range, `null` included.
  */
  lemma {:induction false} ReadingsMembers(series: Series, month: int, start: int, end: int)
    requires 1 <= month <= 12
    ensures forall r :: r in ReadingsAcrossYears(series, month, start, end) <==>
      exists y :: start <= y <= end && RawReading(series, y, month) == Some(r)
    decreases end - start
  {
    if end >= start {
      ReadingsMembers(series, month, start, end - 1);
      var prev := ReadingsAcrossYears(series, month, start, end - 1);
      forall r
        ensures r in ReadingsAcrossYears(series, month, start, end) <==>
          exists y :: start <= y <= end && RawReading(series, y, month) == Some(r)
      {
        if RawReading(series, end, month) == Some(r) {
          assert r in ReadingsAcrossYears(series, month, start, end);
        } else if exists y :: start <= y <= end && RawReading(series, y, month) == Some(r) {
          var y :| start <= y <= end && RawReading(series, y, month) == Some(r);
          assert y <= end - 1;
          assert r in prev;
        }
      }
    }
  }

  /**
    The months are collected independently: overwriting the reading of one
    month in some year leaves the list of any other month unchanged, so a
    January entry never affects the July list and vice versa.
  */
  lemma {:induction false} MonthsIndependent(series: Series, y0: int, m0: int, r: Reading, month: int, start: int, end: int)
    requires 1 <= m0 <= 12 && 1 <= month <= 12 && m0 != month
    ensures ReadingsAcrossYears(series[PeriodKey(y0, m0) := r], month, start, end) == ReadingsAcrossYears(series, month, start, end)
    decreases end - start
  {
    if end >= start {
      MonthsIndependent(series, y0, m0, r, month, start, end - 1);
      if PeriodKey(end, month) == PeriodKey(y0, m0) {
        PeriodKeyInjective(end, month, y0, m0);
      }
    }
  }

  /**
    A stored `null` for January of some year in range fails the zone whenever
    July has at least one reading: `null` is not filtered here.
  */
  lemma NullJanuaryFails(rec: RawRecord, start: int, end: int, y: int)
    requires TEMP in rec && start <= y <= end
    requires PeriodKey(y, 1) in rec[TEMP] && rec[TEMP][PeriodKey(y, 1)] == Null
    requires ReadingsAcrossYears(rec[TEMP], 7, start, end) != []
    ensures TemperatureOf(rec, start, end) == Err(NoneOperand)
    ensures VariabilityOf(rec, start, end) == Err(NoneOperand)
  {
    ReadingsMembers(rec[TEMP], 1, start, end);
    assert RawReading(rec[TEMP], y, 1) == Some(Null);
    assert Null in ReadingsAcrossYears(rec[TEMP], 1, start, end);
  }

  /**
    The temperature block, when present, holds non-negative spreads and the
    July mean minus the January mean; it is present exactly when `T2M` is in
    the record, both months have readings and none of them is `null`.
  */
  lemma TemperatureBlock(rec: RawRecord, start: int, end: int)
    ensures TemperatureOf(rec, start, end).Ok? && TemperatureOf(rec, start, end).value.Some? <==>
      TEMP in rec &&
      ReadingsAcrossYears(rec[TEMP], 1, start, end) != [] && ReadingsAcrossYears(rec[TEMP], 7, start, end) != [] &&
      Null !in ReadingsAcrossYears(rec[TEMP], 1, start, end) && Null !in ReadingsAcrossYears(rec[TEMP], 7, start, end)
    ensures TemperatureOf(rec, start, end).Ok? && TemperatureOf(rec, start, end).value.Some? ==>
      var b := TemperatureOf(rec, start, end).value.value;
      var jan := Numbers(ReadingsAcrossYears(rec[TEMP], 1, start, end));
      var jul := Numbers(ReadingsAcrossYears(rec[TEMP], 7, start, end));
      b.janVariance >= 0.0 && b.julVariance >= 0.0 && b.thermalAmplitude == Mean(jul) - Mean(jan)
  {
  }

  /** The temperature loop: January and July lists filled side by side. */
  method CollectJanJul(series: Series, start: int, end: int) returns (janTemps: seq<Reading>, julTemps: seq<Reading>)
    ensures janTemps == ReadingsAcrossYears(series, 1, start, end)
    ensures julTemps == ReadingsAcrossYears(series, 7, start, end)
  {
    janTemps, julTemps := [], [];
    var year := start;
    while year <= end
      invariant start <= year && (year <= end + 1 || year == start)
      invariant janTemps == ReadingsAcrossYears(series, 1, start, year - 1)
      invariant julTemps == ReadingsAcrossYears(series, 7, start, year - 1)
      decreases end - year
    {
      var julKey := PeriodKey(year, 7);
      var janKey := PeriodKey(year, 1);
      var julVal := if julKey in series then series[julKey] else Num(MISSING);
      var janVal := if janKey in series then series[janKey] else Num(MISSING);
      if julVal != Num(MISSING) {
        julTemps := julTemps + [julVal];
      }
      if janVal != Num(MISSING) {
        janTemps := janTemps + [janVal];
      }
      year := year + 1;
    }
  }

  /** `_compute_variability`: the precipitation block, then the temperature block. */
  method ComputeVariability(rec: RawRecord, start: int, end: int) returns (r: Result<VariabilityMetrics, Failure>)
    ensures r == VariabilityOf(rec, start, end)
  {
    var precipitation: Option<PrecipBlock> := None;
    if PRECIP in rec {
      var annualPrecip := CollectFullYearValues(PRECIP, rec[PRECIP], start, end);
      if annualPrecip != [] {
        precipitation := Some(PrecipBlockOf(annualPrecip));
      }
    }
    var temperature: Option<TempBlock> := None;
    if TEMP in rec {
      var janTemps, julTemps := CollectJanJul(rec[TEMP], start, end);
      if julTemps != [] && janTemps != [] {
        if Null in janTemps || Null in julTemps {
          return Err(NoneOperand);
        }
        var janNumbers := Numbers(janTemps);
        var julNumbers := Numbers(julTemps);
        temperature := Some(TempBlock(Variance(janNumbers), Variance(julNumbers), Mean(julNumbers) - Mean(janNumbers)));
      }
    }
    r := Ok(VariabilityMetrics(precipitation, temperature));
  }
}
