/**
  The `yearly_data` section: one record per year in range, keyed `str(year)`,
  holding for every parameter the mean over whatever months were observed and,
  for precipitation, the day-weighted total of those months. No full coverage
  is required here.
*/
module YearlySeries {
  import opened Wrappers
  import opened Stats
  import opened PeriodKeys
  import opened ClimateRecords
  import opened AnnualSummary

  function TotalKey(param: string): string
  {
    param + "_annual_total_mm"
  }

  function MeanKey(param: string): string
  {
    param + "_monthly_mean"
  }

  /** `year_record` after the parameters `ps` have been visited. */
  function YearRecordOver(rec: RawRecord, year: int, ps: seq<string>): map<string, real>
  {
    if ps == [] then map[]
    else
      var acc := YearRecordOver(rec, year, ps[..|ps| - 1]);
      var p := ps[|ps| - 1];
      if p in rec && MonthsOfYear(rec[p], year) != [] then
        var vals := MonthsOfYear(rec[p], year);
        var withTotal := if p == PRECIP then acc[TotalKey(p) := WeightedSum(vals, DAYS_PER_MONTH)] else acc;
        withTotal[MeanKey(p) := Mean(vals)]
      else acc
  }

  function YearRecord(rec: RawRecord, year: int): map<string, real>
  {
    YearRecordOver(rec, year, PARAMETERS)
  }

  /** `yearly_data` after the years `start..end`. */
  function Yearly(rec: RawRecord, start: int, end: int): map<string, map<string, real>>
    decreases end - start
  {
    if end < start then map[] else Yearly(rec, start, end - 1)[IntToString(end) := YearRecord(rec, end)]
  }

  /** Mean keys end in 'n' ("..._mean"), total keys in 'm' ("..._mm"). */
  lemma KeyLastChars(p: string)
    ensures MeanKey(p)[|MeanKey(p)| - 1] == 'n'
    ensures TotalKey(p)[|TotalKey(p)| - 1] == 'm'
  {
  }

  /** A mean key and a total key never coincide, and each kind is injective. */
  lemma KeysDistinct(p: string, q: string)
    ensures MeanKey(p) != TotalKey(q)
    ensures MeanKey(p) == MeanKey(q) ==> p == q
    ensures TotalKey(p) == TotalKey(q) ==> p == q
  {
    KeyLastChars(p);
    KeyLastChars(q);
    if MeanKey(p) == MeanKey(q) {
      SuffixCancel(p, q, "_monthly_mean");
    }
    if TotalKey(p) == TotalKey(q) {
      SuffixCancel(p, q, "_annual_total_mm");
    }
  }

  lemma {:induction false} YearRecordOverSpec(rec: RawRecord, year: int, ps: seq<string>, p: string)
    ensures MeanKey(p) in YearRecordOver(rec, year, ps) <==>
      p in ps && p in rec && MonthsOfYear(rec[p], year) != []
    ensures MeanKey(p) in YearRecordOver(rec, year, ps) ==>
      YearRecordOver(rec, year, ps)[MeanKey(p)] == Mean(MonthsOfYear(rec[p], year))
    ensures TotalKey(p) in YearRecordOver(rec, year, ps) <==>
      p == PRECIP && p in ps && p in rec && MonthsOfYear(rec[p], year) != []
    ensures TotalKey(p) in YearRecordOver(rec, year, ps) ==>
      YearRecordOver(rec, year, ps)[TotalKey(p)] == WeightedSum(MonthsOfYear(rec[p], year), DAYS_PER_MONTH)
  {
    if ps != [] {
      YearRecordOverSpec(rec, year, ps[..|ps| - 1], p);
      var q := ps[|ps| - 1];
      assert p in ps <==> p in ps[..|ps| - 1] || p == q;
      KeysDistinct(p, q);
      KeysDistinct(q, p);
    }
  }

  lemma {:induction false} YearRecordOverKeys(rec: RawRecord, year: int, ps: seq<string>)
    ensures forall k :: k in YearRecordOver(rec, year, ps) ==>
      exists p :: p in ps && (k == MeanKey(p) || (p == PRECIP && k == TotalKey(p)))
  {
    if ps != [] {
      YearRecordOverKeys(rec, year, ps[..|ps| - 1]);
      assert forall p :: p in ps[..|ps| - 1] ==> p in ps;
      assert ps[|ps| - 1] in ps;
    }
  }

  /**
    A year's record holds `<param>_monthly_mean`, the mean over the observed
    months, for every parameter with at least one observed month that year, and
    `PRECTOTCORR_annual_total_mm`, the day-weighted total of those months, for
    precipitation; nothing else.
  */
  lemma YearRecordEntries(rec: RawRecord, year: int, p: string)
    ensures MeanKey(p) in YearRecord(rec, year) <==>
      p in PARAMETERS && p in rec && MonthsOfYear(rec[p], year) != []
    ensures MeanKey(p) in YearRecord(rec, year) ==>
      YearRecord(rec, year)[MeanKey(p)] == Mean(MonthsOfYear(rec[p], year))
    ensures TotalKey(p) in YearRecord(rec, year) <==>
      p == PRECIP && p in rec && MonthsOfYear(rec[p], year) != []
    ensures TotalKey(p) in YearRecord(rec, year) ==>
      YearRecord(rec, year)[TotalKey(p)] == WeightedSum(MonthsOfYear(rec[p], year), DAYS_PER_MONTH)
    ensures forall k :: k in YearRecord(rec, year) ==>
      exists q :: q in PARAMETERS && (k == MeanKey(q) || (q == PRECIP && k == TotalKey(q)))
  {
    YearRecordOverSpec(rec, year, PARAMETERS, p);
    YearRecordOverKeys(rec, year, PARAMETERS);
  }

  /**
    The yearly series has exactly one entry per year in range, keyed
    `str(year)` and holding that year's record, whether empty or not.
  */
  lemma {:induction false} YearlyEntries(rec: RawRecord, start: int, end: int)
    ensures forall y :: start <= y <= end ==>
      IntToString(y) in Yearly(rec, start, end) && Yearly(rec, start, end)[IntToString(y)] == YearRecord(rec, y)
    ensures forall k :: k in Yearly(rec, start, end) ==> exists y :: start <= y <= end && k == IntToString(y)
    decreases end - start
  {
    if end >= start {
      YearlyEntries(rec, start, end - 1);
      forall y | start <= y <= end - 1
        ensures IntToString(y) != IntToString(end)
      {
        if IntToString(y) == IntToString(end) {
          IntToStringInjective(y, end);
        }
      }
    }
  }

  /** One entry per year: the series has `end - start + 1` entries, none for an empty range. */
  lemma {:induction false} YearlySize(rec: RawRecord, start: int, end: int)
    ensures |Yearly(rec, start, end)| == if end < start then 0 else end - start + 1
    decreases end - start
  {
    if end >= start {
      YearlySize(rec, start, end - 1);
      YearlyEntries(rec, start, end - 1);
      var prev := Yearly(rec, start, end - 1);
      if IntToString(end) in prev {
        var y :| start <= y <= end - 1 && IntToString(end) == IntToString(y);
        IntToStringInjective(y, end);
      }
    }
  }

  /**
    A year with some but not all months of a parameter observed is left out of
    the annual summary yet still gets that parameter's monthly mean in the
    yearly series.
  */
  lemma PartialYearPolicy(rec: RawRecord, start: int, end: int, p: string, y: int)
    requires p in PARAMETERS && p in rec && start <= y <= end
    requires MonthsOfYear(rec[p], y) != [] && !FullYear(rec[p], y)
    ensures y !in FullYears(rec[p], start, end)
    ensures IntToString(y) in Yearly(rec, start, end)
    ensures MeanKey(p) in Yearly(rec, start, end)[IntToString(y)]
    ensures Yearly(rec, start, end)[IntToString(y)][MeanKey(p)] == Mean(MonthsOfYear(rec[p], y))
  {
    YearlyEntries(rec, start, end);
    YearRecordEntries(rec, y, p);
  }

  /**
    The precipitation total pairs the i-th observed month with the i-th entry of
    the days table, whichever months are missing: when all observed months hold
    `c` the total is `c` times the first `n` table entries, `n` the number of
    observed months.
  */
  lemma PositionalWeights(series: Series, year: int, c: real)
    requires forall m :: 1 <= m <= 12 && Observed(series, year, m).Some? ==> Observed(series, year, m) == Some(c)
    ensures WeightedSum(MonthsOfYear(series, year), DAYS_PER_MONTH) ==
      c * Sum(DAYS_PER_MONTH[..|MonthsOfYear(series, year)|])
  {
    var vals := MonthsOfYear(series, year);
    MonthsOfYearFull(series, year);
    MonthsUpToValues(series, year, 12);
    assert forall v :: v in vals ==> v == c;
    WeightedSumOfConstant(vals, DAYS_PER_MONTH, c);
  }

  /**
    With February missing and every other month at `c` mm/day, the yearly total
    is `334.25 * c`: March..December are weighted by the February..November
    entries. Weighting each month by its own days would give `337 * c`.
  */
  lemma FebruaryGapShiftsWeights(series: Series, year: int, c: real)
    requires Observed(series, year, 2).None?
    requires forall m :: 1 <= m <= 12 && m != 2 ==> Observed(series, year, m) == Some(c)
    ensures WeightedSum(MonthsOfYear(series, year), DAYS_PER_MONTH) == 334.25 * c
    ensures Sum(DAYS_PER_MONTH) - DAYS_PER_MONTH[1] == 337.0
  {
    MonthsWithOneGap(series, year, 2, 12);
    PositionalWeights(series, year, c);
    DaysPerMonthTotal();
    SumLast(DAYS_PER_MONTH);
    assert DAYS_PER_MONTH[..12][..11] == DAYS_PER_MONTH[..11];
  }

  /** The loop over `PARAMETERS` building one `year_record`. */
  method BuildYearRecord(rec: RawRecord, year: int) returns (yearRecord: map<string, real>)
    ensures yearRecord == YearRecord(rec, year)
  {
    yearRecord := map[];
    var i := 0;
    while i < |PARAMETERS|
      invariant 0 <= i <= |PARAMETERS|
      invariant yearRecord == YearRecordOver(rec, year, PARAMETERS[..i])
    {
      var param := PARAMETERS[i];
      assert PARAMETERS[..i + 1][..i] == PARAMETERS[..i];
      if param in rec {
        var vals := CollectYear(rec[param], year);
        if vals != [] {
          if param == PRECIP {
            yearRecord := yearRecord[TotalKey(param) := WeightedSum(vals, DAYS_PER_MONTH)];
          }
          yearRecord := yearRecord[MeanKey(param) := Sum(vals) / (|vals| as real)];
        }
      }
      i := i + 1;
    }
    assert PARAMETERS[..|PARAMETERS|] == PARAMETERS;
  }

  /** The loop over the years building `yearly_data`. */
  method BuildYearly(rec: RawRecord, start: int, end: int) returns (yearly: map<string, map<string, real>>)
    ensures yearly == Yearly(rec, start, end)
  {
    yearly := map[];
    var year := start;
    while year <= end
      invariant start <= year && (year <= end + 1 || year == start)
      invariant yearly == Yearly(rec, start, year - 1)
      decreases end - year
    {
      var yearRecord := BuildYearRecord(rec, year);
      yearly := yearly[IntToString(year) := yearRecord];
      year := year + 1;
    }
  }
}
