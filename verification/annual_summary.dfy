/**
  The `annual_summary` section: per parameter, statistics over the years in
  which all twelve months were observed. A full year contributes the
  day-weighted total for precipitation and the mean of its twelve months for
  every other parameter.
*/
module AnnualSummary {
  import opened Wrappers
  import opened Stats
  import opened PeriodKeys
  import opened ClimateRecords

  /** `{"mean", "min", "max", "std"}`, with `std` kept as its variance. */
  datatype SummaryStats = SummaryStats(mean: real, min: real, max: real, variance: real)

  function SummaryOf(values: seq<real>): (st: SummaryStats)
    requires values != []
    ensures st.min in values && st.max in values
    ensures forall x :: x in values ==> st.min <= x <= st.max
    ensures st.min <= st.mean <= st.max
    ensures st.variance >= 0.0
  {
    MeanWithinMinMax(values);
    SummaryStats(Mean(values), Min(values), Max(values), Variance(values))
  }

  /**
    What one full year contributes: `sum(v * d for v, d in zip(year_vals, days))`
    for precipitation (mm/day to mm/year), `sum(year_vals) / 12` otherwise.
  */
  function YearValue(param: string, yearVals: seq<real>): real
  {
    if param == PRECIP then WeightedSum(yearVals, DAYS_PER_MONTH) else Sum(yearVals) / 12.0
  }

  /** The `yearly_means` list: one value per full year of `start..end`, in year order. */
  function FullYearValues(param: string, series: Series, start: int, end: int): seq<real>
    decreases end - start
  {
    if end < start then []
    else
      var yearVals := MonthsOfYear(series, end);
      FullYearValues(param, series, start, end - 1) + (if |yearVals| == 12 then [YearValue(param, yearVals)] else [])
  }

  /** The years of `start..end` with all twelve months observed. */
  function FullYears(series: Series, start: int, end: int): set<int>
  {
    set y | start <= y <= end && FullYear(series, y)
  }

  /** The key of a parameter in the annual summary. */
  function AnnualLabel(param: string): string
  {
    if param == PRECIP then param + "_annual_total_mm" else param + "_annual_mean"
  }

  /** `annual` after the parameters `ps` have been visited. */
  function AnnualOver(rec: RawRecord, start: int, end: int, ps: seq<string>): map<string, SummaryStats>
  {
    if ps == [] then map[]
    else
      var acc := AnnualOver(rec, start, end, ps[..|ps| - 1]);
      var p := ps[|ps| - 1];
      if p in rec && FullYearValues(p, rec[p], start, end) != [] then
        acc[AnnualLabel(p) := SummaryOf(FullYearValues(p, rec[p], start, end))]
      else acc
  }

  function Annual(rec: RawRecord, start: int, end: int): map<string, SummaryStats>
  {
    AnnualOver(rec, start, end, PARAMETERS)
  }

  /** The days-per-month table totals 365.25 days. */
  lemma DaysPerMonthTotal()
    ensures Sum(DAYS_PER_MONTH) == 365.25
  {
    var d := DAYS_PER_MONTH;
    assert Sum(d[11..]) == 31.0;
    assert Sum(d[10..]) == 61.0;
    assert Sum(d[9..]) == 92.0;
    assert Sum(d[8..]) == 122.0;
    assert Sum(d[7..]) == 153.0;
    assert Sum(d[6..]) == 184.0;
    assert Sum(d[5..]) == 214.0;
    assert Sum(d[4..]) == 245.0;
    assert Sum(d[3..]) == 275.0;
    assert Sum(d[2..]) == 306.0;
    assert Sum(d[1..]) == 334.25;
  }

  /** Different parameters get different annual labels. */
  lemma AnnualLabelInjective(p: string, q: string)
    requires AnnualLabel(p) == AnnualLabel(q)
    ensures p == q
  {
    LabelLastChar(p);
    LabelLastChar(q);
    if p != PRECIP && q != PRECIP {
      SuffixCancel(p, q, "_annual_mean");
    }
  }

  /** The total label ends in 'm' ("..._mm"), the mean label in 'n' ("..._mean"). */
  lemma LabelLastChar(p: string)
    ensures AnnualLabel(p) != []
    ensures AnnualLabel(p)[|AnnualLabel(p)| - 1] == if p == PRECIP then 'm' else 'n'
  {
    if p == PRECIP {
      assert AnnualLabel(p) == p + "_annual_total_mm";
    } else {
      assert AnnualLabel(p) == p + "_annual_mean";
    }
  }

  /**
    One value is collected per full year: the list is as long as the set of
    full years, at most the number of years in range.
  */
  lemma {:induction false} FullYearValuesCount(param: string, series: Series, start: int, end: int)
    ensures |FullYearValues(param, series, start, end)| == |FullYears(series, start, end)|
    ensures |FullYearValues(param, series, start, end)| <= if end < start then 0 else end - start + 1
    decreases end - start
  {
    var years := FullYears(series, start, end);
    if end < start {
      assert years == {};
    } else {
      FullYearValuesCount(param, series, start, end - 1);
      MonthsOfYearFull(series, end);
      var prev := FullYears(series, start, end - 1);
      if FullYear(series, end) {
        assert years == prev + {end};
        assert end !in prev;
      } else {
        assert years == prev;
      }
    }
  }

  /**
    The collected values are exactly the contributions of the full years: each
    comes from some full year in range, and every full year contributes.
  */
  lemma {:induction false} FullYearValuesMembers(param: string, series: Series, start: int, end: int)
    ensures forall v :: v in FullYearValues(param, series, start, end) ==>
      exists y :: start <= y <= end && FullYear(series, y) && v == YearValue(param, MonthsOfYear(series, y))
    ensures forall y :: start <= y <= end && FullYear(series, y) ==>
      YearValue(param, MonthsOfYear(series, y)) in FullYearValues(param, series, start, end)
    decreases end - start
  {
    if end >= start {
      FullYearValuesMembers(param, series, start, end - 1);
      MonthsOfYearFull(series, end);
    }
  }

  /** A year with a month missing contributes nothing, whatever its other months hold. */
  lemma PartialYearExcluded(param: string, series: Series, start: int, end: int, y: int, m: int)
    requires 1 <= m <= 12
    requires Observed(series, y, m).None?
    ensures y !in FullYears(series, start, end)
  {
  }

  /**
    The contribution of a full year: its twelve values, weighted by the
    days-per-month table for precipitation and averaged for the others.
  */
  lemma FullYearValue(param: string, series: Series, y: int)
    requires FullYear(series, y)
    ensures |MonthsOfYear(series, y)| == 12
    ensures param != PRECIP ==> YearValue(param, MonthsOfYear(series, y)) == Mean(MonthsOfYear(series, y))
    ensures param == PRECIP ==> YearValue(param, MonthsOfYear(series, y)) == WeightedSum(MonthsOfYear(series, y), DAYS_PER_MONTH)
  {
    MonthsOfYearFull(series, y);
  }

  /**
    A full year of constant precipitation `c` mm/day totals `365.25 * c` mm;
    1.0 mm/day gives 365.25 mm.
  */
  lemma ConstantPrecipYear(series: Series, y: int, c: real)
    requires forall m :: 1 <= m <= 12 ==> Observed(series, y, m) == Some(c)
    ensures FullYear(series, y)
    ensures YearValue(PRECIP, MonthsOfYear(series, y)) == 365.25 * c
  {
    var vals := MonthsOfYear(series, y);
    MonthsOfYearFull(series, y);
    MonthsUpToValues(series, y, 12);
    assert forall v :: v in vals ==> v == c;
    WeightedSumOfConstant(vals, DAYS_PER_MONTH, c);
    assert DAYS_PER_MONTH[..12] == DAYS_PER_MONTH;
    DaysPerMonthTotal();
  }

  lemma {:induction false} AnnualOverSpec(rec: RawRecord, start: int, end: int, ps: seq<string>, p: string)
    ensures AnnualLabel(p) in AnnualOver(rec, start, end, ps) <==>
      p in ps && p in rec && FullYearValues(p, rec[p], start, end) != []
    ensures AnnualLabel(p) in AnnualOver(rec, start, end, ps) ==>
      AnnualOver(rec, start, end, ps)[AnnualLabel(p)] == SummaryOf(FullYearValues(p, rec[p], start, end))
  {
    if ps != [] {
      AnnualOverSpec(rec, start, end, ps[..|ps| - 1], p);
      var q := ps[|ps| - 1];
      assert p in ps <==> p in ps[..|ps| - 1] || p == q;
      if AnnualLabel(q) == AnnualLabel(p) {
        AnnualLabelInjective(q, p);
      }
    }
  }

  lemma {:induction false} AnnualOverKeys(rec: RawRecord, start: int, end: int, ps: seq<string>)
    ensures forall k :: k in AnnualOver(rec, start, end, ps) ==> exists p :: p in ps && k == AnnualLabel(p)
  {
    if ps != [] {
      AnnualOverKeys(rec, start, end, ps[..|ps| - 1]);
      assert forall p :: p in ps[..|ps| - 1] ==> p in ps;
      assert ps[|ps| - 1] in ps;
    }
  }

  /** Some value is collected for a parameter exactly when some year in range is full. */
  lemma {:induction false} FullYearValuesNonEmpty(param: string, series: Series, start: int, end: int)
    ensures FullYearValues(param, series, start, end) != [] <==>
      exists y :: start <= y <= end && FullYear(series, y)
    decreases end - start
  {
    if end >= start {
      FullYearValuesNonEmpty(param, series, start, end - 1);
      MonthsOfYearFull(series, end);
      if !FullYear(series, end) {
        assert forall y :: start <= y <= end && FullYear(series, y) ==> y <= end - 1;
      }
    }
  }

  /**
    A parameter has an entry in the annual summary, under its label, exactly
    when the record has it and at least one year in range is full for it.
  */
  lemma AnnualEntry(rec: RawRecord, start: int, end: int, p: string)
    requires p in PARAMETERS
    ensures AnnualLabel(p) in Annual(rec, start, end) <==>
      p in rec && exists y :: start <= y <= end && FullYear(rec[p], y)
  {
    AnnualOverSpec(rec, start, end, PARAMETERS, p);
    if p in rec {
      FullYearValuesNonEmpty(p, rec[p], start, end);
    }
  }

  /** The statistics under a parameter's label are those of its full-year values. */
  lemma AnnualStats(rec: RawRecord, start: int, end: int, p: string)
    requires AnnualLabel(p) in Annual(rec, start, end)
    ensures p in rec && FullYearValues(p, rec[p], start, end) != []
    ensures Annual(rec, start, end)[AnnualLabel(p)] == SummaryOf(FullYearValues(p, rec[p], start, end))
  {
    AnnualOverSpec(rec, start, end, PARAMETERS, p);
  }

  /** Every key of the annual summary is the label of a requested parameter. */
  lemma AnnualKeys(rec: RawRecord, start: int, end: int)
    ensures forall k :: k in Annual(rec, start, end) ==> exists q :: q in PARAMETERS && k == AnnualLabel(q)
  {
    AnnualOverKeys(rec, start, end, PARAMETERS);
  }

  /** The loop over the years of one parameter building `yearly_means`. */
  method CollectFullYearValues(param: string, series: Series, start: int, end: int) returns (yearlyMeans: seq<real>)
    ensures yearlyMeans == FullYearValues(param, series, start, end)
  {
    yearlyMeans := [];
    var year := start;
    while year <= end
      invariant start <= year && (year <= end + 1 || year == start)
      invariant yearlyMeans == FullYearValues(param, series, start, year - 1)
      decreases end - year
    {
      var yearVals := CollectYear(series, year);
      if |yearVals| == 12 {
        if param == PRECIP {
          var yearlyTotal := WeightedSum(yearVals, DAYS_PER_MONTH);
          yearlyMeans := yearlyMeans + [yearlyTotal];
        } else {
          yearlyMeans := yearlyMeans + [Sum(yearVals) / 12.0];
        }
      }
      year := year + 1;
    }
  }

  /** The loop over `PARAMETERS` building `annual`. */
  method BuildAnnual(rec: RawRecord, start: int, end: int) returns (annual: map<string, SummaryStats>)
    ensures annual == Annual(rec, start, end)
  {
    annual := map[];
    var i := 0;
    while i < |PARAMETERS|
      invariant 0 <= i <= |PARAMETERS|
      invariant annual == AnnualOver(rec, start, end, PARAMETERS[..i])
    {
      var param := PARAMETERS[i];
      assert PARAMETERS[..i + 1][..i] == PARAMETERS[..i];
      if param in rec {
        var yearlyMeans := CollectFullYearValues(param, rec[param], start, end);
        if yearlyMeans != [] {
          annual := annual[AnnualLabel(param) := SummaryOf(yearlyMeans)];
        }
      }
      i := i + 1;
    }
    assert PARAMETERS[..|PARAMETERS|] == PARAMETERS;
  }
}
