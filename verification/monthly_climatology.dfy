/**
  The `monthly_climatology` section: for each of the twelve months, in calendar
  order, the statistics of every parameter over the years that observed it.
*/
module MonthlyClimatology {
  import opened Stats
  import opened ClimateRecords

  /** `{"mean", "min", "max", "std", "n_years"}`, with `std` kept as its variance. */
  datatype MonthStats = MonthStats(mean: real, min: real, max: real, variance: real, nYears: nat)

  /** A month name with the statistics of its parameters. */
  type MonthEntry = (string, map<string, MonthStats>)

  /** The statistics block of a non-empty list of values. */
  function StatsOf(values: seq<real>): (st: MonthStats)
    requires values != []
    ensures st.min in values && st.max in values
    ensures forall x :: x in values ==> st.min <= x <= st.max
    ensures st.min <= st.mean <= st.max
    ensures st.variance >= 0.0
    ensures st.nYears == |values|
    ensures Constant(values) ==> st.variance == 0.0 && st.min == st.mean == st.max
  {
    MeanWithinMinMax(values);
    ConstantSpread(values);
    MonthStats(Mean(values), Min(values), Max(values), Variance(values), |values|)
  }

  /** A constant list has no spread: its variance is 0. */
  lemma ConstantSpread(values: seq<real>)
    ensures Constant(values) ==> Variance(values) == 0.0
  {
    if Constant(values) {
      VarianceOfConstant(values);
    }
  }

  /**
    `month_values` after the parameters `ps` have been visited: a parameter is
    skipped when the record lacks it or when no year contributed a value.
  */
  function MonthParams(rec: RawRecord, month: int, start: int, end: int, ps: seq<string>): map<string, MonthStats>
    requires 1 <= month <= 12
  {
    if ps == [] then map[]
    else
      var acc := MonthParams(rec, month, start, end, ps[..|ps| - 1]);
      var p := ps[|ps| - 1];
      if p in rec && AcrossYears(rec[p], month, start, end) != [] then
        acc[p := StatsOf(AcrossYears(rec[p], month, start, end))]
      else acc
  }

  /** `monthly_clim`: the twelve month names in calendar order, each with its parameters. */
  function Climatology(rec: RawRecord, start: int, end: int): (c: seq<MonthEntry>)
    ensures |c| == 12
  {
    seq(12, i requires 0 <= i < 12 => (MONTH_NAMES[i], MonthParams(rec, i + 1, start, end, PARAMETERS)))
  }

  lemma {:induction false} MonthParamsSpec(rec: RawRecord, month: int, start: int, end: int, ps: seq<string>, p: string)
    requires 1 <= month <= 12
    ensures p in MonthParams(rec, month, start, end, ps) <==>
      p in ps && p in rec && AcrossYears(rec[p], month, start, end) != []
    ensures p in MonthParams(rec, month, start, end, ps) ==>
      MonthParams(rec, month, start, end, ps)[p] == StatsOf(AcrossYears(rec[p], month, start, end))
  {
    if ps != [] {
      MonthParamsSpec(rec, month, start, end, ps[..|ps| - 1], p);
      assert p in ps <==> p in ps[..|ps| - 1] || p == ps[|ps| - 1];
    }
  }

  /**
    The climatology lists the twelve month names in calendar order, and a
    parameter appears under a month exactly when the record has it and at least
    one year in range observed it.
  */
  lemma {:induction false} ClimatologyEntry(rec: RawRecord, start: int, end: int, month: int, p: string)
    requires 1 <= month <= 12
    ensures Climatology(rec, start, end)[month - 1].0 == MONTH_NAMES[month - 1]
    ensures p in Climatology(rec, start, end)[month - 1].1 <==>
      p in PARAMETERS && p in rec && exists y :: start <= y <= end && Observed(rec[p], y, month).Some?
  {
    var params := MonthParams(rec, month, start, end, PARAMETERS);
    assert Climatology(rec, start, end)[month - 1].1 == params;
    MonthParamsSpec(rec, month, start, end, PARAMETERS, p);
    if p in rec {
      AcrossYearsNonEmpty(rec[p], month, start, end);
    }
  }

  /**
    The statistics listed for a parameter under a month are those of its observed
    values, and `n_years` counts the years that contributed one, at most the
    number of years in range.
  */
  lemma {:induction false} ClimatologyStats(rec: RawRecord, start: int, end: int, month: int, p: string)
    requires 1 <= month <= 12
    requires p in Climatology(rec, start, end)[month - 1].1
    ensures p in rec && AcrossYears(rec[p], month, start, end) != []
    ensures Climatology(rec, start, end)[month - 1].1[p] == StatsOf(AcrossYears(rec[p], month, start, end))
    ensures Climatology(rec, start, end)[month - 1].1[p].nYears == |ContributingYears(rec[p], month, start, end)| <= end - start + 1
  {
    MonthParamsAt(rec, month, start, end, p);
    AcrossYearsCount(rec[p], month, start, end);
  }

  lemma MonthParamsAt(rec: RawRecord, month: int, start: int, end: int, p: string)
    requires 1 <= month <= 12
    requires p in MonthParams(rec, month, start, end, PARAMETERS)
    ensures p in rec && AcrossYears(rec[p], month, start, end) != []
    ensures MonthParams(rec, month, start, end, PARAMETERS)[p] == StatsOf(AcrossYears(rec[p], month, start, end))
  {
    MonthParamsSpec(rec, month, start, end, PARAMETERS, p);
  }

  /** The inner loop over `PARAMETERS` for one month. */
  method BuildMonth(rec: RawRecord, month: int, start: int, end: int) returns (monthValues: map<string, MonthStats>)
    requires 1 <= month <= 12
    ensures monthValues == MonthParams(rec, month, start, end, PARAMETERS)
  {
    monthValues := map[];
    var i := 0;
    while i < |PARAMETERS|
      invariant 0 <= i <= |PARAMETERS|
      invariant monthValues == MonthParams(rec, month, start, end, PARAMETERS[..i])
    {
      var param := PARAMETERS[i];
      assert PARAMETERS[..i + 1][..i] == PARAMETERS[..i];
      if param in rec {
        var values := CollectAcrossYears(rec[param], month, start, end);
        if values != [] {
          monthValues := monthValues[param := StatsOf(values)];
        }
      }
      i := i + 1;
    }
    assert PARAMETERS[..|PARAMETERS|] == PARAMETERS;
  }

  /** The loop over `MONTH_NAMES` building `monthly_clim`. */
  method BuildClimatology(rec: RawRecord, start: int, end: int) returns (clim: seq<MonthEntry>)
    ensures clim == Climatology(rec, start, end)
  {
    clim := [];
    var mIdx := 0;
    while mIdx < 12
      invariant 0 <= mIdx <= 12
      invariant clim == Climatology(rec, start, end)[..mIdx]
    {
      var monthValues := BuildMonth(rec, mIdx + 1, start, end);
      clim := clim + [(MONTH_NAMES[mIdx], monthValues)];
      mIdx := mIdx + 1;
    }
  }
}
