/**
  The raw monthly record of one zone as the NASA POWER monthly endpoint returns
  it: for each parameter code, a map from period key ("YYYYMM") to a reading.
  A reading is a number or JSON `null`; the number -999 is the API's fill value.
  This module holds the constants of the reduction and the filtered look-ups
  that every section of the climate profile is built from.
*/
module ClimateRecords {
  import opened Wrappers
  import opened PeriodKeys

  /** One stored value: JSON `null` or a number. */
  datatype Reading = Null | Num(v: real)

  /** Period key to reading, for one parameter. */
  type Series = map<string, Reading>

  /** Parameter code to its series (`api_response["properties"]["parameter"]`). */
  type RawRecord = map<string, Series>

  /** The fill value standing for "no data", also the default of a missing key. */
  const MISSING: real := -999.0

  const TEMP: string := "T2M"
  const PRECIP: string := "PRECTOTCORR"

  /** The parameters requested from the API, in the order they are processed. */
  const PARAMETERS: seq<string> :=
    ["T2M", "T2M_MAX", "T2M_MIN", "PRECTOTCORR", "T2M_RANGE", "RH2M", "WS2M", "ALLSKY_SFC_SW_DWN"]

  const MONTH_NAMES: seq<string> :=
    ["Jan", "Feb", "Mar", "Apr", "May", "Jun", "Jul", "Aug", "Sep", "Oct", "Nov", "Dec"]

  /** Days per month used to turn mm/day into mm/month; February averages leap years. */
  const DAYS_PER_MONTH: seq<real> :=
    [31.0, 28.25, 31.0, 30.0, 31.0, 30.0, 31.0, 31.0, 30.0, 31.0, 30.0, 31.0]

  /** Why a zone ends up with an error entry instead of a profile. */
  datatype Failure =
    | FetchError(message: string)  // the HTTP request or the JSON decoding failed
    | KeyMissing(key: string)      // `properties` or `parameter` absent from the response
    | NoneOperand                  // a JSON `null` reached `sum` in the temperature block

  /**
    The value of `month` in `year` that the climatology, annual and yearly
    sections use: `series.get(key, -999)` kept only when it is neither -999 nor
    `null`.
  */
  function Observed(series: Series, year: int, month: int): Option<real>
    requires 1 <= month <= 12
  {
    var key := PeriodKey(year, month);
    var val := if key in series then series[key] else Num(MISSING);
    if val != Num(MISSING) && val != Null then Some(val.v) else None
  }

  /** The `values` list: `month` over the years `start..end`, in year order. */
  function AcrossYears(series: Series, month: int, start: int, end: int): seq<real>
    requires 1 <= month <= 12
    decreases end - start
  {
    if end < start then [] else AcrossYears(series, month, start, end - 1) + Observed(series, end, month).ToSeq()
  }

  /** The years of `start..end` that contribute a value for `month`. */
  function ContributingYears(series: Series, month: int, start: int, end: int): set<int>
    requires 1 <= month <= 12
  {
    set y | start <= y <= end && Observed(series, y, month).Some?
  }

  /** The `year_vals` list: months `1..upTo` of `year`, in month order. */
  function MonthsUpTo(series: Series, year: int, upTo: int): (vals: seq<real>)
    requires 0 <= upTo <= 12
    ensures |vals| <= upTo
  {
    if upTo == 0 then [] else MonthsUpTo(series, year, upTo - 1) + Observed(series, year, upTo).ToSeq()
  }

  function MonthsOfYear(series: Series, year: int): (vals: seq<real>)
    ensures |vals| <= 12
  {
    MonthsUpTo(series, year, 12)
  }

  /** Every month of `year` is observed. */
  predicate FullYear(series: Series, year: int)
  {
    forall m :: 1 <= m <= 12 ==> Observed(series, year, m).Some?
  }

  /** The filter: what is kept is exactly a number stored under the period key that is not the fill value. */
  lemma ObservedFilter(series: Series, year: int, month: int)
    requires 1 <= month <= 12
    ensures Observed(series, year, month).Some? <==>
      PeriodKey(year, month) in series && series[PeriodKey(year, month)].Num? && series[PeriodKey(year, month)].v != MISSING
    ensures Observed(series, year, month).Some? ==> Observed(series, year, month).value == series[PeriodKey(year, month)].v
  {
  }

  /**
    One value is collected per contributing year, so there are as many values
    as such years and never more than the years in range.
  */
  lemma {:induction false} AcrossYearsCount(series: Series, month: int, start: int, end: int)
    requires 1 <= month <= 12
    ensures |AcrossYears(series, month, start, end)| == |ContributingYears(series, month, start, end)|
    ensures |AcrossYears(series, month, start, end)| <= if end < start then 0 else end - start + 1
    decreases end - start
  {
    var years := ContributingYears(series, month, start, end);
    if end < start {
      assert years == {};
    } else {
      AcrossYearsCount(series, month, start, end - 1);
      var prev := ContributingYears(series, month, start, end - 1);
      if Observed(series, end, month).Some? {
        assert years == prev + {end};
        assert end !in prev;
      } else {
        assert years == prev;
      }
    }
  }

  /**
    The collected values of a month are exactly the observations of the years in
    range: each is the observed value of some year, none is the fill value, and
    every observed value is among them.
  */
  lemma {:induction false} AcrossYearsMembers(series: Series, month: int, start: int, end: int)
    requires 1 <= month <= 12
    ensures forall v :: v in AcrossYears(series, month, start, end) ==> v != MISSING
    ensures forall v :: v in AcrossYears(series, month, start, end) ==>
      exists y :: start <= y <= end && Observed(series, y, month) == Some(v)
    ensures forall y :: start <= y <= end && Observed(series, y, month).Some? ==>
      Observed(series, y, month).value in AcrossYears(series, month, start, end)
    decreases end - start
  {
    if end >= start {
      AcrossYearsMembers(series, month, start, end - 1);
    }
  }

  /** Some value is collected for a month exactly when some year in range observed it. */
  lemma {:induction false} AcrossYearsNonEmpty(series: Series, month: int, start: int, end: int)
    requires 1 <= month <= 12
    ensures AcrossYears(series, month, start, end) != [] <==>
      exists y :: start <= y <= end && Observed(series, y, month).Some?
    decreases end - start
  {
    if end >= start {
      AcrossYearsNonEmpty(series, month, start, end - 1);
      if Observed(series, end, month).None? {
        assert forall y :: start <= y <= end && Observed(series, y, month).Some? ==> y <= end - 1;
      }
    }
  }

  /** `len(year_vals) == 12` exactly when every month of the year is observed. */
  lemma MonthsOfYearFull(series: Series, year: int)
    ensures |MonthsOfYear(series, year)| <= 12
    ensures |MonthsOfYear(series, year)| == 12 <==> FullYear(series, year)
  {
    MonthsUpToLength(series, year, 12);
  }

  lemma {:induction false} MonthsUpToLength(series: Series, year: int, upTo: int)
    requires 0 <= upTo <= 12
    ensures |MonthsUpTo(series, year, upTo)| <= upTo
    ensures |MonthsUpTo(series, year, upTo)| == upTo <==>
      forall m :: 1 <= m <= upTo ==> Observed(series, year, m).Some?
  {
    if upTo > 0 {
      MonthsUpToLength(series, year, upTo - 1);
    }
  }

  /** The collected months of a year are observed values, none of them the fill value. */
  lemma {:induction false} MonthsUpToValues(series: Series, year: int, upTo: int)
    requires 0 <= upTo <= 12
    ensures forall v :: v in MonthsUpTo(series, year, upTo) ==>
      exists m :: 1 <= m <= upTo && Observed(series, year, m) == Some(v)
    ensures forall v :: v in MonthsUpTo(series, year, upTo) ==> v != MISSING
  {
    if upTo > 0 {
      MonthsUpToValues(series, year, upTo - 1);
      assert forall v :: v in MonthsUpTo(series, year, upTo) ==>
        v in MonthsUpTo(series, year, upTo - 1) || Observed(series, year, upTo) == Some(v);
    }
  }

  /** With one month `gap` missing and all others observed, the year has eleven values. */
  lemma {:induction false} MonthsWithOneGap(series: Series, year: int, gap: int, upTo: int)
    requires 1 <= gap <= 12 && 0 <= upTo <= 12
    requires Observed(series, year, gap).None?
    requires forall m :: 1 <= m <= 12 && m != gap ==> Observed(series, year, m).Some?
    ensures |MonthsUpTo(series, year, upTo)| == if upTo >= gap then upTo - 1 else upTo
  {
    if upTo > 0 {
      MonthsWithOneGap(series, year, gap, upTo - 1);
    }
  }

  /**
    The loop `for year in range(start, end + 1)` collecting the observed values
    of `month`.
  */
  method CollectAcrossYears(series: Series, month: int, start: int, end: int) returns (values: seq<real>)
    requires 1 <= month <= 12
    ensures values == AcrossYears(series, month, start, end)
  {
    values := [];
    var year := start;
    while year <= end
      invariant start <= year && (year <= end + 1 || year == start)
      invariant values == AcrossYears(series, month, start, year - 1)
      decreases end - year
    {
      var key := PeriodKey(year, month);
      var val := if key in series then series[key] else Num(MISSING);
      if val != Num(MISSING) && val != Null {
        values := values + [val.v];
      }
      year := year + 1;
    }
  }

  /** The loop `for month in range(1, 13)` collecting the observed values of `year`. */
  method CollectYear(series: Series, year: int) returns (vals: seq<real>)
    ensures vals == MonthsOfYear(series, year)
  {
    vals := [];
    var month := 1;
    while month <= 12
      invariant 1 <= month <= 13
      invariant vals == MonthsUpTo(series, year, month - 1)
    {
      var key := PeriodKey(year, month);
      var val := if key in series then series[key] else Num(MISSING);
      if val != Num(MISSING) && val != Null {
        vals := vals + [val.v];
      }
      month := month + 1;
    }
  }
}
