/** The backend's two pure calculations: POST /calculate-bill and POST /detect-anomalies. */
module Billing {
  import opened Wrappers
  import opened Http
  import opened Decimal

  /** Price per kWh. */
  const RATE: real := 0.15

  const USAGE_REQUIRED: string := "Valid usage value is required"
  const HISTORY_REQUIRED: string := "Valid usageHistory array is required"
  const BILL_MESSAGE_PREFIX: string := "Bill calculated for "
  const BILL_MESSAGE_SUFFIX: string := " kWh"

  /** The `usage` field of the request: absent (or `null`), an integer-valued number, or a value for
      which `isNaN` holds. */
  datatype UsageInput = Missing | Number(kwh: int) | NotANumber

  datatype Bill = Bill(usage: int, amount: real, rate: real, message: string)

  /** The guard `!usage || isNaN(usage)`: a missing value, zero and anything non-numeric are refused. */
  predicate ValidUsage(input: UsageInput) {
    input.Number? && input.kwh != 0
  }

  function CalculateBill(input: UsageInput): (r: Response<Bill>)
    ensures r.Error? <==> !ValidUsage(input)
    ensures r.Error? ==> r == Error(BAD_REQUEST, USAGE_REQUIRED)
    ensures r.Ok? ==> r.body.usage == input.kwh && r.body.rate == RATE
    ensures r.Ok? ==> r.body.amount == r.body.usage as real * r.body.rate
    ensures r.Ok? ==> r.body.amount * 100.0 == (15 * r.body.usage) as real  // whole cents: rounding to 2 decimals is exact
  {
    if !ValidUsage(input) then Error(BAD_REQUEST, USAGE_REQUIRED)
    else
      var amount := input.kwh as real * RATE;
      Ok(Bill(input.kwh, amount, RATE, BILL_MESSAGE_PREFIX + IntToString(input.kwh) + BILL_MESSAGE_SUFFIX))
  }

  /** The message names the billed usage: reading a number back from it gives the usage. */
  lemma BillMessageNamesUsage(input: UsageInput)
    requires ValidUsage(input)
    ensures var m := CalculateBill(input).body.message;
            |m| > |BILL_MESSAGE_PREFIX| && m[..|BILL_MESSAGE_PREFIX|] == BILL_MESSAGE_PREFIX &&
            ParseInt(m[|BILL_MESSAGE_PREFIX|..]) == Some(input.kwh)
  {
    var m := CalculateBill(input).body.message;
    assert m[|BILL_MESSAGE_PREFIX|..] == IntToString(input.kwh) + BILL_MESSAGE_SUFFIX;
    ParseIntOfIntToString(input.kwh, BILL_MESSAGE_SUFFIX);
  }

  /** 350 kWh is billed 52.50 with the message "Bill calculated for 350 kWh". */
  lemma BillFor350()
    ensures CalculateBill(Number(350)) == Ok(Bill(350, 52.5, 0.15, "Bill calculated for 350 kWh"))
  {
    assert NatToString(3) == "3";
    assert NatToString(35) == "35";
    assert NatToString(350) == "350";
    assert IntToString(350) == "350";
    assert BILL_MESSAGE_PREFIX + "350" + BILL_MESSAGE_SUFFIX == "Bill calculated for 350 kWh";
    assert 350 as real * RATE == 52.5;
  }

  // ----- anomaly detection -----

  /** `usageHistory.reduce((a, b) => a + b, 0)` */
  function Sum(s: seq<int>): int {
    if s == [] then 0 else Sum(s[..|s| - 1]) + s[|s| - 1]
  }

  function Mean(s: seq<int>): real
    requires |s| > 0
  {
    Sum(s) as real / |s| as real
  }

  /** The message chosen by the anomaly flag; the anomalous text embeds `percentageChange` formatted
      with two decimals, which the model keeps as the exact value. */
  datatype AnomalyMessage = UsagePatternsNormal | HighUsageDetected(percentAboveAverage: Option<real>)

  /** `percentageChange` is `None` where JavaScript divides by a zero average (Infinity or NaN,
      which JSON renders as `null`). */
  datatype AnomalyReport = AnomalyReport(
    isAnomaly: bool,
    averageUsage: real,
    latestUsage: int,
    percentageChange: Option<real>,
    message: AnomalyMessage)

  /** `usageHistory` is `None` when the field is missing or not an array. */
  function DetectAnomalies(usageHistory: Option<seq<int>>): (r: Response<AnomalyReport>)
    ensures r.Error? <==> usageHistory.None? || |usageHistory.value| == 0
    ensures r.Error? ==> r == Error(BAD_REQUEST, HISTORY_REQUIRED)
    ensures r.Ok? ==> var h := usageHistory.value;
              r.body.latestUsage == h[|h| - 1] && r.body.averageUsage == Mean(h) &&
              (r.body.isAnomaly <==> r.body.latestUsage as real > r.body.averageUsage * 1.5)
    ensures r.Ok? ==> (r.body.message == UsagePatternsNormal <==> !r.body.isAnomaly)
    ensures r.Ok? ==> (r.body.percentageChange.None? <==> r.body.averageUsage == 0.0)
    ensures r.Ok? && r.body.averageUsage != 0.0 ==>
              r.body.percentageChange == Some((r.body.latestUsage as real - r.body.averageUsage) / r.body.averageUsage * 100.0)
    ensures r.Ok? && r.body.isAnomaly ==> r.body.message == HighUsageDetected(r.body.percentageChange)
  {
    if usageHistory.None? || |usageHistory.value| == 0 then Error(BAD_REQUEST, HISTORY_REQUIRED)
    else
      var h := usageHistory.value;
      var average := Mean(h);
      var latest := h[|h| - 1];
      var isAnomaly := latest as real > average * 1.5;
      var change := if average == 0.0 then None else Some((latest as real - average) / average * 100.0);
      Ok(AnomalyReport(isAnomaly, average, latest, change,
                       if isAnomaly then HighUsageDetected(change) else UsagePatternsNormal))
  }

  /** `x > m * 1.5` is `2 * n * x > 3 * s` when `m` is the mean `s / n` of a positive count `n`. */
  lemma ScaledComparison(x: real, m: real, s: real, n: real)
    requires n > 0.0 && m == s / n
    ensures x > m * 1.5 <==> 2.0 * n * x > 3.0 * s
  {
    assert m * n == s;
    if x > m * 1.5 {
      assert x * n > m * 1.5 * n;
    } else {
      assert x * n <= m * 1.5 * n;
    }
  }

  /** Comparing the integer products is comparing them as reals. */
  lemma IntegerComparisonAsReal(n: int, x: int, s: int)
    ensures 2 * n * x > 3 * s <==> 2.0 * (n as real) * (x as real) > 3.0 * (s as real)
  {
    assert (2 * n * x) as real == 2.0 * (n as real) * (x as real);
    assert (3 * s) as real == 3.0 * (s as real);
  }

  /** `x > (s / n) * 1.5` over reals is `2 * n * x > 3 * s` over integers, for a positive count `n`. */
  lemma MeanComparisonAsInteger(x: int, s: int, n: int)
    requires n > 0
    ensures x as real > (s as real / n as real) * 1.5 <==> 2 * n * x > 3 * s
  {
    ScaledComparison(x as real, s as real / n as real, s as real, n as real);
    IntegerComparisonAsReal(n, x, s);
  }

  /** Over integers the flag is `2 * n * latest > 3 * sum`. */
  lemma AnomalyIntegerCriterion(h: seq<int>)
    requires |h| > 0
    ensures DetectAnomalies(Some(h)).body.isAnomaly <==> 2 * |h| * h[|h| - 1] > 3 * Sum(h)
  {
    MeanComparisonAsInteger(h[|h| - 1], Sum(h), |h|);
  }

  /** A single reading is its own average, so it is flagged exactly when it is negative; a single
      non-negative reading never is. */
  lemma SingleReadingFlaggedIffNegative(x: int)
    ensures DetectAnomalies(Some([x])).body.isAnomaly <==> x < 0
  {
    assert [x][..0] == [];
    AnomalyIntegerCriterion([x]);
  }

  lemma {:induction false} SumOfSteady(h: seq<int>, x: int)
    requires forall i :: 0 <= i < |h| ==> h[i] == x
    ensures Sum(h) == |h| * x
  {
    if h != [] {
      SumOfSteady(h[..|h| - 1], x);
    }
  }

  /** A history whose readings are all the same non-negative value is never flagged. */
  lemma SteadyHistoryIsNormal(h: seq<int>, x: int)
    requires |h| > 0 && x >= 0
    requires forall i :: 0 <= i < |h| ==> h[i] == x
    ensures !DetectAnomalies(Some(h)).body.isAnomaly
  {
    SumOfSteady(h, x);
    AnomalyIntegerCriterion(h);
    assert 2 * |h| * x <= 3 * (|h| * x);
  }

  /** With a positive average `a`, `(l - a) / a * 100 > 50` is `l > a * 1.5`. */
  lemma PercentComparison(l: real, a: real)
    requires a > 0.0
    ensures (l - a) / a * 100.0 > 50.0 <==> l > a * 1.5
  {
    var q := (l - a) / a;
    assert q * a == l - a;
    if q * 100.0 > 50.0 {
      assert q > 0.5;
      assert q * a > 0.5 * a;
    } else {
      assert q <= 0.5;
      assert q * a <= 0.5 * a;
    }
  }

  /** With a positive average, anomalous means more than 50 percent above the average. */
  lemma AnomalyIffOverFiftyPercent(h: seq<int>)
    requires |h| > 0 && Mean(h) > 0.0
    ensures var r := DetectAnomalies(Some(h)).body;
            r.percentageChange.Some? && (r.isAnomaly <==> r.percentageChange.value > 50.0)
  {
    var r := DetectAnomalies(Some(h)).body;
    var a := Mean(h);
    var l := h[|h| - 1] as real;
    assert r.percentageChange == Some((l - a) / a * 100.0);
    assert r.isAnomaly <==> l > a * 1.5;
    PercentComparison(l, a);
  }
}
