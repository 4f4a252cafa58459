/** `get_company_metrics`: the heuristic accounts-payable figures derived from a
    company's employee count and industry. Arithmetic is over exact reals: the
    literal 1.8 is exactly 9/5 and 1.2 exactly 6/5. */
module Metrics {
  import opened Text

  datatype CompanyMetrics = CompanyMetrics(
    processingTime: int,       // days to process an invoice
    costPerInvoice: real,      // dollars
    firstTimeMatchRate: int,   // percent
    efficiencyScore: int,      // percent
    annualSavings: int)        // dollars

  /** Python's int() on a float: truncation toward zero. */
  function Trunc(x: real): (n: int)
    ensures x >= 0.0 ==> n == x.Floor
    ensures x >= 0.0 ==> n as real <= x < n as real + 1.0
    ensures x <= 0.0 ==> x <= n as real < x + 1.0 && n <= 0
  {
    if x >= 0.0 then x.Floor else -((-x).Floor)
  }

  /** Processing time in days, tiered by company size. */
  function ProcessingTime(employees: int): (days: int)
    ensures days in {10, 15, 21}
  {
    if employees < 50 then 21
    else if employees < 250 then 15
    else 10
  }

  /** Cost of one invoice: 1.8 dollars per processing day plus 5, and a fifth more
      for financial companies. */
  function CostPerInvoice(days: int, financial: bool): (cost: real)
    ensures days >= 10 ==> cost >= 23.0
    ensures days > 0 ==> cost > 5.0
    ensures financial ==> cost == (days as real * 1.8 + 5.0) * 1.2
    ensures !financial ==> cost == days as real * 1.8 + 5.0
  {
    var cost := days as real * 1.8 + 5.0;
    if financial then cost * 1.2 else cost
  }

  /** First-time match rate by industry (lower-cased): manufacturing first, then tech. */
  function MatchRate(industry: string): (rate: int)
    ensures rate in {35, 50, 65}
  {
    if Contains(industry, "manufacturing") then 35
    else if Contains(industry, "tech") then 65
    else 50
  }

  /** The weighted score before truncation. */
  function RawScore(days: int, cost: real, rate: int): real
    requires days > 0 && cost > 0.0
  {
    5.0 / days as real * 40.0 + 12.0 / cost * 40.0 + rate as real / 85.0 * 20.0
  }

  /** Efficiency score: the weighted score truncated to an integer and capped at 95. */
  function EfficiencyScore(days: int, cost: real, rate: int): (score: int)
    requires days > 0 && cost > 0.0
    ensures score <= 95
    ensures rate >= 0 ==> score >= 0
  {
    var raw := RawScore(days, cost, rate);
    assert rate >= 0 ==> raw >= 0.0;
    if Trunc(raw) < 95 then Trunc(raw) else 95
  }

  /** Annual savings: 20 invoices per employee per month for 12 months, each
      saving its cost above the optimised 5 dollars. */
  function AnnualSavings(employees: int, cost: real): (savings: int)
    ensures var exact := (employees * 240) as real * (cost - 5.0);
      && (exact >= 0.0 ==> 0 <= savings && savings as real <= exact < savings as real + 1.0)
      && (exact <= 0.0 ==> savings <= 0 && exact <= savings as real < exact + 1.0)
    ensures employees >= 0 && cost >= 23.0 ==> savings >= 4320 * employees
  {
    var invoices := (employees * 240) as real;
    SignOfProduct(invoices, cost - 23.0);
    assert invoices * (cost - 5.0) == invoices * (cost - 23.0) + (4320 * employees) as real;
    Trunc((employees * 20 * 12) as real * (cost - 5.0))
  }

  /** A product of two non-negative reals is non-negative. */
  lemma SignOfProduct(a: real, b: real)
    ensures a >= 0.0 && b >= 0.0 ==> a * b >= 0.0
  {
  }

  /** `get_company_metrics`. */
  function CompanyMetricsOf(employees: int, industry: string): (m: CompanyMetrics)
    ensures m.processingTime in {10, 15, 21}
    ensures m.costPerInvoice >= 23.0
    ensures m.firstTimeMatchRate in {35, 50, 65}
    ensures 27 <= m.efficiencyScore <= 56
    ensures employees >= 0 ==> m.annualSavings >= 4320 * employees
  {
    var lowered := Lower(industry);
    var days := ProcessingTime(employees);
    var financial := Contains(lowered, "financial");
    var cost := CostPerInvoice(days, financial);
    var rate := MatchRate(lowered);
    ScoreTable(days, financial, rate);
    AnnualSavingsBounds(employees, days, financial);
    CompanyMetrics(days, cost, rate, EfficiencyScore(days, cost, rate), AnnualSavings(employees, cost))
  }

  /** The score for every combination of tier, financial surcharge and match rate
      lies between 27 and 56, so the cap at 95 never applies; it reaches 50 only
      in the fastest tier, and there only for a 65% match rate or, without the
      financial surcharge, a 50% one. */
  lemma ScoreTable(days: int, financial: bool, rate: int)
    requires days in {10, 15, 21} && rate in {35, 50, 65}
    ensures var score := EfficiencyScore(days, CostPerInvoice(days, financial), rate);
      && 27 <= score <= 56
      && (score >= 50 <==> days == 10 && (rate == 65 || (rate == 50 && !financial)))
  {
  }

  /** Annual savings per employee: at least 4320 dollars (the fastest tier without
      surcharge) and exactly 240 times the per-invoice saving; the product is a
      whole number in every case except the slowest tier with the surcharge. */
  lemma AnnualSavingsBounds(employees: int, days: int, financial: bool)
    requires days in {10, 15, 21}
    ensures var s := AnnualSavings(employees, CostPerInvoice(days, financial));
      && (employees >= 0 ==> 4320 * employees <= s)
      && (employees >= 0 ==> s as real <= 11126.4 * employees as real)
      && (employees <= 0 ==> s <= 0)
      && (!(days == 21 && financial) ==> s == employees * PerEmployeeSaving(days, financial))
  {
    var cost := CostPerInvoice(days, financial);
    var x := (employees * 20 * 12) as real * (cost - 5.0);
    if days == 21 {
      if financial {
        assert x == 11126.4 * employees as real;
      } else {
        assert x == (9072 * employees) as real;
      }
    } else if days == 15 {
      if financial { assert x == (8016 * employees) as real; } else { assert x == (6480 * employees) as real; }
    } else {
      if financial { assert x == (5424 * employees) as real; } else { assert x == (4320 * employees) as real; }
    }
  }

  /** The yearly saving per employee when it is a whole number of dollars. */
  function PerEmployeeSaving(days: int, financial: bool): int {
    if days == 21 then 9072
    else if days == 15 then (if financial then 8016 else 6480)
    else (if financial then 5424 else 4320)
  }

  /** The tier boundaries: 49 and 50, 249 and 250 employees fall on either side. */
  lemma TierBoundaries()
    ensures ProcessingTime(49) == 21 && ProcessingTime(50) == 15
    ensures ProcessingTime(249) == 15 && ProcessingTime(250) == 10
  {
  }

  /** A larger company never takes longer to process an invoice. */
  lemma ProcessingTimeMonotone(a: int, b: int)
    requires a <= b
    ensures ProcessingTime(b) <= ProcessingTime(a)
  {
  }

  /** Industry matching is case-insensitive substring search, and "manufacturing"
      takes precedence over "tech". */
  lemma MatchRateByIndustry(employees: int, industry: string)
    ensures var rate := CompanyMetricsOf(employees, industry).firstTimeMatchRate;
      && (rate == 35 <==> ContainsIgnoringCase(industry, "manufacturing"))
      && (rate == 65 <==> !ContainsIgnoringCase(industry, "manufacturing") && ContainsIgnoringCase(industry, "tech"))
      && (rate == 50 <==> !ContainsIgnoringCase(industry, "manufacturing") && !ContainsIgnoringCase(industry, "tech"))
  {
    ContainsLowerIff(industry, "manufacturing");
    ContainsLowerIff(industry, "tech");
  }

  /** The surcharge applies exactly when "financial" occurs in the industry,
      ignoring case. */
  lemma CostByIndustry(employees: int, industry: string)
    ensures var m := CompanyMetricsOf(employees, industry);
      && (m.costPerInvoice == (m.processingTime as real * 1.8 + 5.0) * 1.2 <==> ContainsIgnoringCase(industry, "financial"))
      && (m.costPerInvoice == m.processingTime as real * 1.8 + 5.0 <==> !ContainsIgnoringCase(industry, "financial"))
  {
    ContainsLowerIff(industry, "financial");
  }

  /** The metrics depend on the industry only up to letter case. */
  lemma MetricsIgnoreCase(employees: int, s: string, t: string)
    requires EqualIgnoringCase(s, t)
    ensures CompanyMetricsOf(employees, s) == CompanyMetricsOf(employees, t)
  {
    LowerIgnoresCase(s, t);
  }

  /** An industry without the letter c matches none of "financial",
      "manufacturing" and "tech", so it is treated as a general company. */
  lemma IndustryWithoutC(employees: int, industry: string)
    requires 'c' !in Lower(industry)
    ensures var m := CompanyMetricsOf(employees, industry);
      m.firstTimeMatchRate == 50 && m.costPerInvoice == m.processingTime as real * 1.8 + 5.0
  {
    var l := Lower(industry);
    AbsentCharBlocks(l, "financial", 5);
    AbsentCharBlocks(l, "manufacturing", 6);
    AbsentCharBlocks(l, "tech", 2);
  }

  /** A company of 100 employees in manufacturing: 15 days, 32 dollars per invoice,
      a 35% match rate, a score of 36 and 648,000 dollars of annual savings. */
  lemma ManufacturingExample()
    ensures CompanyMetricsOf(100, "Manufacturing") == CompanyMetrics(15, 32.0, 35, 36, 648000)
  {
    var l := Lower("Manufacturing");
    assert Occurs(l, "manufacturing", 0);
    AbsentCharBlocks(l, "financial", 8);
    assert MatchRate(l) == 35;
    assert CostPerInvoice(15, false) == 32.0;
    var raw := RawScore(15, 32.0, 35);
    assert 36.0 <= raw < 37.0;
    assert EfficiencyScore(15, 32.0, 35) == 36;
    assert AnnualSavings(100, 32.0) == 648000;
  }
}
