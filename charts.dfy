/** The arithmetic the chart functions feed to the plotting library: the
    non-negative remainder wedge of a donut chart and the monthly saving shown
    beside the current and optimised monthly costs. The drawing itself is not
    part of this model. */
module Charts {
  import opened Metrics

  /** `max(0, hi - lo)`: how far `hi` lies above `lo`, and zero when it does not. */
  function Shortfall(hi: int, lo: int): (gap: int)
    ensures gap >= 0
    ensures lo + gap == if hi >= lo then hi else lo
  {
    if hi - lo > 0 then hi - lo else 0
  }

  /** The second wedge of a donut chart: what `value` lacks to reach `benchmark`.
      The two wedges together fill the larger of value and benchmark, so no wedge
      is ever negative. */
  function DonutRemainder(value: int, benchmark: int): (rest: int)
    ensures rest >= 0
    ensures value + rest == if value >= benchmark then value else benchmark
  {
    Shortfall(benchmark, value)
  }

  /** The monthly cost now and after optimisation: 20 invoices per employee at the
      current cost, and at 5 dollars, each truncated to whole dollars. */
  function MonthlyCosts(employees: int, cost: real): (costs: (int, int))
    ensures costs.1 == 100 * employees
    ensures var exact := (employees * 20) as real * cost;
      && (exact >= 0.0 ==> costs.0 as real <= exact < costs.0 as real + 1.0)
      && (exact <= 0.0 ==> exact <= costs.0 as real < exact + 1.0)
    ensures employees >= 0 && cost >= 5.0 ==> costs.0 >= costs.1
  {
    var invoices := (employees * 20) as real;
    SignOfProduct(invoices, cost - 5.0);
    assert invoices * cost == invoices * (cost - 5.0) + (100 * employees) as real;
    (Trunc((employees * 20) as real * cost), employees * 20 * 5)
  }

  /** The saving printed on the monthly chart, never negative. */
  function MonthlySavings(current: int, optimized: int): (saving: int)
    ensures saving >= 0
    ensures current >= optimized ==> optimized + saving == current
    ensures current <= optimized ==> saving == 0
  {
    Shortfall(current, optimized)
  }

  /** The monthly saving of a company's report: positive exactly when it has
      employees, and for a non-negative head count one twelfth of the annual
      savings up to truncation (twelve months of it fall short of the annual
      figure by less than 12 dollars). */
  lemma MonthlyAgreesWithAnnual(employees: int, industry: string)
    ensures var m := CompanyMetricsOf(employees, industry);
      var (current, optimized) := MonthlyCosts(employees, m.costPerInvoice);
      var saving := MonthlySavings(current, optimized);
      && (saving > 0 <==> employees > 0)
      && (employees >= 0 ==> 12 * saving <= m.annualSavings <= 12 * saving + 11)
  {
    MonthlyArithmetic(employees, CompanyMetricsOf(employees, industry).costPerInvoice);
  }

  /** MonthlyAgreesWithAnnual for any cost of at least 23 dollars. */
  lemma MonthlyArithmetic(employees: int, cost: real)
    requires cost >= 23.0
    ensures var (current, optimized) := MonthlyCosts(employees, cost);
      var saving := MonthlySavings(current, optimized);
      && (saving > 0 <==> employees > 0)
      && (employees >= 0 ==> 12 * saving <= AnnualSavings(employees, cost) <= 12 * saving + 11)
  {
    var x := MonthlyExcess(employees, cost);
    if employees > 0 {
      MonthlyOfPositive(employees, x, (employees * 20) as real * cost);
    } else if employees < 0 {
      MonthlyOfNegative(employees, x, (employees * 20) as real * cost);
    }
  }

  /** The part `x` of the monthly cost above the optimised cost: twelve of it make
      the annual savings before truncation, and it is at least 360 dollars per
      employee in size. */
  lemma MonthlyExcess(employees: int, cost: real) returns (x: real)
    requires cost >= 23.0
    ensures (employees * 20) as real * cost == x + (employees * 100) as real
    ensures (employees * 20 * 12) as real * (cost - 5.0) == 12.0 * x
    ensures employees > 0 ==> x >= 360.0
    ensures employees < 0 ==> x <= -360.0
  {
    var invoices := (employees * 20) as real;
    x := invoices * (cost - 5.0);
    assert x == invoices * (cost - 23.0) + 18.0 * invoices;
    if employees > 0 {
      SignOfProduct(invoices, cost - 23.0);
    } else if employees < 0 {
      SignOfProduct(-invoices, cost - 23.0);
      assert invoices * (cost - 23.0) == -((-invoices) * (cost - 23.0));
    }
  }

  /** The monthly and annual figures when the monthly cost is `total`, of which
      `x` exceeds the optimised cost. */
  lemma MonthlyOfPositive(employees: int, x: real, total: real)
    requires employees > 0 && x >= 360.0 && total == x + (employees * 100) as real
    ensures var saving := MonthlySavings(Trunc(total), employees * 20 * 5);
      saving > 0 && 12 * saving <= Trunc(12.0 * x) <= 12 * saving + 11
  {
  }

  lemma MonthlyOfNegative(employees: int, x: real, total: real)
    requires employees < 0 && x <= -360.0 && total == x + (employees * 100) as real
    ensures MonthlySavings(Trunc(total), employees * 20 * 5) == 0
  {
  }

  /** The donuts of a report: the cost donut (benchmark 12) and the processing-time
      donut (benchmark 5) always have an empty second wedge, since every cost is at
      least 23 and every processing time at least 10; the match-rate donut
      (benchmark 85) and the efficiency donut (benchmark 100) never do. */
  lemma ReportDonuts(employees: int, industry: string)
    ensures var m := CompanyMetricsOf(employees, industry);
      && DonutRemainder(Trunc(m.costPerInvoice), 12) == 0
      && DonutRemainder(m.processingTime, 5) == 0
      && DonutRemainder(m.firstTimeMatchRate, 85) == 85 - m.firstTimeMatchRate >= 20
      && DonutRemainder(m.efficiencyScore, 100) == 100 - m.efficiencyScore >= 44
  {
  }
}
