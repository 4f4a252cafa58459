/** The per-row work of `process_data_and_generate_reports`: reading a row's
    fields with their defaults, deriving the metrics, sanitising the company name
    into a file name, falling back to the default brand colours, choosing the logo
    URL and deciding the urgency flag. Rendering, the PDF and the spreadsheet are
    not part of this model. */
module Batch {
  import opened Text
  import opened Values
  import opened Urls
  import opened Metrics
  import opened Charts

  const NavyBlue := "#001f3f"
  const Green := "#2ECC40"

  /** The employee count assumed when the sheet gives none. */
  const DefaultEmployees := 50

  const EmployeesColumn := "organization/estimated_num_employees"
  const IndustryColumn := "organization/industry"

  /** The row errors that escape the per-row code as Python exceptions. */
  datatype RowError =
    | EmployeesNotNumeric  // a text employee count: `employees < 50` raises TypeError
    | NameNotText          // a non-text company name: `re.sub` raises TypeError

  /** The employee count of a row: 50 when the column is missing or the cell is
      empty (None or NaN), the cell's number otherwise; a text cell fails. */
  function EmployeesOf(row: Row): (r: Result<int, RowError>)
    ensures EmployeesColumn !in row.cells ==> r == Ok(DefaultEmployees)
    ensures EmployeesColumn in row.cells ==> (match row.cells[EmployeesColumn]
      case Null => r == Ok(DefaultEmployees)
      case NaN => r == Ok(DefaultEmployees)
      case Int(n) => r == Ok(n)
      case Str(_) => r == Err(EmployeesNotNumeric))
  {
    var v := Get(row, EmployeesColumn, Int(DefaultEmployees));
    if IsMissing(v) then Ok(DefaultEmployees)
    else if v.Int? then Ok(v.i)
    else Err(EmployeesNotNumeric)
  }

  /** The industry text of a row: "General" when the column is missing, otherwise
      `str()` of the cell, so an empty cell reads "nan" rather than "General". */
  function IndustryOf(row: Row): (industry: string)
    ensures IndustryColumn !in row.cells ==> industry == "General"
    ensures IndustryColumn in row.cells ==> industry == PyStr(row.cells[IndustryColumn])
    ensures IndustryColumn in row.cells && row.cells[IndustryColumn].Str? ==>
      industry == row.cells[IndustryColumn].s
    ensures !(IndustryColumn in row.cells && row.cells[IndustryColumn].Str?) ==>
      'c' !in Lower(industry)
  {
    PyStr(Get(row, IndustryColumn, Str("General")))
  }

  /** The company name of a row: its `name` cell, or "Company_<row index>" when the
      sheet has no such column; a cell that is not text makes the sanitiser fail. */
  function CompanyNameOf(row: Row): (r: Result<string, RowError>)
    ensures "name" !in row.cells ==> r == Ok("Company_" + NatText(row.index))
    ensures "name" in row.cells ==>
      (r.Ok? <==> row.cells["name"].Str?) && (r.Ok? ==> r.value == row.cells["name"].s)
  {
    var v := Get(row, "name", Str("Company_" + NatText(row.index)));
    if v.Str? then Ok(v.s) else Err(NameNotText)
  }

  /** The characters the file-name sanitiser deletes: \ / * ? : " < > | */
  predicate IsUnsafe(c: char) {
    c in "\\/*?:\"<>|"
  }

  predicate IsSafeName(s: string) {
    forall i :: 0 <= i < |s| ==> !IsUnsafe(s[i])
  }

  /** The regular-expression substitution of the row loop: the name with every
      unsafe character deleted. */
  function Sanitize(s: string): (r: string)
    ensures IsSafeName(r)
    ensures |r| <= |s|
  {
    if s == [] then []
    else (if IsUnsafe(s[0]) then [] else [s[0]]) + Sanitize(s[1..])
  }

  /** Sanitising works character by character, keeping the order of what it
      keeps: a split of the input is a split of the output. */
  lemma {:induction false} SanitizeConcat(a: string, b: string)
    ensures Sanitize(a + b) == Sanitize(a) + Sanitize(b)
  {
    if a != [] {
      assert (a + b)[0] == a[0] && (a + b)[1..] == a[1..] + b;
      SanitizeConcat(a[1..], b);
    } else {
      assert a + b == b;
    }
  }

  /** Sanitising keeps every occurrence of every safe character and removes every
      unsafe one. */
  lemma {:induction false} SanitizeCounts(s: string, c: char)
    ensures multiset(Sanitize(s))[c] == if IsUnsafe(c) then 0 else multiset(s)[c]
  {
    if s != [] {
      SanitizeCounts(s[1..], c);
      assert s == [s[0]] + s[1..];
    }
  }

  /** A name with nothing to delete is left as it is. */
  lemma {:induction false} SanitizeSafeName(s: string)
    requires IsSafeName(s)
    ensures Sanitize(s) == s
  {
    if s != [] {
      SanitizeSafeName(s[1..]);
    }
  }

  /** Sanitising twice is sanitising once. */
  lemma SanitizeIdempotent(s: string)
    ensures Sanitize(Sanitize(s)) == Sanitize(s)
  {
    SanitizeSafeName(Sanitize(s));
  }

  /** Different names can share a file name: "AC/DC" and "ACDC" both become
      "ACDC", so their reports overwrite each other. */
  lemma SanitizeCollision()
    ensures "AC/DC" != "ACDC" && Sanitize("AC/DC") == Sanitize("ACDC")
  {
    SanitizeConcat("AC", "/DC");
    SanitizeConcat("AC", "DC");
    SanitizeConcat("/", "DC");
  }

  /** The report file of a company: the safe name between a fixed prefix and the
      `.pdf` extension, so it can be read back from the path. */
  function ReportPath(safeName: string): (path: string)
    ensures |path| == |safeName| + 22
    ensures path[..18] == "reports/AP_Report_" && path[|path| - 4..] == ".pdf"
    ensures path[18..|path| - 4] == safeName
  {
    "reports/AP_Report_" + safeName + ".pdf"
  }

  /** Two companies share a report file exactly when their safe names agree. */
  lemma ReportPathInjective(a: string, b: string)
    ensures ReportPath(a) == ReportPath(b) <==> a == b
  {
  }

  /** A sanitised name keeps the report inside `reports/`: the file part has no
      path separator. */
  lemma ReportPathStaysInReports(name: string)
    ensures var path := ReportPath(Sanitize(name));
      && path[..8] == "reports/"
      && '/' !in path[8..] && '\\' !in path[8..]
  {
  }

  /** A brand colour cell: kept verbatim when it is text starting with '#',
      replaced by the slot's default otherwise. */
  function BrandColor(v: Value, fallback: string): (color: string)
    requires StartsWith(fallback, "#")
    ensures StartsWith(color, "#")
    ensures color == fallback || (v.Str? && color == v.s)
    ensures v.Str? ==> (color == v.s <==> StartsWith(v.s, "#"))
  {
    if v.Str? && StartsWith(v.s, "#") then v.s else fallback
  }

  function PrimaryColorOf(row: Row): string {
    BrandColor(Get(row, "brand_primary", Str(NavyBlue)), NavyBlue)
  }

  function SecondaryColorOf(row: Row): string {
    BrandColor(Get(row, "brand_secondary", Str(Green)), Green)
  }

  /** Every brand colour a row ends up with starts with '#', and it is the cell's
      own text exactly when that text starts with '#'. */
  lemma BrandColorsOfRow(row: Row)
    ensures StartsWith(PrimaryColorOf(row), "#") && StartsWith(SecondaryColorOf(row), "#")
    ensures "brand_primary" in row.cells && row.cells["brand_primary"].Str? ==>
      (PrimaryColorOf(row) == row.cells["brand_primary"].s <==>
       StartsWith(row.cells["brand_primary"].s, "#"))
    ensures "brand_secondary" in row.cells && row.cells["brand_secondary"].Str? ==>
      (SecondaryColorOf(row) == row.cells["brand_secondary"].s <==>
       StartsWith(row.cells["brand_secondary"].s, "#"))
  {
  }

  /** The columns a logo URL may come from, in the order they are tried. */
  const LogoColumns := ["logo", "logo_url", "organization/logo", "image", "image_url"]

  /** The logo URL candidates of a row: one per logo column, in order, the cell
      when the sheet has the column and None when it does not. */
  function LogoCandidates(row: Row): (candidates: seq<Value>)
    ensures |candidates| == |LogoColumns|
    ensures forall k :: 0 <= k < |LogoColumns| && LogoColumns[k] in row.cells ==>
      candidates[k] == row.cells[LogoColumns[k]]
    ensures forall k :: 0 <= k < |LogoColumns| && LogoColumns[k] !in row.cells ==>
      candidates[k] == Null
  {
    seq(|LogoColumns|, k requires 0 <= k < |LogoColumns| => Get(row, LogoColumns[k], Null))
  }

  /** A row whose sheet has none of the logo columns gets no logo URL. */
  lemma NoLogoColumns(row: Row)
    requires forall k :: 0 <= k < |LogoColumns| ==> LogoColumns[k] !in row.cells
    ensures FirstUrl(LogoCandidates(row)) == None
  {
    FirstUrlNone(LogoCandidates(row));
  }

  /** The logo placed in the report: the downloaded file when there was a URL and
      its download succeeded, nothing otherwise. */
  function LogoPath(url: Option<string>, safeName: string, downloaded: bool): (path: Option<string>)
    ensures path.Some? <==> url.Some? && downloaded
    ensures path.Some? ==> path.value == "img/" + safeName + "_logo.png"
    ensures path.Some? && IsSafeName(safeName) ==>
      path.value[..4] == "img/" && '/' !in path.value[4..] && '\\' !in path.value[4..]
  {
    if url.Some? && downloaded then Some("img/" + safeName + "_logo.png") else None
  }

  /** The report is flagged urgent when the score or the match rate is below 50. */
  predicate Urgent(m: CompanyMetrics) {
    m.efficiencyScore < 50 || m.firstTimeMatchRate < 50
  }

  /** A report escapes the urgency flag exactly when the company has at least 250
      employees, is not in manufacturing, and is either in tech or not financial. */
  lemma UrgentIff(employees: int, industry: string)
    ensures Urgent(CompanyMetricsOf(employees, industry)) <==>
      !(employees >= 250
        && !ContainsIgnoringCase(industry, "manufacturing")
        && (ContainsIgnoringCase(industry, "tech") || !ContainsIgnoringCase(industry, "financial")))
  {
    var lowered := Lower(industry);
    var days := ProcessingTime(employees);
    var financial := Contains(lowered, "financial");
    ScoreTable(days, financial, MatchRate(lowered));
    MatchRateByIndustry(employees, industry);
    ContainsLowerIff(industry, "financial");
  }

  /** What the row loop computes for one row before it draws anything. */
  datatype RowPlan = RowPlan(
    companyName: string,
    safeName: string,
    employees: int,
    industry: string,
    metrics: CompanyMetrics,
    brandPrimary: string,
    brandSecondary: string,
    logoUrl: Option<string>,
    logoPath: Option<string>,
    monthlySavings: int,
    urgent: bool,
    reportPath: string)

  /** One iteration of the row loop; `downloaded` is the outcome of the logo
      download, which is not modelled. */
  function PlanRow(row: Row, downloaded: bool): (r: Result<RowPlan, RowError>)
    ensures r.Ok? <==> EmployeesOf(row).Ok? && CompanyNameOf(row).Ok?
    ensures EmployeesOf(row).Err? ==> r == Err(EmployeesNotNumeric)
    ensures EmployeesOf(row).Ok? && CompanyNameOf(row).Err? ==> r == Err(NameNotText)
    ensures r.Ok? ==> var p := r.value;
      && p.employees == EmployeesOf(row).value
      && p.industry == IndustryOf(row)
      && p.companyName == CompanyNameOf(row).value
      && p.safeName == Sanitize(p.companyName) && IsSafeName(p.safeName)
      && p.metrics == CompanyMetricsOf(p.employees, p.industry)
      && p.brandPrimary == PrimaryColorOf(row) && p.brandSecondary == SecondaryColorOf(row)
      && StartsWith(p.brandPrimary, "#") && StartsWith(p.brandSecondary, "#")
      && p.logoUrl == FirstUrl(LogoCandidates(row))
      && p.logoPath == LogoPath(p.logoUrl, p.safeName, downloaded)
      && p.reportPath == ReportPath(p.safeName)
      && p.monthlySavings == MonthlySavings(MonthlyCosts(p.employees, p.metrics.costPerInvoice).0,
                                            MonthlyCosts(p.employees, p.metrics.costPerInvoice).1)
      && p.monthlySavings >= 0
      && (p.urgent <==> Urgent(p.metrics))
  {
    match EmployeesOf(row)
    case Err(e) => Err(e)
    case Ok(employees) =>
      var industry := IndustryOf(row);
      var metrics := CompanyMetricsOf(employees, industry);
      match CompanyNameOf(row)
      case Err(e) => Err(e)
      case Ok(name) =>
        var safeName := Sanitize(name);
        var url := FirstUrl(LogoCandidates(row));
        var (current, optimized) := MonthlyCosts(employees, metrics.costPerInvoice);
        Ok(RowPlan(name, safeName, employees, industry, metrics,
                   PrimaryColorOf(row), SecondaryColorOf(row),
                   url, LogoPath(url, safeName, downloaded),
                   MonthlySavings(current, optimized), Urgent(metrics), ReportPath(safeName)))
  }

  /** A row without an employee count is planned with 50 employees, and a row
      whose logo cannot be fetched gets no logo. */
  lemma PlanRowDefaults(row: Row)
    requires EmployeesColumn !in row.cells && CompanyNameOf(row).Ok?
    ensures PlanRow(row, false).Ok?
    ensures PlanRow(row, false).value.employees == DefaultEmployees
    ensures PlanRow(row, false).value.metrics.processingTime == 15
    ensures PlanRow(row, false).value.logoPath == None
  {
  }

  /** A row whose industry is missing, empty or numeric is priced as a general
      company: a 50% match rate and no financial surcharge. */
  lemma NonTextIndustryIsGeneral(row: Row, downloaded: bool)
    requires PlanRow(row, downloaded).Ok?
    requires !(IndustryColumn in row.cells && row.cells[IndustryColumn].Str?)
    ensures var m := PlanRow(row, downloaded).value.metrics;
      m.firstTimeMatchRate == 50 && m.costPerInvoice == m.processingTime as real * 1.8 + 5.0
  {
    var p := PlanRow(row, downloaded).value;
    IndustryWithoutC(p.employees, p.industry);
  }

  /** The default company name "Company_<index>" has nothing for the sanitiser to
      delete. */
  lemma DefaultNameIsSafe(index: nat)
    ensures IsSafeName("Company_" + NatText(index))
  {
  }

  /** Rows of a sheet without a `name` column get distinct report files: the
      default names differ by their row index, and the sanitiser leaves them as
      they are. */
  lemma DefaultNamesDistinctReports(a: Row, b: Row, downloaded: bool)
    requires "name" !in a.cells && "name" !in b.cells && a.index != b.index
    requires PlanRow(a, downloaded).Ok? && PlanRow(b, downloaded).Ok?
    ensures PlanRow(a, downloaded).value.reportPath != PlanRow(b, downloaded).value.reportPath
  {
    var na := "Company_" + NatText(a.index);
    var nb := "Company_" + NatText(b.index);
    DefaultNameIsSafe(a.index);
    DefaultNameIsSafe(b.index);
    SanitizeSafeName(na);
    SanitizeSafeName(nb);
    NatTextInjective(a.index, b.index);
    assert na[8..] == NatText(a.index) && nb[8..] == NatText(b.index);
    ReportPathInjective(na, nb);
  }

  /** An empty industry cell reads "nan", not "General": the default applies only
      when the sheet has no industry column. */
  lemma EmptyIndustryCell(row: Row)
    requires IndustryColumn in row.cells && row.cells[IndustryColumn].NaN?
    ensures IndustryOf(row) == "nan" && IndustryOf(row) != "General"
  {
  }
}
