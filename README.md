# AP-efficiency report generator: the metrics and per-row logic

This project models the computational core of `work.py`, a batch script that turns a spreadsheet of company leads into one marketing PDF per company. The model covers:

- **Metrics** (`get_company_metrics`). Each company's processing time, cost per invoice, first-time match rate, efficiency score and annual savings are computed from its employee count and industry. The arithmetic uses exact reals, where `1.8` is exactly 9/5 and `1.2` exactly 6/5. Python's `int()` is modelled as truncation toward zero.
- **Logo URL choice** (`first_non_nan_url`). The function returns the trimmed text of the first candidate cell that is a string and, once trimmed and lower-cased, begins with `http://` or `https://`.
- **Per-row work of the batch loop**:
  - the defaults for employee count, industry and company name;
  - the file-name sanitiser;
  - the brand-colour fallback;
  - the logo path after a download that may fail;
  - the urgency flag;
  - the report path.
- **Clamps fed to the charts**. These are the donut's remaining wedge and the monthly saving, both `max(0, …)`.

Modules: `Text` holds ASCII versions of `str.lower`, `str.strip`, `startswith`, substring `in` and `str(int)`. `Values` holds the cell values a pandas row yields and `row.get`. `Urls`, `Metrics`, `Charts` and `Batch` each model one part of `work.py`.

Results proved about the model:

- **The efficiency score is always between 27 and 56.** So the cap at 95 never applies, and the score is never negative.
- **When a report is urgent.** A report is not urgent exactly when the company has at least 250 employees, its industry does not mention "manufacturing", and the industry either mentions "tech" or does not mention "financial".
- **The cost and processing-time donuts never have a second wedge.** Every cost is at least 23, above its benchmark of 12. Every processing time is at least 10, above its benchmark of 5. This is why the `max(0, …)` in the donut function matters.
- **The monthly saving agrees with the annual savings.** For a non-negative employee count, twelve times the monthly saving shown on the chart falls short of the annual savings by less than 12 dollars in exact arithmetic. With Python's floating point the gap can reach 12; see the IEEE-754 line under "## Left out".
- **An empty industry cell does not read "General".** The default "General" applies only when the industry column is missing. An empty cell is `str(nan)`, which is "nan". Either way the company is priced as a general one.

For 100 employees in "Manufacturing" the code computes annual savings of `int(100 * 20 * 12 * (32 - 5))`, which is 648,000 dollars (`Metrics.ManufacturingExample`).

## Model

| member | source | states |
|---|---|---|
| `Text.Lower` | work.py:40 | the lower-cased text has the input's length and no upper-case ASCII letter; each character is the input's own or its lower-case form |
| `Text.Strip` | work.py:22-23 | the trimmed text is a middle slice of the input, everything removed before and after it is whitespace, and it has no whitespace at either end |
| `Text.StripIdempotent` | work.py:22-23 | trimming twice gives the same text as trimming once |
| `Text.ContainsLowerIff` | work.py:40-61 | a substring test on the lower-cased industry is the same as a case-insensitive search in the original string |
| `Text.LowerIgnoresCase` | work.py:40 | two strings lower-case to the same text exactly when they differ only in letter case |
| `Text.NatText` | work.py:346 | the index in a default company name is written as the decimal numeral whose digits denote that index, with no leading zero except for 0 |
| `Text.NatTextInjective` | work.py:346 | different indices give different numerals |
| `Text.IntText` | work.py:40 | `str()` of an integer is digits after an optional leading minus sign, the sign appears exactly for negatives, and the digits denote the absolute value |
| `Values.PyStr` | work.py:40 | `str()` keeps a string unchanged, gives "None" for None, "nan" for NaN and the decimal numeral for an integer; for the non-text values the lower-cased text has no letter c |
| `Urls.FirstUrl` | work.py:20-24 | a chosen URL is the trimmed text of some candidate that is a string passing the URL test |
| `Urls.FirstNonNanUrl` | work.py:20-24 | the loop with early return gives the same result as the first-match definition `FirstUrl` |
| `Urls.FirstUrlNone` | work.py:20-24 | nothing is returned exactly when no candidate is a string that passes the URL test |
| `Urls.FirstUrlFirstMatch` | work.py:20-24 | when candidate i is the first to qualify, its trimmed text is returned and earlier candidates are skipped |
| `Urls.FirstUrlShape` | work.py:22-23 | a returned URL is already trimmed and passes the lower-case `http://`/`https://` test itself |
| `Metrics.Trunc` | work.py:67 | `int()` rounds toward zero: the floor for non-negative values and the ceiling, never positive, for non-positive ones |
| `Metrics.ProcessingTime` | work.py:43-48 | processing time is one of 10, 15 and 21 days |
| `Metrics.TierBoundaries` | work.py:43-48 | 49 employees give 21 days, 50 and 249 give 15, and 250 give 10 |
| `Metrics.ProcessingTimeMonotone` | work.py:43-48 | a larger company never gets a longer processing time |
| `Metrics.CostPerInvoice` | work.py:51-53 | cost is `days*1.8+5`, times 1.2 with the financial surcharge; it is at least 23 for the possible day counts |
| `Metrics.CostByIndustry` | work.py:51-53 | the surcharge applies exactly when "financial" occurs in the industry, ignoring case |
| `Metrics.MatchRate` | work.py:56-61 | the match rate is one of 35, 50 and 65 |
| `Metrics.MatchRateByIndustry` | work.py:56-61 | rate is 35 iff "manufacturing" occurs, 65 iff "tech" occurs without "manufacturing", and 50 iff neither occurs, all ignoring case |
| `Metrics.EfficiencyScore` | work.py:64-67 | the score never exceeds 95 and is non-negative for a non-negative rate |
| `Metrics.ScoreTable` | work.py:64-67 | across all 18 combinations of tier, surcharge and rate, the score lies in 27..56; it reaches 50 only at 10 days with a 65% rate, or a 50% rate without surcharge |
| `Metrics.AnnualSavings` | work.py:70-73 | savings are 240 invoices a year per employee times the saving per invoice, truncated toward zero; at least 4320 per employee for a cost of at least 23 |
| `Metrics.AnnualSavingsBounds` | work.py:70-73 | savings lie between 4320 and 11126.4 dollars per employee for non-negative counts and are at most 0 otherwise; they are an exact multiple of the count except in the 21-day financial case |
| `Metrics.CompanyMetricsOf` | work.py:37-75 | every result is in range: days in {10,15,21}, cost at least 23, rate in {35,50,65}, score in 27..56, savings at least 4320 per employee |
| `Metrics.MetricsIgnoreCase` | work.py:40 | industries that differ only in letter case give the same metrics |
| `Metrics.IndustryWithoutC` | work.py:52-61 | an industry with no letter c gets the 50% rate and no surcharge |
| `Metrics.ManufacturingExample` | work.py:37-75 | 100 employees in "Manufacturing" give 15 days, 32.0 per invoice, 35%, a score of 36 and 648,000 in savings |
| `Charts.Shortfall` | work.py:85 | `max(0, hi - lo)` is non-negative and, added to `lo`, gives the larger of the two |
| `Charts.DonutRemainder` | work.py:85 | the second wedge is non-negative, and the two wedges fill the larger of the value and the benchmark |
| `Charts.MonthlyCosts` | work.py:396-398 | the optimised monthly cost is 100 dollars per employee; the current one is 20 invoices per employee at the given cost, truncated toward zero for either sign; with employees and a cost of at least 5, the current cost is at least the optimised one |
| `Charts.MonthlySavings` | work.py:133 | the shown saving is non-negative: the difference when current ≥ optimised, 0 otherwise |
| `Charts.MonthlyArithmetic` | work.py:396-398 | for any cost of at least 23, the saving is positive iff employees > 0, and 12 monthly savings are within 11 of the annual figure |
| `Charts.MonthlyAgreesWithAnnual` | work.py:396-399 | for a company's own metrics, the monthly saving is positive iff it has employees, and 12 months of it are within 11 dollars of the annual savings |
| `Charts.ReportDonuts` | work.py:383-393 | the cost and time donuts' second wedges are always 0; the match-rate and efficiency donuts' are 85−rate ≥ 20 and 100−score ≥ 44 |
| `Batch.EmployeesOf` | work.py:347-349 | 50 for a missing column, None or NaN; the cell's integer otherwise; a text cell is the TypeError `employees < 50` raises |
| `Batch.IndustryOf` | work.py:348 | "General" only for a missing column; otherwise `str()` of the cell: a text cell verbatim, "nan" for an empty cell, and a text without the letter c for any non-text cell |
| `Batch.EmptyIndustryCell` | work.py:348 | an empty (NaN) industry cell reads "nan", which is not "General" |
| `Batch.CompanyNameOf` | work.py:346 | the name cell when it is text, "Company_<index>" when the column is missing, and an error for a non-text cell |
| `Batch.Sanitize` | work.py:351 | the sanitised name contains none of the nine unsafe characters (backslash, slash, star, question mark, colon, double quote, both angle brackets, vertical bar) and is no longer than the input |
| `Batch.SanitizeConcat` | work.py:351 | sanitising works character by character and keeps the order: sanitising a + b gives sanitised a followed by sanitised b |
| `Batch.SanitizeCounts` | work.py:351 | every safe character keeps its number of occurrences, and every unsafe one is removed |
| `Batch.SanitizeSafeName` | work.py:351 | a name without unsafe characters is unchanged |
| `Batch.SanitizeIdempotent` | work.py:351 | sanitising twice is sanitising once |
| `Batch.SanitizeCollision` | work.py:351 | the distinct names "AC/DC" and "ACDC" sanitise to the same file name |
| `Batch.ReportPath` | work.py:405 | the report path is `reports/AP_Report_`, the safe name and `.pdf`, so the safe name can be read back from it |
| `Batch.ReportPathInjective` | work.py:405 | two reports share a file exactly when their safe names are equal |
| `Batch.DefaultNameIsSafe` | work.py:346-351 | the default name `Company_<index>` contains no character the sanitiser deletes |
| `Batch.DefaultNamesDistinctReports` | work.py:346-405 | in a sheet without a `name` column, rows with different indices write different report files |
| `Batch.ReportPathStaysInReports` | work.py:405 | the report path is `reports/` followed by a file part with no `/` or `\` |
| `Batch.BrandColor` | work.py:354-359 | for a default starting with `#`, the colour always starts with `#`, is either the default or the cell's own text, and is a text cell's own text exactly when that text starts with `#` |
| `Batch.BrandColorsOfRow` | work.py:354-359 | both colours of a row start with `#`; each equals the cell's text exactly when that text starts with `#` |
| `Batch.LogoCandidates` | work.py:362 | one candidate per logo column, in the order logo, logo_url, organization/logo, image, image_url: the cell when the column exists, None otherwise |
| `Batch.NoLogoColumns` | work.py:362 | a row whose sheet has none of the logo columns gets no logo URL |
| `Batch.LogoPath` | work.py:363-369 | a logo is placed iff a URL was found and its download succeeded, at `img/<safe name>_logo.png`; for a safe name that path stays inside `img/` |
| `Batch.UrgentIff` | work.py:402 | the urgency flag `Batch.Urgent` of a company's metrics is off iff employees ≥ 250, no "manufacturing", and "tech" present or "financial" absent, ignoring case |
| `Batch.PlanRow` | work.py:346-405 | a row succeeds iff its employee count and name are readable, and the employee error takes precedence over the name error. Every field of the plan is tied to the row: the employee count, industry and name read with their defaults, the sanitised name, the metrics of that count and industry, both brand colours (each starting with `#`), the first logo URL and its path, the clamped monthly saving, the urgency flag and the report path |
| `Batch.PlanRowDefaults` | work.py:346-369 | a row with no employee column uses 50 employees (15 days), and a failed download leaves no logo |
| `Batch.NonTextIndustryIsGeneral` | work.py:348-350 | a missing, empty or numeric industry cell gives the 50% rate and no surcharge |

## Left out

- Chart drawing with matplotlib, the PDF layout and fonts (`PDFReport`), and reading and writing the spreadsheet. These are calls into libraries that are not part of this model. Only the `max(0, …)` clamps and the numbers passed to the charts are modelled.
- `download_image`: network and file I/O. Its outcome is a boolean parameter of `Batch.PlanRow`.
- The row loop itself, collecting `pdf_filenames`, and the `try/except` around the whole batch. An error in one row (`Batch.RowError`) aborts the whole run in the source. The model stops at the row's error value.
- Chart image file names (`img/<safe name>_cost.png`, …): fixed string templates with no behaviour beyond the sanitised name.
- `Metrics.CompanyMetricsOf`: does not model IEEE-754 floating point. `21*1.8+5` is not exactly 42.8 as a Python float, so a truncated amount such as the annual savings may differ by one from the exact-real figure. The score table is unaffected, since every score lies at least 0.02 away from an integer.
- `Text.Lower` and `Text.Strip`: only ASCII. Unicode case mapping and non-ASCII whitespace are not modelled.
- `Values.PyStr`: numeric cells are integers. Python writes a fractional or float cell as `str(float)` ("100.0"), which is not modelled. The fact used about those strings, that they contain no letter c, holds for them too.
- The brand primary colour is computed but not used afterwards by the source. Only the secondary colour reaches a chart. The model computes both.
