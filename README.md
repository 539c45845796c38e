# G-BAT daily billing analysis, modelled in Dafny

G-BAT (the GCP Billing Analysis Tool) runs once a day. It reads the Google
Cloud billing export in BigQuery and works out, for every project:
- yesterday's cost and the cost of the day before;
- a warning or nominal status;
- for warning projects only, the top services by cost.

It also totals the whole account for yesterday and for the month so far. It
projects the month-end cost. It posts all of this to Slack as a series of
messages, most expensive project first.

This project models the core of `main.py` and proves properties of it:

| file | module | what it models |
|---|---|---|
| `wrappers.dfy` | `Wrappers` | `Option` and `Result` |
| `settings.dfy` | `Config` | the tunable settings and their defaults (`settings.py`) |
| `cost_calculator.dfy` | `CostCalculator` | rounding, month lengths, days remaining, the projection, `get_status` |
| `repository.dfy` | `Repository` | how query result rows become records: the project-id filter, the one-row read-outs, the top-services loop |
| `assembler.dfy` | `Assembler` | `get_costs` and `get_analysis`: the currency check and the stable sort by yesterday's cost, descending |
| `report.dfy` | `Report` | the Slack block builders, the line texts, and the exact order of payloads `slack_notify` sends |

## Design

- **Inputs.** Every BigQuery query result is a field of a `Billing` value.
  The per-project queries are functions of their arguments:
  - the daily cost of (project id, days ago);
  - the top services of (project id, row limit).
- **Errors.** A read-out of `rows[0]` on an empty result is the error
  `NoData`. Differing account-wide currencies are the error
  `CurrencyMismatch`. Both stop the run before anything is sent.
- **Loops.** The loops of the source are methods proved equal to a
  specification function:
  - `GetCosts` to `Costs`;
  - `TopServices` to `ServiceCosts`;
  - `MakeFieldSection` to `FieldSectionOf`.
  The properties are then proved about those functions. `get_analysis`
  has no loop, so it is the function `Analysis` alone, which `SlackNotify`
  calls.
- **Sending.** Each `send_slack_message` call appends one payload (a list of
  blocks) to the `sent` field of an `Outbox` object. `SlackNotify` is proved
  to send exactly `ReportPayloads` of the analysis, in order, and nothing at
  all when the analysis fails.
- **Cost text.** Python's `str` of a float is the parameter
  `show: real -> string`. Ranks are printed as decimal numbers (`NatToString`).
- **The clock.** `today` is a parameter.

## Model

| member | source | states |
|---|---|---|
| `CostCalculator.RoundCost` | main.py:63-74 | the rounded cost has at most `precision` decimal digits and is within half a unit of the last digit of the input |
| `CostCalculator.RoundHalfEven` | main.py:74 | the chosen integer is within 0.5 of its argument, and an exact tie goes to the even neighbour |
| `CostCalculator.RoundHalfEvenUnique` | main.py:74 | those two conditions determine the rounded integer uniquely |
| `CostCalculator.RoundCostFixesRounded` | main.py:63-74 | a value that already has `precision` digits is left unchanged |
| `CostCalculator.RoundCostIdempotent` | main.py:63-74 | rounding twice gives the same as rounding once |
| `CostCalculator.RoundCostMonotone` | main.py:63-74 | rounding never reverses the order of two costs |
| `CostCalculator.RoundCostExample` | main.py:63-74 | 12.3456 at two digits is 12.35 |
| `CostCalculator.DaysInMonth` | main.py:229-240 | 28 to 31 days; February has 29 exactly in Gregorian leap years and 28 otherwise; April, June, September and November have 30; the other seven months have 31 |
| `CostCalculator.YearLength` | main.py:229-240 | the twelve month lengths add up to 366 in a leap year and 365 otherwise |
| `CostCalculator.DaysInMonthExamples` | main.py:229-240 | February 2020 has 29 days, February 2021 28, February 1900 28, February 2000 29, January 31 |
| `CostCalculator.DaysRemaining` | main.py:243-253 | the days remaining plus today's day of the month is the month length |
| `CostCalculator.DaysRemainingInPresentMonth` | main.py:243-253 | for a real date and its true month length, between 0 and 30 days remain, and 0 exactly on the month's last day |
| `CostCalculator.DaysRemainingExample` | tests/test_maths.py:9-11 | 28 days in the month on 2020-02-14 leave 14 days, and February's true 29 leave 15 |
| `CostCalculator.ProjectedCost` | main.py:218-226 | no days left gives the month-to-date total; with days left and a non-negative daily cost the projection is at least that total |
| `CostCalculator.ProjectedCostStep` | main.py:218-226 | each further remaining day adds yesterday's total once |
| `CostCalculator.ProjectedCostMonotone` | main.py:218-226 | with days left, a higher daily cost never lowers the projection |
| `CostCalculator.ProjectedCostExample` | main.py:218-226 | 10 days at 5.00 on top of 50.00 gives 100.00 |
| `CostCalculator.GetStatus` | main.py:256-280 | the warning status when the cost is non-zero and reaches both `past * threshold` and the minimum; otherwise nominal; always nominal for a zero cost |
| `CostCalculator.GetStatusWarningIff` | main.py:276-280 | when the two status strings differ, the status is the warning one exactly when the three conditions hold |
| `CostCalculator.GetStatusBoundaryInclusive` | main.py:277 | a cost equal to `past * threshold` warns, provided it is non-zero and reaches the minimum |
| `CostCalculator.GetStatusExamples` | main.py:256-280 | under the defaults: 0 is nominal; 20 against 10 warns; 19.99 against 10 is nominal; below a raised minimum is nominal |
| `Repository.ProjectIds` | main.py:60 | at most one id per row; an id is returned exactly when a row carries it (NULL ids are dropped) |
| `Repository.ProjectIdsAppend` | main.py:60 | the filter works row by row and keeps the order of the rows |
| `Repository.ProjectIdsWithoutNulls` | main.py:60 | when no id is NULL, every row's id survives, in row order |
| `Repository.ProjectIdsDistinct` | main.py:54-60 | distinct rows (the query selects DISTINCT) give distinct ids |
| `Repository.ReadCostRecord` | main.py:109-116 | no row is the `NoData` error; otherwise the first row's currency and date, and its cost rounded to the precision |
| `Repository.TopServices` | main.py:206-215 | one record per row, in row order: the service name, the rounded cost and the currency |
| `Repository.ServiceCostsKeepOrder` | main.py:203-215 | rows that come by cost, descending, give records by cost, descending, after rounding |
| `Assembler.ProjectCosts` | main.py:296-312 | an error exactly when either day has no row; otherwise the project id, both read-outs, the status got from them, and top services exactly for the warning status, read with the configured limit |
| `Assembler.Costs` | main.py:294-313 | success exactly when every project has data; then one record per id, in id order, each that project's record |
| `Assembler.GetCosts` | main.py:294-313 | the loop returns exactly `Costs` of the ids, stopping at the first project without data |
| `Assembler.InsertByCost` | main.py:351-355 | inserting into a sequence sorted by cost keeps it sorted |
| `Assembler.SortByCostDescending` | main.py:351-355 | the result is sorted by yesterday's cost, descending |
| `Assembler.InsertByCostPermutes` | main.py:351-355 | inserting adds the one record and loses none |
| `Assembler.SortByCostDescendingPermutes` | main.py:351-355 | the sort is a permutation of its input |
| `Assembler.InsertByCostKeepsTies` | main.py:351-355 | insertion keeps the new record ahead of equal-cost records after it |
| `Assembler.SortByCostDescendingIsStable` | main.py:351-355 | records of equal cost keep their input order (Python's `sorted` is stable) |
| `Assembler.SortedWithSameTiesAreEqual` | main.py:351-355 | two sequences sorted by cost with the same records at every cost are equal |
| `Assembler.SortByCostDescendingIsUnique` | main.py:351-355 | the stable sort is the only sorted arrangement that keeps the input order among ties |
| `Assembler.SortExample` | main.py:351-355 | A (5), B (20), C (20) in query order become B, C, A |
| `Assembler.Analysis` | main.py:335-367 | an error exactly when an account-wide row set is empty, the currencies differ, or a project has no data; differing currencies give `CurrencyMismatch` and the rest `NoData`; the summary totals are the read-outs; the projection for today's true days remaining carries the shared currency; the breakdown is sorted |
| `Assembler.AnalysisBreakdownIsStableSort` | main.py:350-355 | the breakdown is the stable sort of the `get_costs` records: a permutation with the same ties |
| `Assembler.AnalysisBreakdownRecords` | main.py:294-313 | one breakdown record per non-NULL project id, each for a listed project, with the status got from its two days and top services exactly for the warning status |
| `Report.MakeSection` | main.py:370-386 | a text section holding the given markdown text |
| `Report.MakeDivider` | main.py:455 | a divider block |
| `Report.MakeFieldSection` | main.py:401-412 | one markdown field per input string, in order |
| `Report.GcpProjectLink` | main.py:415-426 | no contract of its own; `GcpProjectLinkShape` and `GcpProjectLinkInjective` state its text |
| `Report.GcpProjectLinkShape` | main.py:425-426 | the dashboard address, the project id as the target and again as the label, closed by `>` |
| `Report.GcpProjectLinkInjective` | main.py:425-426 | different project ids give different links |
| `Report.NatToString` | main.py:444-445 | the rank is printed as digits only, with a leading `0` only for zero |
| `Report.NatToStringRoundTrip` | main.py:444-445 | reading the printed digits back gives the rank |
| `Report.FormatProjectTitle` | main.py:442-445 | `:warning: *` for the warning status and `:white_check_mark: *` otherwise, so the title starts with `:warning:` exactly for the warning status; it ends with the rank, `. `, the link and `*` |
| `Report.PrepareSummaryLine` | main.py:521 | the shown cost, one space, then the currency |
| `Report.RankingLine` | main.py:469-481 | no contract of its own; `ProjectPayloadsShape` states its title and cost line, and `SendProjectRankingLine` sends it |
| `Report.TopServicesPayloads` | main.py:496-507 | no contract of its own; `TopServicesPayloadsShape` states its header and per-service sections, and `SendProjectTopServices` sends it |
| `Report.ProjectPayloads` | main.py:582-589 | no contract of its own; `ProjectPayloadsCount` and `ProjectPayloadsShape` state its length and contents, and `SendProject` sends it |
| `Report.SummaryPayloads` | main.py:535-556 | no contract of its own; `ReportPayloadsShape` states the summary header and the six fields, and `SendSummary` sends it |
| `Report.ReportPayloads` | main.py:566-593 | no contract of its own; `ReportPayloadsShape` and `BreakdownPayloadsAt` state its order, and `SendReport` and `SlackNotify` send it |
| `Report.TopServicesPayloadsShape` | main.py:496-507 | a header naming the project, then one two-field section per service: its name and its cost line |
| `Report.ProjectPayloadsCount` | main.py:582-589 | a project sends one payload, plus one header and one per service when it has top services |
| `Report.ProjectPayloadsShape` | main.py:469-481 | a project's first payload is a two-field section whose title starts with `:warning:` exactly for the warning status and whose second field is yesterday's cost line; its top-services payloads follow only when it has them |
| `Report.RankedAppend` | main.py:582-589 | the ranking loop over two parts sends the first part's payloads, then the second's, with ranks continuing |
| `Report.RankedSnoc` | main.py:582-589 | one more round of the loop appends exactly that project's payloads |
| `Report.RankedCount` | main.py:582-589 | the loop sends the sum of the per-project payload counts |
| `Report.RankedAt` | main.py:582-589 | item `k` contributes the slice that starts after the counts of the items before it |
| `Report.BreakdownPayloadsAt` | main.py:582-589 | the `k`-th project, with rank `k + 1`, sends its payloads as one uninterrupted run, starting after those of the projects before it |
| `Report.ReportPayloadsShape` | main.py:566-593 | title and divider first, the ranking next, then a divider, the summary header, and a six-field summary last |
| `Report.SendProjectRankingLine` | main.py:469-481 | sends exactly one payload, the ranking line |
| `Report.SendProjectTopServices` | main.py:496-507 | sends the header, then one payload per service, in service order |
| `Report.SendSummary` | main.py:535-556 | sends the summary header, then the six-field summary |
| `Report.SendProject` | main.py:583-589 | one round of the ranking loop: the ranking line, then the top services if the project has any |
| `Report.SendRanking` | main.py:582-589 | the loop sends every project's payloads in breakdown order, ranks counted from 1 |
| `Report.SendReport` | main.py:569-593 | sends exactly `ReportPayloads` of the report |
| `Report.Outbox.Send` | messenger.py:40-41 | one `send_slack_message(blocks=...)` call: the outbox gains exactly that payload, at the end, and nothing else changes |
| `Report.SlackNotify` | main.py:566-593 | when the analysis fails: nothing sent and that error returned; otherwise exactly the report's payloads, in order |

## Left out

- The SQL text and its execution are not modelled. Each query's result is given as rows. The model does not enforce the `DISTINCT`, `GROUP BY`, `ORDER BY ... DESC` and `LIMIT` clauses; `ProjectIdsDistinct` and `ServiceCostsKeepOrder` take them as preconditions instead.
- `RoundCost`: it rounds exact decimal values with ties to even. Python's `round` works on binary floats, so an input such as 2.675 can round differently there.
- Costs are exact reals: float overflow, NaN and accumulated float error are not modelled.
- `PrepareSummaryLine`: Python's `str` of a float is the parameter `show`, so the digits of a cost are not modelled. Field texts pass through `str`, which leaves strings unchanged.
- Dates are read from the rows as ready-made ISO strings. The `.isoformat()` conversion is not modelled.
- Delivery to Slack itself is not modelled. Each `send_slack_message` call is one payload appended to an outbox. In `messenger.py`, `send_slack_message` requires `channel` and `api_token` (messenger.py:20-21), but every call in `main.py` (main.py:474, 496, 500, 547, 548, 579, 592) passes only `blocks`. The model follows the intent of each call and does not model that argument mismatch. The WebClient call, the plain-text branch and delivery failures are not modelled either. Of `messenger.py`, only the post of `blocks` (messenger.py:40-41) is modelled, as `Outbox.Send`.
- Loading settings from the environment is not modelled; settings are a parameter. An override arrives as a string and would break the numeric comparisons in Python.
- The clock is a parameter (`today`). The module-level default arguments of `get_days_in_month` and `compute_days_remaining_in_present_month` are not modelled. Python evaluates them once, at import time.
- `GetCosts` takes its ids as a parameter. `get_costs` ignores its argument and runs the project-id query again. The model's queries return the same rows on each call, so `Analysis` passes `ProjectIds(b.projectRows)`, which gives the same result.
- `DaysInMonth` requires a month from 1 to 12. `calendar.monthrange` raises for any other month, and the only caller passes today's month.
- `RoundCost` takes a non-negative precision. Python also accepts a negative precision, which rounds to tens, hundreds and so on.
- Python's `Exception` messages are not modelled. Errors are the two `BillingError` values.
