/** The analysis assembler of main.py: one record per project (`get_costs`)
    and the whole report with its sorted breakdown and summary (`get_analysis`). */
module Assembler {
  import opened Wrappers
  import opened Config
  import opened CostCalculator
  import opened Repository

  /** `{'id', 'one_day_ago', 'two_days_ago', 'status'}` and, for a warning
      project only, `'top_services'`. */
  datatype ProjectReport = ProjectReport(
    id: string,
    oneDayAgo: CostRecord,
    twoDaysAgo: CostRecord,
    status: string,
    topServices: Option<seq<ServiceCost>>)

  /** `{'cost', 'currency'}` of the projected month-end cost. */
  datatype ProjectedCostRecord = ProjectedCostRecord(cost: real, currency: string)

  /** `{'past_day', 'past_month', 'projected_cost'}`. */
  datatype Summary = Summary(pastDay: CostRecord, pastMonth: CostRecord, projectedCost: ProjectedCostRecord)

  /** `{'breakdown', 'summary'}`. */
  datatype AnalysisReport = AnalysisReport(breakdown: seq<ProjectReport>, summary: Summary)

  // ---------------------------------------------------------------------------
  // get_costs
  // ---------------------------------------------------------------------------

  /** The record of one pass of the `get_costs` loop: yesterday's and the day
      before's cost, the status, and the top services only when the status is
      the warning status. */
  function ProjectCosts(s: Settings, b: Billing, projectId: string): (r: Result<ProjectReport, BillingError>)
    ensures r.Err? <==> b.projectDailyRows(projectId, 1) == [] || b.projectDailyRows(projectId, 2) == []
    ensures r.Err? ==> r.error == NoData
    ensures r.Ok? ==> r.value.id == projectId
    ensures r.Ok? ==> ReadCostRecord(b.projectDailyRows(projectId, 1), s.roundingPrecision) == Ok(r.value.oneDayAgo)
    ensures r.Ok? ==> ReadCostRecord(b.projectDailyRows(projectId, 2), s.roundingPrecision) == Ok(r.value.twoDaysAgo)
    ensures r.Ok? ==> r.value.status == GetStatus(r.value.oneDayAgo.cost, r.value.twoDaysAgo.cost, s.warningThresholdMultiplier, s)
    ensures r.Ok? ==> (r.value.topServices.Some? <==> r.value.status == s.statusWarning)
    ensures r.Ok? && r.value.topServices.Some? ==>
      r.value.topServices.value == ServiceCosts(b.topServiceRows(projectId, s.numberOfTopServicesToInvestigate), s.roundingPrecision)
  {
    var oneDayAgo := ReadCostRecord(b.projectDailyRows(projectId, 1), s.roundingPrecision);
    var twoDaysAgo := ReadCostRecord(b.projectDailyRows(projectId, 2), s.roundingPrecision);
    if oneDayAgo.Err? then Err(oneDayAgo.error)
    else if twoDaysAgo.Err? then Err(twoDaysAgo.error)
    else
      var status := GetStatus(oneDayAgo.value.cost, twoDaysAgo.value.cost, s.warningThresholdMultiplier, s);
      var topServices :=
        if status == s.statusWarning
        then Some(ServiceCosts(b.topServiceRows(projectId, s.numberOfTopServicesToInvestigate), s.roundingPrecision))
        else None;
      Ok(ProjectReport(projectId, oneDayAgo.value, twoDaysAgo.value, status, topServices))
  }

  /** What `get_costs` returns for the given project ids: one record per id,
      in the order of the ids, or the error of the first project without data. */
  function Costs(s: Settings, b: Billing, projectIds: seq<string>): (r: Result<seq<ProjectReport>, BillingError>)
    ensures r.Ok? <==> forall i :: 0 <= i < |projectIds| ==> ProjectCosts(s, b, projectIds[i]).Ok?
    ensures r.Err? ==> r.error == NoData
    ensures r.Ok? ==> |r.value| == |projectIds|
    ensures r.Ok? ==> forall i :: 0 <= i < |projectIds| ==> ProjectCosts(s, b, projectIds[i]) == Ok(r.value[i])
  {
    if projectIds == [] then Ok([])
    else
      var n := |projectIds| - 1;
      var init := Costs(s, b, projectIds[..n]);
      var last := ProjectCosts(s, b, projectIds[n]);
      if init.Err? then
        init
      else if last.Err? then Err(last.error)
      else Ok(init.value + [last.value])
  }

  /** The loop of `get_costs`: it appends one record per project and stops at
      the first project without data. */
  method GetCosts(s: Settings, b: Billing, projectIds: seq<string>) returns (r: Result<seq<ProjectReport>, BillingError>)
    ensures r == Costs(s, b, projectIds)
  {
    var costs: seq<ProjectReport> := [];
    for i := 0 to |projectIds|
      invariant Costs(s, b, projectIds[..i]) == Ok(costs)
    {
      var projectId := projectIds[i];
      assert projectIds[..i + 1][..i] == projectIds[..i];
      var oneDayAgo := ReadCostRecord(b.projectDailyRows(projectId, 1), s.roundingPrecision);
      if oneDayAgo.Err? {
        return Err(oneDayAgo.error);
      }
      var twoDaysAgo := ReadCostRecord(b.projectDailyRows(projectId, 2), s.roundingPrecision);
      if twoDaysAgo.Err? {
        return Err(twoDaysAgo.error);
      }
      var status := GetStatus(oneDayAgo.value.cost, twoDaysAgo.value.cost, s.warningThresholdMultiplier, s);
      var topServices: Option<seq<ServiceCost>> := None;
      if status == s.statusWarning {
        var services := TopServices(b.topServiceRows(projectId, s.numberOfTopServicesToInvestigate), s.roundingPrecision);
        topServices := Some(services);
      }
      costs := costs + [ProjectReport(projectId, oneDayAgo.value, twoDaysAgo.value, status, topServices)];
    }
    assert projectIds[..|projectIds|] == projectIds;
    return Ok(costs);
  }

  // ---------------------------------------------------------------------------
  // sorted(breakdown, key=lambda x: x['one_day_ago']['cost'], reverse=True)
  // ---------------------------------------------------------------------------

  /** Yesterday's cost is non-increasing along the sequence. */
  predicate ByCostDescending(ps: seq<ProjectReport>) {
    forall i, j :: 0 <= i < j < |ps| ==> ps[i].oneDayAgo.cost >= ps[j].oneDayAgo.cost
  }

  /** The records whose yesterday's cost is `c`, in their order in `ps`. */
  function WithCost(ps: seq<ProjectReport>, c: real): seq<ProjectReport> {
    if ps == [] then []
    else (if ps[0].oneDayAgo.cost == c then [ps[0]] else []) + WithCost(ps[1..], c)
  }

  /** No record of `ps` costs more than `c`. */
  predicate AllCostAtMost(ps: seq<ProjectReport>, c: real) {
    forall k :: 0 <= k < |ps| ==> ps[k].oneDayAgo.cost <= c
  }

  lemma ConsByCostDescending(p: ProjectReport, ps: seq<ProjectReport>)
    requires ByCostDescending(ps) && AllCostAtMost(ps, p.oneDayAgo.cost)
    ensures ByCostDescending([p] + ps)
  {
    var r := [p] + ps;
    forall i, j | 0 <= i < j < |r| ensures r[i].oneDayAgo.cost >= r[j].oneDayAgo.cost {
      assert r[j] == ps[j - 1];
      if i > 0 {
        assert r[i] == ps[i - 1];
      }
    }
  }

  /** Puts `p` in front of the first record that costs no more than it, so
      that `p` stays ahead of the records with the same cost that follow it. */
  function InsertByCost(p: ProjectReport, ps: seq<ProjectReport>): (r: seq<ProjectReport>)
    requires ByCostDescending(ps)
    ensures ByCostDescending(r)
    ensures forall c :: AllCostAtMost(ps, c) && p.oneDayAgo.cost <= c ==> AllCostAtMost(r, c)
  {
    if ps == [] || ps[0].oneDayAgo.cost <= p.oneDayAgo.cost then
      ConsByCostDescending(p, ps);
      [p] + ps
    else
      var rest := InsertByCost(p, ps[1..]);
      assert AllCostAtMost(ps[1..], ps[0].oneDayAgo.cost);
      ConsByCostDescending(ps[0], rest);
      assert [ps[0]] + ps[1..] == ps;
      [ps[0]] + rest
  }

  /** Python's stable `sorted(..., reverse=True)` on yesterday's cost. */
  function SortByCostDescending(ps: seq<ProjectReport>): (r: seq<ProjectReport>)
    ensures ByCostDescending(r)
  {
    if ps == [] then []
    else
      assert [ps[0]] + ps[1..] == ps;
      InsertByCost(ps[0], SortByCostDescending(ps[1..]))
  }

  /** Inserting adds `p` and loses nothing. */
  lemma {:induction false} InsertByCostPermutes(p: ProjectReport, ps: seq<ProjectReport>)
    requires ByCostDescending(ps)
    ensures multiset(InsertByCost(p, ps)) == multiset(ps) + multiset{p}
  {
    if ps != [] && ps[0].oneDayAgo.cost > p.oneDayAgo.cost {
      InsertByCostPermutes(p, ps[1..]);
      assert [ps[0]] + ps[1..] == ps;
    }
  }

  /** The sort is a permutation of its input. */
  lemma {:induction false} SortByCostDescendingPermutes(ps: seq<ProjectReport>)
    ensures multiset(SortByCostDescending(ps)) == multiset(ps)
  {
    if ps != [] {
      SortByCostDescendingPermutes(ps[1..]);
      InsertByCostPermutes(ps[0], SortByCostDescending(ps[1..]));
      assert [ps[0]] + ps[1..] == ps;
    }
  }

  lemma {:induction false} WithCostAppend(a: seq<ProjectReport>, b: seq<ProjectReport>, c: real)
    ensures WithCost(a + b, c) == WithCost(a, c) + WithCost(b, c)
  {
    if a == [] {
      assert a + b == b;
    } else {
      assert (a + b)[1..] == a[1..] + b;
      WithCostAppend(a[1..], b, c);
    }
  }

  lemma {:induction false} InsertByCostKeepsTies(p: ProjectReport, ps: seq<ProjectReport>, c: real)
    requires ByCostDescending(ps)
    ensures WithCost(InsertByCost(p, ps), c) == WithCost([p] + ps, c)
  {
    if ps != [] && ps[0].oneDayAgo.cost > p.oneDayAgo.cost {
      var head, tail := ps[0], ps[1..];
      var rest := InsertByCost(p, tail);
      InsertByCostKeepsTies(p, tail, c);
      var h := if head.oneDayAgo.cost == c then [head] else [];
      var q := if p.oneDayAgo.cost == c then [p] else [];
      assert ([head] + rest)[1..] == rest && ([p] + tail)[1..] == tail && ([p] + ps)[1..] == ps;
      assert WithCost(InsertByCost(p, ps), c) == h + WithCost(rest, c);
      assert WithCost(rest, c) == q + WithCost(tail, c);
      assert WithCost([p] + ps, c) == q + (h + WithCost(tail, c));
      assert h == [] || q == [];
    }
  }

  /** The sort is stable: the records of any one cost keep their input order. */
  lemma {:induction false} SortByCostDescendingIsStable(ps: seq<ProjectReport>, c: real)
    ensures WithCost(SortByCostDescending(ps), c) == WithCost(ps, c)
  {
    if ps != [] {
      SortByCostDescendingIsStable(ps[1..], c);
      InsertByCostKeepsTies(ps[0], SortByCostDescending(ps[1..]), c);
      assert ([ps[0]] + SortByCostDescending(ps[1..]))[1..] == SortByCostDescending(ps[1..]);
    }
  }

  /** In a sequence sorted by cost, a cost that occurs at all is at most
      the first cost. */
  lemma {:induction false} WithCostBound(ps: seq<ProjectReport>, c: real)
    requires ByCostDescending(ps) && WithCost(ps, c) != []
    ensures ps != [] && ps[0].oneDayAgo.cost >= c
  {
    if ps[0].oneDayAgo.cost != c {
      assert WithCost(ps[1..], c) != [];
      WithCostBound(ps[1..], c);
      assert ps[1..][0] == ps[1];
    }
  }

  lemma WithCostOfFirst(ps: seq<ProjectReport>)
    requires ps != []
    ensures WithCost(ps, ps[0].oneDayAgo.cost) != []
  {
  }

  /** Two sequences sorted by cost that agree on the records of every cost
      are equal. */
  lemma {:induction false} SortedWithSameTiesAreEqual(r: seq<ProjectReport>, t: seq<ProjectReport>)
    requires ByCostDescending(r) && ByCostDescending(t)
    requires forall c :: WithCost(r, c) == WithCost(t, c)
    ensures r == t
  {
    if r == [] || t == [] {
      if t != [] {
        WithCostOfFirst(t);
      }
      if r != [] {
        WithCostOfFirst(r);
      }
    } else {
      var m, n := r[0].oneDayAgo.cost, t[0].oneDayAgo.cost;
      assert WithCost(r, m) != [];
      WithCostBound(t, m);
      assert WithCost(t, n) != [];
      WithCostBound(r, n);
      assert m == n;
      assert WithCost(r, m)[0] == r[0] && WithCost(t, m)[0] == t[0];
      assert ByCostDescending(r[1..]) by {
        forall i, j | 0 <= i < j < |r[1..]| ensures r[1..][i].oneDayAgo.cost >= r[1..][j].oneDayAgo.cost {
          assert r[1..][i] == r[i + 1] && r[1..][j] == r[j + 1];
        }
      }
      assert ByCostDescending(t[1..]) by {
        forall i, j | 0 <= i < j < |t[1..]| ensures t[1..][i].oneDayAgo.cost >= t[1..][j].oneDayAgo.cost {
          assert t[1..][i] == t[i + 1] && t[1..][j] == t[j + 1];
        }
      }
      forall c ensures WithCost(r[1..], c) == WithCost(t[1..], c) {
        if c == m {
          assert WithCost(r, c) == [r[0]] + WithCost(r[1..], c);
          assert WithCost(t, c) == [t[0]] + WithCost(t[1..], c);
          assert WithCost(r[1..], c) == WithCost(r, c)[1..];
        } else {
          assert WithCost(r, c) == WithCost(r[1..], c);
        }
      }
      SortedWithSameTiesAreEqual(r[1..], t[1..]);
      assert r == [r[0]] + r[1..] && t == [t[0]] + t[1..];
    }
  }

  /** The stable descending sort is the only arrangement that is sorted by
      cost and keeps the input order among equal costs. */
  lemma SortByCostDescendingIsUnique(ps: seq<ProjectReport>, r: seq<ProjectReport>)
    requires ByCostDescending(r)
    requires forall c :: WithCost(r, c) == WithCost(ps, c)
    ensures r == SortByCostDescending(ps)
  {
    forall c ensures WithCost(r, c) == WithCost(SortByCostDescending(ps), c) {
      SortByCostDescendingIsStable(ps, c);
    }
    SortedWithSameTiesAreEqual(r, SortByCostDescending(ps));
  }

  /** A (5), B (20), C (20) in query order sort to B, C, A. */
  lemma SortExample(a: ProjectReport, b: ProjectReport, c: ProjectReport)
    requires a.oneDayAgo.cost == 5.0 && b.oneDayAgo.cost == 20.0 && c.oneDayAgo.cost == 20.0
    ensures SortByCostDescending([a, b, c]) == [b, c, a]
  {
    var sortC := InsertByCost(c, []);
    assert sortC == [c];
    var sortBC := InsertByCost(b, sortC);
    assert sortBC == [b, c];
    var third := InsertByCost(a, []);
    assert third == [a];
    var second := InsertByCost(a, [c]);
    assert [c][1..] == [];
    assert second == [c] + third;
    var first := InsertByCost(a, sortBC);
    assert sortBC[1..] == [c];
    assert first == [b] + second;
    assert [a, b, c][1..] == [b, c] && [b, c][1..] == [c] && [c][1..] == [];
    assert SortByCostDescending([c]) == sortC;
    assert SortByCostDescending([b, c]) == sortBC;
  }

  // ---------------------------------------------------------------------------
  // get_analysis
  // ---------------------------------------------------------------------------

  /** The account-wide currencies are both known and differ. */
  predicate CurrenciesDiffer(b: Billing) {
    b.accountDailyRows != [] && b.accountMonthlyRows != [] &&
    b.accountDailyRows[0].currency != b.accountMonthlyRows[0].currency
  }

  /** What `get_analysis` returns, or the error it raises, with `today` given. */
  function Analysis(s: Settings, b: Billing, today: Date): (r: Result<AnalysisReport, BillingError>)
    requires ValidDate(today)
    ensures r.Err? <==> b.accountDailyRows == [] || b.accountMonthlyRows == [] || CurrenciesDiffer(b)
                        || Costs(s, b, ProjectIds(b.projectRows)).Err?
    ensures CurrenciesDiffer(b) ==> r == Err(CurrencyMismatch)
    ensures r.Err? && !CurrenciesDiffer(b) ==> r.error == NoData
    ensures r.Ok? ==> var summary := r.value.summary;
      summary.projectedCost.currency == summary.pastDay.currency &&
      summary.projectedCost.currency == summary.pastMonth.currency
    ensures r.Ok? ==> var summary := r.value.summary;
      ReadCostRecord(b.accountDailyRows, s.roundingPrecision) == Ok(summary.pastDay) &&
      ReadCostRecord(b.accountMonthlyRows, s.roundingPrecision) == Ok(summary.pastMonth) &&
      summary.projectedCost.cost ==
        ProjectedCost(DaysRemaining(DaysInMonth(today.month, today.year), today), summary.pastDay.cost, summary.pastMonth.cost)
    ensures r.Ok? ==> ByCostDescending(r.value.breakdown)
  {
    var pastDay := ReadCostRecord(b.accountDailyRows, s.roundingPrecision);
    var pastMonth := ReadCostRecord(b.accountMonthlyRows, s.roundingPrecision);
    if pastDay.Err? then Err(pastDay.error)
    else if pastMonth.Err? then Err(pastMonth.error)
    else if pastDay.value.currency != pastMonth.value.currency then Err(CurrencyMismatch)
    else
      var daysRemaining := DaysRemaining(DaysInMonth(today.month, today.year), today);
      var projected := ProjectedCost(daysRemaining, pastDay.value.cost, pastMonth.value.cost);
      var breakdown := Costs(s, b, ProjectIds(b.projectRows));
      if breakdown.Err? then Err(breakdown.error)
      else
        Ok(AnalysisReport(
          SortByCostDescending(breakdown.value),
          Summary(pastDay.value, pastMonth.value, ProjectedCostRecord(projected, pastDay.value.currency))))
  }

  /** The breakdown is the `get_costs` output, sorted by yesterday's cost,
      descending, with equal costs in project order (and nothing else is). */
  lemma AnalysisBreakdownIsStableSort(s: Settings, b: Billing, today: Date)
    requires ValidDate(today)
    requires Analysis(s, b, today).Ok?
    ensures var costs := Costs(s, b, ProjectIds(b.projectRows));
      var breakdown := Analysis(s, b, today).value.breakdown;
      costs.Ok? &&
      multiset(breakdown) == multiset(costs.value) &&
      (forall c :: WithCost(breakdown, c) == WithCost(costs.value, c)) &&
      SortByCostDescending(costs.value) == breakdown
  {
    var costs := Costs(s, b, ProjectIds(b.projectRows)).value;
    SortByCostDescendingPermutes(costs);
    forall c ensures WithCost(Analysis(s, b, today).value.breakdown, c) == WithCost(costs, c) {
      SortByCostDescendingIsStable(costs, c);
    }
  }

  /** Each breakdown record belongs to a listed project and carries top
      services exactly when its status is the warning status; there is one
      record per non-NULL project id. */
  lemma AnalysisBreakdownRecords(s: Settings, b: Billing, today: Date)
    requires ValidDate(today)
    requires Analysis(s, b, today).Ok?
    ensures var breakdown := Analysis(s, b, today).value.breakdown;
      |breakdown| == |ProjectIds(b.projectRows)| &&
      forall p :: p in breakdown ==>
        ProjectRow(Some(p.id)) in b.projectRows &&
        (p.topServices.Some? <==> p.status == s.statusWarning) &&
        p.status == GetStatus(p.oneDayAgo.cost, p.twoDaysAgo.cost, s.warningThresholdMultiplier, s)
  {
    var ids := ProjectIds(b.projectRows);
    var costs := Costs(s, b, ids).value;
    var breakdown := Analysis(s, b, today).value.breakdown;
    SortByCostDescendingPermutes(costs);
    assert multiset(breakdown) == multiset(costs);
    assert |breakdown| == |costs| by {
      assert |multiset(breakdown)| == |multiset(costs)|;
    }
    forall p | p in breakdown
      ensures ProjectRow(Some(p.id)) in b.projectRows
      ensures p.topServices.Some? <==> p.status == s.statusWarning
      ensures p.status == GetStatus(p.oneDayAgo.cost, p.twoDaysAgo.cost, s.warningThresholdMultiplier, s)
    {
      assert p in multiset(costs);
      var i :| 0 <= i < |costs| && costs[i] == p;
      assert ProjectCosts(s, b, ids[i]) == Ok(p);
    }
  }
}
