/** The cost repository of main.py, after each query has run: the query
    results are given as rows, and these functions and methods turn them into
    the records the analysis works on. */
module Repository {
  import opened Wrappers
  import opened CostCalculator

  /** Why a run stops: a query returned no row where one was read
      (`rows[0]` raising IndexError), or the account-wide currencies differ. */
  datatype BillingError = NoData | CurrencyMismatch

  /** A row of `SELECT DISTINCT project.id AS pid`; the id may be NULL. */
  datatype ProjectRow = ProjectRow(pid: Option<string>)

  /** A row of a per-day or month-to-date cost query (`date` already in ISO form). */
  datatype CostRow = CostRow(cost: real, currency: string, date: string)

  /** A row of the top-services query. */
  datatype ServiceRow = ServiceRow(serviceDesc: string, cost: real, currency: string)

  /** `{'cost', 'currency', 'date'}` (the account-wide queries call the cost `cost_sum`). */
  datatype CostRecord = CostRecord(cost: real, currency: string, date: string)

  /** `{'service_name', 'cost', 'currency'}`. */
  datatype ServiceCost = ServiceCost(serviceName: string, cost: real, currency: string)

  /** What the billing table answers during one run. The per-project queries
      are functions of their arguments: (project id, days ago) for the daily
      cost, (project id, row limit) for the top services. */
  datatype Billing = Billing(
    projectRows: seq<ProjectRow>,
    projectDailyRows: (string, nat) -> seq<CostRow>,
    accountDailyRows: seq<CostRow>,
    accountMonthlyRows: seq<CostRow>,
    topServiceRows: (string, nat) -> seq<ServiceRow>)

  // ---------------------------------------------------------------------------
  // get_project_ids
  // ---------------------------------------------------------------------------

  /** `[row.pid for row in rows if row.pid is not None]`. */
  function ProjectIds(rows: seq<ProjectRow>): (ids: seq<string>)
    ensures |ids| <= |rows|
    ensures forall id :: id in ids <==> ProjectRow(Some(id)) in rows
  {
    if rows == [] then []
    else (if rows[0].pid.Some? then [rows[0].pid.value] else []) + ProjectIds(rows[1..])
  }

  /** The filter works row by row: it keeps the order of the rows it keeps. */
  lemma {:induction false} ProjectIdsAppend(a: seq<ProjectRow>, b: seq<ProjectRow>)
    ensures ProjectIds(a + b) == ProjectIds(a) + ProjectIds(b)
  {
    if a == [] {
      assert a + b == b;
    } else {
      assert (a + b)[1..] == a[1..] + b;
      ProjectIdsAppend(a[1..], b);
    }
  }

  /** Rows without NULL ids all survive, in order. */
  lemma {:induction false} ProjectIdsWithoutNulls(rows: seq<ProjectRow>)
    requires forall i :: 0 <= i < |rows| ==> rows[i].pid.Some?
    ensures |ProjectIds(rows)| == |rows|
    ensures forall i :: 0 <= i < |rows| ==> ProjectIds(rows)[i] == rows[i].pid.value
  {
    if rows != [] {
      ProjectIdsWithoutNulls(rows[1..]);
    }
  }

  /** No element occurs twice. */
  predicate Distinct<T(==)>(s: seq<T>) {
    forall i, j :: 0 <= i < j < |s| ==> s[i] != s[j]
  }

  /** Distinct rows (the query selects DISTINCT) give distinct ids. */
  lemma {:induction false} ProjectIdsDistinct(rows: seq<ProjectRow>)
    requires Distinct(rows)
    ensures Distinct(ProjectIds(rows))
  {
    if rows != [] {
      assert Distinct(rows[1..]) by {
        forall i, j | 0 <= i < j < |rows[1..]| ensures rows[1..][i] != rows[1..][j] {
          assert rows[1..][i] == rows[i + 1] && rows[1..][j] == rows[j + 1];
        }
      }
      ProjectIdsDistinct(rows[1..]);
      var rest := ProjectIds(rows[1..]);
      var ids := ProjectIds(rows);
      if rows[0].pid.Some? {
        forall k | 0 <= k < |rows[1..]| ensures rows[1..][k] != rows[0] {
          assert rows[1..][k] == rows[k + 1];
        }
        assert rows[0].pid.value !in rest;
        assert ids == [rows[0].pid.value] + rest;
        forall i, j | 0 <= i < j < |ids| ensures ids[i] != ids[j] {
          assert ids[j] == rest[j - 1];
          if i > 0 {
            assert ids[i] == rest[i - 1];
          }
        }
      } else {
        assert ids == rest;
      }
    }
  }

  // ---------------------------------------------------------------------------
  // Cost read-out (get_cost_filter_project_daily_interval, get_gcp_*_total_cost)
  // ---------------------------------------------------------------------------

  /** The record built from `rows[0]`, with the cost rounded once; no row is
      the IndexError of `rows[0]`. */
  function ReadCostRecord(rows: seq<CostRow>, precision: nat): (r: Result<CostRecord, BillingError>)
    ensures r.Err? <==> rows == []
    ensures r.Err? ==> r.error == NoData
    ensures r.Ok? ==> r.value.currency == rows[0].currency && r.value.date == rows[0].date
    ensures r.Ok? ==> AtPrecision(r.value.cost, precision)
    ensures r.Ok? ==> -0.5 <= Scale(r.value.cost - rows[0].cost, precision) <= 0.5
  {
    if rows == [] then Err(NoData)
    else Ok(CostRecord(RoundCost(rows[0].cost, precision), rows[0].currency, rows[0].date))
  }

  // ---------------------------------------------------------------------------
  // get_gcp_project_daily_top_services (the row loop)
  // ---------------------------------------------------------------------------

  /** One service record per row, in row order, with the cost rounded. */
  function ServiceCosts(rows: seq<ServiceRow>, precision: nat): seq<ServiceCost> {
    seq(|rows|, i requires 0 <= i < |rows| =>
      ServiceCost(rows[i].serviceDesc, RoundCost(rows[i].cost, precision), rows[i].currency))
  }

  /** The loop of `get_gcp_project_daily_top_services` that appends one
      `{service_name, cost, currency}` record per row. */
  method TopServices(rows: seq<ServiceRow>, precision: nat) returns (services: seq<ServiceCost>)
    ensures |services| == |rows|
    ensures forall i :: 0 <= i < |rows| ==>
      services[i].serviceName == rows[i].serviceDesc &&
      services[i].cost == RoundCost(rows[i].cost, precision) &&
      services[i].currency == rows[i].currency
    ensures services == ServiceCosts(rows, precision)
  {
    services := [];
    for i := 0 to |rows|
      invariant |services| == i
      invariant forall j :: 0 <= j < i ==>
        services[j] == ServiceCost(rows[j].serviceDesc, RoundCost(rows[j].cost, precision), rows[j].currency)
    {
      services := services + [ServiceCost(rows[i].serviceDesc, RoundCost(rows[i].cost, precision), rows[i].currency)];
    }
  }

  predicate ServiceRowsByCostDescending(rows: seq<ServiceRow>) {
    forall i, j :: 0 <= i < j < |rows| ==> rows[i].cost >= rows[j].cost
  }

  predicate ServicesByCostDescending(services: seq<ServiceCost>) {
    forall i, j :: 0 <= i < j < |services| ==> services[i].cost >= services[j].cost
  }

  /** The query returns rows by cost, descending; rounding keeps that order. */
  lemma ServiceCostsKeepOrder(rows: seq<ServiceRow>, precision: nat)
    requires ServiceRowsByCostDescending(rows)
    ensures ServicesByCostDescending(ServiceCosts(rows, precision))
  {
    var services := ServiceCosts(rows, precision);
    forall i, j | 0 <= i < j < |services|
      ensures services[i].cost >= services[j].cost
    {
      RoundCostMonotone(rows[j].cost, rows[i].cost, precision);
    }
  }
}
