/** The report formatter of main.py: Slack block builders, the text of the
    ranking and summary lines, and the order in which `slack_notify` sends
    its payloads. Each send appends one payload (a list of blocks) to an
    outbox; delivery itself is not modelled. A cost is shown as `show(cost)`,
    standing for Python's `str` of a float. */
module Report {
  import opened Wrappers
  import opened Config
  import opened CostCalculator
  import opened Repository
  import opened Assembler

  /** `{'type': 'mrkdwn', 'text': text}`. */
  datatype TextObject = Mrkdwn(text: string)

  /** `{'type': 'section', 'text': ...}`, `{'type': 'section', 'fields': [...]}`
      or `{'type': 'divider'}`. */
  datatype Block = TextSection(text: TextObject) | FieldSection(fields: seq<TextObject>) | Divider

  /** The `blocks` argument of one `send_slack_message` call. */
  type Payload = seq<Block>

  // ---------------------------------------------------------------------------
  // Block builders
  // ---------------------------------------------------------------------------

  /** `make_slack_message_section`: a section holding one markdown text. */
  function MakeSection(text: string): (block: Block)
    ensures block.TextSection? && block.text.text == text
  {
    TextSection(Mrkdwn(text))
  }

  /** `make_slack_message_divider`. */
  function MakeDivider(): (block: Block)
    ensures block.Divider?
  {
    Divider
  }

  /** The field section the loop of `make_slack_message_field_section` builds. */
  function FieldSectionOf(fields: seq<string>): Block {
    FieldSection(seq(|fields|, i requires 0 <= i < |fields| => Mrkdwn(fields[i])))
  }

  /** `make_slack_message_field_section`: one markdown field per input
      string, in input order. */
  method MakeFieldSection(fields: seq<string>) returns (section: Block)
    ensures section.FieldSection?
    ensures |section.fields| == |fields|
    ensures forall i :: 0 <= i < |fields| ==> section.fields[i] == Mrkdwn(fields[i])
    ensures section == FieldSectionOf(fields)
  {
    var texts: seq<TextObject> := [];
    for i := 0 to |fields|
      invariant |texts| == i
      invariant forall j :: 0 <= j < i ==> texts[j] == Mrkdwn(fields[j])
    {
      texts := texts + [Mrkdwn(fields[i])];
    }
    section := FieldSection(texts);
  }

  // ---------------------------------------------------------------------------
  // Text of the lines
  // ---------------------------------------------------------------------------

  const LinkPrefix: string := "<https://console.cloud.google.com/home/dashboard?project="

  /** `generate_gcp_project_link`: a link to the project's dashboard whose
      label is the project id. */
  function GcpProjectLink(projectId: string): string {
    LinkPrefix + projectId + "|" + projectId + ">"
  }

  /** The link opens with the dashboard address, carries the id as its
      target and again as its label, and closes with `>`. */
  lemma GcpProjectLinkShape(projectId: string)
    ensures var link := GcpProjectLink(projectId);
      |link| == |LinkPrefix| + 2 * |projectId| + 2 &&
      link[..|LinkPrefix|] == LinkPrefix &&
      link[|LinkPrefix|..|LinkPrefix| + |projectId|] == projectId &&
      link[|LinkPrefix| + |projectId|] == '|' &&
      link[|LinkPrefix| + |projectId| + 1..|link| - 1] == projectId &&
      link[|link| - 1] == '>'
  {
  }

  /** Different projects get different links. */
  lemma GcpProjectLinkInjective(a: string, b: string)
    requires GcpProjectLink(a) == GcpProjectLink(b)
    ensures a == b
  {
    var link := GcpProjectLink(a);
    assert |a| == |b|;
    assert a == link[|LinkPrefix|..|LinkPrefix| + |a|];
  }

  function DigitChar(d: nat): (c: char)
    requires d < 10
    ensures '0' <= c <= '9' && c as int - '0' as int == d
  {
    ('0' as int + d) as char
  }

  predicate AllDigits(str: string) {
    forall i :: 0 <= i < |str| ==> '0' <= str[i] <= '9'
  }

  /** Python's decimal `str` of a non-negative int: digits only, no leading zero. */
  function NatToString(n: nat): (str: string)
    ensures |str| >= 1 && AllDigits(str)
    ensures str[0] == '0' <==> n == 0
  {
    if n < 10 then [DigitChar(n)] else NatToString(n / 10) + [DigitChar(n % 10)]
  }

  /** The number a string of decimal digits denotes. */
  function DecimalValue(str: string): nat
    requires AllDigits(str)
  {
    if str == [] then 0
    else 10 * DecimalValue(str[..|str| - 1]) + (str[|str| - 1] as int - '0' as int)
  }

  /** Reading the digits back gives the number. */
  lemma {:induction false} NatToStringRoundTrip(n: nat)
    ensures DecimalValue(NatToString(n)) == n
  {
    if n >= 10 {
      NatToStringRoundTrip(n / 10);
      var str := NatToString(n);
      assert str[..|str| - 1] == NatToString(n / 10);
    }
  }

  const WarningIcon: string := ":warning:"
  const NominalIcon: string := ":white_check_mark:"

  /** `format_project_title`: `<icon> *<rank>. <link>*`, the icon being
      `:warning:` for the warning status and `:white_check_mark:` otherwise. */
  function FormatProjectTitle(rank: nat, projectId: string, status: string, s: Settings): (title: string)
    ensures status == s.statusWarning ==> StartsWith(title, WarningIcon + " *")
    ensures status != s.statusWarning ==> StartsWith(title, NominalIcon + " *")
    ensures StartsWith(title, WarningIcon) <==> status == s.statusWarning
    ensures var tail := NatToString(rank) + ". " + GcpProjectLink(projectId) + "*";
      |title| >= |tail| && title[|title| - |tail|..] == tail
  {
    var projectLink := GcpProjectLink(projectId);
    var body := NatToString(rank) + ". " + projectLink + "*";
    var title := if status == s.statusWarning then WarningIcon + " *" + body else NominalIcon + " *" + body;
    assert status != s.statusWarning ==> title[2] == 'h' != WarningIcon[2];
    title
  }

  /** `prepare_summary_line` (and the cost line of a ranking line):
      `<cost> <currency>`. */
  function PrepareSummaryLine(cost: real, currency: string, show: real -> string): (line: string)
    ensures |line| == |show(cost)| + 1 + |currency|
    ensures line[..|show(cost)|] == show(cost) && line[|show(cost)|] == ' '
    ensures line[|line| - |currency|..] == currency
  {
    show(cost) + " " + currency
  }

  // ---------------------------------------------------------------------------
  // Payloads, in sending order
  // ---------------------------------------------------------------------------

  /** The payload of `send_project_ranking_line_to_slack`. */
  function RankingLine(rank: nat, p: ProjectReport, s: Settings, show: real -> string): Payload {
    [FieldSectionOf([FormatProjectTitle(rank, p.id, p.status, s),
                     PrepareSummaryLine(p.oneDayAgo.cost, p.oneDayAgo.currency, show)])]
  }

  /** The payloads of `send_project_top_services_to_slack`: a header, then
      one field section per service. */
  function TopServicesPayloads(projectId: string, services: seq<ServiceCost>, show: real -> string): seq<Payload> {
    [[MakeSection("*Top Services for " + projectId + "*:")]] +
    seq(|services|, i requires 0 <= i < |services| =>
      [FieldSectionOf(["- " + services[i].serviceName,
                       PrepareSummaryLine(services[i].cost, services[i].currency, show)])])
  }

  /** The payloads one project contributes: its ranking line, then its top
      services when it has any. */
  function ProjectPayloads(rank: nat, p: ProjectReport, s: Settings, show: real -> string): seq<Payload> {
    [RankingLine(rank, p, s, show)] +
    (if p.topServices.Some? then TopServicesPayloads(p.id, p.topServices.value, show) else [])
  }

  /** The number of payloads a project contributes. */
  function ProjectPayloadCount(p: ProjectReport): nat {
    1 + (if p.topServices.Some? then 1 + |p.topServices.value| else 0)
  }

  /** What `f` gives each item in turn, ranks counted from `rank`. */
  function Ranked<P, T>(f: (nat, P) -> seq<T>, items: seq<P>, rank: nat): seq<T>
    decreases |items|
  {
    if items == [] then []
    else f(rank, items[0]) + Ranked(f, items[1..], rank + 1)
  }

  /** The sum of `count` over `items`. */
  function TotalCount<P>(count: P -> nat, items: seq<P>): nat {
    if items == [] then 0 else count(items[0]) + TotalCount(count, items[1..])
  }

  /** The payloads of the ranking loop, ranks counted from `rank`. */
  function BreakdownPayloads(breakdown: seq<ProjectReport>, rank: nat, s: Settings, show: real -> string): seq<Payload> {
    Ranked(ProjectPayloadsOf(s, show), breakdown, rank)
  }

  /** `ProjectPayloads` as a function of rank and project. The ensures only
      exposes the lambda's value to the solver; it specifies nothing new. */
  function ProjectPayloadsOf(s: Settings, show: real -> string): (f: (nat, ProjectReport) -> seq<Payload>)
    ensures forall r: nat, p: ProjectReport :: f(r, p) == ProjectPayloads(r, p, s, show)
  {
    (r: nat, p: ProjectReport) => ProjectPayloads(r, p, s, show)
  }

  /** Where the payloads of the `k`-th project start. */
  function Offset(breakdown: seq<ProjectReport>, k: nat): nat
    requires k <= |breakdown|
  {
    TotalCount(ProjectPayloadCount, breakdown[..k])
  }

  /** The payloads of `send_summary_to_slack`. */
  function SummaryPayloads(summary: Summary, show: real -> string): seq<Payload> {
    [[MakeSection("*Summary*")],
     [FieldSectionOf([
       "Total Past Day:", PrepareSummaryLine(summary.pastDay.cost, summary.pastDay.currency, show),
       "Total Past Month:", PrepareSummaryLine(summary.pastMonth.cost, summary.pastMonth.currency, show),
       "Projected Cost:", PrepareSummaryLine(summary.projectedCost.cost, summary.projectedCost.currency, show)])]]
  }

  const TitleText: string := "*Daily Billing Analysis Report*"

  /** Everything `slack_notify` sends for a report, in order. */
  function ReportPayloads(report: AnalysisReport, s: Settings, show: real -> string): seq<Payload> {
    [[MakeSection(TitleText), MakeDivider()]] +
    BreakdownPayloads(report.breakdown, 1, s, show) +
    [[MakeDivider()]] +
    SummaryPayloads(report.summary, show)
  }

  // ---------------------------------------------------------------------------
  // Properties of the payload sequence
  // ---------------------------------------------------------------------------

  /** A string begins with `prefix`. */
  predicate StartsWith(str: string, prefix: string) {
    |prefix| <= |str| && str[..|prefix|] == prefix
  }

  /** The top-services payloads: a header naming the project, then one
      field section of two fields per service, in service order. */
  lemma TopServicesPayloadsShape(projectId: string, services: seq<ServiceCost>, show: real -> string)
    ensures var tops := TopServicesPayloads(projectId, services, show);
      |tops| == 1 + |services| &&
      tops[0] == [TextSection(Mrkdwn("*Top Services for " + projectId + "*:"))] &&
      forall i :: 1 <= i < |tops| ==>
        tops[i] == [FieldSection([Mrkdwn("- " + services[i - 1].serviceName),
                                  Mrkdwn(PrepareSummaryLine(services[i - 1].cost, services[i - 1].currency, show))])]
  {
    var tops := TopServicesPayloads(projectId, services, show);
    forall i | 1 <= i < |tops|
      ensures tops[i] == [FieldSection([Mrkdwn("- " + services[i - 1].serviceName),
                                        Mrkdwn(PrepareSummaryLine(services[i - 1].cost, services[i - 1].currency, show))])]
    {
      var fields := ["- " + services[i - 1].serviceName, PrepareSummaryLine(services[i - 1].cost, services[i - 1].currency, show)];
      assert FieldSectionOf(fields).fields == [Mrkdwn(fields[0]), Mrkdwn(fields[1])];
    }
  }

  /** A project contributes `ProjectPayloadCount` payloads. */
  lemma ProjectPayloadsCount(rank: nat, p: ProjectReport, s: Settings, show: real -> string)
    ensures |ProjectPayloads(rank, p, s, show)| == ProjectPayloadCount(p)
  {
    if p.topServices.Some? {
      assert |TopServicesPayloads(p.id, p.topServices.value, show)| == 1 + |p.topServices.value|;
    }
  }

  /** The payloads of project `p`: first its ranking line, one field section
      of two fields whose title is marked `:warning:` exactly for the warning
      status; then its top-services payloads, only when it has top services. */
  lemma ProjectPayloadsShape(rank: nat, p: ProjectReport, s: Settings, show: real -> string)
    ensures var payloads := ProjectPayloads(rank, p, s, show);
      |payloads| == ProjectPayloadCount(p) &&
      |payloads[0]| == 1 && payloads[0][0].FieldSection? && |payloads[0][0].fields| == 2 &&
      (StartsWith(payloads[0][0].fields[0].text, WarningIcon) <==> p.status == s.statusWarning) &&
      payloads[0][0].fields[1].text == PrepareSummaryLine(p.oneDayAgo.cost, p.oneDayAgo.currency, show) &&
      (p.topServices.Some? ==> payloads[1..] == TopServicesPayloads(p.id, p.topServices.value, show)) &&
      (p.topServices.None? ==> |payloads| == 1)
  {
    var payloads := ProjectPayloads(rank, p, s, show);
    var title := FormatProjectTitle(rank, p.id, p.status, s);
    var line := PrepareSummaryLine(p.oneDayAgo.cost, p.oneDayAgo.currency, show);
    assert payloads[0] == RankingLine(rank, p, s, show);
    assert FieldSectionOf([title, line]).fields == [Mrkdwn(title), Mrkdwn(line)];
    if p.topServices.Some? {
      TopServicesPayloadsShape(p.id, p.topServices.value, show);
    }
  }

  /** Ranking `a + b` gives what `a` gives, then what `b` gives with ranks
      continuing after `a`. */
  lemma {:induction false} RankedAppend<P, T>(f: (nat, P) -> seq<T>, a: seq<P>, b: seq<P>, rank: nat)
    ensures Ranked(f, a + b, rank) == Ranked(f, a, rank) + Ranked(f, b, rank + |a|)
  {
    if a == [] {
      assert a + b == b;
    } else {
      assert (a + b)[0] == a[0];
      assert (a + b)[1..] == a[1..] + b;
      RankedAppend(f, a[1..], b, rank + 1);
    }
  }

  /** Ranking `items + [x]` ends with what `x` gives. */
  lemma RankedSnoc<P, T>(f: (nat, P) -> seq<T>, items: seq<P>, x: P, rank: nat)
    ensures Ranked(f, items + [x], rank) == Ranked(f, items, rank) + f(rank + |items|, x)
  {
    RankedAppend(f, items, [x], rank);
    assert [x][1..] == [];
    assert Ranked(f, [x], rank + |items|) == f(rank + |items|, x) + [];
  }

  /** When `f` gives each item `count` of it elements, ranking gives the
      total count. */
  lemma {:induction false} RankedCount<P, T>(f: (nat, P) -> seq<T>, count: P -> nat, items: seq<P>, rank: nat)
    requires forall r: nat, p: P :: |f(r, p)| == count(p)
    ensures |Ranked(f, items, rank)| == TotalCount(count, items)
  {
    if items != [] {
      RankedCount(f, count, items[1..], rank + 1);
    }
  }

  /** Item `k` (rank `rank + k`) contributes the slice that starts after
      the counts of the items before it. */
  lemma RankedAt<P, T>(f: (nat, P) -> seq<T>, count: P -> nat, items: seq<P>, rank: nat, k: nat)
    requires k < |items|
    requires forall r: nat, p: P :: |f(r, p)| == count(p)
    ensures var ranked := Ranked(f, items, rank);
      var lo, hi := TotalCount(count, items[..k]), TotalCount(count, items[..k + 1]);
      |ranked| == TotalCount(count, items) &&
      lo <= hi <= |ranked| &&
      ranked[lo..hi] == f(rank + k, items[k])
  {
    var ranked := Ranked(f, items, rank);
    var before := items[..k];
    var upto := items[..k + 1];
    var after := items[k + 1..];
    var first := Ranked(f, before, rank);
    var mine := f(rank + k, items[k]);
    assert items == upto + after;
    assert upto == before + [items[k]];
    RankedAppend(f, upto, after, rank);
    RankedSnoc(f, before, items[k], rank);
    assert ranked == first + mine + Ranked(f, after, rank + k + 1);
    RankedCount(f, count, items, rank);
    RankedCount(f, count, before, rank);
    RankedCount(f, count, upto, rank);
    assert ranked[|first|..|first| + |mine|] == mine;
  }

  /** The ranking loop sends `Offset(breakdown, |breakdown|)` payloads, those of the `k`-th
      project (rank `rank + k`) sitting at `Offset(breakdown, k)`. */
  lemma BreakdownPayloadsAt(breakdown: seq<ProjectReport>, rank: nat, k: nat, s: Settings, show: real -> string)
    requires k < |breakdown|
    ensures var payloads := BreakdownPayloads(breakdown, rank, s, show);
      |payloads| == Offset(breakdown, |breakdown|) &&
      Offset(breakdown, k) <= Offset(breakdown, k + 1) <= |payloads| &&
      payloads[Offset(breakdown, k)..Offset(breakdown, k + 1)] == ProjectPayloads(rank + k, breakdown[k], s, show)
  {
    var f := ProjectPayloadsOf(s, show);
    forall r: nat, p: ProjectReport ensures |f(r, p)| == ProjectPayloadCount(p) {
      ProjectPayloadsCount(r, p, s, show);
    }
    RankedAt(f, ProjectPayloadCount, breakdown, rank, k);
    assert breakdown[..|breakdown|] == breakdown;
    assert f(rank + k, breakdown[k]) == ProjectPayloads(rank + k, breakdown[k], s, show);
  }

  /** `slack_notify` sends the title and a divider first, the ranking part
      next, then a divider, the summary header, and a six-field summary. */
  lemma ReportPayloadsShape(report: AnalysisReport, s: Settings, show: real -> string)
    ensures var payloads := ReportPayloads(report, s, show);
      var n := |payloads|;
      var bs := report.breakdown;
      n == 4 + Offset(bs, |bs|) &&
      payloads[0] == [TextSection(Mrkdwn(TitleText)), Divider] &&
      payloads[1..n - 3] == BreakdownPayloads(bs, 1, s, show) &&
      payloads[n - 3] == [Divider] &&
      payloads[n - 2] == [TextSection(Mrkdwn("*Summary*"))] &&
      |payloads[n - 1]| == 1 && payloads[n - 1][0].FieldSection? && |payloads[n - 1][0].fields| == 6
  {
    var bs := report.breakdown;
    var ranking := BreakdownPayloads(bs, 1, s, show);
    if bs == [] {
      assert ranking == [];
    } else {
      BreakdownPayloadsAt(bs, 1, 0, s, show);
    }
    var payloads := ReportPayloads(report, s, show);
    assert payloads == [[MakeSection(TitleText), MakeDivider()]] + ranking + [[MakeDivider()]] + SummaryPayloads(report.summary, show);
    assert payloads[1..|payloads| - 3] == ranking;
  }

  // ---------------------------------------------------------------------------
  // Sending (send_slack_message replaced by appending to an outbox)
  // ---------------------------------------------------------------------------

  /** The messages sent so far, oldest first. */
  class Outbox {
    var sent: seq<Payload>

    constructor ()
      ensures sent == []
    {
      sent := [];
    }

    /** One `send_slack_message(blocks=...)` call. */
    method Send(blocks: Payload)
      modifies this
      ensures sent == old(sent) + [blocks]
    {
      sent := sent + [blocks];
    }
  }

  /** `send_project_ranking_line_to_slack`. */
  method SendProjectRankingLine(out: Outbox, rank: nat, p: ProjectReport, s: Settings, show: real -> string)
    modifies out
    ensures out.sent == old(out.sent) + [RankingLine(rank, p, s, show)]
  {
    var title := FormatProjectTitle(rank, p.id, p.status, s);
    var pastDay := show(p.oneDayAgo.cost) + " " + p.oneDayAgo.currency;
    var section := MakeFieldSection([title, pastDay]);
    out.Send([section]);
  }

  /** `send_project_top_services_to_slack`. */
  method SendProjectTopServices(out: Outbox, projectId: string, services: seq<ServiceCost>, show: real -> string)
    modifies out
    ensures out.sent == old(out.sent) + TopServicesPayloads(projectId, services, show)
  {
    out.Send([MakeSection("*Top Services for " + projectId + "*:")]);
    ghost var expected := TopServicesPayloads(projectId, services, show);
    for i := 0 to |services|
      invariant out.sent == old(out.sent) + expected[..i + 1]
    {
      var service := services[i];
      var section := MakeFieldSection(["- " + service.serviceName, show(service.cost) + " " + service.currency]);
      out.Send([section]);
      assert expected[..i + 2] == expected[..i + 1] + [expected[i + 1]];
    }
    assert expected[..|services| + 1] == expected;
  }

  /** `send_summary_to_slack`. */
  method SendSummary(out: Outbox, summary: Summary, show: real -> string)
    modifies out
    ensures out.sent == old(out.sent) + SummaryPayloads(summary, show)
  {
    var totalPastDay := PrepareSummaryLine(summary.pastDay.cost, summary.pastDay.currency, show);
    var totalPastMonth := PrepareSummaryLine(summary.pastMonth.cost, summary.pastMonth.currency, show);
    var projectedCost := PrepareSummaryLine(summary.projectedCost.cost, summary.projectedCost.currency, show);
    out.Send([MakeSection("*Summary*")]);
    var section := MakeFieldSection([
      "Total Past Day:", totalPastDay,
      "Total Past Month:", totalPastMonth,
      "Projected Cost:", projectedCost]);
    out.Send([section]);
  }

  lemma AppendAssociative<T>(a: seq<T>, b: seq<T>, c: seq<T>)
    ensures (a + b) + c == a + (b + c)
  {
  }

  /** One round of the ranking loop of `slack_notify`: the ranking line,
      then the top services when the project has them. */
  method SendProject(out: Outbox, rank: nat, projectData: ProjectReport, s: Settings, show: real -> string)
    modifies out
    ensures out.sent == old(out.sent) + ProjectPayloads(rank, projectData, s, show)
  {
    SendProjectRankingLine(out, rank, projectData, s, show);
    if projectData.topServices.Some? {
      SendProjectTopServices(out, projectData.id, projectData.topServices.value, show);
    }
  }

  /** The ranking loop of `slack_notify`: every project in breakdown order,
      ranks counted from 1. */
  method SendRanking(out: Outbox, breakdown: seq<ProjectReport>, s: Settings, show: real -> string)
    modifies out
    ensures out.sent == old(out.sent) + BreakdownPayloads(breakdown, 1, s, show)
  {
    ghost var f := ProjectPayloadsOf(s, show);
    assert breakdown[..0] == [];
    for k := 0 to |breakdown|
      invariant out.sent == old(out.sent) + Ranked(f, breakdown[..k], 1)
    {
      var projectData := breakdown[k];
      ghost var done := Ranked(f, breakdown[..k], 1);
      assert f(k + 1, projectData) == ProjectPayloads(k + 1, projectData, s, show);
      SendProject(out, k + 1, projectData, s, show);
      assert Ranked(f, breakdown[..k + 1], 1) == done + f(k + 1, projectData) by {
        assert breakdown[..k + 1] == breakdown[..k] + [projectData];
        RankedSnoc(f, breakdown[..k], projectData, 1);
      }
      AppendAssociative(old(out.sent), done, f(k + 1, projectData));
    }
    assert breakdown[..|breakdown|] == breakdown;
  }

  /** The sending part of `slack_notify`: the title and a divider, the
      ranking, a divider, the summary. */
  method SendReport(out: Outbox, report: AnalysisReport, s: Settings, show: real -> string)
    modifies out
    ensures out.sent == old(out.sent) + ReportPayloads(report, s, show)
  {
    out.Send([MakeSection(TitleText), MakeDivider()]);
    SendRanking(out, report.breakdown, s, show);
    out.Send([MakeDivider()]);
    SendSummary(out, report.summary, show);
  }

  /** `slack_notify`: nothing is sent when the analysis raises; otherwise
      exactly the payloads of the report, in order. */
  method SlackNotify(out: Outbox, s: Settings, b: Billing, today: Date, show: real -> string)
    returns (outcome: Result<(), BillingError>)
    requires ValidDate(today)
    modifies out
    ensures Analysis(s, b, today).Err? ==>
      outcome == Err(Analysis(s, b, today).error) && out.sent == old(out.sent)
    ensures Analysis(s, b, today).Ok? ==>
      outcome == Ok(()) && out.sent == old(out.sent) + ReportPayloads(Analysis(s, b, today).value, s, show)
  {
    var analysis := Analysis(s, b, today);
    if analysis.Err? {
      return Err(analysis.error);
    }
    SendReport(out, analysis.value, s, show);
    return Ok(());
  }
}
