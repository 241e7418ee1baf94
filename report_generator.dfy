/**
 * `ReportGenerator`: the pending -> generating -> completed/failed status
 * machine over the reports table, project selection, and report metrics.
 */
module ReportGenerator {
  import opened Wrappers
  import opened Json
  import opened Schema
  import opened Tables
  import Seqs
  import Storage

  const NotFound := "Report not found"

  // ------------------------------------------------------------ metrics

  /** `processReportData`'s selection: the listed projects, or every project when the list is absent or empty. */
  function SelectProjects(projects: seq<Project>, projectIds: Option<seq<string>>): (ps: seq<Project>)
    ensures projectIds.None? || projectIds.value == [] ==> ps == projects
    ensures projectIds.Some? && projectIds.value != [] ==>
      && (forall i :: 0 <= i < |ps| ==> ps[i] in projects && ps[i].id in projectIds.value)
      && (forall i :: 0 <= i < |projects| && projects[i].id in projectIds.value ==> projects[i] in ps)
    // each listed project is selected as often as it is stored, every other project never
    ensures projectIds.Some? && projectIds.value != [] ==>
      forall x :: multiset(ps)[x] == if x.id in projectIds.value then multiset(projects)[x] else 0
  {
    if projectIds.Some? && |projectIds.value| > 0 then
      var listed := (p: Project) => p.id in projectIds.value;
      Seqs.FilterCounts(projects, listed);
      Seqs.Filter(projects, listed)
    else projects
  }

  /** `p.teamMembers?.length || 0` summed over the projects. */
  function TeamMemberCount(projects: seq<Project>): (n: nat)
    ensures projects == [] ==> n == 0
    ensures |projects| == 1 ==>
      n == if projects[0].teamMembers.Some? then |projects[0].teamMembers.value| else 0
    ensures forall i :: 0 <= i < |projects| && projects[i].teamMembers.Some? ==>
      |projects[i].teamMembers.value| <= n
    decreases |projects|
  {
    if projects == [] then 0
    else
      var p := projects[|projects| - 1];
      TeamMemberCount(projects[..|projects| - 1]) + (if p.teamMembers.Some? then |p.teamMembers.value| else 0)
  }

  /** Team-member counts add up over concatenated project lists. */
  lemma {:induction false} TeamMemberCountAppend(a: seq<Project>, b: seq<Project>)
    ensures TeamMemberCount(a + b) == TeamMemberCount(a) + TeamMemberCount(b)
    decreases |b|
  {
    if b == [] {
      assert a + b == a;
    } else {
      TeamMemberCountAppend(a, b[..|b| - 1]);
      assert (a + b)[..|a + b| - 1] == a + b[..|b| - 1];
    }
  }

  /** `(part / whole) * 100` in exact arithmetic. */
  function Percentage(part: nat, whole: nat): (r: real)
    requires 0 < whole && part <= whole
    ensures r * (whole as real) == 100.0 * (part as real)
    ensures 0.0 <= r <= 100.0
  {
    var q := (part as real) / (whole as real);
    assert q * (whole as real) == part as real;
    assert (1.0 - q) * (whole as real) == (whole as real) - (part as real);
    q * 100.0
  }

  /** `totalProjects > 0 ? (completedProjects / totalProjects) * 100 : 0`. */
  function CompletionRate(completed: nat, total: nat): (r: real)
    requires completed <= total
    ensures total == 0 ==> r == 0.0
    ensures total > 0 ==> r * (total as real) == 100.0 * (completed as real)
    ensures 0.0 <= r <= 100.0
  {
    if total > 0 then Percentage(completed, total) else 0.0
  }

  datatype ProjectMetrics = ProjectMetrics(
    totalProjects: nat, completedProjects: nat, activeProjects: nat, completionRate: real, teamMembers: nat)

  /**
   * `calculateMetrics`: counts by status, the exact completion percentage
   * (0 for no projects), and the total number of team-member slots.
   */
  function CalculateMetrics(projects: seq<Project>): (m: ProjectMetrics)
    ensures m.totalProjects == |projects|
    ensures m.completedProjects == |Seqs.Filter(projects, Storage.IsCompletedProject)|
    ensures m.activeProjects == |Seqs.Filter(projects, Storage.IsActiveProject)|
    ensures m.completedProjects + m.activeProjects <= m.totalProjects
    ensures m.completionRate == CompletionRate(m.completedProjects, m.totalProjects)
    ensures m.teamMembers == TeamMemberCount(projects)
  {
    var total := |projects|;
    var completed := |Seqs.Filter(projects, Storage.IsCompletedProject)|;
    var active := |Seqs.Filter(projects, Storage.IsActiveProject)|;
    Seqs.FilterDisjointBound(projects, Storage.IsCompletedProject, Storage.IsActiveProject);
    var rate := CompletionRate(completed, total);
    ProjectMetrics(total, completed, active, rate, TeamMemberCount(projects))
  }

  function MetricsJson(m: ProjectMetrics): (j: Json)
    ensures j.JObj? && j.fields.Keys == {"totalProjects", "completedProjects", "activeProjects", "completionRate", "teamMembers"}
    ensures j.fields["totalProjects"] == JNum(m.totalProjects as real)
    ensures j.fields["completedProjects"] == JNum(m.completedProjects as real)
    ensures j.fields["activeProjects"] == JNum(m.activeProjects as real)
    ensures j.fields["completionRate"] == JNum(m.completionRate)
    ensures j.fields["teamMembers"] == JNum(m.teamMembers as real)
  {
    JObj(map[
      "totalProjects" := JNum(m.totalProjects as real),
      "completedProjects" := JNum(m.completedProjects as real),
      "activeProjects" := JNum(m.activeProjects as real),
      "completionRate" := JNum(m.completionRate),
      "teamMembers" := JNum(m.teamMembers as real)])
  }

  // ------------------------------------------------------------ the status machine

  /** `{ metrics }`. */
  function MetricsPatch(metrics: Json): ReportPatch {
    ReportPatch(None, None, None, None, None, None, Some(metrics), None, None)
  }

  /** `{ status: "completed", filePath, generatedAt }`. */
  function CompletionPatch(filePath: string, now: Timestamp): ReportPatch {
    ReportPatch(None, None, None, Some("completed"), None, None, None, Some(Some(now)), Some(Some(filePath)))
  }

  function FilePath(reportId: string, format: string): (path: string)
    ensures |path| == 10 + |reportId| + |format|
    ensures path[..9] == "/reports/" && path[9 + |reportId|] == '.'
    ensures path[9..9 + |reportId|] == reportId && path[10 + |reportId|..] == format
  {
    "/reports/" + reportId + "." + format
  }

  /** The metrics `processReportData` computes for `report` from the stored projects. */
  function ReportMetrics(projects: seq<Project>, report: Report): Json {
    MetricsJson(CalculateMetrics(SelectProjects(projects, report.projectIds)))
  }

  /**
   * The reports table after `generateReport` on a stored report: "generating",
   * then either "failed" or the metrics (written under the snapshot's own id)
   * followed by the completion patch.
   */
  function Generated(t: Table<Report>, projects: seq<Project>, reportId: string, fault: Option<string>,
                     now: Timestamp): (t': Table<Report>)
    requires Tables.Valid(t) && reportId in t.rows
    ensures Tables.Valid(t') && t'.keys == t.keys
  {
    var report := t.rows[reportId];
    var generating := Storage.UpdateReportIn(t, reportId, StatusPatch("generating"), now);
    if fault.Some? then
      Storage.UpdateReportIn(generating, reportId, StatusPatch("failed"), now)
    else
      var measured := Storage.UpdateReportIn(generating, report.id, MetricsPatch(ReportMetrics(projects, report)), now);
      Storage.UpdateReportIn(measured, reportId, CompletionPatch(FilePath(reportId, report.format), now), now)
  }

  /** A failed generation marks the report "failed" and changes nothing else in it or in any other report. */
  lemma GenerationFailure(t: Table<Report>, projects: seq<Project>, reportId: string, error: string, now: Timestamp)
    requires Tables.Valid(t) && reportId in t.rows
    ensures var t' := Generated(t, projects, reportId, Some(error), now);
      && t'.keys == t.keys
      && t'.rows == t.rows[reportId := t.rows[reportId].(status := "failed")]
  {
  }

  /**
   * A successful generation of a report stored under its own id leaves it
   * completed, with the file path, the clock's time and the computed metrics,
   * every other field as it was, and every other report untouched.
   */
  lemma GenerationSuccess(t: Table<Report>, projects: seq<Project>, reportId: string, now: Timestamp)
    requires Tables.Valid(t) && reportId in t.rows && t.rows[reportId].id == reportId
    ensures var old_ := t.rows[reportId];
      var t' := Generated(t, projects, reportId, None, now);
      && t'.keys == t.keys
      && t'.rows == t.rows[reportId := old_.(
           status := "completed", filePath := Some(FilePath(reportId, old_.format)),
           generatedAt := Some(now), metrics := ReportMetrics(projects, old_))]
  {
  }

  /** `generateReport`, with processing failure as the `fault` input (the store itself never fails). */
  method GenerateReport(storage: Storage.MemStorage, reportId: string, fault: Option<string>, now: Timestamp)
    returns (outcome: Outcome<string>)
    requires storage.Valid()
    modifies storage`reports
    ensures storage.Valid()
    ensures reportId !in old(storage.reports.rows) ==>
      outcome == Fail(NotFound) && storage.reports == old(storage.reports)
    ensures reportId in old(storage.reports.rows) ==>
      && outcome == (if fault.Some? then Fail(fault.value) else Pass)
      && storage.reports == Generated(old(storage.reports), Values(storage.projects), reportId, fault, now)
  {
    var found := storage.GetReport(reportId);
    if found.None? {
      return Fail(NotFound);
    }
    var report := found.value;
    var generating := storage.UpdateReport(reportId, StatusPatch("generating"), now);
    if fault.Some? {
      var failed := storage.UpdateReport(reportId, StatusPatch("failed"), now);
      return Fail(fault.value);
    }
    ProcessReportData(storage, report, now);
    var completed := storage.UpdateReport(reportId, CompletionPatch(FilePath(reportId, report.format), now), now);
    outcome := Pass;
  }

  /** `processReportData`: compute the metrics of the selected projects and store them under `report.id`. */
  method ProcessReportData(storage: Storage.MemStorage, report: Report, now: Timestamp)
    requires storage.Valid()
    modifies storage`reports
    ensures storage.Valid()
    ensures storage.reports ==
      Storage.UpdateReportIn(old(storage.reports), report.id, MetricsPatch(ReportMetrics(Values(storage.projects), report)), now)
  {
    var projects := storage.GetProjects();
    var selected := SelectProjects(projects, report.projectIds);
    var metrics := CalculateMetrics(selected);
    var updated := storage.UpdateReport(report.id, MetricsPatch(MetricsJson(metrics)), now);
  }

  /** The draft `generateWeeklyReport` passes to `createReport`. */
  function WeeklyDraft(dateLabel: string): InsertReport {
    InsertReport("Weekly Sprint Report - " + dateLabel, "weekly", Some("pending"), Some("pdf"), Some([]),
      Some(EmptyObject), None)
  }

  /**
   * `generateWeeklyReport`: one new pending weekly PDF report over all projects
   * with empty metrics; its deferred generation is not part of this call.
   */
  method GenerateWeeklyReport(storage: Storage.MemStorage, dateLabel: string, now: Timestamp) returns (report: Report)
    requires storage.Valid()
    modifies storage`reports, storage`nextId
    ensures storage.Valid()
    ensures report.kind == "weekly" && report.status == "pending" && report.format == "pdf"
    ensures report.projectIds == Some([]) && report.metrics == EmptyObject
    ensures report.generatedAt.None? && report.filePath.None?
    ensures report.title == "Weekly Sprint Report - " + dateLabel
    ensures report.id == Storage.IdFor(old(storage.nextId)) && report.id !in old(storage.reports.rows)
    ensures Values(storage.reports) == old(Values(storage.reports)) + [report]
    ensures storage.reports == Put(old(storage.reports), report.id, report)
    ensures report.id in storage.reports.rows && storage.nextId == old(storage.nextId) + 1
  {
    report := storage.CreateReport(WeeklyDraft(dateLabel), now);
  }
}
