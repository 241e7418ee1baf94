/**
 * `MemStorage`: six `Map` tables updated in place, `randomUUID` for ids, a
 * clock for `new Date()`, and the `getMetrics` aggregate.
 */
module Storage {
  import opened Wrappers
  import opened Json
  import opened Schema
  import opened Tables
  import Text
  import Numbers
  import Seqs

  /** The id `randomUUID()` hands out the n-th time: the oracle is a counter. */
  function IdFor(n: nat): string {
    Text.NatToString(n)
  }

  /** Every key of `t` was handed out before the counter reached `n`. */
  ghost predicate IssuedBelow<R>(t: Table<R>, n: nat) {
    forall k :: k in t.rows ==> Text.ParseNat(k) < n
  }

  /** `o || fallback` for an optional string column: absent and `""` both fall back. */
  function OrString(o: Option<string>, fallback: string): (r: string)
    ensures o.Some? && o.value != "" ==> r == o.value
    ensures o.None? || o.value == "" ==> r == fallback
  {
    if o.Some? && o.value != "" then o.value else fallback
  }

  /** `o || null` for an optional string column. */
  function OrNull(o: Option<string>): (r: Option<string>)
    ensures r != Some("")
    ensures o.Some? && o.value != "" ==> r == o
    ensures o.None? || o.value == "" ==> r.None?
  {
    if o.Some? && o.value != "" then o else None
  }

  // ---------------------------------------------------------------- projects

  /** The record `createProject` stores: the input, the new id, and defaults for falsy fields. */
  function ProjectFromInsert(ins: InsertProject, id: string): (p: Project)
    ensures p.id == id
    ensures p.name == ins.name && p.source == ins.source && p.sourceId == ins.sourceId
    ensures ins.status.Some? && ins.status.value != "" ==> p.status == ins.status.value
    ensures ins.status.None? || ins.status.value == "" ==> p.status == "active"
    ensures ins.teamMembers.Some? ==> p.teamMembers == ins.teamMembers
    ensures ins.teamMembers.None? ==> p.teamMembers == Some([])
    ensures ins.metadata.Some? && !Falsy(ins.metadata.value) ==> p.metadata == ins.metadata.value
    ensures ins.metadata.None? || Falsy(ins.metadata.value) ==> p.metadata == EmptyObject
    ensures ins.description.Some? && ins.description.value != "" ==> p.description == ins.description
    ensures ins.description.None? || ins.description.value == "" ==> p.description.None?
  {
    Project(id, ins.name, OrNull(ins.description), ins.source, ins.sourceId,
      OrString(ins.status, "active"), Some(ins.teamMembers.GetOr([])),
      OrDefault(ins.metadata, EmptyObject))
  }

  /** `{ ...existing, ...patch }`. */
  function MergeProject(e: Project, patch: ProjectPatch): (r: Project)
    // every key the patch carries overrides the stored value
    ensures
      && (patch.id.Some? ==> r.id == patch.id.value)
      && (patch.name.Some? ==> r.name == patch.name.value)
      && (patch.description.Some? ==> r.description == patch.description.value)
      && (patch.source.Some? ==> r.source == patch.source.value)
      && (patch.sourceId.Some? ==> r.sourceId == patch.sourceId.value)
      && (patch.status.Some? ==> r.status == patch.status.value)
      && (patch.teamMembers.Some? ==> r.teamMembers == patch.teamMembers.value)
      && (patch.metadata.Some? ==> r.metadata == patch.metadata.value)
    // every key it lacks keeps the stored value
    ensures
      && (patch.id.None? ==> r.id == e.id)
      && (patch.name.None? ==> r.name == e.name)
      && (patch.description.None? ==> r.description == e.description)
      && (patch.source.None? ==> r.source == e.source)
      && (patch.sourceId.None? ==> r.sourceId == e.sourceId)
      && (patch.status.None? ==> r.status == e.status)
      && (patch.teamMembers.None? ==> r.teamMembers == e.teamMembers)
      && (patch.metadata.None? ==> r.metadata == e.metadata)
  {
    Project(patch.id.GetOr(e.id), patch.name.GetOr(e.name), patch.description.GetOr(e.description),
      patch.source.GetOr(e.source), patch.sourceId.GetOr(e.sourceId), patch.status.GetOr(e.status),
      patch.teamMembers.GetOr(e.teamMembers), patch.metadata.GetOr(e.metadata))
  }

  /** `updateProject` on the table: merge under the same key, or nothing when the key is missing. */
  function UpdateProjectIn(t: Table<Project>, id: string, patch: ProjectPatch): (t': Table<Project>)
    requires Tables.Valid(t)
    ensures Tables.Valid(t')
  {
    if id in t.rows then Put(t, id, MergeProject(t.rows[id], patch)) else t
  }

  // ----------------------------------------------------------------- reports

  /** The record `createReport` stores; `generatedAt` is stamped only for a report created completed. */
  function ReportFromInsert(ins: InsertReport, id: string, now: Timestamp): (r: Report)
    ensures r.id == id && r.title == ins.title && r.kind == ins.kind
    ensures r.generatedAt.Some? <==> ins.status == Some("completed")
    ensures r.generatedAt.Some? ==> r.generatedAt == Some(now)
    ensures ins.status.Some? && ins.status.value != "" ==> r.status == ins.status.value
    ensures ins.status.None? || ins.status.value == "" ==> r.status == "pending"
    ensures ins.format.Some? && ins.format.value != "" ==> r.format == ins.format.value
    ensures ins.format.None? || ins.format.value == "" ==> r.format == "pdf"
    ensures ins.projectIds.Some? ==> r.projectIds == ins.projectIds
    ensures ins.projectIds.None? ==> r.projectIds == Some([])
    ensures ins.metrics.Some? && !Falsy(ins.metrics.value) ==> r.metrics == ins.metrics.value
    ensures ins.metrics.None? || Falsy(ins.metrics.value) ==> r.metrics == EmptyObject
    ensures ins.filePath.Some? && ins.filePath.value != "" ==> r.filePath == ins.filePath
    ensures ins.filePath.None? || ins.filePath.value == "" ==> r.filePath.None?
  {
    Report(id, ins.title, ins.kind, OrString(ins.status, "pending"), OrString(ins.format, "pdf"),
      Some(ins.projectIds.GetOr([])), OrDefault(ins.metrics, EmptyObject),
      if ins.status == Some("completed") then Some(now) else None, OrNull(ins.filePath))
  }

  /**
   * `updateReport`'s record: `{ ...existing, ...patch }`, then `generatedAt` is
   * stamped when the merged report is completed and has none.
   */
  function MergeReport(e: Report, patch: ReportPatch, now: Timestamp): (r: Report)
    ensures r.status == patch.status.GetOr(e.status)
    ensures r.status == "completed" ==> r.generatedAt.Some?
    ensures r.generatedAt != patch.generatedAt.GetOr(e.generatedAt) ==>
      r.status == "completed" && r.generatedAt == Some(now)
    ensures r.id == patch.id.GetOr(e.id) && r.format == patch.format.GetOr(e.format)
    // a stamp the merged report already has is kept; a completed report without one gets the clock
    ensures patch.generatedAt.GetOr(e.generatedAt).Some? ==> r.generatedAt == patch.generatedAt.GetOr(e.generatedAt)
    ensures r.status != "completed" ==> r.generatedAt == patch.generatedAt.GetOr(e.generatedAt)
    ensures r.status == "completed" && patch.generatedAt.GetOr(e.generatedAt).None? ==> r.generatedAt == Some(now)
    // every other key the patch carries overrides the stored value
    ensures
      && (patch.title.Some? ==> r.title == patch.title.value)
      && (patch.kind.Some? ==> r.kind == patch.kind.value)
      && (patch.projectIds.Some? ==> r.projectIds == patch.projectIds.value)
      && (patch.metrics.Some? ==> r.metrics == patch.metrics.value)
      && (patch.filePath.Some? ==> r.filePath == patch.filePath.value)
    // every other key it lacks keeps the stored value
    ensures
      && (patch.title.None? ==> r.title == e.title)
      && (patch.kind.None? ==> r.kind == e.kind)
      && (patch.projectIds.None? ==> r.projectIds == e.projectIds)
      && (patch.metrics.None? ==> r.metrics == e.metrics)
      && (patch.filePath.None? ==> r.filePath == e.filePath)
  {
    var u := Report(patch.id.GetOr(e.id), patch.title.GetOr(e.title), patch.kind.GetOr(e.kind),
      patch.status.GetOr(e.status), patch.format.GetOr(e.format), patch.projectIds.GetOr(e.projectIds),
      patch.metrics.GetOr(e.metrics), patch.generatedAt.GetOr(e.generatedAt),
      patch.filePath.GetOr(e.filePath));
    if u.status == "completed" && u.generatedAt.None? then u.(generatedAt := Some(now)) else u
  }

  function UpdateReportIn(t: Table<Report>, id: string, patch: ReportPatch, now: Timestamp): (t': Table<Report>)
    requires Tables.Valid(t)
    ensures Tables.Valid(t')
  {
    if id in t.rows then Put(t, id, MergeReport(t.rows[id], patch, now)) else t
  }

  // ------------------------------------------------------------ integrations

  function IntegrationFromInsert(ins: InsertIntegration, id: string): (i: Integration)
    ensures i.id == id && i.name == ins.name && i.kind == ins.kind
    ensures ins.status.Some? && ins.status.value != "" ==> i.status == ins.status.value
    ensures ins.status.None? || ins.status.value == "" ==> i.status == "active"
    ensures ins.apiKey.Some? && ins.apiKey.value != "" ==> i.apiKey == ins.apiKey
    ensures ins.apiKey.None? || ins.apiKey.value == "" ==> i.apiKey.None?
    ensures ins.config.Some? && !Falsy(ins.config.value) ==> i.config == ins.config.value
    ensures ins.config.None? || Falsy(ins.config.value) ==> i.config == EmptyObject
    ensures i.lastSync.None?
  {
    Integration(id, ins.name, ins.kind, OrString(ins.status, "active"), OrNull(ins.apiKey),
      OrDefault(ins.config, EmptyObject), None)
  }

  function MergeIntegration(e: Integration, patch: IntegrationPatch): (r: Integration)
    // every key the patch carries overrides the stored value
    ensures
      && (patch.id.Some? ==> r.id == patch.id.value)
      && (patch.name.Some? ==> r.name == patch.name.value)
      && (patch.kind.Some? ==> r.kind == patch.kind.value)
      && (patch.status.Some? ==> r.status == patch.status.value)
      && (patch.apiKey.Some? ==> r.apiKey == patch.apiKey.value)
      && (patch.config.Some? ==> r.config == patch.config.value)
      && (patch.lastSync.Some? ==> r.lastSync == patch.lastSync.value)
    // every key it lacks keeps the stored value
    ensures
      && (patch.id.None? ==> r.id == e.id)
      && (patch.name.None? ==> r.name == e.name)
      && (patch.kind.None? ==> r.kind == e.kind)
      && (patch.status.None? ==> r.status == e.status)
      && (patch.apiKey.None? ==> r.apiKey == e.apiKey)
      && (patch.config.None? ==> r.config == e.config)
      && (patch.lastSync.None? ==> r.lastSync == e.lastSync)
  {
    Integration(patch.id.GetOr(e.id), patch.name.GetOr(e.name), patch.kind.GetOr(e.kind),
      patch.status.GetOr(e.status), patch.apiKey.GetOr(e.apiKey), patch.config.GetOr(e.config),
      patch.lastSync.GetOr(e.lastSync))
  }

  function UpdateIntegrationIn(t: Table<Integration>, id: string, patch: IntegrationPatch): (t': Table<Integration>)
    requires Tables.Valid(t)
    ensures Tables.Valid(t')
  {
    if id in t.rows then Put(t, id, MergeIntegration(t.rows[id], patch)) else t
  }

  // ------------------------------------------------------------ team members

  function TeamMemberFromInsert(ins: InsertTeamMember, id: string): (m: TeamMember)
    ensures m.id == id && m.name == ins.name && m.email == ins.email
    ensures m.initials == ins.initials && m.role == ins.role
    ensures ins.projectIds.Some? ==> m.projectIds == ins.projectIds
    ensures ins.projectIds.None? ==> m.projectIds == Some([])
  {
    TeamMember(id, ins.name, ins.email, ins.initials, ins.role, Some(ins.projectIds.GetOr([])))
  }

  function MergeTeamMember(e: TeamMember, patch: TeamMemberPatch): (r: TeamMember)
    // every key the patch carries overrides the stored value
    ensures
      && (patch.id.Some? ==> r.id == patch.id.value)
      && (patch.name.Some? ==> r.name == patch.name.value)
      && (patch.email.Some? ==> r.email == patch.email.value)
      && (patch.initials.Some? ==> r.initials == patch.initials.value)
      && (patch.role.Some? ==> r.role == patch.role.value)
      && (patch.projectIds.Some? ==> r.projectIds == patch.projectIds.value)
    // every key it lacks keeps the stored value
    ensures
      && (patch.id.None? ==> r.id == e.id)
      && (patch.name.None? ==> r.name == e.name)
      && (patch.email.None? ==> r.email == e.email)
      && (patch.initials.None? ==> r.initials == e.initials)
      && (patch.role.None? ==> r.role == e.role)
      && (patch.projectIds.None? ==> r.projectIds == e.projectIds)
  {
    TeamMember(patch.id.GetOr(e.id), patch.name.GetOr(e.name), patch.email.GetOr(e.email),
      patch.initials.GetOr(e.initials), patch.role.GetOr(e.role), patch.projectIds.GetOr(e.projectIds))
  }

  function UpdateTeamMemberIn(t: Table<TeamMember>, id: string, patch: TeamMemberPatch): (t': Table<TeamMember>)
    requires Tables.Valid(t)
    ensures Tables.Valid(t')
  {
    if id in t.rows then Put(t, id, MergeTeamMember(t.rows[id], patch)) else t
  }

  // -------------------------------------------------------- automation rules

  /**
   * The record `createAutomationRule` stores: `confidence || 0`,
   * `applications || 0`, and `isActive` true unless the input says otherwise.
   */
  function RuleFromInsert(ins: InsertAutomationRule, id: string): (r: AutomationRule)
    ensures r.id == id && r.title == ins.title && r.description == ins.description && r.kind == ins.kind
    ensures r.condition == ins.condition && r.action == ins.action
    ensures ins.confidence.None? ==> r.confidence == 0
    ensures ins.confidence.Some? ==> r.confidence == ins.confidence.value
    ensures ins.applications.None? ==> r.applications == 0
    ensures ins.applications.Some? ==> r.applications == ins.applications.value
    ensures r.isActive <==> ins.isActive != Some(false)
  {
    AutomationRule(id, ins.title, ins.description, ins.kind, ins.condition, ins.action,
      ins.confidence.GetOr(0), ins.applications.GetOr(0), ins.isActive.GetOr(true))
  }

  function MergeRule(e: AutomationRule, patch: RulePatch): (r: AutomationRule)
    // every key the patch carries overrides the stored value
    ensures
      && (patch.id.Some? ==> r.id == patch.id.value)
      && (patch.title.Some? ==> r.title == patch.title.value)
      && (patch.description.Some? ==> r.description == patch.description.value)
      && (patch.kind.Some? ==> r.kind == patch.kind.value)
      && (patch.condition.Some? ==> r.condition == patch.condition.value)
      && (patch.action.Some? ==> r.action == patch.action.value)
      && (patch.confidence.Some? ==> r.confidence == patch.confidence.value)
      && (patch.applications.Some? ==> r.applications == patch.applications.value)
      && (patch.isActive.Some? ==> r.isActive == patch.isActive.value)
    // every key it lacks keeps the stored value
    ensures
      && (patch.id.None? ==> r.id == e.id)
      && (patch.title.None? ==> r.title == e.title)
      && (patch.description.None? ==> r.description == e.description)
      && (patch.kind.None? ==> r.kind == e.kind)
      && (patch.condition.None? ==> r.condition == e.condition)
      && (patch.action.None? ==> r.action == e.action)
      && (patch.confidence.None? ==> r.confidence == e.confidence)
      && (patch.applications.None? ==> r.applications == e.applications)
      && (patch.isActive.None? ==> r.isActive == e.isActive)
  {
    AutomationRule(patch.id.GetOr(e.id), patch.title.GetOr(e.title),
      patch.description.GetOr(e.description), patch.kind.GetOr(e.kind),
      patch.condition.GetOr(e.condition), patch.action.GetOr(e.action),
      patch.confidence.GetOr(e.confidence), patch.applications.GetOr(e.applications),
      patch.isActive.GetOr(e.isActive))
  }

  /** A `{ confidence }` patch changes the confidence and nothing else. */
  lemma ConfidencePatchOnly(e: AutomationRule, c: int)
    ensures MergeRule(e, ConfidencePatch(c)) == e.(confidence := c)
  {
  }

  /** Applying the same patch twice is applying it once. */
  lemma MergeRuleIdempotent(e: AutomationRule, patch: RulePatch)
    ensures MergeRule(MergeRule(e, patch), patch) == MergeRule(e, patch)
  {
  }

  function UpdateRuleIn(t: Table<AutomationRule>, id: string, patch: RulePatch): (t': Table<AutomationRule>)
    requires Tables.Valid(t)
    ensures Tables.Valid(t')
    ensures id !in t.rows ==> t' == t
    ensures id in t.rows ==> t'.keys == t.keys && t'.rows == t.rows[id := MergeRule(t.rows[id], patch)]
  {
    if id in t.rows then Put(t, id, MergeRule(t.rows[id], patch)) else t
  }

  // ---------------------------------------------------------- user behaviour

  /** The event `createUserBehavior` stores: the context defaults to `{}`, the timestamp is the clock. */
  function BehaviorFromInsert(ins: InsertUserBehavior, id: string, now: Timestamp): (b: UserBehavior)
    ensures b.id == id && b.userId == ins.userId && b.action == ins.action && b.timestamp == now
    ensures ins.context.Some? && !Falsy(ins.context.value) ==> b.context == ins.context.value
    ensures ins.context.None? || Falsy(ins.context.value) ==> b.context == EmptyObject
  {
    UserBehavior(id, ins.userId, ins.action, OrDefault(ins.context, EmptyObject), now)
  }

  predicate HasAction(action: string, b: UserBehavior) {
    b.action == action
  }

  // ----------------------------------------------------------------- metrics

  datatype StoreMetrics = StoreMetrics(reportsGenerated: nat, activeProjects: nat, completionRate: int, timeSaved: nat)

  predicate IsCompletedReport(r: Report) { r.status == "completed" }
  predicate IsActiveProject(p: Project) { p.status == "active" }
  predicate IsCompletedProject(p: Project) { p.status == "completed" }

  /**
   * `getMetrics`: completed reports, five hours saved per completed report, active
   * projects, and the share of completed projects as a rounded percentage.
   */
  function Metrics(reports: seq<Report>, projects: seq<Project>): (m: StoreMetrics)
    ensures m.reportsGenerated == |Seqs.Filter(reports, IsCompletedReport)| <= |reports|
    ensures m.timeSaved == 5 * m.reportsGenerated
    ensures m.activeProjects == |Seqs.Filter(projects, IsActiveProject)|
    ensures m.activeProjects + |Seqs.Filter(projects, IsCompletedProject)| <= |projects|
    ensures |projects| == 0 ==> m.completionRate == 0
    ensures |projects| > 0 ==>
      var c := |Seqs.Filter(projects, IsCompletedProject)|;
      2 * |projects| * m.completionRate <= 200 * c + |projects| < 2 * |projects| * (m.completionRate + 1)
    ensures 0 <= m.completionRate <= 100
  {
    var completed := |Seqs.Filter(reports, IsCompletedReport)|;
    var active := |Seqs.Filter(projects, IsActiveProject)|;
    var done := |Seqs.Filter(projects, IsCompletedProject)|;
    Seqs.FilterDisjointBound(projects, IsActiveProject, IsCompletedProject);
    var rate := if |projects| > 0 then Numbers.RoundHalfUp(100 * done, |projects|) else 0;
    assert |projects| > 0 ==> 0 <= rate <= 100 by {
      if |projects| > 0 {
        Numbers.RoundHalfUpBetween(100 * done, |projects|, 0, 100);
      }
    }
    StoreMetrics(completed, active, rate, completed * 5)
  }

  // ------------------------------------------------------------ the storage

  class MemStorage {
    var projects: Table<Project>
    var reports: Table<Report>
    var integrations: Table<Integration>
    var teamMembers: Table<TeamMember>
    var automationRules: Table<AutomationRule>
    var userBehaviors: Table<UserBehavior>
    /** How many ids `randomUUID` has handed out. */
    var nextId: nat

    ghost predicate Valid()
      reads this
    {
      && Tables.Valid(projects) && IssuedBelow(projects, nextId)
      && Tables.Valid(reports) && IssuedBelow(reports, nextId)
      && Tables.Valid(integrations) && IssuedBelow(integrations, nextId)
      && Tables.Valid(teamMembers) && IssuedBelow(teamMembers, nextId)
      && Tables.Valid(automationRules) && IssuedBelow(automationRules, nextId)
      && Tables.Valid(userBehaviors) && IssuedBelow(userBehaviors, nextId)
    }

    /** The demo rows `initializeData` seeds: one team member, one Trello integration, one timing rule. */
    constructor(now: Timestamp, trelloApiKey: Option<string>)
      ensures Valid() && nextId == 3
      ensures projects.keys == [] && reports.keys == [] && userBehaviors.keys == []
      ensures teamMembers == Put(Empty(), IdFor(0),
        TeamMember(IdFor(0), "Sarah Mitchell", "sarah@example.com", "SM", "Data Team Lead", Some([])))
      ensures integrations == Put(Empty(), IdFor(1),
        Integration(IdFor(1), "Trello", "trello", "active", Some(OrString(trelloApiKey, "")),
          JObj(map["boards" := JNum(3.0)]), Some(now)))
      ensures automationRules == Put(Empty(), IdFor(2),
        AutomationRule(IdFor(2), "Weekly Report Timing",
          "Learned that Sarah prefers reports on Monday mornings", "timing",
          JObj(map["day" := JStr("monday"), "time" := JStr("09:00")]),
          JObj(map["schedule" := JStr("weekly"), "notify" := JBool(true)]), 94, 12, true))
    {
      Text.ParseNatToString(0);
      Text.ParseNatToString(1);
      Text.ParseNatToString(2);
      projects := Empty();
      reports := Empty();
      userBehaviors := Empty();
      teamMembers := Put(Empty(), IdFor(0),
        TeamMember(IdFor(0), "Sarah Mitchell", "sarah@example.com", "SM", "Data Team Lead", Some([])));
      integrations := Put(Empty(), IdFor(1),
        Integration(IdFor(1), "Trello", "trello", "active", Some(OrString(trelloApiKey, "")),
          JObj(map["boards" := JNum(3.0)]), Some(now)));
      automationRules := Put(Empty(), IdFor(2),
        AutomationRule(IdFor(2), "Weekly Report Timing",
          "Learned that Sarah prefers reports on Monday mornings", "timing",
          JObj(map["day" := JStr("monday"), "time" := JStr("09:00")]),
          JObj(map["schedule" := JStr("weekly"), "notify" := JBool(true)]), 94, 12, true));
      nextId := 3;
    }

    /** `randomUUID()`: an id no table holds yet. */
    method FreshId() returns (id: string)
      requires Valid()
      modifies this`nextId
      ensures Valid() && nextId == old(nextId) + 1
      ensures id == IdFor(old(nextId)) && Text.ParseNat(id) == old(nextId)
      ensures id !in projects.rows && id !in reports.rows && id !in integrations.rows
      ensures id !in teamMembers.rows && id !in automationRules.rows && id !in userBehaviors.rows
    {
      id := IdFor(nextId);
      Text.ParseNatToString(nextId);
      nextId := nextId + 1;
    }

    // Projects

    method GetProjects() returns (ps: seq<Project>)
      requires Valid()
      ensures ps == Values(projects)
    {
      ps := Values(projects);
    }

    method GetProject(id: string) returns (p: Option<Project>)
      ensures p.Some? <==> id in projects.rows
      ensures p.Some? ==> p.value == projects.rows[id]
    {
      p := Get(projects, id);
    }

    method CreateProject(ins: InsertProject) returns (p: Project)
      requires Valid()
      modifies this`projects, this`nextId
      ensures Valid()
      ensures p.id !in old(projects.rows) && p == ProjectFromInsert(ins, p.id)
      ensures p.id == IdFor(old(nextId)) && nextId == old(nextId) + 1
      ensures projects == Put(old(projects), p.id, p)
      ensures projects.keys == old(projects.keys) + [p.id]
      ensures Values(projects) == old(Values(projects)) + [p]
    {
      var id := FreshId();
      p := ProjectFromInsert(ins, id);
      PutNewAppends(projects, id, p);
      projects := Put(projects, id, p);
    }

    method UpdateProject(id: string, patch: ProjectPatch) returns (p: Option<Project>)
      requires Valid()
      modifies this`projects
      ensures Valid()
      ensures projects == UpdateProjectIn(old(projects), id, patch)
      ensures id !in old(projects.rows) ==> p == None && projects == old(projects)
      ensures id in old(projects.rows) ==>
        p == Some(MergeProject(old(projects.rows[id]), patch)) && projects.keys == old(projects.keys)
        && projects.rows == old(projects.rows)[id := p.value]
    {
      if id in projects.rows {
        var updated := MergeProject(projects.rows[id], patch);
        projects := Put(projects, id, updated);
        p := Some(updated);
      } else {
        p := None;
      }
    }

    method DeleteProject(id: string) returns (deleted: bool)
      requires Valid()
      modifies this`projects
      ensures Valid()
      ensures deleted <==> id in old(projects.rows)
      ensures projects == Remove(old(projects), id)
    {
      deleted := id in projects.rows;
      projects := Remove(projects, id);
    }

    // Reports

    method GetReports() returns (rs: seq<Report>)
      requires Valid()
      ensures rs == Values(reports)
    {
      rs := Values(reports);
    }

    method GetReport(id: string) returns (r: Option<Report>)
      ensures r.Some? <==> id in reports.rows
      ensures r.Some? ==> r.value == reports.rows[id]
    {
      r := Get(reports, id);
    }

    method CreateReport(ins: InsertReport, now: Timestamp) returns (r: Report)
      requires Valid()
      modifies this`reports, this`nextId
      ensures Valid()
      ensures r.id !in old(reports.rows) && r == ReportFromInsert(ins, r.id, now)
      ensures r.id == IdFor(old(nextId)) && nextId == old(nextId) + 1
      ensures reports == Put(old(reports), r.id, r)
      ensures reports.keys == old(reports.keys) + [r.id]
      ensures Values(reports) == old(Values(reports)) + [r]
    {
      var id := FreshId();
      r := ReportFromInsert(ins, id, now);
      PutNewAppends(reports, id, r);
      reports := Put(reports, id, r);
    }

    method UpdateReport(id: string, patch: ReportPatch, now: Timestamp) returns (r: Option<Report>)
      requires Valid()
      modifies this`reports
      ensures Valid()
      ensures reports == UpdateReportIn(old(reports), id, patch, now)
      ensures id !in old(reports.rows) ==> r == None && reports == old(reports)
      ensures id in old(reports.rows) ==>
        r == Some(MergeReport(old(reports.rows[id]), patch, now)) && reports.keys == old(reports.keys)
        && reports.rows == old(reports.rows)[id := r.value]
    {
      if id in reports.rows {
        var updated := MergeReport(reports.rows[id], patch, now);
        reports := Put(reports, id, updated);
        r := Some(updated);
      } else {
        r := None;
      }
    }

    method DeleteReport(id: string) returns (deleted: bool)
      requires Valid()
      modifies this`reports
      ensures Valid()
      ensures deleted <==> id in old(reports.rows)
      ensures reports == Remove(old(reports), id)
    {
      deleted := id in reports.rows;
      reports := Remove(reports, id);
    }

    // Integrations

    method GetIntegrations() returns (xs: seq<Integration>)
      requires Valid()
      ensures xs == Values(integrations)
    {
      xs := Values(integrations);
    }

    method GetIntegration(id: string) returns (i: Option<Integration>)
      ensures i.Some? <==> id in integrations.rows
      ensures i.Some? ==> i.value == integrations.rows[id]
    {
      i := Get(integrations, id);
    }

    method CreateIntegration(ins: InsertIntegration) returns (i: Integration)
      requires Valid()
      modifies this`integrations, this`nextId
      ensures Valid()
      ensures i.id !in old(integrations.rows) && i == IntegrationFromInsert(ins, i.id)
      ensures i.id == IdFor(old(nextId)) && nextId == old(nextId) + 1
      ensures integrations == Put(old(integrations), i.id, i)
      ensures integrations.keys == old(integrations.keys) + [i.id]
      ensures Values(integrations) == old(Values(integrations)) + [i]
    {
      var id := FreshId();
      i := IntegrationFromInsert(ins, id);
      PutNewAppends(integrations, id, i);
      integrations := Put(integrations, id, i);
    }

    method UpdateIntegration(id: string, patch: IntegrationPatch) returns (i: Option<Integration>)
      requires Valid()
      modifies this`integrations
      ensures Valid()
      ensures integrations == UpdateIntegrationIn(old(integrations), id, patch)
      ensures id !in old(integrations.rows) ==> i == None && integrations == old(integrations)
      ensures id in old(integrations.rows) ==>
        i == Some(MergeIntegration(old(integrations.rows[id]), patch))
        && integrations.keys == old(integrations.keys)
        && integrations.rows == old(integrations.rows)[id := i.value]
    {
      if id in integrations.rows {
        var updated := MergeIntegration(integrations.rows[id], patch);
        integrations := Put(integrations, id, updated);
        i := Some(updated);
      } else {
        i := None;
      }
    }

    method DeleteIntegration(id: string) returns (deleted: bool)
      requires Valid()
      modifies this`integrations
      ensures Valid()
      ensures deleted <==> id in old(integrations.rows)
      ensures integrations == Remove(old(integrations), id)
    {
      deleted := id in integrations.rows;
      integrations := Remove(integrations, id);
    }

    // Team members

    method GetTeamMembers() returns (ms: seq<TeamMember>)
      requires Valid()
      ensures ms == Values(teamMembers)
    {
      ms := Values(teamMembers);
    }

    method GetTeamMember(id: string) returns (m: Option<TeamMember>)
      ensures m.Some? <==> id in teamMembers.rows
      ensures m.Some? ==> m.value == teamMembers.rows[id]
    {
      m := Get(teamMembers, id);
    }

    method CreateTeamMember(ins: InsertTeamMember) returns (m: TeamMember)
      requires Valid()
      modifies this`teamMembers, this`nextId
      ensures Valid()
      ensures m.id !in old(teamMembers.rows) && m == TeamMemberFromInsert(ins, m.id)
      ensures m.id == IdFor(old(nextId)) && nextId == old(nextId) + 1
      ensures teamMembers == Put(old(teamMembers), m.id, m)
      ensures teamMembers.keys == old(teamMembers.keys) + [m.id]
      ensures Values(teamMembers) == old(Values(teamMembers)) + [m]
    {
      var id := FreshId();
      m := TeamMemberFromInsert(ins, id);
      PutNewAppends(teamMembers, id, m);
      teamMembers := Put(teamMembers, id, m);
    }

    method UpdateTeamMember(id: string, patch: TeamMemberPatch) returns (m: Option<TeamMember>)
      requires Valid()
      modifies this`teamMembers
      ensures Valid()
      ensures teamMembers == UpdateTeamMemberIn(old(teamMembers), id, patch)
      ensures id !in old(teamMembers.rows) ==> m == None && teamMembers == old(teamMembers)
      ensures id in old(teamMembers.rows) ==>
        m == Some(MergeTeamMember(old(teamMembers.rows[id]), patch))
        && teamMembers.keys == old(teamMembers.keys)
        && teamMembers.rows == old(teamMembers.rows)[id := m.value]
    {
      if id in teamMembers.rows {
        var updated := MergeTeamMember(teamMembers.rows[id], patch);
        teamMembers := Put(teamMembers, id, updated);
        m := Some(updated);
      } else {
        m := None;
      }
    }

    method DeleteTeamMember(id: string) returns (deleted: bool)
      requires Valid()
      modifies this`teamMembers
      ensures Valid()
      ensures deleted <==> id in old(teamMembers.rows)
      ensures teamMembers == Remove(old(teamMembers), id)
    {
      deleted := id in teamMembers.rows;
      teamMembers := Remove(teamMembers, id);
    }

    // Automation rules

    method GetAutomationRules() returns (rs: seq<AutomationRule>)
      requires Valid()
      ensures rs == Values(automationRules)
    {
      rs := Values(automationRules);
    }

    method GetAutomationRule(id: string) returns (r: Option<AutomationRule>)
      ensures r.Some? <==> id in automationRules.rows
      ensures r.Some? ==> r.value == automationRules.rows[id]
    {
      r := Get(automationRules, id);
    }

    method CreateAutomationRule(ins: InsertAutomationRule) returns (r: AutomationRule)
      requires Valid()
      modifies this`automationRules, this`nextId
      ensures Valid()
      ensures r.id !in old(automationRules.rows) && r == RuleFromInsert(ins, r.id)
      ensures r.id == IdFor(old(nextId)) && nextId == old(nextId) + 1
      ensures automationRules == Put(old(automationRules), r.id, r)
      ensures automationRules.keys == old(automationRules.keys) + [r.id]
      ensures Values(automationRules) == old(Values(automationRules)) + [r]
    {
      var id := FreshId();
      r := RuleFromInsert(ins, id);
      PutNewAppends(automationRules, id, r);
      automationRules := Put(automationRules, id, r);
    }

    method UpdateAutomationRule(id: string, patch: RulePatch) returns (r: Option<AutomationRule>)
      requires Valid()
      modifies this`automationRules
      ensures Valid()
      ensures automationRules == UpdateRuleIn(old(automationRules), id, patch)
      ensures id !in old(automationRules.rows) ==> r == None && automationRules == old(automationRules)
      ensures id in old(automationRules.rows) ==>
        r == Some(MergeRule(old(automationRules.rows[id]), patch))
        && automationRules.keys == old(automationRules.keys)
        && automationRules.rows == old(automationRules.rows)[id := r.value]
    {
      if id in automationRules.rows {
        var updated := MergeRule(automationRules.rows[id], patch);
        automationRules := Put(automationRules, id, updated);
        r := Some(updated);
      } else {
        r := None;
      }
    }

    method DeleteAutomationRule(id: string) returns (deleted: bool)
      requires Valid()
      modifies this`automationRules
      ensures Valid()
      ensures deleted <==> id in old(automationRules.rows)
      ensures automationRules == Remove(old(automationRules), id)
    {
      deleted := id in automationRules.rows;
      automationRules := Remove(automationRules, id);
    }

    // User behaviour

    method GetUserBehaviors() returns (bs: seq<UserBehavior>)
      requires Valid()
      ensures bs == Values(userBehaviors)
    {
      bs := Values(userBehaviors);
    }

    method CreateUserBehavior(ins: InsertUserBehavior, now: Timestamp) returns (b: UserBehavior)
      requires Valid()
      modifies this`userBehaviors, this`nextId
      ensures Valid()
      ensures b.id !in old(userBehaviors.rows) && b == BehaviorFromInsert(ins, b.id, now)
      ensures b.id == IdFor(old(nextId)) && nextId == old(nextId) + 1
      ensures userBehaviors == Put(old(userBehaviors), b.id, b)
      ensures userBehaviors.keys == old(userBehaviors.keys) + [b.id]
      ensures Values(userBehaviors) == old(Values(userBehaviors)) + [b]
    {
      var id := FreshId();
      b := BehaviorFromInsert(ins, id, now);
      PutNewAppends(userBehaviors, id, b);
      userBehaviors := Put(userBehaviors, id, b);
    }

    /** The events whose action equals `action`, in the order they were recorded. */
    method GetUserBehaviorsByAction(action: string) returns (bs: seq<UserBehavior>)
      requires Valid()
      ensures bs == Seqs.Filter(Values(userBehaviors), b => HasAction(action, b))
      ensures forall i :: 0 <= i < |bs| ==> bs[i].action == action && bs[i] in Values(userBehaviors)
      ensures forall k :: k in userBehaviors.rows && userBehaviors.rows[k].action == action ==>
        userBehaviors.rows[k] in bs
    {
      var all := Values(userBehaviors);
      bs := Seqs.Filter(all, b => HasAction(action, b));
      forall k | k in userBehaviors.rows && userBehaviors.rows[k].action == action
        ensures userBehaviors.rows[k] in bs
      {
        var i :| 0 <= i < |userBehaviors.keys| && userBehaviors.keys[i] == k;
        assert all[i] == userBehaviors.rows[k];
      }
    }

    // Metrics

    method GetMetrics() returns (m: StoreMetrics)
      requires Valid()
      ensures m == Metrics(Values(reports), Values(projects))
    {
      var rs := GetReports();
      var ps := GetProjects();
      m := Metrics(rs, ps);
    }
  }
}
