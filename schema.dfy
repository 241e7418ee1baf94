/**
 * The records of the six tables, their insert shapes (what `create*` receives)
 * and their patch shapes (`Partial<T>`, what `update*` receives). A patch field
 * `None` is a key the object does not have; `Some(None)` sets a nullable column
 * to null. The column `type` is called `kind` here, `type` being reserved.
 */
module Schema {
  import opened Wrappers
  import opened Json

  type Hour = h: int | 0 <= h < 24
  type Weekday = d: int | 0 <= d < 7

  /** A `Date` as far as the model reads it: local `getHours()` and `getDay()` (0 = Sunday). */
  datatype Timestamp = Timestamp(hour: Hour, day: Weekday)

  datatype Project = Project(
    id: string, name: string, description: Option<string>, source: string, sourceId: string,
    status: string, teamMembers: Option<seq<string>>, metadata: Json)

  datatype InsertProject = InsertProject(
    name: string, description: Option<string>, source: string, sourceId: string,
    status: Option<string>, teamMembers: Option<seq<string>>, metadata: Option<Json>)

  datatype ProjectPatch = ProjectPatch(
    id: Option<string>, name: Option<string>, description: Option<Option<string>>,
    source: Option<string>, sourceId: Option<string>, status: Option<string>,
    teamMembers: Option<Option<seq<string>>>, metadata: Option<Json>)

  datatype Report = Report(
    id: string, title: string, kind: string, status: string, format: string,
    projectIds: Option<seq<string>>, metrics: Json, generatedAt: Option<Timestamp>,
    filePath: Option<string>)

  datatype InsertReport = InsertReport(
    title: string, kind: string, status: Option<string>, format: Option<string>,
    projectIds: Option<seq<string>>, metrics: Option<Json>, filePath: Option<string>)

  datatype ReportPatch = ReportPatch(
    id: Option<string>, title: Option<string>, kind: Option<string>, status: Option<string>,
    format: Option<string>, projectIds: Option<Option<seq<string>>>, metrics: Option<Json>,
    generatedAt: Option<Option<Timestamp>>, filePath: Option<Option<string>>)

  datatype Integration = Integration(
    id: string, name: string, kind: string, status: string, apiKey: Option<string>,
    config: Json, lastSync: Option<Timestamp>)

  datatype InsertIntegration = InsertIntegration(
    name: string, kind: string, status: Option<string>, apiKey: Option<string>, config: Option<Json>)

  datatype IntegrationPatch = IntegrationPatch(
    id: Option<string>, name: Option<string>, kind: Option<string>, status: Option<string>,
    apiKey: Option<Option<string>>, config: Option<Json>, lastSync: Option<Option<Timestamp>>)

  datatype TeamMember = TeamMember(
    id: string, name: string, email: string, initials: string, role: string,
    projectIds: Option<seq<string>>)

  datatype InsertTeamMember = InsertTeamMember(
    name: string, email: string, initials: string, role: string, projectIds: Option<seq<string>>)

  datatype TeamMemberPatch = TeamMemberPatch(
    id: Option<string>, name: Option<string>, email: Option<string>, initials: Option<string>,
    role: Option<string>, projectIds: Option<Option<seq<string>>>)

  datatype AutomationRule = AutomationRule(
    id: string, title: string, description: string, kind: string, condition: Json,
    action: Json, confidence: int, applications: int, isActive: bool)

  datatype InsertAutomationRule = InsertAutomationRule(
    title: string, description: string, kind: string, condition: Json, action: Json,
    confidence: Option<int>, applications: Option<int>, isActive: Option<bool>)

  datatype RulePatch = RulePatch(
    id: Option<string>, title: Option<string>, description: Option<string>, kind: Option<string>,
    condition: Option<Json>, action: Option<Json>, confidence: Option<int>,
    applications: Option<int>, isActive: Option<bool>)

  datatype UserBehavior = UserBehavior(
    id: string, userId: string, action: string, context: Json, timestamp: Timestamp)

  datatype InsertUserBehavior = InsertUserBehavior(userId: string, action: string, context: Option<Json>)

  /** `{ confidence }`: the only patch the learning engine writes. */
  function ConfidencePatch(c: int): RulePatch {
    RulePatch(None, None, None, None, None, None, Some(c), None, None)
  }

  /** `{ status }`. */
  function StatusPatch(status: string): ReportPatch {
    ReportPatch(None, None, None, Some(status), None, None, None, None, None)
  }
}
