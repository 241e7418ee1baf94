/**
 * The behaviour-learning engine: pattern detection over the event log,
 * confidence reconciliation of existing rules, and synthesis of new rules.
 */
module Learning {
  import opened Wrappers
  import opened Json
  import opened Schema
  import opened Tables
  import Text
  import Seqs
  import Numbers
  import Histogram
  import Storage

  datatype TimingPattern = TimingPattern(preferredHour: Hour, preferredDay: Weekday, confidence: int)
  datatype FormatPattern = FormatPattern(preferredFormat: Json, confidence: int)

  /** The `patterns` map: at most a `timing` and a `format` entry. */
  datatype Patterns = Patterns(timing: Option<TimingPattern>, format: Option<FormatPattern>)

  /** The TypeError `generateNewRules` raises when the winning format is not a string. */
  const UpperCaseTypeError := "TypeError: formatPattern.preferredFormat.toUpperCase is not a function"

  // ------------------------------------------------------------ detection

  /** `b.action.includes('report')`. */
  predicate IsReportAction(b: UserBehavior) {
    Text.Contains(b.action, "report")
  }

  /** `b.context && typeof b.context === 'object' && 'format' in b.context`. */
  predicate HasFormat(b: UserBehavior) {
    HasKey(b.context, "format")
  }

  function Hours(actions: seq<UserBehavior>): (hs: seq<Hour>)
    ensures |hs| == |actions|
    ensures forall i :: 0 <= i < |actions| ==> hs[i] == actions[i].timestamp.hour
  {
    seq(|actions|, i requires 0 <= i < |actions| => actions[i].timestamp.hour)
  }

  function Days(actions: seq<UserBehavior>): (ds: seq<Weekday>)
    ensures |ds| == |actions|
    ensures forall i :: 0 <= i < |actions| ==> ds[i] == actions[i].timestamp.day
  {
    seq(|actions|, i requires 0 <= i < |actions| => actions[i].timestamp.day)
  }

  /** The `format` values of the events that carry one, in log order. */
  function FormatValues(actions: seq<UserBehavior>): (fs: seq<Json>)
    ensures |fs| == |Seqs.Filter(actions, HasFormat)|
    ensures forall i :: 0 <= i < |fs| ==>
      var b := Seqs.Filter(actions, HasFormat)[i]; HasFormat(b) && fs[i] == b.context.fields["format"]
  {
    var withFormat := Seqs.Filter(actions, HasFormat);
    seq(|withFormat|, i requires 0 <= i < |withFormat| => withFormat[i].context.fields["format"])
  }

  /**
   * `analyzeTimingPattern`: the hour and the weekday that occur most often, ties
   * going to the value first seen latest, and ten points of confidence per event.
   */
  function AnalyzeTimingPattern(actions: seq<UserBehavior>): (p: TimingPattern)
    requires |actions| > 0
    ensures p.confidence == 10 * |actions|
    ensures Histogram.IsLatestFirstSeenMode(Hours(actions), p.preferredHour)
    ensures Histogram.IsLatestFirstSeenMode(Days(actions), p.preferredDay)
  {
    Histogram.PreferredIsLatestFirstSeenMode(Hours(actions));
    Histogram.PreferredIsLatestFirstSeenMode(Days(actions));
    TimingPattern(Histogram.Preferred(Hours(actions)), Histogram.Preferred(Days(actions)), 10 * |actions|)
  }

  /**
   * `analyzeFormatPattern`: the most frequent format value under the same tie
   * rule, `"pdf"` when that value is falsy, and fifteen points per event.
   */
  function AnalyzeFormatPattern(actions: seq<UserBehavior>): (p: FormatPattern)
    requires |FormatValues(actions)| > 0
    ensures p.confidence == 15 * |actions|
    ensures !Falsy(p.preferredFormat)
    ensures forall w :: Histogram.IsLatestFirstSeenMode(FormatValues(actions), w) ==>
      p.preferredFormat == Or(w, JStr("pdf"))
  {
    var fs := FormatValues(actions);
    var w := Histogram.Preferred(fs);
    Histogram.PreferredIsLatestFirstSeenMode(fs);
    assert forall w' :: Histogram.IsLatestFirstSeenMode(fs, w') ==> w' == w by {
      forall w' | Histogram.IsLatestFirstSeenMode(fs, w') ensures w' == w {
        Histogram.LatestFirstSeenModeUnique(fs, w', w);
      }
    }
    FormatPattern(Or(w, JStr("pdf")), 15 * |actions|)
  }

  /**
   * `detectPatterns`: a timing pattern exactly when some action mentions
   * "report", a format pattern exactly when some context has a `format` key.
   */
  function DetectPatterns(behaviors: seq<UserBehavior>): (ps: Patterns)
    ensures var reports := Seqs.Filter(behaviors, IsReportAction);
      && (ps.timing.Some? <==> |reports| > 0)
      && (ps.timing.Some? ==>
            && ps.timing.value.confidence == 10 * |reports|
            && Histogram.IsLatestFirstSeenMode(Hours(reports), ps.timing.value.preferredHour)
            && Histogram.IsLatestFirstSeenMode(Days(reports), ps.timing.value.preferredDay))
    ensures var formats := Seqs.Filter(behaviors, HasFormat);
      && (ps.format.Some? <==> |formats| > 0)
      && (ps.format.Some? ==>
            && ps.format.value.confidence == 15 * |formats|
            && !Falsy(ps.format.value.preferredFormat))
  {
    var reports := Seqs.Filter(behaviors, IsReportAction);
    var formats := Seqs.Filter(behaviors, HasFormat);
    Seqs.FilterAll(formats, HasFormat);
    Patterns(
      if |reports| > 0 then Some(AnalyzeTimingPattern(reports)) else None,
      if |formats| > 0 then Some(AnalyzeFormatPattern(formats)) else None)
  }

  /** The format pattern names the most frequent format, falsy winners reading as `"pdf"`. */
  lemma FormatPatternIsMode(behaviors: seq<UserBehavior>, w: Json)
    requires |Seqs.Filter(behaviors, HasFormat)| > 0
    requires Histogram.IsLatestFirstSeenMode(FormatValues(behaviors), w)
    ensures DetectPatterns(behaviors).format == Some(FormatPattern(Or(w, JStr("pdf")), 15 * |Seqs.Filter(behaviors, HasFormat)|))
  {
    var formats := Seqs.Filter(behaviors, HasFormat);
    Seqs.FilterAll(formats, HasFormat);
    assert FormatValues(formats) == FormatValues(behaviors);
  }

  // ------------------------------------------------------------ confidence

  /** `patterns.get(rule.type)?.confidence`. */
  function PatternConfidence(ps: Patterns, kind: string): Option<int> {
    if kind == "timing" && ps.timing.Some? then Some(ps.timing.value.confidence)
    else if kind == "format" && ps.format.Some? then Some(ps.format.value.confidence)
    else None
  }

  /** `Math.round(c * 0.7 + p * 0.3)` in exact arithmetic. */
  function Blend(c: int, p: int): (b: int)
    ensures 20 * b <= 14 * c + 6 * p + 10 < 20 * (b + 1)
  {
    Numbers.RoundHalfUp(7 * c + 3 * p, 10)
  }

  function Min(a: int, b: int): int {
    if a <= b then a else b
  }

  /**
   * `calculateConfidence`: a rule whose type has no pattern keeps its
   * confidence; otherwise the 70/30 blend of its confidence and the pattern's,
   * capped at 100 (there is no lower bound).
   */
  function CalculateConfidence(rule: AutomationRule, ps: Patterns): (c: int)
    ensures PatternConfidence(ps, rule.kind).None? ==> c == rule.confidence
    ensures PatternConfidence(ps, rule.kind).Some? ==>
      c == Min(100, Blend(rule.confidence, PatternConfidence(ps, rule.kind).value))
  {
    match PatternConfidence(ps, rule.kind)
    case None => rule.confidence
    case Some(p) => Min(100, Blend(rule.confidence, p))
  }

  /** The blend lies between the rule's confidence and the pattern's. */
  lemma BlendBetween(c: int, p: int)
    ensures Min(c, p) <= Blend(c, p)
    ensures Blend(c, p) <= if c <= p then p else c
  {
  }

  /** Each reconciliation moves a confidence no further from the pattern's. */
  lemma BlendApproachesPattern(c: int, p: int)
    ensures c >= p ==> p <= Blend(c, p) <= c
    ensures c <= p ==> c <= Blend(c, p) <= p
    ensures c != p && (c - p >= 2 || p - c >= 2) ==> Blend(c, p) != c
  {
  }

  /** A rule already at the pattern's confidence (at most 100) stays there. */
  lemma ConfidenceFixedPoint(rule: AutomationRule, ps: Patterns)
    requires PatternConfidence(ps, rule.kind) == Some(rule.confidence) && rule.confidence <= 100
    ensures CalculateConfidence(rule, ps) == rule.confidence
  {
  }

  /** Confidences in 0..100 stay in 0..100 when the pattern's is non-negative. */
  lemma ConfidenceInRange(rule: AutomationRule, ps: Patterns)
    requires 0 <= rule.confidence <= 100
    requires PatternConfidence(ps, rule.kind).Some? ==> PatternConfidence(ps, rule.kind).value >= 0
    ensures 0 <= CalculateConfidence(rule, ps) <= 100
  {
    if PatternConfidence(ps, rule.kind).Some? {
      BlendBetween(rule.confidence, PatternConfidence(ps, rule.kind).value);
    }
  }

  // ------------------------------------------------------------ new rules

  /** `getDayName`. */
  function DayName(day: int): (name: string)
    ensures day == 0 ==> name == "Sunday"
    ensures day == 1 ==> name == "Monday"
    ensures day == 2 ==> name == "Tuesday"
    ensures day == 3 ==> name == "Wednesday"
    ensures day == 4 ==> name == "Thursday"
    ensures day == 5 ==> name == "Friday"
    ensures day == 6 ==> name == "Saturday"
    ensures !(0 <= day < 7) ==> name == "Unknown"
  {
    var days := ["Sunday", "Monday", "Tuesday", "Wednesday", "Thursday", "Friday", "Saturday"];
    if 0 <= day < |days| then days[day] else "Unknown"
  }

  /** Distinct weekdays have distinct names. */
  lemma DayNameInjective(d1: Weekday, d2: Weekday)
    requires DayName(d1) == DayName(d2)
    ensures d1 == d2
  {
  }

  /** The timing rule's description: it starts with a fixed phrase and names the learned weekday. */
  function TimingDescription(t: TimingPattern): (d: string)
    ensures |d| > 24 && d[..24] == "User prefers reports on "
    ensures Text.Contains(d, DayName(t.preferredDay))
  {
    var hour := " at " + Text.NatToString(t.preferredHour) + ":00";
    Text.ContainsInfix("User prefers reports on ", DayName(t.preferredDay), hour);
    "User prefers reports on " + DayName(t.preferredDay) + hour
  }

  function TimingRule(t: TimingPattern): (r: InsertAutomationRule)
    ensures r.title == "Optimal Report Timing"
    ensures r.description == "User prefers reports on " + DayName(t.preferredDay) + " at " +
      Text.NatToString(t.preferredHour) + ":00"
    ensures r.kind == "timing" && r.confidence == Some(Min(100, t.confidence))
    ensures r.applications == Some(0) && r.isActive == Some(true)
    ensures r.condition == JObj(map["day" := JNum(t.preferredDay as real), "hour" := JNum(t.preferredHour as real)])
    ensures r.action == JObj(map["schedule" := JStr("auto"), "notify" := JBool(true)])
  {
    InsertAutomationRule("Optimal Report Timing", TimingDescription(t), "timing",
      JObj(map["day" := JNum(t.preferredDay as real), "hour" := JNum(t.preferredHour as real)]),
      JObj(map["schedule" := JStr("auto"), "notify" := JBool(true)]),
      Some(Min(100, t.confidence)), Some(0), Some(true))
  }

  function FormatRule(f: FormatPattern): (r: InsertAutomationRule)
    requires f.preferredFormat.JStr?
    ensures r.title == "Preferred Report Format"
    ensures r.description == "User prefers " + Text.ToUpper(f.preferredFormat.s) + " format for reports"
    ensures r.kind == "format" && r.confidence == Some(Min(100, f.confidence))
    ensures r.applications == Some(0) && r.isActive == Some(true)
    ensures r.condition == JObj(map["reportType" := JStr("all")])
    ensures r.action == JObj(map["defaultFormat" := f.preferredFormat])
  {
    InsertAutomationRule("Preferred Report Format",
      "User prefers " + Text.ToUpper(f.preferredFormat.s) + " format for reports", "format",
      JObj(map["reportType" := JStr("all")]),
      JObj(map["defaultFormat" := f.preferredFormat]),
      Some(Min(100, f.confidence)), Some(0), Some(true))
  }

  predicate StrongTiming(ps: Patterns) {
    ps.timing.Some? && ps.timing.value.confidence > 50
  }

  predicate StrongFormat(ps: Patterns) {
    ps.format.Some? && ps.format.value.confidence > 50
  }

  /**
   * `generateNewRules`: one timing rule and one format rule for each pattern
   * above 50, timing first; a strong non-string format throws.
   */
  function GenerateNewRules(ps: Patterns): (r: Result<seq<InsertAutomationRule>, string>)
    ensures r.Failure? <==> StrongFormat(ps) && !ps.format.value.preferredFormat.JStr?
    ensures r.Failure? ==> r.error == UpperCaseTypeError
    ensures r.Success? ==> |r.value| == (if StrongTiming(ps) then 1 else 0) + (if StrongFormat(ps) then 1 else 0)
    ensures r.Success? && StrongTiming(ps) ==> r.value[0] == TimingRule(ps.timing.value)
    ensures r.Success? && StrongFormat(ps) ==> r.value[|r.value| - 1] == FormatRule(ps.format.value)
    ensures r.Success? ==> forall i :: 0 <= i < |r.value| ==>
      var c := r.value[i].confidence; c.Some? && 50 < c.value <= 100
  {
    var timing := if StrongTiming(ps) then [TimingRule(ps.timing.value)] else [];
    if StrongFormat(ps) then
      if ps.format.value.preferredFormat.JStr? then Success(timing + [FormatRule(ps.format.value)])
      else Failure(UpperCaseTypeError)
    else Success(timing)
  }

  /** A timing pattern clears the bar exactly when six or more actions mention "report". */
  lemma TimingThreshold(behaviors: seq<UserBehavior>)
    ensures StrongTiming(DetectPatterns(behaviors)) <==> |Seqs.Filter(behaviors, IsReportAction)| >= 6
  {
  }

  /** A format pattern clears the bar exactly when four or more events carry a format. */
  lemma FormatThreshold(behaviors: seq<UserBehavior>)
    ensures StrongFormat(DetectPatterns(behaviors)) <==> |Seqs.Filter(behaviors, HasFormat)| >= 4
  {
  }

  // ------------------------------------------------------------ reconciliation

  /** A rule with its confidence recomputed against the patterns. */
  function Recalibrated(rule: AutomationRule, ps: Patterns): AutomationRule {
    rule.(confidence := CalculateConfidence(rule, ps))
  }

  /**
   * The first loop of `analyzeUserBehavior` over a snapshot of rules: each rule
   * whose confidence changes is patched with `{ confidence }` under `rule.id`.
   */
  function Reconcile(t: Table<AutomationRule>, rules: seq<AutomationRule>, ps: Patterns): (t': Table<AutomationRule>)
    requires Tables.Valid(t)
    ensures Tables.Valid(t') && t'.keys == t.keys
    decreases |rules|
  {
    if rules == [] then t
    else
      var t0 := Reconcile(t, rules[..|rules| - 1], ps);
      var rule := rules[|rules| - 1];
      var c := CalculateConfidence(rule, ps);
      if c != rule.confidence then Storage.UpdateRuleIn(t0, rule.id, ConfidencePatch(c)) else t0
  }

  /** Every rule is stored under its own id (ids only diverge when a patch rewrites one). */
  ghost predicate WellKeyed(t: Table<AutomationRule>) {
    forall k :: k in t.rows ==> t.rows[k].id == k
  }

  /** One step of the fold on a rule stored under its own id: that row is recalibrated, nothing else moves. */
  lemma ReconcileStep(t0: Table<AutomationRule>, rule: AutomationRule, ps: Patterns)
    requires Tables.Valid(t0) && rule.id in t0.rows && t0.rows[rule.id] == rule
    ensures var c := CalculateConfidence(rule, ps);
      var r := if c != rule.confidence then Storage.UpdateRuleIn(t0, rule.id, ConfidencePatch(c)) else t0;
      r.keys == t0.keys && r.rows == t0.rows[rule.id := Recalibrated(rule, ps)]
  {
    Storage.ConfidencePatchOnly(rule, CalculateConfidence(rule, ps));
  }

  lemma {:induction false} ReconcilePrefix(t: Table<AutomationRule>, ps: Patterns, n: nat)
    requires Tables.Valid(t) && WellKeyed(t) && n <= |t.keys|
    ensures var r := Reconcile(t, Values(t)[..n], ps);
      forall i :: 0 <= i < |t.keys| ==>
        r.rows[t.keys[i]] == if i < n then Recalibrated(t.rows[t.keys[i]], ps) else t.rows[t.keys[i]]
  {
    if n > 0 {
      var vs := Values(t)[..n];
      assert vs[..n - 1] == Values(t)[..n - 1];
      ReconcilePrefix(t, ps, n - 1);
      var t0 := Reconcile(t, Values(t)[..n - 1], ps);
      var k := t.keys[n - 1];
      var rule := vs[n - 1];
      assert rule == t.rows[k] && rule.id == k;
      ReconcileStep(t0, rule, ps);
      var r := Reconcile(t, vs, ps);
      assert r.rows == t0.rows[k := Recalibrated(rule, ps)];
      forall i | 0 <= i < |t.keys|
        ensures r.rows[t.keys[i]] == if i < n then Recalibrated(t.rows[t.keys[i]], ps) else t.rows[t.keys[i]]
      {
        if i != n - 1 {
          assert t.keys[i] != k;
        }
      }
    }
  }

  /**
   * Reconciling every stored rule leaves the same keys in the same order, each
   * rule with its confidence recomputed and every other field as it was.
   */
  lemma ReconcileAll(t: Table<AutomationRule>, ps: Patterns)
    requires Tables.Valid(t) && WellKeyed(t)
    ensures var r := Reconcile(t, Values(t), ps);
      && r.keys == t.keys
      && forall k :: k in t.rows ==> r.rows[k] == Recalibrated(t.rows[k], ps)
  {
    assert Values(t)[..|t.keys|] == Values(t);
    ReconcilePrefix(t, ps, |t.keys|);
    forall k | k in t.rows
      ensures Reconcile(t, Values(t), ps).rows[k] == Recalibrated(t.rows[k], ps)
    {
      var i :| 0 <= i < |t.keys| && t.keys[i] == k;
    }
  }

  // ------------------------------------------------------------ the analysis pass

  /** The ids the next `n` calls of `randomUUID` hand out. */
  function Ids(base: nat, n: nat): (ids: seq<string>)
    ensures |ids| == n
  {
    seq(n, i requires 0 <= i < n => Storage.IdFor(base + i))
  }

  /** The rules `createAutomationRule` stores for `drafts`, starting at id `base`. */
  function Created(drafts: seq<InsertAutomationRule>, base: nat): (rs: seq<AutomationRule>)
    ensures |rs| == |drafts|
  {
    seq(|drafts|, i requires 0 <= i < |drafts| => Storage.RuleFromInsert(drafts[i], Storage.IdFor(base + i)))
  }

  lemma IdsSnoc(base: nat, n: nat)
    ensures Ids(base, n + 1) == Ids(base, n) + [Storage.IdFor(base + n)]
  {
  }

  lemma CreatedSnoc(drafts: seq<InsertAutomationRule>, base: nat, n: nat)
    requires n < |drafts|
    ensures Created(drafts[..n + 1], base) ==
      Created(drafts[..n], base) + [Storage.RuleFromInsert(drafts[n], Storage.IdFor(base + n))]
  {
  }

  /**
   * The state one `analyzeUserBehavior` pass leaves: the snapshot of rules
   * reconciled, then either the TypeError (nothing created) or every
   * generated rule appended under fresh ids, with no de-duplication.
   */
  ghost predicate AnalysisDone(rules0: Table<AutomationRule>, behaviors: seq<UserBehavior>, next0: nat,
                               rules1: Table<AutomationRule>, next1: nat, outcome: Outcome<string>)
    requires Tables.Valid(rules0)
  {
    var ps := DetectPatterns(behaviors);
    var reconciled := Reconcile(rules0, Values(rules0), ps);
    match GenerateNewRules(ps)
    case Failure(e) => outcome == Fail(e) && rules1 == reconciled && next1 == next0
    case Success(drafts) =>
      && outcome == Pass && next1 == next0 + |drafts| && Tables.Valid(rules1)
      && rules1.keys == reconciled.keys + Ids(next0, |drafts|)
      && Values(rules1) == Values(reconciled) + Created(drafts, next0)
  }

  /**
   * After a pass that did not throw, whatever ids the stored rules carry, the
   * old keys keep their order, one new row follows per generated rule, and
   * those rows are exactly the generated rules under consecutive fresh ids.
   */
  lemma AnalysisPassAppends(rules0: Table<AutomationRule>, behaviors: seq<UserBehavior>, next0: nat,
                            rules1: Table<AutomationRule>, next1: nat)
    requires Tables.Valid(rules0)
    requires AnalysisDone(rules0, behaviors, next0, rules1, next1, Pass)
    ensures var ps := DetectPatterns(behaviors);
      && GenerateNewRules(ps).Success?
      && var drafts := GenerateNewRules(ps).value;
      && next1 == next0 + |drafts|
      && |rules1.keys| == |rules0.keys| + |drafts|
      && rules1.keys == rules0.keys + Ids(next0, |drafts|)
      && Values(rules1)[|rules0.keys|..] == Created(drafts, next0)
  {
    var ps := DetectPatterns(behaviors);
    var reconciled := Reconcile(rules0, Values(rules0), ps);
    var drafts := GenerateNewRules(ps).value;
    assert |Values(reconciled)| == |rules0.keys|;
    assert (Values(reconciled) + Created(drafts, next0))[|rules0.keys|..] == Created(drafts, next0);
  }

  /**
   * After a pass that did not throw, every rule stored under its own id before
   * the pass is still there, recalibrated, and every generated rule was added
   * on top, whatever rules of the same type already existed.
   */
  lemma AnalysisPass(rules0: Table<AutomationRule>, behaviors: seq<UserBehavior>, next0: nat,
                     rules1: Table<AutomationRule>, next1: nat)
    requires Tables.Valid(rules0) && WellKeyed(rules0)
    requires AnalysisDone(rules0, behaviors, next0, rules1, next1, Pass)
    ensures var ps := DetectPatterns(behaviors);
      && GenerateNewRules(ps).Success?
      && |rules1.keys| == |rules0.keys| + |GenerateNewRules(ps).value|
      && forall k :: k in rules0.rows ==> k in rules1.rows && rules1.rows[k] == Recalibrated(rules0.rows[k], ps)
  {
    var ps := DetectPatterns(behaviors);
    var reconciled := Reconcile(rules0, Values(rules0), ps);
    ReconcileAll(rules0, ps);
    forall k | k in rules0.rows
      ensures k in rules1.rows && rules1.rows[k] == Recalibrated(rules0.rows[k], ps)
    {
      var i :| 0 <= i < |rules0.keys| && rules0.keys[i] == k;
      assert rules1.keys[i] == k;
      assert Values(rules1)[i] == Values(reconciled)[i];
    }
  }

  /** The first loop of `analyzeUserBehavior`: patch each snapshot rule whose confidence changes. */
  method ReconcileRules(storage: Storage.MemStorage, rules: seq<AutomationRule>, ps: Patterns)
    requires storage.Valid()
    modifies storage`automationRules
    ensures storage.Valid()
    ensures storage.automationRules == Reconcile(old(storage.automationRules), rules, ps)
  {
    ghost var t0 := storage.automationRules;
    var i := 0;
    while i < |rules|
      invariant 0 <= i <= |rules|
      invariant storage.Valid()
      invariant storage.automationRules == Reconcile(t0, rules[..i], ps)
    {
      var rule := rules[i];
      var confidence := CalculateConfidence(rule, ps);
      if confidence != rule.confidence {
        var updated := storage.UpdateAutomationRule(rule.id, ConfidencePatch(confidence));
      }
      assert rules[..i + 1][..i] == rules[..i];
      i := i + 1;
    }
    assert rules[..i] == rules;
  }

  /** The second loop of `analyzeUserBehavior`: create every draft, in order. */
  method CreateRules(storage: Storage.MemStorage, drafts: seq<InsertAutomationRule>)
    requires storage.Valid()
    modifies storage`automationRules, storage`nextId
    ensures storage.Valid() && storage.nextId == old(storage.nextId) + |drafts|
    ensures storage.automationRules.keys == old(storage.automationRules.keys) + Ids(old(storage.nextId), |drafts|)
    ensures Values(storage.automationRules) == old(Values(storage.automationRules)) + Created(drafts, old(storage.nextId))
  {
    ghost var t1 := storage.automationRules;
    ghost var next0 := storage.nextId;
    var j := 0;
    while j < |drafts|
      invariant 0 <= j <= |drafts|
      invariant storage.Valid() && storage.nextId == next0 + j
      invariant storage.automationRules.keys == t1.keys + Ids(next0, j)
      invariant Values(storage.automationRules) == Values(t1) + Created(drafts[..j], next0)
    {
      var created := storage.CreateAutomationRule(drafts[j]);
      IdsSnoc(next0, j);
      CreatedSnoc(drafts, next0, j);
      j := j + 1;
    }
    assert drafts[..j] == drafts;
  }

  /** `analyzeUserBehavior`. */
  method AnalyzeUserBehavior(storage: Storage.MemStorage) returns (outcome: Outcome<string>)
    requires storage.Valid()
    modifies storage`automationRules, storage`nextId
    ensures storage.Valid()
    ensures AnalysisDone(old(storage.automationRules), Values(storage.userBehaviors), old(storage.nextId),
                         storage.automationRules, storage.nextId, outcome)
  {
    var behaviors := storage.GetUserBehaviors();
    var rules := storage.GetAutomationRules();
    var ps := DetectPatterns(behaviors);
    ReconcileRules(storage, rules, ps);
    var generated := GenerateNewRules(ps);
    if generated.Failure? {
      return Fail(generated.error);
    }
    CreateRules(storage, generated.value);
    outcome := Pass;
  }

  /**
   * `trackUserAction`: append one event, then run an analysis pass when the
   * number of events is a multiple of ten; the pass's error propagates and the
   * appended event stays.
   */
  method TrackUserAction(storage: Storage.MemStorage, userId: string, action: string, context: Option<Json>,
                         now: Timestamp) returns (outcome: Outcome<string>)
    requires storage.Valid()
    modifies storage`userBehaviors, storage`automationRules, storage`nextId
    ensures storage.Valid()
    ensures Values(storage.userBehaviors) == old(Values(storage.userBehaviors)) +
      [Storage.BehaviorFromInsert(InsertUserBehavior(userId, action, context), Storage.IdFor(old(storage.nextId)), now)]
    ensures |storage.userBehaviors.keys| % 10 != 0 ==>
      outcome == Pass && storage.automationRules == old(storage.automationRules)
      && storage.nextId == old(storage.nextId) + 1
    ensures |storage.userBehaviors.keys| % 10 == 0 ==>
      AnalysisDone(old(storage.automationRules), Values(storage.userBehaviors), old(storage.nextId) + 1,
                   storage.automationRules, storage.nextId, outcome)
  {
    var event := storage.CreateUserBehavior(InsertUserBehavior(userId, action, context), now);
    var behaviors := storage.GetUserBehaviors();
    if |behaviors| % 10 == 0 {
      outcome := AnalyzeUserBehavior(storage);
    } else {
      outcome := Pass;
    }
  }
}
