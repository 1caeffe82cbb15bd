/**
 The Codex advisory review payload (codex_advisory_review.py) and the contract
 its artifact must meet (codex_advisory_artifact_contract_validator.py).
 */
module CodexAdvisory {
  import opened Common
  import opened Text

  // ---------------------------------------------------------------- JSON

  datatype Area =
    | ArchitectureBoundary
    | DesignRisk
    | TestQuality
    | SilentFailure
    | FallbackCorrectness
    | RaceConcurrency
    | PathCwdRepoRoot
    | HumanReviewPriority

  /** An object's key: the names the code reads, and every other name. */
  datatype Key =
    | SchemaVersion | Reviewer | TaskKey | GeneratedAt
    | ReviewStatus | RiskLevel | Summary | ValidationAuthority | HumanReviewRequired
    | DesignFindings | CorrectnessFindings | TestCoverageFindings | ArchitectureBoundaryFindings
    | RecommendedHumanFocus | SuggestedFollowups | MissingEvidence
    | ReviewChecklist | HumanReviewPriorities
    | ToolError | CodexInvocation | DryRun | ConfirmRun | CodexCliInvoked | SubprocessInvoked | Artifacts | CodexOutputs
    | Source | Governance
    | ChecklistArea(area: Area)
    | StatusKey | FindingsKey | PriorityKey | AreaKey | ReasonKey | SuggestedChecksKey
    | CategoryKey | MessageKey | ParseErrorKey
    | Other(name: string)

  datatype Double = Finite(value: real) | NotANumber | Infinite(negative: bool)

  datatype Json =
    | Null
    | Bool(b: bool)
    | Int(n: int)
    | Float(d: Double)
    | Str(s: string)
    | Arr(items: seq<Json>)
    | Obj(fields: Fields)

  type Fields = map<Key, Json>

  /** `dict.get`. */
  function Get(fields: Fields, k: Key): Json
  {
    if k in fields then fields[k] else Null
  }

  /** Python's `bool(x)`. */
  predicate Truthy(x: Json)
  {
    match x
    case Null => false
    case Bool(b) => b
    case Int(n) => n != 0
    case Float(d) => d != Finite(0.0)
    case Str(s) => s != ""
    case Arr(items) => items != []
    case Obj(fields) => fields != map[]
  }

  /** `not s.strip()`. */
  predicate Blank(s: string)
  {
    forall i :: 0 <= i < |s| ==> IsSpace(s[i])
  }

  predicate NonBlankText(x: Json)
  {
    x.Str? && !Blank(x.s)
  }

  predicate OneOf(x: Json, names: seq<string>)
  {
    x.Str? && x.s in names
  }

  const ReviewStatuses := ["not_run", "looks_good", "needs_attention", "high_risk", "tool_error"]
  const RiskLevels := ["unknown", "low", "medium", "high"]
  const ChecklistStatuses := ["pass", "concern", "not_applicable", "unknown"]
  const Areas := [
    ArchitectureBoundary, DesignRisk, TestQuality, SilentFailure,
    FallbackCorrectness, RaceConcurrency, PathCwdRepoRoot, HumanReviewPriority]
  const PriorityAreas := [
    "architecture_boundary", "design_risk", "test_quality", "silent_failure", "fallback_correctness",
    "race_concurrency", "path_cwd_repo_root", "human_review_priority", "other"]
  const ListFields := [
    DesignFindings, CorrectnessFindings, TestCoverageFindings, ArchitectureBoundaryFindings,
    RecommendedHumanFocus, SuggestedFollowups, MissingEvidence]
  const MutableFields := [ReviewStatus, Summary] + ListFields + [RiskLevel]

  lemma EveryArea(a: Area)
    ensures a in Areas
  {
    assert a == Areas[match a
                      case ArchitectureBoundary => 0 case DesignRisk => 1 case TestQuality => 2 case SilentFailure => 3
                      case FallbackCorrectness => 4 case RaceConcurrency => 5 case PathCwdRepoRoot => 6
                      case HumanReviewPriority => 7];
  }

  predicate PositiveInt(x: Json)
  {
    x.Int? && x.n > 0
  }

  // ---------------------------------------------------------------- the artifact contract

  /** Which companion files exist beside the JSON artifact. */
  datatype Companions = Companions(markdown: bool, stdout: bool, stderr: bool)

  predicate ValidToolError(x: Json)
  {
    x.Obj? && NonBlankText(Get(x.fields, CategoryKey)) && NonBlankText(Get(x.fields, MessageKey))
  }

  predicate ValidArea(x: Json)
  {
    && x.Obj? && OneOf(Get(x.fields, StatusKey), ChecklistStatuses)
    && NonBlankText(Get(x.fields, Summary)) && Get(x.fields, FindingsKey).Arr?
  }

  predicate ValidPriority(x: Json)
  {
    && x.Obj? && PositiveInt(Get(x.fields, PriorityKey)) && OneOf(Get(x.fields, AreaKey), PriorityAreas)
    && NonBlankText(Get(x.fields, ReasonKey)) && Get(x.fields, SuggestedChecksKey).Arr?
  }

  predicate AreaCovered(checklist: Fields, a: Area)
  {
    ChecklistArea(a) in checklist && ValidArea(checklist[ChecklistArea(a)])
  }

  predicate ChecklistCovers(x: Json)
  {
    x.Obj? && forall a: Area :: AreaCovered(x.fields, a)
  }

  predicate PrioritiesGiven(x: Json)
  {
    x.Arr? && x.items != [] && forall i :: 0 <= i < |x.items| ==> ValidPriority(x.items[i])
  }

  predicate ExpectsOutputs(d: Fields)
  {
    || Truthy(Get(d, ConfirmRun)) || Truthy(Get(d, CodexCliInvoked))
    || (Get(d, Artifacts).Obj? && Truthy(Get(Get(d, Artifacts).fields, CodexOutputs)))
  }

  predicate Identified(d: Fields, expected: Option<string>)
  {
    && Get(d, SchemaVersion) == Str("codex_advisory_review.v1") && Get(d, Reviewer) == Str("codex-cli")
    && NonBlankText(Get(d, TaskKey)) && (expected.Some? ==> ArtifactTaskKey(d[TaskKey].s) == expected.value)
    && (GeneratedAt in d ==> NonBlankText(d[GeneratedAt]))
  }

  predicate AdvisoryOnly(d: Fields)
  {
    Get(d, ValidationAuthority) == Bool(false) && Get(d, HumanReviewRequired) == Bool(true)
  }

  predicate AllowedEnums(d: Fields)
  {
    OneOf(Get(d, ReviewStatus), ReviewStatuses) && OneOf(Get(d, RiskLevel), RiskLevels)
  }

  predicate ToolErrorStated(d: Fields)
  {
    if Get(d, ReviewStatus) == Str("tool_error") then ValidToolError(Get(d, ToolError))
    else Get(d, ToolError) != Null ==> ValidToolError(Get(d, ToolError))
  }

  predicate CompanionsPresent(d: Fields, files: Companions)
  {
    files.markdown && (ExpectsOutputs(d) ==> files.stdout && files.stderr)
  }

  /** The contract an advisory artifact must meet, whatever its advice says. */
  predicate Contract(d: Fields, files: Companions, expected: Option<string>)
  {
    && Identified(d, expected) && AdvisoryOnly(d) && AllowedEnums(d) && ToolErrorStated(d)
    && CompanionsPresent(d, files)
    && ChecklistCovers(Get(d, ReviewChecklist)) && PrioritiesGiven(Get(d, HumanReviewPriorities))
  }

  // ---------------------------------------------------------------- task keys

  predicate KeyChar(c: char)
  {
    'A' <= c <= 'Z' || 'a' <= c <= 'z' || '0' <= c <= '9' || c == '.' || c == '_' || c == '-'
  }

  predicate IsTaskKey(s: string)
  {
    s != "" && forall i :: 0 <= i < |s| ==> KeyChar(s[i])
  }

  /** `normalize_task_key`; None where it raises. */
  function NormalizeTaskKey(s: string): (r: Option<string>)
    ensures r.Some? ==> IsTaskKey(r.value)
    ensures IsTaskKey(s) ==> r == Some(s)
  {
    var key := Stripped(s);
    if IsTaskKey(key) then Some(key) else None
  }

  /** Exactly the legal keys are accepted, with any white space around them. */
  lemma TaskKeysMayBePadded(s: string, key: string)
    ensures NormalizeTaskKey(s) == Some(key)
            <==> IsTaskKey(key) && exists left, right :: AllSpace(left) && AllSpace(right) && s == left + key + right
  {
    if NormalizeTaskKey(s) == Some(key) {
      var left, right := StripSplits(s);
    }
    if left, right :| IsTaskKey(key) && AllSpace(left) && AllSpace(right) && s == left + key + right {
      assert KeyChar(key[0]) && KeyChar(key[|key| - 1]);
      StripPadded(left, key, right);
    }
  }

  /** The key the validator compares: normalised where it can be. */
  function ArtifactTaskKey(s: string): string
  {
    var r := NormalizeTaskKey(s);
    if r.Some? then r.value else s
  }

  // ---------------------------------------------------------------- what Codex may contribute

  function ListOr(fields: Fields, k: Key): Json
  {
    if k in fields then fields[k] else Arr([])
  }

  predicate AcceptableEntry(x: Json)
  {
    && x.Obj? && OneOf(Get(x.fields, StatusKey), ChecklistStatuses)
    && NonBlankText(Get(x.fields, Summary)) && ListOr(x.fields, FindingsKey).Arr?
  }

  function CleanEntry(x: Json): Json
    requires x.Obj?
  {
    Obj(map[StatusKey := Get(x.fields, StatusKey), Summary := Get(x.fields, Summary),
            FindingsKey := ListOr(x.fields, FindingsKey)])
  }

  predicate AcceptableChecklist(x: Json)
  {
    x.Obj? && forall k :: k in x.fields ==> AcceptableEntry(x.fields[k])
  }

  function MergedChecklist(base: Fields, given: Fields): Fields
    requires forall k :: k in given ==> given[k].Obj?
  {
    map k | k in base.Keys + given.Keys :: if k in given then CleanEntry(given[k]) else base[k]
  }

  predicate AcceptablePriority(x: Json)
  {
    && x.Obj? && PositiveInt(Get(x.fields, PriorityKey)) && OneOf(Get(x.fields, AreaKey), PriorityAreas)
    && NonBlankText(Get(x.fields, ReasonKey)) && ListOr(x.fields, SuggestedChecksKey).Arr?
  }

  function CleanPriority(x: Json): Json
    requires x.Obj?
  {
    Obj(map[PriorityKey := Get(x.fields, PriorityKey), AreaKey := Get(x.fields, AreaKey),
            ReasonKey := Get(x.fields, ReasonKey), SuggestedChecksKey := ListOr(x.fields, SuggestedChecksKey)])
  }

  predicate AcceptablePriorities(x: Json)
  {
    x.Arr? && x.items != [] && forall i :: 0 <= i < |x.items| ==> AcceptablePriority(x.items[i])
  }

  function CleanPriorities(items: seq<Json>): (r: seq<Json>)
    requires forall i :: 0 <= i < |items| ==> items[i].Obj?
    ensures |r| == |items| && forall i :: 0 <= i < |r| ==> r[i] == CleanPriority(items[i])
  {
    seq(|items|, i requires 0 <= i < |items| => CleanPriority(items[i]))
  }

  /** Codex output that `merge_codex_findings` does not refuse. */
  predicate Acceptable(codex: Fields)
  {
    && (ValidationAuthority in codex ==> !Truthy(codex[ValidationAuthority]))
    && (HumanReviewRequired in codex ==> Truthy(codex[HumanReviewRequired]))
    && (ReviewStatus in codex ==> OneOf(codex[ReviewStatus], ReviewStatuses))
    && (RiskLevel in codex ==> OneOf(codex[RiskLevel], RiskLevels))
    && (Summary in codex ==> codex[Summary].Str?)
    && (forall k :: k in codex && IsListField(k) ==> codex[k].Arr?)
    && (ReviewChecklist in codex ==> AcceptableChecklist(codex[ReviewChecklist]))
    && (HumanReviewPriorities in codex ==> AcceptablePriorities(codex[HumanReviewPriorities]))
  }

  predicate IsListField(k: Key)
  {
    || k.DesignFindings? || k.CorrectnessFindings? || k.TestCoverageFindings? || k.ArchitectureBoundaryFindings?
    || k.RecommendedHumanFocus? || k.SuggestedFollowups? || k.MissingEvidence?
  }

  predicate IsMutable(k: Key)
  {
    k.ReviewStatus? || k.Summary? || k.RiskLevel? || IsListField(k)
  }

  lemma FieldLists(k: Key)
    ensures k in ListFields <==> IsListField(k)
    ensures k in MutableFields <==> IsMutable(k)
  {
    ListFieldList(k);
    assert k in MutableFields <==> k in [ReviewStatus, Summary] || k in ListFields || k in [RiskLevel];
  }

  lemma ListFieldList(k: Key)
    ensures k in ListFields <==> IsListField(k)
  {
    assert IsListField(k) ==> k == ListFields[match k
      case DesignFindings => 0 case CorrectnessFindings => 1 case TestCoverageFindings => 2
      case ArchitectureBoundaryFindings => 3 case RecommendedHumanFocus => 4 case SuggestedFollowups => 5
      case _ => 6];
  }

  /** The payload with Codex's contributions and nothing else of its output. */
  function Merged(payload: Fields, codex: Fields): Fields
    requires Acceptable(codex) && Get(payload, ReviewChecklist).Obj?
  {
    map k | k in payload.Keys + codex.Keys && (k in payload || IsMutable(k) || k.HumanReviewPriorities?) ::
      if k !in codex then payload[k]
      else if k.ReviewChecklist? then Obj(MergedChecklist(payload[k].fields, codex[k].fields))
      else if k.HumanReviewPriorities? then Arr(CleanPriorities(codex[k].items))
      else if IsMutable(k) then codex[k]
      else payload[k]
  }

  // ---------------------------------------------------------------- defaults

  function DefaultChecklist(summary: string): Json
  {
    Obj(map a: Area | a in Areas :: ChecklistArea(a) :=
      Obj(map[StatusKey := Str("unknown"), Summary := Str(summary), FindingsKey := Arr([])]))
  }

  function DefaultPriorities(reason: string, checks: seq<Json>): Json
  {
    Arr([Obj(map[PriorityKey := Int(1), AreaKey := Str("human_review_priority"), ReasonKey := Str(reason),
                 SuggestedChecksKey := Arr(checks)])])
  }
}
