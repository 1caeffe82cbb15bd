/**
 Building the advisory payload in place (codex_advisory_review.py), and the proof
 that what is written meets the artifact contract.
 */
module CodexReview {
  import opened Common
  import opened Text
  import opened CodexAdvisory

  /** The first check of `merge_codex_findings` that fails. */
  datatype Refusal =
    | ClaimsAuthority
    | WaivesReview
    | BadStatus
    | BadRisk
    | BadSummary
    | BadList
    | BadChecklist
    | BadPriorities

  function FirstRefusal(codex: Fields): (r: Option<Refusal>)
    ensures r.None? <==> Acceptable(codex)
  {
    if ValidationAuthority in codex && Truthy(codex[ValidationAuthority]) then Some(ClaimsAuthority)
    else if HumanReviewRequired in codex && !Truthy(codex[HumanReviewRequired]) then Some(WaivesReview)
    else if ReviewStatus in codex && !OneOf(codex[ReviewStatus], ReviewStatuses) then Some(BadStatus)
    else if RiskLevel in codex && !OneOf(codex[RiskLevel], RiskLevels) then Some(BadRisk)
    else if Summary in codex && !codex[Summary].Str? then Some(BadSummary)
    else if exists k :: k in codex && IsListField(k) && !codex[k].Arr? then Some(BadList)
    else if ReviewChecklist in codex && !AcceptableChecklist(codex[ReviewChecklist]) then Some(BadChecklist)
    else if HumanReviewPriorities in codex && !AcceptablePriorities(codex[HumanReviewPriorities]) then Some(BadPriorities)
    else None
  }

  /** What is said of a refusal, after "Codex". */
  function RefusalText(r: Refusal): string
  {
    match r
    case ClaimsAuthority => "attempted to set validation_authority=true"
    case WaivesReview => "attempted to set human_review_required=false"
    case BadStatus => "returned invalid review_status"
    case BadRisk => "returned invalid risk_level"
    case BadSummary => "summary must be a string"
    case BadList => "field must be a list"
    case BadChecklist => "review_checklist is malformed"
    case BadPriorities => "human_review_priorities is malformed"
  }

  /** How one Codex CLI call ended; `output` is the JSON object found in its stdout. */
  datatype Invocation =
    | TimedOut(seconds: int)
    | CommandNotFound(detail: string)
    | OsError(detail: string)
    | Exited(code: int, output: Option<Fields>)

  datatype Failure = Failure(category: string, message: string, isParseError: bool)

  /** Every category and every message begins with Codex's name. */
  function CodexFailure(what: string, text: string, isParseError: bool): (f: Failure)
    ensures f.category != "" && f.category[0] == 'c' && f.message != "" && f.message[0] == 'C'
  {
    Failure("codex_" + what, "Codex " + text, isParseError)
  }

  /** Why the review becomes a `tool_error`, if it does. */
  function FailureOf(inv: Invocation): Option<Failure>
  {
    match inv
    case TimedOut(n) => Some(CodexFailure("cli_timeout", "CLI timed out after " + Decimal(n) + "s", false))
    case CommandNotFound(detail) => Some(CodexFailure("cli_not_found", "command not found: " + detail, false))
    case OsError(detail) => Some(CodexFailure("cli_error", "CLI could not be executed: " + detail, false))
    case Exited(code, output) =>
      if code != 0 then Some(CodexFailure("cli_nonzero_exit", "CLI exited with code " + Decimal(code), false))
      else if output.None? then
        Some(CodexFailure("output_parse_error", "stdout could not be parsed into a JSON object", true))
      else
        match FirstRefusal(output.value)
        case None => None
        case Some(r) => Some(CodexFailure("output_invariant_violation", RefusalText(r), false))
  }

  /** What the request and its surroundings put into the payload. */
  datatype Request = Request(
    taskKey: string,
    confirmRun: bool,
    now: string,
    missingEvidence: seq<Json>,
    artifacts: Fields,
    suggestedChecks: seq<Json>,
    outputs: Fields,
    invocation: Fields,
    governance: Fields,
    context: Fields
  )

  /** A task key as the request normalises it, a clock that reads a time, artifact entries under their own names. */
  predicate ValidRequest(q: Request)
  {
    && IsTaskKey(q.taskKey) && !Blank(q.now)
    && CodexOutputs !in q.artifacts && ToolError !in q.invocation && ParseErrorKey !in q.invocation
  }

  // Each text is its first word and the rest, so that it is plainly not blank.

  const DryRunSummary :=
    "Not" + " assessed in dry-run mode; Codex CLI was not invoked, so no advisory checklist finding was produced for this area."
  const PendingSummary :=
    "Codex" + " advisory review did not report a finding for this area; treat as unknown and review manually."
  const ToolErrorSummary :=
    "Not" + " assessed; the Codex advisory review failed or timed out before producing a checklist finding for this area."
  const DryRunReason :=
    "Dry-run" + " advisory review produced no Codex priority guidance; a human reviewer must independently prioritize every required review area."
  const PendingReason :=
    "Codex" + " advisory review did not report priority guidance; a human reviewer must independently prioritize every required review area."
  const ToolErrorReason :=
    "Codex" + " advisory review failed or timed out before producing priority guidance; a human reviewer must independently prioritize every required review area."

  /** What identifies the artifact and how it came about. */
  function IdentityFields(q: Request): Fields
  {
    map[
      SchemaVersion := Str("codex_advisory_review.v1"),
      Reviewer := Str("codex-cli"),
      Source := Str("codex_advisory_review"),
      TaskKey := Str(q.taskKey),
      GeneratedAt := Str(q.now),
      DryRun := Bool(!q.confirmRun),
      ConfirmRun := Bool(q.confirmRun),
      CodexCliInvoked := Bool(false),
      SubprocessInvoked := Bool(false),
      CodexInvocation := Null,
      Artifacts := Obj(q.artifacts),
      Governance := Obj(q.governance[CodexCliInvoked := Bool(false)][SubprocessInvoked := Bool(false)])
    ]
  }

  /** The advice, before any. */
  function AdviceFields(q: Request): Fields
  {
    map[
      ReviewStatus := Str("not_run"),
      ValidationAuthority := Bool(false),
      HumanReviewRequired := Bool(true),
      Summary := Str(""),
      DesignFindings := Arr([]),
      CorrectnessFindings := Arr([]),
      TestCoverageFindings := Arr([]),
      ArchitectureBoundaryFindings := Arr([]),
      RiskLevel := Str("unknown"),
      RecommendedHumanFocus := Arr([]),
      SuggestedFollowups := Arr([]),
      MissingEvidence := Arr(q.missingEvidence),
      ReviewChecklist := DefaultChecklist(if q.confirmRun then PendingSummary else DryRunSummary),
      HumanReviewPriorities :=
        DefaultPriorities(if q.confirmRun then PendingReason else DryRunReason, q.suggestedChecks),
      ToolError := Null
    ]
  }

  /** `build_review_payload`; `context` holds the paths, dimensions and evidence it copies in. */
  function ReviewPayload(q: Request): Fields
  {
    q.context + IdentityFields(q) + AdviceFields(q)
  }

  /** The payload once Codex has been called. */
  function InvokedPayload(q: Request): Fields
  {
    MarkedInvoked(ReviewPayload(q), q)
  }

  function MarkedInvoked(payload: Fields, q: Request): Fields
  {
    payload[CodexCliInvoked := Bool(true)][SubprocessInvoked := Bool(true)]
    [Governance := Obj(q.governance[CodexCliInvoked := Bool(true)][SubprocessInvoked := Bool(true)])]
    [Artifacts := Obj(q.artifacts[CodexOutputs := Obj(q.outputs)])]
  }

  function ToolErrorValue(f: Failure): Json
  {
    Obj(map[CategoryKey := Str(f.category), MessageKey := Str(f.message)])
  }

  function ToolErrored(payload: Fields, f: Failure, checks: seq<Json>): Fields
  {
    payload[ReviewStatus := Str("tool_error")][RiskLevel := Str("unknown")]
    [ValidationAuthority := Bool(false)][HumanReviewRequired := Bool(true)]
    [ReviewChecklist := DefaultChecklist(ToolErrorSummary)]
    [HumanReviewPriorities := DefaultPriorities(ToolErrorReason, checks)]
    [ToolError := ToolErrorValue(f)]
  }

  /** The fields a tool error sets; it leaves every other as it was. */
  predicate IsForced(k: Key)
  {
    k in {ReviewStatus, RiskLevel, ValidationAuthority, HumanReviewRequired, ToolError, ReviewChecklist, HumanReviewPriorities}
  }

  lemma PutLeaves(d: Fields, at: Key, v: Json, k: Key)
    requires k != at
    ensures (k in d[at := v] <==> k in d) && Get(d[at := v], k) == Get(d, k)
  {
  }

  lemma ToolErrorLeaves(payload: Fields, f: Failure, checks: seq<Json>, k: Key)
    requires !IsForced(k)
    ensures var d := ToolErrored(payload, f, checks);
            (k in d <==> k in payload) && Get(d, k) == Get(payload, k)
  {
    var d1 := payload[ReviewStatus := Str("tool_error")];
    var d2 := d1[RiskLevel := Str("unknown")];
    var d3 := d2[ValidationAuthority := Bool(false)];
    var d4 := d3[HumanReviewRequired := Bool(true)];
    var d5 := d4[ReviewChecklist := DefaultChecklist(ToolErrorSummary)];
    var d6 := d5[HumanReviewPriorities := DefaultPriorities(ToolErrorReason, checks)];
    PutLeaves(payload, ReviewStatus, Str("tool_error"), k);
    PutLeaves(d1, RiskLevel, Str("unknown"), k);
    PutLeaves(d2, ValidationAuthority, Bool(false), k);
    PutLeaves(d3, HumanReviewRequired, Bool(true), k);
    PutLeaves(d4, ReviewChecklist, DefaultChecklist(ToolErrorSummary), k);
    PutLeaves(d5, HumanReviewPriorities, DefaultPriorities(ToolErrorReason, checks), k);
    PutLeaves(d6, ToolError, ToolErrorValue(f), k);
  }

  function InvocationMeta(q: Request, f: Option<Failure>): Fields
  {
    q.invocation[ToolError := if f.Some? then ToolErrorValue(f.value) else Null]
    [ParseErrorKey := if f.Some? && f.value.isParseError then Str(f.value.message) else Null]
  }

  /** A payload after the call: a tool error, or Codex's contributions merged in. */
  function Reviewed(base: Fields, inv: Invocation, checks: seq<Json>): Fields
    requires Get(base, ReviewChecklist).Obj?
  {
    var f := FailureOf(inv);
    if f.Some? then ToolErrored(base, f.value, checks) else Merged(base, inv.output.value)
  }

  /** The payload a confirmed run writes. */
  function ConfirmPayload(q: Request, inv: Invocation): Fields
  {
    Reviewed(InvokedPayload(q), inv, q.suggestedChecks)[CodexInvocation := Obj(InvocationMeta(q, FailureOf(inv)))]
  }

  // ---------------------------------------------------------------- the dictionaries, in place

  class Dict {
    var fields: Fields

    constructor (fields: Fields)
      ensures this.fields == fields
    {
      this.fields := fields;
    }

    method Put(k: Key, v: Json)
      modifies this
      ensures fields == old(fields)[k := v]
    {
      fields := fields[k := v];
    }
  }

  lemma ChecklistBuilt(base: Fields, given: Fields, result: Fields)
    requires forall k :: k in given ==> given[k].Obj?
    requires forall k :: k in result <==> k in base || k in given
    requires forall k :: k in given ==> result[k] == CleanEntry(given[k])
    requires forall k :: k in base && k !in given ==> result[k] == base[k]
    ensures result == MergedChecklist(base, given)
  {
    assert result.Keys == MergedChecklist(base, given).Keys;
  }

  method ValidatedChecklist(base: Fields, given: Json) returns (merged: Option<Fields>)
    ensures merged.Some? <==> AcceptableChecklist(given)
    ensures merged.Some? ==> merged.value == MergedChecklist(base, given.fields)
  {
    if !given.Obj? {
      return None;
    }
    var result := base;
    var rest := given.fields.Keys;
    while rest != {}
      invariant rest <= given.fields.Keys
      invariant forall k :: k in given.fields && k !in rest ==> AcceptableEntry(given.fields[k])
      invariant forall k :: k in result <==> k in base || (k in given.fields && k !in rest)
      invariant forall k :: k in given.fields && k !in rest ==> result[k] == CleanEntry(given.fields[k])
      invariant forall k :: k in base && !(k in given.fields && k !in rest) ==> result[k] == base[k]
    {
      var area :| area in rest;
      var entry := given.fields[area];
      if !AcceptableEntry(entry) {
        return None;
      }
      result := result[area := CleanEntry(entry)];
      rest := rest - {area};
    }
    ChecklistBuilt(base, given.fields, result);
    return Some(result);
  }

  method ValidatedPriorities(given: Json) returns (validated: Option<seq<Json>>)
    ensures validated.Some? <==> AcceptablePriorities(given)
    ensures validated.Some? ==> validated.value == CleanPriorities(given.items)
  {
    if !given.Arr? || given.items == [] {
      return None;
    }
    var result := [];
    for i := 0 to |given.items|
      invariant forall j :: 0 <= j < i ==> AcceptablePriority(given.items[j])
      invariant |result| == i && forall j :: 0 <= j < i ==> result[j] == CleanPriority(given.items[j])
    {
      var item := given.items[i];
      if !AcceptablePriority(item) {
        return None;
      }
      result := result + [CleanPriority(item)];
    }
    return Some(result);
  }

  method ListFieldsAreLists(codex: Fields) returns (ok: bool)
    ensures ok <==> forall k :: k in codex && IsListField(k) ==> codex[k].Arr?
  {
    forall k: Key ensures k in ListFields <==> IsListField(k) { FieldLists(k); }
    for i := 0 to |ListFields|
      invariant forall j :: 0 <= j < i && ListFields[j] in codex ==> codex[ListFields[j]].Arr?
    {
      if ListFields[i] in codex && !codex[ListFields[i]].Arr? {
        return false;
      }
    }
    return true;
  }

  /** All the checks, and the validated contributions. */
  method CheckOutput(base: Fields, codex: Fields)
    returns (refusal: Option<Refusal>, checklist: Option<Fields>, priorities: Option<seq<Json>>)
    ensures refusal == FirstRefusal(codex)
    ensures refusal.None? ==> (checklist.Some? <==> ReviewChecklist in codex)
    ensures refusal.None? && checklist.Some? ==> checklist.value == MergedChecklist(base, codex[ReviewChecklist].fields)
    ensures refusal.None? ==> (priorities.Some? <==> HumanReviewPriorities in codex)
    ensures refusal.None? && priorities.Some? ==> priorities.value == CleanPriorities(codex[HumanReviewPriorities].items)
  {
    checklist, priorities := None, None;
    if ValidationAuthority in codex && Truthy(codex[ValidationAuthority]) {
      return Some(ClaimsAuthority), None, None;
    }
    if HumanReviewRequired in codex && !Truthy(codex[HumanReviewRequired]) {
      return Some(WaivesReview), None, None;
    }
    if ReviewStatus in codex && !OneOf(codex[ReviewStatus], ReviewStatuses) {
      return Some(BadStatus), None, None;
    }
    if RiskLevel in codex && !OneOf(codex[RiskLevel], RiskLevels) {
      return Some(BadRisk), None, None;
    }
    if Summary in codex && !codex[Summary].Str? {
      return Some(BadSummary), None, None;
    }
    var lists := ListFieldsAreLists(codex);
    if !lists {
      return Some(BadList), None, None;
    }
    if ReviewChecklist in codex {
      checklist := ValidatedChecklist(base, codex[ReviewChecklist]);
      if checklist.None? {
        return Some(BadChecklist), None, None;
      }
    }
    if HumanReviewPriorities in codex {
      priorities := ValidatedPriorities(codex[HumanReviewPriorities]);
      if priorities.None? {
        return Some(BadPriorities), None, None;
      }
    }
    return None, checklist, priorities;
  }

  /** Every check comes before the first write: a refused merge leaves the payload as it was. */
  method MergeCodexFindings(payload: Dict, codex: Fields) returns (refusal: Option<Refusal>)
    requires Get(payload.fields, ReviewChecklist).Obj?
    modifies payload
    ensures refusal == FirstRefusal(codex)
    ensures refusal.Some? ==> payload.fields == old(payload.fields)
    ensures refusal.None? ==> payload.fields == Merged(old(payload.fields), codex)
  {
    var checklist, priorities;
    refusal, checklist, priorities := CheckOutput(payload.fields[ReviewChecklist].fields, codex);
    if refusal.Some? {
      return;
    }
    CopyFields(payload, codex);
    if checklist.Some? {
      payload.Put(ReviewChecklist, Obj(checklist.value));
    }
    if priorities.Some? {
      payload.Put(HumanReviewPriorities, Arr(priorities.value));
    }
    MergeBuilt(old(payload.fields), codex, payload.fields);
  }

  lemma MergeBuilt(base: Fields, codex: Fields, result: Fields)
    requires Acceptable(codex) && Get(base, ReviewChecklist).Obj?
    requires forall k :: k in result <==>
               k in base || (k in codex && (IsMutable(k) || k.HumanReviewPriorities?))
    requires forall k :: k in codex && IsMutable(k) ==> result[k] == codex[k]
    requires ReviewChecklist in codex ==>
               result[ReviewChecklist] == Obj(MergedChecklist(base[ReviewChecklist].fields, codex[ReviewChecklist].fields))
    requires HumanReviewPriorities in codex ==>
               result[HumanReviewPriorities] == Arr(CleanPriorities(codex[HumanReviewPriorities].items))
    requires forall k :: k in base && !(k in codex && (IsMutable(k) || k.ReviewChecklist? || k.HumanReviewPriorities?)) ==>
               result[k] == base[k]
    ensures result == Merged(base, codex)
  {
    assert result.Keys == Merged(base, codex).Keys;
  }

  method CopyFields(payload: Dict, codex: Fields)
    modifies payload
    ensures forall k :: k in payload.fields <==> k in old(payload.fields) || (k in codex && IsMutable(k))
    ensures forall k :: k in codex && IsMutable(k) ==> payload.fields[k] == codex[k]
    ensures forall k :: k in old(payload.fields) && !(k in codex && IsMutable(k)) ==>
        payload.fields[k] == old(payload.fields)[k]
  {
    for i := 0 to |MutableFields|
      invariant forall k :: k in payload.fields <==> k in old(payload.fields) || (k in codex && k in MutableFields[..i])
      invariant forall k :: k in codex && k in MutableFields[..i] ==> payload.fields[k] == codex[k]
      invariant forall k :: k in old(payload.fields) && !(k in codex && k in MutableFields[..i]) ==>
          payload.fields[k] == old(payload.fields)[k]
    {
      assert MutableFields[..i + 1] == MutableFields[..i] + [MutableFields[i]];
      if MutableFields[i] in codex {
        payload.Put(MutableFields[i], codex[MutableFields[i]]);
      }
    }
    assert MutableFields[..|MutableFields|] == MutableFields;
    forall k: Key ensures k in MutableFields <==> IsMutable(k) { FieldLists(k); }
  }

  method ApplyToolError(payload: Dict, meta: Dict, f: Failure, checks: seq<Json>)
    requires payload != meta
    modifies payload, meta
    ensures payload.fields == ToolErrored(old(payload.fields), f, checks)
    ensures meta.fields == old(meta.fields)[ToolError := ToolErrorValue(f)]
                           [ParseErrorKey := if f.isParseError then Str(f.message) else Null]
  {
    payload.Put(ReviewStatus, Str("tool_error"));
    payload.Put(RiskLevel, Str("unknown"));
    payload.Put(ValidationAuthority, Bool(false));
    payload.Put(HumanReviewRequired, Bool(true));
    payload.Put(ReviewChecklist, DefaultChecklist(ToolErrorSummary));
    payload.Put(HumanReviewPriorities, DefaultPriorities(ToolErrorReason, checks));
    payload.Put(ToolError, ToolErrorValue(f));
    meta.Put(ToolError, ToolErrorValue(f));
    meta.Put(ParseErrorKey, if f.isParseError then Str(f.message) else Null);
  }

  method BuildConfirmRunPayload(q: Request, inv: Invocation) returns (payload: Dict)
    requires ValidRequest(q)
    ensures fresh(payload) && payload.fields == ConfirmPayload(q, inv)
  {
    payload := new Dict(ReviewPayload(q));
    var meta := new Dict(q.invocation[ToolError := Null][ParseErrorKey := Null]);
    MetaFilled(q, FailureOf(inv));
    MarkInvoked(payload, q);
    InvokedChecklist(q);
    Review(payload, meta, inv, q.suggestedChecks);
    payload.Put(CodexInvocation, Obj(meta.fields));
  }

  method MarkInvoked(payload: Dict, q: Request)
    modifies payload
    ensures payload.fields == MarkedInvoked(old(payload.fields), q)
  {
    payload.Put(CodexCliInvoked, Bool(true));
    payload.Put(SubprocessInvoked, Bool(true));
    payload.Put(Governance, Obj(q.governance[CodexCliInvoked := Bool(true)][SubprocessInvoked := Bool(true)]));
    payload.Put(Artifacts, Obj(q.artifacts[CodexOutputs := Obj(q.outputs)]));
  }

  lemma InvokedChecklist(q: Request)
    ensures Get(InvokedPayload(q), ReviewChecklist).Obj?
  {
  }

  lemma MetaFilled(q: Request, f: Option<Failure>)
    ensures InvocationMeta(q, f)
            == var meta := q.invocation[ToolError := Null][ParseErrorKey := Null];
               if f.Some?
               then meta[ToolError := ToolErrorValue(f.value)]
                    [ParseErrorKey := if f.value.isParseError then Str(f.value.message) else Null]
               else meta
  {
  }

  method Review(payload: Dict, meta: Dict, inv: Invocation, checks: seq<Json>)
    requires payload != meta && Get(payload.fields, ReviewChecklist).Obj?
    modifies payload, meta
    ensures payload.fields == Reviewed(old(payload.fields), inv, checks)
    ensures meta.fields == var f := FailureOf(inv);
                           if f.Some?
                           then old(meta.fields)[ToolError := ToolErrorValue(f.value)]
                                [ParseErrorKey := if f.value.isParseError then Str(f.value.message) else Null]
                           else old(meta.fields)
  {
    var f := CallFailure(inv);
    if f.None? {
      f := MergeOutput(payload, inv.output.value);
    }
    if f.Some? {
      ApplyToolError(payload, meta, f.value, checks);
    }
  }

  /** Merges the output of a call that succeeded; a refusal is a failure, and leaves the payload as it was. */
  method MergeOutput(payload: Dict, codex: Fields) returns (f: Option<Failure>)
    requires Get(payload.fields, ReviewChecklist).Obj?
    modifies payload
    ensures f == FailureOf(Exited(0, Some(codex)))
    ensures f.Some? ==> payload.fields == old(payload.fields)
    ensures f.None? ==> Acceptable(codex) && payload.fields == Merged(old(payload.fields), codex)
  {
    var refusal := MergeCodexFindings(payload, codex);
    f := if refusal.None? then None
         else Some(CodexFailure("output_invariant_violation", RefusalText(refusal.value), false));
  }

  /** The failures known before the output is merged. */
  method CallFailure(inv: Invocation) returns (f: Option<Failure>)
    ensures f.None? <==> inv.Exited? && inv.code == 0 && inv.output.Some?
    ensures f.Some? ==> f == FailureOf(inv)
  {
    if inv.TimedOut? {
      return Some(CodexFailure("cli_timeout", "CLI timed out after " + Decimal(inv.seconds) + "s", false));
    } else if inv.CommandNotFound? {
      return Some(CodexFailure("cli_not_found", "command not found: " + inv.detail, false));
    } else if inv.OsError? {
      return Some(CodexFailure("cli_error", "CLI could not be executed: " + inv.detail, false));
    } else if inv.code != 0 {
      return Some(CodexFailure("cli_nonzero_exit", "CLI exited with code " + Decimal(inv.code), false));
    } else if inv.output.None? {
      return Some(CodexFailure("output_parse_error", "stdout could not be parsed into a JSON object", true));
    }
    return None;
  }
}
