/**
 The independent validator of advisory artifacts
 (codex_advisory_artifact_contract_validator.py), and what it says of every
 payload the review writes.
 */
module CodexContract {
  import opened Common
  import opened Text
  import opened CodexAdvisory
  import opened CodexReview

  // ---------------------------------------------------------------- the validator

  datatype ArtifactFile = Missing | Unparsable | Parsed(value: Json)

  datatype Fault = Absent | NotObject | WrongStatus | NoSummary | NoFindings

  datatype ContractError =
    | NoArtifact | NotJson | NotAnObject
    | WrongSchema | WrongReviewer | NoTaskKey | OtherTask | BadTimestamp
    | WrongReviewStatus | WrongRiskLevel | HasAuthority | NoHumanReview
    | NoMarkdown | NoStdout | NoStderr | WrongToolError
    | NoChecklist | AreaFault(area: Area, fault: Fault)
    | NoPriorities | PriorityFault(index: nat)

  /** Steps 4, 5 and 12: what identifies the artifact. */
  method CheckIdentity(d: Fields, expected: Option<string>) returns (errors: seq<ContractError>)
    ensures errors == [] <==> Identified(d, expected)
    ensures WrongSchema in errors <==> Get(d, SchemaVersion) != Str("codex_advisory_review.v1")
    ensures WrongReviewer in errors <==> Get(d, Reviewer) != Str("codex-cli")
    ensures NoTaskKey in errors <==> !NonBlankText(Get(d, TaskKey))
    ensures BadTimestamp in errors <==> GeneratedAt in d && !NonBlankText(d[GeneratedAt])
  {
    errors := [];
    if Get(d, SchemaVersion) != Str("codex_advisory_review.v1") {
      errors := errors + [WrongSchema];
    }
    if Get(d, Reviewer) != Str("codex-cli") {
      errors := errors + [WrongReviewer];
    }
    if !NonBlankText(Get(d, TaskKey)) {
      errors := errors + [NoTaskKey];
    } else if expected.Some? && ArtifactTaskKey(d[TaskKey].s) != expected.value {
      errors := errors + [OtherTask];
    }
    if GeneratedAt in d && !NonBlankText(d[GeneratedAt]) {
      errors := errors + [BadTimestamp];
    }
  }

  /** Steps 6, 7 and 10: the enums, the authority invariants and the tool error. */
  method CheckAdvice(d: Fields) returns (errors: seq<ContractError>)
    ensures errors == [] <==> AdvisoryOnly(d) && AllowedEnums(d) && ToolErrorStated(d)
    ensures WrongReviewStatus in errors <==> !OneOf(Get(d, ReviewStatus), ReviewStatuses)
    ensures WrongRiskLevel in errors <==> !OneOf(Get(d, RiskLevel), RiskLevels)
    ensures HasAuthority in errors <==> Get(d, ValidationAuthority) != Bool(false)
    ensures NoHumanReview in errors <==> Get(d, HumanReviewRequired) != Bool(true)
    ensures WrongToolError in errors <==> !ToolErrorStated(d)
  {
    errors := [];
    if !OneOf(Get(d, ReviewStatus), ReviewStatuses) {
      errors := errors + [WrongReviewStatus];
    }
    if !OneOf(Get(d, RiskLevel), RiskLevels) {
      errors := errors + [WrongRiskLevel];
    }
    if Get(d, ValidationAuthority) != Bool(false) {
      errors := errors + [HasAuthority];
    }
    if Get(d, HumanReviewRequired) != Bool(true) {
      errors := errors + [NoHumanReview];
    }
    if !ToolErrorStated(d) {
      errors := errors + [WrongToolError];
    }
  }

  /** Steps 8 and 9: the files beside the artifact. */
  method CheckCompanions(d: Fields, files: Companions) returns (errors: seq<ContractError>)
    ensures errors == [] <==> CompanionsPresent(d, files)
    ensures NoMarkdown in errors <==> !files.markdown
    ensures NoStdout in errors <==> ExpectsOutputs(d) && !files.stdout
    ensures NoStderr in errors <==> ExpectsOutputs(d) && !files.stderr
  {
    errors := [];
    if !files.markdown {
      errors := errors + [NoMarkdown];
    }
    if ExpectsOutputs(d) {
      if !files.stdout {
        errors := errors + [NoStdout];
      }
      if !files.stderr {
        errors := errors + [NoStderr];
      }
    }
  }

  method CheckArea(checklist: Fields, a: Area) returns (errors: seq<ContractError>)
    ensures errors == [] <==> AreaCovered(checklist, a)
    ensures forall e :: e in errors ==> e.AreaFault? && e.area == a
    ensures AreaFault(a, Absent) in errors <==> ChecklistArea(a) !in checklist
    ensures AreaFault(a, NotObject) in errors <==> ChecklistArea(a) in checklist && !checklist[ChecklistArea(a)].Obj?
    ensures ChecklistArea(a) in checklist && checklist[ChecklistArea(a)].Obj? ==>
              var entry := checklist[ChecklistArea(a)].fields;
              && (AreaFault(a, WrongStatus) in errors <==> !OneOf(Get(entry, StatusKey), ChecklistStatuses))
              && (AreaFault(a, NoSummary) in errors <==> !NonBlankText(Get(entry, Summary)))
              && (AreaFault(a, NoFindings) in errors <==> !Get(entry, FindingsKey).Arr?)
  {
    if ChecklistArea(a) !in checklist {
      return [AreaFault(a, Absent)];
    }
    var entry := checklist[ChecklistArea(a)];
    if !entry.Obj? {
      return [AreaFault(a, NotObject)];
    }
    errors := [];
    if !OneOf(Get(entry.fields, StatusKey), ChecklistStatuses) {
      errors := errors + [AreaFault(a, WrongStatus)];
    }
    if !NonBlankText(Get(entry.fields, Summary)) {
      errors := errors + [AreaFault(a, NoSummary)];
    }
    if !Get(entry.fields, FindingsKey).Arr? {
      errors := errors + [AreaFault(a, NoFindings)];
    }
  }

  ghost predicate Names(errors: seq<ContractError>, a: Area)
  {
    exists e :: e in errors && e.AreaFault? && e.area == a
  }

  /** Names exactly the areas that are missing or malformed. */
  method CheckChecklist(d: Fields) returns (errors: seq<ContractError>)
    ensures errors == [] <==> ChecklistCovers(Get(d, ReviewChecklist))
    ensures Get(d, ReviewChecklist).Obj? ==>
              forall a :: Names(errors, a) <==> !AreaCovered(d[ReviewChecklist].fields, a)
  {
    if !Get(d, ReviewChecklist).Obj? {
      return [NoChecklist];
    }
    var checklist := d[ReviewChecklist].fields;
    errors := [];
    for i := 0 to |Areas|
      invariant forall e :: e in errors ==> e.AreaFault?
      invariant forall a :: Names(errors, a) <==> a in Areas[..i] && !AreaCovered(checklist, a)
    {
      ghost var before := errors;
      var more := CheckArea(checklist, Areas[i]);
      errors := errors + more;
      AreaChecked(before, more, checklist, i);
    }
    forall a: Area ensures a in Areas { EveryArea(a); }
    assert Areas[..|Areas|] == Areas;
    if errors != [] {
      assert errors[0] in errors && Names(errors, errors[0].area);
      assert !AreaCovered(checklist, errors[0].area);
    } else {
      forall a: Area ensures AreaCovered(checklist, a) { assert !Names(errors, a); }
    }
  }

  lemma AreaChecked(before: seq<ContractError>, more: seq<ContractError>, checklist: Fields, i: nat)
    requires i < |Areas| && (more == [] <==> AreaCovered(checklist, Areas[i]))
    requires forall e :: e in more ==> e.AreaFault? && e.area == Areas[i]
    requires forall a :: Names(before, a) <==> a in Areas[..i] && !AreaCovered(checklist, a)
    ensures forall a :: Names(before + more, a) <==> a in Areas[..i + 1] && !AreaCovered(checklist, a)
  {
    forall a: Area
      ensures Names(before + more, a) <==> a in Areas[..i + 1] && !AreaCovered(checklist, a)
    {
      assert Areas[..i + 1] == Areas[..i] + [Areas[i]];
      NamesAppended(before, more, a);
      if more != [] {
        assert more[0] in more && Names(more, Areas[i]);
      }
    }
  }

  lemma NamesAppended(x: seq<ContractError>, y: seq<ContractError>, a: Area)
    ensures Names(x + y, a) <==> Names(x, a) || Names(y, a)
  {
    if e :| e in x && e.AreaFault? && e.area == a { assert e in x + y; }
    if e :| e in y && e.AreaFault? && e.area == a { assert e in x + y; }
  }

  method CheckPriorities(d: Fields) returns (errors: seq<ContractError>)
    ensures errors == [] <==> PrioritiesGiven(Get(d, HumanReviewPriorities))
    ensures NoPriorities in errors <==> !Get(d, HumanReviewPriorities).Arr? || Get(d, HumanReviewPriorities).items == []
    ensures Get(d, HumanReviewPriorities).Arr? ==>
              forall i :: 0 <= i < |Get(d, HumanReviewPriorities).items| ==>
                (PriorityFault(i) in errors <==> !ValidPriority(Get(d, HumanReviewPriorities).items[i]))
  {
    var priorities := Get(d, HumanReviewPriorities);
    if !priorities.Arr? || priorities.items == [] {
      return [NoPriorities];
    }
    errors := [];
    for i := 0 to |priorities.items|
      invariant errors == [] <==> forall j :: 0 <= j < i ==> ValidPriority(priorities.items[j])
      invariant NoPriorities !in errors && forall e :: e in errors ==> e.PriorityFault? && e.index < i
      invariant forall j :: 0 <= j < i ==> (PriorityFault(j) in errors <==> !ValidPriority(priorities.items[j]))
    {
      if !ValidPriority(priorities.items[i]) {
        errors := errors + [PriorityFault(i)];
      }
    }
  }

  /** Passes exactly the artifacts that meet the contract. */
  method Validate(artifact: ArtifactFile, files: Companions, expected: Option<string>)
    returns (errors: seq<ContractError>)
    ensures errors == [] <==> artifact.Parsed? && artifact.value.Obj? && Contract(artifact.value.fields, files, expected)
  {
    if artifact.Missing? {
      return [NoArtifact];
    }
    if artifact.Unparsable? {
      return [NotJson];
    }
    if !artifact.value.Obj? {
      return [NotAnObject];
    }
    var d := artifact.value.fields;
    var identity := CheckIdentity(d, expected);
    var advice := CheckAdvice(d);
    var companions := CheckCompanions(d, files);
    var checklist := CheckChecklist(d);
    var priorities := CheckPriorities(d);
    return identity + advice + companions + checklist + priorities;
  }

  // ---------------------------------------------------------------- what the review writes

  lemma Starts(s: string)
    requires s != "" && !IsSpace(s[0])
    ensures !Blank(s)
  {
  }

  lemma DefaultChecklistCovers(summary: string)
    requires !Blank(summary)
    ensures ChecklistCovers(DefaultChecklist(summary))
  {
    var d := DefaultChecklist(summary).fields;
    forall a: Area
      ensures AreaCovered(d, a)
    {
      EveryArea(a);
    }
  }

  lemma DefaultPrioritiesGiven(reason: string, checks: seq<Json>)
    requires !Blank(reason)
    ensures PrioritiesGiven(DefaultPriorities(reason, checks))
  {
    assert "human_review_priority" == PriorityAreas[7];
  }

  lemma MergedChecklistCovers(base: Fields, given: Json)
    requires ChecklistCovers(Obj(base)) && AcceptableChecklist(given)
    ensures ChecklistCovers(Obj(MergedChecklist(base, given.fields)))
  {
    var merged := MergedChecklist(base, given.fields);
    forall a: Area
      ensures AreaCovered(merged, a)
    {
      var k := ChecklistArea(a);
      assert AreaCovered(base, a);
      if k in given.fields {
        assert AcceptableEntry(given.fields[k]);
      }
    }
  }

  lemma CleanPrioritiesGiven(given: Json)
    requires AcceptablePriorities(given)
    ensures PrioritiesGiven(Arr(CleanPriorities(given.items)))
  {
  }

  lemma TextsAreGiven()
    ensures !Blank(DryRunSummary) && !Blank(PendingSummary) && !Blank(ToolErrorSummary)
    ensures !Blank(DryRunReason) && !Blank(PendingReason) && !Blank(ToolErrorReason)
  {
    assert DryRunSummary[0] == ToolErrorSummary[0] == 'N' && DryRunReason[0] == 'D';
    assert PendingSummary[0] == PendingReason[0] == ToolErrorReason[0] == 'C';
  }

  lemma FailureIsStated(inv: Invocation)
    requires FailureOf(inv).Some?
    ensures ValidToolError(ToolErrorValue(FailureOf(inv).value))
  {
    var f := FailureOf(inv).value;
    Starts(f.category);
    Starts(f.message);
  }

  /** Codex output that is accepted and itself claims a tool error. */
  predicate ClaimsToolError(inv: Invocation)
  {
    && inv.Exited? && inv.code == 0 && inv.output.Some? && Acceptable(inv.output.value)
    && Get(inv.output.value, ReviewStatus) == Str("tool_error")
  }

  /** The contract's parts that a review may change. */
  predicate Advises(d: Fields)
  {
    && AdvisoryOnly(d) && AllowedEnums(d)
    && ChecklistCovers(Get(d, ReviewChecklist)) && PrioritiesGiven(Get(d, HumanReviewPriorities))
  }

  lemma MergeAdvises(base: Fields, codex: Fields)
    requires Advises(base) && Acceptable(codex)
    ensures Advises(Merged(base, codex))
  {
    var d := Merged(base, codex);
    if ReviewChecklist in codex {
      MergedChecklistCovers(base[ReviewChecklist].fields, codex[ReviewChecklist]);
    }
    if HumanReviewPriorities in codex {
      CleanPrioritiesGiven(codex[HumanReviewPriorities]);
    }
  }

  lemma ToolErrorAdvises(base: Fields, f: Failure, checks: seq<Json>)
    ensures Advises(ToolErrored(base, f, checks))
  {
    TextsAreGiven();
    DefaultChecklistCovers(ToolErrorSummary);
    DefaultPrioritiesGiven(ToolErrorReason, checks);
    assert "tool_error" == ReviewStatuses[4] && "unknown" == RiskLevels[0];
  }

  /** A key of the layer on top, and a key only of the layer below it. */
  lemma Layered(context: Fields, identity: Fields, advice: Fields, k: Key)
    ensures k in advice ==> Get(context + identity + advice, k) == advice[k]
    ensures k in identity && k !in advice ==> Get(context + identity + advice, k) == identity[k]
    ensures k in identity || k in advice ==> k in context + identity + advice
  {
  }

  lemma IdentityRead(q: Request)
    ensures var d := IdentityFields(q);
            && SchemaVersion in d && d[SchemaVersion] == Str("codex_advisory_review.v1")
            && Reviewer in d && d[Reviewer] == Str("codex-cli") && TaskKey in d && d[TaskKey] == Str(q.taskKey)
            && GeneratedAt in d && d[GeneratedAt] == Str(q.now)
            && ConfirmRun in d && d[ConfirmRun] == Bool(q.confirmRun)
            && CodexCliInvoked in d && d[CodexCliInvoked] == Bool(false)
            && Artifacts in d && d[Artifacts] == Obj(q.artifacts)
  {
  }

  predicate IsIdentity(k: Key)
  {
    || k.SchemaVersion? || k.Reviewer? || k.TaskKey? || k.GeneratedAt? || k.ConfirmRun? || k.CodexCliInvoked? || k.Artifacts?
  }

  lemma AdviceIsSeparate(q: Request, k: Key)
    requires IsIdentity(k)
    ensures k !in AdviceFields(q)
  {
  }

  lemma AdviceRead(q: Request)
    ensures var d := AdviceFields(q);
            && ReviewStatus in d && d[ReviewStatus] == Str("not_run") && RiskLevel in d && d[RiskLevel] == Str("unknown")
            && ValidationAuthority in d && d[ValidationAuthority] == Bool(false)
            && HumanReviewRequired in d && d[HumanReviewRequired] == Bool(true) && ToolError in d && d[ToolError] == Null
            && ReviewChecklist in d
            && d[ReviewChecklist] == DefaultChecklist(if q.confirmRun then PendingSummary else DryRunSummary)
            && HumanReviewPriorities in d
            && d[HumanReviewPriorities]
               == DefaultPriorities(if q.confirmRun then PendingReason else DryRunReason, q.suggestedChecks)
  {
  }

  lemma ReadIdentity(q: Request, k: Key)
    requires IsIdentity(k) && k in IdentityFields(q)
    ensures Get(ReviewPayload(q), k) == IdentityFields(q)[k] && k in ReviewPayload(q)
  {
    AdviceIsSeparate(q, k);
    Layered(q.context, IdentityFields(q), AdviceFields(q), k);
  }

  lemma ReadAdvice(q: Request, k: Key)
    requires k in AdviceFields(q)
    ensures Get(ReviewPayload(q), k) == AdviceFields(q)[k]
  {
    Layered(q.context, IdentityFields(q), AdviceFields(q), k);
  }

  /** The identity fields of a payload not yet invoked. */
  predicate HasIdentity(d: Fields, q: Request)
  {
    && Get(d, SchemaVersion) == Str("codex_advisory_review.v1") && Get(d, Reviewer) == Str("codex-cli")
    && Get(d, TaskKey) == Str(q.taskKey) && Get(d, GeneratedAt) == Str(q.now) && GeneratedAt in d
    && Get(d, ConfirmRun) == Bool(q.confirmRun)
    && Get(d, CodexCliInvoked) == Bool(false) && Get(d, Artifacts) == Obj(q.artifacts)
  }

  /** The advice fields of a payload not yet reviewed. */
  predicate HasNoAdvice(d: Fields, q: Request)
  {
    && Get(d, ReviewStatus) == Str("not_run") && Get(d, RiskLevel) == Str("unknown") && AdvisoryOnly(d)
    && Get(d, ToolError) == Null
    && Get(d, ReviewChecklist) == DefaultChecklist(if q.confirmRun then PendingSummary else DryRunSummary)
    && Get(d, HumanReviewPriorities)
       == DefaultPriorities(if q.confirmRun then PendingReason else DryRunReason, q.suggestedChecks)
  }

  lemma DefaultFields(q: Request)
    ensures HasIdentity(ReviewPayload(q), q)
  {
    IdentityRead(q);
    ReadIdentity(q, SchemaVersion);
    ReadIdentity(q, Reviewer);
    ReadIdentity(q, TaskKey);
    ReadIdentity(q, GeneratedAt);
    ReadIdentity(q, ConfirmRun);
    ReadIdentity(q, CodexCliInvoked);
    ReadIdentity(q, Artifacts);
  }

  lemma DefaultReviewFields(q: Request)
    ensures HasNoAdvice(ReviewPayload(q), q)
  {
    AdviceRead(q);
    ReadAdvice(q, ReviewStatus);
    ReadAdvice(q, RiskLevel);
    ReadAdvice(q, ValidationAuthority);
    ReadAdvice(q, HumanReviewRequired);
    ReadAdvice(q, ToolError);
    ReadAdvice(q, ReviewChecklist);
    ReadAdvice(q, HumanReviewPriorities);
  }

  lemma NoAdviceAdvises(d: Fields, q: Request)
    requires HasNoAdvice(d, q)
    ensures Advises(d)
  {
    TextsAreGiven();
    DefaultChecklistCovers(if q.confirmRun then PendingSummary else DryRunSummary);
    DefaultPrioritiesGiven(if q.confirmRun then PendingReason else DryRunReason, q.suggestedChecks);
    assert "not_run" == ReviewStatuses[0] && "unknown" == RiskLevels[0];
  }

  lemma DefaultAdvises(q: Request)
    ensures Advises(ReviewPayload(q))
  {
    DefaultReviewFields(q);
    NoAdviceAdvises(ReviewPayload(q), q);
  }

  /** The keys a contract reads, apart from those a review or an invocation writes. */
  predicate SameIdentity(d: Fields, e: Fields)
  {
    && Get(d, SchemaVersion) == Get(e, SchemaVersion) && Get(d, Reviewer) == Get(e, Reviewer)
    && Get(d, TaskKey) == Get(e, TaskKey) && Get(d, GeneratedAt) == Get(e, GeneratedAt)
    && Get(d, ConfirmRun) == Get(e, ConfirmRun) && GeneratedAt in d && GeneratedAt in e
  }

  predicate SameReview(d: Fields, e: Fields)
  {
    && Get(d, ReviewStatus) == Get(e, ReviewStatus) && Get(d, RiskLevel) == Get(e, RiskLevel)
    && Get(d, ValidationAuthority) == Get(e, ValidationAuthority)
    && Get(d, HumanReviewRequired) == Get(e, HumanReviewRequired) && Get(d, ToolError) == Get(e, ToolError)
    && Get(d, ReviewChecklist) == Get(e, ReviewChecklist)
    && Get(d, HumanReviewPriorities) == Get(e, HumanReviewPriorities)
  }

  lemma UpdateKeeps(d: Fields, k: Key, v: Json)
    requires k in {CodexInvocation, CodexCliInvoked, SubprocessInvoked, Governance, Artifacts} && GeneratedAt in d
    ensures SameIdentity(d[k := v], d) && SameReview(d[k := v], d)
  {
  }

  lemma MergeKeepsIdentity(base: Fields, codex: Fields)
    requires Acceptable(codex) && Get(base, ReviewChecklist).Obj? && GeneratedAt in base
    ensures SameIdentity(Merged(base, codex), base)
  {
    MergeKeepsKey(base, codex, SchemaVersion);
    MergeKeepsKey(base, codex, Reviewer);
    MergeKeepsKey(base, codex, TaskKey);
    MergeKeepsKey(base, codex, GeneratedAt);
    MergeKeepsKey(base, codex, ConfirmRun);
  }

  /** Codex sets no field but those it may contribute. */
  lemma MergeKeepsKey(base: Fields, codex: Fields, k: Key)
    requires Acceptable(codex) && Get(base, ReviewChecklist).Obj?
    requires !IsMutable(k) && !k.ReviewChecklist? && !k.HumanReviewPriorities?
    ensures (k in Merged(base, codex) <==> k in base) && Get(Merged(base, codex), k) == Get(base, k)
  {
  }

  lemma ToolErrorKeepsIdentity(base: Fields, f: Failure, checks: seq<Json>)
    requires GeneratedAt in base
    ensures SameIdentity(ToolErrored(base, f, checks), base)
  {
    ToolErrorLeaves(base, f, checks, SchemaVersion);
    ToolErrorLeaves(base, f, checks, Reviewer);
    ToolErrorLeaves(base, f, checks, TaskKey);
    ToolErrorLeaves(base, f, checks, GeneratedAt);
    ToolErrorLeaves(base, f, checks, ConfirmRun);
  }

  /** Neither a merge nor a tool error touches what identifies the artifact. */
  lemma ReviewKeepsIdentity(base: Fields, inv: Invocation, checks: seq<Json>)
    requires Get(base, ReviewChecklist).Obj? && GeneratedAt in base
    ensures SameIdentity(Reviewed(base, inv, checks), base)
  {
    var f := FailureOf(inv);
    if f.Some? {
      ToolErrorKeepsIdentity(base, f.value, checks);
    } else {
      MergeKeepsIdentity(base, inv.output.value);
    }
  }

  lemma ReviewAdvises(base: Fields, inv: Invocation, checks: seq<Json>)
    requires Advises(base)
    ensures Advises(Reviewed(base, inv, checks))
  {
    var f := FailureOf(inv);
    if f.Some? {
      ToolErrorAdvises(base, f.value, checks);
    } else {
      MergeAdvises(base, inv.output.value);
    }
  }

  lemma TaskKeyReads(s: string)
    requires IsTaskKey(s)
    ensures !Blank(s) && ArtifactTaskKey(s) == s
  {
    assert KeyChar(s[0]);
    Starts(s);
  }

  /** Whether the reviewed payload states its tool error: always, unless Codex's own output claimed one. */
  lemma ToolErrorIsStated(base: Fields, inv: Invocation, checks: seq<Json>)
    requires Advises(base) && Get(base, ToolError) == Null && Get(base, ReviewStatus) == Str("not_run")
    ensures ToolErrorStated(Reviewed(base, inv, checks)) <==> !ClaimsToolError(inv)
  {
    var f := FailureOf(inv);
    assert "not_run"[0] != "tool_error"[0];
    if f.Some? {
      FailureIsStated(inv);
    } else {
      ReviewKeepsToolError(base, inv.output.value);
    }
  }

  lemma ReviewKeepsToolError(base: Fields, codex: Fields)
    requires Acceptable(codex) && Get(base, ReviewChecklist).Obj?
    ensures Get(Merged(base, codex), ToolError) == Get(base, ToolError)
    ensures Get(Merged(base, codex), ReviewStatus)
            == if ReviewStatus in codex then codex[ReviewStatus] else Get(base, ReviewStatus)
  {
  }

  /**
   For every outcome of the Codex call and every output, the confirmed run's payload meets the
   contract, its companion files present, exactly unless Codex's accepted output claims a tool error.
   */
  lemma ConfirmPayloadPasses(q: Request, inv: Invocation, files: Companions, expected: Option<string>)
    requires ValidRequest(q) && q.confirmRun
    ensures Contract(ConfirmPayload(q, inv), files, expected)
            <==> && files.markdown && files.stdout && files.stderr
                 && (expected.None? || expected.value == q.taskKey)
                 && !ClaimsToolError(inv)
  {
    var base := InvokedPayload(q);
    InvokedIsDefault(q);
    var d := Reviewed(base, inv, q.suggestedChecks);
    ReviewKeepsIdentity(base, inv, q.suggestedChecks);
    ReviewAdvises(base, inv, q.suggestedChecks);
    ToolErrorIsStated(base, inv, q.suggestedChecks);
    var meta := Obj(InvocationMeta(q, FailureOf(inv)));
    UpdateKeeps(d, CodexInvocation, meta);
    ContractOfConfirmed(q, d[CodexInvocation := meta], files, expected);
  }

  /** Marking the invocation changes nothing the contract's other parts read. */
  lemma InvokedIsDefault(q: Request)
    ensures SameIdentity(InvokedPayload(q), ReviewPayload(q)) && SameReview(InvokedPayload(q), ReviewPayload(q))
    ensures Advises(InvokedPayload(q)) && Get(InvokedPayload(q), ToolError) == Null
    ensures Get(InvokedPayload(q), ReviewStatus) == Str("not_run")
  {
    DefaultAdvises(q);
    DefaultFields(q);
    DefaultReviewFields(q);
    MarkingKeeps(ReviewPayload(q), q);
  }

  lemma MarkingKeeps(d: Fields, q: Request)
    requires GeneratedAt in d
    ensures SameIdentity(MarkedInvoked(d, q), d) && SameReview(MarkedInvoked(d, q), d)
  {
    var d1 := d[CodexCliInvoked := Bool(true)];
    var d2 := d1[SubprocessInvoked := Bool(true)];
    var governance := Obj(q.governance[CodexCliInvoked := Bool(true)][SubprocessInvoked := Bool(true)]);
    var d3 := d2[Governance := governance];
    UpdateKeeps(d, CodexCliInvoked, Bool(true));
    UpdateKeeps(d1, SubprocessInvoked, Bool(true));
    UpdateKeeps(d2, Governance, governance);
    UpdateKeeps(d3, Artifacts, Obj(q.artifacts[CodexOutputs := Obj(q.outputs)]));
  }

  lemma ContractOfConfirmed(q: Request, d: Fields, files: Companions, expected: Option<string>)
    requires ValidRequest(q) && q.confirmRun && SameIdentity(d, ReviewPayload(q)) && Advises(d)
    ensures Contract(d, files, expected)
            <==> && files.markdown && files.stdout && files.stderr
                 && (expected.None? || expected.value == q.taskKey) && ToolErrorStated(d)
  {
    DefaultFields(q);
    TaskKeyReads(q.taskKey);
    assert Truthy(Get(d, ConfirmRun)) && ExpectsOutputs(d);
    assert Identified(d, expected) <==> expected.None? || expected.value == q.taskKey;
  }

  /** A dry run needs no output files. */
  lemma DryRunPasses(q: Request, files: Companions, expected: Option<string>)
    requires ValidRequest(q) && !q.confirmRun
    ensures Contract(ReviewPayload(q), files, expected)
            <==> files.markdown && (expected.None? || expected.value == q.taskKey)
  {
    DefaultFields(q);
    DefaultReviewFields(q);
    ContractOfDry(q, ReviewPayload(q), files, expected);
  }

  lemma ContractOfDry(q: Request, d: Fields, files: Companions, expected: Option<string>)
    requires ValidRequest(q) && !q.confirmRun && HasIdentity(d, q) && HasNoAdvice(d, q)
    ensures Contract(d, files, expected) <==> files.markdown && (expected.None? || expected.value == q.taskKey)
  {
    NoAdviceAdvises(d, q);
    TaskKeyReads(q.taskKey);
    assert "not_run"[0] != "tool_error"[0];
    assert ToolErrorStated(d) && !ExpectsOutputs(d);
    assert Identified(d, expected) <==> expected.None? || expected.value == q.taskKey;
  }

  /** `validate_payload`: the invariants checked before anything is written. */
  predicate HardInvariants(d: Fields)
  {
    && Get(d, SchemaVersion) == Str("codex_advisory_review.v1") && Get(d, Reviewer) == Str("codex-cli")
    && AdvisoryOnly(d) && AllowedEnums(d)
  }

  /** The last check before writing never fires, even where the artifact then fails the contract. */
  lemma WritesAlways(q: Request, inv: Invocation)
    ensures HardInvariants(ConfirmPayload(q, inv)) && HardInvariants(ReviewPayload(q))
  {
    DefaultAdvises(q);
    DefaultFields(q);
    InvokedIsDefault(q);
    var base := InvokedPayload(q);
    var d := Reviewed(base, inv, q.suggestedChecks);
    ReviewKeepsIdentity(base, inv, q.suggestedChecks);
    ReviewAdvises(base, inv, q.suggestedChecks);
    UpdateKeeps(d, CodexInvocation, Obj(InvocationMeta(q, FailureOf(inv))));
  }

  /** The exception exists: an output that says no more than `tool_error` is accepted. */
  lemma ToolErrorClaimIsAccepted()
    ensures ClaimsToolError(Exited(0, Some(map[ReviewStatus := Str("tool_error")])))
  {
    assert "tool_error" == ReviewStatuses[4];
  }

  /** A confirmed run, then the validator on what it wrote. */
  method ReviewThenValidate(q: Request, inv: Invocation) returns (errors: seq<ContractError>)
    requires ValidRequest(q) && q.confirmRun
    ensures errors == [] <==> !ClaimsToolError(inv)
  {
    var payload := BuildConfirmRunPayload(q, inv);
    var files := Companions(true, true, true);
    ConfirmPayloadPasses(q, inv, files, Some(q.taskKey));
    errors := Validate(Parsed(Obj(payload.fields)), files, Some(q.taskKey));
  }
}
