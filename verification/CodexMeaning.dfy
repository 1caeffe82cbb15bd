/**
 The terms of the advisory review, written out: what the contract demands, what
 Codex may contribute, what a merge leaves, and what each failure becomes.
 */
module CodexMeaning {
  import opened Common
  import opened Text
  import opened CodexAdvisory
  import opened CodexReview
  import CodexContract

  /** Text with something to read in it. */
  predicate Readable(x: Json)
  {
    x.Str? && exists i :: 0 <= i < |x.s| && !IsSpace(x.s[i])
  }

  lemma ReadableMeans(x: Json)
    ensures NonBlankText(x) <==> Readable(x)
  {
  }

  /** What Python takes for false. */
  lemma FalsyMeans(x: Json)
    ensures !Truthy(x) <==> || x == Null || x == Bool(false) || x == Int(0) || x == Float(Finite(0.0)) || x == Str("")
                            || x == Arr([]) || x == Obj(map[])
  {
  }

  // ---------------------------------------------------------------- the contract

  /** A checklist entry: a known status, a readable summary, a list of findings. */
  predicate GoodEntry(x: Json)
  {
    && x.Obj? && StatusKey in x.fields && Summary in x.fields && FindingsKey in x.fields
    && x.fields[StatusKey] in {Str("pass"), Str("concern"), Str("not_applicable"), Str("unknown")}
    && Readable(x.fields[Summary]) && x.fields[FindingsKey].Arr?
  }

  lemma EntryMeans(x: Json)
    ensures ValidArea(x) <==> GoodEntry(x)
  {
    if x.Obj? {
      ReadableMeans(Get(x.fields, Summary));
      StatusMeans(Get(x.fields, StatusKey));
    }
  }

  lemma StatusMeans(x: Json)
    ensures OneOf(x, ChecklistStatuses) <==> x in {Str("pass"), Str("concern"), Str("not_applicable"), Str("unknown")}
  {
    if x.Str? {
      assert x.s in ChecklistStatuses <==> x.s == "pass" || x.s == "concern" || x.s == "not_applicable" || x.s == "unknown";
    }
  }

  lemma ReviewStatusMeans(x: Json)
    ensures OneOf(x, ReviewStatuses)
            <==> x in {Str("not_run"), Str("looks_good"), Str("needs_attention"), Str("high_risk"), Str("tool_error")}
  {
    if x.Str? {
      assert x.s in ReviewStatuses <==> x.s == "not_run" || x.s == "looks_good" || x.s == "needs_attention"
                                        || x.s == "high_risk" || x.s == "tool_error";
    }
  }

  lemma RiskMeans(x: Json)
    ensures OneOf(x, RiskLevels) <==> x in {Str("unknown"), Str("low"), Str("medium"), Str("high")}
  {
    if x.Str? {
      assert x.s in RiskLevels <==> x.s == "unknown" || x.s == "low" || x.s == "medium" || x.s == "high";
    }
  }

  /** The areas a priority may name. */
  predicate NamesArea(x: Json)
  {
    x in {Str("architecture_boundary"), Str("design_risk"), Str("test_quality"), Str("silent_failure"),
          Str("fallback_correctness"), Str("race_concurrency"), Str("path_cwd_repo_root"),
          Str("human_review_priority"), Str("other")}
  }

  lemma AreaMeans(x: Json)
    ensures OneOf(x, PriorityAreas) <==> NamesArea(x)
  {
    if x.Str? {
      assert x.s in PriorityAreas <==>
        || x.s == "architecture_boundary" || x.s == "design_risk" || x.s == "test_quality" || x.s == "silent_failure"
        || x.s == "fallback_correctness" || x.s == "race_concurrency" || x.s == "path_cwd_repo_root"
        || x.s == "human_review_priority" || x.s == "other";
    }
  }

  /** A reviewer priority: a positive whole number, a known area, a readable reason, a list of checks. */
  predicate GoodPriority(x: Json)
  {
    && x.Obj? && PriorityKey in x.fields && AreaKey in x.fields && ReasonKey in x.fields && SuggestedChecksKey in x.fields
    && x.fields[PriorityKey].Int? && x.fields[PriorityKey].n > 0 && NamesArea(x.fields[AreaKey])
    && Readable(x.fields[ReasonKey]) && x.fields[SuggestedChecksKey].Arr?
  }

  lemma PriorityMeans(x: Json)
    ensures ValidPriority(x) <==> GoodPriority(x)
  {
    if x.Obj? {
      ReadableMeans(Get(x.fields, ReasonKey));
      AreaMeans(Get(x.fields, AreaKey));
    }
  }

  /** A stated tool error: an object with a readable category and message. */
  predicate GoodToolError(x: Json)
  {
    && x.Obj? && CategoryKey in x.fields && MessageKey in x.fields
    && Readable(x.fields[CategoryKey]) && Readable(x.fields[MessageKey])
  }

  lemma ToolErrorMeans(x: Json)
    ensures ValidToolError(x) <==> GoodToolError(x)
  {
    if x.Obj? {
      ReadableMeans(Get(x.fields, CategoryKey));
      ReadableMeans(Get(x.fields, MessageKey));
    }
  }

  /** The artifact's task key is the expected one, with or without white space around it. */
  lemma TaskKeyMeans(text: string, expected: string)
    requires IsTaskKey(expected)
    ensures ArtifactTaskKey(text) == expected
            <==> exists left, right :: AllSpace(left) && AllSpace(right) && text == left + expected + right
  {
    TaskKeysMayBePadded(text, expected);
    assert NormalizeTaskKey(expected) == Some(expected);
  }

  /** The whole contract. */
  ghost predicate MeetsContract(d: Fields, files: Companions, expected: Option<string>)
  {
    && Get(d, SchemaVersion) == Str("codex_advisory_review.v1") && Get(d, Reviewer) == Str("codex-cli")
    && Readable(Get(d, TaskKey)) && (expected.Some? ==> ArtifactTaskKey(d[TaskKey].s) == expected.value)
    && (GeneratedAt in d ==> Readable(d[GeneratedAt]))
    && Get(d, ReviewStatus)
       in {Str("not_run"), Str("looks_good"), Str("needs_attention"), Str("high_risk"), Str("tool_error")}
    && Get(d, RiskLevel) in {Str("unknown"), Str("low"), Str("medium"), Str("high")}
    && Get(d, ValidationAuthority) == Bool(false) && Get(d, HumanReviewRequired) == Bool(true)
    && files.markdown && (CallsForOutputs(d) ==> files.stdout && files.stderr)
    && (Get(d, ReviewStatus) == Str("tool_error") || Get(d, ToolError) != Null ==> GoodToolError(Get(d, ToolError)))
    && Get(d, ReviewChecklist).Obj?
    && (forall a: Area ::
          ChecklistArea(a) in d[ReviewChecklist].fields && GoodEntry(d[ReviewChecklist].fields[ChecklistArea(a)]))
    && Get(d, HumanReviewPriorities).Arr? && d[HumanReviewPriorities].items != []
    && forall i :: 0 <= i < |d[HumanReviewPriorities].items| ==> GoodPriority(d[HumanReviewPriorities].items[i])
  }

  /** A confirmed run, an invoked CLI, or recorded outputs. */
  predicate CallsForOutputs(d: Fields)
  {
    || Truthy(Get(d, ConfirmRun)) || Truthy(Get(d, CodexCliInvoked))
    || (Get(d, Artifacts).Obj? && CodexOutputs in d[Artifacts].fields && Truthy(d[Artifacts].fields[CodexOutputs]))
  }

  lemma ChecklistMeans(x: Json)
    ensures ChecklistCovers(x)
            <==> x.Obj? && forall a: Area :: ChecklistArea(a) in x.fields && GoodEntry(x.fields[ChecklistArea(a)])
  {
    if x.Obj? {
      forall a: Area
        ensures AreaCovered(x.fields, a) <==> ChecklistArea(a) in x.fields && GoodEntry(x.fields[ChecklistArea(a)])
      {
        if ChecklistArea(a) in x.fields {
          EntryMeans(x.fields[ChecklistArea(a)]);
        }
      }
    }
  }

  lemma PrioritiesMean(x: Json)
    ensures PrioritiesGiven(x)
            <==> x.Arr? && x.items != [] && forall i :: 0 <= i < |x.items| ==> GoodPriority(x.items[i])
  {
    if x.Arr? {
      forall i | 0 <= i < |x.items|
        ensures ValidPriority(x.items[i]) <==> GoodPriority(x.items[i])
      {
        PriorityMeans(x.items[i]);
      }
    }
  }

  lemma FieldsMean(d: Fields, files: Companions, expected: Option<string>)
    ensures Identified(d, expected)
            <==> && Get(d, SchemaVersion) == Str("codex_advisory_review.v1") && Get(d, Reviewer) == Str("codex-cli")
                 && Readable(Get(d, TaskKey)) && (expected.Some? ==> ArtifactTaskKey(d[TaskKey].s) == expected.value)
                 && (GeneratedAt in d ==> Readable(d[GeneratedAt]))
    ensures CompanionsPresent(d, files) <==> files.markdown && (CallsForOutputs(d) ==> files.stdout && files.stderr)
    ensures ToolErrorStated(d)
            <==> (Get(d, ReviewStatus) == Str("tool_error") || Get(d, ToolError) != Null ==> GoodToolError(Get(d, ToolError)))
  {
    ReadableMeans(Get(d, TaskKey));
    ReadableMeans(Get(d, GeneratedAt));
    ToolErrorMeans(Get(d, ToolError));
  }

  lemma ContractMeans(d: Fields, files: Companions, expected: Option<string>)
    ensures Contract(d, files, expected) <==> MeetsContract(d, files, expected)
  {
    FieldsMean(d, files, expected);
    ReviewStatusMeans(Get(d, ReviewStatus));
    RiskMeans(Get(d, RiskLevel));
    ChecklistMeans(Get(d, ReviewChecklist));
    PrioritiesMean(Get(d, HumanReviewPriorities));
  }

  // ---------------------------------------------------------------- contributions

  /** As a contract entry, but findings may be left out. */
  predicate OfferedEntry(x: Json)
  {
    && x.Obj? && StatusKey in x.fields && Summary in x.fields
    && x.fields[StatusKey] in {Str("pass"), Str("concern"), Str("not_applicable"), Str("unknown")}
    && Readable(x.fields[Summary]) && (FindingsKey in x.fields ==> x.fields[FindingsKey].Arr?)
  }

  /** As a contract priority, but the checks may be left out. */
  predicate OfferedPriority(x: Json)
  {
    && x.Obj? && PriorityKey in x.fields && AreaKey in x.fields && ReasonKey in x.fields
    && x.fields[PriorityKey].Int? && x.fields[PriorityKey].n > 0 && NamesArea(x.fields[AreaKey])
    && Readable(x.fields[ReasonKey]) && (SuggestedChecksKey in x.fields ==> x.fields[SuggestedChecksKey].Arr?)
  }

  lemma OfferedMeans(x: Json)
    ensures AcceptableEntry(x) <==> OfferedEntry(x)
    ensures AcceptablePriority(x) <==> OfferedPriority(x)
  {
    if x.Obj? {
      ReadableMeans(Get(x.fields, Summary));
      StatusMeans(Get(x.fields, StatusKey));
      ReadableMeans(Get(x.fields, ReasonKey));
      AreaMeans(Get(x.fields, AreaKey));
    }
  }

  /** No authority, no waiver, known enums, text and lists where they belong, and well-formed offers. */
  ghost predicate MayContribute(codex: Fields)
  {
    && (ValidationAuthority in codex ==> !Truthy(codex[ValidationAuthority]))
    && (HumanReviewRequired in codex ==> Truthy(codex[HumanReviewRequired]))
    && (ReviewStatus in codex ==>
          codex[ReviewStatus]
          in {Str("not_run"), Str("looks_good"), Str("needs_attention"), Str("high_risk"), Str("tool_error")})
    && (RiskLevel in codex ==> codex[RiskLevel] in {Str("unknown"), Str("low"), Str("medium"), Str("high")})
    && (Summary in codex ==> codex[Summary].Str?)
    && (DesignFindings in codex ==> codex[DesignFindings].Arr?)
    && (CorrectnessFindings in codex ==> codex[CorrectnessFindings].Arr?)
    && (TestCoverageFindings in codex ==> codex[TestCoverageFindings].Arr?)
    && (ArchitectureBoundaryFindings in codex ==> codex[ArchitectureBoundaryFindings].Arr?)
    && (RecommendedHumanFocus in codex ==> codex[RecommendedHumanFocus].Arr?)
    && (SuggestedFollowups in codex ==> codex[SuggestedFollowups].Arr?)
    && (MissingEvidence in codex ==> codex[MissingEvidence].Arr?)
    && (ReviewChecklist in codex ==>
          codex[ReviewChecklist].Obj?
          && forall k :: k in codex[ReviewChecklist].fields ==> OfferedEntry(codex[ReviewChecklist].fields[k]))
    && (HumanReviewPriorities in codex ==>
          codex[HumanReviewPriorities].Arr? && codex[HumanReviewPriorities].items != []
          && forall i :: 0 <= i < |codex[HumanReviewPriorities].items| ==>
               OfferedPriority(codex[HumanReviewPriorities].items[i]))
  }

  lemma ListsMean(codex: Fields)
    ensures (forall k :: k in codex && IsListField(k) ==> codex[k].Arr?)
            <==> && (DesignFindings in codex ==> codex[DesignFindings].Arr?)
                 && (CorrectnessFindings in codex ==> codex[CorrectnessFindings].Arr?)
                 && (TestCoverageFindings in codex ==> codex[TestCoverageFindings].Arr?)
                 && (ArchitectureBoundaryFindings in codex ==> codex[ArchitectureBoundaryFindings].Arr?)
                 && (RecommendedHumanFocus in codex ==> codex[RecommendedHumanFocus].Arr?)
                 && (SuggestedFollowups in codex ==> codex[SuggestedFollowups].Arr?)
                 && (MissingEvidence in codex ==> codex[MissingEvidence].Arr?)
  {
  }

  lemma AcceptableMeans(codex: Fields)
    ensures Acceptable(codex) <==> MayContribute(codex)
  {
    ListsMean(codex);
    ReviewStatusMeans(Get(codex, ReviewStatus));
    RiskMeans(Get(codex, RiskLevel));
    forall x: Json ensures AcceptableEntry(x) <==> OfferedEntry(x) { OfferedMeans(x); }
    forall x: Json ensures AcceptablePriority(x) <==> OfferedPriority(x) { OfferedMeans(x); }
  }

  /** The list Codex gave, or an empty one. */
  function Given(fields: Fields, k: Key): Json
  {
    if k in fields then fields[k] else Arr([])
  }

  /** The fields Codex's output is copied into as it stands. */
  predicate IsCopied(k: Key)
  {
    k in {ReviewStatus, RiskLevel, Summary, DesignFindings, CorrectnessFindings, TestCoverageFindings,
          ArchitectureBoundaryFindings, RecommendedHumanFocus, SuggestedFollowups, MissingEvidence}
  }

  /** What a merge leaves under each key but the checklist and the priorities. */
  lemma MergedMeans(payload: Fields, codex: Fields, k: Key)
    requires Acceptable(codex) && ReviewChecklist in payload && payload[ReviewChecklist].Obj?
    requires k != ReviewChecklist && k != HumanReviewPriorities
    ensures var d := Merged(payload, codex);
            if IsCopied(k) && k in codex then k in d && d[k] == codex[k]
            else (k in d <==> k in payload) && Get(d, k) == Get(payload, k)
  {
  }

  /** And under those two. */
  lemma MergedListsMean(payload: Fields, codex: Fields)
    requires Acceptable(codex) && ReviewChecklist in payload && payload[ReviewChecklist].Obj?
    ensures var d := Merged(payload, codex);
            && Get(d, ReviewChecklist)
               == (if ReviewChecklist in codex
                   then Obj(MergedChecklist(payload[ReviewChecklist].fields, codex[ReviewChecklist].fields))
                   else payload[ReviewChecklist])
            && Get(d, HumanReviewPriorities)
               == (if HumanReviewPriorities in codex then Arr(CleanPriorities(codex[HumanReviewPriorities].items))
                   else Get(payload, HumanReviewPriorities))
  {
  }

  /** An area Codex covers is exactly its status, summary and findings; the others keep their default. */
  lemma MergedChecklistMeans(base: Fields, given: Fields, k: Key)
    requires forall a :: a in given ==> given[a].Obj?
    ensures var d := MergedChecklist(base, given);
            && (k in d <==> k in base || k in given)
            && (k in given ==>
                  d[k] == Obj(map[StatusKey := Get(given[k].fields, StatusKey), Summary := Get(given[k].fields, Summary),
                                  FindingsKey := Given(given[k].fields, FindingsKey)]))
            && (k in base && k !in given ==> d[k] == base[k])
  {
  }

  /** Codex's priorities, one for one, each exactly its number, area, reason and checks. */
  lemma CleanPrioritiesMean(items: seq<Json>, i: nat)
    requires i < |items| && forall j :: 0 <= j < |items| ==> items[j].Obj?
    ensures |CleanPriorities(items)| == |items|
    ensures var x := items[i].fields;
            CleanPriorities(items)[i]
            == Obj(map[PriorityKey := Get(x, PriorityKey), AreaKey := Get(x, AreaKey), ReasonKey := Get(x, ReasonKey),
                       SuggestedChecksKey := Given(x, SuggestedChecksKey)])
  {
  }

  // ---------------------------------------------------------------- failures

  /** Every call that timed out, was not found, could not run, failed, or gave nothing or too much, is a tool error. */
  lemma FailuresMean(inv: Invocation)
    ensures FailureOf(inv).None? <==> inv.Exited? && inv.code == 0 && inv.output.Some? && Acceptable(inv.output.value)
    ensures FailureOf(inv).Some? ==>
              FailureOf(inv).value.category ==
                match inv
                case TimedOut(_) => "codex_" + "cli_timeout"
                case CommandNotFound(_) => "codex_" + "cli_not_found"
                case OsError(_) => "codex_" + "cli_error"
                case Exited(code, output) =>
                  if code != 0 then "codex_" + "cli_nonzero_exit"
                  else if output.None? then "codex_" + "output_parse_error"
                  else "codex_" + "output_invariant_violation"
    ensures FailureOf(inv).Some? ==>
              (FailureOf(inv).value.isParseError <==> inv.Exited? && inv.code == 0 && inv.output.None?)
  {
  }

  /** A tool error forces the status, the unknown risk, the invariants and the fallbacks, and states itself. */
  lemma ToolErroredMeans(payload: Fields, f: Failure, checks: seq<Json>)
    ensures var d := ToolErrored(payload, f, checks);
            && Get(d, ReviewStatus) == Str("tool_error") && Get(d, RiskLevel) == Str("unknown")
            && Get(d, ValidationAuthority) == Bool(false) && Get(d, HumanReviewRequired) == Bool(true)
            && Get(d, ToolError) == Obj(map[CategoryKey := Str(f.category), MessageKey := Str(f.message)])
  {
  }

  /** The fallback checklist: every area, unknown, with the given summary and no findings. */
  lemma DefaultChecklistMeans(summary: string, a: Area)
    ensures var d := DefaultChecklist(summary);
            && d.Obj? && ChecklistArea(a) in d.fields
            && d.fields[ChecklistArea(a)]
               == Obj(map[StatusKey := Str("unknown"), Summary := Str(summary), FindingsKey := Arr([])])
  {
    EveryArea(a);
  }

  // ---------------------------------------------------------------- the payload

  /** Before any advice every list is empty but the missing evidence, and there is no summary. */
  lemma NoAdviceMeans(q: Request)
    ensures var d := AdviceFields(q);
            Get(d, Summary) == Str("") && Get(d, MissingEvidence) == Arr(q.missingEvidence)
  {
  }

  lemma NoFindingsMeans(q: Request)
    ensures var d := AdviceFields(q);
            && Get(d, DesignFindings) == Arr([]) && Get(d, CorrectnessFindings) == Arr([])
            && Get(d, TestCoverageFindings) == Arr([])
  {
  }

  lemma NoGuidanceMeans(q: Request)
    ensures var d := AdviceFields(q);
            && Get(d, ArchitectureBoundaryFindings) == Arr([]) && Get(d, RecommendedHumanFocus) == Arr([])
            && Get(d, SuggestedFollowups) == Arr([])
  {
  }

  /** How a payload says it came about, before Codex is called. */
  lemma OriginMeans(q: Request)
    ensures var d := IdentityFields(q);
            && Get(d, Source) == Str("codex_advisory_review") && Get(d, DryRun) == Bool(!q.confirmRun)
            && Get(d, SubprocessInvoked) == Bool(false) && Get(d, CodexInvocation) == Null
  {
  }

  /** And after it: the call is recorded in the payload and its governance, with the output files. */
  lemma InvokedMeans(payload: Fields, q: Request)
    ensures var d := MarkedInvoked(payload, q);
            && Get(d, CodexCliInvoked) == Bool(true) && Get(d, SubprocessInvoked) == Bool(true)
            && Get(d, Artifacts) == Obj(q.artifacts[CodexOutputs := Obj(q.outputs)])
            && Get(d, Governance) == Obj(q.governance[CodexCliInvoked := Bool(true)][SubprocessInvoked := Bool(true)])
  {
  }

  /** The invocation record carries the tool error, and the parse error only when there was one. */
  lemma InvocationMeans(q: Request, inv: Invocation)
    ensures Get(ConfirmPayload(q, inv), CodexInvocation) == Obj(InvocationMeta(q, FailureOf(inv)))
    ensures var f := FailureOf(inv);
            var meta := InvocationMeta(q, f);
            && Get(meta, ToolError)
               == (if f.None? then Null
                   else Obj(map[CategoryKey := Str(f.value.category), MessageKey := Str(f.value.message)]))
            && Get(meta, ParseErrorKey) == (if f.Some? && f.value.isParseError then Str(f.value.message) else Null)
  {
    UpdatedRead(Reviewed(InvokedPayload(q), inv, q.suggestedChecks), CodexInvocation, Obj(InvocationMeta(q, FailureOf(inv))));
  }

  lemma UpdatedRead(d: Fields, k: Key, v: Json)
    ensures Get(d[k := v], k) == v
  {
  }

  /** Whatever came of the call, the payload written records that it was made. */
  lemma CallIsRecorded(q: Request, inv: Invocation, k: Key)
    requires k == CodexCliInvoked || k == SubprocessInvoked
    ensures Get(ConfirmPayload(q, inv), k) == Bool(true)
  {
    var base := InvokedPayload(q);
    InvokedMeans(ReviewPayload(q), q);
    CodexContract.InvokedIsDefault(q);
    ReviewLeaves(base, inv, q.suggestedChecks, k);
    PutLeaves(Reviewed(base, inv, q.suggestedChecks), CodexInvocation, Obj(InvocationMeta(q, FailureOf(inv))), k);
  }

  lemma ReviewLeaves(base: Fields, inv: Invocation, checks: seq<Json>, k: Key)
    requires Get(base, ReviewChecklist).Obj? && (k == CodexCliInvoked || k == SubprocessInvoked)
    ensures Get(Reviewed(base, inv, checks), k) == Get(base, k)
  {
    var f := FailureOf(inv);
    if f.Some? {
      ToolErrorLeaves(base, f.value, checks, k);
    } else {
      CodexContract.MergeKeepsKey(base, inv.output.value, k);
    }
  }
}
