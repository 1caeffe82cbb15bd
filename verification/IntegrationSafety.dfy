/**
 What holds over every run of the integration protocol, with any number of
 crashes, reconciliations, exceptions and retries.
 */
module IntegrationSafety {
  import opened Common
  import opened CommitGraph
  import opened IntegrationSchema
  import opened IntegrationProtocol
  import opened IntegrationInvariant

  lemma {:induction false} RunsKeepInv(states: seq<State>, acts: seq<Action>, i: nat)
    requires IsRun(states, acts) && i < |states|
    ensures Inv(states[i])
  {
    if i == 0 {
      InitInv(states[0]);
    } else {
      RunsKeepInv(states, acts, i - 1);
      StepKeepsInv(states[i - 1], acts[i - 1]);
    }
  }

  // ------------------------------------------------------------ one PR only

  /** Does this action create a PR on GitHub, whether or not the run gets to know? */
  predicate CreatesPr(s: State, a: Action)
    requires Enabled(s, a)
  {
    |Apply(s, a).out.prs| > |s.out.prs|
  }

  lemma StepKeepsPrs(s: State, a: Action)
    requires Enabled(s, a)
    ensures s.out.prs <= Apply(s, a).out.prs
    ensures s.out.pushed ==> Apply(s, a).out.pushed
  {}

  /** PRs that exist stay, in order, and a pushed branch stays pushed. */
  predicate Continues(s: State, t: State)
  {
    s.out.prs <= t.out.prs && (s.out.pushed ==> t.out.pushed)
  }

  lemma {:induction false} ContinuesAll(states: seq<State>, i: nat, j: nat)
    requires i <= j < |states| && forall k :: 0 < k < |states| ==> Continues(states[k - 1], states[k])
    ensures Continues(states[i], states[j])
    decreases j
  {
    if i < j {
      ContinuesAll(states, i, j - 1);
    }
  }

  lemma HistoryGrows(states: seq<State>, acts: seq<Action>, i: nat, j: nat)
    requires IsRun(states, acts) && i <= j < |states|
    ensures Continues(states[i], states[j])
  {
    forall k | 0 < k < |states|
      ensures Continues(states[k - 1], states[k])
    {
      StepKeepsPrs(states[k - 1], acts[k - 1]);
    }
    ContinuesAll(states, i, j);
  }

  /** At most one PR is ever created for a Ticket: no two steps of one run create one. */
  lemma AtMostOnePr(states: seq<State>, acts: seq<Action>, i: nat, j: nat)
    requires IsRun(states, acts) && i <= j < |acts|
    requires CreatesPr(states[i], acts[i]) && CreatesPr(states[j], acts[j])
    ensures i == j
  {
    if i < j {
      HistoryGrows(states, acts, i + 1, j);
      RunsKeepInv(states, acts, j + 1);
    }
  }

  // ------------------------------------------- rebase only what is unpublished

  /** Does this action move the remote task branch by a Taskflow push? */
  predicate Pushes(s: State, a: Action)
  {
    && a.StepRun? && s.holder.Running? && s.holder.run.pc == Push && s.holder.run.shouldPush
    && match a.outcome
       case Returns(v) => v.PushFailed? ==> v.landed
       case Raises(None) => false
       case Raises(Some(v)) => v.PushFailed? ==> v.landed
  }

  /** Does this action start `git rebase`? */
  predicate StartsRebase(s: State, a: Action)
  {
    a.StepRun? && s.holder.Running? && s.holder.run.pc == Update && s.holder.run.mode.Initial?
  }

  lemma PushIsRemembered(s: State, a: Action)
    requires Enabled(s, a) && Pushes(s, a)
    ensures Apply(s, a).out.pushed
    ensures Apply(s, a).out.remote == Some(s.tree.tip)
  {}

  lemma RebaseUnpublished(s: State, a: Action)
    requires Inv(s) && StartsRebase(s, a)
    ensures !s.out.pushed && s.out.prs == [] && s.db.pr.None?
  {}

  /** `git rebase` never starts on a branch an earlier step of the run pushed. */
  lemma NoRebaseAfterPush(states: seq<State>, acts: seq<Action>, i: nat, j: nat)
    requires IsRun(states, acts) && i < |acts| && j < |acts|
    requires Pushes(states[i], acts[i]) && StartsRebase(states[j], acts[j])
    ensures j < i
  {
    if i <= j {
      PushIsRemembered(states[i], acts[i]);
      assert i != j;
      HistoryGrows(states, acts, i + 1, j);
      RunsKeepInv(states, acts, j);
      RebaseUnpublished(states[j], acts[j]);
    }
  }

  // ------------------------------------------- what a recorded base means

  /** What a run knows about the worktree and the remote branch at each step. */
  predicate Published(s: State, r: Run)
  {
    match r.pc
    case Update => !r.remoteMoved ==> s.tracking == s.out.remote
    case Resolve => !r.remoteMoved ==> s.tracking == s.out.remote
    case CheckBranch =>
      (!r.remoteMoved ==> s.tracking == s.out.remote) && (!r.treeMoved ==> Reaches(s.tree.head, r.target))
    case Validate => Validating(s, r)
    case Recheck => Validating(s, r) && r.passed
    case MarkPublishing => Validating(s, r) && r.passed && (!r.treeMoved ==> s.tree.tip == r.validated)
    case Push =>
      && Validating(s, r) && r.passed
      && (!r.treeMoved ==> s.tree.tip == r.validated)
      && (!r.shouldPush && !r.remoteMoved ==> s.out.remote == Some(r.validated))
    case MarkCreating => AtRemote(s, r)
    case CreatePr => AtRemote(s, r)
    case RecordPr => AtRemote(s, r)
    case UpdatePr => AtRemote(s, r)
    case Complete => AtRemote(s, r)
    case _ => true
  }

  predicate Validating(s: State, r: Run)
  {
    (!r.remoteMoved ==> s.tracking == s.out.remote) && (!r.treeMoved ==> Reaches(r.validated, r.target))
  }

  predicate AtRemote(s: State, r: Run)
  {
    && r.passed
    && (!r.treeMoved ==> Reaches(r.validated, r.target))
    && (!r.treeMoved && !r.remoteMoved ==> s.out.remote == Some(r.validated))
  }

  predicate PublishedInv(s: State)
  {
    s.holder.Running? ==> Published(s, s.holder.run)
  }

  lemma FetchKeepsPublished(s: State, r: Run, v: Reply)
    requires r.pc == Fetch
    ensures PublishedInv(Effect(s, r, v))
  {
    var next := Effect(s, r, v).holder.run.pc;
    assert next.StopStatus? || next == Update;
  }

  lemma UpdateKeepsPublished(s: State, r: Run, v: Reply)
    requires Published(s, r) && ReplyAllowed(s, r, v) && r.pc == Update
    ensures PublishedInv(Effect(s, r, v))
  {
    var next := Effect(s, r, v).holder.run.pc;
    assert next == CheckBranch || next == Resolve || next == Abort;
  }

  lemma ResolveKeepsPublished(s: State, r: Run, v: Reply)
    requires Published(s, r) && r.pc == Resolve
    ensures PublishedInv(Effect(s, r, v))
  {
    var next := Effect(s, r, v).holder.run.pc;
    assert next == CheckBranch || next == Abort;
  }

  lemma CheckKeepsPublished(s: State, r: Run, v: Reply)
    requires Published(s, r) && r.pc == CheckBranch
    ensures PublishedInv(Effect(s, r, v))
  {
    var next := Effect(s, r, v).holder.run.pc;
    assert next == Validate || next.StopStatus?;
  }

  lemma ValidateKeepsPublished(s: State, r: Run, v: Reply)
    requires Published(s, r) && r.pc == Validate
    ensures PublishedInv(Effect(s, r, v))
  {
    var next := Effect(s, r, v).holder.run.pc;
    assert next == Recheck || next.StopStatus?;
  }

  lemma RecheckKeepsPublished(s: State, r: Run, v: Reply)
    requires Published(s, r) && (r.pc == Recheck || r.pc == MarkPublishing)
    ensures PublishedInv(Effect(s, r, v))
  {}

  lemma PushKeepsPublished(s: State, r: Run, v: Reply)
    requires Published(s, r) && r.pc == Push
    ensures PublishedInv(Effect(s, r, v))
  {
    var next := Effect(s, r, v).holder.run.pc;
    assert next == MarkCreating || next == UpdatePr || next.StopStatus?;
  }

  lemma PrKeepsPublished(s: State, r: Run, v: Reply)
    requires Published(s, r) && (r.pc == MarkCreating || r.pc == CreatePr || r.pc == RecordPr || r.pc == UpdatePr)
    ensures PublishedInv(Effect(s, r, v))
  {
    var next := Effect(s, r, v).holder.run.pc;
    assert next == CreatePr || next == RecordPr || next == Complete || next.StopStatus?;
  }

  lemma EntryKeepsPublished(s: State, r: Run, v: Reply)
    requires r.pc == MarkStarted || r.pc == EnterIntegrating || r.pc == RecordStarted || r.pc == CheckPushable
    ensures PublishedInv(Effect(s, r, v))
  {
    var t := Effect(s, r, v);
    assert t.holder.Free? || t.holder.run.pc == EnterIntegrating || t.holder.run.pc == RecordStarted
           || t.holder.run.pc == CheckPushable || t.holder.run.pc == Fetch || t.holder.run.pc.StopStatus?;
  }

  lemma ExitKeepsPublished(s: State, r: Run, v: Reply)
    requires r.pc == Complete || r.pc == EnterReview || r.pc == RecordCompleted
    ensures PublishedInv(Effect(s, r, v))
  {
    var t := Effect(s, r, v);
    assert t.holder.Free? || t.holder.run.pc == EnterReview || t.holder.run.pc == RecordCompleted
           || t.holder.run.pc == Boundary;
  }

  lemma StopKeepsPublished(s: State, r: Run, v: Reply)
    requires r.pc == Abort || r.pc == Boundary || r.pc.StopStatus? || r.pc == StopMarker
    ensures PublishedInv(Effect(s, r, v))
  {
    var t := Effect(s, r, v);
    assert t.holder.Free? || t.holder.run.pc.StopStatus? || t.holder.run.pc == StopMarker;
  }

  lemma EffectKeepsPublished(s: State, r: Run, v: Reply)
    requires Published(s, r) && ReplyAllowed(s, r, v)
    ensures PublishedInv(Effect(s, r, v))
  {
    if r.pc == Fetch {
      FetchKeepsPublished(s, r, v);
    } else if IsSetup(r.pc) {
      EntryKeepsPublished(s, r, v);
    } else if IsGit(r.pc) {
      GitKeepsPublished(s, r, v);
    } else if r.pc == MarkPublishing {
      RecheckKeepsPublished(s, r, v);
    } else if r.pc == Push {
      PushKeepsPublished(s, r, v);
    } else if IsPublishing(r.pc) {
      PrKeepsPublished(s, r, v);
    } else if IsClosing(r.pc) {
      ExitKeepsPublished(s, r, v);
    } else {
      StopKeepsPublished(s, r, v);
    }
  }

  lemma GitKeepsPublished(s: State, r: Run, v: Reply)
    requires Published(s, r) && ReplyAllowed(s, r, v) && IsGit(r.pc)
    ensures PublishedInv(Effect(s, r, v))
  {
    if r.pc == CheckBranch {
      CheckKeepsPublished(s, r, v);
    } else if r.pc == Validate {
      ValidateKeepsPublished(s, r, v);
    } else if r.pc == Recheck {
      RecheckKeepsPublished(s, r, v);
    } else if r.pc == Update {
      UpdateKeepsPublished(s, r, v);
    } else {
      ResolveKeepsPublished(s, r, v);
    }
  }

  lemma StepKeepsPublished(s: State, a: Action)
    requires PublishedInv(s) && Enabled(s, a)
    ensures PublishedInv(Apply(s, a))
  {
    if a.StepRun? {
      var r := s.holder.run;
      match a.outcome
      case Returns(v) => EffectKeepsPublished(s, r, v);
      case Raises(_) =>
    }
  }

  lemma {:induction false} RunsKeepPublished(states: seq<State>, acts: seq<Action>, i: nat)
    requires IsRun(states, acts) && i < |states|
    ensures PublishedInv(states[i])
  {
    if i > 0 {
      RunsKeepPublished(states, acts, i - 1);
      StepKeepsPublished(states[i - 1], acts[i - 1]);
    }
  }

  /** Does this action write `integrated_base_sha`? */
  predicate RecordsBase(s: State, a: Action)
    requires Enabled(s, a)
  {
    Apply(s, a).out.completions > s.out.completions
  }

  /**
   When a run records `integrated_base_sha`, the validators have passed, the
   remote task branch is the commit they passed on and the recorded base is in its history,
   unless somebody else moved the worktree or the remote branch under the run.
   */
  lemma RecordedBaseIsPublished(states: seq<State>, acts: seq<Action>, i: nat)
    requires IsRun(states, acts) && i < |acts| && RecordsBase(states[i], acts[i])
    ensures states[i].holder.Running?
    ensures var r := states[i].holder.run;
            var t := states[i + 1];
            && t.db.base == Some(r.target) && r.passed
            && (!r.treeMoved ==> Reaches(r.validated, r.target))
            && (!r.treeMoved && !r.remoteMoved ==> t.out.remote == Some(r.validated))
  {
    RunsKeepPublished(states, acts, i);
    OnlyCompleteRecords(states[i], acts[i]);
  }

  lemma OnlyCompleteRecords(s: State, a: Action)
    requires Enabled(s, a) && RecordsBase(s, a)
    ensures s.holder.Running? && s.holder.run.pc == Complete
    ensures Apply(s, a).db.base == Some(s.holder.run.target) && Apply(s, a).out.remote == s.out.remote
  {}

  // ----------------------------------------------------- reintegration count

  /** How many of the first `n` actions recorded a completed integration. */
  ghost function Completions(states: seq<State>, acts: seq<Action>, n: nat): nat
    requires IsRun(states, acts) && n <= |acts|
  {
    if n == 0 then 0
    else Completions(states, acts, n - 1) + (if RecordsBase(states[n - 1], acts[n - 1]) then 1 else 0)
  }

  lemma StepCounts(s: State, a: Action)
    requires Enabled(s, a)
    ensures Apply(s, a).out.completions == s.out.completions + if RecordsBase(s, a) then 1 else 0
  {}

  lemma {:induction false} CompletionsAreRecorded(states: seq<State>, acts: seq<Action>, n: nat)
    requires IsRun(states, acts) && n <= |acts|
    ensures states[n].out.completions == Completions(states, acts, n)
  {
    if n > 0 {
      CompletionsAreRecorded(states, acts, n - 1);
      StepCounts(states[n - 1], acts[n - 1]);
    }
  }

  /** `reintegration_count` is one less than the completed integrations, and never negative. */
  lemma ReintegrationCount(states: seq<State>, acts: seq<Action>, n: nat)
    requires IsRun(states, acts) && n <= |acts|
    ensures var done := Completions(states, acts, n);
            states[n].db.count == if done == 0 then 0 else done - 1
  {
    CompletionsAreRecorded(states, acts, n);
    RunsKeepInv(states, acts, n);
  }

  // --------------------------------------------------------- reconciliation

  /** Whatever a dead run or a dead reconciler left, the move made for it is a legal transition. */
  lemma ReconciliationIsLegal(states: seq<State>, acts: seq<Action>, i: nat, v: Reply)
    requires IsRun(states, acts) && i < |states|
    requires states[i].holder.Reconciling? && states[i].holder.rpc.SetStatus?
    ensures states[i].db.status == Integrating
    ensures ValidateTransition(Integrating, CaseAction(states[i].holder.rpc.case_)).Ok?
    ensures ReconStep(states[i], v).db.status == CaseAction(states[i].holder.rpc.case_)
  {
    RunsKeepInv(states, acts, i);
  }

  /** Reconciliation never changes the count, the base, the PR or the queue row. */
  lemma ReconciliationKeepsRecords(s: State, v: Reply)
    requires s.holder.Reconciling?
    ensures var t := ReconStep(s, v);
            t.db == s.db.(status := t.db.status, marker := t.db.marker) && t.out == s.out
  {}
}
