/**
 What single steps of an integration require and do, written out: who may enter,
 what lets a run go on, when a push is skipped, what an exception leads to, and
 where each dead step recovers to.
 */
module IntegrationSteps {
  import opened Common
  import opened CommitGraph
  import opened IntegrationSchema
  import opened IntegrationProtocol
  import opened IntegrationInvariant
  import opened IntegrationSafety

  // ------------------------------------------------------------ entering

  /** A run begins only on a Ticket ready for integration whose PR is not recorded merged, and then it does. */
  lemma RunsBeginReady(s: State, a: Action)
    requires Enabled(s, a)
    ensures Apply(s, a).holder.Running? && !s.holder.Running? ==>
              && Apply(s, a).db.status == ReadyForIntegration && !Apply(s, a).db.prMerged
              && Apply(s, a).holder.run.mode == if Apply(s, a).db.pr.None? then Initial else Reintegration
    ensures s.holder.Reconciling? && s.holder.thenRun && s.holder.rpc == Scan && a.StepRecon? ==>
              (Apply(s, a).holder.Running? <==> s.db.status == ReadyForIntegration && !s.db.prMerged)
  {}

  /** Every change of status by a run or the reconciler is one of these. */
  lemma HolderMoves(s: State, a: Action)
    requires Inv(s) && Enabled(s, a) && (a.StepRun? || a.StepRecon?) && Apply(s, a).db.status != s.db.status
    ensures (s.db.status, Apply(s, a).db.status) in {
              (ReadyForIntegration, Integrating), (Integrating, NeedsReview), (Integrating, NeedsDecision),
              (Integrating, ReadyForIntegration)}
    ensures a.StepRun? ==> Apply(s, a).db.status != ReadyForIntegration
  {
    if a.StepRun? {
      RunMoves(s, a.outcome);
    }
  }

  lemma EffectMoves(s: State, r: Run, v: Reply)
    requires s.holder == Running(r)
    ensures var t := Effect(s, r, v).db.status;
            t != s.db.status ==>
              (s.db.status, t) in {(ReadyForIntegration, Integrating), (Integrating, NeedsReview), (Integrating, NeedsDecision)}
  {
    if r.pc == EnterIntegrating || r.pc == EnterReview || r.pc.StopStatus? {
      WriteMoves(s, r, v);
    } else if IsSetup(r.pc) || IsGit(r.pc) {
      EarlyStays(s, r, v);
    } else {
      LateStays(s, r, v);
    }
  }

  lemma WriteMoves(s: State, r: Run, v: Reply)
    requires r.pc == EnterIntegrating || r.pc == EnterReview || r.pc.StopStatus?
    ensures var t := Effect(s, r, v).db.status;
            t != s.db.status ==>
              (s.db.status, t) in {(ReadyForIntegration, Integrating), (Integrating, NeedsReview), (Integrating, NeedsDecision)}
  {}

  lemma EarlyStays(s: State, r: Run, v: Reply)
    requires r.pc == MarkStarted || r.pc == RecordStarted || r.pc == CheckPushable || r.pc == Fetch || r.pc == Update
             || r.pc == Resolve || r.pc == CheckBranch || r.pc == Validate || r.pc == Recheck
    ensures Effect(s, r, v).db.status == s.db.status
  {}

  lemma LateStays(s: State, r: Run, v: Reply)
    requires r.pc == MarkPublishing || r.pc == Push || r.pc == MarkCreating || r.pc == CreatePr || r.pc == RecordPr
             || r.pc == UpdatePr || r.pc == Complete || r.pc == RecordCompleted || r.pc == Abort || r.pc == Boundary
             || r.pc == StopMarker
    ensures Effect(s, r, v).db.status == s.db.status
  {}

  lemma RunMoves(s: State, o: Outcome)
    requires s.holder.Running? && RunStep(s, o).db.status != s.db.status
    ensures (s.db.status, RunStep(s, o).db.status)
            in {(ReadyForIntegration, Integrating), (Integrating, NeedsReview), (Integrating, NeedsDecision)}
  {
    match o
    case Returns(v) => EffectMoves(s, s.holder.run, v);
    case Raises(after) =>
      if after.Some? {
        EffectMoves(s, s.holder.run, after.value);
      }
  }

  // ------------------------------------------------------------ going on

  /** The next step of an answered run, if it goes on. */
  function NextPc(s: State, r: Run, v: Reply): Option<Pc>
  {
    var h := Effect(s, r, v).holder;
    if h.Running? then Some(h.run.pc) else None
  }

  /** A resolution goes on exactly when it is claimed and all five checks of the tree hold. */
  lemma ResolutionIsChecked(s: State, r: Run, v: Reply)
    requires r.pc == Resolve
    ensures NextPc(s, r, v) == Some(CheckBranch)
            <==> && v.ResolverDone? && v.claimed
                 && v.tree.op == NoOp && v.tree.clean && !v.tree.markers && v.tree.head != s.tree.head
                 && Reaches(v.tree.head, r.target)
    ensures NextPc(s, r, v) == Some(CheckBranch) ==> Effect(s, r, v).tree == v.tree
    ensures NextPc(s, r, v) != Some(CheckBranch) ==> NextPc(s, r, v) == Some(Abort)
  {}

  // The checks around the validators: on the branch before them, unmoved after them, and green.

  lemma BranchIsChecked(s: State, r: Run, v: Reply)
    requires r.pc == CheckBranch
    ensures NextPc(s, r, v) == Some(if s.tree.onBranch && s.tree.tip == s.tree.head then Validate else StopStatus(true))
    ensures NextPc(s, r, v) == Some(Validate) ==> Effect(s, r, v).holder.run.validated == s.tree.head
  {}

  lemma ValidatorsAreHeeded(s: State, r: Run, v: Reply)
    requires r.pc == Validate
    ensures NextPc(s, r, v) == Some(if v.ValidatorsDone? && v.passed then Recheck else StopStatus(true))
  {}

  lemma BranchIsRechecked(s: State, r: Run, v: Reply)
    requires r.pc == Recheck
    ensures NextPc(s, r, v)
            == Some(if s.tree.onBranch && s.tree.tip == s.tree.head == r.validated then MarkPublishing else StopStatus(true))
  {}

  /** A failure that git or GitHub reports stops the run; success goes on to the step named. */
  lemma FailuresStop(s: State, r: Run, v: Reply)
    requires r.pc == CheckPushable || r.pc == Fetch || r.pc == UpdatePr
    ensures v.Failed? ==> NextPc(s, r, v) == Some(StopStatus(r.pc != CheckPushable))
    ensures !v.Failed? ==>
              NextPc(s, r, v) == Some(if r.pc == CheckPushable then Fetch else if r.pc == Fetch then Update else Complete)
    ensures r.pc == Fetch && !v.Failed? ==>
              Effect(s, r, v).holder.run.target == s.out.target && Effect(s, r, v).tracking == s.out.remote
  {}

  lemma UpdateOutcomes(s: State, r: Run, v: Reply)
    requires r.pc == Update
    ensures NextPc(s, r, v) == Some(if v.Updated? then CheckBranch else if v.Conflicted? then Resolve else Abort)
    ensures v.Updated? ==> Effect(s, r, v).tree.head == v.head && (s.tree.onBranch ==> Effect(s, r, v).tree.tip == v.head)
  {}

  /** A push is skipped exactly for an up-to-date re-integration, not asked to push anyway, already on the remote ref. */
  lemma PushIsSkippedOnlyUpToDate(s: State, r: Run, v: Reply)
    requires r.pc == MarkPublishing
    ensures NextPc(s, r, v) == Some(Push)
    ensures !Effect(s, r, v).holder.run.shouldPush
            <==> r.mode.Reintegration? && r.upToDate && !r.pushNoOp && s.tracking == Some(r.validated)
  {}

  lemma PushOutcomes(s: State, r: Run, v: Reply)
    requires r.pc == Push
    ensures r.shouldPush && v.PushFailed? ==> NextPc(s, r, v) == Some(StopStatus(true))
    ensures !(r.shouldPush && v.PushFailed?) ==>
              NextPc(s, r, v) == Some(if r.mode.Initial? then MarkCreating else UpdatePr)
    ensures r.shouldPush && !v.PushFailed? ==> Effect(s, r, v).out.remote == Some(s.tree.tip)
    ensures !r.shouldPush ==> Effect(s, r, v).out == s.out
  {}

  /** A PR is created once, under its checkpoint, and recorded before anything else. */
  lemma PrOutcomes(s: State, r: Run, v: Reply)
    requires r.pc == CreatePr || r.pc == RecordPr
    ensures r.pc == CreatePr ==> NextPc(s, r, v) == Some(if v.Created? then RecordPr else StopStatus(true))
    ensures r.pc == CreatePr && v.Created? ==>
              Effect(s, r, v).out.prs == s.out.prs + [v.number] && Effect(s, r, v).holder.run.number == v.number
    ensures r.pc == RecordPr ==> Effect(s, r, v).db.pr == Some(r.number) && NextPc(s, r, v) == Some(Complete)
  {}

  /** A completed integration is recorded in one write, enters review, and ends. */
  lemma CompletionOutcomes(s: State, r: Run, v: Reply)
    requires r.pc == Complete || r.pc == EnterReview || r.pc == RecordCompleted
    ensures r.pc == Complete ==>
              var t := Effect(s, r, v).db;
              && t.pr == Some(r.number) && t.base == Some(r.target) && t.marker == RunIntegrated && !t.queued
              && t.count == s.db.count + (if r.mode.Reintegration? && r.prevBase.Some? then 1 else 0)
              && t.status == s.db.status && NextPc(s, r, v) == Some(EnterReview)
    ensures r.pc == EnterReview && s.db.status == Integrating ==>
              Effect(s, r, v).db == s.db.(status := NeedsReview) && NextPc(s, r, v) == Some(RecordCompleted)
    ensures r.pc == RecordCompleted ==> Effect(s, r, v) == s.(holder := Free)
  {}

  /** A stop aborts what is in progress, asks for a decision, says so in the checkpoint, and ends. */
  lemma StopOutcomes(s: State, r: Run, v: Reply)
    requires r.pc == Abort || r.pc.StopStatus? || r.pc == StopMarker
    ensures r.pc == Abort ==>
              NextPc(s, r, v) == Some(StopStatus(true)) && (v.Aborted? ==> Effect(s, r, v).tree == v.tree)
    ensures r.pc.StopStatus? && s.db.status == Integrating ==>
              Effect(s, r, v).db == s.db.(status := NeedsDecision) && NextPc(s, r, v) == Some(StopMarker)
    ensures r.pc == StopMarker ==> Effect(s, r, v) == s.(db := s.db.(marker := DecisionNeeded), holder := Free)
  {}

  /** The checkpoints, each before what it announces. */
  lemma CheckpointOutcomes(s: State, r: Run, v: Reply)
    requires r.pc == MarkStarted || r.pc == MarkPublishing || r.pc == MarkCreating
    ensures Effect(s, r, v).db
            == s.db.(marker := if r.pc == MarkStarted then RunStarted
                               else if r.pc == MarkPublishing then RunPublishing else RunCreatingPr)
    ensures NextPc(s, r, v)
            == Some(if r.pc == MarkStarted then EnterIntegrating else if r.pc == MarkPublishing then Push else CreatePr)
  {}

  // ------------------------------------------------------------ exceptions

  /** The steps of the git phase. */
  predicate InGitPhase(pc: Pc)
  {
    || pc == Fetch || pc == Update || pc == Resolve || pc == CheckBranch || pc == Validate || pc == Recheck
    || pc == MarkPublishing || pc == Push || pc == MarkCreating || pc == CreatePr || pc == RecordPr || pc == UpdatePr
    || pc == Complete || pc == EnterReview || pc == Abort
  }

  /** The exception boundary takes an `integrating` Ticket to `needs_decision`, whatever the two steps answer. */
  lemma BoundaryDecides(s: State, v: Reply, w: Reply)
    requires s.holder.Running? && s.holder.run.pc == Boundary && s.db.status == Integrating
    ensures var caught := Effect(s, s.holder.run, v);
            caught.holder.Running? && caught.holder.run.pc == StopStatus(false)
            && Effect(caught, caught.holder.run, w).db.status == NeedsDecision
  {}

  lemma GitPhaseIntegrates(s: State)
    requires Inv(s) && s.holder.Running? && InGitPhase(s.holder.run.pc)
    ensures s.db.status == Integrating
  {}

  lemma RaisesAreCaught(s: State)
    requires s.holder.Running? && InGitPhase(s.holder.run.pc)
    ensures var raised := RunStep(s, Raises(None));
            raised.holder.Running? && raised.holder.run.pc == Boundary && raised.db == s.db
  {}

  /**
   Whatever a step of the git phase raises before its effect, the Ticket is in `needs_decision` two steps
   later: the boundary, then the stop, whatever they answer.
   */
  lemma RaisesEndInDecision(s: State, v: Reply, w: Reply)
    requires Inv(s) && s.holder.Running? && InGitPhase(s.holder.run.pc)
    ensures var raised := RunStep(s, Raises(None));
            raised.holder.Running? &&
            var caught := Effect(raised, raised.holder.run, v);
            caught.holder.Running? && Effect(caught, caught.holder.run, w).db.status == NeedsDecision
  {
    GitPhaseIntegrates(s);
    RaisesAreCaught(s);
    BoundaryDecides(RunStep(s, Raises(None)), v, w);
  }

  /** An answered step of the git phase keeps the run going, `integrating` until it enters review. */
  predicate GoesOn(t: State, pc: Pc)
  {
    t.holder.Running? && t.db.status == if pc == EnterReview then NeedsReview else Integrating
  }

  lemma GitGoesOn(s: State, r: Run, v: Reply)
    requires s.db.status == Integrating
    requires r.pc == Fetch || r.pc == Update || r.pc == Resolve || r.pc == CheckBranch || r.pc == Validate || r.pc == Recheck
    ensures GoesOn(Effect(s, r, v), r.pc)
  {}

  lemma PublishingGoesOn(s: State, r: Run, v: Reply)
    requires s.db.status == Integrating
    requires r.pc == MarkPublishing || r.pc == Push || r.pc == MarkCreating || r.pc == CreatePr || r.pc == RecordPr
             || r.pc == UpdatePr
    ensures GoesOn(Effect(s, r, v), r.pc)
  {}

  lemma ClosingGoesOn(s: State, r: Run, v: Reply)
    requires s.db.status == Integrating && (r.pc == Complete || r.pc == EnterReview || r.pc == Abort)
    ensures GoesOn(Effect(s, r, v), r.pc)
  {}

  lemma EffectGoesOn(s: State, r: Run, v: Reply)
    requires s.db.status == Integrating && InGitPhase(r.pc)
    ensures GoesOn(Effect(s, r, v), r.pc)
  {
    if r.pc == Fetch || IsGit(r.pc) {
      GitGoesOn(s, r, v);
    } else if IsPublishing(r.pc) {
      PublishingGoesOn(s, r, v);
    } else {
      ClosingGoesOn(s, r, v);
    }
  }

  /** After its effect too, unless the effect took the Ticket to review. */
  lemma LateRaisesEndInDecision(s: State, u: Reply, v: Reply, w: Reply)
    requires Inv(s) && s.holder.Running? && InGitPhase(s.holder.run.pc)
    ensures var raised := RunStep(s, Raises(Some(u)));
            raised.holder.Running? && raised.holder.run.pc == Boundary &&
            if s.holder.run.pc == EnterReview then raised.db.status == NeedsReview
            else
              var caught := Effect(raised, raised.holder.run, v);
              caught.holder.Running? && Effect(caught, caught.holder.run, w).db.status == NeedsDecision
  {
    GitPhaseIntegrates(s);
    EffectGoesOn(s, s.holder.run, u);
    var raised := RunStep(s, Raises(Some(u)));
    if s.holder.run.pc != EnterReview {
      BoundaryDecides(raised, v, w);
    }
  }

  // ------------------------------------------------------------ recovery

  /** The reconciler's steps for a Ticket it finds `integrating`, its abort answered with `v`. */
  function Moved(s: State, v: Reply): State
    requires s.holder.Reconciling?
  {
    var scanned := ReconStep(s, v);
    var aborted := if scanned.holder == s.holder.(rpc := AbortLeftover) then ReconStep(scanned, v) else scanned;
    if aborted.holder.Reconciling? then ReconStep(aborted, v) else aborted
  }

  function Marked(s: State, v: Reply): State
    requires s.holder.Reconciling?
  {
    var moved := Moved(s, v);
    if moved.holder.Reconciling? then ReconStep(moved, v) else moved
  }

  /** The step a run stands at, or stopped from. */
  function Reached(r: Run): Pc
  {
    if r.pc == Abort || r.pc == Boundary || r.pc.StopStatus? then r.origin else r.pc
  }

  /** The pass over a run that died, checkpoint not overwritten: case, status and checkpoint by the step it reached. */
  lemma DeadRunRecovers(s: State, noOp: bool, v: Reply)
    requires Inv(s) && s.holder.Running? && s.db.status == Integrating && s.db.marker != MergeDetected
    ensures var r := s.holder.run;
            var pc := Reached(r);
            var held := Apply(Apply(s, Crash), Acquire(false, noOp));
            var cleared := s.tree.op == NoOp || (v.Aborted? && v.tree.op == NoOp);
            var moved, marked := Moved(held, v).db, Marked(held, v).db;
            if pc == EnterReview then
              moved.status == NeedsReview && marked.marker == RunIntegrated
            else if pc == CreatePr || pc == RecordPr || pc == MarkCreating || (pc == Push && r.mode.Initial?) then
              moved.status == NeedsDecision && marked.marker == DecisionNeeded
            else if pc == Push || pc == UpdatePr || pc == Complete then
              moved.status == ReadyForIntegration && marked.marker == CrashReconciled
            else if cleared then
              moved.status == ReadyForIntegration && marked.marker == CrashReconciled
            else
              moved.status == NeedsDecision && marked.marker == DecisionNeeded
  {
    var held := Apply(Apply(s, Crash), Acquire(false, noOp));
    CaseLetters(s);
    CaseDecides(held, v);
    RunIsRecoverable(s, s.holder.run);
  }

  /** Where each case letter leads. */
  lemma CaseDecides(s: State, v: Reply)
    requires s.holder.Reconciling? && s.holder.rpc == Scan && !s.holder.thenRun && s.db.status == Integrating
    ensures var cleared := s.tree.op == NoOp || (v.Aborted? && v.tree.op == NoOp);
            var c := CaseOf(s.db);
            var moved, marked := Moved(s, v).db, Marked(s, v).db;
            if c == D || (c == A && cleared) then
              moved.status == ReadyForIntegration && marked.marker == CrashReconciled
            else if c == E then moved.status == NeedsReview && marked.marker == s.db.marker
            else moved.status == NeedsDecision && marked.marker == DecisionNeeded
  {
    if CaseOf(s.db) == A {
      UnpublishedDecides(s, v);
    } else {
      PublishedDecides(s, v);
    }
  }

  lemma UnpublishedDecides(s: State, v: Reply)
    requires s.holder.Reconciling? && s.holder.rpc == Scan && !s.holder.thenRun && s.db.status == Integrating
    requires CaseOf(s.db) == A
    ensures var cleared := s.tree.op == NoOp || (v.Aborted? && v.tree.op == NoOp);
            && Moved(s, v).db.status == (if cleared then ReadyForIntegration else NeedsDecision)
            && Marked(s, v).db.marker == (if cleared then CrashReconciled else DecisionNeeded)
  {
    var scanned := ReconStep(s, v);
    assert scanned == s.(holder := s.holder.(rpc := AbortLeftover));
  }

  lemma PublishedDecides(s: State, v: Reply)
    requires s.holder.Reconciling? && s.holder.rpc == Scan && !s.holder.thenRun && s.db.status == Integrating
    requires CaseOf(s.db) != A
    ensures var c := CaseOf(s.db);
            && Moved(s, v).db.status == (if c == D then ReadyForIntegration else if c == E then NeedsReview else NeedsDecision)
            && Marked(s, v).db.marker == (if c == D then CrashReconciled else if c == E then s.db.marker else DecisionNeeded)
  {
    var scanned := ReconStep(s, v);
    assert scanned == s.(holder := s.holder.(rpc := SetStatus(CaseOf(s.db))));
  }

  /** With its checkpoint overwritten by a merge note, it goes to a human. */
  lemma HiddenRunRecovers(s: State, noOp: bool, v: Reply)
    requires Inv(s) && s.holder.Running? && s.db.status == Integrating && s.db.marker == MergeDetected
    ensures var held := Apply(Apply(s, Crash), Acquire(false, noOp));
            Moved(held, v).db.status == NeedsDecision && Marked(held, v).db.marker == DecisionNeeded
  {}

  /** The letters: A before publishing, B publishing, C creating the PR, D with the PR recorded, E integrated. */
  lemma CaseLetters(s: State)
    requires Inv(s) && s.holder.Running? && s.db.status == Integrating
    ensures var pc := Reached(s.holder.run);
            CaseOf(s.db) ==
              if s.db.marker == MergeDetected then F
              else if pc == EnterReview then E
              else if pc == UpdatePr || pc == Complete || (pc == Push && s.holder.run.mode.Reintegration?) then D
              else if pc == CreatePr || pc == RecordPr then C
              else if pc == Push || pc == MarkCreating then B
              else A
  {
    if s.db.marker != MergeDetected {
      RunCase(s, s.holder.run);
    }
  }

  /** Over every run of the system: where a crashed integration recovers to. */
  lemma CrashesRecover(states: seq<State>, acts: seq<Action>, i: nat, noOp: bool, v: Reply)
    requires IsRun(states, acts) && i < |acts| && acts[i] == Crash
    requires states[i].holder.Running? && states[i].db.status == Integrating
    ensures var r := states[i].holder.run;
            var pc := Reached(r);
            var status := Moved(Apply(states[i + 1], Acquire(false, noOp)), v).db.status;
            status ==
              if states[i].db.marker == MergeDetected then NeedsDecision
              else if pc == EnterReview then NeedsReview
              else if pc == CreatePr || pc == RecordPr || pc == MarkCreating || (pc == Push && r.mode.Initial?) then NeedsDecision
              else if pc == Push || pc == UpdatePr || pc == Complete then ReadyForIntegration
              else if states[i].tree.op == NoOp || (v.Aborted? && v.tree.op == NoOp) then ReadyForIntegration
              else NeedsDecision
  {
    RunsKeepInv(states, acts, i);
    if states[i].db.marker == MergeDetected {
      HiddenRunRecovers(states[i], noOp, v);
    } else {
      DeadRunRecovers(states[i], noOp, v);
    }
  }
}
