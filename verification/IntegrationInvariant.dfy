/** What every step of the integration protocol keeps. */
module IntegrationInvariant {
  import opened Common
  import opened IntegrationSchema
  import opened IntegrationProtocol

  // ------------------------------------------------------------ predicates

  function CountFor(completions: nat): nat
  {
    if completions == 0 then 0 else completions - 1
  }

  /** How many of the watcher's polls have read the Ticket and not finished. */
  function InFlight(s: State): nat
  {
    s.watch.polling + s.watch.noting
  }

  /** Facts that hold in every state. */
  predicate Ledger(s: State)
  {
    && |s.out.prs| <= 1
    && (s.db.pr.Some? ==> s.out.prs == [s.db.pr.value])
    && s.db.count == CountFor(s.out.completions)
    && (s.db.base.Some? <==> s.out.completions > 0)
    && (s.db.base.Some? ==> s.db.pr.Some?)
    && (s.db.prMerged || InFlight(s) > 0 ==> s.db.pr.Some?)
  }

  /** Without a recorded PR, Taskflow has neither pushed nor created one. */
  predicate Unpublished(s: State)
  {
    s.db.pr.None? ==> s.out.prs == [] && !s.out.pushed
  }

  /** What holds of a Ticket that is not `integrating`. */
  predicate AtRest(s: State)
  {
    match s.db.status
    case Integrating => false
    case Ready => Unpublished(s)
    case ReadyForIntegration => Unpublished(s) && s.db.queued
    case NeedsReview => s.db.pr.Some?
    case _ => true
  }

  /** What the checkpoint of a Ticket left `integrating` proves. */
  predicate Recoverable(s: State)
  {
    && s.db.status == Integrating
    && match s.db.marker
       case RunStarted => Unpublished(s) && s.db.queued
       case RunPublishing => s.db.queued && (s.db.pr.None? ==> s.out.prs == [])
       case RunCreatingPr => s.db.queued
       case RunIntegrated => !s.db.queued && s.db.pr.Some? && s.db.base.Some?
       case MergeDetected => s.db.pr.Some?
       case _ => false
  }

  /** The crash case a run at step `pc` leaves behind. */
  function CaseAt(pc: Pc, mode: Mode): Case
  {
    match pc
    case Push => if mode.Initial? then B else D
    case MarkCreating => B
    case CreatePr => C
    case RecordPr => C
    case UpdatePr => D
    case Complete => D
    case EnterReview => E
    case _ => A
  }

  /** The checkpoint is `m`, unless the watcher's merge note has overwritten it. */
  predicate Checkpoint(s: State, m: Marker)
  {
    s.db.marker == m || (s.db.marker == MergeDetected && s.db.pr.Some?)
  }

  /** The run's mode, base and PR number are what the rows said when it started. */
  predicate Bound(s: State, r: Run)
  {
    && (r.mode.Initial? <==> s.db.pr.None?)
    && (r.prevBase.Some? <==> s.db.base.Some?)
    && (r.mode.Reintegration? ==> s.db.pr == Some(r.number))
  }

  predicate Stopping(pc: Pc)
  {
    pc == Abort || pc.StopStatus?
  }

  /** A stop still shows the crash case of the step it came from. */
  predicate StopInv(s: State, r: Run)
  {
    Recoverable(s) && (s.db.marker != MergeDetected ==> CaseOf(s.db) == CaseAt(r.origin, r.mode))
  }

  predicate RunInv(s: State, r: Run)
  {
    match r.pc
    case MarkStarted => AtRest(s) && Bound(s, r)
    case EnterIntegrating => AtRest(s) && Bound(s, r) && Checkpoint(s, RunStarted)
    case Push =>
      s.db.status == Integrating && s.db.queued && Unpublished(s) && Bound(s, r) && Checkpoint(s, RunPublishing)
    case MarkCreating => Creating(s, r) && s.db.marker == RunPublishing
    case CreatePr => Creating(s, r) && s.db.marker == RunCreatingPr
    case RecordPr =>
      s.db.status == Integrating && s.db.queued && r.mode.Initial? && s.db.pr.None? && r.prevBase.None?
      && s.out.prs == [r.number] && s.db.marker == RunCreatingPr
    case UpdatePr =>
      s.db.status == Integrating && s.db.queued && r.mode.Reintegration? && Bound(s, r) && Checkpoint(s, RunPublishing)
    case Complete =>
      s.db.status == Integrating && s.db.queued && s.db.pr == Some(r.number)
      && (r.mode.Initial? ==> r.prevBase.None?) && (r.prevBase.Some? <==> s.db.base.Some?)
      && Checkpoint(s, if r.mode.Initial? then RunCreatingPr else RunPublishing)
    case EnterReview =>
      s.db.status == Integrating && !s.db.queued && s.db.pr.Some? && s.db.base.Some? && Checkpoint(s, RunIntegrated)
    case RecordCompleted => AtRest(s)
    case Abort => StopInv(s, r)
    case Boundary => if s.db.status == Integrating then StopInv(s, r) else AtRest(s)
    case StopStatus(_) => StopInv(s, r)
    case StopMarker => AtRest(s)
    case _ =>
      s.db.status == Integrating && s.db.queued && Unpublished(s) && Bound(s, r) && Checkpoint(s, RunStarted)
  }

  predicate Creating(s: State, r: Run)
  {
    && s.db.status == Integrating && s.db.queued && r.mode.Initial?
    && s.db.pr.None? && s.out.prs == [] && r.prevBase.None?
  }

  predicate ReconInv(s: State, rpc: ReconPc)
  {
    match rpc
    case Scan => if s.db.status == Integrating then Recoverable(s) else AtRest(s)
    case AbortLeftover => Recoverable(s) && Unpublished(s) && s.db.queued
    case SetStatus(c) =>
      Recoverable(s)
      && (c in {A, D} ==> Unpublished(s) && s.db.queued)
      && (c == E ==> s.db.pr.Some?)
    case SetMarker(_) => AtRest(s)
  }

  predicate Inv(s: State)
  {
    && Ledger(s)
    && match s.holder
       case Free => if s.db.status == Integrating then Recoverable(s) else AtRest(s)
       case Reconciling(rpc, _, _) => ReconInv(s, rpc)
       case Running(r) => RunInv(s, r)
  }

  // ----------------------------------------------------------- preservation

  lemma InitInv(s: State)
    requires Init(s)
    ensures Inv(s)
  {}

  /** Whatever step a run is at, a crash leaves a state the reconciler understands. */
  lemma RunIsRecoverable(s: State, r: Run)
    requires Ledger(s) && RunInv(s, r)
    ensures if s.db.status == Integrating then Recoverable(s) else AtRest(s)
  {}

  /** A run at an `integrating` step shows exactly that step's crash case. */
  lemma RunCase(s: State, r: Run)
    requires Ledger(s) && RunInv(s, r) && s.db.status == Integrating && s.db.marker != MergeDetected
    ensures CaseOf(s.db) == CaseAt(Blamed(r), r.mode)
  {}

  /** The invariant reads the rows and the PRs, never the clone. */
  lemma InvReadsRows(s: State, s': State, r: Run, r': Run)
    requires s'.db == s.db && s'.watch == s.watch && s'.out == s.out.(target := s'.out.target, remote := s'.out.remote)
    requires (r'.pc, r'.mode, r'.prevBase, r'.number, r'.origin) == (r.pc, r.mode, r.prevBase, r.number, r.origin)
    ensures Ledger(s') == Ledger(s) && RunInv(s', r') == RunInv(s, r)
  {}

  /** Stopping at any `integrating` step blames that step. */
  lemma StopAtInv(s: State, r: Run, guarded: bool)
    requires Ledger(s) && RunInv(s, r) && s.db.status == Integrating && !Stopping(r.pc) && r.pc != Boundary
    ensures Inv(StopAt(s, r, guarded))
  {
    RunIsRecoverable(s, r);
    if s.db.marker != MergeDetected {
      RunCase(s, r);
    }
  }

  lemma EffectMarkStarted(s: State, r: Run, v: Reply)
    requires Ledger(s) && RunInv(s, r)
    requires r.pc == MarkStarted
    ensures Inv(Effect(s, r, v))
  {}

  lemma EffectEnter(s: State, r: Run, v: Reply)
    requires Ledger(s) && RunInv(s, r)
    requires r.pc == EnterIntegrating
    ensures Inv(Effect(s, r, v))
  {
    var t := Effect(s, r, v);
    assert s.db.status == ReadyForIntegration ==> t.holder.run.pc == RecordStarted;
  }

  lemma EffectFetch(s: State, r: Run, v: Reply)
    requires Ledger(s) && RunInv(s, r)
    requires r.pc == RecordStarted || r.pc == CheckPushable || r.pc == Fetch
    ensures Inv(Effect(s, r, v))
  {
    if r.pc != RecordStarted {
      StopAtInv(s, r, r.pc == Fetch);
    }
  }

  lemma EffectUpdate(s: State, r: Run, v: Reply)
    requires Ledger(s) && RunInv(s, r)
    requires r.pc == Update
    ensures Inv(Effect(s, r, v))
  {}

  lemma ResolvedInv(s: State, r: Run)
    requires Ledger(s) && RunInv(s, r) && r.pc == Resolve
    ensures Inv(Goto(s, r, CheckBranch))
    ensures Inv(s.(holder := Running(r.(pc := Abort, origin := Resolve))))
  {}

  lemma EffectResolve(s: State, r: Run, v: Reply)
    requires Ledger(s) && RunInv(s, r)
    requires r.pc == Resolve
    ensures Inv(Effect(s, r, v))
  {
    var tree := if v.ResolverDone? then v.tree else s.tree;
    InvReadsRows(s, s.(tree := tree), r, r);
    ResolvedInv(s.(tree := tree), r);
  }

  lemma EffectCheck(s: State, r: Run, v: Reply)
    requires Ledger(s) && RunInv(s, r)
    requires r.pc == CheckBranch || r.pc == Recheck
    ensures Inv(Effect(s, r, v))
  {
    StopAtInv(s, r, true);
  }

  lemma EffectValidate(s: State, r: Run, v: Reply)
    requires Ledger(s) && RunInv(s, r)
    requires r.pc == Validate
    ensures Inv(Effect(s, r, v))
  {
    var t := if v.ValidatorsDone? then s.(tree := v.tree) else s;
    InvReadsRows(s, t, r, r);
    StopAtInv(t, r, true);
    ValidatedInv(t, r);
  }

  lemma ValidatedInv(s: State, r: Run)
    requires Ledger(s) && RunInv(s, r) && r.pc == Validate
    ensures Inv(Goto(s, r.(passed := true), Recheck))
  {}

  lemma EffectMarkPublishing(s: State, r: Run, v: Reply)
    requires Ledger(s) && RunInv(s, r)
    requires r.pc == MarkPublishing
    ensures Inv(Effect(s, r, v))
  {}

  lemma EffectPush(s: State, r: Run, v: Reply)
    requires Ledger(s) && RunInv(s, r)
    requires r.pc == Push
    ensures Inv(Effect(s, r, v))
  {
    StopAtInv(s, r, true);
  }

  lemma EffectPr(s: State, r: Run, v: Reply)
    requires Ledger(s) && RunInv(s, r)
    requires r.pc == MarkCreating || r.pc == CreatePr || r.pc == RecordPr || r.pc == UpdatePr
    ensures Inv(Effect(s, r, v))
  {
    StopAtInv(s, r, true);
  }

  lemma EffectComplete(s: State, r: Run, v: Reply)
    requires Ledger(s) && RunInv(s, r)
    requires r.pc == Complete
    ensures Inv(Effect(s, r, v))
  {}

  lemma EffectReview(s: State, r: Run, v: Reply)
    requires Ledger(s) && RunInv(s, r)
    requires r.pc == EnterReview || r.pc == RecordCompleted
    ensures Inv(Effect(s, r, v))
  {}

  lemma EffectAbort(s: State, r: Run, v: Reply)
    requires Ledger(s) && RunInv(s, r)
    requires r.pc == Abort
    ensures Inv(Effect(s, r, v))
  {}

  lemma EffectBoundary(s: State, r: Run, v: Reply)
    requires Ledger(s) && RunInv(s, r)
    requires r.pc == Boundary
    ensures Inv(Effect(s, r, v))
  {}

  lemma EffectStopStatus(s: State, r: Run, v: Reply)
    requires Ledger(s) && RunInv(s, r)
    requires r.pc.StopStatus?
    ensures Inv(Effect(s, r, v))
  {}

  lemma EffectStopMarker(s: State, r: Run, v: Reply)
    requires Ledger(s) && RunInv(s, r)
    requires r.pc == StopMarker
    ensures Inv(Effect(s, r, v))
  {}

  lemma SetupKeepsInv(s: State, r: Run, v: Reply)
    requires Ledger(s) && RunInv(s, r)
    requires IsSetup(r.pc)
    ensures Inv(Effect(s, r, v))
  {
    if r.pc == MarkStarted {
      EffectMarkStarted(s, r, v);
    } else if r.pc == EnterIntegrating {
      EffectEnter(s, r, v);
    } else {
      EffectFetch(s, r, v);
    }
  }

  lemma GitKeepsInv(s: State, r: Run, v: Reply)
    requires Ledger(s) && RunInv(s, r)
    requires IsGit(r.pc)
    ensures Inv(Effect(s, r, v))
  {
    if r.pc == Update {
      EffectUpdate(s, r, v);
    } else if r.pc == Resolve {
      EffectResolve(s, r, v);
    } else if r.pc == Validate {
      EffectValidate(s, r, v);
    } else {
      EffectCheck(s, r, v);
    }
  }

  lemma PublishKeepsInv(s: State, r: Run, v: Reply)
    requires Ledger(s) && RunInv(s, r)
    requires IsPublishing(r.pc)
    ensures Inv(Effect(s, r, v))
  {
    if r.pc == MarkPublishing {
      EffectMarkPublishing(s, r, v);
    } else if r.pc == Push {
      EffectPush(s, r, v);
    } else {
      EffectPr(s, r, v);
    }
  }

  lemma StopKeepsInv(s: State, r: Run, v: Reply)
    requires Ledger(s) && RunInv(s, r)
    requires IsStopping(r.pc)
    ensures Inv(Effect(s, r, v))
  {
    if r.pc == Abort {
      EffectAbort(s, r, v);
    } else if r.pc == Boundary {
      EffectBoundary(s, r, v);
    } else if r.pc.StopStatus? {
      EffectStopStatus(s, r, v);
    } else {
      EffectStopMarker(s, r, v);
    }
  }

  lemma EffectKeepsInv(s: State, r: Run, v: Reply)
    requires Ledger(s) && RunInv(s, r)
    ensures Inv(Effect(s, r, v))
  {
    if IsSetup(r.pc) {
      SetupKeepsInv(s, r, v);
    } else if IsGit(r.pc) {
      GitKeepsInv(s, r, v);
    } else if IsPublishing(r.pc) {
      PublishKeepsInv(s, r, v);
    } else if r.pc == Complete {
      EffectComplete(s, r, v);
    } else if IsClosing(r.pc) {
      EffectReview(s, r, v);
    } else {
      StopKeepsInv(s, r, v);
    }
  }

  lemma RaiseKeepsInv(t: State)
    requires Inv(t) && t.holder.Running?
    ensures Inv(t.(holder := Free))
    ensures Inv(t.(holder := Running(t.holder.run.(pc := Boundary, origin := Blamed(t.holder.run)))))
  {
    var r := t.holder.run;
    RunIsRecoverable(t, r);
    if t.db.status == Integrating && t.db.marker != MergeDetected {
      RunCase(t, r);
    }
  }

  lemma RunStepKeepsInv(s: State, o: Outcome)
    requires Inv(s) && s.holder.Running?
    ensures Inv(RunStep(s, o))
  {
    var r := s.holder.run;
    match o
    case Returns(v) => EffectKeepsInv(s, r, v);
    case Raises(after) =>
      var t := if after.Some? then Effect(s, r, after.value) else s;
      if after.Some? {
        EffectKeepsInv(s, r, after.value);
      }
      if t.holder.Running? {
        RaiseKeepsInv(t);
      }
  }

  lemma ScanKeepsInv(s: State, v: Reply)
    requires Inv(s) && s.holder.Reconciling? && s.holder.rpc == Scan
    ensures Inv(ReconStep(s, v))
  {}

  lemma AbortKeepsInv(s: State, v: Reply)
    requires Inv(s) && s.holder.Reconciling? && s.holder.rpc == AbortLeftover
    ensures Inv(ReconStep(s, v))
  {}

  lemma MoveKeepsInv(s: State, v: Reply)
    requires Inv(s) && s.holder.Reconciling? && s.holder.rpc.SetStatus?
    ensures Inv(ReconStep(s, v))
  {}

  lemma MarkKeepsInv(s: State, v: Reply)
    requires Inv(s) && s.holder.Reconciling? && s.holder.rpc.SetMarker?
    ensures Inv(ReconStep(s, v))
  {}

  lemma ReconStepKeepsInv(s: State, v: Reply)
    requires Inv(s) && s.holder.Reconciling?
    ensures Inv(ReconStep(s, v))
  {
    if s.holder.rpc == Scan {
      ScanKeepsInv(s, v);
    } else if s.holder.rpc == AbortLeftover {
      AbortKeepsInv(s, v);
    } else if s.holder.rpc.SetStatus? {
      MoveKeepsInv(s, v);
    } else {
      MarkKeepsInv(s, v);
    }
  }

  lemma StatusMoveKeepsInv(s: State, to: Status)
    requires Inv(s) && Enabled(s, StatusMoves(to))
    ensures Inv(Apply(s, StatusMoves(to)))
  {}

  lemma HolderMoveKeepsInv(s: State, a: Action)
    requires Inv(s) && Enabled(s, a) && (a.Acquire? || a.Crash? || a.Requeue?)
    ensures Inv(Apply(s, a))
  {
    if s.holder.Running? {
      RunIsRecoverable(s, s.holder.run);
    }
  }

  lemma PollKeepsInv(s: State, a: Action)
    requires Inv(s) && Enabled(s, a) && (a.PollReads? || a.PollEnds? || a.NoteDropped?)
    ensures Inv(Apply(s, a))
  {}

  lemma MergeKeepsInv(s: State, a: Action)
    requires Inv(s) && Enabled(s, a) && (a.MergeRecorded? || a.MergeNoted?)
    ensures Inv(Apply(s, a))
  {}

  lemma GitMoveKeepsInv(s: State, a: Action)
    requires Inv(s) && Enabled(s, a)
    requires a.TargetMoves? || a.RemoteMoves? || a.TreeMoves? || a.Refetch?
    ensures Inv(Apply(s, a))
  {
    var t := Apply(s, a);
    if s.holder.Running? {
      InvReadsRows(s, t, s.holder.run, t.holder.run);
    }
  }

  lemma WorldKeepsInv(s: State, a: Action)
    requires Inv(s) && Enabled(s, a) && !a.StepRun? && !a.StepRecon?
    ensures Inv(Apply(s, a))
  {
    if a.StatusMoves? {
      StatusMoveKeepsInv(s, a.status);
    } else if a.Acquire? || a.Crash? || a.Requeue? {
      HolderMoveKeepsInv(s, a);
    } else if a.PollReads? || a.PollEnds? || a.NoteDropped? {
      PollKeepsInv(s, a);
    } else if a.MergeRecorded? || a.MergeNoted? {
      MergeKeepsInv(s, a);
    } else {
      GitMoveKeepsInv(s, a);
    }
  }

  lemma StepKeepsInv(s: State, a: Action)
    requires Inv(s) && Enabled(s, a)
    ensures Inv(Apply(s, a))
  {
    if a.StepRun? {
      RunStepKeepsInv(s, a.outcome);
    } else if a.StepRecon? {
      ReconStepKeepsInv(s, a.reply);
    } else {
      WorldKeepsInv(s, a);
    }
  }
}
