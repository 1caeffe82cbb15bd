/**
 An integration in which everything goes well: nobody else moves anything, git,
 the validators and GitHub succeed. It ends in review, with the work published.
 */
module IntegrationProgress {
  import opened Common
  import opened CommitGraph
  import opened IntegrationSchema
  import opened IntegrationProtocol
  import opened IntegrationRun

  /** A queued Ticket on a tidy worktree. */
  predicate ReadyToRun(s: State)
  {
    && s.holder.Free? && s.db.status == ReadyForIntegration && !s.db.prMerged
    && s.tree.op == NoOp && s.tree.onBranch && s.tree.head == s.tree.tip
  }

  /** The answer of a world in which every step succeeds: the update gives `c`, a new PR is number `n`. */
  function Success(s: State, c: Commit, n: nat): Reply
  {
    if !s.holder.Running? then Done
    else
      match s.holder.run.pc
      case Update => Updated(c, false)
      case Validate => ValidatorsDone(true, s.tree)
      case CreatePr => Created(n)
      case _ => Done
  }

  function Next(s: State, c: Commit, n: nat): Action
  {
    if s.holder.Running? then StepRun(Returns(Success(s, c, n))) else StepRecon(Done)
  }

  function NumberFor(s0: State, n: nat): nat
  {
    if s0.db.pr.Some? then s0.db.pr.value else n
  }

  /** Published, recorded, counted, dequeued and in review. */
  predicate Integrated(s: State, s0: State, c: Commit, n: nat)
  {
    && s.holder.Free? && s.db.status == NeedsReview && s.db.marker == RunIntegrated && !s.db.queued
    && s.db.pr == Some(NumberFor(s0, n)) && s.db.base == Some(s0.out.target)
    && s.out.remote == Some(c) && s.tree.tip == c
    && s.out.prs == s0.out.prs + (if s0.db.pr.None? then [n] else [])
    && s.out.completions == s0.out.completions + 1
    && s.db.count == s0.db.count + (if s0.db.pr.Some? && s0.db.base.Some? then 1 else 0)
  }

  /** The rows at each step. */
  predicate RowsAt(s: State, s0: State, r: Run, n: nat)
  {
    var k := PcRank(r.pc);
    && s.db.status == (if k >= 29 then ReadyForIntegration else if k > 12 then Integrating else NeedsReview)
    && s.db.pr == (if k > 15 || (k > 14 && r.mode.Reintegration?) then s0.db.pr else Some(NumberFor(s0, n)))
    && s.out.prs == s0.out.prs + (if k <= 16 && s0.db.pr.None? then [n] else [])
    && (if k >= 14
        then s.db.base == s0.db.base && s.db.count == s0.db.count && s.out.completions == s0.out.completions
        else Integrated(s.(holder := Free, db := s.db.(status := NeedsReview)), s0, s.tree.tip, n))
  }

  /** The clone and the remote at each step. */
  predicate TreeAt(s: State, s0: State, r: Run, c: Commit)
  {
    var k := PcRank(r.pc);
    && (if k >= 25 then s.tree == s0.tree else s.tree == Advanced(s0.tree, c) && !r.upToDate)
    && (k <= 25 ==> r.target == s0.out.target)
    && (k < 23 ==> r.validated == c)
    && (k == 19 ==> r.shouldPush)
    && (k < 19 ==> s.out.remote == Some(c))
  }

  predicate RunAt(s0: State, r: Run, n: nat)
  {
    && PcRank(r.pc) >= 12 && r.pc != Resolve
    && (r.mode.Initial? <==> s0.db.pr.None?) && (r.prevBase.Some? <==> s0.db.base.Some?)
    && (r.pc == UpdatePr ==> r.mode.Reintegration?)
    && (r.pc == MarkCreating || r.pc == CreatePr || r.pc == RecordPr ==> r.mode.Initial?)
    && (r.mode.Reintegration? || PcRank(r.pc) <= 16 ==> r.number == NumberFor(s0, n))
  }

  predicate Smooth(s: State, s0: State, c: Commit, n: nat)
  {
    && s.out.target == s0.out.target
    && match s.holder
       case Free => Integrated(s, s0, c, n)
       case Reconciling(rpc, thenRun, _) => rpc == Scan && thenRun && s == s0.(holder := s.holder)
       case Running(r) => RunAt(s0, r, n) && RowsAt(s, s0, r, n) && TreeAt(s, s0, r, c)
  }

  lemma SmoothStart(s: State, s0: State, c: Commit, n: nat)
    requires ReadyToRun(s0) && Smooth(s, s0, c, n) && s.holder.Running?
    requires var pc := s.holder.run.pc; pc == MarkStarted || pc == EnterIntegrating
    ensures Smooth(Effect(s, s.holder.run, Success(s, c, n)), s0, c, n)
  {
    var next := Effect(s, s.holder.run, Success(s, c, n)).holder.run.pc;
    assert next == EnterIntegrating || next == RecordStarted;
  }

  lemma SmoothSetup(s: State, s0: State, c: Commit, n: nat)
    requires ReadyToRun(s0) && Smooth(s, s0, c, n) && s.holder.Running?
    requires var pc := s.holder.run.pc; pc == RecordStarted || pc == CheckPushable || pc == Fetch
    ensures Smooth(Effect(s, s.holder.run, Success(s, c, n)), s0, c, n)
  {
    var next := Effect(s, s.holder.run, Success(s, c, n)).holder.run.pc;
    assert next == CheckPushable || next == Fetch || next == Update;
  }

  lemma SmoothUpdate(s: State, s0: State, c: Commit, n: nat)
    requires ReadyToRun(s0) && Smooth(s, s0, c, n) && s.holder.Running?
    requires var pc := s.holder.run.pc; pc == Update
    ensures Smooth(Effect(s, s.holder.run, Success(s, c, n)), s0, c, n)
  {
    var next := Effect(s, s.holder.run, Success(s, c, n)).holder.run.pc;
    assert next == CheckBranch;
  }

  lemma SmoothCheck(s: State, s0: State, c: Commit, n: nat)
    requires ReadyToRun(s0) && Smooth(s, s0, c, n) && s.holder.Running?
    requires var pc := s.holder.run.pc; pc == CheckBranch
    ensures Smooth(Effect(s, s.holder.run, Success(s, c, n)), s0, c, n)
  {
    var next := Effect(s, s.holder.run, Success(s, c, n)).holder.run.pc;
    assert next == Validate;
  }

  lemma SmoothValidate(s: State, s0: State, c: Commit, n: nat)
    requires ReadyToRun(s0) && Smooth(s, s0, c, n) && s.holder.Running?
    requires var pc := s.holder.run.pc; pc == Validate
    ensures Smooth(Effect(s, s.holder.run, Success(s, c, n)), s0, c, n)
  {
    var next := Effect(s, s.holder.run, Success(s, c, n)).holder.run.pc;
    assert next == Recheck;
  }

  lemma SmoothRecheck(s: State, s0: State, c: Commit, n: nat)
    requires ReadyToRun(s0) && Smooth(s, s0, c, n) && s.holder.Running?
    requires var pc := s.holder.run.pc; pc == Recheck || pc == MarkPublishing
    ensures Smooth(Effect(s, s.holder.run, Success(s, c, n)), s0, c, n)
  {
    var next := Effect(s, s.holder.run, Success(s, c, n)).holder.run.pc;
    assert next == MarkPublishing || next == Push;
  }

  lemma SmoothPush(s: State, s0: State, c: Commit, n: nat)
    requires ReadyToRun(s0) && Smooth(s, s0, c, n) && s.holder.Running?
    requires var pc := s.holder.run.pc; pc == Push
    ensures Smooth(Effect(s, s.holder.run, Success(s, c, n)), s0, c, n)
  {
    var next := Effect(s, s.holder.run, Success(s, c, n)).holder.run.pc;
    assert next == MarkCreating || next == UpdatePr;
  }

  lemma SmoothPr(s: State, s0: State, c: Commit, n: nat)
    requires ReadyToRun(s0) && Smooth(s, s0, c, n) && s.holder.Running?
    requires var pc := s.holder.run.pc; pc == MarkCreating || pc == CreatePr
    ensures Smooth(Effect(s, s.holder.run, Success(s, c, n)), s0, c, n)
  {
    var next := Effect(s, s.holder.run, Success(s, c, n)).holder.run.pc;
    assert next == CreatePr || next == RecordPr;
  }

  lemma SmoothRecord(s: State, s0: State, c: Commit, n: nat)
    requires ReadyToRun(s0) && Smooth(s, s0, c, n) && s.holder.Running?
    requires var pc := s.holder.run.pc; pc == RecordPr || pc == UpdatePr
    ensures Smooth(Effect(s, s.holder.run, Success(s, c, n)), s0, c, n)
  {
    var next := Effect(s, s.holder.run, Success(s, c, n)).holder.run.pc;
    assert next == Complete;
  }

  lemma SmoothComplete(s: State, s0: State, c: Commit, n: nat)
    requires ReadyToRun(s0) && Smooth(s, s0, c, n) && s.holder.Running?
    requires var pc := s.holder.run.pc; pc == Complete || pc == EnterReview
    ensures Smooth(Effect(s, s.holder.run, Success(s, c, n)), s0, c, n)
  {
    var next := Effect(s, s.holder.run, Success(s, c, n)).holder.run.pc;
    assert next == EnterReview || next == RecordCompleted;
  }

  lemma SmoothStep(s: State, s0: State, c: Commit, n: nat)
    requires ReadyToRun(s0) && Smooth(s, s0, c, n) && !s.holder.Free? && Reaches(c, s0.out.target)
    ensures Enabled(s, Next(s, c, n))
    ensures Smooth(Apply(s, Next(s, c, n)), s0, c, n)
    ensures Rank(Apply(s, Next(s, c, n)).holder) < Rank(s.holder)
  {
    if s.holder.Running? {
      StepAdvances(s, Returns(Success(s, c, n)));
      var pc := s.holder.run.pc;
      if pc == MarkStarted || pc == EnterIntegrating {
        SmoothStart(s, s0, c, n);
      } else if IsSetup(pc) {
        SmoothSetup(s, s0, c, n);
      } else if pc == Update {
        SmoothUpdate(s, s0, c, n);
      } else if pc == CheckBranch {
        SmoothCheck(s, s0, c, n);
      } else if pc == Validate {
        SmoothValidate(s, s0, c, n);
      } else if pc == Recheck || pc == MarkPublishing {
        SmoothRecheck(s, s0, c, n);
      } else if pc == Push {
        SmoothPush(s, s0, c, n);
      } else if pc == MarkCreating || pc == CreatePr {
        SmoothPr(s, s0, c, n);
      } else if IsPublishing(pc) {
        SmoothRecord(s, s0, c, n);
      } else if pc != RecordCompleted {
        SmoothComplete(s, s0, c, n);
      }
    }
  }

  /**
   A queued Ticket whose every step succeeds is integrated: the updated branch is on the remote, the
   PR and the base are recorded, a first integration is not counted and a later one is.
   */
  method IntegratesWhenAllGoesWell(s0: State, noOp: bool, c: Commit, n: nat) returns (s: State)
    requires ReadyToRun(s0) && Reaches(c, s0.out.target)
    ensures Integrated(s, s0, c, n)
  {
    s := Apply(s0, Acquire(true, noOp));
    while !s.holder.Free?
      invariant Smooth(s, s0, c, n)
      decreases Rank(s.holder)
    {
      SmoothStep(s, s0, c, n);
      s := Apply(s, Next(s, c, n));
    }
  }
}
