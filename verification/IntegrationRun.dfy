/**
 One confirmed `integrate_task` call, from taking the flock to releasing it,
 while the rest of the world keeps moving.
 */
module IntegrationRun {
  import opened IntegrationSchema
  import opened IntegrationProtocol
  import opened IntegrationInvariant

  /** Moves of the rest of the world that leave the Ticket's status to the lock holder. */
  predicate Quiet(a: Action)
  {
    || a.TargetMoves? || a.RemoteMoves? || a.TreeMoves? || a.Refetch?
    || a.PollReads? || a.PollEnds? || a.MergeRecorded? || a.MergeNoted? || a.NoteDropped?
  }

  /** `states` follows the protocol from `states[0]` under `acts`, and nobody crashes. */
  ghost predicate IsPath(states: seq<State>, acts: seq<Action>)
  {
    && |states| == |acts| + 1
    && forall i :: 0 <= i < |acts| ==>
         Enabled(states[i], acts[i]) && states[i + 1] == Apply(states[i], acts[i]) && acts[i] != Crash
  }

  /** Where a Ticket may be when an integration call has returned. */
  predicate Settled(db: Db)
  {
    || db.status == NeedsReview
    || db.status == NeedsDecision
    || (db.status == ReadyForIntegration && db.prMerged)
  }

  /** Does this outcome leave `integrate_task` as an exception? */
  predicate Escapes(s: State, r: Run, o: Outcome)
  {
    || (o.Raises? && !Guarded(r.pc))
    || (r.pc == Boundary && s.db.status != Integrating)
    || (r.pc == EnterIntegrating && s.db.status != ReadyForIntegration)
  }

  predicate OnCourse(s: State)
  {
    match s.holder
    case Free => Settled(s.db)
    case Reconciling(rpc, thenRun, _) =>
      thenRun && (match rpc
        case Scan => s.db.status == Integrating || s.db.status == ReadyForIntegration
        case SetMarker(c) => s.db.status == CaseAction(c)
        case _ => s.db.status == Integrating)
    case Running(r) =>
      match r.pc
      case MarkStarted => s.db.status == ReadyForIntegration
      case EnterIntegrating => s.db.status == ReadyForIntegration
      case RecordCompleted => s.db.status == NeedsReview
      case StopMarker => s.db.status == NeedsDecision
      case Boundary => s.db.status == Integrating || s.db.status == NeedsReview || s.db.status == NeedsDecision
      case _ => s.db.status == Integrating
  }

  /** Steps left at most before the flock is released. */
  function Rank(h: Holder): nat
  {
    match h
    case Free => 0
    case Reconciling(Scan, _, _) => 40
    case Reconciling(AbortLeftover, _, _) => 39
    case Reconciling(SetStatus(_), _, _) => 38
    case Reconciling(SetMarker(_), _, _) => 37
    case Running(r) => PcRank(r.pc)
  }

  function PcRank(pc: Pc): nat
  {
    match pc
    case MarkStarted => 30
    case EnterIntegrating => 29
    case RecordStarted => 28
    case CheckPushable => 27
    case Fetch => 26
    case Update => 25
    case Resolve => 24
    case CheckBranch => 23
    case Validate => 22
    case Recheck => 21
    case MarkPublishing => 20
    case Push => 19
    case MarkCreating => 18
    case CreatePr => 17
    case RecordPr => 16
    case UpdatePr => 15
    case Complete => 14
    case EnterReview => 13
    case RecordCompleted => 12
    case Abort => 11
    case StopStatus(guarded) => if guarded then 10 else 8
    case Boundary => 9
    case StopMarker => 7
  }

  /** The steps an answer can lead to. */
  predicate Leads(pc: Pc, next: Pc)
  {
    match pc
    case MarkStarted => next == EnterIntegrating
    case EnterIntegrating => next == RecordStarted
    case RecordStarted => next == CheckPushable
    case CheckPushable => next == Fetch || next.StopStatus?
    case Fetch => next == Update || next.StopStatus?
    case Update => next == CheckBranch || next == Resolve || next == Abort
    case Resolve => next == CheckBranch || next == Abort
    case CheckBranch => next == Validate || next.StopStatus?
    case Validate => next == Recheck || next.StopStatus?
    case Recheck => next == MarkPublishing || next.StopStatus?
    case MarkPublishing => next == Push
    case Push => next == MarkCreating || next == UpdatePr || next.StopStatus?
    case MarkCreating => next == CreatePr
    case CreatePr => next == RecordPr || next.StopStatus?
    case RecordPr => next == Complete
    case UpdatePr => next == Complete || next.StopStatus?
    case Complete => next == EnterReview
    case EnterReview => next == RecordCompleted || next == Boundary
    case RecordCompleted => false
    case Abort => next == StopStatus(true)
    case Boundary => next == StopStatus(false)
    case StopStatus(_) => next == StopMarker
    case StopMarker => false
  }

  lemma SetupLeads(s: State, r: Run, v: Reply)
    requires IsSetup(r.pc)
    ensures var h := Effect(s, r, v).holder;
            h.Free? || (h.Running? && Leads(r.pc, h.run.pc))
  {}

  lemma UpdateLeads(s: State, r: Run, v: Reply)
    requires r.pc == Update || r.pc == Resolve
    ensures var h := Effect(s, r, v).holder;
            h.Free? || (h.Running? && Leads(r.pc, h.run.pc))
  {}

  lemma ValidateLeads(s: State, r: Run, v: Reply)
    requires r.pc == Validate
    ensures var h := Effect(s, r, v).holder;
            h.Free? || (h.Running? && Leads(r.pc, h.run.pc))
  {}

  lemma CheckLeads(s: State, r: Run, v: Reply)
    requires r.pc == CheckBranch || r.pc == Recheck
    ensures var h := Effect(s, r, v).holder;
            h.Free? || (h.Running? && Leads(r.pc, h.run.pc))
  {}

  lemma PushLeads(s: State, r: Run, v: Reply)
    requires r.pc == MarkPublishing || r.pc == Push
    ensures var h := Effect(s, r, v).holder;
            h.Free? || (h.Running? && Leads(r.pc, h.run.pc))
  {}

  lemma PrLeads(s: State, r: Run, v: Reply)
    requires r.pc == MarkCreating || r.pc == CreatePr || r.pc == RecordPr || r.pc == UpdatePr
    ensures var h := Effect(s, r, v).holder;
            h.Free? || (h.Running? && Leads(r.pc, h.run.pc))
  {}

  lemma CloseLeads(s: State, r: Run, v: Reply)
    requires r.pc == Complete || r.pc == EnterReview || r.pc == RecordCompleted
    ensures var h := Effect(s, r, v).holder;
            h.Free? || (h.Running? && Leads(r.pc, h.run.pc))
  {}

  lemma StopLeads(s: State, r: Run, v: Reply)
    requires r.pc == Abort || r.pc == Boundary || r.pc.StopStatus? || r.pc == StopMarker
    ensures var h := Effect(s, r, v).holder;
            h.Free? || (h.Running? && Leads(r.pc, h.run.pc))
  {}

  lemma EffectLeads(s: State, r: Run, v: Reply)
    ensures var h := Effect(s, r, v).holder;
            h.Free? || (h.Running? && Leads(r.pc, h.run.pc))
  {
    if IsSetup(r.pc) {
      SetupLeads(s, r, v);
    } else if r.pc == Update || r.pc == Resolve {
      UpdateLeads(s, r, v);
    } else if r.pc == Validate {
      ValidateLeads(s, r, v);
    } else if IsGit(r.pc) {
      CheckLeads(s, r, v);
    } else if r.pc == MarkPublishing || r.pc == Push {
      PushLeads(s, r, v);
    } else if IsPublishing(r.pc) {
      PrLeads(s, r, v);
    } else if IsClosing(r.pc) {
      CloseLeads(s, r, v);
    } else {
      StopLeads(s, r, v);
    }
  }

  lemma LeadsDown(pc: Pc, next: Pc)
    requires Leads(pc, next)
    ensures PcRank(next) < PcRank(pc)
  {}

  lemma EffectAdvances(s: State, r: Run, v: Reply)
    ensures Rank(Effect(s, r, v).holder) < PcRank(r.pc)
  {
    var h := Effect(s, r, v).holder;
    EffectLeads(s, r, v);
    if h.Running? {
      LeadsDown(r.pc, h.run.pc);
    }
  }

  lemma StepAdvances(s: State, o: Outcome)
    requires s.holder.Running?
    ensures Rank(RunStep(s, o).holder) < Rank(s.holder)
  {
    var r := s.holder.run;
    match o
    case Returns(v) => EffectAdvances(s, r, v);
    case Raises(after) =>
      if after.Some? {
        EffectAdvances(s, r, after.value);
      }
      assert Guarded(r.pc) ==> PcRank(r.pc) > PcRank(Boundary);
  }

  lemma EffectStaysOnCourse(s: State, r: Run, v: Reply)
    requires OnCourse(s) && s.holder == Running(r) && !(r.pc == Boundary && s.db.status != Integrating)
    ensures OnCourse(Effect(s, r, v))
  {
    EffectLeads(s, r, v);
    EffectStatus(s, r, v);
    StatusFits(Effect(s, r, v), r.pc);
  }

  /** A status that fits the step taken fits the step it leads to. */
  lemma StatusFits(t: State, pc: Pc)
    requires t.holder.Free? || (t.holder.Running? && Leads(pc, t.holder.run.pc))
    requires t.holder.Running? ==> t.db.status == StatusAfter(pc)
    requires t.holder.Free? ==> Settled(t.db)
    ensures OnCourse(t)
  {}

  function StatusAfter(pc: Pc): Status
  {
    match pc
    case MarkStarted => ReadyForIntegration
    case EnterReview => NeedsReview
    case RecordCompleted => NeedsReview
    case StopStatus(_) => NeedsDecision
    case StopMarker => NeedsDecision
    case _ => Integrating
  }

  /** The status at each step is the step's own. */
  lemma EffectStatus(s: State, r: Run, v: Reply)
    requires OnCourse(s) && s.holder == Running(r) && !(r.pc == Boundary && s.db.status != Integrating)
    ensures Effect(s, r, v).db.status == StatusAfter(r.pc)
    ensures Effect(s, r, v).holder.Free? ==> Settled(Effect(s, r, v).db)
  {}

  lemma EscapeReleases(s: State, o: Outcome)
    requires s.holder.Running? && Escapes(s, s.holder.run, o)
    ensures RunStep(s, o).holder.Free?
  {}

  lemma StepStaysOnCourse(s: State, o: Outcome)
    requires OnCourse(s) && s.holder.Running? && !Escapes(s, s.holder.run, o)
    ensures OnCourse(RunStep(s, o))
  {
    var r := s.holder.run;
    match o
    case Returns(v) => EffectStaysOnCourse(s, r, v);
    case Raises(after) =>
      var t := if after.Some? then Effect(s, r, after.value) else s;
      if after.Some? {
        EffectStaysOnCourse(s, r, after.value);
      }
      assert Guarded(r.pc);
      assert t.holder.Running? ==> t.db.status in {Integrating, NeedsReview, NeedsDecision};
  }

  lemma ReconStaysOnCourse(s: State, v: Reply)
    requires OnCourse(s) && s.holder.Reconciling? && Inv(s)
    ensures OnCourse(ReconStep(s, v))
    ensures Rank(ReconStep(s, v).holder) < Rank(s.holder)
  {}

  lemma QuietStaysOnCourse(s: State, a: Action)
    requires OnCourse(s) && Quiet(a) && Enabled(s, a)
    ensures OnCourse(Apply(s, a)) && Rank(Apply(s, a).holder) == Rank(s.holder)
  {}

  lemma PathGrows(states: seq<State>, acts: seq<Action>, a: Action)
    requires IsPath(states, acts) && a != Crash
    requires Enabled(states[|states| - 1], a)
    ensures IsPath(states + [Apply(states[|states| - 1], a)], acts + [a])
  {}

  /** Moves of anybody but the lock holder. */
  predicate ByWorld(a: Action)
  {
    Quiet(a) || a.StatusMoves? || a.Requeue?
  }

  lemma WorldKeepsRank(s: State, a: Action)
    requires ByWorld(a) && Enabled(s, a)
    ensures Rank(Apply(s, a).holder) == Rank(s.holder)
  {}

  /** Anything the rest of the world may do next; `quietly`, without touching the Ticket's status. */
  method WorldMoves(s: State, quietly: bool) returns (a: Action)
    requires quietly ==> OnCourse(s)
    ensures Enabled(s, a) && a != Crash
    ensures quietly ==> OnCourse(Apply(s, a))
    ensures Rank(Apply(s, a).holder) == Rank(s.holder)
  {
    a := *;
    if !ByWorld(a) || (quietly && !Quiet(a)) || !Enabled(s, a) {
      a := Refetch;
    }
    WorldKeepsRank(s, a);
    if quietly {
      QuietStaysOnCourse(s, a);
    }
  }

  /** A call that gives up the lock without an exception has taken the Ticket out of `integrating`. */
  lemma EffectLeavesIntegrating(s: State, r: Run, v: Reply)
    requires Inv(s) && s.holder == Running(r) && !Escapes(s, r, Returns(v)) && Effect(s, r, v).holder.Free?
    ensures Effect(s, r, v).db.status != Integrating
  {
    assert r.pc == RecordCompleted || r.pc == StopMarker;
  }

  lemma StepLeavesIntegrating(s: State, o: Outcome)
    requires Inv(s) && s.holder.Running? && !Escapes(s, s.holder.run, o) && RunStep(s, o).holder.Free?
    ensures RunStep(s, o).db.status != Integrating
  {
    var v := if o.Returns? then o.reply else if o.after.Some? then o.after.value else Failed;
    EffectLeavesIntegrating(s, s.holder.run, v);
  }

  lemma ReconLeavesIntegrating(s: State, v: Reply)
    requires Inv(s) && s.holder.Reconciling?
    ensures ReconStep(s, v).holder.Free? ==> ReconStep(s, v).db.status != Integrating
    ensures Rank(ReconStep(s, v).holder) < Rank(s.holder)
  {}

  /**
   The steps outside the exception boundary, at which an exception leaves the call: before the git
   phase, in the boundary's own stop, and a boundary that finds the Ticket gone from `integrating`.
   */
  predicate RaisesOut(s: State, a: Action)
  {
    && a.StepRun? && s.holder.Running?
    && var pc := s.holder.run.pc;
       || (a.outcome.Raises?
           && pc in {MarkStarted, EnterIntegrating, RecordStarted, CheckPushable, Boundary, StopStatus(false), StopMarker})
       || (pc == EnterIntegrating && s.db.status != ReadyForIntegration)
       || (pc == Boundary && s.db.status != Integrating)
  }

  ghost predicate RaisedOutside(states: seq<State>, acts: seq<Action>)
  {
    |states| == |acts| + 1 && |acts| > 0 && RaisesOut(states[|acts| - 1], acts[|acts| - 1])
  }

  /** The lock holder's next step, whatever the world answers. */
  method NextStep(s: State, quietly: bool) returns (a: Action, escaped: bool)
    requires Inv(s) && !s.holder.Free? && (quietly ==> OnCourse(s))
    ensures Enabled(s, a) && a != Crash
    ensures Rank(Apply(s, a).holder) < Rank(s.holder)
    ensures escaped ==> Apply(s, a).holder.Free? && RaisesOut(s, a)
    ensures !escaped && quietly ==> OnCourse(Apply(s, a))
    ensures !escaped && Apply(s, a).holder.Free? ==> Apply(s, a).db.status != Integrating
  {
    escaped := false;
    if s.holder.Reconciling? {
      var v: Reply := *;
      ReconLeavesIntegrating(s, v);
      if quietly {
        ReconStaysOnCourse(s, v);
      }
      return StepRecon(v), false;
    }
    var o: Outcome := *;
    if !OutcomeAllowed(s, s.holder.run, o) {
      o := Returns(Failed);
    }
    StepAdvances(s, o);
    a, escaped := StepRun(o), Escapes(s, s.holder.run, o);
    if escaped {
      EscapeReleases(s, o);
    } else {
      if quietly {
        StepStaysOnCourse(s, o);
      }
      if RunStep(s, o).holder.Free? {
        StepLeavesIntegrating(s, o);
      }
    }
  }

  /** The world's next move while it has `moves` left, then the lock holder's. */
  method Advance(s: State, quietly: bool, moves: nat) returns (a: Action, escaped: bool, left: nat)
    requires Inv(s) && !s.holder.Free? && (quietly ==> OnCourse(s))
    ensures Enabled(s, a) && a != Crash && Inv(Apply(s, a))
    ensures var t := Apply(s, a);
            && (Rank(t.holder) < Rank(s.holder) || (Rank(t.holder) == Rank(s.holder) && left < moves))
            && (escaped ==> t.holder.Free? && RaisesOut(s, a))
            && (!escaped && quietly ==> OnCourse(t))
            && (!escaped && t.holder.Free? ==> t.db.status != Integrating)
  {
    if moves > 0 {
      a := WorldMoves(s, quietly);
      escaped, left := false, moves - 1;
    } else {
      a, escaped := NextStep(s, quietly);
      left := *;
    }
    StepKeepsInv(s, a);
  }

  /**
   From every state a dead holder can leave a Ticket in, one call that returns normally leaves it
   outside `integrating`, whatever git, GitHub, the validators and the resolver answer, whatever the
   git phase raises and whatever anybody else does meanwhile. If nobody else moves its status
   (`quietly`), a Ticket found `integrating` or queued ends in `needs_review` or `needs_decision`, or
   still queued with its PR merged, and a Ticket in any other status keeps it.
   */
  method IntegrateTask(s0: State, noOp: bool, quietly: bool)
    returns (s: State, returned: bool, ghost states: seq<State>, ghost acts: seq<Action>)
    requires Inv(s0) && s0.holder.Free?
    ensures IsPath(states, acts) && states[0] == s0 && states[|states| - 1] == s
    ensures Inv(s) && s.holder.Free?
    ensures returned ==> s.db.status != Integrating
    ensures quietly ==>
              if s0.db.status == Integrating || s0.db.status == ReadyForIntegration
              then returned ==> s.db.status == NeedsReview || s.db.status == NeedsDecision
                                || (s.db.status == ReadyForIntegration && s.db.prMerged)
              else returned && s == s0
    ensures !returned ==> RaisedOutside(states, acts)
  {
    var a := Acquire(true, noOp);
    var escaped := false;
    StepKeepsInv(s0, a);
    s := Apply(s0, a);
    states, acts := [s0, s], [a];
    if quietly && s0.db.status != Integrating && s0.db.status != ReadyForIntegration {
      PathGrows(states, acts, StepRecon(Done));
      s := Apply(s, StepRecon(Done));
      return s, true, states + [s], acts + [StepRecon(Done)];
    }
    var moves: nat := *;
    while !s.holder.Free?
      invariant IsPath(states, acts) && states[0] == s0 && states[|states| - 1] == s
      invariant Inv(s)
      invariant escaped ==> s.holder.Free? && RaisedOutside(states, acts)
      invariant !escaped && quietly ==> OnCourse(s)
      invariant !escaped && s.holder.Free? ==> s.db.status != Integrating
      decreases Rank(s.holder), moves
    {
      a, escaped, moves := Advance(s, quietly, moves);
      PathGrows(states, acts, a);
      s := Apply(s, a);
      states, acts := states + [s], acts + [a];
    }
    returned := !escaped;
  }
}
