/**
 One Ticket's integration as a step system (integration_controller.py,
 integration_crash_reconciliation.py).

 Every database write, git command and GitHub call of a run is one step. The
 repository's flock has at most one holder; a crash may strike between any two
 steps and frees it. The rest of the world (the watcher, GitHub, people and
 tools writing to the clone or the remote branch) moves between those steps.
 */
module IntegrationProtocol {
  import opened Common
  import opened CommitGraph
  import opened IntegrationSchema

  // ------------------------------------------------------------------ records

  /** `last_integration_status`. */
  datatype Marker =
    | NoMarker
    | RunStarted
    | RunPublishing
    | RunCreatingPr
    | RunIntegrated
    | CrashReconciled
    | DecisionNeeded
    | MergeDetected

  /** The Ticket's rows: task status, PR state, integration state, queue row. */
  datatype Db = Db(
    status: Status,
    marker: Marker,
    pr: Option<nat>,
    prMerged: bool,
    base: Option<Commit>,
    count: nat,
    queued: bool
  )

  datatype Op = NoOp | Rebasing | Merging

  /** The Ticket's worktree. `onBranch` is false for a detached HEAD or another branch. */
  datatype Tree = Tree(op: Op, onBranch: bool, head: Commit, tip: Commit, clean: bool, markers: bool)

  /**
   What the Ticket's database cannot see: the target and task branches on the
   remote and the PRs that exist on GitHub. `pushed` and `completions` are
   history, read by no step: whether Taskflow ever pushed the task branch, and
   how many integrations were recorded as completed.
   */
  datatype Outside = Outside(
    target: Commit,
    remote: Option<Commit>,
    prs: seq<nat>,
    pushed: bool,
    completions: nat
  )

  datatype Mode = Initial | Reintegration

  /** Where a run is: the next step it will take. */
  datatype Pc =
    | MarkStarted
    | EnterIntegrating
    | RecordStarted
    | CheckPushable
    | Fetch
    | Update
    | Resolve
    | CheckBranch
    | Validate
    | Recheck
    | MarkPublishing
    | Push
    | MarkCreating
    | CreatePr
    | RecordPr
    | UpdatePr
    | Complete
    | EnterReview
    | RecordCompleted
    | Abort
    | Boundary
    | StopStatus(guarded: bool)
    | StopMarker

  /**
   A run's local variables. `origin` is the step a stop or an exception came
   from. `passed` records that the validators passed on `validated`;
   `treeMoved` and `remoteMoved` that somebody else moved the worktree, or the
   remote task branch, while the run relied on it.
   */
  datatype Run = Run(
    pc: Pc,
    mode: Mode,
    pushNoOp: bool,
    prevBase: Option<Commit>,
    number: nat,
    target: Commit,
    upToDate: bool,
    validated: Commit,
    passed: bool,
    shouldPush: bool,
    origin: Pc,
    treeMoved: bool,
    remoteMoved: bool
  )

  datatype Case = A | B | C | D | E | F

  datatype ReconPc = Scan | AbortLeftover | SetStatus(case_: Case) | SetMarker(case_: Case)

  /** Who holds the repository's flock, seen from this Ticket. */
  datatype Holder =
    | Free
    | Reconciling(rpc: ReconPc, thenRun: bool, noOp: bool)
    | Running(run: Run)

  /**
   The watcher's polls in flight: those that have read the Ticket, and those
   that have also recorded a merge and have yet to note it. The watcher defers
   a Ticket it reads as `integrating`, so a poll in flight read it before.
   */
  datatype Watch = Watch(polling: nat, noting: nat)

  datatype State = State(
    db: Db,
    tree: Tree,
    tracking: Option<Commit>,
    out: Outside,
    watch: Watch,
    holder: Holder
  )

  // --------------------------------------------------------- reconciliation

  /** `classify_crash`, for a Ticket whose records agree on the repository. */
  function ClassifyCrash(marker: Marker, pr: Option<nat>, base: Option<Commit>, queued: bool): Case
  {
    match marker
    case RunStarted => if queued then A else F
    case RunPublishing => if pr.None? then B else if queued then D else F
    case RunCreatingPr => if pr.None? then C else if queued then D else F
    case RunIntegrated => if !queued && pr.Some? && base.Some? then E else F
    case _ => F
  }

  function CaseOf(db: Db): Case
  {
    ClassifyCrash(db.marker, db.pr, db.base, db.queued)
  }

  /** `CASE_ACTIONS`. */
  function CaseAction(c: Case): Status
  {
    match c
    case A => ReadyForIntegration
    case B => NeedsDecision
    case C => NeedsDecision
    case D => ReadyForIntegration
    case E => NeedsReview
    case F => NeedsDecision
  }

  /** `update_task_status(..., expected_current_status=...)`. */
  function CompareAndSet(db: Db, expected: Status, target: Status): Db
  {
    if db.status == expected then db.(status := target) else db
  }

  // ------------------------------------------------------------ git checks

  /** `verify_conflict_resolution`: the five checks after a claimed resolution. */
  predicate ResolutionVerified(t: Tree, headBefore: Commit, target: Commit)
  {
    t.op == NoOp && t.clean && !t.markers && t.head != headBefore && Reaches(t.head, target)
  }

  /** `assert_head_on_task_branch`. */
  function HeadOnTaskBranch(t: Tree, expected: Option<Commit>): (r: Result<Commit, ()>)
    ensures r.Ok? <==> t.onBranch && t.tip == t.head && (expected.Some? ==> expected.value == t.head)
    ensures r.Ok? ==> r.value == t.head
  {
    if !t.onBranch || t.tip != t.head then Err(())
    else if expected.Some? && t.tip != expected.value then Err(())
    else Ok(t.tip)
  }

  /** A successful rebase or merge moves HEAD, and the branch only if HEAD is on it. */
  function Advanced(t: Tree, c: Commit): Tree
  {
    t.(op := NoOp, head := c, tip := if t.onBranch then c else t.tip)
  }

  // ------------------------------------------------------------- run steps

  /** What the world answers to one step of a run. */
  datatype Reply =
    | Done
    | Failed
    | Updated(head: Commit, noOp: bool)
    | Conflicted(tree: Tree)
    | ResolverDone(claimed: bool, tree: Tree)
    | ValidatorsDone(passed: bool, tree: Tree)
    | PushFailed(landed: bool)
    | Created(number: nat)
    | CreateFailed(created: Option<nat>)
    | Aborted(tree: Tree)

  /** A step answers, or raises before it took effect or after. */
  datatype Outcome = Returns(reply: Reply) | Raises(after: Option<Reply>)

  function Goto(s: State, r: Run, pc: Pc): State
  {
    s.(holder := Running(r.(pc := pc)))
  }

  function StopAt(s: State, r: Run, guarded: bool): State
  {
    s.(holder := Running(r.(pc := StopStatus(guarded), origin := r.pc)))
  }

  function ShouldPush(r: Run, tracking: Option<Commit>): bool
  {
    !(r.mode.Reintegration? && r.upToDate) || r.pushNoOp || tracking != Some(r.validated)
  }

  function Effect(s: State, r: Run, v: Reply): State
  {
    match r.pc
    case MarkStarted => Goto(s.(db := s.db.(marker := RunStarted)), r, EnterIntegrating)
    case EnterIntegrating =>
      if s.db.status != ReadyForIntegration then s.(holder := Free)
      else Goto(s.(db := CompareAndSet(s.db, ReadyForIntegration, Integrating)), r, RecordStarted)
    case RecordStarted => Goto(s, r, CheckPushable)
    case CheckPushable => if v.Failed? then StopAt(s, r, false) else Goto(s, r, Fetch)
    case Fetch =>
      if v.Failed? then StopAt(s, r, true)
      else
        Goto(s.(tracking := s.out.remote),
             r.(target := s.out.target, treeMoved := false, remoteMoved := false), Update)
    case Update => UpdateEffect(s, r, v)
    case Resolve => ResolveEffect(s, r, v)
    case CheckBranch =>
      var tip := HeadOnTaskBranch(s.tree, None);
      if tip.Ok? then Goto(s, r.(validated := tip.value, passed := false), Validate) else StopAt(s, r, true)
    case Validate =>
      if v.ValidatorsDone? && v.passed then Goto(s.(tree := v.tree), r.(passed := true), Recheck)
      else StopAt(if v.ValidatorsDone? then s.(tree := v.tree) else s, r, true)
    case Recheck =>
      if HeadOnTaskBranch(s.tree, Some(r.validated)).Ok? then Goto(s, r, MarkPublishing)
      else StopAt(s, r, true)
    case MarkPublishing =>
      Goto(s.(db := s.db.(marker := RunPublishing)),
           r.(shouldPush := ShouldPush(r, s.tracking)), Push)
    case Push => PushEffect(s, r, v)
    case MarkCreating => Goto(s.(db := s.db.(marker := RunCreatingPr)), r, CreatePr)
    case CreatePr => CreateEffect(s, r, v)
    case RecordPr => Goto(s.(db := s.db.(pr := Some(r.number))), r, Complete)
    case UpdatePr => if v.Failed? then StopAt(s, r, true) else Goto(s, r, Complete)
    case Complete => Goto(s.(db := CompletedDb(s.db, r),
                             out := s.out.(completions := s.out.completions + 1)), r, EnterReview)
    case EnterReview =>
      if s.db.status != Integrating then Goto(s, r, Boundary)
      else Goto(s.(db := CompareAndSet(s.db, Integrating, NeedsReview)), r, RecordCompleted)
    case RecordCompleted => s.(holder := Free)
    case Abort =>
      s.(tree := if v.Aborted? then v.tree else s.tree,
         holder := Running(r.(pc := StopStatus(true))))
    case Boundary =>
      if s.db.status != Integrating then s.(holder := Free)
      else s.(tree := if v.Aborted? then v.tree else s.tree,
              holder := Running(r.(pc := StopStatus(false))))
    case StopStatus(_) =>
      if s.db.status != Integrating then s.(holder := Free)
      else Goto(s.(db := CompareAndSet(s.db, Integrating, NeedsDecision)), r, StopMarker)
    case StopMarker => s.(db := s.db.(marker := DecisionNeeded), holder := Free)
  }

  /** `rebase_onto_target` on a branch without a PR, `merge_target_into_branch` otherwise. */
  function UpdateEffect(s: State, r: Run, v: Reply): State
  {
    if v.Updated? then
      Goto(s.(tree := Advanced(s.tree, v.head)),
           r.(upToDate := r.mode.Reintegration? && v.noOp), CheckBranch)
    else if v.Conflicted? then Goto(s.(tree := v.tree), r, Resolve)
    else s.(holder := Running(r.(pc := Abort, origin := Update)))
  }

  function ResolveEffect(s: State, r: Run, v: Reply): State
  {
    if v.ResolverDone? && v.claimed && ResolutionVerified(v.tree, s.tree.head, r.target) then
      Goto(s.(tree := v.tree), r, CheckBranch)
    else
      s.(tree := if v.ResolverDone? then v.tree else s.tree,
         holder := Running(r.(pc := Abort, origin := Resolve)))
  }

  /** `push_branch`, which publishes the branch by name; a reported failure may still have landed. */
  function PushEffect(s: State, r: Run, v: Reply): State
  {
    var next := if r.mode.Initial? then MarkCreating else UpdatePr;
    if !r.shouldPush then Goto(s, r, next)
    else
      var landed := s.(out := s.out.(remote := Some(s.tree.tip), pushed := true));
      if v.PushFailed? then StopAt(if v.landed then landed else s, r, true)
      else Goto(landed.(tracking := Some(s.tree.tip)), r.(remoteMoved := false), next)
  }

  /** `create_pr`; a reported failure may still have created a PR. */
  function CreateEffect(s: State, r: Run, v: Reply): State
  {
    if v.Created? then
      Goto(s.(out := s.out.(prs := s.out.prs + [v.number])), r.(number := v.number), RecordPr)
    else if v.CreateFailed? && v.created.Some? then
      StopAt(s.(out := s.out.(prs := s.out.prs + [v.created.value])), r, true)
    else StopAt(s, r, true)
  }

  /** `record_integration_completed`: one transaction. */
  function CompletedDb(db: Db, r: Run): Db
  {
    db.(pr := Some(r.number),
        base := Some(r.target),
        count := db.count + (if r.mode.Reintegration? && r.prevBase.Some? then 1 else 0),
        marker := RunIntegrated,
        queued := false)
  }

  // The steps in groups: before git works on the branch, while it does, publishing, and stopping.

  predicate IsSetup(pc: Pc)
  {
    pc == MarkStarted || pc == EnterIntegrating || pc == RecordStarted || pc == CheckPushable || pc == Fetch
  }

  predicate IsGit(pc: Pc)
  {
    pc == Update || pc == Resolve || pc == CheckBranch || pc == Validate || pc == Recheck
  }

  predicate IsPublishing(pc: Pc)
  {
    pc == MarkPublishing || pc == Push || pc == MarkCreating || pc == CreatePr || pc == RecordPr || pc == UpdatePr
  }

  predicate IsClosing(pc: Pc)
  {
    pc == Complete || pc == EnterReview || pc == RecordCompleted
  }

  predicate IsStopping(pc: Pc)
  {
    pc == Abort || pc == Boundary || pc.StopStatus? || pc == StopMarker
  }

  /** Is this step inside the `try` of the integration boundary? */
  predicate Guarded(pc: Pc)
  {
    match pc
    case MarkStarted => false
    case EnterIntegrating => false
    case RecordStarted => false
    case CheckPushable => false
    case Boundary => false
    case StopMarker => false
    case StopStatus(g) => g
    case _ => true
  }

  /** The step a stop is blamed on: a stop or an abort keeps the step it came from. */
  function Blamed(r: Run): Pc
  {
    if r.pc == Abort || r.pc == Boundary || r.pc.StopStatus? then r.origin else r.pc
  }

  function RunStep(s: State, o: Outcome): State
    requires s.holder.Running?
  {
    var r := s.holder.run;
    match o
    case Returns(v) => Effect(s, r, v)
    case Raises(after) =>
      var t := if after.Some? then Effect(s, r, after.value) else s;
      if !Guarded(r.pc) then t.(holder := Free)
      else if t.holder.Running? then
        t.(holder := Running(t.holder.run.(pc := Boundary, origin := Blamed(t.holder.run))))
      else t
  }

  // ------------------------------------------------------ reconciler steps

  function StartRun(s: State, noOp: bool): Run
  {
    Run(MarkStarted, if s.db.pr.None? then Initial else Reintegration, noOp, s.db.base,
        if s.db.pr.Some? then s.db.pr.value else 0,
        s.out.target, false, s.tree.tip, false, false, MarkStarted, false, false)
  }

  /** After the on-acquire pass: `_entry_guard`, then the run or the release. */
  function AfterPass(s: State, thenRun: bool, noOp: bool): State
  {
    if thenRun && s.db.status == ReadyForIntegration && !s.db.prMerged
    then s.(holder := Running(StartRun(s, noOp)))
    else s.(holder := Free)
  }

  /** One step of `_reconcile_one` for this Ticket. */
  function ReconStep(s: State, v: Reply): State
    requires s.holder.Reconciling?
  {
    var h := s.holder;
    match h.rpc
    case Scan =>
      if s.db.status != Integrating then AfterPass(s, h.thenRun, h.noOp)
      else
        var c := CaseOf(s.db);
        s.(holder := h.(rpc := if c == A then AbortLeftover else SetStatus(c)))
    case AbortLeftover =>
      var t := if s.tree.op != NoOp && v.Aborted? then v.tree else s.tree;
      s.(tree := t, holder := h.(rpc := SetStatus(if t.op == NoOp then A else F)))
    case SetStatus(c) =>
      s.(db := CompareAndSet(s.db, Integrating, CaseAction(c)), holder := h.(rpc := SetMarker(c)))
    case SetMarker(c) =>
      var m := match CaseAction(c)
        case NeedsDecision => DecisionNeeded
        case ReadyForIntegration => CrashReconciled
        case _ => s.db.marker;
      AfterPass(s.(db := s.db.(marker := m)), h.thenRun, h.noOp)
  }

  // -------------------------------------------------------------- actions

  datatype Action =
    | Acquire(thenRun: bool, noOp: bool)
    | StepRun(outcome: Outcome)
    | StepRecon(reply: Reply)
    | Crash
    | TargetMoves(commit: Commit)
    | RemoteMoves(to: Option<Commit>)
    | TreeMoves(tree: Tree)
    | Refetch
    | PollReads
    | PollEnds
    | MergeRecorded
    | MergeNoted
    | NoteDropped
    | Requeue
    | StatusMoves(status: Status)

  /** Git's own promise about an update that reports success. */
  predicate ReplyAllowed(s: State, r: Run, v: Reply)
  {
    r.pc == Update && v.Updated? ==> Reaches(v.head, r.target) && (v.noOp ==> v.head == s.tree.head)
  }

  predicate OutcomeAllowed(s: State, r: Run, o: Outcome)
  {
    match o
    case Returns(v) => ReplyAllowed(s, r, v)
    case Raises(after) => after.Some? ==> ReplyAllowed(s, r, after.value)
  }

  predicate Enabled(s: State, a: Action)
  {
    match a
    case Acquire(_, _) => s.holder.Free?
    case StepRun(o) => s.holder.Running? && OutcomeAllowed(s, s.holder.run, o)
    case StepRecon(_) => s.holder.Reconciling?
    case Crash => !s.holder.Free?
    case PollReads => s.db.pr.Some? && s.db.status != Integrating
    case PollEnds => s.watch.polling > 0
    case MergeRecorded => s.watch.polling > 0
    case MergeNoted => s.watch.noting > 0
    case NoteDropped => s.watch.noting > 0
    case Requeue => s.db.status in {NeedsReview, Ready}
    case StatusMoves(to) =>
      CanTransition(s.db.status, to) && s.db.status != Integrating
      && to !in {Integrating, ReadyForIntegration}
    case _ => true
  }

  /** Steps during which a run relies on the worktree nobody else moves. */
  predicate ReliesOnTree(pc: Pc)
  {
    pc in {CheckBranch, MarkPublishing, Push}
  }

  /** Steps after the fetch, during which a run relies on the remote task branch. */
  predicate ReliesOnRemote(pc: Pc)
  {
    pc in {Update, Resolve, CheckBranch, Validate, Recheck, MarkPublishing, Push,
           MarkCreating, CreatePr, RecordPr, UpdatePr, Complete}
  }

  function NoteTreeMove(h: Holder): Holder
  {
    if h.Running? && ReliesOnTree(h.run.pc) then Running(h.run.(treeMoved := true)) else h
  }

  function NoteRemoteMove(h: Holder): Holder
  {
    if h.Running? && ReliesOnRemote(h.run.pc) then Running(h.run.(remoteMoved := true)) else h
  }

  function Apply(s: State, a: Action): State
    requires Enabled(s, a)
  {
    match a
    case Acquire(thenRun, noOp) => s.(holder := Reconciling(Scan, thenRun, noOp))
    case StepRun(o) => RunStep(s, o)
    case StepRecon(v) => ReconStep(s, v)
    case Crash => s.(holder := Free)
    case TargetMoves(c) => s.(out := s.out.(target := c))
    case RemoteMoves(c) => s.(out := s.out.(remote := c), holder := NoteRemoteMove(s.holder))
    case TreeMoves(t) => s.(tree := t, holder := NoteTreeMove(s.holder))
    case Refetch => s.(tracking := s.out.remote)
    case PollReads => s.(watch := s.watch.(polling := s.watch.polling + 1))
    case PollEnds => s.(watch := s.watch.(polling := s.watch.polling - 1))
    case MergeRecorded =>
      s.(db := s.db.(prMerged := true), watch := Watch(s.watch.polling - 1, s.watch.noting + 1))
    case MergeNoted =>
      s.(db := s.db.(marker := MergeDetected), watch := s.watch.(noting := s.watch.noting - 1))
    case NoteDropped => s.(watch := s.watch.(noting := s.watch.noting - 1))
    case Requeue => s.(db := s.db.(status := ReadyForIntegration, queued := true))
    case StatusMoves(to) => s.(db := s.db.(status := to))
  }

  /** A Ticket that has produced work and never been integrated. */
  predicate Init(s: State)
  {
    && s.holder.Free?
    && (s.db.status == Ready || (s.db.status == ReadyForIntegration && s.db.queued))
    && s.db.pr.None? && !s.db.prMerged && s.db.base.None? && s.db.count == 0
    && s.out.prs == [] && !s.out.pushed && s.out.completions == 0 && s.watch == Watch(0, 0)
  }

  /** `states` is a run of the system under the actions `acts`. */
  ghost predicate IsRun(states: seq<State>, acts: seq<Action>)
  {
    && |states| == |acts| + 1
    && Init(states[0])
    && forall i :: 0 <= i < |acts| ==> Enabled(states[i], acts[i]) && states[i + 1] == Apply(states[i], acts[i])
  }
}
