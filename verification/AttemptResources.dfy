/**
 An Attempt's lock, PID file and resource row (attempt_resources.py): allocators,
 heartbeats, releases and reapers, one system call or one transaction at a time.
 A process may die between any two steps, which frees its flock.
 */
module AttemptResources {
  import opened Common

  type Id = string
  type Pid = nat

  datatype RowStatus = Allocated | Active | Released | ReapBlocked | Reaped

  datatype Row = Row(status: RowStatus, runtimePid: Pid)

  /** Who holds the flock on the Attempt's lock file. */
  datatype Holder = Nobody | TheOwner | TheReaper(r: nat)

  /** Where the allocating process is. */
  datatype OwnerPc = MadeDirectory | Locked | PidWritten | InsertFailed | Holding | PidRemoved | Unlocked | Finished

  datatype Owner = Owner(pid: Pid, pc: OwnerPc)

  /** Where one reaper is with this Attempt; `known` is the runtime PID of the row it selected. */
  datatype ReaperPc =
    | Selected(known: Pid)
    | HasPid(pid: Pid)
    | ToLock
    | HoldsLock
    | RemovedPid
    | ToMarkReaped
    | ToMarkBlocked

  datatype Reaper = Reaper(pid: Pid, pc: ReaperPc)

  /** `owner` is the process whose `mkdir(exist_ok=False)` made the Attempt's directory. */
  datatype Site = Site(
    owner: Option<Owner>,
    lock: Holder,
    pidFile: Option<Pid>,
    row: Option<Row>,
    reapers: map<nat, Reaper>
  )

  datatype System = System(alive: set<Pid>, sites: map<Id, Site>)

  datatype Action =
    | MakeDirectory(id: Id, pid: Pid)
    | Acquire(id: Id)
    | WritePid(id: Id)
    | Insert(id: Id)
    | FailInsert(id: Id)
    | Activate(id: Id)
    | Heartbeat(id: Id, pid: Pid)
    | RemoveOwnPid(id: Id)
    | Unlock(id: Id)
    | MarkReleased(id: Id)
    | Select(id: Id, r: nat, pid: Pid)
    | ReadPid(id: Id, r: nat)
    | CheckPid(id: Id, r: nat)
    | TryLock(id: Id, r: nat)
    | RemovePid(id: Id, r: nat)
    | ReaperUnlock(id: Id, r: nat)
    | MarkReaped(id: Id, r: nat)
    | MarkBlocked(id: Id, r: nat)
    | Die(pid: Pid)

  // ---------------------------------------------------------------- one Attempt's step

  predicate OwnerAction(a: Action)
  {
    a.Acquire? || a.WritePid? || a.Insert? || a.FailInsert? || a.Activate? || a.RemoveOwnPid? || a.Unlock? || a.MarkReleased?
  }

  predicate ReaperAction(a: Action)
  {
    a.ReadPid? || a.CheckPid? || a.TryLock? || a.RemovePid? || a.ReaperUnlock? || a.MarkReaped? || a.MarkBlocked?
  }

  predicate OwnerReady(pc: OwnerPc, a: Action)
    requires OwnerAction(a)
  {
    match a
    case Acquire(_) => pc.MadeDirectory?
    case WritePid(_) => pc.Locked?
    case Insert(_) => pc.PidWritten?
    case FailInsert(_) => pc.PidWritten?
    case Activate(_) => pc.Holding?
    case RemoveOwnPid(_) => pc.Holding? || pc.InsertFailed?
    case Unlock(_) => pc.PidRemoved?
    case MarkReleased(_) => pc.Unlocked?
  }

  predicate ReaperReady(pc: ReaperPc, a: Action)
    requires ReaperAction(a)
  {
    match a
    case ReadPid(_, _) => pc.Selected?
    case CheckPid(_, _) => pc.HasPid?
    case TryLock(_, _) => pc.ToLock?
    case RemovePid(_, _) => pc.HoldsLock?
    case ReaperUnlock(_, _) => pc.RemovedPid?
    case MarkReaped(_, _) => pc.ToMarkReaped?
    case MarkBlocked(_, _) => pc.ToMarkBlocked?
  }

  predicate SiteEnabled(s: Site, alive: set<Pid>, a: Action)
    requires !a.Die?
  {
    if OwnerAction(a) then s.owner.Some? && s.owner.value.pid in alive && OwnerReady(s.owner.value.pc, a)
    else if ReaperAction(a) then a.r in s.reapers && s.reapers[a.r].pid in alive && ReaperReady(s.reapers[a.r].pc, a)
    else match a
      case MakeDirectory(_, pid) => pid in alive && s.owner.None?
      case Heartbeat(_, pid) => pid in alive
      case Select(_, r, pid) =>
        && pid in alive && r !in s.reapers && s.row.Some?
        && (s.row.value.status.Allocated? || s.row.value.status.Active? || s.row.value.status.ReapBlocked?)
  }

  function OwnerAt(s: Site, pc: OwnerPc): Site
    requires s.owner.Some?
  {
    s.(owner := Some(s.owner.value.(pc := pc)))
  }

  function OwnerEffect(s: Site, a: Action): Site
    requires s.owner.Some? && OwnerAction(a)
  {
    match a
    case Acquire(_) =>
      if s.lock.Nobody? then OwnerAt(s, Locked).(lock := TheOwner) else OwnerAt(s, Finished)
    case WritePid(_) => OwnerAt(s, PidWritten).(pidFile := Some(s.owner.value.pid))
    case Insert(_) =>
      if s.row.None? then OwnerAt(s, Holding).(row := Some(Row(Allocated, s.owner.value.pid))) else OwnerAt(s, InsertFailed)
    case FailInsert(_) => OwnerAt(s, InsertFailed)
    case Activate(_) => s.(row := WithStatus(s.row, Active))
    case RemoveOwnPid(_) => OwnerAt(s, PidRemoved).(pidFile := None)
    case Unlock(_) => OwnerAt(s, if s.row.Some? then Unlocked else Finished).(lock := Nobody)
    case MarkReleased(_) => OwnerAt(s, Finished).(row := WithStatus(s.row, Released))
  }

  /** An `UPDATE` of the status with no condition on the old one. */
  function WithStatus(row: Option<Row>, status: RowStatus): Option<Row>
  {
    if row.Some? then Some(row.value.(status := status)) else None
  }

  function ReaperAt(s: Site, r: nat, pc: ReaperPc): Site
    requires r in s.reapers
  {
    s.(reapers := s.reapers[r := s.reapers[r].(pc := pc)])
  }

  function ReaperDone(s: Site, r: nat): Site
  {
    s.(reapers := s.reapers - {r})
  }

  function ReaperEffect(s: Site, alive: set<Pid>, a: Action): Site
    requires ReaperAction(a) && a.r in s.reapers && ReaperReady(s.reapers[a.r].pc, a)
  {
    var pc := s.reapers[a.r].pc;
    match a
    case ReadPid(_, r) => ReaperAt(s, r, HasPid(if s.pidFile.Some? then s.pidFile.value else pc.known))
    case CheckPid(_, r) => ReaperAt(s, r, if pc.pid in alive then ToMarkBlocked else ToLock)
    case TryLock(_, r) =>
      if s.lock.Nobody? then ReaperAt(s, r, HoldsLock).(lock := TheReaper(r)) else ReaperAt(s, r, ToMarkBlocked)
    case RemovePid(_, r) => ReaperAt(s, r, RemovedPid).(pidFile := None)
    case ReaperUnlock(_, r) => ReaperAt(s, r, ToMarkReaped).(lock := Nobody)
    case MarkReaped(_, r) => ReaperDone(s, r).(row := WithStatus(s.row, Reaped))
    case MarkBlocked(_, r) => ReaperDone(s, r).(row := WithStatus(s.row, ReapBlocked))
  }

  function SiteEffect(s: Site, alive: set<Pid>, a: Action): Site
    requires !a.Die? && SiteEnabled(s, alive, a)
  {
    if OwnerAction(a) then OwnerEffect(s, a)
    else if ReaperAction(a) then ReaperEffect(s, alive, a)
    else match a
      case MakeDirectory(_, pid) => s.(owner := Some(Owner(pid, MadeDirectory)))
      case Heartbeat(_, pid) =>
        if s.row.Some? && (s.row.value.status.Allocated? || s.row.value.status.Active?)
        then s.(row := Some(s.row.value.(runtimePid := pid))) else s
      case Select(_, r, pid) => s.(reapers := s.reapers[r := Reaper(pid, Selected(s.row.value.runtimePid))])
  }

  /** The kernel closes a dead process's file descriptors. */
  function AfterDeath(s: Site, pid: Pid): Site
  {
    match s.lock
    case Nobody => s
    case TheOwner => if s.owner.Some? && s.owner.value.pid == pid then s.(lock := Nobody) else s
    case TheReaper(r) => if r in s.reapers && s.reapers[r].pid == pid then s.(lock := Nobody) else s
  }

  // ---------------------------------------------------------------- the system

  const NoSite := Site(None, Nobody, None, None, map[])

  function At(s: System, id: Id): Site
  {
    if id in s.sites then s.sites[id] else NoSite
  }

  predicate Enabled(s: System, a: Action)
  {
    if a.Die? then a.pid in s.alive else SiteEnabled(At(s, a.id), s.alive, a)
  }

  function Apply(s: System, a: Action): (t: System)
    requires Enabled(s, a)
    ensures forall id :: At(t, id) == (if a.Die? then AfterDeath(At(s, id), a.pid)
                                      else if id == a.id then SiteEffect(At(s, id), s.alive, a) else At(s, id))
  {
    if a.Die? then System(s.alive - {a.pid}, map id | id in s.sites :: AfterDeath(s.sites[id], a.pid))
    else s.(sites := s.sites[a.id := SiteEffect(At(s, a.id), s.alive, a)])
  }

  /** Processes that may ever run are alive at the start; their PIDs are not used again. */
  predicate Start(s: System)
  {
    s.sites == map[]
  }

  predicate IsRun(s: System, actions: seq<Action>)
    decreases |actions|
  {
    actions == [] || (Enabled(s, actions[0]) && IsRun(Apply(s, actions[0]), actions[1..]))
  }

  function Run(s: System, actions: seq<Action>): System
    requires IsRun(s, actions)
    decreases |actions|
  {
    if actions == [] then s else Run(Apply(s, actions[0]), actions[1..])
  }

  // ---------------------------------------------------------------- invariant

  predicate HoldingPc(pc: OwnerPc)
  {
    pc.Locked? || pc.PidWritten? || pc.InsertFailed? || pc.Holding? || pc.PidRemoved?
  }

  predicate RowPc(pc: OwnerPc)
  {
    pc.Holding? || pc.PidRemoved? || pc.Unlocked? || pc.Finished?
  }

  /** The flock belongs to the allocating process exactly while it lives between its acquire and its unlock. */
  predicate OwnerInv(s: Site, alive: set<Pid>)
  {
    && (s.lock.TheOwner? <==> s.owner.Some? && s.owner.value.pid in alive && HoldingPc(s.owner.value.pc))
    && (s.row.Some? ==> s.owner.Some? && RowPc(s.owner.value.pc))
    && (s.owner.Some? && (s.owner.value.pc.Holding? || s.owner.value.pc.Unlocked?) ==> s.row.Some?)
    && (s.lock.TheOwner? && (s.owner.value.pc.PidWritten? || s.owner.value.pc.Holding?)
        ==> s.pidFile == Some(s.owner.value.pid))
    && (s.pidFile.Some? ==> s.owner.Some? && s.pidFile == Some(s.owner.value.pid) && PidPc(s.owner.value.pc))
  }

  /** The owner has written its PID file and not yet removed it. */
  predicate PidPc(pc: OwnerPc)
  {
    pc.PidWritten? || pc.InsertFailed? || pc.Holding?
  }

  predicate ReaperHolds(s: Site, alive: set<Pid>, r: nat)
  {
    r in s.reapers && s.reapers[r].pid in alive && (s.reapers[r].pc.HoldsLock? || s.reapers[r].pc.RemovedPid?)
  }

  ghost predicate ReaperInv(s: Site, alive: set<Pid>)
  {
    && (s.reapers != map[] ==> s.row.Some?)
    && (forall r :: ReaperHolds(s, alive, r) ==> s.lock == TheReaper(r))
    && (s.lock.TheReaper? ==> ReaperHolds(s, alive, s.lock.r))
  }

  /** The allocating process has died or has released its flock. */
  predicate OwnerGone(s: Site, alive: set<Pid>)
  {
    && s.row.Some? && s.owner.Some? && !s.lock.TheOwner?
    && (s.owner.value.pid !in alive || s.owner.value.pc.Unlocked? || s.owner.value.pc.Finished?)
  }

  predicate PastLock(pc: ReaperPc)
  {
    pc.HoldsLock? || pc.RemovedPid? || pc.ToMarkReaped?
  }

  predicate ReapInv(s: Site, alive: set<Pid>)
  {
    && (s.row.Some? && (s.row.value.status.Reaped? || s.row.value.status.Released?) ==> OwnerGone(s, alive))
    && forall r :: r in s.reapers && PastLock(s.reapers[r].pc) ==> OwnerGone(s, alive)
  }

  ghost predicate SiteInv(s: Site, alive: set<Pid>)
  {
    OwnerInv(s, alive) && ReaperInv(s, alive) && ReapInv(s, alive)
  }

  ghost predicate Inv(s: System)
  {
    forall id :: SiteInv(At(s, id), s.alive)
  }

  lemma OwnerStepKeepsInv(s: Site, alive: set<Pid>, a: Action)
    requires SiteInv(s, alive) && OwnerAction(a) && SiteEnabled(s, alive, a)
    ensures SiteInv(OwnerEffect(s, a), alive)
    ensures OwnerGone(s, alive) ==> OwnerGone(OwnerEffect(s, a), alive)
  {
    var t := OwnerEffect(s, a);
    assert t.reapers == s.reapers;
    assert forall r :: ReaperHolds(t, alive, r) == ReaperHolds(s, alive, r);
  }

  lemma ReaperStepKeepsInv(s: Site, alive: set<Pid>, a: Action)
    requires SiteInv(s, alive) && ReaperAction(a) && SiteEnabled(s, alive, a)
    ensures SiteInv(ReaperEffect(s, alive, a), alive)
    ensures OwnerGone(s, alive) ==> OwnerGone(ReaperEffect(s, alive, a), alive)
  {
    var t := ReaperEffect(s, alive, a);
    assert t.owner == s.owner;
    assert a.RemovePid? || a.ReaperUnlock? ==> ReaperHolds(s, alive, a.r);
    assert forall r :: r != a.r ==> ReaperHolds(t, alive, r) == ReaperHolds(s, alive, r);
  }

  lemma OtherStepKeepsInv(s: Site, alive: set<Pid>, a: Action)
    requires SiteInv(s, alive) && (a.MakeDirectory? || a.Heartbeat? || a.Select?) && SiteEnabled(s, alive, a)
    ensures SiteInv(SiteEffect(s, alive, a), alive)
    ensures OwnerGone(s, alive) ==> OwnerGone(SiteEffect(s, alive, a), alive)
  {
    var t := SiteEffect(s, alive, a);
    assert forall r :: (a.Select? ==> r != a.r) ==> ReaperHolds(t, alive, r) == ReaperHolds(s, alive, r);
  }

  lemma DeathKeepsInv(s: Site, alive: set<Pid>, pid: Pid)
    requires SiteInv(s, alive) && pid in alive
    ensures SiteInv(AfterDeath(s, pid), alive - {pid})
    ensures OwnerGone(s, alive) ==> OwnerGone(AfterDeath(s, pid), alive - {pid})
  {
    var t := AfterDeath(s, pid);
    assert t.reapers == s.reapers && t.owner == s.owner && t.row == s.row;
    assert forall r :: ReaperHolds(t, alive - {pid}, r) ==> ReaperHolds(s, alive, r);
  }

  /** Every step keeps the invariant, and never brings a departed owner back. */
  lemma StepKeepsInv(s: System, a: Action)
    requires Inv(s) && Enabled(s, a)
    ensures Inv(Apply(s, a))
    ensures forall id :: OwnerGone(At(s, id), s.alive) ==> OwnerGone(At(Apply(s, a), id), Apply(s, a).alive)
  {
    var t := Apply(s, a);
    forall id
      ensures SiteInv(At(t, id), t.alive)
      ensures OwnerGone(At(s, id), s.alive) ==> OwnerGone(At(t, id), t.alive)
    {
      assert SiteInv(At(s, id), s.alive);
      if a.Die? {
        DeathKeepsInv(At(s, id), s.alive, a.pid);
      } else if id == a.id {
        if OwnerAction(a) {
          OwnerStepKeepsInv(At(s, id), s.alive, a);
        } else if ReaperAction(a) {
          ReaperStepKeepsInv(At(s, id), s.alive, a);
        } else {
          OtherStepKeepsInv(At(s, id), s.alive, a);
        }
      }
    }
  }

  // ---------------------------------------------------------------- every run

  lemma {:induction false} RunsKeepInv(s: System, actions: seq<Action>)
    requires Inv(s) && IsRun(s, actions)
    ensures Inv(Run(s, actions))
    ensures forall id :: OwnerGone(At(s, id), s.alive) ==> OwnerGone(At(Run(s, actions), id), Run(s, actions).alive)
    decreases |actions|
  {
    if actions != [] {
      StepKeepsInv(s, actions[0]);
      RunsKeepInv(Apply(s, actions[0]), actions[1..]);
    }
  }

  /**
   In every interleaving, a resource is `reaped` only after its allocating process died or released
   its flock, and from then on no process owns that Attempt's lock again.
   */
  lemma ReapedMeansGone(start: System, before: seq<Action>, id: Id, after: seq<Action>)
    requires Start(start) && IsRun(start, before) && IsRun(Run(start, before), after)
    requires At(Run(start, before), id).row.Some? && At(Run(start, before), id).row.value.status.Reaped?
    ensures var s := Run(start, before);
            var site := At(s, id);
            && site.owner.Some? && site.lock != TheOwner
            && (site.owner.value.pid !in s.alive || site.owner.value.pc == Unlocked || site.owner.value.pc == Finished)
    ensures var later := Run(Run(start, before), after);
            At(later, id).lock != TheOwner && At(later, id).owner.Some?
            && At(later, id).owner.value.pid == At(Run(start, before), id).owner.value.pid
  {
    var s := Run(start, before);
    RunsKeepInv(start, before);
    assert SiteInv(At(s, id), s.alive);
    RunsKeepInv(s, after);
    OneOwnerEver(s, after, id);
  }

  /** In every interleaving, a live owner keeps its PID file and is never marked `released` or `reaped`. */
  lemma LiveOwnerIsKept(start: System, actions: seq<Action>, id: Id)
    requires Start(start) && IsRun(start, actions)
    ensures var s := Run(start, actions);
            var site := At(s, id);
            site.owner.Some? && site.owner.value.pc.Holding? && site.owner.value.pid in s.alive ==>
              && site.lock == TheOwner && site.pidFile == Some(site.owner.value.pid)
              && site.row.Some? && !site.row.value.status.Released? && !site.row.value.status.Reaped?
  {
    RunsKeepInv(start, actions);
    var s := Run(start, actions);
    assert SiteInv(At(s, id), s.alive);
  }

  /** The first directory made decides the owner for good. */
  lemma {:induction false} OneOwnerEver(s: System, actions: seq<Action>, id: Id)
    requires IsRun(s, actions) && At(s, id).owner.Some?
    ensures At(Run(s, actions), id).owner.Some?
    ensures At(Run(s, actions), id).owner.value.pid == At(s, id).owner.value.pid
    decreases |actions|
  {
    if actions != [] {
      OneOwnerEver(Apply(s, actions[0]), actions[1..], id);
    }
  }

  // ---------------------------------------------------------------- when `released` is final

  predicate IsReleased(s: Site)
  {
    s.row.Some? && s.row.value.status.Released?
  }

  /** No live reaper still holds a selection of this Attempt. */
  predicate Unselected(s: Site, alive: set<Pid>)
  {
    forall r :: r in s.reapers ==> s.reapers[r].pid !in alive
  }

  lemma SiteStepKeepsReleased(s: Site, alive: set<Pid>, a: Action)
    requires SiteInv(s, alive) && IsReleased(s) && Unselected(s, alive) && !a.Die? && SiteEnabled(s, alive, a)
    ensures IsReleased(SiteEffect(s, alive, a)) && Unselected(SiteEffect(s, alive, a), alive)
  {}

  lemma StepKeepsReleased(s: System, a: Action, id: Id)
    requires Inv(s) && Enabled(s, a) && IsReleased(At(s, id)) && Unselected(At(s, id), s.alive)
    ensures IsReleased(At(Apply(s, a), id)) && Unselected(At(Apply(s, a), id), Apply(s, a).alive)
  {
    assert SiteInv(At(s, id), s.alive);
    if !a.Die? && a.id == id {
      SiteStepKeepsReleased(At(s, id), s.alive, a);
    }
  }

  lemma {:induction false} RunKeepsReleased(s: System, run: seq<Action>, id: Id)
    requires Inv(s) && IsRun(s, run) && IsReleased(At(s, id)) && Unselected(At(s, id), s.alive)
    ensures IsReleased(At(Run(s, run), id))
    decreases |run|
  {
    if run != [] {
      StepKeepsReleased(s, run[0], id);
      StepKeepsInv(s, run[0]);
      RunKeepsReleased(Apply(s, run[0]), run[1..], id);
    }
  }

  /** Steps a reaper is from its mark. */
  function StepsToMark(pc: ReaperPc): nat
  {
    match pc
    case Selected(_) => 6
    case HasPid(_) => 5
    case ToLock => 4
    case HoldsLock => 3
    case RemovedPid => 2
    case ToMarkReaped => 1
    case ToMarkBlocked => 1
  }

  function NextOf(id: Id, r: nat, pc: ReaperPc): Action
  {
    match pc
    case Selected(_) => ReadPid(id, r)
    case HasPid(_) => CheckPid(id, r)
    case ToLock => TryLock(id, r)
    case HoldsLock => RemovePid(id, r)
    case RemovedPid => ReaperUnlock(id, r)
    case ToMarkReaped => MarkReaped(id, r)
    case ToMarkBlocked => MarkBlocked(id, r)
  }

  /** A live reaper can always take its next step, and its last one overwrites the status. */
  lemma ReaperMoves(s: System, id: Id, r: nat)
    requires Inv(s) && r in At(s, id).reapers && At(s, id).reapers[r].pid in s.alive
    ensures var a := NextOf(id, r, At(s, id).reapers[r].pc);
            Enabled(s, a) &&
            var t := Apply(s, a);
            if a.MarkReaped? || a.MarkBlocked?
            then At(t, id).row.Some? && !IsReleased(At(t, id))
            else && r in At(t, id).reapers && At(t, id).reapers[r].pid in t.alive
                 && StepsToMark(At(t, id).reapers[r].pc) < StepsToMark(At(s, id).reapers[r].pc)
  {
    assert SiteInv(At(s, id), s.alive);
  }

  lemma RunSteps(s: System, a: Action, rest: seq<Action>)
    requires Enabled(s, a) && IsRun(Apply(s, a), rest)
    ensures IsRun(s, [a] + rest) && Run(s, [a] + rest) == Run(Apply(s, a), rest)
  {
    assert ([a] + rest)[1..] == rest;
  }

  /** Left to itself, a live reaper overwrites whatever the row says. */
  lemma {:induction false} ReaperOverwrites(s: System, id: Id, r: nat) returns (run: seq<Action>)
    requires Inv(s) && r in At(s, id).reapers && At(s, id).reapers[r].pid in s.alive
    ensures IsRun(s, run) && !IsReleased(At(Run(s, run), id))
    decreases StepsToMark(At(s, id).reapers[r].pc)
  {
    var a := NextOf(id, r, At(s, id).reapers[r].pc);
    ReaperMoves(s, id, r);
    var t := Apply(s, a);
    var rest := [];
    if !a.MarkReaped? && !a.MarkBlocked? {
      StepKeepsInv(s, a);
      rest := ReaperOverwrites(t, id, r);
    }
    RunSteps(s, a, rest);
    run := [a] + rest;
  }

  /**
   `released` is final exactly when no live reaper still holds a selection of the Attempt: in every
   reachable state, a released row stays released in every continuation if and only if that is so.
   */
  lemma ReleasedIsFinalUnlessSelected(start: System, before: seq<Action>, id: Id)
    requires Start(start) && IsRun(start, before) && IsReleased(At(Run(start, before), id))
    ensures var s := Run(start, before);
            (forall run :: IsRun(s, run) ==> IsReleased(At(Run(s, run), id))) <==> Unselected(At(s, id), s.alive)
  {
    var s := Run(start, before);
    RunsKeepInv(start, before);
    if Unselected(At(s, id), s.alive) {
      forall run | IsRun(s, run)
        ensures IsReleased(At(Run(s, run), id))
      {
        RunKeepsReleased(s, run, id);
      }
    } else {
      var r :| r in At(s, id).reapers && At(s, id).reapers[r].pid in s.alive;
      var run := ReaperOverwrites(s, id, r);
      assert IsRun(s, run) && !IsReleased(At(Run(s, run), id));
    }
  }

  lemma {:induction false} RunAppended(s: System, x: seq<Action>, y: seq<Action>)
    requires IsRun(s, x) && IsRun(Run(s, x), y)
    ensures IsRun(s, x + y) && Run(s, x + y) == Run(Run(s, x), y)
    decreases |x|
  {
    if x == [] {
      assert x + y == y;
    } else {
      RunAppended(Apply(s, x[0]), x[1..], y);
      RunSteps(s, x[0], x[1..] + y);
      assert x + y == [x[0]] + (x[1..] + y);
    }
  }

  lemma AllocatesAlone(s: System, id: Id)
    requires s.alive == {1, 2} && At(s, id) == NoSite
    ensures var run := [MakeDirectory(id, 1), Acquire(id), WritePid(id), Insert(id)];
            IsRun(s, run) && Run(s, run).alive == {1, 2}
            && At(Run(s, run), id) == Site(Some(Owner(1, Holding)), TheOwner, Some(1), Some(Row(Allocated, 1)), map[])
  {
    var s1 := Apply(s, MakeDirectory(id, 1));
    var s2 := Apply(s1, Acquire(id));
    var s3 := Apply(s2, WritePid(id));
    RunSteps(s3, Insert(id), []);
    RunSteps(s2, WritePid(id), [Insert(id)]);
    assert [WritePid(id)] + [Insert(id)] == [WritePid(id), Insert(id)];
    RunSteps(s1, Acquire(id), [WritePid(id), Insert(id)]);
    assert [Acquire(id)] + [WritePid(id), Insert(id)] == [Acquire(id), WritePid(id), Insert(id)];
    RunSteps(s, MakeDirectory(id, 1), [Acquire(id), WritePid(id), Insert(id)]);
    assert [MakeDirectory(id, 1)] + [Acquire(id), WritePid(id), Insert(id)]
        == [MakeDirectory(id, 1), Acquire(id), WritePid(id), Insert(id)];
  }

  lemma SeesTheOwner(s: System, id: Id)
    requires s.alive == {1, 2}
    requires At(s, id) == Site(Some(Owner(1, Holding)), TheOwner, Some(1), Some(Row(Allocated, 1)), map[])
    ensures var run := [Select(id, 0, 2), ReadPid(id, 0), CheckPid(id, 0)];
            IsRun(s, run) && Run(s, run).alive == {1, 2}
            && At(Run(s, run), id) == Site(Some(Owner(1, Holding)), TheOwner, Some(1), Some(Row(Allocated, 1)),
                                           map[0 := Reaper(2, ToMarkBlocked)])
  {
    var s1 := Apply(s, Select(id, 0, 2));
    var s2 := Apply(s1, ReadPid(id, 0));
    RunSteps(s2, CheckPid(id, 0), []);
    RunSteps(s1, ReadPid(id, 0), [CheckPid(id, 0)]);
    assert [ReadPid(id, 0)] + [CheckPid(id, 0)] == [ReadPid(id, 0), CheckPid(id, 0)];
    RunSteps(s, Select(id, 0, 2), [ReadPid(id, 0), CheckPid(id, 0)]);
    assert [Select(id, 0, 2)] + [ReadPid(id, 0), CheckPid(id, 0)] == [Select(id, 0, 2), ReadPid(id, 0), CheckPid(id, 0)];
  }

  lemma ReleasesAfterwards(s: System, id: Id)
    requires s.alive == {1, 2}
    requires At(s, id) == Site(Some(Owner(1, Holding)), TheOwner, Some(1), Some(Row(Allocated, 1)),
                               map[0 := Reaper(2, ToMarkBlocked)])
    ensures var run := [RemoveOwnPid(id), Unlock(id), MarkReleased(id)];
            IsRun(s, run) && Run(s, run).alive == {1, 2}
            && At(Run(s, run), id) == Site(Some(Owner(1, Finished)), Nobody, None, Some(Row(Released, 1)),
                                           map[0 := Reaper(2, ToMarkBlocked)])
  {
    var s1 := Apply(s, RemoveOwnPid(id));
    var s2 := Apply(s1, Unlock(id));
    RunSteps(s2, MarkReleased(id), []);
    RunSteps(s1, Unlock(id), [MarkReleased(id)]);
    assert [Unlock(id)] + [MarkReleased(id)] == [Unlock(id), MarkReleased(id)];
    RunSteps(s, RemoveOwnPid(id), [Unlock(id), MarkReleased(id)]);
    assert [RemoveOwnPid(id)] + [Unlock(id), MarkReleased(id)] == [RemoveOwnPid(id), Unlock(id), MarkReleased(id)];
  }

  /** Such a state is reached: a reaper that saw the owner alive writes its block after the release. */
  lemma ReleasedIsNotFinal(id: Id) returns (run: seq<Action>)
    ensures var start := System({1, 2}, map[]);
            && IsRun(start, run) && At(Run(start, run), id).row == Some(Row(Released, 1))
            && Enabled(Run(start, run), MarkBlocked(id, 0))
            && At(Apply(Run(start, run), MarkBlocked(id, 0)), id).row == Some(Row(ReapBlocked, 1))
  {
    var start := System({1, 2}, map[]);
    var first := [MakeDirectory(id, 1), Acquire(id), WritePid(id), Insert(id)];
    var second := [Select(id, 0, 2), ReadPid(id, 0), CheckPid(id, 0)];
    var third := [RemoveOwnPid(id), Unlock(id), MarkReleased(id)];
    AllocatesAlone(start, id);
    SeesTheOwner(Run(start, first), id);
    ReleasesAfterwards(Run(Run(start, first), second), id);
    RunAppended(start, first, second);
    RunAppended(start, first + second, third);
    run := first + second + third;
  }
}
