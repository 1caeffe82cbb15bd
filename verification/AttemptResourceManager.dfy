/**
 `AttemptResourceManager` (attempt_resources.py): one process's calls, while any
 number of others allocate, beat, release, reap and die between its steps.
 */
module AttemptResourceManager {
  import opened Common
  import opened AttemptResources

  /** The part this process is playing; nobody else takes its steps. */
  datatype Role = Bystander | AsOwner(id: Id) | AsReaper(r: nat)

  predicate ByOther(a: Action, me: Pid, role: Role)
  {
    && a != Die(me)
    && match role
       case Bystander => true
       case AsOwner(id) => !(OwnerAction(a) && a.id == id)
       case AsReaper(r) => !((ReaperAction(a) || a.Select?) && a.r == r)
  }

  /** What others leave alone. */
  ghost predicate MineKept(s: System, t: System, role: Role)
  {
    match role
    case Bystander => true
    case AsOwner(id) => At(s, id).owner.Some? ==> At(t, id).owner == At(s, id).owner
    case AsReaper(r) => forall id :: ReaperOf(t, id, r) == ReaperOf(s, id, r)
  }

  function ReaperOf(s: System, id: Id, r: nat): Option<Reaper>
  {
    if r in At(s, id).reapers then Some(At(s, id).reapers[r]) else None
  }

  /** A departed owner stays departed, and rows stay. */
  ghost predicate Later(s: System, t: System)
  {
    && (forall id :: OwnerGone(At(s, id), s.alive) ==> OwnerGone(At(t, id), t.alive))
    && (forall id :: At(s, id).row.Some? ==> At(t, id).row.Some?)
  }

  lemma StepIsLater(s: System, a: Action)
    requires Inv(s) && Enabled(s, a)
    ensures Inv(Apply(s, a)) && Later(s, Apply(s, a))
  {
    StepKeepsInv(s, a);
  }

  lemma OtherKeepsMine(s: System, a: Action, me: Pid, role: Role)
    requires Enabled(s, a) && ByOther(a, me, role)
    ensures MineKept(s, Apply(s, a), role)
  {
    var t := Apply(s, a);
    if role.AsReaper? {
      forall id ensures ReaperOf(t, id, role.r) == ReaperOf(s, id, role.r) {
      }
    }
  }

  predicate MyReaper(s: System, id: Id, r: nat, me: Pid)
  {
    r in At(s, id).reapers && At(s, id).reapers[r].pid == me
  }

  /** Where a reaper can be after a step. */
  predicate Follows(pc: ReaperPc, a: Action)
  {
    match a
    case ReadPid(_, _) => pc.HasPid?
    case CheckPid(_, _) => pc.ToLock? || pc.ToMarkBlocked?
    case TryLock(_, _) => pc.HoldsLock? || pc.ToMarkBlocked?
    case RemovePid(_, _) => pc.RemovedPid?
    case ReaperUnlock(_, _) => pc.ToMarkReaped?
    case _ => false
  }

  datatype Outcome = ReapedIt | BlockedIt

  /** A row the reaper's query selects by its status. */
  predicate Reapable(site: Site)
  {
    site.row.Some? && site.row.value.status in {Allocated, Active, ReapBlocked}
  }


  class Manager {
    var s: System
    /** Nobody else acts. */
    const alone: bool

    ghost predicate Valid()
      reads this
    {
      Inv(s)
    }

    constructor (alive: set<Pid>, alone: bool)
      ensures Valid() && Start(s) && s.alive == alive && this.alone == alone
    {
      this.alone := alone;
      s := System(alive, map[]);
    }

    method OthersAct(me: Pid, role: Role)
      requires Valid() && me in s.alive
      modifies this
      ensures Valid() && me in s.alive && MineKept(old(s), s, role) && Later(old(s), s)
      ensures alone ==> s == old(s)
    {
      var n: nat := *;
      while n > 0
        invariant Valid() && me in s.alive && MineKept(old(s), s, role) && Later(old(s), s)
        invariant alone ==> s == old(s)
      {
        var a: Action := *;
        if !alone && Enabled(s, a) && ByOther(a, me, role) {
          StepIsLater(s, a);
          OtherKeepsMine(s, a, me, role);
          s := Apply(s, a);
        }
        n := n - 1;
      }
    }

    /** One step of our own. */
    method Act(a: Action)
      requires Valid() && Enabled(s, a) && !a.Die?
      modifies this
      ensures Valid() && s == Apply(old(s), a) && s.alive == old(s).alive && Later(old(s), s)
    {
      StepIsLater(s, a);
      s := Apply(s, a);
    }

    /** One step of the owner, and whatever others do then. */
    method OwnerStep(me: Pid, id: Id, a: Action)
      requires Valid() && me in s.alive && At(s, id).owner.Some? && At(s, id).owner.value.pid == me
      requires OwnerAction(a) && a.id == id && OwnerReady(At(s, id).owner.value.pc, a)
      modifies this
      ensures Valid() && me in s.alive && Later(old(s), s)
      ensures At(s, id).owner == OwnerEffect(old(At(s, id)), a).owner
    {
      Act(a);
      OthersAct(me, AsOwner(id));
    }

    /** `allocate`: the Attempt's directory decides who may; success holds the lock, the PID file and the row. */
    method Allocate(me: Pid, id: Id) returns (ok: bool)
      requires Valid() && me in s.alive
      modifies this
      ensures Valid() && me in s.alive
      ensures old(At(s, id).owner).Some? ==> !ok && s == old(s)
      ensures ok ==> At(s, id).owner == Some(Owner(me, Holding)) && At(s, id).lock == TheOwner
      ensures ok ==> At(s, id).pidFile == Some(me) && At(s, id).row == Some(Row(Allocated, me))
      ensures !ok && old(At(s, id).owner).None? ==> !At(s, id).lock.TheOwner? && At(s, id).pidFile == None
    {
      if At(s, id).owner.Some? {
        return false;
      }
      Act(MakeDirectory(id, me));
      OthersAct(me, AsOwner(id));
      assert SiteInv(At(s, id), s.alive);
      OwnerStep(me, id, Acquire(id));
      OwnerStep(me, id, WritePid(id));
      ok := InsertRow(me, id);
    }

    /** The transaction that inserts the row; if it fails the markers go again. */
    method InsertRow(me: Pid, id: Id) returns (ok: bool)
      requires Valid() && me in s.alive && At(s, id).owner == Some(Owner(me, PidWritten))
      modifies this
      ensures Valid() && me in s.alive
      ensures ok ==> At(s, id).owner == Some(Owner(me, Holding)) && At(s, id).lock == TheOwner
      ensures ok ==> At(s, id).pidFile == Some(me) && At(s, id).row == Some(Row(Allocated, me))
      ensures !ok ==> !At(s, id).lock.TheOwner? && At(s, id).pidFile == None
    {
      var fails: bool := *;
      if fails {
        Act(FailInsert(id));
        GiveUp(me, id);
        return false;
      }
      assert SiteInv(At(s, id), s.alive);
      Act(Insert(id));
      assert SiteInv(At(s, id), s.alive);
      return true;
    }

    /** Removes the PID file, then unlocks. */
    method GiveUp(me: Pid, id: Id)
      requires Valid() && me in s.alive && At(s, id).owner.Some? && At(s, id).owner.value.pid == me
      requires At(s, id).owner.value.pc.Holding? || At(s, id).owner.value.pc.InsertFailed?
      modifies this
      ensures Valid() && me in s.alive && !At(s, id).lock.TheOwner?
      ensures At(s, id).owner == Some(Owner(me, if At(s, id).row.Some? then Unlocked else Finished))
      ensures old(At(s, id).row.Some?) ==> At(s, id).row.Some?
    {
      OthersAct(me, AsOwner(id));
      OwnerStep(me, id, RemoveOwnPid(id));
      Act(Unlock(id));
    }

    /** `release`: the markers first, the row last. */
    method Release(me: Pid, id: Id)
      requires Valid() && me in s.alive && At(s, id).owner == Some(Owner(me, Holding))
      modifies this
      ensures Valid() && me in s.alive && OwnerGone(At(s, id), s.alive)
      ensures At(s, id).row.Some? && At(s, id).row.value.status == Released && At(s, id).pidFile == None
      ensures At(s, id).lock != TheOwner && At(s, id).owner == Some(Owner(me, Finished))
    {
      assert SiteInv(At(s, id), s.alive);
      GiveUp(me, id);
      OthersAct(me, AsOwner(id));
      assert SiteInv(At(s, id), s.alive);
      Act(MarkReleased(id));
      assert SiteInv(At(s, id), s.alive);
    }

    /** `_activate`, of a provisioned workspace. */
    method ActivateRow(me: Pid, id: Id)
      requires Valid() && me in s.alive && At(s, id).owner == Some(Owner(me, Holding))
      modifies this
      ensures Valid() && s.alive == old(s).alive && Later(old(s), s)
      ensures At(s, id).row.Some? && At(s, id).row.value.status == Active
      ensures At(s, id) == old(At(s, id)).(row := At(s, id).row)
    {
      assert SiteInv(At(s, id), s.alive);
      Act(Activate(id));
    }

    method BeatHeart(me: Pid, id: Id)
      requires Valid() && me in s.alive
      modifies this
      ensures Valid() && s.alive == old(s).alive && Later(old(s), s)
      ensures forall other :: At(s, other).(row := None) == old(At(s, other)).(row := None)
      ensures forall other :: other != id ==> At(s, other).row == old(At(s, other)).row
      ensures At(s, id).row == var row := old(At(s, id).row);
                               if row.Some? && (row.value.status.Allocated? || row.value.status.Active?)
                               then Some(row.value.(runtimePid := me)) else row
    {
      Act(Heartbeat(id, me));
    }

    /** One reaper step before its last, and whatever others do then. */
    method ReaperStep(me: Pid, r: nat, id: Id, a: Action)
      requires Valid() && me in s.alive && MyReaper(s, id, r, me)
      requires ReaperAction(a) && a.id == id && a.r == r && !a.MarkReaped? && !a.MarkBlocked?
      requires ReaperReady(At(s, id).reapers[r].pc, a)
      modifies this
      ensures Valid() && me in s.alive && Later(old(s), s) && MyReaper(s, id, r, me)
      ensures Follows(At(s, id).reapers[r].pc, a)
      ensures alone ==> Enabled(old(s), a) && s == Apply(old(s), a)
      ensures forall other :: other != id ==> ReaperOf(s, other, r) == old(ReaperOf(s, other, r))
    {
      Act(a);
      assert MyReaper(s, id, r, me) && Follows(At(s, id).reapers[r].pc, a);
      assert forall other :: other != id ==> ReaperOf(s, other, r) == old(ReaperOf(s, other, r));
      ghost var mine := ReaperOf(s, id, r);
      OthersAct(me, AsReaper(r));
      assert ReaperOf(s, id, r) == mine;
    }

    /** The last step of a reaper with one row. */
    method ReaperMark(me: Pid, r: nat, id: Id, a: Action)
      requires Valid() && me in s.alive && MyReaper(s, id, r, me)
      requires (a.MarkReaped? || a.MarkBlocked?) && a.id == id && a.r == r
      requires ReaperReady(At(s, id).reapers[r].pc, a)
      modifies this
      ensures Valid() && me in s.alive && Later(old(s), s) && ReaperOf(s, id, r).None?
      ensures At(s, id).row.Some? && At(s, id).row.value.status == if a.MarkReaped? then Reaped else ReapBlocked
      ensures a.MarkReaped? ==> OwnerGone(At(s, id), s.alive)
      ensures forall other :: other != id ==> ReaperOf(s, other, r) == old(ReaperOf(s, other, r))
    {
      assert SiteInv(At(s, id), s.alive);
      Act(a);
    }

    /** One row of the reaper's snapshot. */
    method ReapOne(me: Pid, r: nat, id: Id) returns (outcome: Outcome)
      requires Valid() && me in s.alive && MyReaper(s, id, r, me) && At(s, id).reapers[r].pc.Selected?
      modifies this
      ensures Valid() && me in s.alive && Later(old(s), s)
      ensures ReaperOf(s, id, r).None?
      ensures forall other :: other != id ==> ReaperOf(s, other, r) == old(ReaperOf(s, other, r))
      ensures At(s, id).row.Some? && At(s, id).row.value.status == if outcome.ReapedIt? then Reaped else ReapBlocked
      ensures outcome.ReapedIt? ==> OwnerGone(At(s, id), s.alive)
      ensures alone ==>
                var site := old(At(s, id));
                var seen := if site.pidFile.Some? then site.pidFile.value else site.reapers[r].pc.known;
                outcome.ReapedIt? <==> seen !in old(s).alive && site.lock == Nobody
    {
      ReaperStep(me, r, id, ReadPid(id, r));
      ReaperStep(me, r, id, CheckPid(id, r));
      if At(s, id).reapers[r].pc.ToMarkBlocked? {
        ReaperMark(me, r, id, MarkBlocked(id, r));
        return BlockedIt;
      }
      ReaperStep(me, r, id, TryLock(id, r));
      if At(s, id).reapers[r].pc.ToMarkBlocked? {
        ReaperMark(me, r, id, MarkBlocked(id, r));
        return BlockedIt;
      }
      ReaperStep(me, r, id, RemovePid(id, r));
      ReaperStep(me, r, id, ReaperUnlock(id, r));
      ReaperMark(me, r, id, MarkReaped(id, r));
      return ReapedIt;
    }

    /** One row of the query, which the pass has not selected yet. */
    method SelectOne(me: Pid, r: nat, id: Id) returns (selected: bool)
      requires Valid() && me in s.alive
      modifies this
      ensures Valid() && s.alive == old(s).alive && Later(old(s), s)
      ensures selected <==> old(ReaperOf(s, id, r).None?) && Reapable(old(At(s, id)))
      ensures selected ==> MyReaper(s, id, r, me) && At(s, id).reapers[r].pc.Selected?
      ensures !selected ==> s == old(s)
      ensures forall other :: other != id ==> At(s, other) == old(At(s, other))
    {
      selected := r !in At(s, id).reapers && At(s, id).row.Some?
                  && At(s, id).row.value.status in {Allocated, Active, ReapBlocked};
      if selected {
        Act(Select(id, r, me));
      }
    }

    /** The snapshot: the chosen rows whose status lets them be reaped, in one query. */
    method SelectStale(me: Pid, r: nat, ids: seq<Id>) returns (rows: seq<Id>)
      requires Valid() && me in s.alive && forall id :: ReaperOf(s, id, r).None?
      modifies this
      ensures Valid() && me in s.alive && Later(old(s), s)
      ensures forall id :: id in rows <==> id in ids && Reapable(old(At(s, id)))
      ensures forall id :: ReaperOf(s, id, r).Some? <==> id in rows
      ensures forall id :: id in rows ==> MyReaper(s, id, r, me) && At(s, id).reapers[r].pc.Selected?
      ensures forall i, j :: 0 <= i < j < |rows| ==> rows[i] != rows[j]
    {
      rows := [];
      for i := 0 to |ids|
        invariant Valid() && me in s.alive && s.alive == old(s).alive && Later(old(s), s)
        invariant forall id :: id in rows <==> id in ids[..i] && Reapable(old(At(s, id)))
        invariant forall id :: id !in rows ==> At(s, id) == old(At(s, id))
        invariant forall id :: id in rows ==> MyReaper(s, id, r, me) && At(s, id).reapers[r].pc.Selected?
        invariant forall j, k :: 0 <= j < k < |rows| ==> rows[j] != rows[k]
      {
        assert ids[..i + 1] == ids[..i] + [ids[i]];
        assert ids[i] in rows ==> ReaperOf(s, ids[i], r).Some?;
        assert ids[i] !in rows ==> ReaperOf(s, ids[i], r) == old(ReaperOf(s, ids[i], r)) == None;
        assert ids[i] !in rows ==> At(s, ids[i]) == old(At(s, ids[i]));
        var selected := SelectOne(me, r, ids[i]);
        if selected {
          rows := rows + [ids[i]];
        }
      }
      assert ids[..|ids|] == ids;
      forall id ensures ReaperOf(s, id, r).Some? <==> id in rows {
        assert id !in rows ==> ReaperOf(s, id, r) == old(ReaperOf(s, id, r));
      }
    }

    /**
     `reap_stale_resources`: every selected Attempt is reaped or blocked, and the reaped ones
     have no owner left. `ids` are those whose Attempt has closed or whose lease has lapsed.
     */
    method ReapStaleResources(me: Pid, r: nat, ids: seq<Id>) returns (reaped: seq<Id>, blocked: seq<Id>)
      requires Valid() && me in s.alive && forall id :: ReaperOf(s, id, r).None?
      modifies this
      ensures Valid() && me in s.alive && Later(old(s), s)
      ensures forall id :: ReaperOf(s, id, r).None?
      ensures forall id :: id in reaped || id in blocked <==> id in ids && Reapable(old(At(s, id)))
      ensures forall id :: id in reaped ==> id !in blocked && OwnerGone(At(s, id), s.alive)
    {
      var rows := SelectStale(me, r, ids);
      reaped, blocked := [], [];
      for i := 0 to |rows|
        invariant Valid() && me in s.alive && Later(old(s), s)
        invariant forall id :: ReaperOf(s, id, r).Some? <==> id in rows[i..]
        invariant forall id :: id in rows[i..] ==> MyReaper(s, id, r, me) && At(s, id).reapers[r].pc.Selected?
        invariant forall id :: id in reaped || id in blocked <==> id in rows[..i]
        invariant forall id :: id in reaped ==> id !in blocked && OwnerGone(At(s, id), s.alive)
      {
        assert rows[i..] == [rows[i]] + rows[i + 1..];
        assert rows[..i + 1] == rows[..i] + [rows[i]];
        var outcome := ReapOne(me, r, rows[i]);
        forall id | id in rows[i + 1..]
          ensures MyReaper(s, id, r, me) && At(s, id).reapers[r].pc.Selected?
        {
          assert id != rows[i] && ReaperOf(s, id, r).Some?;
        }
        if outcome.ReapedIt? {
          reaped := reaped + [rows[i]];
        } else {
          blocked := blocked + [rows[i]];
        }
      }
      assert rows[..|rows|] == rows;
    }
  }
}
