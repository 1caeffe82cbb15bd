/**
 The launcher's control loop and `terminate_registered_process`, while other
 operators terminate the same process and its group changes on its own.

 Each read of the row, look at the group, transaction and signal is one step,
 and others may act before every one of them: what an actor decides on is the
 row as it last read it and the group as it last saw it.
 */
module ProcessTermination {
  import opened Common
  import opened ProcessLifecycle

  datatype Failure = IdentityError | StoreFailure

  /** Actions only the launcher of the row takes. */
  predicate LauncherOnly(a: Action)
  {
    a.Create? || a.Spawn? || (a.Mark? && (a.phase == Running || a.phase == StartFailed))
  }

  /** The signals one call may send for a row it read in `phase`: SIGKILL only after its own SIGTERM or a recorded one. */
  predicate MaySend(before: seq<Signal>, after: seq<Signal>, phase: Phase)
  {
    || after == before
    || (phase == Running && (after == before + [SigTerm] || after == before + [SigTerm, SigKill]))
    || (phase == TermSent && after == before + [SigKill])
  }

  /**
   With nobody else signalling: SIGTERM once, SIGKILL only after a grace period
   the group outlived, and no giving up before both.
   */
  predicate Escalated(before: seq<Signal>, after: seq<Signal>, phase: Phase, verified: bool)
  {
    match phase
    case Running => (verified && after == before + [SigTerm]) || after == before + [SigTerm, SigKill]
    case TermSent => (verified && after == before) || after == before + [SigKill]
    case _ => after == before
  }

  /** A row `finalize` returned. */
  predicate Finished(row: Row)
  {
    Ended(row.phase) && (row.verified <==> row.phase == Exited)
  }

  class Host {
    var s: System
    /** Nobody but us and the group itself acts. */
    const alone: bool
    /** The signals we have sent. */
    ghost var own: seq<Signal>

    ghost predicate Valid()
      reads this
    {
      Inv(s)
    }

    constructor (alone: bool)
      ensures Valid() && Start(s) && this.alone == alone && own == []
    {
      this.alone := alone;
      s := System(None, [], false, {}, []);
      own := [];
    }

    // ------------------------------------------------------------ single steps

    /** Anybody else's steps; `launching` while we are the launcher. */
    method OthersAct(launching: bool, ghost since: System)
      requires Valid() && Later(since, s)
      modifies this`s
      ensures Valid() && Later(since, s) && Later(old(s), s)
      ensures alone ==> s == old(s).(live := s.live)
      ensures launching ==> s.spawned == old(s).spawned
      ensures launching && (old(s).row.None? || old(s).row.value.phase == Allocated) ==> s.row == old(s).row
    {
      var n: nat := *;
      while n > 0
        invariant Valid() && Later(since, s) && Later(old(s), s)
        invariant alone ==> s == old(s).(live := s.live)
        invariant launching ==> s.spawned == old(s).spawned
        invariant launching && (old(s).row.None? || old(s).row.value.phase == Allocated) ==> s.row == old(s).row
      {
        var a: Action := *;
        if Enabled(s, a) && !(launching && LauncherOnly(a)) && (alone ==> a.GroupChanges?) {
          Act(a, since, old(s));
        }
        n := n - 1;
      }
    }

    /** One atomic step. */
    method Act(a: Action, ghost since: System, ghost since': System)
      requires Valid() && Enabled(s, a) && Later(since, s) && Later(since', s)
      modifies this`s
      ensures Valid() && Later(since, s) && Later(since', s) && Later(old(s), s) && s == Apply(old(s), a)
    {
      StepKeepsInv(s, a);
      StepIsLater(s, a);
      LaterTransitive(since, s, Apply(s, a));
      LaterTransitive(since', s, Apply(s, a));
      s := Apply(s, a);
    }

    /** `store.get`. */
    method ReadRow(ghost since: System) returns (row: Row)
      requires Valid() && Later(since, s) && s.row.Some?
      modifies this`s
      ensures Valid() && Later(since, s) && Later(old(s), s) && s.row == Some(row)
      ensures alone ==> s == old(s).(live := s.live)
    {
      OthersAct(false, since);
      row := s.row.value;
    }

    /** `inspect_process_group(...).verified_exited`. */
    method Look(ghost since: System) returns (empty: bool)
      requires Valid() && Later(since, s) && s.spawned
      modifies this`s
      ensures Valid() && Later(since, s) && Later(old(s), s) && (empty <==> s.live == {})
      ensures alone ==> s == old(s).(live := s.live)
    {
      OthersAct(false, since);
      empty := s.live == {};
    }

    /** `mark_signal`: recorded exactly when the guard allows it from the row the transaction finds at `at`. */
    method MarkSignal(g: Signal, ghost since: System) returns (recorded: bool, ghost at: System)
      requires Valid() && Later(since, s) && s.row.Some?
      modifies this`s
      ensures Valid() && Later(since, s) && Later(old(s), at) && Later(old(s), s) && at.row.Some?
      ensures recorded <==> Transition(at, Target(g), false).Ok?
      ensures s == if recorded then Transition(at, Target(g), false).value else at
      ensures alone ==> at == old(s).(live := at.live)
    {
      OthersAct(false, since);
      at := s;
      recorded := Transition(s, Target(g), false).Ok?;
      Act(Mark(Target(g)), since, old(s));
    }

    /** `finalize`, then the row as read back. */
    method FinalizeRow(verified: bool, exitCode: Option<int>, ghost since: System) returns (r: Result<Row, Failure>)
      requires Valid() && Later(since, s) && s.row.Some?
      requires verified ==> s.spawned && s.live == {}
      modifies this`s
      ensures Valid() && Later(since, s) && Later(old(s), s)
      ensures old(s).row.value.identified ==> r.Ok?
      ensures r.Ok? ==> Finished(r.value) && s.row == Some(r.value)
      ensures r.Ok? && (verified || old(s).row.value.phase == Exited) ==> r.value.phase == Exited
      ensures r.Ok? && r.value.phase == Exited ==> s.live == {}
      ensures r.Ok? && exitCode.Some? ==> r.value.exitCode.Some?
      ensures alone && r.Ok? && exitCode.Some? ==> r.value.exitCode == exitCode
      ensures alone && r.Ok? && !verified && old(s).row.value.phase != Exited ==> r.value.phase == ExitUnverified
      ensures r.Err? ==> r.error == StoreFailure
    {
      var legal := FinishRow(verified, exitCode, since);
      if !legal {
        return Err(StoreFailure);
      }
      ghost var written := s;
      var row := ReadRow(since);
      LaterTransitive(old(s), written, s);
      r := Ok(row);
    }

    /** The transaction of `finalize`. */
    method FinishRow(verified: bool, exitCode: Option<int>, ghost since: System) returns (legal: bool)
      requires Valid() && Later(since, s) && s.row.Some?
      requires verified ==> s.spawned && s.live == {}
      modifies this`s
      ensures Valid() && Later(since, s) && Later(old(s), s)
      ensures old(s).row.value.identified ==> legal
      ensures legal ==> s.row.Some? && Ended(s.row.value.phase)
      ensures legal && (verified || old(s).row.value.phase == Exited) ==> s.row.value.phase == Exited
      ensures legal && exitCode.Some? ==> s.row.value.exitCode == exitCode
      ensures alone && legal && !verified && old(s).row.value.phase != Exited ==> s.row.value.phase == ExitUnverified
    {
      OthersAct(false, since);
      legal := Finalize(s, verified, exitCode).Ok?;
      Act(Finish(verified, exitCode), since, old(s));
    }

    /** `_wait_group_exit`: poll until the group is seen empty or the time is up. */
    method WaitGroupExit(polls: nat) returns (empty: bool)
      requires Valid() && s.spawned
      modifies this`s
      ensures Valid() && Later(old(s), s)
      ensures empty <==> s.live == {}
      ensures alone ==> s == old(s).(live := s.live)
    {
      var left := polls;
      while left > 0
        invariant Valid() && Later(old(s), s)
        invariant alone ==> s == old(s).(live := s.live)
      {
        empty := Look(old(s));
        if empty {
          return;
        }
        left := left - 1;
      }
      empty := Look(old(s));
    }

    /** `os.killpg`, which may find the group already gone. */
    method KillGroup(g: Signal, ghost since: System)
      requires Valid() && Later(since, s) && Logged(s, Target(g))
      modifies this`s, this`own
      ensures Valid() && Later(since, s) && Later(old(s), s) && own == old(own) + [g]
      ensures |s.sent| > |old(s).sent| && s.sent[|s.sent| - 1] == Sent(g, |s.events|)
      ensures alone ==> s == old(s).(live := s.live, sent := s.sent)
    {
      OthersAct(false, since);
      LoggedStays(old(s), s, Target(g));
      Act(SendSignal(g), since, old(s));
      own := own + [g];
    }

    lemma LoggedStays(before: System, after: System, p: Phase)
      requires Later(before, after) && Logged(before, p)
      ensures Logged(after, p)
    {
      var i :| 0 <= i < |before.events| && before.events[i].to == p;
      assert after.events[i] == before.events[i];
    }

    // ------------------------------------------------------------ termination

    /**
     Record SIGTERM or SIGKILL, read the row back, and signal the group when the
     row stood at that record, whoever wrote it. Only a row another actor has
     already moved further leaves the group unsignalled.
     */
    method Signalled(g: Signal) returns (read: Row)
      requires Valid() && s.row.Some? && s.row.value.identified
      requires Height(s.row.value.phase) + 1 >= Height(Target(g))
      modifies this`s, this`own
      ensures Valid() && Later(old(s), s)
      ensures s.row.Some? && Height(s.row.value.phase) >= Height(Target(g))
      ensures own == old(own) + [g] || (own == old(own) && Height(s.row.value.phase) > Height(Target(g)))
      ensures alone && Height(old(s).row.value.phase) <= Height(Target(g)) ==>
                own == old(own) + [g] && s.row.value.phase == Target(g)
    {
      var _, at := MarkSignal(g, old(s));
      read := ReadRow(old(s));
      if read.phase == Target(g) {
        KillGroup(g, old(s));
      }
    }

    /**
     `terminate_registered_process`. Whoever wins each race, a row read active
     and of proven identity is returned `exited` or `exit_unverified`, and one
     whose group was seen empty at the identity check, the state `look`, is
     returned `exited`. It fails exactly for a row read active whose identity is
     not proven, and sends nothing then. SIGKILL is only for a group still alive
     after the grace period, the state `late`.
     */
    method TerminateRegisteredProcess(identityMatches: bool, grace: nat, killWait: nat)
      returns (r: Result<Row, Failure>, ghost look: System, ghost late: System)
      requires Valid() && s.row.Some?
      modifies this`s, this`own
      ensures Valid() && Later(old(s), s) && Later(old(s), look) && Later(look, late) && Later(look, s)
      ensures r.Err? <==> old(s).row.value.phase in {Allocated, Running, TermSent, KillSent}
                          && (!old(s).row.value.identified || !identityMatches)
      ensures r.Err? ==> r.error == IdentityError && own == old(own)
      ensures r.Ok? && old(s).row.value.phase !in {PreflightFailed, StartFailed} ==>
                && r.value.phase in {Exited, ExitUnverified} && (r.value.verified <==> r.value.phase == Exited)
                && s.row.Some? && s.row.value.phase in {Exited, ExitUnverified}
                && (r.value.phase == Exited ==> s.live == {})
      ensures r.Ok? && old(s).row.value.phase in {PreflightFailed, StartFailed} ==> s == old(s) && r.value == s.row.value
      ensures r.Ok? && look.spawned && look.live == {} && old(s).row.value.identified ==> r.value.phase == Exited
      ensures MaySend(old(own), own, old(s).row.value.phase)
      ensures look.live == {} ==> own == old(own)
      ensures |own| > |old(own)| && own[|own| - 1] == SigKill ==> late.live != {}
      ensures alone && r.Ok? && old(s).row.value.phase in {Running, TermSent, KillSent} && look.live != {} ==>
                Escalated(old(own), own, old(s).row.value.phase, r.value.verified)
    {
      var current := s.row.value;
      look, late := s, s;
      if current.phase == Exited || !(Active(current.phase) || current.phase == ExitUnverified) {
        return Ok(current), look, late;
      }
      if !current.identified {
        return Err(IdentityError), look, late;
      }
      var empty := Look(old(s));
      look, late := s, s;
      if current.phase == ExitUnverified {
        r := FinalizeRow(empty, current.exitCode, old(s));
        return;
      }
      if !identityMatches {
        OthersAct(false, old(s));
        Act(NoteMismatch, old(s), look);
        return Err(IdentityError), look, late;
      }
      if empty {
        r := FinalizeRow(true, current.exitCode, old(s));
        return;
      }
      r, late := Escalate(current, grace, killWait);
      LaterTransitive(old(s), look, s);
    }

    /** The signalling half, on the row as read: SIGTERM, a grace period, SIGKILL, a last wait, `finalize`. */
    method Escalate(record: Row, grace: nat, killWait: nat) returns (r: Result<Row, Failure>, ghost late: System)
      requires Valid() && record.phase in {Running, TermSent, KillSent}
      requires s.row.Some? && Forward(record.phase, s.row.value.phase) && s.row.value.identified
      modifies this`s, this`own
      ensures Valid() && Later(old(s), s) && Later(old(s), late)
      ensures r.Ok? && Finished(r.value) && s.row.Some? && Ended(s.row.value.phase)
      ensures r.value.phase == Exited ==> s.live == {}
      ensures MaySend(old(own), own, record.phase)
      ensures |own| > |old(own)| && own[|own| - 1] == SigKill ==> late.live != {}
      ensures alone && old(s).row == Some(record) ==> Escalated(old(own), own, record.phase, r.value.verified)
    {
      var current := record;
      if record.phase == Running {
        current := Signalled(SigTerm);
      }
      assert old(own) + [SigTerm] + [SigKill] == old(own) + [SigTerm, SigKill];
      ghost var termed := s;
      var empty := WaitGroupExit(grace);
      LaterTransitive(old(s), termed, s);
      late := s;
      if empty {
        r := FinalizeRow(true, current.exitCode, old(s));
        return;
      }
      r := KillAndFinalize(killWait);
      LaterTransitive(old(s), late, s);
    }

    /** After the grace period: reload, SIGKILL a row that still waits for it, and finalize. */
    method KillAndFinalize(killWait: nat) returns (r: Result<Row, Failure>)
      requires Valid() && s.row.Some? && s.row.value.identified
      modifies this`s, this`own
      ensures Valid() && Later(old(s), s)
      ensures r.Ok? && Finished(r.value) && s.row.Some? && Ended(s.row.value.phase)
      ensures r.value.phase == Exited ==> s.live == {}
      ensures own == old(own) || own == old(own) + [SigKill]
      ensures Height(old(s).row.value.phase) > Height(TermSent) ==> own == old(own)
      ensures alone && old(s).row.value.phase == TermSent ==> own == old(own) + [SigKill]
    {
      var current := ReadRow(old(s));
      if current.phase == Exited {
        return Ok(current);
      }
      if current.phase == ExitUnverified {
        var empty := Look(old(s));
        r := FinalizeRow(empty, current.exitCode, old(s));
        return;
      }
      ghost var before := s;
      if current.phase == TermSent {
        current := Signalled(SigKill);
        LaterTransitive(old(s), before, s);
      }
      ghost var killed := s;
      var verified := WaitGroupExit(killWait);
      LaterTransitive(old(s), killed, s);
      current := ReadRow(old(s));
      r := FinalizeRow(verified, current.exitCode, old(s));
    }

    // ------------------------------------------------------------ the launcher

    /**
     `run_managed_process`: launch, poll the controls, reap, clean up the group
     and finalize. A started process is returned `exited` or `exit_unverified`
     with its exit code, and never `exited` over a live group; the call fails
     only for an identity it cannot prove, and leaves the started row then.
     */
    method RunManagedProcess(preflightOk: bool, started: bool, pid: nat, isolated: bool,
                             grace: nat, killWait: nat, exitCode: int)
      returns (r: Result<Row, Failure>)
      requires Valid() && s.row.None? && !s.spawned
      modifies this`s, this`own
      ensures Valid() && Later(old(s), s)
      ensures r.Ok? && preflightOk && started && isolated ==>
                && r.value.phase in {Exited, ExitUnverified} && (r.value.verified <==> r.value.phase == Exited)
                && r.value.exitCode.Some? && (r.value.phase == Exited ==> s.live == {})
                && (alone ==> r.value.exitCode == Some(exitCode))
      ensures r.Err? ==> r.error == IdentityError && preflightOk && started && isolated
      ensures r.Err? ==> s.row.Some? && s.row.value.identified && s.spawned
      ensures !preflightOk ==> r.Ok? && r.value.phase == PreflightFailed && !s.spawned
      ensures preflightOk && !(started && isolated) ==> r.Ok? && r.value.phase == StartFailed
    {
      if !preflightOk {
        Act(Create(PreflightFailed), old(s), old(s));
        return Ok(s.row.value);
      }
      Launch(started, pid, isolated);
      if !(started && isolated) {
        return Ok(s.row.value);
      }
      ghost var launched := s;
      var failed := Supervise(grace, killWait);
      LaterTransitive(old(s), launched, s);
      if failed {
        return Err(IdentityError);
      }
      ghost var reaped := s;
      r := CleanUp(grace, killWait, exitCode);
      LaterTransitive(old(s), reaped, s);
    }

    /** From the `allocated` row to a running, identified process group, or `start_failed`. */
    method Launch(started: bool, pid: nat, isolated: bool)
      requires Valid() && s.row.None? && !s.spawned
      modifies this`s
      ensures Valid() && Later(old(s), s) && s.row.Some?
      ensures s.row.value.phase == if started && isolated then Running else StartFailed
    {
      Act(Create(Allocated), old(s), old(s));
      OthersAct(true, old(s));
      if started {
        Act(Spawn(pid), old(s), old(s));
        OthersAct(true, old(s));
      }
      Act(Mark(if started && isolated then Running else StartFailed), old(s), old(s));
    }

    /**
     The control loop: poll until the leader is gone, a kill is requested or
     time is up; a leader that then cannot be reaped is terminated once more.
     */
    method Supervise(grace: nat, killWait: nat) returns (failed: bool)
      requires Valid() && s.row.Some? && s.row.value.identified
      modifies this`s, this`own
      ensures Valid() && Later(old(s), s)
    {
      failed := false;
      OthersAct(true, old(s));
      var terminations: nat := *;
      while terminations > 0 && !failed
        invariant Valid() && Later(old(s), s) && s.row.Some? && s.row.value.identified
      {
        OthersAct(true, old(s));
        var matches: bool := *;
        ghost var stopping := s;
        var r, _, _ := TerminateRegisteredProcess(matches, grace, killWait);
        LaterTransitive(old(s), stopping, s);
        failed, terminations := r.Err?, terminations - 1;
      }
      OthersAct(true, old(s));
    }

    /** After the leader is reaped: clean up what is left of its group and finalize. */
    method CleanUp(grace: nat, killWait: nat, exitCode: int) returns (r: Result<Row, Failure>)
      requires Valid() && s.row.Some? && s.row.value.identified
      modifies this`s, this`own
      ensures Valid() && Later(old(s), s)
      ensures r.Ok? ==> Finished(r.value) && r.value.exitCode.Some? && (r.value.phase == Exited ==> s.live == {})
      ensures alone && r.Ok? ==> r.value.exitCode == Some(exitCode)
      ensures r.Err? ==> r.error == IdentityError
    {
      var empty := Look(old(s));
      if empty {
        r := FinalizeRow(true, Some(exitCode), old(s));
      } else {
        OthersAct(true, old(s));
        ghost var seen := s;
        var matches: bool := *;
        ghost var look, late;
        r, look, late := TerminateRegisteredProcess(matches, grace, killWait);
        LaterTransitive(old(s), seen, s);
      }
      if r.Ok? {
        r := FinalizeRow(r.value.verified, Some(exitCode), old(s));
      }
    }
  }
}
