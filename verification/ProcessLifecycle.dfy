/**
 One managed process row, its event log and its OS process group
 (executor_launch.py, executor_process_schema.py), as atomic transactions any
 number of launchers and operators may interleave.
 */
module ProcessLifecycle {
  import opened Common

  datatype Phase =
    | Allocated
    | PreflightFailed
    | StartFailed
    | Running
    | TermSent
    | KillSent
    | Exited
    | ExitUnverified

  datatype Signal = SigTerm | SigKill

  /** An `executor_process_events` row; `mismatch` marks an identity-mismatch note. */
  datatype Event = Event(from: Option<Phase>, to: Phase, mismatch: bool)

  datatype Row = Row(phase: Phase, identified: bool, verified: bool, exitCode: Option<int>)

  /** A signal sent to the group, with the length of the event log when it was sent. */
  datatype Sent = Sent(signal: Signal, at: nat)

  /** `live` holds the group's members that are not dead or zombies. */
  datatype System = System(
    row: Option<Row>,
    events: seq<Event>,
    spawned: bool,
    live: set<nat>,
    sent: seq<Sent>
  )

  predicate Active(p: Phase)
  {
    p in {Allocated, Running, TermSent, KillSent}
  }

  predicate Ended(p: Phase)
  {
    p == Exited || p == ExitUnverified
  }

  /** The edges `executor_process_state_guard` lets a row take. */
  predicate Guard(from: Phase, to: Phase)
  {
    match from
    case Allocated => to in {PreflightFailed, StartFailed, Running}
    case Running => to in {TermSent, Exited, ExitUnverified}
    case TermSent => to in {KillSent, Exited, ExitUnverified}
    case KillSent => to in {Exited, ExitUnverified}
    case ExitUnverified => to == Exited
    case _ => false
  }

  function Height(p: Phase): nat
  {
    match p
    case Allocated => 0
    case Running => 1
    case TermSent => 2
    case KillSent => 3
    case ExitUnverified => 4
    case Exited => 5
    case PreflightFailed => 5
    case StartFailed => 5
  }

  /** `q` is where `p` already is or can still get to. */
  predicate Forward(p: Phase, q: Phase)
  {
    p == q || (Height(p) < Height(q) && (p == Allocated || (q != PreflightFailed && q != StartFailed)))
  }

  /** Every forward move is made of guard edges, and no move goes back. */
  lemma ForwardIsGuardClosure(p: Phase, q: Phase, r: Phase)
    ensures Guard(p, q) ==> Forward(p, q) && !Forward(q, p)
    ensures Forward(p, q) && Forward(q, r) ==> Forward(p, r)
    ensures Forward(p, q) && Forward(q, p) ==> p == q
    ensures Forward(p, q) && p != q && !Guard(p, q) ==>
              || (Guard(p, Running) && Forward(Running, q))
              || (Guard(p, TermSent) && Forward(TermSent, q))
              || (Guard(p, KillSent) && Forward(KillSent, q))
  {}

  /** The edges of the trigger, one by one. */
  lemma GuardEdges(p: Phase, q: Phase)
    ensures Guard(p, q) <==> (p, q) in {
              (Allocated, PreflightFailed), (Allocated, StartFailed), (Allocated, Running),
              (Running, TermSent), (Running, Exited), (Running, ExitUnverified),
              (TermSent, KillSent), (TermSent, Exited), (TermSent, ExitUnverified),
              (KillSent, Exited), (KillSent, ExitUnverified), (ExitUnverified, Exited)}
  {}

  // ---------------------------------------------------------- transactions

  datatype StoreError = IllegalTransition

  /** `_transition`: the state is read and written in one transaction, under the guard. */
  function Transition(s: System, to: Phase, identify: bool): Result<System, StoreError>
    requires s.row.Some?
  {
    var row := s.row.value;
    if row.phase != to && !Guard(row.phase, to) then Err(IllegalTransition)
    else Ok(s.(row := Some(row.(phase := to, identified := row.identified || identify)),
               events := s.events + [Event(Some(row.phase), to, false)]))
  }

  /** SQL `COALESCE(?, column)`. */
  function Coalesce(given: Option<int>, stored: Option<int>): Option<int>
  {
    if given.Some? then given else stored
  }

  /** `finalize`. */
  function Finalize(s: System, verified: bool, exitCode: Option<int>): Result<System, StoreError>
    requires s.row.Some?
  {
    var row := s.row.value;
    var kept := row.(exitCode := Coalesce(exitCode, row.exitCode));
    if row.phase == Exited then Ok(s.(row := Some(kept.(verified := true))))
    else if row.phase == ExitUnverified && verified then
      Ok(s.(row := Some(kept.(phase := Exited, verified := true)),
            events := s.events + [Event(Some(ExitUnverified), Exited, false)]))
    else if row.phase == ExitUnverified then Ok(s.(row := Some(kept)))
    else
      var target := if verified then Exited else ExitUnverified;
      if !Guard(row.phase, target) then Err(IllegalTransition)
      else Ok(s.(row := Some(row.(phase := target, verified := verified, exitCode := exitCode)),
                 events := s.events + [Event(Some(row.phase), target, false)]))
  }

  datatype Action =
    | Create(phase: Phase)
    | Spawn(pid: nat)
    | Mark(phase: Phase)
    | Finish(verified: bool, exitCode: Option<int>)
    | NoteMismatch
    | SendSignal(signal: Signal)
    | GroupChanges(live: set<nat>)

  function Target(g: Signal): Phase
  {
    match g
    case SigTerm => TermSent
    case SigKill => KillSent
  }

  predicate Logged(s: System, p: Phase)
  {
    exists i :: 0 <= i < |s.events| && s.events[i].to == p
  }

  /**
   When an actor may take an action. A verified exit is only reported of a
   group seen empty, and a signal is only sent once its record is in the log;
   `ProcessTermination` proves the launcher and the operators keep to this.
   */
  predicate Enabled(s: System, a: Action)
  {
    match a
    case Create(p) => s.row.None? && (p == Allocated || p == PreflightFailed)
    case Spawn(_) => s.row.Some? && s.row.value.phase == Allocated && !s.spawned
    case Mark(p) =>
      s.row.Some? && p in {StartFailed, Running, TermSent, KillSent} && (p == Running ==> s.spawned)
    case Finish(verified, _) => s.row.Some? && (verified ==> s.spawned && s.live == {})
    case NoteMismatch => s.row.Some?
    case SendSignal(g) => Logged(s, Target(g))
    case GroupChanges(live) => s.spawned && (s.live == {} ==> live == {})
  }

  function OrElse(r: Result<System, StoreError>, s: System): System
  {
    if r.Ok? then r.value else s
  }

  function Apply(s: System, a: Action): System
    requires Enabled(s, a)
  {
    match a
    case Create(p) => s.(row := Some(Row(p, false, false, None)), events := s.events + [Event(None, p, false)])
    case Spawn(pid) => s.(spawned := true, live := {pid})
    case Mark(p) => OrElse(Transition(s, p, p == Running), s)
    case Finish(verified, code) => OrElse(Finalize(s, verified, code), s)
    case NoteMismatch =>
      var p := s.row.value.phase;
      s.(events := s.events + [Event(Some(p), p, true)])
    case SendSignal(g) => s.(sent := s.sent + [Sent(g, |s.events|)])
    case GroupChanges(live) => s.(live := live)
  }

  // -------------------------------------------------------------- invariant

  /** Where the log says the row is after its first `n` events. */
  function LogEnd(events: seq<Event>, n: nat): Option<Phase>
    requires n <= |events|
  {
    if n == 0 then None else if events[n - 1].mismatch then LogEnd(events, n - 1) else Some(events[n - 1].to)
  }

  /** The log, without the mismatch notes, is one walk of guard edges and self-loops. */
  predicate IsWalk(events: seq<Event>)
  {
    forall i :: 0 <= i < |events| && !events[i].mismatch ==>
      && events[i].from == LogEnd(events, i)
      && (match events[i].from
          case None => events[i].to in {Allocated, PreflightFailed}
          case Some(p) => p == events[i].to || Guard(p, events[i].to))
  }

  /** Every signal was recorded before it was sent, and SIGKILL only after a recorded SIGTERM. */
  predicate SignalsRecorded(s: System)
  {
    forall k :: 0 <= k < |s.sent| ==>
      && s.sent[k].at <= |s.events|
      && (exists i :: 0 <= i < s.sent[k].at && s.events[i].to == Target(s.sent[k].signal))
  }

  predicate KillsFollowTerm(events: seq<Event>)
  {
    forall i :: 0 <= i < |events| && events[i].to == KillSent ==>
      exists j :: 0 <= j < i && events[j].to == TermSent
  }

  predicate RowInv(s: System)
  {
    match s.row
    case None => s.events == [] && !s.spawned && s.sent == []
    case Some(row) =>
      && (row.verified <==> row.phase == Exited)
      && (row.phase == Exited ==> s.spawned && s.live == {})
      && (row.identified <==> row.phase in {Running, TermSent, KillSent, Exited, ExitUnverified})
      && (row.identified ==> s.spawned)
      && (row.phase == TermSent || row.phase == KillSent ==> Logged(s, TermSent))
      && (row.phase == KillSent ==> Logged(s, KillSent))
  }

  predicate Inv(s: System)
  {
    && RowInv(s)
    && IsWalk(s.events)
    && (s.row.Some? ==> LogEnd(s.events, |s.events|) == Some(s.row.value.phase))
    && SignalsRecorded(s)
    && KillsFollowTerm(s.events)
  }

  lemma {:induction false} LogEndExtends(events: seq<Event>, e: Event, n: nat)
    requires n <= |events|
    ensures LogEnd(events + [e], n) == LogEnd(events, n)
  {
    if n > 0 {
      LogEndExtends(events, e, n - 1);
    }
  }

  lemma AppendKeepsWalk(events: seq<Event>, e: Event)
    requires IsWalk(events)
    requires !e.mismatch ==>
               && e.from == LogEnd(events, |events|)
               && (match e.from
                   case None => e.to in {Allocated, PreflightFailed}
                   case Some(p) => p == e.to || Guard(p, e.to))
    ensures IsWalk(events + [e])
    ensures LogEnd(events + [e], |events| + 1) == if e.mismatch then LogEnd(events, |events|) else Some(e.to)
  {
    var longer := events + [e];
    LogEndExtends(events, e, |events|);
    forall i | 0 <= i < |longer| && !longer[i].mismatch
      ensures longer[i].from == LogEnd(longer, i)
    {
      LogEndExtends(events, e, i);
    }
  }

  lemma AppendKeepsRecords(s: System, e: Event)
    requires SignalsRecorded(s) && KillsFollowTerm(s.events)
    requires e.to == KillSent ==> Logged(s, TermSent)
    ensures SignalsRecorded(s.(events := s.events + [e])) && KillsFollowTerm(s.events + [e])
    ensures forall p :: Logged(s, p) || e.to == p ==> Logged(s.(events := s.events + [e]), p)
  {
    var t := s.(events := s.events + [e]);
    forall k | 0 <= k < |t.sent|
      ensures exists i :: 0 <= i < t.sent[k].at && t.events[i].to == Target(t.sent[k].signal)
    {
      var i :| 0 <= i < s.sent[k].at && s.events[i].to == Target(s.sent[k].signal);
      assert t.events[i].to == Target(t.sent[k].signal);
    }
    forall i | 0 <= i < |t.events| && t.events[i].to == KillSent
      ensures exists j :: 0 <= j < i && t.events[j].to == TermSent
    {
      if i < |s.events| {
        var j :| 0 <= j < i && s.events[j].to == TermSent;
        assert t.events[j].to == TermSent;
      } else {
        var j :| 0 <= j < |s.events| && s.events[j].to == TermSent;
        assert t.events[j].to == TermSent;
      }
    }
    forall p | Logged(s, p) || e.to == p
      ensures Logged(t, p)
    {
      if Logged(s, p) {
        var i :| 0 <= i < |s.events| && s.events[i].to == p;
        assert t.events[i].to == p;
      } else {
        assert t.events[|s.events|].to == p;
      }
    }
  }

  /** What appending one event for the row's own move keeps. */
  lemma MoveKeepsInv(s: System, e: Event, row: Row)
    requires Inv(s) && s.row.Some? && !e.mismatch && e.from == Some(s.row.value.phase) && e.to == row.phase
    requires e.from.value == e.to || Guard(e.from.value, e.to)
    requires row.verified <==> row.phase == Exited
    requires row.phase == Exited ==> s.spawned && s.live == {}
    requires row.identified <==> row.phase in {Running, TermSent, KillSent, Exited, ExitUnverified}
    requires row.identified ==> s.spawned
    ensures Inv(s.(row := Some(row), events := s.events + [e]))
  {
    AppendKeepsWalk(s.events, e);
    AppendKeepsRecords(s, e);
  }

  lemma MarkKeepsInv(s: System, p: Phase)
    requires Inv(s) && Enabled(s, Mark(p))
    ensures Inv(Apply(s, Mark(p)))
  {
    var row := s.row.value;
    if row.phase == p || Guard(row.phase, p) {
      MoveKeepsInv(s, Event(Some(row.phase), p, false), row.(phase := p, identified := row.identified || p == Running));
    }
  }

  lemma FinishKeepsInv(s: System, verified: bool, code: Option<int>)
    requires Inv(s) && Enabled(s, Finish(verified, code))
    ensures Inv(Apply(s, Finish(verified, code)))
  {
    var row := s.row.value;
    var target := if verified then Exited else ExitUnverified;
    if row.phase == ExitUnverified && verified {
      MoveKeepsInv(s, Event(Some(ExitUnverified), Exited, false),
                   row.(phase := Exited, verified := true, exitCode := Coalesce(code, row.exitCode)));
    } else if !Ended(row.phase) && Guard(row.phase, target) {
      MoveKeepsInv(s, Event(Some(row.phase), target, false),
                   row.(phase := target, verified := verified, exitCode := code));
    }
  }

  lemma SendKeepsInv(s: System, g: Signal)
    requires Inv(s) && Enabled(s, SendSignal(g))
    ensures Inv(Apply(s, SendSignal(g)))
  {
    var i :| 0 <= i < |s.events| && s.events[i].to == Target(g);
    var t := Apply(s, SendSignal(g));
    forall k | 0 <= k < |t.sent|
      ensures t.sent[k].at <= |t.events|
      ensures exists j :: 0 <= j < t.sent[k].at && t.events[j].to == Target(t.sent[k].signal)
    {
      if k < |s.sent| {
        assert t.sent[k] == s.sent[k];
      } else {
        assert s.events[i].to == Target(t.sent[k].signal);
      }
    }
  }

  lemma CreateKeepsInv(s: System, p: Phase)
    requires Inv(s) && Enabled(s, Create(p))
    ensures Inv(Apply(s, Create(p)))
  {
    AppendKeepsWalk(s.events, Event(None, p, false));
    AppendKeepsRecords(s, Event(None, p, false));
  }

  lemma StepKeepsInv(s: System, a: Action)
    requires Inv(s) && Enabled(s, a)
    ensures Inv(Apply(s, a))
  {
    match a
    case Create(p) => CreateKeepsInv(s, p);
    case Spawn(_) =>
    case Mark(p) => MarkKeepsInv(s, p);
    case Finish(verified, code) => FinishKeepsInv(s, verified, code);
    case NoteMismatch =>
      var p := s.row.value.phase;
      NoteKeepsInv(s, p);
    case SendSignal(g) => SendKeepsInv(s, g);
    case GroupChanges(_) =>
  }

  lemma NoteKeepsInv(s: System, p: Phase)
    requires Inv(s) && s.row.Some? && s.row.value.phase == p
    ensures Inv(s.(events := s.events + [Event(Some(p), p, true)]))
  {
    AppendKeepsWalk(s.events, Event(Some(p), p, true));
    AppendKeepsRecords(s, Event(Some(p), p, true));
  }

  // -------------------------------------------------- what every step keeps

  /** What any number of steps by anybody may do, seen by somebody who looks away. */
  predicate Later(s: System, t: System)
  {
    && s.events <= t.events
    && s.sent <= t.sent
    && (s.spawned ==> t.spawned)
    && (s.spawned && s.live == {} ==> t.live == {})
    && (s.row.Some? ==>
          && t.row.Some?
          && Forward(s.row.value.phase, t.row.value.phase)
          && (s.row.value.identified ==> t.row.value.identified)
          && (s.row.value.exitCode.Some? && Ended(s.row.value.phase) ==> t.row.value.exitCode.Some?))
  }

  lemma LaterTransitive(s: System, t: System, u: System)
    requires Later(s, t) && Later(t, u)
    ensures Later(s, u)
  {}

  lemma StepIsLater(s: System, a: Action)
    requires Inv(s) && Enabled(s, a)
    ensures Later(s, Apply(s, a))
  {}

  predicate Start(s: System)
  {
    s == System(None, [], false, {}, [])
  }

  ghost predicate IsRun(states: seq<System>, acts: seq<Action>)
  {
    && |states| == |acts| + 1
    && Start(states[0])
    && forall i :: 0 <= i < |acts| ==> Enabled(states[i], acts[i]) && states[i + 1] == Apply(states[i], acts[i])
  }

  lemma {:induction false} RunsKeepInv(states: seq<System>, acts: seq<Action>, i: nat)
    requires IsRun(states, acts) && i < |states|
    ensures Inv(states[i])
  {
    if i > 0 {
      RunsKeepInv(states, acts, i - 1);
      StepKeepsInv(states[i - 1], acts[i - 1]);
    }
  }

  /** Under every interleaving a row only moves forward, its log only grows, and an exit is final. */
  lemma {:induction false} RunsGoForward(states: seq<System>, acts: seq<Action>, i: nat, j: nat)
    requires IsRun(states, acts) && i <= j < |states|
    ensures Later(states[i], states[j])
    decreases j
  {
    if i < j {
      RunsGoForward(states, acts, i, j - 1);
      RunsKeepInv(states, acts, j - 1);
      StepIsLater(states[j - 1], acts[j - 1]);
      LaterTransitive(states[i], states[j - 1], states[j]);
    }
  }

  /** The log without its mismatch notes is one continuous guard walk that ends at the row's phase. */
  lemma LogIsWalk(states: seq<System>, acts: seq<Action>, i: nat)
    requires IsRun(states, acts) && i < |states|
    ensures IsWalk(states[i].events)
    ensures states[i].row.Some? ==> LogEnd(states[i].events, |states[i].events|) == Some(states[i].row.value.phase)
  {
    RunsKeepInv(states, acts, i);
  }

  /** In every reachable state a row is `exited` exactly when it is verified, and its group is empty then. */
  lemma ExitedMeansVerified(states: seq<System>, acts: seq<Action>, i: nat)
    requires IsRun(states, acts) && i < |states| && states[i].row.Some?
    ensures states[i].row.value.phase == Exited <==> states[i].row.value.verified
    ensures states[i].row.value.phase == Exited ==> states[i].live == {}
  {
    RunsKeepInv(states, acts, i);
  }

  /** An exited row is verified, its group is empty, and no later write undoes it. */
  lemma ExitIsFinal(states: seq<System>, acts: seq<Action>, i: nat, j: nat)
    requires IsRun(states, acts) && i <= j < |states|
    requires states[i].row.Some? && states[i].row.value.phase == Exited
    ensures states[j].row.Some?
    ensures states[j].row.value.phase == Exited && states[j].row.value.verified && states[j].live == {}
  {
    RunsGoForward(states, acts, i, j);
    RunsKeepInv(states, acts, j);
  }

  /** Every signal ever sent was recorded before; SIGKILL came after a recorded SIGTERM. */
  lemma SignalsFollowRecords(states: seq<System>, acts: seq<Action>, i: nat, k: nat)
    requires IsRun(states, acts) && i < |states| && k < |states[i].sent|
    ensures var s := states[i];
            exists n :: 0 <= n < s.sent[k].at <= |s.events|
              && (if s.sent[k].signal == SigTerm then s.events[n].to == TermSent
                  else s.events[n].to == KillSent && exists m :: 0 <= m < n && s.events[m].to == TermSent)
  {
    RunsKeepInv(states, acts, i);
    var s := states[i];
    var n :| 0 <= n < s.sent[k].at && s.events[n].to == Target(s.sent[k].signal);
    if s.sent[k].signal == SigKill {
      assert s.events[n].to == KillSent;
    }
  }

  /** A recorded SIGKILL, sent or not, follows a recorded SIGTERM. */
  lemma KillRecordsFollowTerm(states: seq<System>, acts: seq<Action>, i: nat, n: nat)
    requires IsRun(states, acts) && i < |states| && n < |states[i].events| && states[i].events[n].to == KillSent
    ensures exists m :: 0 <= m < n && states[i].events[m].to == TermSent
  {
    RunsKeepInv(states, acts, i);
  }

  /** `finalize` records the code it is given, and without one keeps what an ended row had. */
  lemma FinalizeKeepsCode(s: System, verified: bool, exitCode: Option<int>)
    requires s.row.Some? && Finalize(s, verified, exitCode).Ok?
    ensures var row := Finalize(s, verified, exitCode).value.row.value;
            && (exitCode.Some? ==> row.exitCode == exitCode)
            && (exitCode.None? && s.row.value.phase in {Exited, ExitUnverified} ==> row.exitCode == s.row.value.exitCode)
            && row.phase == (if verified || s.row.value.phase == Exited then Exited else ExitUnverified)
  {}

  lemma StepReportsCode(s: System, a: Action)
    requires Enabled(s, a)
    ensures var t := Apply(s, a);
            t.row.Some? && t.row.value.exitCode.Some? ==>
              || (s.row.Some? && t.row.value.exitCode == s.row.value.exitCode)
              || (a.Finish? && a.exitCode == t.row.value.exitCode)
  {}

  /** The exit code a row holds is one that some actor reported. */
  lemma {:induction false} CodesAreReported(states: seq<System>, acts: seq<Action>, i: nat) returns (k: nat)
    requires IsRun(states, acts) && i < |states| && states[i].row.Some? && states[i].row.value.exitCode.Some?
    ensures k < i && acts[k].Finish? && acts[k].exitCode == states[i].row.value.exitCode
  {
    assert i > 0;
    StepReportsCode(states[i - 1], acts[i - 1]);
    if acts[i - 1].Finish? && acts[i - 1].exitCode == states[i].row.value.exitCode {
      k := i - 1;
    } else {
      k := CodesAreReported(states, acts, i - 1);
    }
  }
}
