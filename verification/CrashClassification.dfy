/**
 Crash classification inverts the program: which step a dead run had reached,
 read from its rows, and the one way another writer can hide it.
 */
module CrashClassification {
  import opened IntegrationSchema
  import opened IntegrationProtocol
  import opened IntegrationInvariant
  import opened IntegrationSafety

  // ------------------------------------------------ first integrations

  /** A first integration runs unwatched: no poll is in flight, and its checkpoint is its own. */
  predicate Unwatched(s: State)
  {
    s.holder.Running? && s.holder.run.mode.Initial? && s.db.status == Integrating ==>
      InFlight(s) == 0 && s.db.marker != MergeDetected
  }

  lemma EntryIsUnwatched(s: State, r: Run, v: Reply)
    requires Inv(s) && s.holder == Running(r) && r.pc == EnterIntegrating
    ensures Unwatched(Effect(s, r, v))
  {}

  lemma EffectKeepsUnwatched(s: State, r: Run, v: Reply)
    requires Inv(s) && s.holder == Running(r) && Unwatched(s)
    ensures Unwatched(Effect(s, r, v))
  {
    if r.pc == EnterIntegrating {
      EntryIsUnwatched(s, r, v);
    } else {
      EffectKeepsWatch(s, r, v);
    }
  }

  /** Only entering makes a Ticket `integrating`, and a run writes no merge note. */
  lemma EffectKeepsWatch(s: State, r: Run, v: Reply)
    requires s.holder == Running(r) && r.pc != EnterIntegrating
    ensures SameWatch(s, r, Effect(s, r, v))
  {
    if IsSetup(r.pc) {
      SetupKeepsWatch(s, r, v);
    } else if IsGit(r.pc) {
      GitKeepsWatch(s, r, v);
    } else if IsPublishing(r.pc) {
      PublishKeepsWatch(s, r, v);
    } else {
      EndKeepsWatch(s, r, v);
    }
  }

  /** `t` follows `s` in the same run, with no poll, no note and no entry between. */
  predicate SameWatch(s: State, r: Run, t: State)
  {
    && t.watch == s.watch && (t.db.status == Integrating ==> s.db.status == Integrating)
    && (t.db.marker == MergeDetected ==> s.db.marker == MergeDetected)
    && (t.holder.Running? ==> t.holder.run.mode == r.mode)
  }

  lemma SetupKeepsWatch(s: State, r: Run, v: Reply)
    requires r.pc == MarkStarted || r.pc == RecordStarted || r.pc == CheckPushable || r.pc == Fetch
    ensures SameWatch(s, r, Effect(s, r, v))
  {}

  lemma GitKeepsWatch(s: State, r: Run, v: Reply)
    requires r.pc == Update || r.pc == Resolve || r.pc == CheckBranch || r.pc == Validate || r.pc == Recheck
    ensures SameWatch(s, r, Effect(s, r, v))
  {}

  lemma PublishKeepsWatch(s: State, r: Run, v: Reply)
    requires r.pc == MarkPublishing || r.pc == Push || r.pc == MarkCreating || r.pc == CreatePr || r.pc == RecordPr
             || r.pc == UpdatePr
    ensures SameWatch(s, r, Effect(s, r, v))
  {}

  lemma EndKeepsWatch(s: State, r: Run, v: Reply)
    requires r.pc == Complete || r.pc == EnterReview || r.pc == RecordCompleted
             || r.pc == Abort || r.pc == Boundary || r.pc.StopStatus? || r.pc == StopMarker
    ensures SameWatch(s, r, Effect(s, r, v))
  {}

  lemma RaiseKeepsUnwatched(t: State)
    requires Unwatched(t) && t.holder.Running?
    ensures Unwatched(t.(holder := Running(t.holder.run.(pc := Boundary, origin := Blamed(t.holder.run)))))
  {}

  lemma RunStepKeepsUnwatched(s: State, o: Outcome)
    requires Inv(s) && s.holder.Running? && Unwatched(s)
    ensures Unwatched(RunStep(s, o))
  {
    var r := s.holder.run;
    match o
    case Returns(v) => EffectKeepsUnwatched(s, r, v);
    case Raises(after) =>
      var t := if after.Some? then Effect(s, r, after.value) else s;
      if after.Some? {
        EffectKeepsUnwatched(s, r, after.value);
      }
      if t.holder.Running? {
        RaiseKeepsUnwatched(t);
      }
  }

  /** A run the pass hands over to has not entered `integrating`. */
  lemma ReconKeepsUnwatched(s: State, v: Reply)
    requires s.holder.Reconciling?
    ensures Unwatched(ReconStep(s, v))
  {}

  lemma WorldKeepsUnwatched(s: State, a: Action)
    requires Inv(s) && Enabled(s, a) && Unwatched(s) && !a.StepRun? && !a.StepRecon?
    ensures Unwatched(Apply(s, a))
  {}

  lemma StepKeepsUnwatched(s: State, a: Action)
    requires Inv(s) && Enabled(s, a) && Unwatched(s)
    ensures Unwatched(Apply(s, a))
  {
    if a.StepRun? {
      RunStepKeepsUnwatched(s, a.outcome);
    } else if a.StepRecon? {
      ReconKeepsUnwatched(s, a.reply);
    } else {
      WorldKeepsUnwatched(s, a);
    }
  }

  lemma {:induction false} RunsKeepUnwatched(states: seq<State>, acts: seq<Action>, i: nat)
    requires IsRun(states, acts) && i < |states|
    ensures Unwatched(states[i])
  {
    if i > 0 {
      RunsKeepUnwatched(states, acts, i - 1);
      RunsKeepInv(states, acts, i - 1);
      StepKeepsUnwatched(states[i - 1], acts[i - 1]);
    }
  }

  /** A crash of a first integration is classified by the step it reached, and is never F. */
  lemma FirstIntegrationIsNeverF(states: seq<State>, acts: seq<Action>, i: nat)
    requires IsRun(states, acts) && i < |acts| && acts[i] == Crash
    requires states[i].holder.Running? && states[i].db.status == Integrating
    requires states[i].holder.run.mode.Initial?
    ensures var dead := states[i + 1].db;
            CaseOf(dead) == CaseAt(Blamed(states[i].holder.run), Initial) && CaseOf(dead) != F
  {
    RunsKeepInv(states, acts, i);
    RunsKeepUnwatched(states, acts, i);
    RunCase(states[i], states[i].holder.run);
  }

  // ------------------------------------------------ where a merge note came from

  /** A run past its first checkpoint whose marker is the watcher's. */
  predicate Hidden(s: State)
  {
    s.holder.Running? && s.holder.run.pc != MarkStarted && s.db.marker == MergeDetected
  }

  lemma EffectKeepsHidden(s: State, r: Run, v: Reply)
    requires s.holder == Running(r)
    ensures var t := Effect(s, r, v);
            t.holder.Running? && t.db.marker == MergeDetected ==> Hidden(s)
  {}

  /** The watcher's note is the only write that hides a run's checkpoint. */
  lemma NoteHides(s: State, a: Action)
    requires Enabled(s, a) && Hidden(Apply(s, a))
    ensures s.holder.Running? && (a == MergeNoted || Hidden(s))
  {
    if a.StepRun? {
      match a.outcome
      case Returns(v) => EffectKeepsHidden(s, s.holder.run, v);
      case Raises(after) =>
        if after.Some? {
          EffectKeepsHidden(s, s.holder.run, after.value);
        }
    }
  }

  /** The watcher noted a merge at `j`, and no checkpoint has been written from then to `i`. */
  ghost predicate NotedSince(states: seq<State>, acts: seq<Action>, j: nat, i: nat)
  {
    && j < i < |states| && |states| == |acts| + 1 && acts[j] == MergeNoted && states[j].holder.Running?
    && forall k :: j < k <= i ==> states[k].holder.Running? && states[k].db.marker == MergeDetected
  }

  lemma {:induction false} FindNote(states: seq<State>, acts: seq<Action>, i: nat) returns (j: nat)
    requires IsRun(states, acts) && i < |states| && Hidden(states[i])
    ensures NotedSince(states, acts, j, i)
  {
    assert i > 0;
    NoteHides(states[i - 1], acts[i - 1]);
    if acts[i - 1] == MergeNoted {
      j := i - 1;
    } else {
      j := FindNote(states, acts, i - 1);
    }
  }

  // ------------------------------------------------ every integration

  /**
   A run left `integrating` by a crash at any step is classified by that step. It is F exactly when
   it re-integrates and the watcher noted a merge after the run's last checkpoint.
   */
  lemma CrashIsClassified(states: seq<State>, acts: seq<Action>, i: nat)
    requires IsRun(states, acts) && i < |acts| && acts[i] == Crash
    requires states[i].holder.Running? && states[i].db.status == Integrating
    ensures var r := states[i].holder.run;
            var dead := states[i + 1];
            && dead.holder.Free? && dead.db == states[i].db
            && (CaseOf(dead.db) == F <==> exists j :: NotedSince(states, acts, j, i))
            && (CaseOf(dead.db) != F ==> CaseOf(dead.db) == CaseAt(Blamed(r), r.mode))
            && (CaseOf(dead.db) == F ==> r.mode.Reintegration?)
  {
    var s := states[i];
    RunsKeepInv(states, acts, i);
    if s.db.marker == MergeDetected {
      var j := FindNote(states, acts, i);
      RunsKeepUnwatched(states, acts, i);
    } else {
      RunCase(s, s.holder.run);
    }
  }

  lemma PollsStartOutside(s: State, a: Action)
    requires Enabled(s, a) && s.db.status == Integrating
    ensures InFlight(Apply(s, a)) <= InFlight(s)
  {}

  /** Polls in flight while `integrating` were in flight when the Ticket entered. */
  lemma InFlightSinceEntry(states: seq<State>, acts: seq<Action>, e: nat, j: nat)
    requires IsRun(states, acts) && e <= j < |states|
    requires forall k :: e <= k <= j ==> states[k].db.status == Integrating
    ensures InFlight(states[j]) <= InFlight(states[e])
  {
    forall k | e < k <= j
      ensures InFlight(states[k]) <= InFlight(states[k - 1])
    {
      PollsDwindle(states, acts, k - 1);
    }
    Dwindles(states, e, j);
  }

  lemma {:induction false} Dwindles(states: seq<State>, e: nat, j: nat)
    requires e <= j < |states| && forall k :: e < k <= j ==> InFlight(states[k]) <= InFlight(states[k - 1])
    ensures InFlight(states[j]) <= InFlight(states[e])
    decreases j
  {
    if e < j {
      Dwindles(states, e, j - 1);
    }
  }

  lemma PollsDwindle(states: seq<State>, acts: seq<Action>, k: nat)
    requires IsRun(states, acts) && k < |acts| && states[k].db.status == Integrating
    ensures InFlight(states[k + 1]) <= InFlight(states[k])
  {
    PollsStartOutside(states[k], acts[k]);
  }

  lemma StepsStartPolls(s: State, a: Action)
    requires Enabled(s, a) && a != PollReads
    ensures InFlight(Apply(s, a)) <= InFlight(s)
  {}

  lemma {:induction false} FindPoll(states: seq<State>, acts: seq<Action>, i: nat) returns (b: nat)
    requires IsRun(states, acts) && i < |states| && InFlight(states[i]) > 0
    ensures b < i && acts[b] == PollReads
  {
    assert i > 0;
    if acts[i - 1] == PollReads {
      b := i - 1;
    } else {
      StepsStartPolls(states[i - 1], acts[i - 1]);
      b := FindPoll(states, acts, i - 1);
    }
  }

  /** A note that lands on an `integrating` Ticket comes from a poll that read it before it entered. */
  lemma NotePollPredatesEntry(states: seq<State>, acts: seq<Action>, e: nat, j: nat) returns (b: nat)
    requires IsRun(states, acts) && e <= j < |acts| && acts[j] == MergeNoted
    requires forall k :: e <= k <= j ==> states[k].db.status == Integrating
    ensures b < e && acts[b] == PollReads && InFlight(states[e]) > 0
  {
    InFlightSinceEntry(states, acts, e, j);
    b := FindPoll(states, acts, e);
  }

  /** A run that enters with its own checkpoint and no poll in flight is never F, wherever it crashes. */
  lemma QuietEntryIsNeverF(states: seq<State>, acts: seq<Action>, e: nat, i: nat)
    requires IsRun(states, acts) && e <= i < |acts| && acts[i] == Crash && states[i].holder.Running?
    requires forall k :: e <= k <= i ==> states[k].db.status == Integrating
    requires InFlight(states[e]) == 0 && states[e].db.marker != MergeDetected
    ensures CaseOf(states[i + 1].db) != F
  {
    CrashIsClassified(states, acts, i);
    if j :| NotedSince(states, acts, j, i) {
      assert e <= j;
      var _ := NotePollPredatesEntry(states, acts, e, j);
    }
  }

  /**
   The exception is real: whenever a re-integration is about to enter `integrating`, a poll may read
   the Ticket first and note its merge after the entry; a crash is then F.
   */
  lemma MergeNoteHidesCheckpoint(s: State)
    requires Inv(s) && s.holder.Running? && s.holder.run.pc == EnterIntegrating
    requires s.holder.run.mode.Reintegration? && s.db.status == ReadyForIntegration
    ensures Enabled(s, PollReads)
    ensures var read := Apply(s, PollReads);
            Enabled(read, MergeRecorded) &&
            var recorded := Apply(read, MergeRecorded);
            var entered := Apply(recorded, StepRun(Returns(Done)));
            Enabled(entered, MergeNoted) &&
            var noted := Apply(entered, MergeNoted);
            Enabled(noted, Crash) &&
            var dead := Apply(noted, Crash);
            dead.db.status == Integrating && CaseOf(dead.db) == F
  {}
}
