/**
 `lifecycle_log_errors` (concurrency_rehearsal.py): replaying every Attempt's
 events against a transition graph, and what the replay says of the store's own runs.
 */
module LifecycleReplay {
  import opened Common
  import opened Text
  import opened AttemptLedger

  /** Any transition table: where Attempts may begin, the plain edges, and the edges one reason allows. */
  datatype Graph = Graph(
    creation: set<string>,
    edges: set<(string, string)>,
    recovery: map<(string, string), string>
  )

  predicate LegalEdge(g: Graph, e: Event)
  {
    && e.source.Some?
    && (|| e.source.value == e.target
        || (e.source.value, e.target) in g.edges
        || ((e.source.value, e.target) in g.recovery && g.recovery[(e.source.value, e.target)] == e.reason))
  }

  predicate LegalStep(g: Graph, events: seq<Event>, i: nat)
    requires 0 < i < |events|
  {
    events[i].source == Some(events[i - 1].target) && LegalEdge(g, events[i])
  }

  /** A walk of the graph from a creation status to `status`. */
  predicate LegalWalk(g: Graph, events: seq<Event>, status: string)
  {
    && events != [] && events[0].target in g.creation && events[|events| - 1].target == status
    && forall i :: 0 < i < |events| ==> LegalStep(g, events, i)
  }

  predicate AllWalks(g: Graph, db: Db)
  {
    forall a :: a in db.attempts ==> LegalWalk(g, LogOf(db.log, a), db.attempts[a].status)
  }

  // ---------------------------------------------------------------- the replay

  datatype Finding =
    | NoEvents(attempt: Id)
    | BadCreation(attempt: Id)
    | Discontinuous(attempt: Id, at: nat)
    | Illegal(attempt: Id, at: nat)
    | WrongEnd(attempt: Id)

  method ReplayAttempt(g: Graph, id: Id, events: seq<Event>, status: string) returns (findings: seq<Finding>)
    ensures findings == [] <==> LegalWalk(g, events, status)
    ensures forall f :: f in findings ==> f.attempt == id
    ensures NoEvents(id) in findings <==> events == []
    ensures BadCreation(id) in findings <==> events != [] && events[0].target !in g.creation
    ensures WrongEnd(id) in findings <==> events != [] && events[|events| - 1].target != status
    ensures forall i :: 0 < i < |events| ==> StepReported(g, id, events, findings, i)
  {
    if events == [] {
      return [NoEvents(id)];
    }
    findings := [];
    if events[0].target !in g.creation {
      findings := findings + [BadCreation(id)];
    }
    var previous := events[0].target;
    for i := 1 to |events|
      invariant previous == events[i - 1].target
      invariant forall f :: f in findings ==> f.attempt == id && FoundBefore(f, i)
      invariant BadCreation(id) in findings <==> events[0].target !in g.creation
      invariant forall j :: 0 < j < i ==> StepReported(g, id, events, findings, j)
      invariant findings == []
                <==> events[0].target in g.creation && forall j :: 0 < j < i ==> LegalStep(g, events, j)
    {
      var more := ReplayStep(g, id, events, i, previous);
      ghost var before := findings;
      findings := findings + more;
      forall j | 0 < j < i
        ensures StepReported(g, id, events, findings, j)
      {
        assert StepReported(g, id, events, before, j);
      }
      previous := events[i].target;
    }
    ghost var replayed := findings;
    if previous != status {
      findings := findings + [WrongEnd(id)];
    }
    forall i | 0 < i < |events|
      ensures StepReported(g, id, events, findings, i)
    {
      assert StepReported(g, id, events, replayed, i);
    }
  }

  predicate FoundBefore(f: Finding, i: nat)
  {
    f.BadCreation? || ((f.Discontinuous? || f.Illegal?) && 0 < f.at < i)
  }

  /** The step's findings are those it deserves. */
  predicate StepReported(g: Graph, id: Id, events: seq<Event>, findings: seq<Finding>, i: nat)
    requires 0 < i < |events|
  {
    && (Discontinuous(id, i) in findings <==> events[i].source != Some(events[i - 1].target))
    && (Illegal(id, i) in findings <==> !LegalEdge(g, events[i]))
  }

  /** One event of the replay. */
  method ReplayStep(g: Graph, id: Id, events: seq<Event>, i: nat, previous: string) returns (more: seq<Finding>)
    requires 0 < i < |events| && previous == events[i - 1].target
    ensures more == [] <==> LegalStep(g, events, i)
    ensures StepReported(g, id, events, more, i)
    ensures forall f :: f in more ==> f == Discontinuous(id, i) || f == Illegal(id, i)
  {
    var e := events[i];
    more := [];
    if e.source != Some(previous) {
      more := more + [Discontinuous(id, i)];
    }
    var legal :=
      e.source.Some? &&
      (|| e.source.value == e.target
       || (e.source.value, e.target) in g.edges
       || ((e.source.value, e.target) in g.recovery && g.recovery[(e.source.value, e.target)] == e.reason));
    if !legal {
      more := more + [Illegal(id, i)];
    }
  }

  ghost predicate Names(findings: seq<Finding>, id: Id)
  {
    exists f :: f in findings && f.attempt == id
  }

  method EventsOf(log: seq<Event>, id: Id) returns (events: seq<Event>)
    ensures events == LogOf(log, id)
  {
    events := [];
    for i := 0 to |log|
      invariant events == LogOf(log[..i], id)
    {
      assert log[..i + 1] == log[..i] + [log[i]];
      LogOfAppended(log[..i], log[i], id);
      if log[i].attempt == id {
        events := events + [log[i]];
      }
    }
    assert log[..|log|] == log;
  }

  lemma Reported(found: seq<Finding>, more: seq<Finding>, id: Id)
    requires forall f :: f in more ==> f.attempt == id
    ensures forall a :: Names(found + more, a) <==> Names(found, a) || (a == id && more != [])
  {
    forall a ensures Names(found + more, a) <==> Names(found, a) || (a == id && more != []) {
      if f :| f in found && f.attempt == a { assert f in found + more; }
      if a == id && more != [] { assert more[0] in found + more; }
    }
  }

  /** Reports nothing exactly when every log is a legal walk, and otherwise names exactly the Attempts at fault. */
  method LifecycleLogErrors(g: Graph, db: Db) returns (findings: seq<Finding>)
    ensures findings == [] <==> AllWalks(g, db)
    ensures forall a :: Names(findings, a) <==>
              a in db.attempts && !LegalWalk(g, LogOf(db.log, a), db.attempts[a].status)
  {
    findings := [];
    var rest := db.attempts.Keys;
    while rest != {}
      invariant rest <= db.attempts.Keys
      invariant forall a :: Names(findings, a) <==>
                  a in db.attempts && a !in rest && !LegalWalk(g, LogOf(db.log, a), db.attempts[a].status)
    {
      var id :| id in rest;
      var events := EventsOf(db.log, id);
      var more := ReplayAttempt(g, id, events, db.attempts[id].status);
      Reported(findings, more, id);
      findings := findings + more;
      rest := rest - {id};
    }
    if findings != [] {
      assert Names(findings, findings[0].attempt) by { assert findings[0] in findings; }
    }
    if !AllWalks(g, db) {
      ghost var a :| a in db.attempts && !LegalWalk(g, LogOf(db.log, a), db.attempts[a].status);
      assert Names(findings, a);
    }
  }

  // ---------------------------------------------------------------- the store's own runs

  /** The call, if it succeeds, takes an edge of the graph. */
  predicate LegalCall(g: Graph, db: Db, op: Op)
  {
    ErrorOf(db, op).None? ==>
      var target := Stripped(op.status);
      if op.Create? then target in g.creation
      else
        var source := db.attempts[op.id].status;
        || source == target || (source, target) in g.edges
        || ((source, target) in g.recovery && g.recovery[(source, target)] == Stripped(op.reason))
  }

  ghost predicate LegalRun(g: Graph, db: Db, ops: seq<Op>)
    decreases |ops|
  {
    ops == [] || (LegalCall(g, db, ops[0]) && LegalRun(g, After(db, ops[0]), ops[1..]))
  }

  /** Appending a continuing event keeps a walk exactly when its edge is legal. */
  lemma WalkExtends(g: Graph, events: seq<Event>, e: Event, status: string)
    requires events != [] && events[|events| - 1].target == status && e.source == Some(status)
    ensures LegalWalk(g, events + [e], e.target) <==> LegalWalk(g, events, status) && LegalEdge(g, e)
  {
    var more := events + [e];
    assert forall i :: 0 < i < |events| ==> LegalStep(g, more, i) == LegalStep(g, events, i);
    if LegalWalk(g, more, e.target) {
      assert LegalStep(g, more, |events|);
    }
  }

  lemma CreatedWalk(g: Graph, log: seq<Event>, e: Event)
    requires LogOf(log, e.attempt) == []
    ensures LegalWalk(g, LogOf(log + [e], e.attempt), e.target) <==> e.target in g.creation
  {
    LogOfAppended(log, e, e.attempt);
    assert LogOf(log + [e], e.attempt) == [e];
  }

  lemma ClosedWalk(g: Graph, log: seq<Event>, e: Event, row: Attempt)
    requires LogAgrees(log, e.attempt, row) && e.source == Some(row.status)
    ensures LegalWalk(g, LogOf(log + [e], e.attempt), e.target)
            <==> LegalWalk(g, LogOf(log, e.attempt), row.status) && LegalEdge(g, e)
  {
    LogOfAppended(log, e, e.attempt);
    WalkExtends(g, LogOf(log, e.attempt), e, row.status);
  }

  /** The Attempt the call is about stays on the graph exactly when the call does. */
  lemma OwnWalk(g: Graph, db: Db, op: Op)
    requires LogsAgree(db) && ErrorOf(db, op).None?
    ensures var next := After(db, op);
            LegalWalk(g, LogOf(next.log, op.id), next.attempts[op.id].status)
            <==> LegalCall(g, db, op)
                 && (op.Close? ==> LegalWalk(g, LogOf(db.log, op.id), db.attempts[op.id].status))
  {
    if op.Create? {
      AttemptLedger.NoEvents(db.log, op.id);
      CreatedWalk(g, db.log, NewEvent(db, op));
    } else {
      ClosedWalk(g, db.log, NewEvent(db, op), db.attempts[op.id]);
    }
  }

  /** The Attempt's log is a legal walk to its row. */
  predicate Walks(g: Graph, db: Db, a: Id)
    requires a in db.attempts
  {
    LegalWalk(g, LogOf(db.log, a), db.attempts[a].status)
  }

  lemma OtherWalk(g: Graph, db: Db, op: Op, a: Id)
    requires ErrorOf(db, op).None? && a in db.attempts && a != op.id
    ensures a in After(db, op).attempts && (Walks(g, After(db, op), a) <==> Walks(g, db, a))
  {
    LogOfAppended(db.log, NewEvent(db, op), a);
  }

  lemma RowsAfter(db: Db, op: Op, a: Id)
    requires ErrorOf(db, op).None?
    ensures a in After(db, op).attempts <==> a in db.attempts || a == op.id
  {
  }

  lemma StepIsLegal(g: Graph, db: Db, op: Op)
    requires LogsAgree(db)
    ensures AllWalks(g, After(db, op)) <==> AllWalks(g, db) && LegalCall(g, db, op)
  {
    if ErrorOf(db, op).None? {
      RowsAfter(db, op, op.id);
      OwnWalk(g, db, op);
      if AllWalks(g, After(db, op)) {
        StepWasLegal(g, db, op);
      }
      if AllWalks(g, db) && LegalCall(g, db, op) {
        StepStaysLegal(g, db, op);
      }
    }
  }

  lemma StepWasLegal(g: Graph, db: Db, op: Op)
    requires LogsAgree(db) && ErrorOf(db, op).None? && AllWalks(g, After(db, op))
    ensures AllWalks(g, db) && LegalCall(g, db, op)
  {
    RowsAfter(db, op, op.id);
    OwnWalk(g, db, op);
    assert Walks(g, After(db, op), op.id);
    forall a | a in db.attempts
      ensures Walks(g, db, a)
    {
      if a != op.id {
        OtherWalk(g, db, op, a);
        assert Walks(g, After(db, op), a);
      }
    }
  }

  lemma StepStaysLegal(g: Graph, db: Db, op: Op)
    requires LogsAgree(db) && ErrorOf(db, op).None? && AllWalks(g, db) && LegalCall(g, db, op)
    ensures AllWalks(g, After(db, op))
  {
    OwnWalk(g, db, op);
    var next := After(db, op);
    forall a | a in next.attempts
      ensures Walks(g, next, a)
    {
      RowsAfter(db, op, a);
      if a != op.id {
        OtherWalk(g, db, op, a);
        assert Walks(g, db, a);
      }
    }
  }

  /** Over every sequence of calls, the replay is clean exactly when every call that succeeded took a legal edge. */
  lemma {:induction false} ReplayJudgesRuns(g: Graph, db: Db, ops: seq<Op>)
    requires Inv(db)
    ensures AllWalks(g, Run(db, ops)) <==> AllWalks(g, db) && LegalRun(g, db, ops)
    decreases |ops|
  {
    if ops != [] {
      StepKeepsInv(db, ops[0]);
      StepIsLegal(g, db, ops[0]);
      ReplayJudgesRuns(g, After(db, ops[0]), ops[1..]);
    }
  }
}
