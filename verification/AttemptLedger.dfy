/**
 Attempts and their append-only lifecycle log (attempt_store.py, attempt_schema.py):
 what every sequence of creations and closes keeps.
 */
module AttemptLedger {
  import opened Common
  import opened Text

  type Id = string

  datatype Attempt = Attempt(task: Id, number: nat, status: string, active: bool)

  datatype Event = Event(task: Id, attempt: Id, source: Option<string>, target: string, reason: string)

  /** `activeId` is `tasks.active_attempt_id`, for every Task there is. */
  datatype Db = Db(activeId: map<Id, Option<Id>>, attempts: map<Id, Attempt>, log: seq<Event>)

  datatype Op =
    | Create(task: Id, id: Id, status: string, reason: string)
    | Close(id: Id, status: string, reason: string)

  datatype Error = InvalidStatus | EmptyText | TaskNotFound | ActiveExists | DuplicateId | AttemptNotFound | NotActive

  const AttemptStatuses: set<string> := {
    "created", "preparing", "implementing", "validating", "waiting_approval", "validation_failed",
    "execution_timeout", "execution_aborted", "blocked", "completed", "failed", "canceled"}

  // ---------------------------------------------------------------- operations

  function NumbersOf(attempts: map<Id, Attempt>, task: Id): set<nat>
  {
    set a | a in attempts && attempts[a].task == task :: attempts[a].number
  }

  ghost predicate IsMax(numbers: set<nat>, m: nat)
  {
    (forall n :: n in numbers ==> n <= m) && (m in numbers || (m == 0 && numbers == {}))
  }

  /** `COALESCE(MAX(n), 0)`. */
  ghost function MaxOf(numbers: set<nat>): (m: nat)
    ensures IsMax(numbers, m)
  {
    if numbers == {} then 0
    else
      var n :| n in numbers;
      var rest := MaxOf(numbers - {n});
      assert forall k :: k in numbers ==> k == n || k in numbers - {n};
      if n > rest then n else rest
  }

  predicate HasActive(attempts: map<Id, Attempt>, task: Id)
  {
    exists a :: a in attempts && attempts[a].task == task && attempts[a].active
  }

  /** Why a call is refused; a refused call's transaction changes nothing. */
  function ErrorOf(db: Db, op: Op): Option<Error>
  {
    if Stripped(op.status) !in AttemptStatuses then Some(InvalidStatus)
    else
      match op
      case Create(task, id, _, reason) =>
        if Stripped(id) == "" then Some(EmptyText)
        else if task !in db.activeId then Some(TaskNotFound)
        else if db.activeId[task].Some? || HasActive(db.attempts, task) then Some(ActiveExists)
        else if id in db.attempts then Some(DuplicateId)
        else if Stripped(reason) == "" then Some(EmptyText)
        else None
      case Close(id, _, reason) =>
        if id !in db.attempts || db.attempts[id].task !in db.activeId then Some(AttemptNotFound)
        else if !db.attempts[id].active || db.activeId[db.attempts[id].task] != Some(id) then Some(NotActive)
        else if Stripped(reason) == "" then Some(EmptyText)
        else None
  }

  /** The row a successful call writes. */
  ghost function NewRow(db: Db, op: Op): Attempt
    requires ErrorOf(db, op).None?
  {
    match op
    case Create(task, _, status, _) => Attempt(task, MaxOf(NumbersOf(db.attempts, task)) + 1, Stripped(status), true)
    case Close(id, status, _) => db.attempts[id].(status := Stripped(status), active := false)
  }

  /** The event a successful call appends. */
  function NewEvent(db: Db, op: Op): Event
    requires ErrorOf(db, op).None?
  {
    match op
    case Create(task, id, status, reason) => Event(task, id, None, Stripped(status), Stripped(reason))
    case Close(id, status, reason) =>
      Event(db.attempts[id].task, id, Some(db.attempts[id].status), Stripped(status), Stripped(reason))
  }

  /** The database after one call. */
  ghost function After(db: Db, op: Op): Db
  {
    if ErrorOf(db, op).Some? then db
    else
      var row := NewRow(db, op);
      Db(db.activeId[row.task := if op.Create? then Some(op.id) else None],
         db.attempts[op.id := row],
         db.log + [NewEvent(db, op)])
  }

  ghost function Run(db: Db, ops: seq<Op>): Db
    decreases |ops|
  {
    if ops == [] then db else Run(After(db, ops[0]), ops[1..])
  }

  /** Tasks there are, before any Attempt. */
  predicate Fresh(db: Db)
  {
    db.attempts == map[] && db.log == [] && forall t :: t in db.activeId ==> db.activeId[t].None?
  }

  // ---------------------------------------------------------------- the log of one Attempt

  /** The Attempt's events, in order. */
  function LogOf(log: seq<Event>, id: Id): seq<Event>
  {
    if log == [] then []
    else
      var rest, e := LogOf(log[..|log| - 1], id), log[|log| - 1];
      if e.attempt == id then rest + [e] else rest
  }

  lemma LogOfAppended(log: seq<Event>, e: Event, id: Id)
    ensures LogOf(log + [e], id) == LogOf(log, id) + if e.attempt == id then [e] else []
  {
    assert (log + [e])[..|log|] == log;
  }

  /** Each event starts where the one before it ended, and the last ends at the row's status. */
  predicate Continuous(events: seq<Event>, status: string)
  {
    && events != [] && events[0].source.None? && events[|events| - 1].target == status
    && forall i :: 0 < i < |events| ==> events[i].source == Some(events[i - 1].target)
  }

  // ---------------------------------------------------------------- invariant

  /** `activeId` names the Task's one active Attempt, or is null when none is active. */
  predicate ActiveRowsAgree(db: Db)
  {
    && (forall t :: t in db.activeId && db.activeId[t].Some? ==>
          && db.activeId[t].value in db.attempts
          && db.attempts[db.activeId[t].value].task == t && db.attempts[db.activeId[t].value].active)
    && forall a :: a in db.attempts ==>
         && db.attempts[a].task in db.activeId
         && (db.attempts[a].active ==> db.activeId[db.attempts[a].task] == Some(a))
  }

  /** A Task's numbers are exactly 1 to the highest. */
  ghost predicate Dense(attempts: map<Id, Attempt>, task: Id)
  {
    forall n: nat :: n in NumbersOf(attempts, task) <==> 1 <= n <= MaxOf(NumbersOf(attempts, task))
  }

  ghost predicate Numbered(attempts: map<Id, Attempt>)
  {
    && (forall a, b :: a in attempts && b in attempts && a != b && attempts[a].task == attempts[b].task ==>
          attempts[a].number != attempts[b].number)
    && forall t :: Dense(attempts, t)
  }

  /** Every event belongs to its Attempt's Task, and every Attempt's log leads to its row. */
  predicate LogsAgree(db: Db)
  {
    && (forall i :: 0 <= i < |db.log| ==>
          db.log[i].attempt in db.attempts && db.log[i].task == db.attempts[db.log[i].attempt].task)
    && forall a :: a in db.attempts ==> LogAgrees(db.log, a, db.attempts[a])
  }

  ghost predicate Inv(db: Db)
  {
    ActiveRowsAgree(db) && Numbered(db.attempts) && LogsAgree(db)
  }

  lemma FreshInv(db: Db)
    requires Fresh(db)
    ensures Inv(db)
  {
    forall t ensures Dense(db.attempts, t) {
      assert NumbersOf(db.attempts, t) == {};
    }
  }

  lemma MaxIs(numbers: set<nat>, m: nat)
    requires IsMax(numbers, m)
    ensures MaxOf(numbers) == m
  {
  }

  lemma CreateKeepsNumbers(attempts: map<Id, Attempt>, id: Id, row: Attempt)
    requires Numbered(attempts) && id !in attempts && row.number == MaxOf(NumbersOf(attempts, row.task)) + 1
    ensures Numbered(attempts[id := row])
  {
    var now := attempts[id := row];
    forall t ensures Dense(now, t) {
      CreateKeepsDense(attempts, id, row, t);
    }
    forall a | a in attempts && attempts[a].task == row.task
      ensures attempts[a].number != row.number
    {
      assert attempts[a].number in NumbersOf(attempts, row.task);
    }
  }

  lemma CreateKeepsDense(attempts: map<Id, Attempt>, id: Id, row: Attempt, t: Id)
    requires Dense(attempts, t) && id !in attempts && row.number == MaxOf(NumbersOf(attempts, row.task)) + 1
    ensures Dense(attempts[id := row], t)
  {
    NumbersAfterCreate(attempts, id, row);
    if t == row.task {
      MaxIs(NumbersOf(attempts[id := row], t), row.number);
    }
  }

  lemma NumbersAfterCreate(attempts: map<Id, Attempt>, id: Id, row: Attempt)
    requires id !in attempts
    ensures NumbersOf(attempts[id := row], row.task) == NumbersOf(attempts, row.task) + {row.number}
    ensures forall t :: t != row.task ==> NumbersOf(attempts[id := row], t) == NumbersOf(attempts, t)
  {
    var now := attempts[id := row];
    forall n | n in NumbersOf(attempts, row.task) + {row.number}
      ensures n in NumbersOf(now, row.task)
    {
      if n in NumbersOf(attempts, row.task) {
        var a :| a in attempts && attempts[a].task == row.task && attempts[a].number == n;
        assert a in now && now[a] == attempts[a];
      } else {
        assert now[id].number == n;
      }
    }
    forall t | t != row.task
      ensures NumbersOf(now, t) == NumbersOf(attempts, t)
    {
      SameNumbers(attempts, now, t);
    }
  }

  /** Rows of the Task with the same numbers on both sides give the same numbers. */
  lemma SameNumbers(x: map<Id, Attempt>, y: map<Id, Attempt>, t: Id)
    requires forall a :: a in x && x[a].task == t ==> a in y && y[a].task == t && y[a].number == x[a].number
    requires forall a :: a in y && y[a].task == t ==> a in x && x[a].task == t && x[a].number == y[a].number
    ensures NumbersOf(x, t) == NumbersOf(y, t)
  {
    forall n | n in NumbersOf(x, t) ensures n in NumbersOf(y, t) {
      var a :| a in x && x[a].task == t && x[a].number == n;
      assert a in y && y[a].number == n;
    }
    forall n | n in NumbersOf(y, t) ensures n in NumbersOf(x, t) {
      var a :| a in y && y[a].task == t && y[a].number == n;
      assert a in x && x[a].number == n;
    }
  }

  lemma CloseKeepsNumbers(attempts: map<Id, Attempt>, id: Id, row: Attempt)
    requires Numbered(attempts) && id in attempts
    requires row.task == attempts[id].task && row.number == attempts[id].number
    ensures Numbered(attempts[id := row])
  {
    var now := attempts[id := row];
    forall t ensures Dense(now, t) {
      assert Dense(attempts, t);
      SameNumbers(attempts, now, t);
    }
  }

  predicate LogAgrees(log: seq<Event>, id: Id, row: Attempt)
  {
    Continuous(LogOf(log, id), row.status) && |LogOf(log, id)| == if row.active then 1 else 2
  }

  /** The Attempt the call is about. */
  lemma OwnLog(db: Db, op: Op)
    requires LogsAgree(db) && ErrorOf(db, op).None?
    ensures LogAgrees(db.log + [NewEvent(db, op)], op.id, NewRow(db, op))
  {
    LogOfAppended(db.log, NewEvent(db, op), op.id);
    if op.Create? {
      NoEvents(db.log, op.id);
    } else {
      assert LogAgrees(db.log, op.id, db.attempts[op.id]);
    }
  }

  lemma OtherLog(db: Db, op: Op, a: Id)
    requires LogsAgree(db) && ErrorOf(db, op).None? && a in db.attempts && a != op.id
    ensures LogAgrees(db.log + [NewEvent(db, op)], a, db.attempts[a])
  {
    LogOfAppended(db.log, NewEvent(db, op), a);
    assert LogAgrees(db.log, a, db.attempts[a]);
    assert LogOf(db.log + [NewEvent(db, op)], a) == LogOf(db.log, a);
  }

  lemma StepKeepsLogs(db: Db, op: Op)
    requires LogsAgree(db) && ErrorOf(db, op).None?
    ensures LogsAgree(After(db, op))
  {
    var next := After(db, op);
    OwnLog(db, op);
    forall a | a in next.attempts
      ensures LogAgrees(next.log, a, next.attempts[a])
    {
      if a != op.id {
        OtherLog(db, op, a);
      }
    }
  }

  /** An Attempt with no event in the log has an empty log. */
  lemma {:induction false} NoEvents(log: seq<Event>, id: Id)
    requires forall i :: 0 <= i < |log| ==> log[i].attempt != id
    ensures LogOf(log, id) == []
  {
    if log != [] {
      NoEvents(log[..|log| - 1], id);
    }
  }

  lemma StepKeepsActiveRows(db: Db, op: Op)
    requires ActiveRowsAgree(db) && ErrorOf(db, op).None?
    ensures ActiveRowsAgree(After(db, op))
  {
  }

  lemma StepKeepsInv(db: Db, op: Op)
    requires Inv(db)
    ensures Inv(After(db, op))
  {
    if ErrorOf(db, op).None? {
      StepKeepsActiveRows(db, op);
      StepKeepsLogs(db, op);
      if op.Create? {
        CreateKeepsNumbers(db.attempts, op.id, NewRow(db, op));
      } else {
        CloseKeepsNumbers(db.attempts, op.id, NewRow(db, op));
      }
    }
  }

  // ---------------------------------------------------------------- every run

  lemma {:induction false} RunsKeepInv(db: Db, ops: seq<Op>)
    requires Inv(db)
    ensures Inv(Run(db, ops))
    decreases |ops|
  {
    if ops != [] {
      StepKeepsInv(db, ops[0]);
      RunsKeepInv(After(db, ops[0]), ops[1..]);
    }
  }

  /** Over every sequence of calls, a Task's `activeId` is null or names its only active Attempt. */
  lemma OneActiveAttempt(start: Db, ops: seq<Op>, t: Id)
    requires Fresh(start) && t in Run(start, ops).activeId
    ensures var db := Run(start, ops);
            match db.activeId[t]
            case None => !HasActive(db.attempts, t)
            case Some(id) => forall a :: (a in db.attempts && db.attempts[a].task == t && db.attempts[a].active) <==> a == id
  {
    FreshInv(start);
    RunsKeepInv(start, ops);
  }

  ghost predicate HasNumber(attempts: map<Id, Attempt>, mine: set<Id>, n: nat)
  {
    exists a :: a in mine && a in attempts && attempts[a].number == n
  }

  function AttemptsOf(db: Db, t: Id): set<Id>
  {
    set a | a in db.attempts && db.attempts[a].task == t
  }

  /** Over every sequence of calls, a Task's Attempts are numbered exactly 1 to n, each once. */
  lemma NumbersAreDense(start: Db, ops: seq<Op>, t: Id)
    requires Fresh(start)
    ensures var db := Run(start, ops);
            var mine := AttemptsOf(db, t);
            && (forall n: nat :: HasNumber(db.attempts, mine, n) <==> 1 <= n <= |mine|)
            && forall a, b :: a in mine && b in mine && db.attempts[a].number == db.attempts[b].number ==> a == b
  {
    FreshInv(start);
    RunsKeepInv(start, ops);
    DenseCount(Run(start, ops), t);
  }

  lemma DenseCount(db: Db, t: Id)
    requires Numbered(db.attempts)
    ensures var mine := AttemptsOf(db, t);
            forall n: nat :: HasNumber(db.attempts, mine, n) <==> 1 <= n <= |mine|
  {
    var mine, numbers := AttemptsOf(db, t), NumbersOf(db.attempts, t);
    var m := MaxOf(numbers);
    assert Dense(db.attempts, t);
    forall n: nat ensures HasNumber(db.attempts, mine, n) <==> n in numbers {
    }
    forall a | a in mine ensures 1 <= db.attempts[a].number <= m {
      assert db.attempts[a].number in numbers;
    }
    CountNumbers(db.attempts, mine, m);
  }

  /** Distinct numbers that are exactly 1 to m belong to m Attempts. */
  lemma {:induction false} CountNumbers(attempts: map<Id, Attempt>, mine: set<Id>, m: nat)
    requires forall a :: a in mine ==> a in attempts && 1 <= attempts[a].number <= m
    requires forall a, b :: a in mine && b in mine && attempts[a].number == attempts[b].number ==> a == b
    requires forall n: nat :: 1 <= n <= m ==> HasNumber(attempts, mine, n)
    ensures |mine| == m
    decreases m
  {
    if m > 0 {
      assert HasNumber(attempts, mine, m);
      var top :| top in mine && attempts[top].number == m;
      var rest := mine - {top};
      forall n: nat | 1 <= n <= m - 1
        ensures HasNumber(attempts, rest, n)
      {
        assert HasNumber(attempts, mine, n);
        var a :| a in mine && attempts[a].number == n;
        assert a in rest;
      }
      CountNumbers(attempts, rest, m - 1);
    } else {
      assert mine == {};
    }
  }

  /** The log only grows, and rows are never removed. */
  lemma {:induction false} LogOnlyGrows(db: Db, ops: seq<Op>)
    ensures db.log <= Run(db, ops).log
    ensures db.attempts.Keys <= Run(db, ops).attempts.Keys
    ensures forall a :: a in db.attempts ==>
        Run(db, ops).attempts[a].task == db.attempts[a].task && Run(db, ops).attempts[a].number == db.attempts[a].number
    decreases |ops|
  {
    if ops != [] {
      var next := After(db, ops[0]);
      LogOnlyGrows(next, ops[1..]);
      assert forall a :: a in db.attempts ==> a in next.attempts && next.attempts[a].task == db.attempts[a].task
                                              && next.attempts[a].number == db.attempts[a].number;
    }
  }
}
