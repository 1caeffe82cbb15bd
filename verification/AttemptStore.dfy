/** `AttemptStore` (attempt_store.py): the calls themselves, on tables updated in place. */
module AttemptStore {
  import opened Common
  import opened Text
  import opened AttemptLedger

  /** The statuses an Attempt can have. */
  predicate Allowed(status: string)
  {
    status in {
      "created", "preparing", "implementing", "validating", "waiting_approval", "validation_failed",
      "execution_timeout", "execution_aborted", "blocked", "completed", "failed", "canceled"}
  }

  /** One more than every number of the Task, and no gap. */
  ghost predicate IsNext(attempts: map<Id, Attempt>, task: Id, n: nat)
  {
    && n > 0 && (forall a :: a in attempts && attempts[a].task == task ==> attempts[a].number < n)
    && (n > 1 ==> exists a :: a in attempts && attempts[a].task == task && attempts[a].number == n - 1)
  }

  lemma NextIsNext(attempts: map<Id, Attempt>, task: Id)
    ensures IsNext(attempts, task, MaxOf(NumbersOf(attempts, task)) + 1)
  {
    forall a | a in attempts && attempts[a].task == task
      ensures attempts[a].number <= MaxOf(NumbersOf(attempts, task))
    {
      assert attempts[a].number in NumbersOf(attempts, task);
    }
  }

  /** A creation, written out. */
  lemma CreatedMeans(db: Db, task: Id, id: Id, status: string, reason: string)
    ensures var op := Create(task, id, status, reason);
            var t := After(db, op);
            && (ErrorOf(db, op).None? <==>
                  && Allowed(Stripped(status)) && Stripped(id) != "" && Stripped(reason) != "" && id !in db.attempts
                  && task in db.activeId && db.activeId[task].None?
                  && forall a :: a in db.attempts && db.attempts[a].task == task ==> !db.attempts[a].active)
            && (ErrorOf(db, op).Some? ==> t == db)
            && (ErrorOf(db, op) == Some(InvalidStatus) <==> !Allowed(Stripped(status)))
            && (ErrorOf(db, op) == Some(TaskNotFound) ==> task !in db.activeId)
            && (ErrorOf(db, op) == Some(DuplicateId) ==> id in db.attempts)
            && (ErrorOf(db, op) == Some(ActiveExists) ==>
                  task in db.activeId
                  && (db.activeId[task].Some?
                      || exists a :: a in db.attempts && db.attempts[a].task == task && db.attempts[a].active))
            && (ErrorOf(db, op).None? ==>
                  && t.activeId == db.activeId[task := Some(id)]
                  && id in t.attempts && t.attempts == db.attempts[id := t.attempts[id]]
                  && t.attempts[id].task == task && t.attempts[id].status == Stripped(status) && t.attempts[id].active
                  && IsNext(db.attempts, task, t.attempts[id].number)
                  && t.log == db.log + [Event(task, id, None, Stripped(status), Stripped(reason))])
  {
    NextIsNext(db.attempts, task);
  }

  /** A close, written out. */
  lemma ClosedMeans(db: Db, id: Id, status: string, reason: string)
    requires ActiveRowsAgree(db)
    ensures var op := Close(id, status, reason);
            var t := After(db, op);
            && (ErrorOf(db, op).None? <==>
                  Allowed(Stripped(status)) && Stripped(reason) != "" && id in db.attempts && db.attempts[id].active)
            && (ErrorOf(db, op).Some? ==> t == db)
            && (ErrorOf(db, op) == Some(InvalidStatus) <==> !Allowed(Stripped(status)))
            && (ErrorOf(db, op) == Some(AttemptNotFound) ==> id !in db.attempts)
            && (ErrorOf(db, op) == Some(NotActive) ==> id in db.attempts && !db.attempts[id].active)
            && (ErrorOf(db, op).None? ==>
                  var row := db.attempts[id];
                  && t.activeId == db.activeId[row.task := None]
                  && t.attempts == db.attempts[id := Attempt(row.task, row.number, Stripped(status), false)]
                  && t.log == db.log + [Event(row.task, id, Some(row.status), Stripped(status), Stripped(reason))])
  {
  }

  class Store {
    var activeId: map<Id, Option<Id>>
    var attempts: map<Id, Attempt>
    var log: seq<Event>

    ghost function Contents(): Db
      reads this
    {
      Db(activeId, attempts, log)
    }

    constructor (tasks: set<Id>)
      ensures Fresh(Contents()) && activeId.Keys == tasks && Inv(Contents())
    {
      activeId := map t | t in tasks :: None;
      attempts := map[];
      log := [];
      new;
      FreshInv(Contents());
    }

    /** `SELECT COALESCE(MAX(attempt_number), 0) + 1`. */
    method NextNumber(task: Id) returns (next: nat)
      ensures next == MaxOf(NumbersOf(attempts, task)) + 1
    {
      var highest: nat := 0;
      var rest := attempts.Keys;
      while rest != {}
        invariant rest <= attempts.Keys
        invariant forall a :: a in attempts && a !in rest && attempts[a].task == task ==> attempts[a].number <= highest
        invariant highest == 0 || highest in NumbersOf(attempts, task)
      {
        var a :| a in rest;
        if attempts[a].task == task && attempts[a].number > highest {
          highest := attempts[a].number;
        }
        rest := rest - {a};
      }
      if NumbersOf(attempts, task) != {} && highest == 0 {
        ghost var n :| n in NumbersOf(attempts, task);
        assert n == 0;
      }
      MaxIs(NumbersOf(attempts, task), highest);
      return highest + 1;
    }

    method CreateAttempt(task: Id, id: Id, status: string, reason: string) returns (error: Option<Error>)
      requires Inv(Contents())
      modifies this
      ensures Contents() == After(old(Contents()), Create(task, id, status, reason)) && Inv(Contents())
      ensures error == ErrorOf(old(Contents()), Create(task, id, status, reason))
      ensures error.Some? ==> activeId == old(activeId) && attempts == old(attempts) && log == old(log)
      ensures error.None? ==>
                && activeId == old(activeId)[task := Some(id)]
                && id in attempts && attempts == old(attempts)[id := attempts[id]]
                && attempts[id].task == task && attempts[id].status == Stripped(status) && attempts[id].active
                && log == old(log) + [Event(task, id, None, Stripped(status), Stripped(reason))]
    {
      StepKeepsInv(Contents(), Create(task, id, status, reason));
      CreatedMeans(Contents(), task, id, status, reason);
      error := CheckCreate(task, id, status, reason);
      if error.None? {
        InsertAttempt(task, id, status, reason);
      }
    }

    /** The refusals of `create_attempt`, in order; a duplicate id is the insert's own. */
    method CheckCreate(task: Id, id: Id, status: string, reason: string) returns (error: Option<Error>)
      ensures error == ErrorOf(Contents(), Create(task, id, status, reason))
    {
      if Stripped(status) !in AttemptStatuses {
        return Some(InvalidStatus);
      }
      if Stripped(id) == "" {
        return Some(EmptyText);
      }
      if task !in activeId {
        return Some(TaskNotFound);
      }
      if activeId[task].Some? || HasActive(attempts, task) {
        return Some(ActiveExists);
      }
      if id in attempts {
        return Some(DuplicateId);
      }
      return if Stripped(reason) == "" then Some(EmptyText) else None;
    }

    /** The three writes of `create_attempt`. */
    method InsertAttempt(task: Id, id: Id, status: string, reason: string)
      requires ErrorOf(Contents(), Create(task, id, status, reason)).None?
      modifies this
      ensures Contents() == After(old(Contents()), Create(task, id, status, reason))
    {
      var number := NextNumber(task);
      attempts := attempts[id := Attempt(task, number, Stripped(status), true)];
      activeId := activeId[task := Some(id)];
      log := log + [Event(task, id, None, Stripped(status), Stripped(reason))];
    }

    method CloseAttempt(id: Id, status: string, reason: string) returns (error: Option<Error>)
      requires Inv(Contents())
      modifies this
      ensures Contents() == After(old(Contents()), Close(id, status, reason)) && Inv(Contents())
      ensures error == ErrorOf(old(Contents()), Close(id, status, reason))
      ensures error.Some? ==> activeId == old(activeId) && attempts == old(attempts) && log == old(log)
      ensures error.None? ==>
                var row := old(attempts)[id];
                && activeId == old(activeId)[row.task := None]
                && attempts == old(attempts)[id := Attempt(row.task, row.number, Stripped(status), false)]
                && log == old(log) + [Event(row.task, id, Some(row.status), Stripped(status), Stripped(reason))]
    {
      StepKeepsInv(Contents(), Close(id, status, reason));
      ClosedMeans(Contents(), id, status, reason);
      error := CheckClose(id, status, reason);
      if error.Some? {
        return;
      }
      UpdateAttempt(id, Stripped(status), Stripped(reason));
    }

    /** The three writes of `close_attempt`. */
    method UpdateAttempt(id: Id, status: string, reason: string)
      requires id in attempts
      modifies this
      ensures var row := old(attempts)[id];
              && activeId == old(activeId)[row.task := None]
              && attempts == old(attempts)[id := Attempt(row.task, row.number, status, false)]
              && log == old(log) + [Event(row.task, id, Some(row.status), status, reason)]
    {
      var row := attempts[id];
      attempts := attempts[id := row.(status := status, active := false)];
      activeId := activeId[row.task := None];
      log := log + [Event(row.task, id, Some(row.status), status, reason)];
    }

    /** The refusals of `close_attempt`, in order. */
    method CheckClose(id: Id, status: string, reason: string) returns (error: Option<Error>)
      ensures error == ErrorOf(Contents(), Close(id, status, reason))
    {
      if Stripped(status) !in AttemptStatuses {
        return Some(InvalidStatus);
      }
      if id !in attempts || attempts[id].task !in activeId {
        return Some(AttemptNotFound);
      }
      if !attempts[id].active || activeId[attempts[id].task] != Some(id) {
        return Some(NotActive);
      }
      return if Stripped(reason) == "" then Some(EmptyText) else None;
    }
  }
}
