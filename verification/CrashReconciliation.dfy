/**
 The reconciliation pass over every Ticket (integration_crash_reconciliation.py),
 which may itself die between any two of its writes and be run again.
 */
module CrashReconciliation {
  import opened Common
  import opened CommitGraph
  import opened IntegrationSchema
  import opened IntegrationProtocol

  /**
   What the pass reads and writes of one Ticket: its rows, the repositories its
   records name, its clone, and the operation its worktree is in.
   */
  datatype Ticket = Ticket(
    status: Status,
    marker: Marker,
    pr: Option<nat>,
    base: Option<Commit>,
    ticketRepo: Option<string>,
    queueRepo: Option<string>,
    prUrlRepo: Option<string>,
    startedRepo: Option<string>,
    clone: Option<string>,
    op: Op
  )

  datatype Report = Report(ticket: nat, case_: Case, target: Status)

  function ToSet(name: Option<string>): set<string>
  {
    if name.Some? then {name.value} else {}
  }

  function Names(t: Ticket): set<string>
  {
    ToSet(t.ticketRepo) + ToSet(t.queueRepo) + ToSet(t.prUrlRepo) + ToSet(t.startedRepo)
  }

  /** The pass for this lock handles the Ticket. */
  predicate Attributed(t: Ticket, repo: string, dir: string)
  {
    t.clone == Some(dir) || repo in Names(t)
  }

  predicate AttributionConflict(t: Ticket, repo: string, dir: string)
  {
    Names(t) - {repo} != {} || (t.clone.Some? && t.clone != Some(dir))
  }

  function Classified(t: Ticket, repo: string, dir: string): Case
  {
    if AttributionConflict(t, repo, dir) then F
    else ClassifyCrash(t.marker, t.pr, t.base, t.queueRepo.Some?)
  }

  /** The pass has an operation to abort; whether git then can is an outcome of each pass. */
  predicate Aborting(t: Ticket, repo: string, dir: string)
  {
    Classified(t, repo, dir) == A && t.op != NoOp
  }

  /** The case acted on: A becomes F when its operation cannot be aborted. */
  function Decided(t: Ticket, repo: string, dir: string, works: bool): Case
  {
    if Aborting(t, repo, dir) && !works then F else Classified(t, repo, dir)
  }

  predicate Stranded(t: Ticket, repo: string, dir: string)
  {
    t.status == Integrating && Attributed(t, repo, dir)
  }

  function MarkerAfter(c: Case, m: Marker): Marker
  {
    match CaseAction(c)
    case NeedsDecision => DecisionNeeded
    case ReadyForIntegration => CrashReconciled
    case _ => m
  }

  // The Ticket after each write the pass makes for it.

  function AbortedFor(t: Ticket, repo: string, dir: string, works: bool): Ticket
  {
    if Aborting(t, repo, dir) && works then t.(op := NoOp) else t
  }

  function MovedFor(t: Ticket, repo: string, dir: string, works: bool): Ticket
  {
    AbortedFor(t, repo, dir, works).(status := CaseAction(Decided(t, repo, dir, works)))
  }

  /** What a whole pass makes of one Ticket. */
  function Reconciled(t: Ticket, repo: string, dir: string, works: bool): Ticket
  {
    if !Stranded(t, repo, dir) then t
    else MovedFor(t, repo, dir, works).(marker := MarkerAfter(Decided(t, repo, dir, works), t.marker))
  }

  /** What a pass that may have died makes of one Ticket: some prefix of its writes. */
  predicate Progress(t: Ticket, t': Ticket, repo: string, dir: string, works: bool)
  {
    || t' == t
    || (Stranded(t, repo, dir)
        && (|| t' == AbortedFor(t, repo, dir, works)
            || t' == MovedFor(t, repo, dir, works)
            || t' == Reconciled(t, repo, dir, works)))
  }

  /** The reports of a whole pass over the first `n` Tickets. */
  function Reports(ts: seq<Ticket>, n: nat, repo: string, dir: string, works: seq<bool>): seq<Report>
    requires n <= |ts| == |works|
  {
    if n == 0 then []
    else
      var t := ts[n - 1];
      var c := Decided(t, repo, dir, works[n - 1]);
      Reports(ts, n - 1, repo, dir, works)
      + (if Stranded(t, repo, dir) then [Report(n - 1, c, CaseAction(c))] else [])
  }

  // ------------------------------------------------------------- properties

  /** One of the Ticket's own records names the repository, or its clone is the lock's. */
  lemma AttributedMeans(t: Ticket, repo: string, dir: string)
    ensures Attributed(t, repo, dir)
            <==> || t.clone == Some(dir) || t.ticketRepo == Some(repo) || t.queueRepo == Some(repo)
                 || t.prUrlRepo == Some(repo) || t.startedRepo == Some(repo)
  {}

  /** Nothing about the Ticket points anywhere else. */
  predicate AllHere(t: Ticket, repo: string, dir: string)
  {
    && (t.ticketRepo.Some? ==> t.ticketRepo == Some(repo)) && (t.queueRepo.Some? ==> t.queueRepo == Some(repo))
    && (t.prUrlRepo.Some? ==> t.prUrlRepo == Some(repo)) && (t.startedRepo.Some? ==> t.startedRepo == Some(repo))
    && (t.clone.Some? ==> t.clone == Some(dir))
  }

  /**
   A pass leaves no Ticket of the repository `integrating`, and requeues none as unpublished over an
   operation still in progress.
   */
  lemma NoneStranded(t: Ticket, repo: string, dir: string, works: bool)
    ensures !Stranded(Reconciled(t, repo, dir, works), repo, dir)
    ensures t.clone == Some(dir) || t.ticketRepo == Some(repo) || t.queueRepo == Some(repo)
            || t.prUrlRepo == Some(repo) || t.startedRepo == Some(repo) ==>
              Reconciled(t, repo, dir, works).status != Integrating
    ensures t.status == Integrating && t.marker == RunStarted && Reconciled(t, repo, dir, works).status == ReadyForIntegration ==>
              Reconciled(t, repo, dir, works).op == NoOp
  {
    AttributedMeans(t, repo, dir);
  }

  /** A Ticket whose records and clone are all elsewhere is not touched, even by a pass that dies. */
  lemma OthersUntouched(t: Ticket, t': Ticket, repo: string, dir: string, works: bool)
    requires t.clone != Some(dir) && t.ticketRepo != Some(repo) && t.queueRepo != Some(repo)
    requires t.prUrlRepo != Some(repo) && t.startedRepo != Some(repo)
    ensures Progress(t, t', repo, dir, works) <==> t' == t
  {
    AttributedMeans(t, repo, dir);
  }

  /**
   Where a stranded Ticket goes, by its records alone. Records that point elsewhere too, or that no
   checkpoint explains, go to a human. Before publishing it is requeued, once nothing is in progress;
   with its PR recorded it is requeued; published or creating a PR without one goes to a human; and an
   integrated one enters review.
   */
  lemma ReconciledByRecords(t: Ticket, repo: string, dir: string, works: bool)
    requires t.status == Integrating && Attributed(t, repo, dir)
    ensures var r := Reconciled(t, repo, dir, works);
            var queued := t.queueRepo.Some?;
            if AllHere(t, repo, dir) && t.marker == RunStarted && queued && (t.op == NoOp || works) then
              r == t.(status := ReadyForIntegration, marker := CrashReconciled, op := NoOp)
            else if AllHere(t, repo, dir) && (t.marker == RunPublishing || t.marker == RunCreatingPr) && t.pr.Some? && queued then
              r == t.(status := ReadyForIntegration, marker := CrashReconciled)
            else if AllHere(t, repo, dir) && t.marker == RunIntegrated && !queued && t.pr.Some? && t.base.Some? then
              r == t.(status := NeedsReview)
            else
              r == t.(status := NeedsDecision, marker := DecisionNeeded)
    ensures Decided(t, repo, dir, works) ==
              if !AllHere(t, repo, dir) then F
              else if t.marker == RunStarted && t.queueRepo.Some? && (t.op == NoOp || works) then A
              else if t.marker == RunPublishing && t.pr.None? then B
              else if t.marker == RunCreatingPr && t.pr.None? then C
              else if (t.marker == RunPublishing || t.marker == RunCreatingPr) && t.queueRepo.Some? then D
              else if t.marker == RunIntegrated && t.queueRepo.None? && t.pr.Some? && t.base.Some? then E
              else F
  {
    ConflictMeans(t, repo, dir);
  }

  lemma ConflictMeans(t: Ticket, repo: string, dir: string)
    ensures AttributionConflict(t, repo, dir) <==> !AllHere(t, repo, dir)
  {
    var others := Names(t) - {repo};
    NamedElsewhere(t, t.ticketRepo, repo);
    NamedElsewhere(t, t.queueRepo, repo);
    NamedElsewhere(t, t.prUrlRepo, repo);
    NamedElsewhere(t, t.startedRepo, repo);
    if others != {} {
      var name :| name in others;
      assert Some(name) in {t.ticketRepo, t.queueRepo, t.prUrlRepo, t.startedRepo};
    }
  }

  lemma NamedElsewhere(t: Ticket, record: Option<string>, repo: string)
    requires record in {t.ticketRepo, t.queueRepo, t.prUrlRepo, t.startedRepo}
    ensures record.Some? && record != Some(repo) ==> Names(t) - {repo} != {}
  {
    if record.Some? && record != Some(repo) {
      assert record.value in Names(t) - {repo};
    }
  }

  /** The same but for the checkpoint, which is the pass's own or the one the Ticket had. */
  predicate SameButMarker(t: Ticket, r: Ticket, r': Ticket)
  {
    r' == r.(marker := r'.marker) && (r'.marker == r.marker || r'.marker == t.marker)
  }

  /**
   A rerun after a pass that died finishes what that pass began, or decides as an uninterrupted pass
   with its own abort outcome would. The two differ only where there is an operation to abort and git
   could abort it in one pass and not in the other.
   */
  lemma RerunFinishes(t: Ticket, t': Ticket, repo: string, dir: string, works: bool, works': bool)
    requires Progress(t, t', repo, dir, works)
    ensures var r' := Reconciled(t', repo, dir, works');
            || SameButMarker(t, Reconciled(t, repo, dir, works), r')
            || SameButMarker(t, Reconciled(t, repo, dir, works'), r')
    ensures works == works' || !Aborting(t, repo, dir) ==>
              SameButMarker(t, Reconciled(t, repo, dir, works), Reconciled(t', repo, dir, works'))
  {}

  /** Dying passes add up: two of them are one that got further, with the outcome of one of them. */
  lemma ProgressTransitive(t: Ticket, t': Ticket, t'': Ticket, repo: string, dir: string, works: bool, works': bool)
    requires Progress(t, t', repo, dir, works) && Progress(t', t'', repo, dir, works')
    ensures Progress(t, t'', repo, dir, works) || Progress(t, t'', repo, dir, works')
  {}

  /** Any number of dying passes in a row, whatever their abort outcomes, is one pass that died. */
  lemma {:induction false} AnyNumberOfDeaths(history: seq<Ticket>, works: seq<bool>, n: nat, repo: string, dir: string)
    requires n < |history| == |works| + 1
    requires forall i :: 0 <= i < n ==> Progress(history[i], history[i + 1], repo, dir, works[i])
    ensures exists w :: Progress(history[0], history[n], repo, dir, w)
  {
    if n == 0 {
      assert Progress(history[0], history[0], repo, dir, true);
    } else {
      AnyNumberOfDeaths(history, works, n - 1, repo, dir);
      var w :| Progress(history[0], history[n - 1], repo, dir, w);
      ProgressTransitive(history[0], history[n - 1], history[n], repo, dir, w, works[n - 1]);
    }
  }

  /** With nothing stranded, a pass reports nothing. */
  lemma {:induction false} NothingToReport(ts: seq<Ticket>, n: nat, repo: string, dir: string, works: seq<bool>)
    requires n <= |ts| == |works|
    ensures Reports(ts, n, repo, dir, works) == [] <==> forall i :: 0 <= i < n ==> !Stranded(ts[i], repo, dir)
  {
    if n > 0 {
      NothingToReport(ts, n - 1, repo, dir, works);
    }
  }

  /** Each report is of a Ticket that was stranded and says where it now is, and each such Ticket has one. */
  lemma {:induction false} ReportsMean(ts: seq<Ticket>, n: nat, repo: string, dir: string, works: seq<bool>)
    requires n <= |ts| == |works|
    ensures forall k :: 0 <= k < |Reports(ts, n, repo, dir, works)| ==>
              var report := Reports(ts, n, repo, dir, works)[k];
              && report.ticket < n && Stranded(ts[report.ticket], repo, dir)
              && report.target == Reconciled(ts[report.ticket], repo, dir, works[report.ticket]).status
    ensures forall i :: 0 <= i < n && Stranded(ts[i], repo, dir) ==>
              exists k :: 0 <= k < |Reports(ts, n, repo, dir, works)| && Reports(ts, n, repo, dir, works)[k].ticket == i
  {
    if n > 0 {
      ReportsMean(ts, n - 1, repo, dir, works);
      var before, all := Reports(ts, n - 1, repo, dir, works), Reports(ts, n, repo, dir, works);
      forall i | 0 <= i < n && Stranded(ts[i], repo, dir)
        ensures exists k :: 0 <= k < |all| && all[k].ticket == i
      {
        if i < n - 1 {
          var k :| 0 <= k < |before| && before[k].ticket == i;
          assert all[k].ticket == i;
        } else {
          assert all[|before|].ticket == i;
        }
      }
    }
  }

  // ------------------------------------------------------------ the pass

  /** The tables the pass writes, with how many more writes this process lives to make. */
  class Mirror {
    var tickets: seq<Ticket>
    var life: nat

    constructor (tickets: seq<Ticket>, life: nat)
      ensures this.tickets == tickets && this.life == life
    {
      this.tickets, this.life := tickets, life;
    }

    /** One durable write, unless the process dies first. */
    method Write(i: nat, t: Ticket) returns (alive: bool)
      requires i < |tickets|
      modifies this
      ensures tickets == if alive then old(tickets)[i := t] else old(tickets)
      ensures alive <==> old(life) > 0
      ensures life == if alive then old(life) - 1 else 0
    {
      alive := life > 0;
      if alive {
        tickets, life := tickets[i := t], life - 1;
      }
    }

    /** `_reconcile_one`. */
    method ReconcileOne(i: nat, repo: string, dir: string, works: bool) returns (report: Report, alive: bool)
      requires i < |tickets| && Stranded(tickets[i], repo, dir)
      modifies this
      ensures |tickets| == |old(tickets)| && tickets == old(tickets)[i := tickets[i]]
      ensures Progress(old(tickets)[i], tickets[i], repo, dir, works)
      ensures alive ==> tickets[i] == Reconciled(old(tickets)[i], repo, dir, works)
      ensures old(life) >= 3 ==> alive
      ensures old(life) <= life + 3
      ensures var c := Decided(old(tickets)[i], repo, dir, works); report == Report(i, c, CaseAction(c))
      ensures alive ==> tickets[i].status == report.target
      ensures tickets[i].status != Integrating ==> tickets[i].status == report.target
    {
      var c := Classified(tickets[i], repo, dir);
      alive := true;
      if c == A && tickets[i].op != NoOp {
        if works {
          alive := Write(i, tickets[i].(op := NoOp));
        } else {
          c := F;
        }
      }
      var target := CaseAction(c);
      report := Report(i, c, target);
      if alive {
        assert ValidateTransition(Integrating, target).Ok?;
        alive := Write(i, tickets[i].(status := target));
      }
      if alive {
        if target == NeedsDecision {
          alive := Write(i, tickets[i].(marker := DecisionNeeded));
        } else if target == ReadyForIntegration {
          alive := Write(i, tickets[i].(marker := CrashReconciled));
        }
      }
    }

    /** `reconcile_integrating_tickets`, which the process may not live to finish. */
    method ReconcileIntegratingTickets(repo: string, dir: string, works: seq<bool>)
      returns (reports: seq<Report>, alive: bool)
      requires |works| == |tickets|
      modifies this
      ensures |tickets| == |old(tickets)|
      ensures forall i :: 0 <= i < |tickets| ==> Progress(old(tickets)[i], tickets[i], repo, dir, works[i])
      ensures alive ==> forall i :: 0 <= i < |tickets| ==> tickets[i] == Reconciled(old(tickets)[i], repo, dir, works[i])
      ensures alive ==> reports == Reports(old(tickets), |old(tickets)|, repo, dir, works)
      ensures old(life) >= 3 * |old(tickets)| ==> alive
    {
      reports, alive := [], true;
      var n := 0;
      while n < |tickets| && alive
        invariant n <= |tickets| == |old(tickets)|
        invariant alive ==> forall i :: 0 <= i < n ==> tickets[i] == Reconciled(old(tickets)[i], repo, dir, works[i])
        invariant forall i :: 0 <= i < n ==> Progress(old(tickets)[i], tickets[i], repo, dir, works[i])
        invariant forall i :: n <= i < |tickets| ==> tickets[i] == old(tickets)[i]
        invariant alive ==> reports == Reports(old(tickets), n, repo, dir, works)
        invariant old(life) >= 3 * |old(tickets)| ==> alive && life >= 3 * (|tickets| - n)
      {
        var report;
        report, alive := Visit(n, repo, dir, works[n]);
        reports := reports + report;
        n := n + 1;
      }
    }

    /** One turn of the loop: nothing for a Ticket that is not stranded here. */
    method Visit(n: nat, repo: string, dir: string, works: bool) returns (report: seq<Report>, alive: bool)
      requires n < |tickets|
      modifies this
      ensures |tickets| == |old(tickets)| && tickets == old(tickets)[n := tickets[n]]
      ensures Progress(old(tickets)[n], tickets[n], repo, dir, works)
      ensures alive ==> tickets[n] == Reconciled(old(tickets)[n], repo, dir, works)
      ensures old(life) >= 3 ==> alive
      ensures old(life) <= life + 3
      ensures var c := Decided(old(tickets)[n], repo, dir, works);
              report == if Stranded(old(tickets)[n], repo, dir) then [Report(n, c, CaseAction(c))] else []
    {
      if !Stranded(tickets[n], repo, dir) {
        return [], true;
      }
      var one;
      one, alive := ReconcileOne(n, repo, dir, works);
      report := [one];
    }
  }

  /**
   A first pass that may die, then a rerun that lives, then a further pass: the rerun leaves every
   Ticket in the status an uninterrupted pass would have, with the abort outcome of one of the two
   passes where they differ, and the further pass changes and reports nothing.
   */
  method RecoverAfterDeath(m: Mirror, repo: string, dir: string, life: nat, first: seq<bool>, second: seq<bool>)
    returns (again: seq<Report>)
    requires life >= 6 * |m.tickets| && |first| == |second| == |m.tickets|
    modifies m
    ensures |m.tickets| == |old(m.tickets)|
    ensures forall i :: 0 <= i < |m.tickets| ==> !Stranded(m.tickets[i], repo, dir)
    ensures forall i :: 0 <= i < |m.tickets| ==>
              || m.tickets[i].status == Reconciled(old(m.tickets)[i], repo, dir, first[i]).status
              || m.tickets[i].status == Reconciled(old(m.tickets)[i], repo, dir, second[i]).status
    ensures forall i :: 0 <= i < |m.tickets| && (first[i] == second[i] || !Aborting(old(m.tickets)[i], repo, dir)) ==>
              m.tickets[i].status == Reconciled(old(m.tickets)[i], repo, dir, first[i]).status
    ensures again == []
  {
    var before := m.tickets;
    var _, _ := m.ReconcileIntegratingTickets(repo, dir, first);
    var between := m.tickets;
    m.life := life;
    var _, finished := m.ReconcileIntegratingTickets(repo, dir, second);
    var after := m.tickets;
    forall i | 0 <= i < |after|
      ensures !Stranded(after[i], repo, dir)
      ensures || after[i].status == Reconciled(before[i], repo, dir, first[i]).status
              || after[i].status == Reconciled(before[i], repo, dir, second[i]).status
      ensures first[i] == second[i] || !Aborting(before[i], repo, dir) ==>
                after[i].status == Reconciled(before[i], repo, dir, first[i]).status
    {
      RerunFinishes(before[i], between[i], repo, dir, first[i], second[i]);
      NoneStranded(between[i], repo, dir, second[i]);
    }
    m.life := life;
    again, finished := m.ReconcileIntegratingTickets(repo, dir, second);
    NothingToReport(after, |after|, repo, dir, second);
    assert forall i :: 0 <= i < |after| ==> m.tickets[i] == after[i];
  }
}
