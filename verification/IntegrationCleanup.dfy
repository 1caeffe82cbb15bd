/**
 Cleanup after a verified merge or a confirmed cancellation
 (integration_cleanup.py, merge_verification.py), while other writers commit to
 the branch until its worktree is gone, and the process may die at any write.
 */
module IntegrationCleanup {
  import opened Common
  import opened CommitGraph
  import opened IntegrationSchema

  /** The recorded worktree path. `Stale` is registered with git but missing on disk. */
  datatype Tree = Gone | Stale | Present(registered: bool, onBranch: bool, dirty: bool)

  /** `remoteBranch` and `remoteTarget` are what the next fetch will see. */
  datatype State = State(
    status: Status,
    prMerged: bool,
    mergeCommit: Option<Commit>,
    prHead: Option<Commit>,
    remoteBranch: Option<Commit>,
    remoteTarget: Commit,
    tracking: Option<Commit>,
    branch: Option<Commit>,
    tree: Tree,
    mergeVerified: bool,
    recordCleaned: bool,
    cleanupConfirmed: bool,
    queued: bool,
    eventWritten: bool
  )

  datatype Request = Request(
    confirm: bool,
    confirmCancelled: bool,
    deleteRemoteBranch: bool,
    repoMatches: bool,
    branchProtected: bool,
    pathInWorktrees: bool
  )

  datatype Answer =
    | Blocked
    | ConfirmationRequired
    | MergeNotVerified
    | Refused
    | DryRun
    | Incomplete
    | Cleaned
    | Raised
    | Died

  /** The attempt got past its refusals and previews. */
  predicate Acted(answer: Answer)
  {
    answer == Incomplete || answer == Cleaned || answer == Raised || answer == Died
  }

  /** One attempt: the writes it lives to make, whether others keep still, and whether git succeeds. */
  datatype Attempt = Attempt(life: nat, still: bool, works: bool)

  predicate CancelledRoute(s: State)
  {
    s.status == Cancelled && !s.prMerged
  }

  function Fetched(s: State): State
  {
    s.(tracking := s.remoteBranch)
  }

  /** `verify_merge`: the PR merged, its merge commit is known, and it is in the history of the target. */
  predicate MergedIntoTarget(s: State)
  {
    s.prMerged && s.mergeCommit.Some? && Reaches(s.remoteTarget, s.mergeCommit.value)
  }

  /** The refs that publish the task's commits: the recorded PR head and the remote task branch. */
  predicate InRefs(prHead: Option<Commit>, tracking: Option<Commit>, c: Commit)
  {
    || (prHead.Some? && Reaches(prHead.value, c))
    || (tracking.Some? && Reaches(tracking.value, c))
  }

  predicate Published(s: State, c: Commit)
  {
    InRefs(s.prHead, s.tracking, c)
  }

  /** `_cleanup_target_refusal` found nothing to refuse. */
  predicate TargetSafe(s: State, q: Request)
  {
    && q.repoMatches && !q.branchProtected && q.pathInWorktrees
    && (s.tree.Gone? || (s.tree.Present? && s.tree.registered && s.tree.onBranch && !s.tree.dirty))
    && (s.branch.None? ==> s.tree.Gone?)
    && (s.branch.Some? ==> Published(s, s.branch.value))
  }

  /** A request that an uninterrupted cleanup, in which git succeeds, carries through. */
  predicate Eligible(s: State, q: Request)
  {
    && q.confirm && !q.deleteRemoteBranch
    && if CancelledRoute(s) then q.confirmCancelled && TargetSafe(s, q)
       else CanTransition(s.status, Completed) && MergedIntoTarget(s) && TargetSafe(Fetched(s), q)
  }

  // What a cleanup may act on, written out.

  /**
   The recorded target may go: this repository's, unprotected, under its worktrees; the worktree absent,
   or registered on its branch and clean; the branch absent, or in the PR head or the remote branch `remote`.
   */
  predicate TargetClear(s: State, q: Request, remote: Option<Commit>)
  {
    && q.repoMatches && !q.branchProtected && q.pathInWorktrees
    && s.tree != Stale && (s.tree.Present? ==> s.tree.registered && s.tree.onBranch && !s.tree.dirty && s.branch.Some?)
    && (s.branch.Some? ==>
          || (s.prHead.Some? && Reaches(s.prHead.value, s.branch.value))
          || (remote.Some? && Reaches(remote.value, s.branch.value)))
  }

  /** A closed-unmerged Ticket with both confirmations, or a verified merge of a Ticket that may complete. */
  predicate Permitted(s: State, q: Request)
  {
    && q.confirm && !q.deleteRemoteBranch
    && if s.status == Cancelled && !s.prMerged then q.confirmCancelled && TargetClear(s, q, s.tracking)
       else && s.status in {ReadyForIntegration, NeedsReview, NeedsDecision, Paused}
            && MergedIntoTarget(s) && TargetClear(s, q, s.remoteBranch)
  }

  lemma PermittedIsEligible(s: State, q: Request)
    ensures Permitted(s, q) <==> Eligible(s, q)
    ensures TargetClear(s, q, s.tracking) <==> TargetSafe(s, q)
    ensures TargetClear(s, q, s.remoteBranch) <==> TargetSafe(Fetched(s), q)
  {
  }

  /** The state an uninterrupted cleanup ends in. */
  function Finished(s: State): State
  {
    var removed := s.(tree := Gone, branch := None, recordCleaned := true, cleanupConfirmed := true,
                      eventWritten := true);
    if CancelledRoute(s) then removed
    else removed.(tracking := s.remoteBranch, mergeVerified := true, status := Completed, queued := false)
  }

  /** Every commit of `c` is still on the branch or published. */
  ghost predicate Kept(branch: Option<Commit>, prHead: Option<Commit>, tracking: Option<Commit>, c: Commit)
  {
    forall d :: Reaches(c, d) ==>
      || (branch.Some? && Reaches(branch.value, d))
      || (prHead.Some? && Reaches(prHead.value, d))
      || (tracking.Some? && Reaches(tracking.value, d))
  }

  ghost predicate AllKept(
    branch: Option<Commit>, prHead: Option<Commit>, tracking: Option<Commit>, seen: set<Commit>)
  {
    forall c :: c in seen ==> Kept(branch, prHead, tracking, c)
  }

  /** The branch has only grown: its tip is seen, and every tip it had is in its history. */
  ghost predicate GrownTo(branch: Option<Commit>, seen: set<Commit>)
  {
    if branch.Some?
    then branch.value in seen && forall c :: c in seen ==> Reaches(branch.value, c)
    else seen == {}
  }

  lemma KeptOnBranch(s: State, seen: set<Commit>)
    requires GrownTo(s.branch, seen)
    ensures AllKept(s.branch, s.prHead, s.tracking, seen)
  {
    if s.branch.Some? {
      forall c, d | c in seen && Reaches(c, d)
        ensures Reaches(s.branch.value, d)
      {
        ReachesTransitive(s.branch.value, c, d);
      }
    }
  }

  lemma PublishedHistory(s: State, c: Commit, d: Commit)
    requires Published(s, c) && Reaches(c, d)
    ensures Published(s, d)
  {
    if s.prHead.Some? && Reaches(s.prHead.value, c) {
      ReachesTransitive(s.prHead.value, c, d);
    } else {
      ReachesTransitive(s.tracking.value, c, d);
    }
  }

  /** A branch whose tip is published may go: nothing an earlier tip reached is lost. */
  lemma DeletingLosesNothing(s: State, seen: set<Commit>)
    requires s.branch.Some? && Published(s, s.branch.value) && GrownTo(s.branch, seen)
    ensures AllKept(None, s.prHead, s.tracking, seen)
  {
    forall c, d | c in seen && Reaches(c, d)
      ensures Published(s, d)
    {
      PublishedHistory(s, s.branch.value, c);
      PublishedHistory(s, c, d);
    }
  }

  /** An unfinished attempt does not change what a retry will finish with. */
  predicate SameFinish(s: State, t: State)
  {
    Finished(t) == Finished(s) && CancelledRoute(t) == CancelledRoute(s)
  }

  /** After the completed write only the queue row's removal and the final event can be missing. */
  predicate OnlyQueueAndEventMissing(s: State, t: State)
  {
    t == Finished(s).(queued := t.queued, eventWritten := t.eventWritten)
  }

  /** A Ticket is completed only with the merge verified, the worktree absent and the branch absent. */
  predicate ProperlyCompleted(s: State)
  {
    && s.status == Completed && MergedIntoTarget(s) && s.mergeVerified && s.tracking == s.remoteBranch
    && s.tree.Gone? && s.branch.None? && s.recordCleaned && s.cleanupConfirmed
  }

  /** From `s` to `t` the completed write was made. */
  predicate Completes(s: State, t: State)
  {
    t.status == Completed && s.status != Completed
  }

  /** What one attempt may leave: before the completed write the same work, after it only bookkeeping. */
  predicate Resumable(s: State, t: State, answer: Answer)
  {
    && (!Completes(s, t) ==> SameFinish(s, t))
    && (Completes(s, t) ==> OnlyQueueAndEventMissing(s, t))
    && (answer == Cleaned ==> t == Finished(s))
  }

  /** The state `_perform_cleanup` ends in when everything is removed. */
  function Removed(s: State, completeTask: bool): State
  {
    var t := s.(tree := Gone, branch := None, recordCleaned := true, cleanupConfirmed := true, eventWritten := true);
    if completeTask then t.(status := Completed, queued := false) else t
  }

  /** Where `_perform_cleanup` may stop; a status others moved is left as they moved it. */
  predicate Attempted(s: State, completeTask: bool, t: State)
  {
    if Completes(s, t)
    then completeTask && t == Removed(s, true).(queued := t.queued, eventWritten := t.eventWritten)
    else && t == s.(status := t.status, tree := t.tree, branch := t.branch, recordCleaned := t.recordCleaned,
                    cleanupConfirmed := t.cleanupConfirmed,
                    eventWritten := if completeTask then s.eventWritten else t.eventWritten)
         && (t.status != s.status ==> completeTask)
  }

  /** A row an attempt writes says what is so. */
  predicate Honest(s: State, t: State)
  {
    && (t.mergeVerified ==> s.mergeVerified || MergedIntoTarget(t))
    && (t.recordCleaned ==> s.recordCleaned || t.tree.Gone?)
    && (t.cleanupConfirmed ==> s.cleanupConfirmed || (t.tree.Gone? && t.branch.None?))
    && (!t.queued ==> !s.queued || t.status == Completed)
    && (t.eventWritten ==> s.eventWritten || (t.tree.Gone? && t.branch.None? && (t.status != s.status ==> !t.queued)))
  }

  /** The attempt itself moves the status only to completed; it raises exactly when others moved it first. */
  predicate Moved(s: State, t: State, still: bool, answer: Answer)
  {
    && (answer == Raised ==> t.status != s.status && !Completes(s, t) && !still)
    && (t.status != s.status && !Completes(s, t) ==> answer == Raised)
  }

  /** The removals are part of the attempt. */
  lemma AfterRemovals(s: State, m: State, completeTask: bool, t: State, still: bool, answer: Answer)
    requires m == s.(tree := m.tree, branch := m.branch) && Attempted(m, completeTask, t) && Honest(m, t)
    requires Moved(m, t, still, answer)
    ensures Attempted(s, completeTask, t) && Honest(s, t) && Moved(s, t, still, answer)
    ensures Removed(m, completeTask) == Removed(s, completeTask)
  {
  }

  /** An attempt may stop at them. */
  lemma StoppedAtRemovals(s: State, m: State, completeTask: bool, still: bool, answer: Answer)
    requires m == s.(tree := m.tree, branch := m.branch) && (answer == Died || answer == Incomplete)
    ensures Attempted(s, completeTask, m) && Honest(s, m) && Moved(s, m, still, answer)
  {
  }

  /** So are the rows written before the completed write. */
  lemma AfterRows(s: State, m: State, completeTask: bool, t: State)
    requires s.tree.Gone? && s.branch.None? && m == s.(recordCleaned := true, cleanupConfirmed := true)
    requires Attempted(m, completeTask, t) && Honest(m, t)
    ensures Attempted(s, completeTask, t) && Removed(m, completeTask) == Removed(s, completeTask)
    ensures t.tree.Gone? && t.branch.None? ==> Honest(s, t)
  {
  }

  /** What an attempt on the verified route comes to. */
  lemma VerifiedOutcome(s: State, t: State, answer: Answer)
    requires !CancelledRoute(s) && s.status != Completed && MergedIntoTarget(s) && s == Fetched(s)
    requires Attempted(s.(mergeVerified := true), true, t) && Honest(s.(mergeVerified := true), t)
    requires answer == Cleaned ==> t == Removed(s.(mergeVerified := true), true)
    ensures Completes(s, t) ==> ProperlyCompleted(t)
    ensures Resumable(s, t, answer) && Honest(s, t)
  {
  }

  /** Having fetched changes nothing about what is left to do. */
  lemma FetchedOutcome(s: State, t: State, answer: Answer)
    requires !CancelledRoute(s) && Resumable(Fetched(s), t, answer) && Honest(Fetched(s), t)
    ensures Resumable(s, t, answer) && Honest(s, t)
  {
  }

  /** On the cancelled route the status is not written. */
  lemma CancelledOutcome(s: State, t: State, answer: Answer)
    requires CancelledRoute(s) && Attempted(s, false, t) && (answer == Cleaned ==> t == Removed(s, false))
    ensures Resumable(s, t, answer) && t.status == s.status
  {
  }

  lemma FetchedEligible(s: State, q: Request)
    requires !CancelledRoute(s)
    ensures Eligible(Fetched(s), q) <==> Eligible(s, q)
    ensures Resumable(s, Fetched(s), Refused) && Honest(s, Fetched(s))
    ensures Resumable(s, s, Refused) && Honest(s, s)
  {
  }

  /** What several attempts leave, so far. */
  predicate Left(s: State, t: State)
  {
    if Completes(s, t) then OnlyQueueAndEventMissing(s, t) else SameFinish(s, t)
  }

  lemma LeftAfter(s: State, m: State, t: State, answer: Answer)
    requires Left(s, m) && Resumable(m, t, answer) && (Completes(s, m) ==> t == m)
    ensures Left(s, t)
  {
  }

  /** Only removals: what is not gone is as it was. */
  predicate OnlyRemoved(s: State, t: State)
  {
    && (t.tree == s.tree || t.tree.Gone?)
    && (t.branch == s.branch || (t.branch.None? && t.tree.Gone?))
  }

  lemma RetryStaysEligible(s: State, t: State, q: Request)
    requires Eligible(s, q) && t.status == s.status && OnlyRemoved(s, t)
    requires t == s.(tree := t.tree, branch := t.branch, recordCleaned := t.recordCleaned, mergeVerified := t.mergeVerified,
                     tracking := t.tracking, cleanupConfirmed := t.cleanupConfirmed, eventWritten := t.eventWritten)
    requires t.tracking == if CancelledRoute(s) then s.tracking else s.remoteBranch
    ensures Eligible(t, q)
  {
    var a := if CancelledRoute(s) then s else Fetched(s);
    var b := if CancelledRoute(s) then t else Fetched(t);
    assert TargetSafe(a, q);
    assert b.branch.Some? ==> Published(a, b.branch.value);
  }

  predicate Removable(t: Tree)
  {
    t.Gone? || (t.Present? && t.registered && !t.dirty)
  }

  /** Which answer a request gets when it is not acted on. */
  predicate Answered(s: State, q: Request, answer: Answer, works: bool)
  {
    var cancelled := s.status == Cancelled && !s.prMerged;
    && (answer == Blocked <==>
          q.deleteRemoteBranch
          || (!cancelled && s.status !in {ReadyForIntegration, NeedsReview, NeedsDecision, Paused}))
    && (answer == ConfirmationRequired <==> !q.deleteRemoteBranch && cancelled && !q.confirmCancelled)
    && (answer == MergeNotVerified ==> !cancelled && (works ==> !MergedIntoTarget(s)))
    && (answer == Refused ==> !TargetClear(s, q, if cancelled then s.tracking else s.remoteBranch))
    && (answer == DryRun ==> !q.confirm && TargetClear(s, q, if cancelled then s.tracking else s.remoteBranch))
  }

  /** The same, in the terms the attempt checks. */
  predicate Replied(s: State, q: Request, answer: Answer, works: bool)
  {
    && (answer == Blocked <==> q.deleteRemoteBranch || (!CancelledRoute(s) && !CanTransition(s.status, Completed)))
    && (answer == ConfirmationRequired <==> !q.deleteRemoteBranch && CancelledRoute(s) && !q.confirmCancelled)
    && (answer == MergeNotVerified ==> !CancelledRoute(s) && (works ==> !MergedIntoTarget(s)))
    && (answer == Refused ==> !TargetSafe(if CancelledRoute(s) then s else Fetched(s), q))
    && (answer == DryRun ==> !q.confirm && TargetSafe(if CancelledRoute(s) then s else Fetched(s), q))
    && (Acted(answer) ==> Eligible(s, q))
  }

  /** The answers of the verified-merge route. */
  lemma VerifiedReply(s: State, q: Request, answer: Answer, works: bool)
    requires !CancelledRoute(s) && CanTransition(s.status, Completed) && !q.deleteRemoteBranch
    requires answer in {MergeNotVerified, Refused, DryRun, Cleaned}
    requires answer == MergeNotVerified && works ==> !MergedIntoTarget(s)
    requires answer == Refused ==> !TargetSafe(Fetched(s), q)
    requires answer == DryRun ==> !q.confirm && TargetSafe(Fetched(s), q)
    requires answer == Cleaned ==> q.confirm && MergedIntoTarget(s) && TargetSafe(Fetched(s), q)
    ensures Replied(s, q, answer, works)
    ensures answer == Cleaned ==> forall other :: Acted(other) ==> Replied(s, q, other, works)
  {
  }

  lemma RepliesWrittenOut(s: State, q: Request, answer: Answer, works: bool)
    requires Replied(s, q, answer, works)
    ensures Answered(s, q, answer, works) && (Acted(answer) ==> Permitted(s, q))
  {
    PermittedIsEligible(s, q);
    assert CanTransition(s.status, Completed) <==> s.status in {ReadyForIntegration, NeedsReview, NeedsDecision, Paused};
  }

  /** Everything removed and recorded; a cancelled Ticket stays cancelled, a merged one is completed and dequeued. */
  predicate CleanedUp(s: State, t: State)
  {
    && t.tree == Gone && t.branch == None && t.recordCleaned && t.cleanupConfirmed && t.eventWritten
    && (if s.status == Cancelled && !s.prMerged
        then t.status == Cancelled && t.queued == s.queued && t.mergeVerified == s.mergeVerified
        else t.status == Completed && !t.queued && t.mergeVerified)
    && t.prMerged == s.prMerged && t.mergeCommit == s.mergeCommit && t.prHead == s.prHead
    && t.remoteBranch == s.remoteBranch && t.remoteTarget == s.remoteTarget
  }

  lemma FinishedIsCleanedUp(s: State)
    ensures CleanedUp(s, Finished(s))
  {
  }

  class Workspace {
    var s: State
    var life: nat
    /** Every tip the local branch has had since the attempt began. */
    ghost var seen: set<Commit>

    constructor (s: State, life: nat)
      ensures this.s == s && this.life == life && Grown()
      ensures seen == if s.branch.Some? then {s.branch.value} else {}
    {
      this.s, this.life := s, life;
      this.seen := if s.branch.Some? then {s.branch.value} else {};
    }

    ghost predicate Grown()
      reads this
    {
      GrownTo(s.branch, seen)
    }

    /** No commit the branch ever held is lost. */
    ghost predicate NothingLost()
      reads this
    {
      AllKept(s.branch, s.prHead, s.tracking, seen)
    }

    /** Other writers commit to the branch, and dirty the worktree, until it is gone. */
    method OthersCommit(still: bool)
      requires Grown()
      modifies this`s, this`seen
      ensures Grown() && old(seen) <= seen
      ensures still || !old(s).tree.Present? ==> s == old(s) && seen == old(seen)
      ensures s.tree.Present? == old(s).tree.Present? && s.branch.Some? == old(s).branch.Some?
      ensures s == old(s).(branch := s.branch, tree := s.tree)
    {
      if still || !s.tree.Present? {
        return;
      }
      var n: nat := *;
      while n > 0 && s.branch.Some?
        invariant Grown() && old(seen) <= seen
        invariant s.tree.Present? && s.branch.Some? == old(s).branch.Some?
        invariant s == old(s).(branch := s.branch, tree := s.tree)
      {
        var id: nat := *;
        var dirty: bool := *;
        var tip := s.branch.value;
        var next := Commit(id, [tip]);
        forall c | c in seen
          ensures Reaches(next, c)
        {
          assert Reaches(next.parents[0], c);
        }
        assert Reaches(next, next);
        s := s.(branch := Some(next), tree := s.tree.(dirty := dirty));
        seen := seen + {next};
        n := n - 1;
      }
    }

    /** Others move the Ticket along the transition table; only a cleanup completes it. */
    method OthersMoveStatus(still: bool)
      modifies this`s
      ensures s == old(s).(status := s.status) && (s.status == Completed ==> old(s).status == Completed)
      ensures still ==> s == old(s)
    {
      var n: nat := *;
      while n > 0 && !still
        invariant s == old(s).(status := s.status) && (s.status == Completed ==> old(s).status == Completed)
        invariant still ==> s == old(s)
      {
        var to: Status := *;
        if CanTransition(s.status, to) && to != Completed {
          s := s.(status := to);
        }
        n := n - 1;
      }
    }

    /** One durable write or removal, unless the process dies first. */
    method Write(t: State) returns (alive: bool)
      modifies this`s, this`life
      ensures alive <==> old(life) > 0
      ensures s == (if alive then t else old(s)) && (alive ==> life == old(life) - 1)
    {
      alive := life > 0;
      if alive {
        s, life := t, life - 1;
      }
    }

    /** `_remove_worktree`: through git only, never forced. Others may commit until it is gone. */
    method RemoveWorktree(still: bool, works: bool) returns (removed: bool, alive: bool)
      requires Grown()
      modifies this`s, this`life, this`seen
      ensures Grown() && old(seen) <= seen
      ensures s == old(s).(tree := s.tree, branch := s.branch)
      ensures removed ==> !s.tree.Present?
      ensures s.tree.Stale? <==> old(s).tree.Stale?
      ensures still ==> s.branch == old(s).branch && (s.tree == old(s).tree || s.tree.Gone?)
      ensures still && works && Removable(old(s).tree) && (alive || old(life) > 0) ==> removed
      ensures !removed && old(life) > 0 ==> alive
      ensures life >= old(life) - 1
    {
      OthersCommit(still);
      if !s.tree.Present? {
        return true, true;
      }
      var gitRemoves: bool := *;
      if s.tree.registered && !s.tree.dirty && (works || gitRemoves) {
        alive := Write(s.(tree := Gone));
        return alive, alive;
      }
      return false, true;
    }

    /** `_delete_local_branch`: only the tip the target check proved published. */
    method DeleteLocalBranch(verifiedTip: Option<Commit>, works: bool) returns (gone: bool, alive: bool)
      requires Grown()
      requires verifiedTip.Some? ==> Published(s, verifiedTip.value)
      modifies this`s, this`life
      ensures s == old(s) || (s == old(s).(branch := None) && old(s).branch.Some? && old(s).branch == verifiedTip)
      ensures alive ==> (gone <==> s.branch.None?)
      ensures alive && works && old(s).branch == verifiedTip ==> gone
      ensures !alive ==> s == old(s) && old(life) == 0
      ensures life >= old(life) - 1
      ensures NothingLost()
    {
      KeptOnBranch(s, seen);
      if s.branch.None? {
        return true, true;
      }
      if s.branch != verifiedTip {
        return false, true;
      }
      var gitDeletes: bool := *;
      if works || gitDeletes {
        DeletingLosesNothing(s, seen);
        alive := Write(s.(branch := None));
        return alive, alive;
      }
      return false, true;
    }

    /** The two removals, in order, while others may still commit. */
    method Remove(verifiedTip: Option<Commit>, still: bool, works: bool)
      returns (removed: bool, gone: bool, alive: bool)
      requires Grown() && s.tree != Stale
      requires verifiedTip.Some? ==> Published(s, verifiedTip.value)
      modifies this`s, this`life, this`seen
      ensures old(seen) <= seen && NothingLost()
      ensures s == old(s).(tree := s.tree, branch := s.branch) && s.tree != Stale
      ensures alive && removed ==> s.tree.Gone? && (gone <==> s.branch.None?)
      ensures still ==> OnlyRemoved(old(s), s)
      ensures still && works && verifiedTip == old(s).branch && Removable(old(s).tree)
              ==> (alive ==> removed && gone) && (old(life) >= 2 ==> alive)
      ensures life >= old(life) - 2
    {
      removed, alive := RemoveWorktree(still, works);
      gone := false;
      if removed {
        gone, alive := DeleteLocalBranch(verifiedTip, works);
      } else {
        KeptOnBranch(s, seen);
      }
    }

    /**
     `_perform_cleanup`, once the target check proved `verifiedTip` published.
     The rows are written only after what they say is true.
     */
    method PerformCleanup(verifiedTip: Option<Commit>, completeTask: bool, still: bool, works: bool)
      returns (answer: Answer)
      requires Grown() && s.tree != Stale && (completeTask ==> s.status != Completed)
      requires verifiedTip.Some? ==> Published(s, verifiedTip.value)
      modifies this`s, this`life, this`seen
      ensures old(seen) <= seen && NothingLost()
      ensures Attempted(old(s), completeTask, s) && Honest(old(s), s) && s.tree != Stale
      ensures Acted(answer) && Moved(old(s), s, still, answer)
      ensures answer == Cleaned ==> s == Removed(old(s), completeTask)
      ensures still ==> OnlyRemoved(old(s), s)
      ensures still && works && verifiedTip == old(s).branch && Removable(old(s).tree)
              ==> answer != Incomplete && (old(life) >= 7 ==> answer == Cleaned)
    {
      var removed, gone, alive := Remove(verifiedTip, still, works);
      if !alive || !removed {
        answer := if alive then Incomplete else Died;
        StoppedAtRemovals(old(s), s, completeTask, still, answer);
        return;
      }
      ghost var removedBoth := s;
      answer := Record(gone, completeTask, still);
      AfterRemovals(old(s), removedBoth, completeTask, s, still, answer);
    }

    /** The worktree row, then, with the branch gone too, the confirmation and what follows it. */
    method Record(gone: bool, completeTask: bool, still: bool) returns (answer: Answer)
      requires s.tree.Gone? && (gone <==> s.branch.None?) && (completeTask ==> s.status != Completed)
      requires NothingLost()
      modifies this`s, this`life
      ensures NothingLost()
      ensures Attempted(old(s), completeTask, s) && Honest(old(s), s)
      ensures s.tree == old(s).tree && s.branch == old(s).branch
      ensures Acted(answer) && Moved(old(s), s, still, answer)
      ensures answer == Incomplete ==> !gone
      ensures answer == Cleaned ==> s == Removed(old(s), completeTask)
      ensures gone && still && old(life) >= 5 ==> answer == Cleaned
    {
      var alive := true;
      if !s.recordCleaned {
        alive := Write(s.(recordCleaned := true));
        if !alive { return Died; }
      }
      if !gone {
        return Incomplete;
      }
      alive := Write(s.(cleanupConfirmed := true));
      if !alive { return Died; }
      ghost var confirmed := s;
      answer := Finish(completeTask, still);
      AfterRows(old(s), confirmed, completeTask, s);
    }

    /** The completed write, a compare-and-set on the status the attempt read, then the queue and the event. */
    method Finish(completeTask: bool, still: bool) returns (answer: Answer)
      requires s.tree.Gone? && s.branch.None? && s.recordCleaned && s.cleanupConfirmed
      requires NothingLost() && (completeTask ==> s.status != Completed)
      modifies this`s, this`life
      ensures NothingLost()
      ensures Attempted(old(s), completeTask, s) && Honest(old(s), s)
      ensures s.tree == old(s).tree && s.branch == old(s).branch
      ensures Acted(answer) && answer != Incomplete && Moved(old(s), s, still, answer)
      ensures answer == Cleaned ==> s == Removed(old(s), completeTask)
      ensures still && old(life) >= 3 ==> answer == Cleaned
    {
      var alive := true;
      if completeTask {
        var expected := s.status;
        OthersMoveStatus(still);
        if s.status != expected {
          return Raised;
        }
        alive := Write(s.(status := Completed));
        if !alive { return Died; }
        alive := Write(s.(queued := false));
        if !alive { return Died; }
      }
      alive := Write(s.(eventWritten := true));
      if !alive { return Died; }
      return Cleaned;
    }

    /** `run_integration_cleanup`. */
    method RunIntegrationCleanup(q: Request, still: bool, works: bool) returns (answer: Answer)
      requires Grown()
      modifies this`s, this`life, this`seen
      // Acting needs every permission; the refusals and previews change nothing but the fetched ref.
      ensures Acted(answer) ==> Permitted(old(s), q)
      ensures !Acted(answer) ==> (s == old(s) || s == old(s).(tracking := old(s).remoteBranch)) && seen == old(seen)
      ensures Answered(old(s), q, answer, works)
      ensures answer == Blocked ==> s == old(s)
      ensures old(seen) <= seen && NothingLost()
      // Completed means merged, verified and removed, from the status the attempt read.
      ensures Completes(old(s), s) ==> ProperlyCompleted(s)
      ensures Moved(old(s), s, still, answer)
      // An attempt that did not write the status leaves the same state to finish.
      ensures Resumable(old(s), s, answer) && Honest(old(s), s)
      ensures answer == Cleaned ==> CleanedUp(old(s), s)
      // Where git succeeds and nobody interferes, a permitted request finishes or can be retried.
      ensures still && works && Permitted(old(s), q) ==>
                (answer == Cleaned || answer == Died) && (old(life) >= 8 ==> answer == Cleaned)
      ensures still && Permitted(old(s), q) && !Completes(old(s), s) ==> Permitted(s, q)
    {
      answer := Dispatch(q, still, works);
      RepliesWrittenOut(old(s), q, answer, works);
      PermittedIsEligible(old(s), q);
      PermittedIsEligible(s, q);
      FinishedIsCleanedUp(old(s));
    }

    /** Which route the attempt takes. */
    method Dispatch(q: Request, still: bool, works: bool) returns (answer: Answer)
      requires Grown()
      modifies this`s, this`life, this`seen
      ensures Replied(old(s), q, answer, works)
      ensures !Acted(answer) ==> (s == old(s) || s == Fetched(old(s))) && seen == old(seen)
      ensures answer == Blocked ==> s == old(s)
      ensures old(seen) <= seen && NothingLost()
      ensures Completes(old(s), s) ==> ProperlyCompleted(s)
      ensures Resumable(old(s), s, answer) && Honest(old(s), s) && Moved(old(s), s, still, answer)
      ensures still && works && Eligible(old(s), q) ==>
                (answer == Cleaned || answer == Died) && (old(life) >= 8 ==> answer == Cleaned)
      ensures still && Eligible(old(s), q) && !Completes(old(s), s) ==> Eligible(s, q)
    {
      KeptOnBranch(s, seen);
      var cancelled := CancelledRoute(s);
      if q.deleteRemoteBranch || (!cancelled && !CanTransition(s.status, Completed)) {
        return Blocked;
      }
      if cancelled {
        answer := CleanUpCancelled(q, still, works);
      } else {
        answer := CleanUpVerified(q, still, works);
      }
    }

    /** The closed-unmerged route, which never completes the Ticket. */
    method CleanUpCancelled(q: Request, still: bool, works: bool) returns (answer: Answer)
      requires Grown() && CancelledRoute(s) && !q.deleteRemoteBranch
      modifies this`s, this`life, this`seen
      ensures Replied(old(s), q, answer, works) && answer != Blocked
      ensures !Acted(answer) ==> s == old(s) && seen == old(seen)
      ensures old(seen) <= seen && NothingLost() && s.status == old(s).status && answer != Raised
      ensures Resumable(old(s), s, answer) && Honest(old(s), s)
      ensures still && works && Eligible(old(s), q) ==>
                (answer == Cleaned || answer == Died) && (old(life) >= 8 ==> answer == Cleaned)
      ensures still && Eligible(old(s), q) ==> Eligible(s, q)
    {
      KeptOnBranch(s, seen);
      if !q.confirmCancelled {
        return ConfirmationRequired;
      }
      if !TargetSafe(s, q) {
        return Refused;
      }
      if !q.confirm {
        return DryRun;
      }
      answer := PerformCleanup(s.branch, false, still, works);
      CancelledOutcome(old(s), s, answer);
      if still {
        RetryStaysEligible(old(s), s, q);
      }
    }

    /** The verified-merge route. */
    method CleanUpVerified(q: Request, still: bool, works: bool) returns (answer: Answer)
      requires Grown() && !CancelledRoute(s) && CanTransition(s.status, Completed) && !q.deleteRemoteBranch
      modifies this`s, this`life, this`seen
      ensures Replied(old(s), q, answer, works) && answer != Blocked
      ensures !Acted(answer) ==> (s == old(s) || s == Fetched(old(s))) && seen == old(seen)
      ensures old(seen) <= seen && NothingLost()
      ensures Completes(old(s), s) ==> ProperlyCompleted(s)
      ensures Resumable(old(s), s, answer) && Honest(old(s), s) && Moved(old(s), s, still, answer)
      ensures still && works && Eligible(old(s), q) ==>
                (answer == Cleaned || answer == Died) && (old(life) >= 8 ==> answer == Cleaned)
      ensures still && Eligible(old(s), q) && !Completes(old(s), s) ==> Eligible(s, q)
    {
      var refusal := CheckVerified(q, works);
      FetchedEligible(old(s), q);
      if refusal.Some? {
        VerifiedReply(old(s), q, refusal.value, works);
        return refusal.value;
      }
      VerifiedReply(old(s), q, Cleaned, works);
      answer := ActVerified(q, still, works, old(s));
    }

    /** Its second half, after the fetch: what it leaves of the state it began with. */
    method ActVerified(q: Request, still: bool, works: bool, ghost before: State) returns (answer: Answer)
      requires Grown() && s == Fetched(before) && !CancelledRoute(before) && CanTransition(before.status, Completed)
      requires MergedIntoTarget(s) && TargetSafe(s, q) && q.confirm && !q.deleteRemoteBranch
      modifies this`s, this`life, this`seen
      ensures Acted(answer) && old(seen) <= seen && NothingLost()
      ensures Completes(before, s) ==> ProperlyCompleted(s)
      ensures Resumable(before, s, answer) && Honest(before, s) && Moved(before, s, still, answer)
      ensures still && works ==> (answer == Cleaned || answer == Died) && (old(life) >= 8 ==> answer == Cleaned)
      ensures still && !Completes(before, s) ==> Eligible(s, q)
    {
      answer := CompleteVerified(q, still, works);
      FetchedOutcome(before, s, answer);
    }

    /** The verified-merge route up to its first write: fetches, and removes nothing. */
    method CheckVerified(q: Request, works: bool) returns (refusal: Option<Answer>)
      requires Grown()
      modifies this`s
      ensures Grown() && NothingLost() && (s == old(s) || s == Fetched(old(s)))
      ensures refusal.None? ==> s == Fetched(old(s)) && MergedIntoTarget(s) && TargetSafe(s, q) && q.confirm
      ensures refusal.Some? ==> refusal.value in {MergeNotVerified, Refused, DryRun}
      ensures refusal == Some(MergeNotVerified) && works ==> !MergedIntoTarget(old(s))
      ensures refusal == Some(Refused) ==> !TargetSafe(Fetched(old(s)), q)
      ensures refusal == Some(DryRun) ==> !q.confirm && MergedIntoTarget(old(s)) && TargetSafe(Fetched(old(s)), q)
      ensures works && MergedIntoTarget(old(s)) && TargetSafe(Fetched(old(s)), q) && q.confirm ==> refusal.None?
    {
      var verified := VerifyMerge(works);
      if !verified {
        return Some(MergeNotVerified);
      }
      if !TargetSafe(s, q) {
        return Some(Refused);
      }
      return if q.confirm then None else Some(DryRun);
    }

    /** The verified-merge route from the `merge_verified_at` write on. */
    method CompleteVerified(q: Request, still: bool, works: bool) returns (answer: Answer)
      requires Grown() && !CancelledRoute(s) && CanTransition(s.status, Completed)
      requires MergedIntoTarget(s) && TargetSafe(s, q) && s == Fetched(s) && q.confirm && !q.deleteRemoteBranch
      modifies this`s, this`life, this`seen
      ensures Acted(answer) && old(seen) <= seen && NothingLost()
      ensures Completes(old(s), s) ==> ProperlyCompleted(s)
      ensures Resumable(old(s), s, answer) && Honest(old(s), s) && Moved(old(s), s, still, answer)
      ensures still && works ==> (answer == Cleaned || answer == Died) && (old(life) >= 8 ==> answer == Cleaned)
      ensures still && !Completes(old(s), s) ==> Eligible(s, q)
    {
      var alive := Write(s.(mergeVerified := true));
      KeptOnBranch(s, seen);
      if !alive {
        return Died;
      }
      answer := PerformCleanup(s.branch, true, still, works);
      VerifiedOutcome(old(s), s, answer);
      if still && !Completes(old(s), s) {
        RetryStaysEligible(old(s), s, q);
      }
    }

    /** `verify_merge` fetches first, and only for a merged PR whose commit is known; the fetch may fail. */
    method VerifyMerge(works: bool) returns (verified: bool)
      requires Grown()
      modifies this`s
      ensures Grown() && NothingLost() && (s == old(s) || s == Fetched(old(s)))
      ensures verified ==> s == old(s).(tracking := old(s).remoteBranch)
      ensures verified ==> s.prMerged && s.mergeCommit.Some? && Reaches(s.remoteTarget, s.mergeCommit.value)
      ensures works && !verified ==>
                !(s.prMerged && s.mergeCommit.Some? && Reaches(s.remoteTarget, s.mergeCommit.value))
    {
      KeptOnBranch(s, seen);
      if !s.prMerged || s.mergeCommit.None? {
        return false;
      }
      var fetchFails: bool := *;
      if fetchFails && !works {
        return false;
      }
      s := Fetched(s);
      KeptOnBranch(s, seen);
      return Reaches(s.remoteTarget, s.mergeCommit.value);
    }

    /**
     Cleanup is resumable. Any attempts, cut short at any write or left incomplete, come before a
     last one in which git succeeds and nobody interferes; `found` is the state that one starts from.
     If nobody interfered in the earlier ones either, whatever git did and wherever they died, an
     eligible cleanup is still eligible and ends as an uninterrupted one would.
     */
    method CleanUpWithRetries(q: Request, attempts: seq<Attempt>) returns (answer: Answer, ghost found: State)
      requires Grown()
      modifies this
      ensures Completes(old(s), found)
              ==> OnlyQueueAndEventMissing(old(s), found) && answer == Blocked && s == found
      ensures !Completes(old(s), found) ==> Finished(found) == Finished(old(s))
      ensures !Completes(old(s), found) && Permitted(found, q) ==>
                answer == Cleaned && s == Finished(old(s)) && CleanedUp(old(s), s)
      ensures !Completes(old(s), found) && Permitted(old(s), q) && (forall j :: 0 <= j < |attempts| ==> attempts[j].still)
              ==> answer == Cleaned && s == Finished(old(s)) && CleanedUp(old(s), s)
    {
      var i := 0;
      while i < |attempts|
        invariant Grown() && i <= |attempts| && Left(old(s), s)
        invariant (forall j :: 0 <= j < i ==> attempts[j].still) ==> StillEligible(old(s), s, q)
      {
        answer := Retry(q, attempts[i], old(s));
        i := i + 1;
      }
      found := s;
      answer := LastAttempt(q, old(s));
    }

    /** The attempt in which git succeeds and nobody interferes. */
    method LastAttempt(q: Request, ghost first: State) returns (answer: Answer)
      requires Grown() && Left(first, s)
      modifies this
      ensures Completes(first, old(s)) ==> answer == Blocked && s == old(s)
      ensures !Completes(first, old(s)) && Permitted(old(s), q) ==>
                answer == Cleaned && s == Finished(first) && CleanedUp(first, s)
    {
      life := 8;
      answer := RunIntegrationCleanup(q, true, true);
      FinishedIsCleanedUp(first);
    }

    /** One of several attempts, after those since `first`. */
    method Retry(q: Request, attempt: Attempt, ghost first: State) returns (answer: Answer)
      requires Grown() && Left(first, s)
      modifies this
      ensures Grown() && Left(first, s)
      ensures attempt.still && StillEligible(first, old(s), q) ==> StillEligible(first, s, q)
    {
      life := attempt.life;
      answer := RunIntegrationCleanup(q, attempt.still, attempt.works);
      seen := if s.branch.Some? then {s.branch.value} else {};
      LeftAfter(first, old(s), s, answer);
    }
  }

  /** A request that was eligible still is, or the Ticket is completed. */
  predicate StillEligible(s: State, t: State, q: Request)
  {
    Permitted(s, q) && !Completes(s, t) ==> Permitted(t, q)
  }
}
