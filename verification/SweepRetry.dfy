/**
 What a failed sweep leaves behind: while no hash is saved the record is flagged, so that the user may
 submit the deposit again.
 */
module SweepRetry {
  import opened Options
  import opened SweepModel
  import SweepDurability
  import SweepSolvency

  /** A live task of the deposit that has no hash yet. */
  ghost predicate Works(w: World, t: TaskId, id: Id) {
    t in w.tasks && w.tasks[t].record.claim.id == id && w.tasks[t].record.sweepTx.None?
  }

  /** The record of an uncredited deposit has neither a hash nor an error. */
  ghost predicate Unresolved(w: World, id: Id) {
    id in w.disk && w.disk[id].sweepTx.None? && !w.disk[id].error && id !in w.ledger.credits
  }

  /** Somebody works on each such record. */
  ghost predicate Driven(w: World, id: Id) {
    Unresolved(w, id) ==> exists t :: Works(w, t, id)
  }

  /** A crash, or the cancellation of a task of the deposit. */
  ghost predicate Interrupts(w: World, a: Action, id: Id) {
    || a == Happen(Crash)
    || (a.Drop? && a.t in w.tasks && w.tasks[a.t].record.claim.id == id)
  }

  /** After a step of `t` for the deposit, `t` works on an unresolved record, or it did not before
      and leaves the record to others. */
  ghost predicate LeavesDriven(w: World, w': World, t: TaskId, id: Id) {
    Unresolved(w', id) ==> Works(w', t, id) || (Unresolved(w, id) && !Works(w, t, id))
  }

  lemma PrepareLeavesDriven(w: World, t: TaskId, step: PrepareStep)
    requires SweepSolvency.Solvent(w) && t in w.tasks && PrepareEnabled(w, t, step)
    ensures LeavesDriven(w, AfterPrepare(w, t, step), t, w.tasks[t].record.claim.id)
  {
    assert SweepSolvency.TaskOk(w, w.tasks[t]);
  }

  lemma FundLeavesDriven(w: World, t: TaskId, step: FundStep)
    requires SweepSolvency.Solvent(w) && t in w.tasks && FundEnabled(w, t, step)
    ensures LeavesDriven(w, AfterFund(w, t, step), t, w.tasks[t].record.claim.id)
  {
    assert SweepSolvency.TaskOk(w, w.tasks[t]);
  }

  lemma SweepLeavesDriven(w: World, t: TaskId, step: SweepStep)
    requires SweepSolvency.Solvent(w) && t in w.tasks && SweepEnabled(w, t, step)
    ensures LeavesDriven(w, AfterSweep(w, t, step), t, w.tasks[t].record.claim.id)
  {
    assert SweepSolvency.TaskOk(w, w.tasks[t]);
  }

  lemma SettleLeavesDriven(w: World, t: TaskId, step: SettleStep)
    requires SweepSolvency.Solvent(w) && t in w.tasks && SettleEnabled(w, t, step)
    ensures LeavesDriven(w, AfterSettle(w, t, step), t, w.tasks[t].record.claim.id)
  {
    assert SweepSolvency.TaskOk(w, w.tasks[t]);
  }

  lemma OwnStepLeavesDriven(w: World, a: Action)
    requires SweepSolvency.Solvent(w) && Enabled(w, a) && !a.Happen?
    requires !Interrupts(w, a, ClaimOf(w, a).id)
    ensures LeavesDriven(w, Next(w, a), a.t, ClaimOf(w, a).id)
  {
    match a
    case Load(_, id) => assert SweepSolvency.DiskOk(w, id);
    case Prepare(t, step) => PrepareLeavesDriven(w, t, step);
    case Fund(t, step) => FundLeavesDriven(w, t, step);
    case Sweep(t, step) => SweepLeavesDriven(w, t, step);
    case Settle(t, step) => SettleLeavesDriven(w, t, step);
    case _ =>
  }

  lemma NextStaysDriven(w: World, a: Action, w': World, id: Id)
    requires SweepSolvency.Solvent(w) && Enabled(w, a) && w' == Next(w, a) && !Interrupts(w, a, id) && Driven(w, id)
    ensures Driven(w', id)
  {
    if Unresolved(w', id) {
      if a.Happen? {
        var t :| Works(w, t, id);
        assert Works(w', t, id);
      } else {
        var c := ClaimOf(w, a);
        TaskActionIsFramed(w, a);
        assert SameEntry(w.disk, w'.disk, id) || id == c.id;
        if id == c.id {
          OwnStepLeavesDriven(w, a);
        }
        if !Works(w', a.t, id) {
          var t :| Works(w, t, id);
          assert SameEntry(w.tasks, w'.tasks, t) && Works(w', t, id);
        }
      }
    }
  }

  lemma SolventBefore(run: seq<World>, acts: seq<Action>, n: nat)
    requires ActedRun(run, acts) && n <= |acts|
    ensures SweepSolvency.Solvent(run[n])
  {
    ActedRunIsRun(run, acts);
    SweepSolvency.RunsAreSolvent(run, n);
  }

  lemma {:induction false} RunsStayDriven(run: seq<World>, acts: seq<Action>, n: nat, id: Id)
    requires ActedRun(run, acts) && n <= |acts|
    requires forall k :: 0 <= k < n ==> !Interrupts(run[k], acts[k], id)
    ensures Driven(run[n], id)
  {
    if n > 0 {
      RunsStayDriven(run, acts, n - 1, id);
      ActedStep(run, acts, n - 1);
      SolventBefore(run, acts, n - 1);
      NextStaysDriven(run[n - 1], acts[n - 1], run[n], id);
    }
  }

  /** However sweeps of a deposit fail, short of a crash or a cancellation, it is credited, or its
      sweep hash is saved for recovery, or a task still works on it, or the user may start it anew. */
  lemma FailedSweepsCanBeRetried(run: seq<World>, acts: seq<Action>, n: nat, id: Id)
    requires ActedRun(run, acts) && n <= |acts|
    requires forall k :: 0 <= k < n ==> !Interrupts(run[k], acts[k], id)
    ensures || id in run[n].ledger.credits
            || (id in run[n].disk && run[n].disk[id].sweepTx.Some?)
            || (exists t :: Works(run[n], t, id))
            || MayStart(run[n].disk, id)
  {
    RunsStayDriven(run, acts, n, id);
  }

  // ----- a sweep started anew is not reported as failed -----

  /** The step of another deposit's task, or of the environment, leaves the deposit's file alone. */
  lemma OtherStepsKeepFile(w: World, a: Action, t: TaskId)
    requires Enabled(w, a) && t in w.tasks && t in Next(w, a).tasks && TaskOf(a) != Some(t)
    requires SweepDurability.SingleDriver(Next(w, a)) && SweepDurability.SingleDriver(w)
    requires SweepSolvency.Solvent(w)
    ensures var id := w.tasks[t].record.claim.id; SameEntry(w.disk, Next(w, a).disk, id)
  {
    if !a.Happen? {
      TaskActionIsFramed(w, a);
      OthersKeepTask(w, a, t);
      if a.Load? {
        assert SweepSolvency.DiskOk(w, a.id);
      }
    }
  }

  /** A task that started without an error has none, and leaves none on disk while it lives. */
  ghost predicate Unfailed(w: World, t: TaskId) {
    t in w.tasks ==>
      && !w.tasks[t].record.error
      && (w.tasks[t].record.claim.id in w.disk ==> !w.disk[w.tasks[t].record.claim.id].error)
  }

  lemma PrepareStaysUnfailed(w: World, t: TaskId, step: PrepareStep)
    requires t in w.tasks && PrepareEnabled(w, t, step) && Unfailed(w, t)
    ensures Unfailed(AfterPrepare(w, t, step), t)
  {
  }

  lemma FundStaysUnfailed(w: World, t: TaskId, step: FundStep)
    requires t in w.tasks && FundEnabled(w, t, step) && Unfailed(w, t)
    ensures Unfailed(AfterFund(w, t, step), t)
  {
  }

  lemma SweepStaysUnfailed(w: World, t: TaskId, step: SweepStep)
    requires t in w.tasks && SweepEnabled(w, t, step) && Unfailed(w, t)
    ensures Unfailed(AfterSweep(w, t, step), t)
  {
  }

  lemma SettleStaysUnfailed(w: World, t: TaskId, step: SettleStep)
    requires t in w.tasks && SettleEnabled(w, t, step) && Unfailed(w, t)
    ensures Unfailed(AfterSettle(w, t, step), t)
  {
  }

  lemma NextStaysUnfailed(w: World, a: Action, t: TaskId)
    requires Enabled(w, a) && t in w.tasks && Unfailed(w, t)
    requires SweepDurability.SingleDriver(w) && SweepDurability.SingleDriver(Next(w, a)) && SweepSolvency.Solvent(w)
    ensures Unfailed(Next(w, a), t)
    ensures t in Next(w, a).tasks ==> Next(w, a).tasks[t].record.claim == w.tasks[t].record.claim
  {
    if t in Next(w, a).tasks {
      if TaskOf(a) == Some(t) {
        TaskActionIsFramed(w, a);
        match a
        case Prepare(_, step) => PrepareStaysUnfailed(w, t, step);
        case Fund(_, step) => FundStaysUnfailed(w, t, step);
        case Sweep(_, step) => SweepStaysUnfailed(w, t, step);
        case Settle(_, step) => SettleStaysUnfailed(w, t, step);
        case _ =>
      } else {
        OthersKeepTask(w, a, t);
        OtherStepsKeepFile(w, a, t);
      }
    }
  }

  lemma BeginIsUnfailed(w: World, claim: Claim, t: TaskId)
    requires Enabled(w, Begin(t, claim))
    ensures IsRetry(Next(w, Begin(t, claim)), t, claim)
  {
  }

  ghost predicate IsRetry(w: World, t: TaskId, claim: Claim) {
    Unfailed(w, t) && (t in w.tasks ==> w.tasks[t].record.claim == claim)
  }

  lemma RetryGoesOn(w: World, a: Action, w': World, t: TaskId, claim: Claim)
    requires SweepSolvency.Solvent(w) && SweepDurability.SingleDriver(w) && SweepDurability.SingleDriver(w')
    requires Enabled(w, a) && w' == Next(w, a) && t in w.tasks && IsRetry(w, t, claim)
    ensures IsRetry(w', t, claim)
  {
    NextStaysUnfailed(w, a, t);
  }

  /** Starting again clears the failure: with one driver per deposit, from the submission on and for
      as long as its task lives, the deposit has no flagged record. */
  lemma {:induction false} RestartClearsFailure(run: seq<World>, acts: seq<Action>, b: nat, n: nat, t: TaskId)
    requires ActedRun(run, acts) && b < n <= |acts| && acts[b].Begin? && acts[b].t == t
    requires forall k :: 0 <= k < |run| ==> SweepDurability.SingleDriver(run[k])
    requires forall k :: b < k <= n ==> t in run[k].tasks
    ensures IsRetry(run[n], t, acts[b].claim)
  {
    ActedStep(run, acts, n - 1);
    if n > b + 1 {
      RestartClearsFailure(run, acts, b, n - 1, t);
      SolventBefore(run, acts, n - 1);
      RetryGoesOn(run[n - 1], acts[n - 1], run[n], t, acts[b].claim);
    } else {
      BeginIsUnfailed(run[b], acts[b].claim, t);
    }
  }

  /** An exception reaches a task's handler: an await raised, or the reply to a broadcast was lost, or
      the contract refused the credit during startup. */
  predicate Fails(a: Action) {
    match a
    case Raise(_) => true
    case Fund(_, step) => step == AcceptGas(false)
    case Sweep(_, step) => step == AcceptSweep(false)
    case Settle(_, step) => step == CreditRefused(true)
    case _ => false
  }

  ghost predicate IsFlagged(w: World, id: Id) {
    id in w.disk && w.disk[id].error
  }

  /** Only a failure of a task of the deposit, with no hash saved, flags its record. */
  lemma OnlyFailuresFlag(run: seq<World>, acts: seq<Action>, k: nat, id: Id)
    requires ActedRun(run, acts) && k < |acts| && IsFlagged(run[k + 1], id) && !IsFlagged(run[k], id)
    ensures Fails(acts[k]) && acts[k].t in run[k].tasks && run[k].tasks[acts[k].t].record.claim.id == id
    ensures id in run[k].disk && run[k].disk[id].sweepTx.None?
  {
    ActedStep(run, acts, k);
    SolventBefore(run, acts, k);
    FlaggingFails(run[k], acts[k], id);
  }

  lemma FlaggingFails(w: World, a: Action, id: Id)
    requires SweepSolvency.Solvent(w) && Enabled(w, a) && IsFlagged(Next(w, a), id) && !IsFlagged(w, id)
    ensures Fails(a) && a.t in w.tasks && w.tasks[a.t].record.claim.id == id
    ensures id in w.disk && w.disk[id].sweepTx.None?
  {
    assert SweepSolvency.DiskOk(w, id);
    if !a.Happen? && a.t in w.tasks {
      assert SweepSolvency.TaskOk(w, w.tasks[a.t]);
    }
    match a
    case Prepare(_, step) =>
    case Fund(_, step) =>
    case Sweep(_, step) =>
    case Settle(_, step) =>
    case _ =>
  }

  // ----- what takes a record off the disk -----

  predicate AtCleanup(w: World, t: TaskId) {
    t in w.tasks && w.tasks[t].pc.Cleanup?
  }

  /** Only an answered credit leads a task to the deletion of its record. */
  lemma CleanupStep(w: World, a: Action, w': World, t: TaskId)
    requires Enabled(w, a) && w' == Next(w, a) && AtCleanup(w', t)
    ensures a == Settle(t, CreditDeposit(true)) || (TaskOf(a) != Some(t) && AtCleanup(w, t))
  {
    if TaskOf(a) == Some(t) {
      match a
      case Prepare(_, step) =>
      case Fund(_, step) =>
      case Sweep(_, step) =>
      case Settle(_, step) =>
      case _ =>
    } else {
      OthersKeepTask(w, a, t);
    }
  }

  lemma CleanupBefore(run: seq<World>, acts: seq<Action>, n: nat, t: TaskId)
    requires ActedRun(run, acts) && n <= |acts| && AtCleanup(run[n], t)
    ensures n > 0
    ensures acts[n - 1] == Settle(t, CreditDeposit(true))
            || (TaskOf(acts[n - 1]) != Some(t) && AtCleanup(run[n - 1], t))
  {
    assert n > 0;
    ActedStep(run, acts, n - 1);
    CleanupStep(run[n - 1], acts[n - 1], run[n], t);
  }

  lemma {:induction false} CleanupFollowsReply(run: seq<World>, acts: seq<Action>, n: nat, t: TaskId) returns (j: nat)
    requires ActedRun(run, acts) && n <= |acts| && AtCleanup(run[n], t)
    ensures j < n && acts[j] == Settle(t, CreditDeposit(true)) && forall k :: j < k < n ==> TaskOf(acts[k]) != Some(t)
  {
    CleanupBefore(run, acts, n, t);
    if acts[n - 1] == Settle(t, CreditDeposit(true)) {
      j := n - 1;
    } else {
      j := CleanupFollowsReply(run, acts, n - 1, t);
    }
  }

  lemma RemovalStep(w: World, a: Action, id: Id)
    requires SweepSolvency.Solvent(w) && Enabled(w, a) && id in w.disk && id !in Next(w, a).disk
    ensures || (a.Begin? && a.claim.id == id && w.disk[id].error)
            || (a == Settle(a.t, DeleteRecord) && AtCleanup(w, a.t) && w.tasks[a.t].record.claim.id == id)
  {
    assert SweepSolvency.DiskOk(w, id);
    match a
    case Prepare(_, step) =>
    case Fund(_, step) =>
    case Sweep(_, step) =>
    case Settle(_, step) =>
    case _ =>
  }

  /** A record leaves the disk only when its deposit is submitted again after a failure, or once its
      task had the answer that it was credited. */
  lemma RecordsAreRemovedWhenDone(run: seq<World>, acts: seq<Action>, k: nat, id: Id) returns (j: nat)
    requires ActedRun(run, acts) && k < |acts| && id in run[k].disk && id !in run[k + 1].disk
    ensures || (acts[k].Begin? && acts[k].claim.id == id && run[k].disk[id].error)
            || (&& !acts[k].Happen? && acts[k] == Settle(acts[k].t, DeleteRecord)
                && acts[k].t in run[k].tasks && run[k].tasks[acts[k].t].record.claim.id == id
                && j < k && acts[j] == Settle(acts[k].t, CreditDeposit(true))
                && forall i :: j < i < k ==> TaskOf(acts[i]) != Some(acts[k].t))
  {
    ActedStep(run, acts, k);
    SolventBefore(run, acts, k);
    RemovalStep(run[k], acts[k], id);
    if acts[k].Settle? {
      j := CleanupFollowsReply(run, acts, k, acts[k].t);
    } else {
      j := 0;
    }
  }
}
