/**
 The engine's locks: one task at a time sweeps an address, one at a time uses the gas tank, and
 however tasks end no lock outlives its holder.
 */
module SweepLocks {
  import opened Options
  import opened SweepModel

  /** The part of a task that runs under the address lock whichever way it got there. */
  predicate Sweeps(pc: Pc) {
    !pc.WaitAddress? && !pc.Reconcile? && !pc.Dispatch? && !pc.Credit? && !pc.Cleanup?
  }

  /** Where a task may hold an address lock at all. */
  predicate MayHold(pc: Pc) {
    Sweeps(pc) || pc.Credit? || pc.Cleanup?
  }

  ghost predicate HolderOk(w: World, key: (Address, ChainId)) {
    key in w.locks.address ==>
      var t := w.locks.address[key];
      t in w.tasks && LockKey(w.tasks[t].record.claim) == key && MayHold(w.tasks[t].pc)
  }

  ghost predicate TaskOk(w: World, t: TaskId) {
    t in w.tasks ==>
      var key := LockKey(w.tasks[t].record.claim);
      && (Sweeps(w.tasks[t].pc) ==> key in w.locks.address && w.locks.address[key] == t)
      && (UsesTank(w.tasks[t].pc) <==> w.locks.tank == Some(t))
  }

  ghost predicate Locked(w: World) {
    && (forall key :: HolderOk(w, key))
    && (forall t :: TaskOk(w, t))
    && (w.locks.tank.Some? ==> w.locks.tank.value in w.tasks)
  }

  /** A step of `t` leaves its own locks in order and those of others alone. */
  ghost predicate LockStep(w: World, w': World, t: TaskId, key: (Address, ChainId)) {
    && HolderOk(w', key) && TaskOk(w', t)
    && (w'.locks.tank.Some? ==> w'.locks.tank.value in w'.tasks)
    && (key in w.locks.address && w.locks.address[key] != t ==> SameEntry(w.locks.address, w'.locks.address, key))
    && (w.locks.tank.Some? && w.locks.tank != Some(t) ==> w'.locks.tank == w.locks.tank)
    && (w'.locks.tank.Some? && w'.locks.tank != Some(t) ==> w'.locks.tank == w.locks.tank)
  }

  lemma PrepareIsLockStep(w: World, t: TaskId, step: PrepareStep)
    requires Locked(w) && t in w.tasks && PrepareEnabled(w, t, step)
    ensures LockStep(w, AfterPrepare(w, t, step), t, LockKey(w.tasks[t].record.claim))
  {
    assert TaskOk(w, t) && HolderOk(w, LockKey(w.tasks[t].record.claim));
  }

  lemma FundIsLockStep(w: World, t: TaskId, step: FundStep)
    requires Locked(w) && t in w.tasks && FundEnabled(w, t, step)
    ensures LockStep(w, AfterFund(w, t, step), t, LockKey(w.tasks[t].record.claim))
  {
    assert TaskOk(w, t) && HolderOk(w, LockKey(w.tasks[t].record.claim));
  }

  lemma SweepIsLockStep(w: World, t: TaskId, step: SweepStep)
    requires Locked(w) && t in w.tasks && SweepEnabled(w, t, step)
    ensures LockStep(w, AfterSweep(w, t, step), t, LockKey(w.tasks[t].record.claim))
  {
    assert TaskOk(w, t) && HolderOk(w, LockKey(w.tasks[t].record.claim));
  }

  lemma SettleIsLockStep(w: World, t: TaskId, step: SettleStep)
    requires Locked(w) && t in w.tasks && SettleEnabled(w, t, step)
    ensures LockStep(w, AfterSettle(w, t, step), t, LockKey(w.tasks[t].record.claim))
  {
    assert TaskOk(w, t) && HolderOk(w, LockKey(w.tasks[t].record.claim));
  }

  lemma ActionIsLockStep(w: World, a: Action)
    requires Locked(w) && Enabled(w, a) && !a.Happen?
    ensures LockStep(w, Next(w, a), a.t, LockKey(ClaimOf(w, a)))
  {
    assert TaskOk(w, a.t) && HolderOk(w, LockKey(ClaimOf(w, a)));
    match a
    case Prepare(t, step) => PrepareIsLockStep(w, t, step);
    case Fund(t, step) => FundIsLockStep(w, t, step);
    case Sweep(t, step) => SweepIsLockStep(w, t, step);
    case Settle(t, step) => SettleIsLockStep(w, t, step);
    case _ =>
  }

  lemma LockStepKeepsLocked(w: World, w': World, t: TaskId, c: Claim)
    requires Locked(w) && Framed(w, w', t, c) && LockStep(w, w', t, LockKey(c))
    requires t in w.tasks ==> w.tasks[t].record.claim == c
    ensures Locked(w')
  {
    forall key ensures HolderOk(w', key) {
      assert HolderOk(w, key);
      if key != LockKey(c) {
        assert SameEntry(w.locks.address, w'.locks.address, key);
        assert key in w.locks.address ==> SameEntry(w.tasks, w'.tasks, w.locks.address[key]);
      }
    }
    forall u ensures TaskOk(w', u) {
      assert TaskOk(w, u);
      if u != t {
        assert SameEntry(w.tasks, w'.tasks, u);
        if u in w.tasks && LockKey(w.tasks[u].record.claim) != LockKey(c) {
          assert SameEntry(w.locks.address, w'.locks.address, LockKey(w.tasks[u].record.claim));
        }
      }
    }
  }

  lemma NextKeepsLocked(w: World, a: Action)
    requires Locked(w) && Enabled(w, a)
    ensures Locked(Next(w, a))
  {
    if a.Happen? {
      var w' := Next(w, a);
      forall key ensures HolderOk(w', key) {
        assert HolderOk(w, key);
      }
      forall t ensures TaskOk(w', t) {
        assert TaskOk(w, t);
      }
    } else {
      ActionIsLockStep(w, a);
      TaskActionIsFramed(w, a);
      LockStepKeepsLocked(w, Next(w, a), a.t, ClaimOf(w, a));
    }
  }

  lemma {:induction false} RunsAreLocked(run: seq<World>, i: nat)
    requires Run(run) && i < |run|
    ensures Locked(run[i])
  {
    if i > 0 {
      RunsAreLocked(run, i - 1);
      assert Step(run[i - 1], run[i]);
      var a :| Enabled(run[i - 1], a) && run[i] == Next(run[i - 1], a);
      NextKeepsLocked(run[i - 1], a);
    }
  }

  /** In every run, no two tasks are in the midst of sweeping one address, or of using the gas tank. */
  lemma SweepsOfAnAddressAreSerial(run: seq<World>, i: nat, t: TaskId, u: TaskId)
    requires Run(run) && i < |run| && t in run[i].tasks && u in run[i].tasks && t != u
    ensures var a, b := run[i].tasks[t], run[i].tasks[u];
            && !(Sweeps(a.pc) && Sweeps(b.pc) && a.record.claim.address == b.record.claim.address
                 && a.record.claim.chain == b.record.claim.chain)
            && !(UsesTank(a.pc) && UsesTank(b.pc))
  {
    RunsAreLocked(run, i);
    assert TaskOk(run[i], t) && TaskOk(run[i], u);
  }

  /** In every run, a lock is free unless a live task past its acquisition holds it, so whoever waits
      for a lock waits for a task that goes on; however a task ends, it leaves none behind. */
  lemma NoLockOutlivesItsTask(run: seq<World>, i: nat, t: TaskId)
    requires Run(run) && i < |run| && t in run[i].tasks
    ensures run[i].tasks[t].pc.WaitAddress? ==>
              || PrepareEnabled(run[i], t, AcquireAddress)
              || exists u :: u in run[i].tasks && MayHold(run[i].tasks[u].pc)
                             && run[i].tasks[u].record.claim.address == run[i].tasks[t].record.claim.address
                             && run[i].tasks[u].record.claim.chain == run[i].tasks[t].record.claim.chain
    ensures run[i].tasks[t].pc.WaitTank? ==>
              FundEnabled(run[i], t, AcquireTank) || exists u :: u in run[i].tasks && UsesTank(run[i].tasks[u].pc)
  {
    RunsAreLocked(run, i);
    var w, key := run[i], LockKey(run[i].tasks[t].record.claim);
    assert HolderOk(w, key);
    if w.locks.tank.Some? {
      assert TaskOk(w, w.locks.tank.value);
    }
  }
}
