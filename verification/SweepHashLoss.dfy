/**
 When a saved sweep hash is lost, for any number of drivers: exactly when a task on the way to a
 broadcast saves its record over it.  If the deposit's sweeps are all for one address, whose lock
 they share, that save can only be the fresh PENDING record.
 */
module SweepHashLoss {
  import opened Options
  import opened SweepModel
  import SweepDurability
  import SweepSolvency

  ghost predicate HasHash(w: World, id: Id) {
    SweepDurability.HasHash(w, id)
  }

  /** The failing branch: a task saves its PENDING record, and the file already holds a hash. */
  ghost predicate FreshOverHash(w: World, a: Action, id: Id) {
    && a.Prepare? && a.prepare.SaveFresh? && a.t in w.tasks && w.tasks[a.t].record.claim.id == id
    && HasHash(w, id) && id !in w.ledger.credits
  }

  /** Every task of the deposit is for the same address. */
  ghost predicate OneAddress(w: World, id: Id, key: (Address, ChainId)) {
    forall t :: t in w.tasks && w.tasks[t].record.claim.id == id ==> LockKey(w.tasks[t].record.claim) == key
  }

  // ----- the invariant -----

  predicate UnderLock(pc: Pc) {
    pc.ReadBalance? || pc.CheckProcessed? || pc.PriceGas? || Between(pc)
  }

  /** After the fresh save, up to the save of the hash. */
  predicate Between(pc: Pc) {
    || pc.WaitTank? || pc.ReadTankNonce? || pc.SendGas? || pc.GasSent? || pc.GasAccepted? || pc.WaitGasReceipt?
    || pc.PriceSweep? || pc.SendSweep? || pc.SweepSent? || pc.SweepAccepted?
  }

  ghost predicate HoldsLock(w: World, t: TaskId) {
    t in w.tasks && UnderLock(w.tasks[t].pc) ==>
      var key := LockKey(w.tasks[t].record.claim); key in w.locks.address && w.locks.address[key] == t
  }

  ghost predicate CleansUpCredited(w: World, t: TaskId) {
    t in w.tasks && w.tasks[t].pc.Cleanup? ==> w.tasks[t].record.claim.id in w.ledger.credits
  }

  /** Between the two saves there is no hash on disk, and a hash a task knows is the one on disk. */
  ghost predicate Fits(w: World, task: Task, id: Id) {
    && (Between(task.pc) ==> !HasHash(w, id))
    && (task.record.sweepTx.Some? ==> HasHash(w, id) && w.disk[id].sweepTx == task.record.sweepTx)
  }

  /** Every task of the deposit fits. */
  ghost predicate AllFit(w: World, id: Id) {
    forall t :: t in w.tasks && w.tasks[t].record.claim.id == id ==> Fits(w, w.tasks[t], id)
  }

  ghost predicate Guarded(w: World, id: Id) {
    && (forall t :: HoldsLock(w, t) && CleansUpCredited(w, t))
    && (id !in w.ledger.credits ==> AllFit(w, id))
  }

  // ----- steps of the deposit's own tasks -----

  ghost predicate KeepsHash(w: World, w': World, id: Id) {
    HasHash(w, id) ==> HasHash(w', id) && w'.disk[id].sweepTx == w.disk[id].sweepTx && !w'.disk[id].error
  }

  ghost predicate OwnStep(w: World, w': World, t: TaskId, id: Id) {
    id !in w'.ledger.credits ==>
      && (t in w'.tasks ==> Fits(w', w'.tasks[t], id))
      && KeepsHash(w, w', id)
      && (HasHash(w', id) && !HasHash(w, id) ==> t in w.tasks && Between(w.tasks[t].pc))
  }

  ghost predicate Ready(w: World, t: TaskId, id: Id) {
    && SweepSolvency.Solvent(w) && Guarded(w, id) && t in w.tasks && w.tasks[t].record.claim.id == id
    && SweepSolvency.DiskOk(w, id) && SweepSolvency.TaskOk(w, w.tasks[t])
    && HoldsLock(w, t) && CleansUpCredited(w, t)
  }

  lemma OwnPrepare(w: World, t: TaskId, step: PrepareStep, id: Id)
    requires Ready(w, t, id) && PrepareEnabled(w, t, step) && !FreshOverHash(w, Prepare(t, step), id)
    ensures OwnStep(w, AfterPrepare(w, t, step), t, id)
  {
  }

  lemma OwnFund(w: World, t: TaskId, step: FundStep, id: Id)
    requires Ready(w, t, id) && FundEnabled(w, t, step)
    ensures OwnStep(w, AfterFund(w, t, step), t, id)
  {
  }

  lemma OwnSweep(w: World, t: TaskId, step: SweepStep, id: Id)
    requires Ready(w, t, id) && SweepEnabled(w, t, step)
    ensures OwnStep(w, AfterSweep(w, t, step), t, id)
  {
  }

  lemma OwnSettle(w: World, t: TaskId, step: SettleStep, id: Id)
    requires Ready(w, t, id) && SettleEnabled(w, t, step)
    ensures OwnStep(w, AfterSettle(w, t, step), t, id)
  {
  }

  lemma OwnAction(w: World, a: Action, id: Id)
    requires SweepSolvency.Solvent(w) && Guarded(w, id) && Enabled(w, a) && !a.Happen? && ClaimOf(w, a).id == id
    requires !FreshOverHash(w, a, id)
    ensures OwnStep(w, Next(w, a), a.t, id)
  {
    assert SweepSolvency.DiskOk(w, id);
    assert a.t in w.tasks ==> SweepSolvency.TaskOk(w, w.tasks[a.t]) && HoldsLock(w, a.t) && CleansUpCredited(w, a.t);
    match a
    case Begin(t, claim) =>
    case Load(t, i) => assert SweepSolvency.DiskOk(w, i);
    case Prepare(t, step) => OwnPrepare(w, t, step, id);
    case Fund(t, step) => OwnFund(w, t, step, id);
    case Sweep(t, step) => OwnSweep(w, t, step, id);
    case Settle(t, step) => OwnSettle(w, t, step, id);
    case Raise(t) =>
    case Drop(t) =>
  }

  // ----- steps of other deposits' tasks -----

  lemma OtherAction(w: World, a: Action, id: Id)
    requires Enabled(w, a) && !a.Happen? && ClaimOf(w, a).id != id
    ensures SameEntry(w.disk, Next(w, a).disk, id) && SameEntry(w.ledger.credits, Next(w, a).ledger.credits, id)
    ensures a.t in Next(w, a).tasks ==> Next(w, a).tasks[a.t].record.claim.id != id
  {
    TaskActionIsFramed(w, a);
  }

  // ----- locks -----

  lemma PrepareKeepsLock(w: World, u: TaskId, step: PrepareStep, t: TaskId)
    requires u in w.tasks && PrepareEnabled(w, u, step) && HoldsLock(w, t)
    ensures HoldsLock(AfterPrepare(w, u, step), t)
  {
  }

  lemma FundKeepsLock(w: World, u: TaskId, step: FundStep, t: TaskId)
    requires u in w.tasks && FundEnabled(w, u, step) && HoldsLock(w, t)
    ensures HoldsLock(AfterFund(w, u, step), t)
  {
  }

  lemma SweepKeepsLock(w: World, u: TaskId, step: SweepStep, t: TaskId)
    requires u in w.tasks && SweepEnabled(w, u, step) && HoldsLock(w, t)
    ensures HoldsLock(AfterSweep(w, u, step), t)
  {
  }

  lemma SettleKeepsLock(w: World, u: TaskId, step: SettleStep, t: TaskId)
    requires u in w.tasks && SettleEnabled(w, u, step) && HoldsLock(w, t)
    ensures HoldsLock(AfterSettle(w, u, step), t)
  {
  }

  /** An action releases no lock but its own task's, and enters the locked region only with it. */
  lemma LockStays(w: World, a: Action, t: TaskId)
    requires Enabled(w, a) && HoldsLock(w, t)
    ensures HoldsLock(Next(w, a), t)
  {
    match a
    case Prepare(u, step) => PrepareKeepsLock(w, u, step, t);
    case Fund(u, step) => FundKeepsLock(w, u, step, t);
    case Sweep(u, step) => SweepKeepsLock(w, u, step, t);
    case Settle(u, step) => SettleKeepsLock(w, u, step, t);
    case _ =>
  }

  lemma SettleCleansUpCredited(w: World, u: TaskId, step: SettleStep, t: TaskId)
    requires u in w.tasks && SettleEnabled(w, u, step) && CleansUpCredited(w, t)
    ensures CleansUpCredited(AfterSettle(w, u, step), t)
  {
  }

  lemma CleanupStays(w: World, a: Action, t: TaskId)
    requires Enabled(w, a) && CleansUpCredited(w, t)
    ensures CleansUpCredited(Next(w, a), t)
  {
    match a
    case Prepare(u, step) =>
    case Fund(u, step) =>
    case Sweep(u, step) =>
    case Settle(u, step) => SettleCleansUpCredited(w, u, step, t);
    case _ =>
  }

  // ----- one action -----

  lemma OnlyOneBetween(w: World, id: Id, key: (Address, ChainId), t: TaskId, u: TaskId)
    requires OneAddress(w, id, key) && t in w.tasks && u in w.tasks && HoldsLock(w, t) && HoldsLock(w, u)
    requires w.tasks[t].record.claim.id == id && w.tasks[u].record.claim.id == id
    requires Between(w.tasks[t].pc) && Between(w.tasks[u].pc)
    ensures t == u
  {
  }

  /** The deposit's other tasks still fit what its own task did. */
  lemma OthersFit(w: World, a: Action, w': World, id: Id, key: (Address, ChainId), u: TaskId)
    requires Guarded(w, id) && OneAddress(w, id, key) && Enabled(w, a) && !a.Happen? && w' == Next(w, a)
    requires OwnStep(w, w', a.t, id) && id !in w.ledger.credits && id !in w'.ledger.credits
    requires a.t in w.tasks ==> w.tasks[a.t].record.claim.id == id
    requires u != a.t && u in w.tasks && w'.tasks[u] == w.tasks[u] && w.tasks[u].record.claim.id == id && u in w'.tasks
    ensures Fits(w', w'.tasks[u], id)
  {
    assert Fits(w, w.tasks[u], id) && HoldsLock(w, u);
    if Between(w.tasks[u].pc) && a.t in w.tasks && Between(w.tasks[a.t].pc) {
      assert HoldsLock(w, a.t);
      OnlyOneBetween(w, id, key, u, a.t);
    }
  }

  lemma CreditsStay(w: World, a: Action, id: Id)
    requires Enabled(w, a) && id in w.ledger.credits
    ensures id in Next(w, a).ledger.credits
  {
    SweepDurability.CreditsLast(w, a, id);
  }

  lemma NextStaysGuarded(w: World, a: Action, id: Id, key: (Address, ChainId))
    requires SweepSolvency.Solvent(w) && Guarded(w, id) && OneAddress(w, id, key) && Enabled(w, a)
    requires !FreshOverHash(w, a, id)
    ensures Guarded(Next(w, a), id)
    ensures id !in Next(w, a).ledger.credits ==> KeepsHash(w, Next(w, a), id)
  {
    var w' := Next(w, a);
    forall t ensures HoldsLock(w', t) && CleansUpCredited(w', t) {
      LockStays(w, a, t);
      CleanupStays(w, a, t);
    }
    if id in w.ledger.credits {
      CreditsStay(w, a, id);
    } else if a.Happen? {
      EventStaysGuarded(w, a, id);
    } else {
      TaskActionStaysGuarded(w, a, id, key);
    }
  }

  lemma EventStaysGuarded(w: World, a: Action, id: Id)
    requires SweepSolvency.Solvent(w) && Guarded(w, id) && Enabled(w, a) && a.Happen? && id !in w.ledger.credits
    ensures AllFit(Next(w, a), id)
    ensures KeepsHash(w, Next(w, a), id)
  {
    assert SweepSolvency.DiskOk(w, id);
    var w' := Next(w, a);
    assert w'.disk == w.disk;
    forall t | t in w'.tasks && w'.tasks[t].record.claim.id == id ensures Fits(w', w'.tasks[t], id) {
      assert Fits(w, w.tasks[t], id);
    }
  }

  lemma TaskActionStaysGuarded(w: World, a: Action, id: Id, key: (Address, ChainId))
    requires SweepSolvency.Solvent(w) && Guarded(w, id) && OneAddress(w, id, key) && Enabled(w, a) && !a.Happen?
    requires !FreshOverHash(w, a, id) && id !in w.ledger.credits
    ensures id !in Next(w, a).ledger.credits ==>
              && AllFit(Next(w, a), id)
              && KeepsHash(w, Next(w, a), id)
  {
    var w' := Next(w, a);
    assert SweepSolvency.DiskOk(w, id);
    if ClaimOf(w, a).id == id {
      OwnAction(w, a, id);
    } else {
      OtherAction(w, a, id);
    }
    forall t | t in w'.tasks && w'.tasks[t].record.claim.id == id && id !in w'.ledger.credits
      ensures Fits(w', w'.tasks[t], id)
    {
      if t != a.t {
        OthersKeepTask(w, a, t);
        assert Fits(w, w.tasks[t], id);
        if ClaimOf(w, a).id == id {
          OthersFit(w, a, w', id, key, t);
        }
      }
    }
  }

  // ----- runs -----

  ghost predicate OneAddressRun(run: seq<World>, acts: seq<Action>, id: Id, key: (Address, ChainId)) {
    ActedRun(run, acts) && forall i :: 0 <= i < |run| ==> OneAddress(run[i], id, key)
  }

  ghost predicate NeverFreshOverHash(run: seq<World>, acts: seq<Action>, id: Id)
    requires ActedRun(run, acts)
  {
    forall k :: 0 <= k < |acts| ==> !FreshOverHash(run[k], acts[k], id)
  }

  ghost predicate SavedAt(run: seq<World>, i: nat, id: Id, tx: SweepTx)
    requires i < |run|
  {
    id in run[i].disk && run[i].disk[id].sweepTx == Some(tx)
  }

  /** No hash saved for the deposit is ever overwritten, flagged, or deleted before the credit. */
  ghost predicate NeverLost(run: seq<World>, id: Id) {
    forall i: nat, j: nat, tx :: i <= j < |run| && SavedAt(run, i, id, tx) ==> SweepDurability.HashKept(run[j], id, tx)
  }

  lemma {:induction false} RunIsGuarded(run: seq<World>, acts: seq<Action>, id: Id, key: (Address, ChainId), n: nat)
    requires OneAddressRun(run, acts, id, key) && NeverFreshOverHash(run, acts, id) && n < |run|
    ensures Guarded(run[n], id)
  {
    if n > 0 {
      RunIsGuarded(run, acts, id, key, n - 1);
      ActedRunIsRun(run, acts);
      SweepSolvency.RunsAreSolvent(run, n - 1);
      assert Enabled(run[n - 1], acts[n - 1]) && run[n - 1 + 1] == Next(run[n - 1], acts[n - 1]);
      NextStaysGuarded(run[n - 1], acts[n - 1], id, key);
    }
  }

  /** One driver per deposit meets the condition. */
  lemma SingleDriverMeetsTheCondition(w: World, a: Action, id: Id)
    requires SweepDurability.Durable(w) && Enabled(w, a)
    ensures !FreshOverHash(w, a, id)
  {
    if a.Prepare? {
      assert SweepDurability.DriverOk(w, w.tasks[a.t]);
    }
  }

  // ----- without the hypothesis on addresses -----

  ghost predicate SavesFor(w: World, a: Action, id: Id) {
    (a.Prepare? || a.Fund? || a.Sweep?) && a.t in w.tasks && w.tasks[a.t].record.claim.id == id
  }

  /** The failing branches: a save on the way to a broadcast, and the file already holds the hash of
      another sweep, which the task does not know of. */
  ghost predicate BlindSave(w: World, a: Action, id: Id) {
    && SavesFor(w, a, id) && HasHash(w, id) && id !in w.ledger.credits
    && (a.Prepare? ==> a.prepare.SaveFresh?)
    && (a.Fund? ==> a.fund.SaveGas? && w.tasks[a.t].record.sweepTx.None?)
    && (a.Sweep? ==> a.sweep.SaveHash? && w.tasks[a.t].pc.SweepAccepted?
                     && w.disk[id].sweepTx != Some(w.tasks[a.t].pc.tx))
  }

  ghost predicate Knows(w: World, task: Task, id: Id) {
    task.record.sweepTx.Some? ==> HasHash(w, id) && w.disk[id].sweepTx == task.record.sweepTx
  }

  /** Every hash a task knows is the one on disk. */
  ghost predicate Informed(w: World, id: Id) {
    && (forall t :: CleansUpCredited(w, t))
    && (id !in w.ledger.credits ==>
          forall t :: t in w.tasks && w.tasks[t].record.claim.id == id ==> Knows(w, w.tasks[t], id))
  }

  ghost predicate InformedStep(w: World, w': World, t: TaskId, id: Id) {
    id !in w'.ledger.credits ==> (t in w'.tasks ==> Knows(w', w'.tasks[t], id)) && KeepsHash(w, w', id)
  }

  ghost predicate ReadyInformed(w: World, t: TaskId, id: Id) {
    && t in w.tasks && w.tasks[t].record.claim.id == id
    && (id !in w.ledger.credits ==> Knows(w, w.tasks[t], id))
    && SweepSolvency.DiskOk(w, id) && SweepSolvency.TaskOk(w, w.tasks[t]) && CleansUpCredited(w, t)
  }

  lemma InformedPrepare(w: World, t: TaskId, step: PrepareStep, id: Id)
    requires ReadyInformed(w, t, id) && PrepareEnabled(w, t, step) && !BlindSave(w, Prepare(t, step), id)
    ensures InformedStep(w, AfterPrepare(w, t, step), t, id)
  {
  }

  lemma InformedFund(w: World, t: TaskId, step: FundStep, id: Id)
    requires ReadyInformed(w, t, id) && FundEnabled(w, t, step) && !BlindSave(w, Fund(t, step), id)
    ensures InformedStep(w, AfterFund(w, t, step), t, id)
  {
  }

  lemma InformedSweep(w: World, t: TaskId, step: SweepStep, id: Id)
    requires ReadyInformed(w, t, id) && SweepEnabled(w, t, step) && !BlindSave(w, Sweep(t, step), id)
    ensures InformedStep(w, AfterSweep(w, t, step), t, id)
  {
  }

  lemma InformedSettle(w: World, t: TaskId, step: SettleStep, id: Id)
    requires ReadyInformed(w, t, id) && SettleEnabled(w, t, step)
    ensures InformedStep(w, AfterSettle(w, t, step), t, id)
  {
  }

  lemma InformedAction(w: World, a: Action, id: Id)
    requires SweepSolvency.Solvent(w) && Informed(w, id) && Enabled(w, a) && !a.Happen? && ClaimOf(w, a).id == id
    requires !BlindSave(w, a, id)
    ensures InformedStep(w, Next(w, a), a.t, id)
  {
    assert SweepSolvency.DiskOk(w, id);
    assert a.t in w.tasks ==> SweepSolvency.TaskOk(w, w.tasks[a.t]) && CleansUpCredited(w, a.t);
    match a
    case Begin(t, claim) =>
    case Load(t, i) => assert SweepSolvency.DiskOk(w, i);
    case Prepare(t, step) => InformedPrepare(w, t, step, id);
    case Fund(t, step) => InformedFund(w, t, step, id);
    case Sweep(t, step) => InformedSweep(w, t, step, id);
    case Settle(t, step) => InformedSettle(w, t, step, id);
    case Raise(t) =>
    case Drop(t) =>
  }

  lemma TaskActionStaysInformed(w: World, a: Action, id: Id)
    requires SweepSolvency.Solvent(w) && Informed(w, id) && Enabled(w, a) && !a.Happen?
    requires !BlindSave(w, a, id) && id !in w.ledger.credits
    ensures id !in Next(w, a).ledger.credits ==>
              && (forall t :: t in Next(w, a).tasks && Next(w, a).tasks[t].record.claim.id == id
                              ==> Knows(Next(w, a), Next(w, a).tasks[t], id))
              && KeepsHash(w, Next(w, a), id)
  {
    var w' := Next(w, a);
    assert SweepSolvency.DiskOk(w, id);
    if ClaimOf(w, a).id == id {
      InformedAction(w, a, id);
    } else {
      OtherAction(w, a, id);
    }
    forall t | t in w'.tasks && w'.tasks[t].record.claim.id == id && id !in w'.ledger.credits
      ensures Knows(w', w'.tasks[t], id)
    {
      if t != a.t {
        OthersKeepTask(w, a, t);
        assert Knows(w, w.tasks[t], id);
      }
    }
  }

  lemma NextStaysInformed(w: World, a: Action, id: Id)
    requires SweepSolvency.Solvent(w) && Informed(w, id) && Enabled(w, a) && !BlindSave(w, a, id)
    ensures Informed(Next(w, a), id)
    ensures id !in Next(w, a).ledger.credits ==> KeepsHash(w, Next(w, a), id)
  {
    var w' := Next(w, a);
    forall t ensures CleansUpCredited(w', t) {
      CleanupStays(w, a, t);
    }
    if id in w.ledger.credits {
      CreditsStay(w, a, id);
    } else if a.Happen? {
      assert w'.disk == w.disk && SweepSolvency.DiskOk(w, id);
      forall t | t in w'.tasks && w'.tasks[t].record.claim.id == id ensures Knows(w', w'.tasks[t], id) {
        assert Knows(w, w.tasks[t], id);
      }
    } else {
      TaskActionStaysInformed(w, a, id);
    }
  }

  ghost predicate NeverBlindSave(run: seq<World>, acts: seq<Action>, id: Id)
    requires ActedRun(run, acts)
  {
    forall k :: 0 <= k < |acts| ==> !BlindSave(run[k], acts[k], id)
  }

  lemma {:induction false} RunIsInformed(run: seq<World>, acts: seq<Action>, id: Id, n: nat)
    requires ActedRun(run, acts) && NeverBlindSave(run, acts, id) && n < |run|
    ensures Informed(run[n], id)
  {
    if n > 0 {
      RunIsInformed(run, acts, id, n - 1);
      ActedRunIsRun(run, acts);
      SweepSolvency.RunsAreSolvent(run, n - 1);
      assert Enabled(run[n - 1], acts[n - 1]) && run[n - 1 + 1] == Next(run[n - 1], acts[n - 1]);
      NextStaysInformed(run[n - 1], acts[n - 1], id);
    }
  }

  lemma {:induction false} InformedHashStays(run: seq<World>, acts: seq<Action>, id: Id, i: nat, j: nat, tx: SweepTx)
    requires ActedRun(run, acts) && NeverBlindSave(run, acts, id) && i <= j < |run| && SavedAt(run, i, id, tx)
    ensures SweepDurability.HashKept(run[j], id, tx)
  {
    ActedRunIsRun(run, acts);
    if i == j {
      SweepSolvency.RunsAreSolvent(run, i);
      assert SweepSolvency.DiskOk(run[i], id);
    } else {
      InformedHashStays(run, acts, id, i, j - 1, tx);
      RunIsInformed(run, acts, id, j - 1);
      SweepSolvency.RunsAreSolvent(run, j - 1);
      assert Enabled(run[j - 1], acts[j - 1]) && run[j - 1 + 1] == Next(run[j - 1], acts[j - 1]);
      NextStaysInformed(run[j - 1], acts[j - 1], id);
      if id in run[j - 1].ledger.credits {
        CreditsStay(run[j - 1], acts[j - 1], id);
      }
    }
  }

  lemma BlindSaveLosesHash(w: World, a: Action, id: Id, tx: SweepTx)
    requires Enabled(w, a) && BlindSave(w, a, id) && w.disk[id].sweepTx == Some(tx)
    ensures !SweepDurability.HashKept(Next(w, a), id, tx)
  {
    match a
    case Prepare(t, step) =>
    case Fund(t, step) =>
    case Sweep(t, step) =>
    case _ =>
  }

  lemma KeptMeansNoBlindSave(run: seq<World>, acts: seq<Action>, id: Id, k: nat)
    requires ActedRun(run, acts) && k < |acts| && NeverLost(run, id)
    ensures !BlindSave(run[k], acts[k], id)
  {
    assert Enabled(run[k], acts[k]) && run[k + 1] == Next(run[k], acts[k]);
    if BlindSave(run[k], acts[k], id) {
      var tx := run[k].disk[id].sweepTx.value;
      BlindSaveLosesHash(run[k], acts[k], id, tx);
      assert SavedAt(run, k, id, tx);
      assert false;
    }
  }

  /** In any run, with any number of drivers for any addresses, the hashes saved for a deposit are
      kept if and only if no save on the way to a broadcast finds the hash of another sweep in the
      file. */
  lemma HashesAreKeptExactlyIfNoBlindSave(run: seq<World>, acts: seq<Action>, id: Id)
    requires ActedRun(run, acts)
    ensures NeverLost(run, id) <==> NeverBlindSave(run, acts, id)
  {
    if NeverBlindSave(run, acts, id) {
      forall i: nat, j: nat, tx | i <= j < |run| && SavedAt(run, i, id, tx)
        ensures SweepDurability.HashKept(run[j], id, tx)
      {
        InformedHashStays(run, acts, id, i, j, tx);
      }
    }
    if NeverLost(run, id) {
      forall k | 0 <= k < |acts| ensures !BlindSave(run[k], acts[k], id) {
        KeptMeansNoBlindSave(run, acts, id, k);
      }
    }
  }

  /** Where the deposit's tasks share a lock, only a fresh save can be blind. */
  lemma OnlyFreshSavesAreBlind(w: World, a: Action, id: Id)
    requires Guarded(w, id) && Enabled(w, a) && BlindSave(w, a, id)
    ensures FreshOverHash(w, a, id)
  {
    assert Fits(w, w.tasks[a.t], id);
  }

  /** In any run, with any number of drivers for one address, the hashes saved for a deposit are kept
      if and only if no task saves a fresh record over one. */
  lemma HashesAreKeptExactlyIf(run: seq<World>, acts: seq<Action>, id: Id, key: (Address, ChainId))
    requires OneAddressRun(run, acts, id, key)
    ensures NeverLost(run, id) <==> NeverFreshOverHash(run, acts, id)
  {
    HashesAreKeptExactlyIfNoBlindSave(run, acts, id);
    if NeverFreshOverHash(run, acts, id) {
      forall k | 0 <= k < |acts| ensures !BlindSave(run[k], acts[k], id) {
        RunIsGuarded(run, acts, id, key, k);
        assert Enabled(run[k], acts[k]) && run[k + 1] == Next(run[k], acts[k]);
        NotFreshNotBlind(run[k], acts[k], id);
      }
    }
  }

  lemma NotFreshNotBlind(w: World, a: Action, id: Id)
    requires Guarded(w, id) && Enabled(w, a)
    ensures !FreshOverHash(w, a, id) ==> !BlindSave(w, a, id)
  {
    if BlindSave(w, a, id) {
      OnlyFreshSavesAreBlind(w, a, id);
    }
  }
}
