/**
 A saved sweep hash is never lost while at most one task drives each deposit.  Without that
 hypothesis it can be: the recovery loop works from a snapshot, and `HashCanBeLost` shows a run in
 which a resumed task overwrites the record of a broadcast sweep.
 */
module SweepDurability {
  import opened Options
  import opened SweepModel

  ghost predicate SingleDriver(w: World) {
    forall t, u :: t in w.tasks && u in w.tasks && t != u ==> w.tasks[t].record.claim.id != w.tasks[u].record.claim.id
  }

  ghost predicate HasHash(w: World, id: Id) {
    id in w.disk && w.disk[id].sweepTx.Some?
  }

  predicate Early(pc: Pc) {
    pc.WaitAddress? || pc.ReadBalance? || pc.CheckProcessed? || pc.PriceGas?
  }

  predicate Late(pc: Pc) {
    pc.WaitSweepReceipt? || pc.Reconcile? || pc.Dispatch? || pc.Credit? || pc.Cleanup?
  }

  /** Before its broadcast is saved a task's deposit has no hash on disk; afterwards the task's
      copy of the record is the file. */
  ghost predicate DriverOk(w: World, task: Task) {
    var id := task.record.claim.id;
    && (task.record.sweepTx.Some? ==> !task.record.error)
    && (!Late(task.pc) ==> !HasHash(w, id) && task.record.sweepTx.None? && !task.record.error)
    && (!Late(task.pc) && !Early(task.pc) ==> id in w.disk)
    && (Late(task.pc) ==> id in w.disk && w.disk[id] == task.record)
    && (task.pc.WaitSweepReceipt? || task.pc.Credit? || task.pc.Cleanup? ==> task.record.sweepTx.Some?)
    && (task.record.stage == Swept ==> task.record.sweepTx.Some?)
    && (task.pc.Cleanup? ==> id in w.ledger.credits)
  }

  ghost predicate FileOk(w: World, id: Id) {
    id in w.disk ==>
      && w.disk[id].claim.id == id
      && (w.disk[id].sweepTx.Some? ==> !w.disk[id].error)
      && (w.disk[id].stage == Swept ==> w.disk[id].sweepTx.Some?)
  }

  /** Every accepted sweep is saved, or credited, or held by a task about to save it. */
  ghost predicate SweepSaved(w: World, tx: SweepTx) {
    tx in w.ledger.owner ==>
      var id := w.ledger.owner[tx];
      || id in w.ledger.credits
      || (id in w.disk && w.disk[id].sweepTx == Some(tx))
      || (exists t :: t in w.tasks && w.tasks[t].pc == SweepAccepted(tx) && w.tasks[t].record.claim.id == id)
  }

  ghost predicate Durable(w: World) {
    && (forall t :: t in w.tasks ==> DriverOk(w, w.tasks[t]))
    && (forall id :: FileOk(w, id))
  }

  /** What survives for deposit `id` once `tx` is saved for it. */
  ghost predicate HashKept(w: World, id: Id, tx: SweepTx) {
    || id in w.ledger.credits
    || (id in w.disk && w.disk[id].sweepTx == Some(tx) && !w.disk[id].error)
  }

  // ----- steps -----

  /** The task and the deposit an action works for. */
  function Actor(w: World, a: Action): Option<(TaskId, Id)>
    requires Enabled(w, a)
  {
    match a
    case Begin(t, claim) => Some((t, claim.id))
    case Load(t, id) => Some((t, id))
    case Happen(_) => None
    case _ => Some((a.t, w.tasks[a.t].record.claim.id))
  }

  /** A step of `t` for `id` leaves other tasks and files alone and un-credits nothing. */
  ghost predicate Local(w: World, w': World, t: TaskId, id: Id) {
    && (forall u :: u in w'.tasks && u != t ==> u in w.tasks && w'.tasks[u] == w.tasks[u])
    && (forall i :: i != id ==> (i in w'.disk <==> i in w.disk))
    && (forall i :: i in w.disk && i != id ==> w'.disk[i] == w.disk[i])
    && w.ledger.credits.Keys <= w'.ledger.credits.Keys
    && (t in w'.tasks ==> w'.tasks[t].record.claim.id == id && DriverOk(w', w'.tasks[t]))
    && FileOk(w', id)
    && (forall tx :: HasHash(w, id) && w.disk[id].sweepTx == Some(tx) ==> HashKept(w', id, tx))
  }

  lemma PrepareIsLocal(w: World, t: TaskId, step: PrepareStep)
    requires Durable(w) && t in w.tasks && PrepareEnabled(w, t, step)
    ensures Local(w, AfterPrepare(w, t, step), t, w.tasks[t].record.claim.id)
  {
    assert DriverOk(w, w.tasks[t]) && FileOk(w, w.tasks[t].record.claim.id);
  }

  lemma FundIsLocal(w: World, t: TaskId, step: FundStep)
    requires Durable(w) && t in w.tasks && FundEnabled(w, t, step)
    ensures Local(w, AfterFund(w, t, step), t, w.tasks[t].record.claim.id)
  {
    assert DriverOk(w, w.tasks[t]) && FileOk(w, w.tasks[t].record.claim.id);
  }

  lemma SweepIsLocal(w: World, t: TaskId, step: SweepStep)
    requires Durable(w) && t in w.tasks && SweepEnabled(w, t, step)
    ensures Local(w, AfterSweep(w, t, step), t, w.tasks[t].record.claim.id)
  {
    assert DriverOk(w, w.tasks[t]) && FileOk(w, w.tasks[t].record.claim.id);
  }

  lemma SettleIsLocal(w: World, t: TaskId, step: SettleStep)
    requires Durable(w) && t in w.tasks && SettleEnabled(w, t, step)
    ensures Local(w, AfterSettle(w, t, step), t, w.tasks[t].record.claim.id)
  {
    assert DriverOk(w, w.tasks[t]) && FileOk(w, w.tasks[t].record.claim.id);
  }

  lemma NextIsLocal(w: World, a: Action)
    requires Durable(w) && Enabled(w, a) && !a.Happen?
    ensures var (t, id) := Actor(w, a).value; Local(w, Next(w, a), t, id)
  {
    match a
    case Begin(t, claim) => assert FileOk(w, claim.id);
    case Load(t, id) => assert FileOk(w, id);
    case Prepare(t, step) => PrepareIsLocal(w, t, step);
    case Fund(t, step) => FundIsLocal(w, t, step);
    case Sweep(t, step) => SweepIsLocal(w, t, step);
    case Settle(t, step) => SettleIsLocal(w, t, step);
    case Raise(t) => assert DriverOk(w, w.tasks[t]) && FileOk(w, w.tasks[t].record.claim.id);
    case Drop(t) => assert DriverOk(w, w.tasks[t]) && FileOk(w, w.tasks[t].record.claim.id);
  }

  lemma NextKeepsDurable(w: World, a: Action)
    requires Durable(w) && SingleDriver(w) && Enabled(w, a) && SingleDriver(Next(w, a))
    ensures Durable(Next(w, a))
    ensures forall id, tx :: id in w.disk && w.disk[id].sweepTx == Some(tx) ==> HashKept(Next(w, a), id, tx)
  {
    var w' := Next(w, a);
    if a.Happen? {
      assert w'.disk == w.disk && w'.ledger.credits == w.ledger.credits;
      forall id ensures FileOk(w', id) && FileOk(w, id) {
        assert FileOk(w, id);
      }
      forall t | t in w'.tasks ensures DriverOk(w', w'.tasks[t]) {
        assert DriverOk(w, w.tasks[t]);
      }
    } else {
      var (t, id) := Actor(w, a).value;
      NextIsLocal(w, a);
      forall i ensures FileOk(w', i) && FileOk(w, i) {
        assert FileOk(w, i);
      }
      forall u | u in w'.tasks ensures DriverOk(w', w'.tasks[u]) {
        if u != t {
          assert DriverOk(w, w.tasks[u]);
        }
      }
    }
    forall id, tx | id in w.disk && w.disk[id].sweepTx == Some(tx) ensures HashKept(w', id, tx) {
      assert FileOk(w, id);
    }
  }

  // ----- runs with one driver per deposit -----

  ghost predicate SingleDriverRun(run: seq<World>) {
    Run(run) && forall i :: 0 <= i < |run| ==> SingleDriver(run[i])
  }

  lemma {:induction false} RunsAreDurable(run: seq<World>, i: nat)
    requires SingleDriverRun(run) && i < |run|
    ensures Durable(run[i])
  {
    if i > 0 {
      RunsAreDurable(run, i - 1);
      assert Step(run[i - 1], run[i]) && SingleDriver(run[i - 1]) && SingleDriver(run[i]);
      var a :| Enabled(run[i - 1], a) && run[i] == Next(run[i - 1], a);
      NextKeepsDurable(run[i - 1], a);
    }
  }

  /** Once saved, a hash is neither overwritten, nor flagged, nor deleted before the deposit is processed. */
  lemma {:induction false} SavedHashIsKept(run: seq<World>, i: nat, j: nat, id: Id, tx: SweepTx)
    requires SingleDriverRun(run) && i <= j < |run|
    requires id in run[i].disk && run[i].disk[id].sweepTx == Some(tx)
    ensures HashKept(run[j], id, tx)
  {
    if i == j {
      RunsAreDurable(run, i);
      assert FileOk(run[i], id);
    } else {
      SavedHashIsKept(run, i, j - 1, id, tx);
      RunsAreDurable(run, j - 1);
      assert Step(run[j - 1], run[j]) && SingleDriver(run[j - 1]) && SingleDriver(run[j]);
      var a :| Enabled(run[j - 1], a) && run[j] == Next(run[j - 1], a);
      NextKeepsDurable(run[j - 1], a);
      if id in run[j - 1].ledger.credits {
        CreditsLast(run[j - 1], a, id);
      }
    }
  }

  lemma CreditsLast(w: World, a: Action, id: Id)
    requires Enabled(w, a) && id in w.ledger.credits
    ensures id in Next(w, a).ledger.credits && Next(w, a).ledger.credits[id] == w.ledger.credits[id]
  {
  }

  /** While a hash is saved no further sweep is signed or broadcast for its deposit. */
  lemma NoSecondSweep(w: World, a: Action, id: Id, tx: SweepTx)
    requires Durable(w) && SingleDriver(w) && Enabled(w, a) && HasHash(w, id)
    ensures a.Sweep? && (a.sweep.SignSweep? || a.sweep.AcceptSweep?) ==> w.tasks[a.t].record.claim.id != id
    ensures (tx in Next(w, a).ledger.owner && Next(w, a).ledger.owner[tx] == id)
            ==> (tx in w.ledger.owner && w.ledger.owner[tx] == id)
  {
    if a.Sweep? {
      assert DriverOk(w, w.tasks[a.t]);
    }
  }

  // ----- the instant between acceptance and save -----

  /** No reply to a sweep broadcast is lost, no crash or cancellation falls between acceptance and
      save, and the processed check before a sweep starts is current. */
  ghost predicate GapFree(w: World, a: Action) {
    && !(a.Sweep? && a.sweep == AcceptSweep(false))
    && (a.Begin? ==> a.claim.id !in w.ledger.credits)
    && (a == Happen(Crash) ==> forall t :: t in w.tasks ==> !w.tasks[t].pc.SweepAccepted?)
    && (a.Drop? && a.t in w.tasks ==> !w.tasks[a.t].pc.SweepAccepted?)
  }

  ghost predicate GapFreeRun(run: seq<World>) {
    && SingleDriverRun(run)
    && forall i :: 0 < i < |run| ==> GapFreeStep(run[i - 1], run[i])
  }

  ghost predicate GapFreeStep(w: World, w': World) {
    exists a :: Enabled(w, a) && GapFree(w, a) && w' == Next(w, a)
  }

  lemma AcceptedSweepIsHeld(w: World, a: Action, tx: SweepTx)
    requires Durable(w) && SingleDriver(w) && Enabled(w, a) && GapFree(w, a) && SweepSaved(w, tx)
    requires a.Sweep?
    ensures SweepSaved(Next(w, a), tx)
  {
    var w' := Next(w, a);
    assert DriverOk(w, w.tasks[a.t]);
    if tx in w.ledger.owner {
      var id := w.ledger.owner[tx];
      if t :| t in w.tasks && w.tasks[t].pc == SweepAccepted(tx) && w.tasks[t].record.claim.id == id {
        assert t != a.t ==> t in w'.tasks && w'.tasks[t] == w.tasks[t];
      }
    } else if tx in w'.ledger.owner {
      assert w'.tasks[a.t].pc == SweepAccepted(tx);
    }
  }

  lemma OtherStepKeepsSaved(w: World, a: Action, tx: SweepTx)
    requires Durable(w) && SingleDriver(w) && Enabled(w, a) && SingleDriver(Next(w, a)) && GapFree(w, a)
    requires SweepSaved(w, tx)
    requires !a.Sweep?
    ensures SweepSaved(Next(w, a), tx)
  {
    var w' := Next(w, a);
    assert w'.ledger.owner == w.ledger.owner;
    if tx in w.ledger.owner {
      var id := w.ledger.owner[tx];
      NextKeepsDurable(w, a);
      if id in w.ledger.credits {
        CreditsLast(w, a, id);
      } else if t :| t in w.tasks && w.tasks[t].pc == SweepAccepted(tx) && w.tasks[t].record.claim.id == id {
        AcceptedTaskStays(w, a, t);
      }
    }
  }

  /** A task about to save its hash can only do that, or be stopped by a crash or a cancellation. */
  lemma AcceptedTaskStays(w: World, a: Action, t: TaskId)
    requires Enabled(w, a) && !a.Sweep? && a != Happen(Crash) && a != Drop(t)
    requires t in w.tasks && w.tasks[t].pc.SweepAccepted?
    ensures t in Next(w, a).tasks && Next(w, a).tasks[t] == w.tasks[t]
  {
  }

  /** A credited deposit has no record without a hash, and no task on the way to one. */
  ghost predicate Uncredited(w: World, id: Id) {
    id in w.ledger.credits ==>
      && (id in w.disk ==> w.disk[id].sweepTx.Some?)
      && (forall t :: t in w.tasks && w.tasks[t].record.claim.id == id ==> Late(w.tasks[t].pc))
  }

  /** The same, looking only at the acting task. */
  ghost predicate StillUncredited(w: World, w': World, t: TaskId, id: Id) {
    && (id in w'.ledger.credits ==>
          && (id in w'.disk ==> w'.disk[id].sweepTx.Some?)
          && (t in w'.tasks ==> Late(w'.tasks[t].pc)))
    && w'.ledger.credits.Keys <= w.ledger.credits.Keys + {id}
  }

  lemma PrepareStaysUncredited(w: World, t: TaskId, step: PrepareStep)
    requires Durable(w) && t in w.tasks && PrepareEnabled(w, t, step) && Uncredited(w, w.tasks[t].record.claim.id)
    ensures StillUncredited(w, AfterPrepare(w, t, step), t, w.tasks[t].record.claim.id)
  {
    assert DriverOk(w, w.tasks[t]) && FileOk(w, w.tasks[t].record.claim.id);
  }

  lemma FundStaysUncredited(w: World, t: TaskId, step: FundStep)
    requires Durable(w) && t in w.tasks && FundEnabled(w, t, step) && Uncredited(w, w.tasks[t].record.claim.id)
    ensures StillUncredited(w, AfterFund(w, t, step), t, w.tasks[t].record.claim.id)
  {
    assert DriverOk(w, w.tasks[t]) && FileOk(w, w.tasks[t].record.claim.id);
  }

  lemma SweepStaysUncredited(w: World, t: TaskId, step: SweepStep)
    requires Durable(w) && t in w.tasks && SweepEnabled(w, t, step) && Uncredited(w, w.tasks[t].record.claim.id)
    ensures StillUncredited(w, AfterSweep(w, t, step), t, w.tasks[t].record.claim.id)
  {
    assert DriverOk(w, w.tasks[t]) && FileOk(w, w.tasks[t].record.claim.id);
  }

  lemma SettleStaysUncredited(w: World, t: TaskId, step: SettleStep)
    requires Durable(w) && t in w.tasks && SettleEnabled(w, t, step) && Uncredited(w, w.tasks[t].record.claim.id)
    ensures StillUncredited(w, AfterSettle(w, t, step), t, w.tasks[t].record.claim.id)
  {
    assert DriverOk(w, w.tasks[t]) && FileOk(w, w.tasks[t].record.claim.id);
  }

  lemma ActorStaysUncredited(w: World, a: Action)
    requires Durable(w) && Enabled(w, a) && GapFree(w, a) && !a.Happen? && Uncredited(w, Actor(w, a).value.1)
    ensures var (t, id) := Actor(w, a).value; StillUncredited(w, Next(w, a), t, id)
  {
    match a
    case Begin(t, claim) =>
    case Load(t, id) =>
    case Prepare(t, step) => PrepareStaysUncredited(w, t, step);
    case Fund(t, step) => FundStaysUncredited(w, t, step);
    case Sweep(t, step) => SweepStaysUncredited(w, t, step);
    case Settle(t, step) => SettleStaysUncredited(w, t, step);
    case Raise(t) => assert DriverOk(w, w.tasks[t]) && FileOk(w, w.tasks[t].record.claim.id);
    case Drop(t) => assert DriverOk(w, w.tasks[t]) && FileOk(w, w.tasks[t].record.claim.id);
  }

  lemma NextStaysUncredited(w: World, a: Action, i: Id)
    requires Durable(w) && Enabled(w, a) && GapFree(w, a) && SingleDriver(Next(w, a))
    requires forall id :: Uncredited(w, id)
    ensures Uncredited(Next(w, a), i)
  {
    assert Uncredited(w, i);
    if a.Happen? {
      assert Next(w, a).disk == w.disk && Next(w, a).ledger.credits == w.ledger.credits;
    } else {
      var (t, id) := Actor(w, a).value;
      assert Uncredited(w, id);
      NextIsLocal(w, a);
      ActorStaysUncredited(w, a);
    }
  }

  lemma {:induction false} GapFreeRunsStayUncredited(run: seq<World>, i: nat, id: Id)
    requires GapFreeRun(run) && i < |run|
    ensures Uncredited(run[i], id)
  {
    if i > 0 {
      var before := run[i - 1];
      forall other ensures Uncredited(before, other) {
        GapFreeRunsStayUncredited(run, i - 1, other);
      }
      RunsAreDurable(run, i - 1);
      assert GapFreeStep(run[i - 1], run[i]) && SingleDriver(run[i]);
      var a :| Enabled(run[i - 1], a) && GapFree(run[i - 1], a) && run[i] == Next(run[i - 1], a);
      NextStaysUncredited(run[i - 1], a, id);
    }
  }

  /** In such runs every accepted sweep is saved, credited or about to be saved. */
  lemma {:induction false} GapFreeRunsSaveEverySweep(run: seq<World>, i: nat, tx: SweepTx)
    requires GapFreeRun(run) && i < |run|
    ensures SweepSaved(run[i], tx)
  {
    if i > 0 {
      GapFreeRunsSaveEverySweep(run, i - 1, tx);
      RunsAreDurable(run, i - 1);
      assert GapFreeStep(run[i - 1], run[i]) && SingleDriver(run[i - 1]) && SingleDriver(run[i]);
      var a :| Enabled(run[i - 1], a) && GapFree(run[i - 1], a) && run[i] == Next(run[i - 1], a);
      if a.Sweep? {
        AcceptedSweepIsHeld(run[i - 1], a, tx);
      } else {
        OtherStepKeepsSaved(run[i - 1], a, tx);
      }
    }
  }
}
