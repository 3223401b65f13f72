/**
 The startup pass after a crash: what every fault-free pass does to a deposit.

 Fault-free means, for this deposit: its chain stays served, reads are current, broadcasts are
 accepted and answered, and what is broadcast is mined, if at all, with status 1.  The address may
 have been swept before, for other deposits; no other deposit of the token is unswept there, so it
 holds this one's amount until its sweep is mined, and nothing afterwards.  Tasks of deposits at other
 addresses do whatever they like.
 */
module SweepRecovery {
  import opened Options
  import opened SweepModel
  import SweepDurability
  import SweepLocks
  import SweepSolvency

  predicate From(tx: SweepTx, c: Claim) {
    tx.address == c.address && tx.chain == c.chain
  }

  /** A sweep accepted for this deposit. */
  ghost predicate SweepOf(w: World, c: Claim, tx: SweepTx) {
    tx in w.ledger.owner && w.ledger.owner[tx] == c.id && From(tx, c)
  }

  /** No sweep from the address, for whichever deposit, spends the nonce. */
  ghost predicate FreshNonce(w: World, c: Claim, nonce: int) {
    forall tx :: tx in w.ledger.owner && From(tx, c) ==> tx.nonce != nonce
  }

  predicate Succeeded(w: World, tx: SweepTx) {
    tx in w.ledger.mined && w.ledger.mined[tx]
  }

  ghost predicate Emptied(w: World, c: Claim) {
    exists tx :: SweepOf(w, c, tx) && Succeeded(w, tx)
  }

  ghost predicate Unswept(w: World, c: Claim) {
    forall tx :: !SweepOf(w, c, tx)
  }

  /** What the address holds of the deposit's token. */
  ghost function Balance(w: World, c: Claim): nat {
    if Emptied(w, c) then 0 else c.amount
  }

  function CreditOf(w: World, id: Id): Option<Claim> {
    if id in w.ledger.credits then Some(w.ledger.credits[id]) else None
  }

  // ----- where a pass starts -----

  /** The process has just restarted, and every sweep broadcast for the deposit has been mined. */
  ghost predicate Restarted(w: World, id: Id) {
    && w.tasks == map[] && w.locks == Locks(map[], None)
    && id in w.disk && w.disk[id].claim.amount > 0 && w.disk[id].claim.chain in w.ledger.served
    && (forall tx :: tx in w.ledger.owner && w.ledger.owner[tx] == id ==>
          From(tx, w.disk[id].claim) && Succeeded(w, tx))
  }

  /** Only accepted gas transfers have receipts. */
  ghost predicate FundedAccepted(w: World) {
    forall gas :: gas in w.ledger.funded ==> gas in w.ledger.tank
  }

  /** What holds in every run. */
  ghost predicate Sound(w: World) {
    SweepSolvency.Solvent(w) && FundedAccepted(w) && SweepLocks.Locked(w)
  }

  /** A sweep of the deposit was accepted, but its hash is not on disk. */
  ghost predicate Orphaned(w: World, id: Id)
    requires id in w.disk
  {
    w.disk[id].sweepTx.None? && !Unswept(w, w.disk[id].claim)
  }

  /** The deposit is processed and its record is gone. */
  ghost predicate Completed(w: World, id: Id) {
    id in w.ledger.credits && id !in w.disk
  }

  // ----- fault-free steps -----

  predicate Apart(d: Claim, c: Claim) {
    d.id != c.id && LockKey(d) != LockKey(c)
  }

  predicate FaultFreeEvent(event: Event, c: Claim) {
    match event
    case MineGas(gas, ok) => gas.to == c.address && gas.chain == c.chain ==> ok
    case MineSweep(tx, ok) => tx.address == c.address && tx.chain == c.chain ==> ok
    case Reverify(served) => c.chain in served
    case Crash => false
  }

  /** The pass's own task meets no fault. */
  ghost predicate OwnFaultFree(w: World, a: Action, c: Claim, t: TaskId)
    requires t in w.tasks
  {
    match a
    case Prepare(_, step) => (match step case SeeBalance(balance) => balance == Balance(w, c) case _ => true)
    case Fund(_, step) => (match step case AcceptGas(replied) => replied case _ => true)
    case Sweep(_, step) =>
      (match step
       case SignSweep(nonce, _) => FreshNonce(w, c, nonce)
       case AcceptSweep(replied) => replied
       case _ => true)
    case Settle(_, step) =>
      (match step
       case SeeReconcile(promote) => promote <==> w.tasks[t].record.stage != Swept && Confirmed(w, w.tasks[t].record)
       case CreditDeposit(replied) => replied
       case CreditRefused(_) => false
       case _ => true)
    // the one exception the pass raises itself: nothing to sweep, and not processed
    case Raise(_) => w.tasks[t].pc.CheckProcessed? && c.id !in w.ledger.credits
    case _ => false
  }

  ghost predicate FaultFree(w: World, a: Action, c: Claim, t: TaskId)
    requires Enabled(w, a)
  {
    if a.Happen? then FaultFreeEvent(a.event, c)
    else if a.t == t then t in w.tasks && OwnFaultFree(w, a, c, t)
    else Apart(ClaimOf(w, a), c)
  }

  /** A pass from world `w0` in which task `t` takes up the record of the deposit. */
  ghost predicate Pass(w0: World, id: Id, t: TaskId, worlds: seq<World>, acts: seq<Action>) {
    && id in w0.disk && t !in w0.tasks
    && |worlds| == |acts| + 1 && worlds[0] == Next(w0, Load(t, id))
    && forall i :: 0 <= i < |acts| ==>
         Enabled(worlds[i], acts[i]) && FaultFree(worlds[i], acts[i], w0.disk[id].claim, t)
         && worlds[i + 1] == Next(worlds[i], acts[i])
  }

  // ----- the invariant of a pass -----

  /** What the deposit looked like when the pass took it up. */
  datatype Start = Start(orphaned: bool, hashed: bool, credit: Option<Claim>, record: Record)

  ghost predicate AsFound(w: World, c: Claim, r: Record, s: Start) {
    && CreditOf(w, c.id) == s.credit && (s.hashed <==> r.sweepTx.Some?)
    && (s.hashed ==> !s.orphaned && Succeeded(w, r.sweepTx.value))
    && (!s.hashed ==> r.stage != Swept && BeforeSweep(w, c, s))
  }

  ghost predicate BeforeSweep(w: World, c: Claim, s: Start) {
    && !s.hashed && CreditOf(w, c.id) == s.credit
    && (if s.orphaned then Emptied(w, c) else Unswept(w, c) && s.credit.None?)
  }

  /** The sweep `tx` was broadcast for the deposit, with a nonce of its own, and did not fail. */
  ghost predicate Paying(w: World, c: Claim, tx: SweepTx) {
    && SweepOf(w, c, tx) && (tx in w.ledger.mined ==> w.ledger.mined[tx])
    && forall other :: other in w.ledger.owner && From(other, c) && other != tx ==> other.nonce != tx.nonce
  }

  ghost predicate GasReady(w: World, c: Claim, gas: GasTx) {
    gas.to == c.address && gas.chain == c.chain && (gas in w.ledger.funded ==> w.ledger.funded[gas])
  }

  predicate Funding(pc: Pc) {
    pc.PriceGas? || pc.WaitTank? || pc.ReadTankNonce? || pc.SendGas? || pc.GasSent? || pc.GasAccepted?
    || pc.WaitGasReceipt?
  }

  ghost predicate FundingOk(w: World, c: Claim, task: Task, s: Start) {
    && !s.orphaned && BeforeSweep(w, c, s)
    && (task.pc.SendGas? || task.pc.GasSent? ==> GasReady(w, c, task.pc.gas))
    && (task.pc.GasAccepted? ==> GasReady(w, c, task.pc.gas) && task.pc.gas in w.ledger.tank)
    && (task.pc.WaitGasReceipt? ==>
          && task.record.gasTx.Some? && GasReady(w, c, task.record.gasTx.value)
          && task.record.gasTx.value in w.ledger.tank)
  }

  predicate Sweeping(pc: Pc) {
    pc.PriceSweep? || pc.SendSweep? || pc.SweepSent?
  }

  ghost predicate SweepingOk(w: World, c: Claim, task: Task, s: Start) {
    && !s.orphaned && BeforeSweep(w, c, s)
    && (task.pc.SendSweep? || task.pc.SweepSent? ==> Carries(task.pc.tx, c) && FreshNonce(w, c, task.pc.tx.nonce))
  }

  ghost predicate PayingOk(w: World, c: Claim, tx: SweepTx, s: Start) {
    !s.orphaned && !s.hashed && s.credit.None? && c.id !in w.ledger.credits && Paying(w, c, tx)
  }

  /** Before the fresh save the file has no hash. */
  ghost predicate WaitingOk(w: World, c: Claim, s: Start) {
    c.id in w.disk && w.disk[c.id].sweepTx.None? && BeforeSweep(w, c, s) && (s.orphaned ==> w.disk[c.id] == s.record)
  }

  ghost predicate FoundOk(w: World, c: Claim, task: Task, s: Start) {
    && c.id in w.disk && w.disk[c.id] == task.record && AsFound(w, c, task.record, s)
    && (s.orphaned ==> task.record == s.record)
    && (task.pc.Dispatch? && s.hashed ==> task.record.stage == Swept)
  }

  ghost predicate InPass(w: World, c: Claim, task: Task, s: Start) {
    && task.record.claim == c && c.id in w.disk
    && (task.pc.Reconcile? || task.pc.Dispatch? ==> FoundOk(w, c, task, s))
    && (task.pc.WaitAddress? || task.pc.ReadBalance? || task.pc.CheckProcessed? ==> WaitingOk(w, c, s))
    && (task.pc.CheckProcessed? ==> s.orphaned)
    && (Funding(task.pc) ==> FundingOk(w, c, task, s))
    && (Sweeping(task.pc) ==> SweepingOk(w, c, task, s))
    && (task.pc.SweepAccepted? ==> PayingOk(w, c, task.pc.tx, s))
    && (task.pc.WaitSweepReceipt? ==> task.record.sweepTx.Some? && PayingOk(w, c, task.record.sweepTx.value, s))
    && (task.pc.Credit? ==> !s.orphaned && CreditOf(w, c.id) == s.credit)
    && (task.pc.Cleanup? ==> !s.orphaned && CreditOf(w, c.id) == Some(if s.credit.Some? then s.credit.value else c))
  }

  /** What a finished pass leaves: a completed deposit, credited as before or with its own amount;
      or, for an orphan, the same credit and its record, newly flagged unless it was processed. */
  ghost predicate Ended(w: World, c: Claim, s: Start) {
    if s.orphaned then
      && CreditOf(w, c.id) == s.credit && c.id in w.disk
      && w.disk[c.id] == s.record.(error := s.record.error || s.credit.None?)
    else
      Completed(w, c.id) && CreditOf(w, c.id) == Some(if s.credit.Some? then s.credit.value else c)
  }

  predicate BeforeLock(pc: Pc) {
    pc.Reconcile? || pc.Dispatch? || pc.WaitAddress?
  }

  /** The address lock is the pass's own, or free until the pass waits for it. */
  ghost predicate LockIsOurs(w: World, c: Claim, t: TaskId) {
    && (LockKey(c) in w.locks.address ==> w.locks.address[LockKey(c)] == t)
    && (t in w.tasks && BeforeLock(w.tasks[t].pc) ==> LockKey(c) !in w.locks.address)
  }

  ghost predicate OnTrack(w: World, c: Claim, t: TaskId, s: Start) {
    && c.chain in w.ledger.served && c.amount > 0 && LockIsOurs(w, c, t)
    && (t in w.tasks ==> InPass(w, c, w.tasks[t], s))
    && (t !in w.tasks ==> Ended(w, c, s))
  }

  // ----- the pass's own steps -----

  ghost predicate OwnReady(w: World, a: Action, c: Claim, t: TaskId, s: Start) {
    && SweepSolvency.Solvent(w) && FundedAccepted(w) && OnTrack(w, c, t, s) && t in w.tasks
    && OwnFaultFree(w, a, c, t)
  }

  lemma OwnPrepare(w: World, step: PrepareStep, c: Claim, t: TaskId, s: Start)
    requires OwnReady(w, Prepare(t, step), c, t, s) && PrepareEnabled(w, t, step)
    ensures OnTrack(AfterPrepare(w, t, step), c, t, s)
  {
    var w' := AfterPrepare(w, t, step);
    assert w'.ledger == w.ledger;
    SameAddress(w, w', c, s);
  }

  lemma OwnFund(w: World, step: FundStep, c: Claim, t: TaskId, s: Start)
    requires OwnReady(w, Fund(t, step), c, t, s) && FundEnabled(w, t, step)
    ensures OnTrack(AfterFund(w, t, step), c, t, s)
  {
    var w' := AfterFund(w, t, step);
    SameAddress(w, w', c, s);
  }

  lemma OwnSweep(w: World, step: SweepStep, c: Claim, t: TaskId, s: Start)
    requires OwnReady(w, Sweep(t, step), c, t, s) && SweepEnabled(w, t, step)
    ensures OnTrack(AfterSweep(w, t, step), c, t, s)
  {
    match step
    case AcceptSweep(_) => OwnAcceptance(w, c, t, s);
    case SignSweep(_, _) => SameAddress(w, AfterSweep(w, t, step), c, s);
    case RequestSweep => SameAddress(w, AfterSweep(w, t, step), c, s);
    case SaveHash => OwnSave(w, c, t, s);
    case SeeSweepReceipt =>
  }

  lemma OwnSave(w: World, c: Claim, t: TaskId, s: Start)
    requires OwnReady(w, Sweep(t, SaveHash), c, t, s) && SweepEnabled(w, t, SaveHash)
    ensures OnTrack(AfterSweep(w, t, SaveHash), c, t, s)
  {
    PayingLasts(w, AfterSweep(w, t, SaveHash), c, w.tasks[t].pc.tx);
  }

  lemma OwnAcceptance(w: World, c: Claim, t: TaskId, s: Start)
    requires OwnReady(w, Sweep(t, AcceptSweep(true)), c, t, s) && SweepEnabled(w, t, AcceptSweep(true))
    ensures OnTrack(AfterSweep(w, t, AcceptSweep(true)), c, t, s)
  {
    var tx, w' := w.tasks[t].pc.tx, AfterSweep(w, t, AcceptSweep(true));
    assert SweepOf(w', c, tx);
    assert SweepSolvency.NoncesOk(w);
    assert Paying(w', c, tx);
  }

  lemma OwnSettle(w: World, step: SettleStep, c: Claim, t: TaskId, s: Start)
    requires OwnReady(w, Settle(t, step), c, t, s) && SettleEnabled(w, t, step)
    ensures OnTrack(AfterSettle(w, t, step), c, t, s)
  {
    match step
    case SeeReconcile(promote) => OwnReconcile(w, promote, c, t, s);
    case Route => OwnRoute(w, c, t, s);
    case CreditDeposit(_) => OwnCredit(w, c, t, s);
    case DeleteRecord => OwnDelete(w, c, t, s);
    case CreditRefused(_) =>
  }

  lemma OwnRoute(w: World, c: Claim, t: TaskId, s: Start)
    requires OwnReady(w, Settle(t, Route), c, t, s) && SettleEnabled(w, t, Route)
    ensures OnTrack(AfterSettle(w, t, Route), c, t, s)
  {
    SameAddress(w, AfterSettle(w, t, Route), c, s);
  }

  lemma OwnCredit(w: World, c: Claim, t: TaskId, s: Start)
    requires OwnReady(w, Settle(t, CreditDeposit(true)), c, t, s) && SettleEnabled(w, t, CreditDeposit(true))
    ensures OnTrack(AfterSettle(w, t, CreditDeposit(true)), c, t, s)
  {
  }

  lemma OwnDelete(w: World, c: Claim, t: TaskId, s: Start)
    requires OwnReady(w, Settle(t, DeleteRecord), c, t, s) && SettleEnabled(w, t, DeleteRecord)
    ensures OnTrack(AfterSettle(w, t, DeleteRecord), c, t, s)
  {
  }

  lemma OwnReconcile(w: World, promote: bool, c: Claim, t: TaskId, s: Start)
    requires OwnReady(w, Settle(t, SeeReconcile(promote)), c, t, s) && SettleEnabled(w, t, SeeReconcile(promote))
    ensures OnTrack(AfterSettle(w, t, SeeReconcile(promote)), c, t, s)
  {
    SameAddress(w, AfterSettle(w, t, SeeReconcile(promote)), c, s);
  }

  lemma OwnRaise(w: World, c: Claim, t: TaskId, s: Start)
    requires OwnReady(w, Raise(t), c, t, s) && MayRaise(w.tasks[t].pc)
    ensures OnTrack(Abort(w, t), c, t, s)
  {
  }

  /** A step that broadcasts and mines nothing at the address leaves it as it was. */
  lemma SameAddress(w: World, w': World, c: Claim, s: Start)
    requires w'.ledger.owner == w.ledger.owner && w'.ledger.mined == w.ledger.mined
    ensures Emptied(w', c) <==> Emptied(w, c)
    ensures Unswept(w', c) <==> Unswept(w, c)
    ensures CreditOf(w', c.id) == CreditOf(w, c.id) ==> (BeforeSweep(w', c, s) <==> BeforeSweep(w, c, s))
  {
    forall tx ensures SweepOf(w', c, tx) <==> SweepOf(w, c, tx) {
    }
    if Emptied(w, c) {
      var tx :| SweepOf(w, c, tx) && Succeeded(w, tx);
      assert SweepOf(w', c, tx) && Succeeded(w', tx);
    }
    if Emptied(w', c) {
      var tx :| SweepOf(w', c, tx) && Succeeded(w', tx);
      assert SweepOf(w, c, tx) && Succeeded(w, tx);
    }
  }

  // ----- what others and the environment do -----

  /** What happens elsewhere adds no sweep at the address and lets none there fail. */
  ghost predicate AddressStands(w: World, w': World, c: Claim) {
    && (forall tx :: From(tx, c) ==> SameEntry(w.ledger.owner, w'.ledger.owner, tx))
    && (forall tx :: tx in w.ledger.mined ==> tx in w'.ledger.mined && w'.ledger.mined[tx] == w.ledger.mined[tx])
    && (forall tx :: From(tx, c) && tx in w'.ledger.mined && tx !in w.ledger.mined ==> w'.ledger.mined[tx])
    && (forall gas :: gas in w'.ledger.funded && gas !in w.ledger.funded && gas.to == c.address && gas.chain == c.chain
          ==> w'.ledger.funded[gas])
    && (forall gas :: gas in w.ledger.funded ==>
        gas in w'.ledger.funded && w'.ledger.funded[gas] == w.ledger.funded[gas])
    && (forall gas :: gas in w.ledger.tank ==> gas in w'.ledger.tank)
  }

  ghost predicate DepositStands(w: World, w': World, c: Claim, t: TaskId) {
    && SameEntry(w.disk, w'.disk, c.id) && SameEntry(w.ledger.credits, w'.ledger.credits, c.id)
    && SameEntry(w.tasks, w'.tasks, t) && SameEntry(w.locks.address, w'.locks.address, LockKey(c))
    && c.chain in w'.ledger.served
  }

  lemma PayingLasts(w: World, w': World, c: Claim, tx: SweepTx)
    requires AddressStands(w, w', c) && Paying(w, c, tx)
    ensures Paying(w', c, tx)
  {
  }

  lemma EmptiedLasts(w: World, w': World, c: Claim, s: Start)
    requires AddressStands(w, w', c) && CreditOf(w', c.id) == CreditOf(w, c.id)
    ensures BeforeSweep(w, c, s) ==> BeforeSweep(w', c, s)
  {
    forall tx ensures SweepOf(w', c, tx) <==> SweepOf(w, c, tx) {
      assert From(tx, c) ==> SameEntry(w.ledger.owner, w'.ledger.owner, tx);
    }
    if Emptied(w, c) {
      var tx :| SweepOf(w, c, tx) && Succeeded(w, tx);
      assert SweepOf(w', c, tx) && Succeeded(w', tx);
    }
  }

  lemma StandingStaysOnTrack(w: World, w': World, c: Claim, t: TaskId, s: Start)
    requires OnTrack(w, c, t, s) && AddressStands(w, w', c) && DepositStands(w, w', c, t)
    ensures OnTrack(w', c, t, s)
  {
    EmptiedLasts(w, w', c, s);
    if t in w.tasks {
      InPassStands(w, w', c, w.tasks[t], s);
    }
  }

  lemma InPassStands(w: World, w': World, c: Claim, task: Task, s: Start)
    requires InPass(w, c, task, s) && AddressStands(w, w', c) && SameEntry(w.disk, w'.disk, c.id)
    requires SameEntry(w.ledger.credits, w'.ledger.credits, c.id)
    ensures InPass(w', c, task, s)
  {
    EmptiedLasts(w, w', c, s);
    forall tx | Paying(w, c, tx) ensures Paying(w', c, tx) {
      PayingLasts(w, w', c, tx);
    }
  }

  lemma EventStands(w: World, event: Event, c: Claim, t: TaskId)
    requires SweepSolvency.Solvent(w) && EventEnabled(w, event) && FaultFreeEvent(event, c)
    requires c.chain in w.ledger.served
    ensures AddressStands(w, AfterEvent(w, event), c) && DepositStands(w, AfterEvent(w, event), c, t)
  {
  }

  /** Tasks of deposits elsewhere broadcast elsewhere. */
  lemma OtherTaskStands(w: World, a: Action, c: Claim, t: TaskId)
    requires SweepSolvency.Solvent(w) && Enabled(w, a) && !a.Happen? && a.t != t && Apart(ClaimOf(w, a), c)
    requires c.chain in w.ledger.served
    ensures AddressStands(w, Next(w, a), c) && DepositStands(w, Next(w, a), c, t)
  {
    TaskActionIsFramed(w, a);
    OtherBroadcasts(w, a);
  }

  /** What the ledger gains was signed for this claim's address. */
  ghost predicate BroadcastsFor(w: World, w': World, d: Claim) {
    && (forall tx :: tx in w.ledger.owner ==> tx in w'.ledger.owner && w'.ledger.owner[tx] == w.ledger.owner[tx])
    && (forall tx :: tx in w'.ledger.owner && tx !in w.ledger.owner ==> (tx.address, tx.chain) == LockKey(d))
    && w.ledger.tank <= w'.ledger.tank
  }

  lemma FundBroadcasts(w: World, t: TaskId, step: FundStep)
    requires t in w.tasks && FundEnabled(w, t, step)
    ensures BroadcastsFor(w, AfterFund(w, t, step), w.tasks[t].record.claim)
  {
  }

  lemma SweepBroadcasts(w: World, t: TaskId, step: SweepStep)
    requires SweepSolvency.Solvent(w) && t in w.tasks && SweepEnabled(w, t, step)
    ensures BroadcastsFor(w, AfterSweep(w, t, step), w.tasks[t].record.claim)
  {
    assert SweepSolvency.TaskOk(w, w.tasks[t]);
  }

  lemma SettleBroadcasts(w: World, t: TaskId, step: SettleStep)
    requires t in w.tasks && SettleEnabled(w, t, step)
    ensures BroadcastsFor(w, AfterSettle(w, t, step), w.tasks[t].record.claim)
  {
  }

  lemma OtherBroadcasts(w: World, a: Action)
    requires SweepSolvency.Solvent(w) && Enabled(w, a) && !a.Happen?
    ensures BroadcastsFor(w, Next(w, a), ClaimOf(w, a))
  {
    match a
    case Prepare(t, step) =>
    case Fund(t, step) => FundBroadcasts(w, t, step);
    case Sweep(t, step) => SweepBroadcasts(w, t, step);
    case Settle(t, step) => SettleBroadcasts(w, t, step);
    case _ =>
  }

  // ----- one fault-free step -----

  lemma OwnActionStaysOnTrack(w: World, a: Action, w': World, c: Claim, t: TaskId, s: Start)
    requires OwnReady(w, a, c, t, s) && Enabled(w, a) && !a.Happen? && a.t == t && w' == Next(w, a)
    ensures OnTrack(w', c, t, s)
  {
    match a
    case Prepare(_, step) =>
      OwnPrepare(w, step, c, t, s);
      assert w' == AfterPrepare(w, t, step);
    case Fund(_, step) =>
      OwnFund(w, step, c, t, s);
      assert w' == AfterFund(w, t, step);
    case Sweep(_, step) =>
      OwnSweep(w, step, c, t, s);
      assert w' == AfterSweep(w, t, step);
    case Settle(_, step) =>
      OwnSettle(w, step, c, t, s);
      assert w' == AfterSettle(w, t, step);
    case Raise(_) => OwnRaise(w, c, t, s);
    case _ =>
  }

  lemma StepStaysOnTrack(w: World, a: Action, c: Claim, t: TaskId, s: Start)
    requires Sound(w) && OnTrack(w, c, t, s) && Enabled(w, a) && FaultFree(w, a, c, t)
    ensures OnTrack(Next(w, a), c, t, s)
  {
    if a.Happen? {
      EventStands(w, a.event, c, t);
      StandingStaysOnTrack(w, Next(w, a), c, t, s);
    } else if a.t == t {
      OwnActionStaysOnTrack(w, a, Next(w, a), c, t, s);
    } else {
      OtherTaskStands(w, a, c, t);
      StandingStaysOnTrack(w, Next(w, a), c, t, s);
    }
  }

  // ----- invariants of every run -----

  lemma NextKeepsFunded(w: World, a: Action)
    requires FundedAccepted(w) && Enabled(w, a)
    ensures FundedAccepted(Next(w, a))
  {
    if !a.Happen? {
      TaskActionIsFramed(w, a);
      SweepSolvency.TankGrows(w, a);
    }
  }

  lemma NextStaysSound(w: World, a: Action)
    requires Sound(w) && Enabled(w, a)
    ensures Sound(Next(w, a))
  {
    SweepSolvency.NextKeepsSolvent(w, a);
    NextKeepsFunded(w, a);
    SweepLocks.NextKeepsLocked(w, a);
  }

  lemma {:induction false} RunsAreSound(run: seq<World>, i: nat)
    requires Run(run) && i < |run|
    ensures Sound(run[i])
  {
    if i > 0 {
      RunsAreSound(run, i - 1);
      assert Step(run[i - 1], run[i]);
      var a :| Enabled(run[i - 1], a) && run[i] == Next(run[i - 1], a);
      NextStaysSound(run[i - 1], a);
    }
  }

  // ----- every pass -----

  ghost function StartOf(w: World, id: Id): Start
    requires id in w.disk
  {
    Start(Orphaned(w, id), w.disk[id].sweepTx.Some?, CreditOf(w, id), w.disk[id])
  }

  lemma LoadIsOnTrack(w: World, id: Id, t: TaskId)
    requires Sound(w) && Restarted(w, id)
    ensures OnTrack(Next(w, Load(t, id)), w.disk[id].claim, t, StartOf(w, id))
  {
    var c, s, w' := w.disk[id].claim, StartOf(w, id), Next(w, Load(t, id));
    assert SweepSolvency.DiskOk(w, id);
    SameAddress(w, w', c, s);
    if s.hashed {
      assert SweepOf(w, c, w.disk[id].sweepTx.value);
    } else if s.orphaned {
      var tx :| SweepOf(w, c, tx);
      assert Succeeded(w, tx);
    } else {
      NotYetCredited(w, id);
    }
  }

  lemma NotYetCredited(w: World, id: Id)
    requires Sound(w) && Restarted(w, id) && Unswept(w, w.disk[id].claim)
    ensures id !in w.ledger.credits
  {
    assert SweepSolvency.DiskOk(w, id) && SweepSolvency.CreditOk(w, id);
    assert forall tx :: tx in w.ledger.owner && w.ledger.owner[tx] == id ==> SweepOf(w, w.disk[id].claim, tx);
  }

  lemma {:induction false} PassStaysOnTrack(w0: World, id: Id, t: TaskId, worlds: seq<World>, acts: seq<Action>, n: nat)
    requires Sound(w0) && Restarted(w0, id) && Pass(w0, id, t, worlds, acts) && n < |worlds|
    ensures Sound(worlds[n]) && OnTrack(worlds[n], w0.disk[id].claim, t, StartOf(w0, id))
  {
    if n == 0 {
      LoadIsOnTrack(w0, id, t);
      NextStaysSound(w0, Load(t, id));
    } else {
      PassStaysOnTrack(w0, id, t, worlds, acts, n - 1);
      assert Enabled(worlds[n - 1], acts[n - 1]) && worlds[n - 1 + 1] == Next(worlds[n - 1], acts[n - 1]);
      StepStaysOnTrack(worlds[n - 1], acts[n - 1], w0.disk[id].claim, t, StartOf(w0, id));
      NextStaysSound(worlds[n - 1], acts[n - 1]);
    }
  }

  /** Once the task of a fault-free pass has ended, the deposit is completed if and only if it was
      not orphaned: credited as it was before or, if it was not, with exactly its own claim.  An
      orphan keeps its credit or lack of one, and its record, newly flagged unless it was processed. */
  lemma StartupPass(w0: World, id: Id, t: TaskId, worlds: seq<World>, acts: seq<Action>)
    requires Sound(w0) && Restarted(w0, id) && Pass(w0, id, t, worlds, acts) && t !in Last(worlds).tasks
    ensures Completed(Last(worlds), id) <==> !Orphaned(w0, id)
    ensures !Orphaned(w0, id) ==>
              CreditOf(Last(worlds), id)
              == Some(if id in w0.ledger.credits then w0.ledger.credits[id] else w0.disk[id].claim)
    ensures Orphaned(w0, id) ==> CreditOf(Last(worlds), id) == CreditOf(w0, id) && id in Last(worlds).disk
    ensures Orphaned(w0, id) ==>
              Last(worlds).disk[id] == w0.disk[id].(error := w0.disk[id].error || id !in w0.ledger.credits)
  {
    assert SweepSolvency.DiskOk(w0, id);
    PassStaysOnTrack(w0, id, t, worlds, acts, |worlds| - 1);
  }

  // ----- a pass ends -----

  /** The steps a task still has before it, at most. */
  function StepsLeft(pc: Pc): nat {
    match pc
    case Reconcile => 18 case Dispatch => 17
    case WaitAddress => 16 case ReadBalance => 15 case CheckProcessed => 14 case PriceGas => 14
    case WaitTank => 13 case ReadTankNonce => 12 case SendGas(_) => 11 case GasSent(_) => 10 case GasAccepted(_) => 9
    case WaitGasReceipt => 8
    case PriceSweep => 7 case SendSweep(_) => 6 case SweepSent(_) => 5 case SweepAccepted(_) => 4
    case WaitSweepReceipt => 3
    case Credit => 2 case Cleanup => 1
  }

  function Left(w: World, t: TaskId): nat {
    if t in w.tasks then StepsLeft(w.tasks[t].pc) else 0
  }

  function OwnSteps(acts: seq<Action>, t: TaskId): nat {
    if acts == [] then 0
    else OwnSteps(acts[..|acts| - 1], t) + if TaskOf(acts[|acts| - 1]) == Some(t) then 1 else 0
  }

  lemma PrepareAdvances(w: World, t: TaskId, step: PrepareStep)
    requires t in w.tasks && PrepareEnabled(w, t, step)
    ensures Left(AfterPrepare(w, t, step), t) < Left(w, t)
  {
  }

  lemma FundAdvances(w: World, t: TaskId, step: FundStep)
    requires t in w.tasks && FundEnabled(w, t, step)
    ensures Left(AfterFund(w, t, step), t) < Left(w, t)
  {
  }

  lemma SweepAdvances(w: World, t: TaskId, step: SweepStep)
    requires t in w.tasks && SweepEnabled(w, t, step)
    ensures Left(AfterSweep(w, t, step), t) < Left(w, t)
  {
  }

  lemma SettleAdvances(w: World, t: TaskId, step: SettleStep)
    requires t in w.tasks && SettleEnabled(w, t, step)
    ensures Left(AfterSettle(w, t, step), t) < Left(w, t)
  {
  }

  lemma OwnStepAdvances(w: World, a: Action, t: TaskId)
    requires Enabled(w, a) && t in w.tasks && TaskOf(a) == Some(t)
    ensures Left(Next(w, a), t) < Left(w, t)
  {
    match a
    case Prepare(_, step) => PrepareAdvances(w, t, step);
    case Fund(_, step) => FundAdvances(w, t, step);
    case Sweep(_, step) => SweepAdvances(w, t, step);
    case Settle(_, step) => SettleAdvances(w, t, step);
    case _ =>
  }

  lemma OtherStepKeepsLeft(w: World, a: Action, t: TaskId)
    requires Enabled(w, a) && TaskOf(a) != Some(t)
    ensures Left(Next(w, a), t) <= Left(w, t)
  {
    if t in Next(w, a).tasks {
      OthersKeepTask(w, a, t);
    }
  }

  /** The pass's task makes at most 18 steps. */
  lemma {:induction false} PassIsShort(w0: World, id: Id, t: TaskId, worlds: seq<World>, acts: seq<Action>, n: nat)
    requires Sound(w0) && Restarted(w0, id) && Pass(w0, id, t, worlds, acts) && n <= |acts|
    ensures OwnSteps(acts[..n], t) + Left(worlds[n], t) <= 18
  {
    if n > 0 {
      PassIsShort(w0, id, t, worlds, acts, n - 1);
      assert acts[..n][..n - 1] == acts[..n - 1];
      assert Enabled(worlds[n - 1], acts[n - 1]) && FaultFree(worlds[n - 1], acts[n - 1], w0.disk[id].claim, t);
      assert worlds[n - 1 + 1] == Next(worlds[n - 1], acts[n - 1]);
      if TaskOf(acts[n - 1]) == Some(t) {
        OwnStepAdvances(worlds[n - 1], acts[n - 1], t);
      } else {
        OtherStepKeepsLeft(worlds[n - 1], acts[n - 1], t);
      }
    }
  }

  /** Another task is using the gas tank that this one waits for. */
  ghost predicate TankIsBusy(w: World, t: TaskId) {
    && t in w.tasks && w.tasks[t].pc.WaitTank?
    && w.locks.tank.Some? && w.locks.tank.value != t && w.locks.tank.value in w.tasks
    && UsesTank(w.tasks[w.locks.tank.value].pc)
  }

  /** The task waits for a receipt that is not there yet. */
  predicate AwaitsMining(w: World, t: TaskId) {
    && t in w.tasks
    && var task := w.tasks[t];
    || (task.pc.WaitGasReceipt? && task.record.gasTx.Some? && task.record.gasTx.value !in w.ledger.funded)
    || (task.pc.WaitSweepReceipt? && task.record.sweepTx.Some? && task.record.sweepTx.value !in w.ledger.mined)
  }

  /** The pass's own step, or the mining of what it waits for. */
  predicate Advances(w: World, a: Action, t: TaskId)
    requires Enabled(w, a)
  {
    || TaskOf(a) == Some(t)
    || (a.Happen? && AwaitsMining(w, t) && !AwaitsMining(Next(w, a), t) && Next(w, a).tasks == w.tasks)
  }

  function NextNonce(tank: seq<GasTx>): int {
    if tank == [] then 0
    else
      var before := NextNonce(tank[..|tank| - 1]);
      if tank[|tank| - 1].nonce >= before then tank[|tank| - 1].nonce + 1 else before
  }

  lemma {:induction false} NextNonceIsAbove(tank: seq<GasTx>)
    ensures forall i :: 0 <= i < |tank| ==> tank[i].nonce < NextNonce(tank)
  {
    if tank != [] {
      NextNonceIsAbove(tank[..|tank| - 1]);
    }
  }

  lemma FundingGoesOn(w: World, c: Claim, t: TaskId, s: Start) returns (a: Action)
    requires Sound(w) && OnTrack(w, c, t, s) && t in w.tasks && Funding(w.tasks[t].pc) && !TankIsBusy(w, t)
    ensures Enabled(w, a) && FaultFree(w, a, c, t) && Advances(w, a, t)
  {
    if w.locks.tank.Some? {
      assert SweepLocks.TaskOk(w, w.locks.tank.value);
    }
    match w.tasks[t].pc
    case PriceGas => a := Prepare(t, SaveFresh);
    case WaitTank => a := Fund(t, AcquireTank);
    case ReadTankNonce =>
      NextNonceIsAbove(w.ledger.tank);
      a := Fund(t, SeeTankNonce(GasTx(c.chain, NextNonce(w.ledger.tank), c.address, 1, 1)));
    case SendGas(_) => a := Fund(t, RequestGas);
    case GasSent(_) => a := Fund(t, AcceptGas(true));
    case GasAccepted(_) => a := Fund(t, SaveGas);
    case WaitGasReceipt =>
      var gas := w.tasks[t].record.gasTx.value;
      a := if gas in w.ledger.funded then Fund(t, SeeGasReceipt) else Happen(MineGas(gas, true));
  }

  lemma {:induction false} NonceAbove(txs: set<SweepTx>) returns (nonce: int)
    ensures forall tx :: tx in txs ==> tx.nonce < nonce
  {
    nonce := 0;
    if txs != {} {
      var tx :| tx in txs;
      nonce := NonceAbove(txs - {tx});
      nonce := if tx.nonce >= nonce then tx.nonce + 1 else nonce;
    }
  }

  lemma SweepingGoesOn(w: World, c: Claim, t: TaskId, s: Start) returns (a: Action)
    requires Sound(w) && OnTrack(w, c, t, s) && t in w.tasks
    requires Sweeping(w.tasks[t].pc) || w.tasks[t].pc.SweepAccepted? || w.tasks[t].pc.WaitSweepReceipt?
    ensures Enabled(w, a) && FaultFree(w, a, c, t) && Advances(w, a, t)
  {
    match w.tasks[t].pc
    case PriceSweep =>
      var nonce := NonceAbove(w.ledger.owner.Keys);
      a := Sweep(t, SignSweep(nonce, 1));
    case SendSweep(_) => a := Sweep(t, RequestSweep);
    case SweepSent(tx) =>
      assert From(tx, c);
      a := Sweep(t, AcceptSweep(true));
    case SweepAccepted(_) => a := Sweep(t, SaveHash);
    case WaitSweepReceipt =>
      var tx := w.tasks[t].record.sweepTx.value;
      if tx in w.ledger.mined {
        a := Sweep(t, SeeSweepReceipt);
      } else {
        a := Happen(MineSweep(tx, true));
        SpendsFreshNonce(w, c, tx);
      }
  }

  lemma SpendsFreshNonce(w: World, c: Claim, tx: SweepTx)
    requires SweepSolvency.Solvent(w) && Paying(w, c, tx) && tx !in w.ledger.mined
    ensures EventEnabled(w, MineSweep(tx, true))
  {
    assert SweepSolvency.NoncesOk(w);
    forall other | other in w.ledger.mined
      ensures (other.chain, other.address, other.nonce) != (tx.chain, tx.address, tx.nonce)
    {
      assert other in w.ledger.owner;
    }
  }

  lemma ResumingGoesOn(w: World, c: Claim, t: TaskId, s: Start) returns (a: Action)
    requires Sound(w) && OnTrack(w, c, t, s) && t in w.tasks
    requires BeforeLock(w.tasks[t].pc) || w.tasks[t].pc.ReadBalance?
    ensures Enabled(w, a) && FaultFree(w, a, c, t) && Advances(w, a, t)
  {
    var task := w.tasks[t];
    match task.pc
    case Reconcile => a := Settle(t, SeeReconcile(task.record.stage != Swept && Confirmed(w, task.record)));
    case Dispatch => a := Settle(t, Route);
    case WaitAddress => a := Prepare(t, AcquireAddress);
    case ReadBalance => a := Prepare(t, SeeBalance(Balance(w, c)));
  }

  lemma TaskGoesOn(w: World, c: Claim, t: TaskId, s: Start) returns (a: Action)
    requires Sound(w) && OnTrack(w, c, t, s) && t in w.tasks && !TankIsBusy(w, t)
    ensures Enabled(w, a) && FaultFree(w, a, c, t) && Advances(w, a, t)
  {
    var pc := w.tasks[t].pc;
    if pc.CheckProcessed? {
      a := if c.id in w.ledger.credits then Prepare(t, SeeProcessed) else Raise(t);
    } else if pc.Credit? {
      a := Settle(t, CreditDeposit(true));
    } else if pc.Cleanup? {
      a := Settle(t, DeleteRecord);
    } else if BeforeLock(pc) || pc.ReadBalance? {
      a := ResumingGoesOn(w, c, t, s);
    } else if Funding(pc) {
      a := FundingGoesOn(w, c, t, s);
    } else {
      a := SweepingGoesOn(w, c, t, s);
    }
  }

  /** An unfinished pass is never stuck: some fault-free step brings it on, unless another live task
      is using the gas tank it waits for. */
  lemma PassNeverSticks(w0: World, id: Id, t: TaskId, worlds: seq<World>, acts: seq<Action>) returns (a: Action)
    requires Sound(w0) && Restarted(w0, id) && Pass(w0, id, t, worlds, acts)
    requires t in Last(worlds).tasks && !TankIsBusy(Last(worlds), t)
    ensures Enabled(Last(worlds), a) && FaultFree(Last(worlds), a, w0.disk[id].claim, t) && Advances(Last(worlds), a, t)
  {
    PassStaysOnTrack(w0, id, t, worlds, acts, |worlds| - 1);
    a := TaskGoesOn(Last(worlds), w0.disk[id].claim, t, StartOf(w0, id));
  }

  function Potential(w: World, t: TaskId): nat {
    2 * Left(w, t) + if AwaitsMining(w, t) then 1 else 0
  }

  lemma AdvancingLowers(w: World, a: Action, t: TaskId)
    requires Enabled(w, a) && Advances(w, a, t) && t in w.tasks
    ensures Potential(Next(w, a), t) < Potential(w, t)
    ensures Next(w, a).tasks.Keys <= w.tasks.Keys + {t}
  {
    if TaskOf(a) == Some(t) {
      OwnStepAdvances(w, a, t);
      TaskActionIsFramed(w, a);
    }
  }

  /** A pass that runs by itself can always be brought to its end. */
  lemma {:induction false} PassCanFinish(w0: World, id: Id, t: TaskId, worlds: seq<World>, acts: seq<Action>)
    returns (longer: seq<World>, more: seq<Action>)
    requires Sound(w0) && Restarted(w0, id) && Pass(w0, id, t, worlds, acts) && Last(worlds).tasks.Keys <= {t}
    ensures worlds <= longer && acts <= more && Pass(w0, id, t, longer, more) && t !in Last(longer).tasks
    decreases Potential(Last(worlds), t)
  {
    var w := Last(worlds);
    if t !in w.tasks {
      longer, more := worlds, acts;
    } else {
      var a := PassNeverSticks(w0, id, t, worlds, acts);
      AdvancingLowers(w, a, t);
      PassExtends(w0, id, t, worlds, acts, a);
      longer, more := PassCanFinish(w0, id, t, worlds + [Next(w, a)], acts + [a]);
    }
  }

  lemma PassExtends(w0: World, id: Id, t: TaskId, worlds: seq<World>, acts: seq<Action>, a: Action)
    requires Pass(w0, id, t, worlds, acts)
    requires Enabled(Last(worlds), a) && FaultFree(Last(worlds), a, w0.disk[id].claim, t)
    ensures Pass(w0, id, t, worlds + [Next(Last(worlds), a)], acts + [a])
  {
    var longer, more := worlds + [Next(Last(worlds), a)], acts + [a];
    forall i | 0 <= i < |more|
      ensures Enabled(longer[i], more[i]) && FaultFree(longer[i], more[i], w0.disk[id].claim, t)
              && longer[i + 1] == Next(longer[i], more[i])
    {
      assert i < |acts| ==> longer[i] == worlds[i] && longer[i + 1] == worlds[i + 1] && more[i] == acts[i];
    }
  }

  // ----- after a run -----

  lemma OrphansAreCredited(w: World, id: Id)
    requires Restarted(w, id) && w.disk[id].claim.id == id && forall tx :: SweepDurability.SweepSaved(w, tx)
    ensures Orphaned(w, id) ==> id in w.ledger.credits
  {
    if Orphaned(w, id) {
      var tx :| SweepOf(w, w.disk[id].claim, tx);
      assert SweepDurability.SweepSaved(w, tx);
    }
  }

  /** From every crash that does not fall between a broadcast and the save of its hash, every
      fault-free startup pass that has ended has completed the deposit. */
  lemma CrashOutsideTheGapIsRepaired(run: seq<World>, id: Id, t: TaskId, worlds: seq<World>, acts: seq<Action>)
    requires SweepDurability.GapFreeRun(run) && Restarted(Last(run), id)
    requires Pass(Last(run), id, t, worlds, acts) && t !in Last(worlds).tasks
    ensures Completed(Last(worlds), id)
    ensures CreditOf(Last(worlds), id)
            == Some(if id in Last(run).ledger.credits then Last(run).ledger.credits[id] else Last(run).disk[id].claim)
  {
    var w := Last(run);
    RunsAreSound(run, |run| - 1);
    assert SweepSolvency.DiskOk(w, id);
    forall tx ensures SweepDurability.SweepSaved(w, tx) {
      SweepDurability.GapFreeRunsSaveEverySweep(run, |run| - 1, tx);
    }
    OrphansAreCredited(w, id);
    SweepDurability.GapFreeRunsStayUncredited(run, |run| - 1, id);
    StartupPass(w, id, t, worlds, acts);
  }
}
