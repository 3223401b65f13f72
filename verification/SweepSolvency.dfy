/**
 Solvency: in every run, whatever the interleaving of sweeps, recovery passes, crashes and
 restarts, each credited deposit is backed by its own mined sweep of exactly the credited amount.
 */
module SweepSolvency {
  import opened Options
  import opened Sums
  import opened SweepModel

  /** The hash belongs to this claim: nodes accepted these bytes from a task of this deposit. */
  ghost predicate Owns(w: World, claim: Claim, tx: SweepTx) {
    tx in w.ledger.owner && w.ledger.owner[tx] == claim.id && Carries(tx, claim)
  }

  ghost predicate Succeeded(w: World, tx: SweepTx) {
    tx in w.ledger.mined && w.ledger.mined[tx]
  }

  ghost predicate RecordOk(w: World, r: Record) {
    && (r.sweepTx.Some? ==> Owns(w, r.claim, r.sweepTx.value))
    && (r.stage == Swept ==> r.sweepTx.Some? && Succeeded(w, r.sweepTx.value))
    && (r.sweepTx.Some? ==> !r.error)
  }

  predicate AfterReceipt(pc: Pc) {
    pc.Reconcile? || pc.Dispatch? || pc.Credit? || pc.Cleanup?
  }

  ghost predicate TaskOk(w: World, task: Task) {
    && RecordOk(w, task.record)
    && (task.pc.SendSweep? || task.pc.SweepSent? ==> Carries(task.pc.tx, task.record.claim))
    && (task.pc.SweepAccepted? ==> Owns(w, task.record.claim, task.pc.tx))
    && (task.pc.Credit? || task.pc.Cleanup? ==> task.record.stage == Swept)
    && (task.record.stage == Swept || task.record.error ==> AfterReceipt(task.pc))
  }

  /** The sweep `tx` pays for the credit of `id`. */
  ghost predicate Pays(w: World, id: Id, tx: SweepTx)
    requires id in w.ledger.credits
  {
    Owns(w, w.ledger.credits[id], tx) && Succeeded(w, tx)
  }

  ghost predicate CreditOk(w: World, id: Id) {
    id in w.ledger.credits ==> w.ledger.credits[id].id == id && exists tx :: Pays(w, id, tx)
  }

  ghost predicate DiskOk(w: World, id: Id) {
    id in w.disk ==> w.disk[id].claim.id == id && RecordOk(w, w.disk[id])
  }

  ghost predicate NoncesOk(w: World) {
    && (forall tx :: tx in w.ledger.mined ==> tx in w.ledger.owner)
    && (forall tx, other :: tx in w.ledger.mined && other in w.ledger.mined && tx != other
          ==> (tx.chain, tx.address, tx.nonce) != (other.chain, other.address, other.nonce))
  }

  ghost predicate Solvent(w: World) {
    && (forall id :: DiskOk(w, id))
    && (forall t :: t in w.tasks ==> TaskOk(w, w.tasks[t]))
    && (forall id :: CreditOk(w, id))
    && NoncesOk(w)
  }

  // ----- one action keeps the invariant -----

  /** Acceptances and receipts are permanent. */
  ghost predicate LedgerGrows(w: World, w': World) {
    && (forall tx :: tx in w.ledger.owner ==> tx in w'.ledger.owner && w'.ledger.owner[tx] == w.ledger.owner[tx])
    && (forall tx :: tx in w.ledger.mined ==> tx in w'.ledger.mined && w'.ledger.mined[tx] == w.ledger.mined[tx])
  }

  /** A step of task `t` for deposit `id` leaves the other tasks, files and credits alone, and its
      own in order. */
  ghost predicate TaskStep(w: World, w': World, t: TaskId, id: Id) {
    && LedgerGrows(w, w') && w'.ledger.mined == w.ledger.mined
    && (forall u :: u in w'.tasks && u != t ==> u in w.tasks && w'.tasks[u] == w.tasks[u])
    && (t in w'.tasks ==> TaskOk(w', w'.tasks[t]))
    && (forall i :: i in w'.disk && i != id ==> i in w.disk && w'.disk[i] == w.disk[i])
    && DiskOk(w', id)
    && (forall i :: i in w'.ledger.credits && i != id ==>
        i in w.ledger.credits && w'.ledger.credits[i] == w.ledger.credits[i])
    && CreditOk(w', id)
  }

  /** An exception, or the end of a task, after the node took the task's request. */
  lemma AbortIsTaskStep(w: World, w1: World, t: TaskId)
    requires Solvent(w) && t in w.tasks && w1.tasks == w.tasks && w1.disk == w.disk
    requires LedgerGrows(w, w1) && w1.ledger.mined == w.ledger.mined && w1.ledger.credits == w.ledger.credits
    ensures TaskStep(w, Abort(w1, t), t, w.tasks[t].record.claim.id)
  {
    var id := w.tasks[t].record.claim.id;
    assert DiskOk(w, id) && CreditOk(w, id);
    CreditLasts(w, Abort(w1, t), id);
  }

  lemma EndIsTaskStep(w: World, t: TaskId)
    requires Solvent(w) && t in w.tasks
    ensures TaskStep(w, End(w, t), t, w.tasks[t].record.claim.id)
  {
    var id := w.tasks[t].record.claim.id;
    assert DiskOk(w, id) && CreditOk(w, id);
    CreditLasts(w, End(w, t), id);
  }

  lemma PrepareIsTaskStep(w: World, t: TaskId, step: PrepareStep)
    requires Solvent(w) && t in w.tasks && PrepareEnabled(w, t, step)
    ensures TaskStep(w, AfterPrepare(w, t, step), t, w.tasks[t].record.claim.id)
  {
    var claim := w.tasks[t].record.claim;
    assert TaskOk(w, w.tasks[t]) && DiskOk(w, claim.id) && CreditOk(w, claim.id);
    CreditLasts(w, AfterPrepare(w, t, step), claim.id);
  }

  lemma FundIsTaskStep(w: World, t: TaskId, step: FundStep)
    requires Solvent(w) && t in w.tasks && FundEnabled(w, t, step)
    ensures TaskStep(w, AfterFund(w, t, step), t, w.tasks[t].record.claim.id)
  {
    match step
    case AcceptGas(replied) => GasAcceptanceIsTaskStep(w, t, replied);
    case SaveGas => GasSaveIsTaskStep(w, t);
    case _ =>
      var claim := w.tasks[t].record.claim;
      assert TaskOk(w, w.tasks[t]) && DiskOk(w, claim.id) && CreditOk(w, claim.id);
      CreditLasts(w, AfterFund(w, t, step), claim.id);
  }

  lemma GasSaveIsTaskStep(w: World, t: TaskId)
    requires Solvent(w) && t in w.tasks && FundEnabled(w, t, SaveGas)
    ensures TaskStep(w, AfterFund(w, t, SaveGas), t, w.tasks[t].record.claim.id)
  {
    var claim := w.tasks[t].record.claim;
    assert TaskOk(w, w.tasks[t]) && DiskOk(w, claim.id) && CreditOk(w, claim.id);
    CreditLasts(w, AfterFund(w, t, SaveGas), claim.id);
  }

  lemma GasAcceptanceIsTaskStep(w: World, t: TaskId, replied: bool)
    requires Solvent(w) && t in w.tasks && w.tasks[t].pc.GasSent?
    ensures TaskStep(w, AfterFund(w, t, AcceptGas(replied)), t, w.tasks[t].record.claim.id)
  {
    var claim := w.tasks[t].record.claim;
    assert TaskOk(w, w.tasks[t]) && DiskOk(w, claim.id) && CreditOk(w, claim.id);
    if replied {
      CreditLasts(w, AfterFund(w, t, AcceptGas(true)), claim.id);
    } else {
      AbortIsTaskStep(w, w.(ledger := w.ledger.(tank := w.ledger.tank + [w.tasks[t].pc.gas])), t);
    }
  }

  lemma SweepIsTaskStep(w: World, t: TaskId, step: SweepStep)
    requires Solvent(w) && t in w.tasks && SweepEnabled(w, t, step)
    ensures TaskStep(w, AfterSweep(w, t, step), t, w.tasks[t].record.claim.id)
  {
    match step
    case AcceptSweep(replied) => SweepAcceptanceIsTaskStep(w, t, replied);
    case _ =>
      var claim := w.tasks[t].record.claim;
      assert TaskOk(w, w.tasks[t]) && DiskOk(w, claim.id) && CreditOk(w, claim.id);
      CreditLasts(w, AfterSweep(w, t, step), claim.id);
  }

  lemma SweepAcceptanceIsTaskStep(w: World, t: TaskId, replied: bool)
    requires Solvent(w) && t in w.tasks && SweepEnabled(w, t, AcceptSweep(replied))
    ensures TaskStep(w, AfterSweep(w, t, AcceptSweep(replied)), t, w.tasks[t].record.claim.id)
  {
    var claim := w.tasks[t].record.claim;
    assert TaskOk(w, w.tasks[t]) && DiskOk(w, claim.id) && CreditOk(w, claim.id);
    if replied {
      CreditLasts(w, AfterSweep(w, t, AcceptSweep(true)), claim.id);
    } else {
      AbortIsTaskStep(w, w.(ledger := w.ledger.(owner := w.ledger.owner[w.tasks[t].pc.tx := claim.id])), t);
    }
  }

  lemma SettleIsTaskStep(w: World, t: TaskId, step: SettleStep)
    requires Solvent(w) && t in w.tasks && SettleEnabled(w, t, step) && !step.CreditDeposit?
    ensures TaskStep(w, AfterSettle(w, t, step), t, w.tasks[t].record.claim.id)
  {
    var claim := w.tasks[t].record.claim;
    assert TaskOk(w, w.tasks[t]) && DiskOk(w, claim.id) && CreditOk(w, claim.id);
    CreditLasts(w, AfterSettle(w, t, step), claim.id);
    if step == CreditRefused(true) {
      AbortIsTaskStep(w, w, t);
    }
  }

  lemma CreditIsTaskStep(w: World, t: TaskId, replied: bool)
    requires Solvent(w) && t in w.tasks && w.tasks[t].pc.Credit?
    ensures TaskStep(w, AfterSettle(w, t, CreditDeposit(replied)), t, w.tasks[t].record.claim.id)
  {
    var w', record := AfterSettle(w, t, CreditDeposit(replied)), w.tasks[t].record;
    var id := record.claim.id;
    assert TaskOk(w, w.tasks[t]) && DiskOk(w, id) && CreditOk(w, id);
    if id in w.ledger.credits {
      CreditLasts(w, w', id);
    } else {
      assert Pays(w', id, record.sweepTx.value);
    }
  }

  lemma CreditLasts(w: World, w': World, id: Id)
    requires CreditOk(w, id) && LedgerGrows(w, w')
    requires id in w.ledger.credits && id in w'.ledger.credits ==> w'.ledger.credits[id] == w.ledger.credits[id]
    ensures id in w.ledger.credits ==> CreditOk(w', id)
  {
    if id in w.ledger.credits && id in w'.ledger.credits {
      var tx :| Pays(w, id, tx);
      assert Pays(w', id, tx);
    }
  }

  lemma TaskStepKeepsSolvent(w: World, w': World, t: TaskId, id: Id)
    requires Solvent(w) && TaskStep(w, w', t, id)
    ensures Solvent(w')
  {
    forall i ensures DiskOk(w', i) && CreditOk(w', i) {
      assert DiskOk(w, i) && CreditOk(w, i);
      if i != id {
        CreditLasts(w, w', i);
      }
    }
  }

  lemma NextKeepsSolvent(w: World, a: Action)
    requires Solvent(w) && Enabled(w, a)
    ensures Solvent(Next(w, a))
  {
    var w' := Next(w, a);
    match a
    case Begin(t, claim) =>
      assert DiskOk(w, claim.id) && CreditOk(w, claim.id);
      CreditLasts(w, w', claim.id);
      TaskStepKeepsSolvent(w, w', t, claim.id);
    case Load(t, id) =>
      assert DiskOk(w, id) && CreditOk(w, id);
      CreditLasts(w, w', id);
      TaskStepKeepsSolvent(w, w', t, id);
    case Prepare(t, step) =>
      PrepareIsTaskStep(w, t, step);
      TaskStepKeepsSolvent(w, w', t, w.tasks[t].record.claim.id);
    case Fund(t, step) =>
      FundIsTaskStep(w, t, step);
      TaskStepKeepsSolvent(w, w', t, w.tasks[t].record.claim.id);
    case Sweep(t, step) =>
      SweepIsTaskStep(w, t, step);
      TaskStepKeepsSolvent(w, w', t, w.tasks[t].record.claim.id);
    case Settle(t, step) =>
      if step.CreditDeposit? {
        CreditIsTaskStep(w, t, step.replied);
      } else {
        SettleIsTaskStep(w, t, step);
      }
      TaskStepKeepsSolvent(w, w', t, w.tasks[t].record.claim.id);
    case Raise(t) =>
      AbortIsTaskStep(w, w, t);
      TaskStepKeepsSolvent(w, w', t, w.tasks[t].record.claim.id);
    case Drop(t) =>
      EndIsTaskStep(w, t);
      TaskStepKeepsSolvent(w, w', t, w.tasks[t].record.claim.id);
    case Happen(event) =>
      EventKeepsSolvent(w, event);
  }

  lemma EventKeepsSolvent(w: World, event: Event)
    requires Solvent(w) && EventEnabled(w, event)
    ensures Solvent(AfterEvent(w, event))
  {
    var w' := AfterEvent(w, event);
    assert LedgerGrows(w, w');
    forall id ensures DiskOk(w', id) && CreditOk(w', id) {
      assert DiskOk(w, id) && CreditOk(w, id);
      if id in w.ledger.credits {
        var tx :| Pays(w, id, tx);
        assert Pays(w', id, tx);
      }
    }
  }

  lemma {:induction false} RunsAreSolvent(run: seq<World>, i: nat)
    requires Run(run) && i < |run|
    ensures Solvent(run[i])
  {
    if i > 0 {
      RunsAreSolvent(run, i - 1);
      assert Step(run[i - 1], run[i]);
      var a :| Enabled(run[i - 1], a) && run[i] == Next(run[i - 1], a);
      NextKeepsSolvent(run[i - 1], a);
    }
  }

  // ----- the solvency theorem -----

  /** The sweep that backs the credit of `id`. */
  ghost function Payer(w: World, id: Id): SweepTx
    requires id in w.ledger.credits && CreditOk(w, id)
  {
    var tx :| Pays(w, id, tx); tx
  }

  ghost function Credited(w: World, token: Token): nat {
    Sum(w.ledger.credits.Keys,
        (id: Id) => AmountOf(w, token, id))
  }

  /** What a deposit counts towards the credits of a token. */
  function AmountOf(w: World, token: Token, id: Id): nat {
    if id in w.ledger.credits && w.ledger.credits[id].token == token then w.ledger.credits[id].amount else 0
  }

  ghost function SuccessfullySwept(w: World, token: Token): nat {
    Sum(set tx | tx in w.ledger.mined && w.ledger.mined[tx],
        (tx: SweepTx) => if tx.token == token then tx.amount else 0)
  }

  /** Distinct credits have distinct payers, which even spend distinct nonces. */
  lemma PayersAreDistinct(w: World, id: Id, other: Id)
    requires Solvent(w) && id in w.ledger.credits && other in w.ledger.credits && id != other
    ensures CreditOk(w, id) && CreditOk(w, other)
    ensures var p, q := Payer(w, id), Payer(w, other);
            p != q && (p.chain, p.address, p.nonce) != (q.chain, q.address, q.nonce)
  {
    assert CreditOk(w, id) && CreditOk(w, other);
  }

  lemma CreditsAreBacked(run: seq<World>, i: nat, token: Token)
    requires Run(run) && i < |run|
    ensures forall id :: id in run[i].ledger.credits ==> CreditOk(run[i], id) && Pays(run[i], id, Payer(run[i], id))
    ensures forall id, other {:trigger Payer(run[i], id), Payer(run[i], other)} ::
              id in run[i].ledger.credits && other in run[i].ledger.credits && id != other
              && CreditOk(run[i], id) && CreditOk(run[i], other)
              ==> Payer(run[i], id) != Payer(run[i], other)
    ensures forall id :: id in run[i].ledger.credits ==>
              var tx, claim := Payer(run[i], id), run[i].ledger.credits[id];
              && (tx.address, tx.chain, tx.token, tx.amount) == (claim.address, claim.chain, claim.token, claim.amount)
              && tx in run[i].ledger.mined && run[i].ledger.mined[tx]
    ensures Credited(run[i], token) <= SuccessfullySwept(run[i], token)
  {
    var w := run[i];
    RunsAreSolvent(run, i);
    forall id | id in w.ledger.credits ensures CreditOk(w, id) {
    }
    forall id, other | id in w.ledger.credits && other in w.ledger.credits && id != other
      ensures Payer(w, id) != Payer(w, other)
    {
      PayersAreDistinct(w, id, other);
    }
    var image := (id: Id) => if id in w.ledger.credits && CreditOk(w, id) then Payer(w, id)
                 else SweepTx(0, 0, 0, 0, 0, 0);
    SumInjects(w.ledger.credits.Keys,
               (id: Id) => AmountOf(w, token, id),
               set tx | tx in w.ledger.mined && w.ledger.mined[tx],
               (tx: SweepTx) => if tx.token == token then tx.amount else 0,
               image);
  }

  // ----- further consequences -----

  /** No record is ever both broadcast and flagged, so the branches of `process_deposit` and
      `get_deposit_status` for such records are never taken. */
  lemma BroadcastRecordsAreNeverFlagged(run: seq<World>, i: nat, id: Id)
    requires Run(run) && i < |run| && id in run[i].disk
    ensures run[i].disk[id].error ==> run[i].disk[id].sweepTx.None?
    ensures MayStart(run[i].disk, id) <==> run[i].disk[id].error
  {
    RunsAreSolvent(run, i);
    assert DiskOk(run[i], id);
  }

  /** In the last step that task `t` made before world `n`, at world `j`, its chain passed the
      identity check. */
  ghost predicate CheckedAt(run: seq<World>, acts: seq<Action>, n: nat, t: TaskId, j: nat)
    requires |acts| <= |run| && n <= |acts|
  {
    && j < n && TaskOf(acts[j]) == Some(t) && t in run[j].tasks
    && run[j].tasks[t].record.claim.chain in run[j].ledger.served
    && forall i :: j < i < n ==> TaskOf(acts[i]) != Some(t)
  }

  predicate AwaitsNode(pc: Pc) {
    pc.GasSent? || pc.SweepSent?
  }

  /** A task whose request is on the wire made it in the very step that passed the check. */
  lemma {:induction false} RequestsAreChecked(run: seq<World>, acts: seq<Action>, n: nat, t: TaskId) returns (j: nat)
    requires ActedRun(run, acts) && n <= |acts| && t in run[n].tasks && AwaitsNode(run[n].tasks[t].pc)
    ensures CheckedAt(run, acts, n, t, j)
    ensures run[j].tasks[t] == run[n].tasks[t].(pc := BeforeRequest(run[n].tasks[t].pc))
  {
    RequestBefore(run, acts, n, t);
    if TaskOf(acts[n - 1]) == Some(t) {
      j := n - 1;
    } else {
      j := RequestsAreChecked(run, acts, n - 1, t);
    }
  }

  lemma RequestBefore(run: seq<World>, acts: seq<Action>, n: nat, t: TaskId)
    requires ActedRun(run, acts) && n <= |acts| && t in run[n].tasks && AwaitsNode(run[n].tasks[t].pc)
    ensures n > 0
    ensures if TaskOf(acts[n - 1]) == Some(t) then Requested(run[n - 1], run[n], t)
            else t in run[n - 1].tasks && run[n - 1].tasks[t] == run[n].tasks[t]
  {
    assert n > 0;
    assert Enabled(run[n - 1], acts[n - 1]) && run[n - 1 + 1] == Next(run[n - 1], acts[n - 1]);
    RequestStep(run[n - 1], acts[n - 1], run[n], t);
  }

  function BeforeRequest(pc: Pc): Pc
    requires AwaitsNode(pc)
  {
    match pc
    case GasSent(gas) => SendGas(gas)
    case SweepSent(tx) => SendSweep(tx)
  }

  lemma PrepareRequestsNothing(w: World, t: TaskId, step: PrepareStep)
    requires t in w.tasks && PrepareEnabled(w, t, step)
    ensures t in AfterPrepare(w, t, step).tasks ==> !AwaitsNode(AfterPrepare(w, t, step).tasks[t].pc)
  {
  }

  lemma SettleRequestsNothing(w: World, t: TaskId, step: SettleStep)
    requires t in w.tasks && SettleEnabled(w, t, step)
    ensures t in AfterSettle(w, t, step).tasks ==> !AwaitsNode(AfterSettle(w, t, step).tasks[t].pc)
  {
  }

  /** The task's record is as before, it had its bytes at hand, and its chain is served. */
  ghost predicate Requested(w: World, w': World, t: TaskId)
    requires t in w'.tasks && AwaitsNode(w'.tasks[t].pc)
  {
    && t in w.tasks && w.tasks[t] == w'.tasks[t].(pc := BeforeRequest(w'.tasks[t].pc))
    && w.tasks[t].record.claim.chain in w.ledger.served
  }

  lemma FundRequests(w: World, t: TaskId, step: FundStep)
    requires t in w.tasks && FundEnabled(w, t, step)
    ensures var w' := AfterFund(w, t, step); t in w'.tasks && AwaitsNode(w'.tasks[t].pc) ==> Requested(w, w', t)
  {
  }

  lemma SweepRequests(w: World, t: TaskId, step: SweepStep)
    requires t in w.tasks && SweepEnabled(w, t, step)
    ensures var w' := AfterSweep(w, t, step); t in w'.tasks && AwaitsNode(w'.tasks[t].pc) ==> Requested(w, w', t)
  {
  }

  /** Only the task's own request, on a served chain, leads there. */
  lemma RequestStep(w: World, a: Action, w': World, t: TaskId)
    requires Enabled(w, a) && w' == Next(w, a) && t in w'.tasks && AwaitsNode(w'.tasks[t].pc)
    ensures if TaskOf(a) == Some(t) then Requested(w, w', t) else t in w.tasks && w.tasks[t] == w'.tasks[t]
  {
    if TaskOf(a) == Some(t) {
      match a
      case Prepare(_, step) => PrepareRequestsNothing(w, t, step);
      case Fund(_, step) => FundRequests(w, t, step);
      case Sweep(_, step) => SweepRequests(w, t, step);
      case Settle(_, step) => SettleRequestsNothing(w, t, step);
      case _ =>
    } else {
      OthersKeepTask(w, a, t);
    }
  }

  /** A sweep is broadcast only in the step of its task that found the chain passing the identity
      check: no step of the task lies between that check and the node's acceptance. */
  lemma BroadcastsNeedServedChains(run: seq<World>, acts: seq<Action>, k: nat, t: TaskId, replied: bool)
    returns (j: nat)
    requires ActedRun(run, acts) && k < |acts| && acts[k] == Sweep(t, AcceptSweep(replied))
    ensures CheckedAt(run, acts, k, t, j)
    ensures t in run[k].tasks && run[k].tasks[t].pc.SweepSent? && run[k].tasks[t].pc.tx.chain in run[j].ledger.served
    ensures run[k + 1].ledger.owner.Keys == run[k].ledger.owner.Keys + {run[k].tasks[t].pc.tx}
  {
    assert Enabled(run[k], acts[k]) && run[k + 1] == Next(run[k], acts[k]);
    j := RequestsAreChecked(run, acts, k, t);
    ActedRunIsRun(run, acts);
    RunsAreSolvent(run, k);
    assert TaskOk(run[k], run[k].tasks[t]);
  }

  /** So is a transfer out of the gas tank. */
  lemma GasTransfersNeedServedChains(run: seq<World>, acts: seq<Action>, k: nat, t: TaskId, replied: bool)
    returns (j: nat)
    requires ActedRun(run, acts) && k < |acts| && acts[k] == Fund(t, AcceptGas(replied))
    ensures CheckedAt(run, acts, k, t, j)
    ensures t in run[k].tasks && run[k].tasks[t].pc.GasSent? && run[j].tasks[t].pc == SendGas(run[k].tasks[t].pc.gas)
    ensures run[k + 1].ledger.tank == run[k].ledger.tank + [run[k].tasks[t].pc.gas]
  {
    assert Enabled(run[k], acts[k]) && run[k + 1] == Next(run[k], acts[k]);
    j := RequestsAreChecked(run, acts, k, t);
  }

  /** Nothing else is ever broadcast. */
  lemma OnlyAcceptanceBroadcasts(w: World, a: Action)
    requires Enabled(w, a)
    ensures Next(w, a).ledger.owner != w.ledger.owner ==> a.Sweep? && a.sweep.AcceptSweep?
    ensures Next(w, a).ledger.tank != w.ledger.tank ==> a.Fund? && a.fund.AcceptGas?
  {
    match a
    case Prepare(t, step) =>
    case Fund(t, step) =>
    case Sweep(t, step) =>
    case Settle(t, step) =>
    case _ =>
  }

  lemma TankGrows(w: World, a: Action)
    requires Enabled(w, a)
    ensures w.ledger.tank <= Next(w, a).ledger.tank
  {
    OnlyAcceptanceBroadcasts(w, a);
  }

  ghost predicate SweptOnDisk(w: World, id: Id) {
    id in w.disk && w.disk[id].stage == Swept
  }

  /** Only a step at which the chain is served promotes a record to SWEPT. */
  lemma PromotionsNeedServedChains(w: World, a: Action, id: Id)
    requires Solvent(w) && Enabled(w, a) && SweptOnDisk(Next(w, a), id) && !SweptOnDisk(w, id)
    ensures Next(w, a).disk[id].claim.chain in w.ledger.served
  {
    match a
    case Sweep(t, step) => assert TaskOk(w, w.tasks[t]);
    case Settle(t, step) =>
    case Prepare(t, step) =>
    case Fund(t, step) =>
    case _ =>
  }

  /** In every run, a record that is SWEPT on disk was promoted, at world `j` and for good, in a step
      that found its chain passing the identity check. */
  lemma {:induction false} SweptRecordsWereChecked(run: seq<World>, acts: seq<Action>, n: nat, id: Id) returns (j: nat)
    requires ActedRun(run, acts) && n <= |acts| && SweptOnDisk(run[n], id)
    ensures j < n && !SweptOnDisk(run[j], id) && forall k :: j < k <= n ==> SweptOnDisk(run[k], id)
    ensures id in run[j + 1].disk && run[j + 1].disk[id].claim.chain in run[j].ledger.served
  {
    assert n > 0;
    assert Enabled(run[n - 1], acts[n - 1]) && run[n - 1 + 1] == Next(run[n - 1], acts[n - 1]);
    if SweptOnDisk(run[n - 1], id) {
      j := SweptRecordsWereChecked(run, acts, n - 1, id);
    } else {
      j := n - 1;
      ActedRunIsRun(run, acts);
      RunsAreSolvent(run, j);
      PromotionsNeedServedChains(run[j], acts[j], id);
    }
  }
}
