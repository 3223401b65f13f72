/**
 The gas tank never signs two transfers with one nonce.  One lock for all chains spans the read of
 the pending count and the wait for the receipt, so the count a task read is still above every
 accepted nonce when its transfer reaches the node.
 */
module GasTank {
  import opened Options
  import opened SweepModel

  ghost predicate Above(gas: GasTx, tank: seq<GasTx>) {
    forall i :: 0 <= i < |tank| && tank[i].chain == gas.chain ==> tank[i].nonce < gas.nonce
  }

  /** On each chain the accepted nonces strictly increase. */
  ghost predicate NoncesIncrease(tank: seq<GasTx>) {
    forall i, j :: 0 <= i < j < |tank| && tank[i].chain == tank[j].chain ==> tank[i].nonce < tank[j].nonce
  }

  ghost predicate TaskOk(w: World, t: TaskId, task: Task) {
    && (UsesTank(task.pc) ==> w.locks.tank == Some(t))
    && (task.pc.SendGas? || task.pc.GasSent? ==> Above(task.pc.gas, w.ledger.tank))
  }

  ghost predicate TankOk(w: World) {
    && (forall t :: t in w.tasks ==> TaskOk(w, t, w.tasks[t]))
    && NoncesIncrease(w.ledger.tank)
  }

  lemma FundKeepsTankOk(w: World, t: TaskId, step: FundStep)
    requires TankOk(w) && t in w.tasks && FundEnabled(w, t, step)
    ensures TankOk(AfterFund(w, t, step))
  {
    var w' := AfterFund(w, t, step);
    assert TaskOk(w, t, w.tasks[t]);
    forall u | u in w'.tasks ensures TaskOk(w', u, w'.tasks[u]) {
      assert u in w.tasks && TaskOk(w, u, w.tasks[u]);
    }
  }

  /** No other step touches the transfers, takes the lock, or enters the locked region. */
  lemma OthersKeepTankOk(w: World, a: Action)
    requires TankOk(w) && Enabled(w, a) && !a.Fund?
    ensures TankOk(Next(w, a))
  {
    var w' := Next(w, a);
    assert w'.ledger.tank == w.ledger.tank;
    forall u | u in w'.tasks ensures TaskOk(w', u, w'.tasks[u]) {
      if u in w.tasks {
        assert TaskOk(w, u, w.tasks[u]);
      }
    }
  }

  lemma {:induction false} TankNoncesNeverRepeat(run: seq<World>, i: nat)
    requires Run(run) && i < |run|
    ensures TankOk(run[i])
    ensures forall j, k :: 0 <= j < k < |run[i].ledger.tank|
              && run[i].ledger.tank[j].chain == run[i].ledger.tank[k].chain
              ==> run[i].ledger.tank[j].nonce != run[i].ledger.tank[k].nonce
  {
    if i > 0 {
      TankNoncesNeverRepeat(run, i - 1);
      assert Step(run[i - 1], run[i]);
      var a :| Enabled(run[i - 1], a) && run[i] == Next(run[i - 1], a);
      if a.Fund? {
        FundKeepsTankOk(run[i - 1], a.t, a.fund);
      } else {
        OthersKeepTankOk(run[i - 1], a);
      }
    }
  }
}
