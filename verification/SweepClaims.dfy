/**
 Where claims come from: nothing is swept, funded, saved or credited but what a user claimed.
 */
module SweepClaims {
  import opened Options
  import opened SweepModel
  import SweepDurability
  import SweepSolvency

  /** Some task, record or credit is for the claim. */
  ghost predicate Holds(w: World, claim: Claim) {
    || (exists t :: t in w.tasks && w.tasks[t].record.claim == claim)
    || (exists id :: id in w.disk && w.disk[id].claim == claim)
    || (exists id :: id in w.ledger.credits && w.ledger.credits[id] == claim)
  }

  /** A step of `t` brings no claim but that of `t` into a file or a credit. */
  ghost predicate OwnClaimOnly(w: World, w': World, t: TaskId, c: Claim) {
    && (c.id in w'.disk ==> w'.disk[c.id].claim == c || (c.id in w.disk && w'.disk[c.id].claim == w.disk[c.id].claim))
    && (c.id in w'.ledger.credits ==>
        w'.ledger.credits[c.id] == c
        || (c.id in w.ledger.credits && w'.ledger.credits[c.id] == w.ledger.credits[c.id]))
  }

  lemma ActionsBringOwnClaim(w: World, a: Action)
    requires Enabled(w, a) && !a.Happen?
    ensures OwnClaimOnly(w, Next(w, a), a.t, ClaimOf(w, a))
  {
    match a
    case Prepare(t, step) =>
    case Fund(t, step) =>
    case Sweep(t, step) =>
    case Settle(t, step) =>
    case _ =>
  }

  lemma NothingHeld(claim: Claim)
    ensures !Holds(INITIAL, claim)
  {
  }

  lemma ClaimsAreHeld(w: World, a: Action, w': World, claim: Claim)
    requires Enabled(w, a) && w' == Next(w, a) && Holds(w', claim)
    ensures Holds(w, claim) || Brings(a, claim)
  {
    if !a.Happen? {
      var c := ClaimOf(w, a);
      TaskActionIsFramed(w, a);
      ActionsBringOwnClaim(w, a);
      assert Holds(w, c) || a.Begin?;
      if t :| t in w'.tasks && w'.tasks[t].record.claim == claim {
        assert t == a.t || SameEntry(w.tasks, w'.tasks, t);
      } else if id :| id in w'.disk && w'.disk[id].claim == claim {
        assert id == c.id || SameEntry(w.disk, w'.disk, id);
      } else {
        var id :| id in w'.ledger.credits && w'.ledger.credits[id] == claim;
        assert id == c.id || SameEntry(w.ledger.credits, w'.ledger.credits, id);
      }
    }
  }

  ghost predicate Claimed(acts: seq<Action>, n: nat, claim: Claim) {
    exists k :: 0 <= k < n <= |acts| && Brings(acts[k], claim)
  }

  predicate Brings(a: Action, claim: Claim) {
    a.Begin? && a.claim == claim
  }

  /** One more step of a run. */
  lemma ClaimedNext(run: seq<World>, acts: seq<Action>, n: nat, claim: Claim)
    requires ActedRun(run, acts) && n < |acts| && Holds(run[n + 1], claim)
    ensures Holds(run[n], claim) || Brings(acts[n], claim)
  {
    ActedStep(run, acts, n);
    ClaimsAreHeld(run[n], acts[n], run[n + 1], claim);
  }

  lemma {:induction false} HeldClaimsWereMade(run: seq<World>, acts: seq<Action>, n: nat, claim: Claim)
    requires ActedRun(run, acts) && n <= |acts| && Holds(run[n], claim)
    ensures Claimed(acts, n, claim)
  {
    if n == 0 {
      NothingHeld(claim);
    } else {
      ClaimedNext(run, acts, n - 1, claim);
      if Holds(run[n - 1], claim) {
        HeldClaimsWereMade(run, acts, n - 1, claim);
      }
    }
  }

  /** Nothing is credited but what a user claimed under that id. */
  lemma OnlyClaimsAreCredited(run: seq<World>, acts: seq<Action>, n: nat, id: Id)
    requires ActedRun(run, acts) && n <= |acts| && id in run[n].ledger.credits
    ensures Claimed(acts, n, run[n].ledger.credits[id]) && run[n].ledger.credits[id].id == id
  {
    HeldClaimsWereMade(run, acts, n, run[n].ledger.credits[id]);
    ActedRunIsRun(run, acts);
    SweepSolvency.RunsAreSolvent(run, n);
    assert SweepSolvency.CreditOk(run[n], id);
  }

  /** Nothing is swept but what a user claimed: from its address, in its token and amount. */
  lemma {:induction false} OnlyClaimsAreSwept(run: seq<World>, acts: seq<Action>, n: nat, tx: SweepTx)
    returns (claim: Claim)
    requires ActedRun(run, acts) && n <= |acts| && tx in run[n].ledger.owner
    ensures Claimed(acts, n, claim) && claim.id == run[n].ledger.owner[tx] && Carries(tx, claim)
  {
    assert n > 0;
    var w, a := run[n - 1], acts[n - 1];
    assert Enabled(w, a) && run[n - 1 + 1] == Next(w, a);
    if tx in w.ledger.owner {
      claim := OnlyClaimsAreSwept(run, acts, n - 1, tx);
      SweepsKeepOwner(w, a, tx);
    } else {
      SweepSolvency.OnlyAcceptanceBroadcasts(w, a);
      ActedRunIsRun(run, acts);
      SweepSolvency.RunsAreSolvent(run, n - 1);
      assert SweepSolvency.TaskOk(w, w.tasks[a.t]);
      claim := w.tasks[a.t].record.claim;
      HeldClaimsWereMade(run, acts, n - 1, claim);
    }
  }

  lemma SweepsKeepOwner(w: World, a: Action, tx: SweepTx)
    requires Enabled(w, a) && tx in w.ledger.owner
    ensures tx in Next(w, a).ledger.owner && Next(w, a).ledger.owner[tx] == w.ledger.owner[tx]
  {
    if Next(w, a).ledger.owner != w.ledger.owner {
      SweepSolvency.OnlyAcceptanceBroadcasts(w, a);
    }
  }

  // ----- what a record says of its sweep -----

  /** The transfer pays the deposit's own address. */
  predicate GasFor(gas: GasTx, claim: Claim) {
    gas.to == claim.address && gas.chain == claim.chain
  }

  /** PENDING until a gas transfer is saved, which a node accepted for this address; a sweep hash
      comes only once that is mined with status 1. */
  ghost predicate RecordTrue(w: World, r: Record) {
    && (r.stage == Pending <==> r.gasTx.None?)
    && (r.gasTx.Some? ==> r.gasTx.value in w.ledger.tank && GasFor(r.gasTx.value, r.claim))
    && (r.sweepTx.Some? ==> GasArrived(w, r))
  }

  /** The deposit's gas transfer was mined with status 1. */
  ghost predicate GasArrived(w: World, r: Record) {
    r.gasTx.Some? && r.gasTx.value in w.ledger.funded && w.ledger.funded[r.gasTx.value]
  }

  predicate Funded(pc: Pc) {
    pc.PriceSweep? || pc.SendSweep? || pc.SweepSent? || pc.SweepAccepted? || pc.WaitSweepReceipt?
  }

  ghost predicate TaskTrue(w: World, task: Task) {
    && RecordTrue(w, task.record)
    && (task.pc.SendGas? || task.pc.GasSent? || task.pc.GasAccepted? ==> GasFor(task.pc.gas, task.record.claim))
    && (task.pc.GasAccepted? ==> task.pc.gas in w.ledger.tank)
    && (task.record.sweepTx.Some? ==> SweepDurability.Late(task.pc))
    && (task.pc.WaitGasReceipt? ==> task.record.gasTx.Some?)
    && (Funded(task.pc) ==> GasArrived(w, task.record))
  }

  ghost predicate Truthful(w: World) {
    && (forall id :: id in w.disk ==> RecordTrue(w, w.disk[id]))
    && (forall t :: t in w.tasks ==> TaskTrue(w, w.tasks[t]))
  }

  ghost predicate TrueStep(w': World, t: TaskId, id: Id) {
    && (id in w'.disk ==> RecordTrue(w', w'.disk[id]))
    && (t in w'.tasks ==> TaskTrue(w', w'.tasks[t]))
  }

  lemma PrepareIsTrue(w: World, t: TaskId, step: PrepareStep)
    requires Truthful(w) && t in w.tasks && PrepareEnabled(w, t, step)
    ensures TrueStep(AfterPrepare(w, t, step), t, w.tasks[t].record.claim.id)
  {
    assert TaskTrue(w, w.tasks[t]);
  }

  lemma FundIsTrue(w: World, t: TaskId, step: FundStep)
    requires Truthful(w) && t in w.tasks && FundEnabled(w, t, step)
    ensures TrueStep(AfterFund(w, t, step), t, w.tasks[t].record.claim.id)
  {
    assert TaskTrue(w, w.tasks[t]);
    match step
    case AcceptGas(replied) => GasAcceptanceIsTrue(w, t, replied);
    case SaveGas =>
    case SeeGasReceipt =>
    case _ =>
  }

  lemma GasAcceptanceIsTrue(w: World, t: TaskId, replied: bool)
    requires Truthful(w) && t in w.tasks && w.tasks[t].pc.GasSent?
    ensures TrueStep(AfterFund(w, t, AcceptGas(replied)), t, w.tasks[t].record.claim.id)
  {
    assert TaskTrue(w, w.tasks[t]);
  }

  lemma SweepIsTrue(w: World, t: TaskId, step: SweepStep)
    requires Truthful(w) && t in w.tasks && SweepEnabled(w, t, step)
    ensures TrueStep(AfterSweep(w, t, step), t, w.tasks[t].record.claim.id)
  {
    assert TaskTrue(w, w.tasks[t]);
  }

  lemma SettleIsTrue(w: World, t: TaskId, step: SettleStep)
    requires Truthful(w) && SweepSolvency.Solvent(w) && t in w.tasks && SettleEnabled(w, t, step)
    ensures TrueStep(AfterSettle(w, t, step), t, w.tasks[t].record.claim.id)
  {
    assert TaskTrue(w, w.tasks[t]) && SweepSolvency.TaskOk(w, w.tasks[t]);
  }

  lemma ActionIsTrue(w: World, a: Action)
    requires Truthful(w) && SweepSolvency.Solvent(w) && Enabled(w, a) && !a.Happen?
    ensures TrueStep(Next(w, a), a.t, ClaimOf(w, a).id)
  {
    match a
    case Load(_, id) => assert RecordTrue(w, w.disk[id]) && SweepSolvency.DiskOk(w, id);
    case Prepare(t, step) => PrepareIsTrue(w, t, step);
    case Fund(t, step) => FundIsTrue(w, t, step);
    case Sweep(t, step) => SweepIsTrue(w, t, step);
    case Settle(t, step) => SettleIsTrue(w, t, step);
    case _ =>
  }

  lemma NextStaysTruthful(w: World, a: Action)
    requires Truthful(w) && SweepSolvency.Solvent(w) && Enabled(w, a)
    ensures Truthful(Next(w, a))
  {
    var w' := Next(w, a);
    SweepSolvency.TankGrows(w, a);
    if !a.Happen? {
      TaskActionIsFramed(w, a);
      ActionIsTrue(w, a);
    }
    forall id | id in w'.disk ensures RecordTrue(w', w'.disk[id]) {
      if a.Happen? || id != ClaimOf(w, a).id {
        assert SameEntry(w.disk, w'.disk, id) && RecordTrue(w, w.disk[id]);
      }
    }
    forall t | t in w'.tasks ensures TaskTrue(w', w'.tasks[t]) {
      if TaskOf(a) != Some(t) {
        OthersKeepTask(w, a, t);
        assert TaskTrue(w, w.tasks[t]);
      }
    }
  }

  /** In every run, a record on disk is PENDING exactly until its gas transfer is saved, that transfer
      was accepted by a node for the deposit's own address, and no sweep is signed, let alone saved,
      before it is mined with status 1. */
  lemma {:induction false} RecordsTellTheTruth(run: seq<World>, i: nat)
    requires Run(run) && i < |run|
    ensures Truthful(run[i])
  {
    if i > 0 {
      RecordsTellTheTruth(run, i - 1);
      SweepSolvency.RunsAreSolvent(run, i - 1);
      assert Step(run[i - 1], run[i]);
      var a :| Enabled(run[i - 1], a) && run[i] == Next(run[i - 1], a);
      NextStaysTruthful(run[i - 1], a);
    }
  }

  /** The gas tank pays only to addresses of claimed deposits, on their chains. */
  lemma {:induction false} OnlyClaimsAreFunded(run: seq<World>, acts: seq<Action>, n: nat, i: nat)
    returns (claim: Claim)
    requires ActedRun(run, acts) && n <= |acts| && i < |run[n].ledger.tank|
    ensures Claimed(acts, n, claim)
    ensures run[n].ledger.tank[i].to == claim.address && run[n].ledger.tank[i].chain == claim.chain
  {
    assert n > 0;
    var w, a := run[n - 1], acts[n - 1];
    assert Enabled(w, a) && run[n - 1 + 1] == Next(w, a);
    if Next(w, a).ledger.tank != w.ledger.tank {
      SweepSolvency.OnlyAcceptanceBroadcasts(w, a);
      assert Next(w, a).ledger.tank == w.ledger.tank + [w.tasks[a.t].pc.gas];
    }
    if i < |w.ledger.tank| {
      claim := OnlyClaimsAreFunded(run, acts, n - 1, i);
    } else {
      claim := w.tasks[a.t].record.claim;
      ActedRunIsRun(run, acts);
      RecordsTellTheTruth(run, n - 1);
      assert TaskTrue(w, w.tasks[a.t]);
      HeldClaimsWereMade(run, acts, n - 1, claim);
    }
  }

  /** A sweep goes on only from a balance that covers its claim. */
  lemma OnlyCoveredClaimsGoOn(run: seq<World>, acts: seq<Action>, k: nat, t: TaskId, balance: nat)
    requires ActedRun(run, acts) && k < |acts| && acts[k] == Prepare(t, SeeBalance(balance))
    ensures t in run[k + 1].tasks && run[k + 1].tasks[t].record.claim == run[k].tasks[t].record.claim
    ensures run[k + 1].tasks[t].pc == if balance == 0 then CheckProcessed else PriceGas
    ensures run[k + 1].tasks[t].pc.PriceGas? ==> balance >= run[k].tasks[t].record.claim.amount
  {
    ActedStep(run, acts, k);
  }
}
