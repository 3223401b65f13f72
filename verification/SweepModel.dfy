/**
 The sweep protocol as a state machine.

 A world holds what survives a crash (record files, what nodes accepted and mined, the
 contract's processed deposits) and what does not (tasks and locks).  One action is one stretch of
 engine code between two awaits, one answer of a node or of the contract, or an event of the
 environment.  Every interleaving of background sweeps, recovery passes, crashes and restarts is a
 sequence of actions.
 */
module SweepModel {
  import opened Options

  type Id = int
  type TaskId = int
  type Address = int
  type ChainId = int
  type Token = int

  /** The arguments of one sweep call; the token tells native from ERC-20. */
  datatype Claim = Claim(id: Id, address: Address, chain: ChainId, token: Token, amount: nat)

  /** The signed bytes of a sweep.  They do not mention the deposit, and stand for their own hash. */
  datatype SweepTx = SweepTx(address: Address, chain: ChainId, token: Token, amount: nat, nonce: int, gasPrice: int)

  /** The signed bytes of a transfer out of the gas tank. */
  datatype GasTx = GasTx(chain: ChainId, nonce: int, to: Address, amount: nat, gasPrice: int)

  datatype Stage = Pending | GasFunded | Swept

  datatype Record = Record(claim: Claim, stage: Stage, gasTx: Option<GasTx>, sweepTx: Option<SweepTx>, error: bool)

  function Fresh(claim: Claim): Record {
    Record(claim, Pending, None, None, false)
  }

  /** Where a task waits.  At `SendGas` and `SendSweep` signed bytes are at hand; `GasSent` and
      `SweepSent` wait for the node; `GasAccepted` and `SweepAccepted` are the instants between its
      acceptance and the save of the hash. */
  datatype Pc =
    | WaitAddress | ReadBalance | CheckProcessed | PriceGas | WaitTank | ReadTankNonce
    | SendGas(gas: GasTx) | GasSent(gas: GasTx) | GasAccepted(gas: GasTx) | WaitGasReceipt
    | PriceSweep | SendSweep(tx: SweepTx) | SweepSent(tx: SweepTx) | SweepAccepted(tx: SweepTx) | WaitSweepReceipt
    | Reconcile | Dispatch | Credit | Cleanup

  /** A task holds its own copy of the record, which may differ from the one on disk. */
  datatype Task = Task(record: Record, pc: Pc)

  /** What nodes and the contract know. */
  datatype Ledger = Ledger(
    tank: seq<GasTx>,              // accepted gas transfers, oldest first
    funded: map<GasTx, bool>,      // their receipts: true is status 1
    owner: map<SweepTx, Id>,       // accepted sweep bytes, and the deposit of the request that got them accepted
    mined: map<SweepTx, bool>,     // their receipts: true is status 1
    credits: map<Id, Claim>,       // processed deposits and what each was credited
    served: set<ChainId>)          // chains whose endpoint passed the last identity check

  datatype Locks = Locks(address: map<(Address, ChainId), TaskId>, tank: Option<TaskId>)

  /** Tasks and locks are volatile, the rest survives a crash. */
  datatype World = World(disk: map<Id, Record>, ledger: Ledger, tasks: map<TaskId, Task>, locks: Locks)

  /** From the address lock to the saved PENDING record. */
  datatype PrepareStep =
    | AcquireAddress
    | SeeBalance(balance: nat)
    | SeeProcessed
    | SaveFresh

  /** The gas transfer, under the gas-tank lock. */
  datatype FundStep =
    | AcquireTank
    | SeeTankNonce(gas: GasTx)
    | RequestGas
    | AcceptGas(replied: bool)
    | SaveGas
    | SeeGasReceipt

  /** The sweep transaction, from signing to its receipt. */
  datatype SweepStep =
    | SignSweep(nonce: int, gasPrice: int)
    | RequestSweep
    | AcceptSweep(replied: bool)
    | SaveHash
    | SeeSweepReceipt

  /** A loaded or swept record, up to its deletion. */
  datatype SettleStep =
    | SeeReconcile(promote: bool)
    | Route
    | CreditDeposit(replied: bool)
    | CreditRefused(startup: bool)
    | DeleteRecord

  datatype Event =
    | MineGas(gas: GasTx, ok: bool)
    | MineSweep(tx: SweepTx, ok: bool)
    | Reverify(served: set<ChainId>)
    | Crash

  datatype Action =
    | Begin(t: TaskId, claim: Claim)   // process_deposit starts a background sweep
    | Load(t: TaskId, id: Id)          // a recovery pass picks up a record
    | Prepare(t: TaskId, prepare: PrepareStep)
    | Fund(t: TaskId, fund: FundStep)
    | Sweep(t: TaskId, sweep: SweepStep)
    | Settle(t: TaskId, settle: SettleStep)
    | Raise(t: TaskId)                 // an await raises into the task's handler
    | Drop(t: TaskId)                  // the task is cancelled, which no handler catches
    | Happen(event: Event)

  function LockKey(claim: Claim): (Address, ChainId) { (claim.address, claim.chain) }

  predicate Carries(tx: SweepTx, claim: Claim) {
    tx.address == claim.address && tx.chain == claim.chain && tx.token == claim.token && tx.amount == claim.amount
  }

  // ----- the disk -----

  function Saved(disk: map<Id, Record>, record: Record): map<Id, Record> {
    disk[record.claim.id := record]
  }

  function Without(disk: map<Id, Record>, id: Id): map<Id, Record> {
    disk - {id}
  }

  /** `persist_error` and `_persist_resume_error`: a record with a broadcast sweep is left alone. */
  function Flagged(disk: map<Id, Record>, id: Id): map<Id, Record> {
    if id in disk && disk[id].sweepTx.None? then disk[id := disk[id].(error := true)] else disk
  }

  /** Whether `process_deposit` starts a sweep, given the record it finds. */
  predicate MayStart(disk: map<Id, Record>, id: Id) {
    id in disk ==> disk[id].error && disk[id].sweepTx.None?
  }

  // ----- task steps -----

  function Move(w: World, t: TaskId, task: Task): World {
    w.(tasks := w.tasks[t := task])
  }

  function Advance(w: World, t: TaskId, pc: Pc): World
    requires t in w.tasks
  {
    Move(w, t, w.tasks[t].(pc := pc))
  }

  /** Save the record `record` and go on with it. */
  function SaveAndMove(w: World, t: TaskId, record: Record, pc: Pc): World {
    Move(w.(disk := Saved(w.disk, record)), t, Task(record, pc))
  }

  function Release(locks: Locks, t: TaskId, key: (Address, ChainId)): Locks {
    Locks(if key in locks.address && locks.address[key] == t then locks.address - {key} else locks.address,
          if locks.tank == Some(t) then None else locks.tank)
  }

  /** The task ends, releasing the locks it holds. */
  function End(w: World, t: TaskId): World
    requires t in w.tasks
  {
    w.(tasks := w.tasks - {t}, locks := Release(w.locks, t, LockKey(w.tasks[t].record.claim)))
  }

  /** An exception reaches the task's handler, which flags the record. */
  function Abort(w: World, t: TaskId): World
    requires t in w.tasks
  {
    End(w.(disk := Flagged(w.disk, w.tasks[t].record.claim.id)), t)
  }

  /** A status-1 receipt from an endpoint that still passes the identity check. */
  predicate Confirmed(w: World, record: Record) {
    && record.sweepTx.Some? && record.sweepTx.value in w.ledger.mined && w.ledger.mined[record.sweepTx.value]
    && record.claim.chain in w.ledger.served
  }

  /** From the acquisition of the gas-tank lock to its release. */
  predicate UsesTank(pc: Pc) {
    pc.ReadTankNonce? || pc.SendGas? || pc.GasSent? || pc.GasAccepted? || pc.WaitGasReceipt?
  }

  /** The waits that may raise into the handler; a credit failure is `CreditRefused`. */
  predicate MayRaise(pc: Pc) {
    !pc.WaitAddress? && !pc.GasAccepted? && !pc.SweepAccepted? && !pc.Reconcile? && !pc.Dispatch? && !pc.Credit?
    && !pc.Cleanup?
  }

  predicate PrepareEnabled(w: World, t: TaskId, step: PrepareStep)
    requires t in w.tasks
  {
    var claim, pc := w.tasks[t].record.claim, w.tasks[t].pc;
    match step
    case AcquireAddress => pc.WaitAddress? && LockKey(claim) !in w.locks.address
    case SeeBalance(balance) => pc.ReadBalance? && (balance == 0 || balance >= claim.amount)
    case SeeProcessed => pc.CheckProcessed? && claim.id in w.ledger.credits
    case SaveFresh => pc.PriceGas?
  }

  function AfterPrepare(w: World, t: TaskId, step: PrepareStep): World
    requires t in w.tasks && PrepareEnabled(w, t, step)
  {
    var claim := w.tasks[t].record.claim;
    match step
    case AcquireAddress =>
      Advance(w.(locks := w.locks.(address := w.locks.address[LockKey(claim) := t])), t, ReadBalance)
    case SeeBalance(balance) => Advance(w, t, if balance == 0 then CheckProcessed else PriceGas)
    case SeeProcessed => End(w, t)
    case SaveFresh => SaveAndMove(w, t, Fresh(claim), WaitTank)
  }

  predicate FundEnabled(w: World, t: TaskId, step: FundStep)
    requires t in w.tasks
  {
    var claim, pc := w.tasks[t].record.claim, w.tasks[t].pc;
    match step
    case AcquireTank => pc.WaitTank? && w.locks.tank.None?
    case SeeTankNonce(gas) =>
      && pc.ReadTankNonce? && gas.chain == claim.chain && gas.to == claim.address
      // the pending count is above every nonce nodes have accepted
      && (forall i :: 0 <= i < |w.ledger.tank| && w.ledger.tank[i].chain == gas.chain ==>
          w.ledger.tank[i].nonce < gas.nonce)
    // the identity check and the request have no await between them
    case RequestGas => pc.SendGas? && claim.chain in w.ledger.served
    case AcceptGas(_) => pc.GasSent?
    case SaveGas => pc.GasAccepted?
    case SeeGasReceipt =>
      var gas := w.tasks[t].record.gasTx;
      pc.WaitGasReceipt? && gas.Some? && gas.value in w.ledger.funded && w.ledger.funded[gas.value]
  }

  function AfterFund(w: World, t: TaskId, step: FundStep): World
    requires t in w.tasks && FundEnabled(w, t, step)
  {
    var task := w.tasks[t];
    match step
    case AcquireTank => Advance(w.(locks := w.locks.(tank := Some(t))), t, ReadTankNonce)
    case SeeTankNonce(gas) => Advance(w, t, SendGas(gas))
    case RequestGas => Advance(w, t, GasSent(task.pc.gas))
    case AcceptGas(replied) =>
      var w' := w.(ledger := w.ledger.(tank := w.ledger.tank + [task.pc.gas]));
      if replied then Advance(w', t, GasAccepted(task.pc.gas)) else Abort(w', t)
    case SaveGas => SaveAndMove(w, t, task.record.(gasTx := Some(task.pc.gas), stage := GasFunded), WaitGasReceipt)
    case SeeGasReceipt => Advance(w.(locks := w.locks.(tank := None)), t, PriceSweep)
  }

  predicate SweepEnabled(w: World, t: TaskId, step: SweepStep)
    requires t in w.tasks
  {
    var record, pc := w.tasks[t].record, w.tasks[t].pc;
    match step
    case SignSweep(_, _) => pc.PriceSweep?
    case RequestSweep => pc.SendSweep? && record.claim.chain in w.ledger.served
    // a node accepts given bytes at most once
    case AcceptSweep(_) => pc.SweepSent? && pc.tx !in w.ledger.owner
    case SaveHash => pc.SweepAccepted?
    case SeeSweepReceipt => pc.WaitSweepReceipt? && Confirmed(w, record)
  }

  function AfterSweep(w: World, t: TaskId, step: SweepStep): World
    requires t in w.tasks && SweepEnabled(w, t, step)
  {
    var task := w.tasks[t];
    var record, claim := task.record, task.record.claim;
    match step
    case SignSweep(nonce, gasPrice) =>
      Advance(w, t, SendSweep(SweepTx(claim.address, claim.chain, claim.token, claim.amount, nonce, gasPrice)))
    case RequestSweep => Advance(w, t, SweepSent(task.pc.tx))
    case AcceptSweep(replied) =>
      var w' := w.(ledger := w.ledger.(owner := w.ledger.owner[task.pc.tx := claim.id]));
      if replied then Advance(w', t, SweepAccepted(task.pc.tx)) else Abort(w', t)
    case SaveHash => SaveAndMove(w, t, record.(sweepTx := Some(task.pc.tx)), WaitSweepReceipt)
    case SeeSweepReceipt => SaveAndMove(w, t, record.(stage := Swept), Credit)
  }

  predicate SettleEnabled(w: World, t: TaskId, step: SettleStep)
    requires t in w.tasks
  {
    var record, pc := w.tasks[t].record, w.tasks[t].pc;
    match step
    case SeeReconcile(promote) => pc.Reconcile? && (promote ==> record.stage != Swept && Confirmed(w, record))
    case Route => pc.Dispatch?
    case CreditDeposit(_) => pc.Credit?
    case CreditRefused(_) => pc.Credit?
    case DeleteRecord => pc.Cleanup?
  }

  function AfterSettle(w: World, t: TaskId, step: SettleStep): World
    requires t in w.tasks && SettleEnabled(w, t, step)
  {
    var record, claim := w.tasks[t].record, w.tasks[t].record.claim;
    match step
    case SeeReconcile(promote) =>
      if promote then SaveAndMove(w, t, record.(stage := Swept), Dispatch) else Advance(w, t, Dispatch)
    case Route =>
      if record.stage == Swept then Advance(w, t, Credit)
      else if record.sweepTx.None? then Move(w, t, Task(Fresh(claim), WaitAddress))
      else End(w, t)
    case CreditDeposit(replied) =>
      // a repeated credit reverts with DepositAlreadyProcessed, which counts as success
      var w' := if claim.id in w.ledger.credits then w
                else w.(ledger := w.ledger.(credits := w.ledger.credits[claim.id := claim]));
      if replied then Advance(w', t, Cleanup) else End(w', t)
    case CreditRefused(startup) => if startup then Abort(w, t) else End(w, t)
    case DeleteRecord => End(w.(disk := Without(w.disk, claim.id)), t)
  }

  predicate EventEnabled(w: World, event: Event) {
    match event
    case MineGas(gas, _) => gas in w.ledger.tank && gas !in w.ledger.funded
    // at most one transaction is mined per address and nonce
    case MineSweep(tx, _) =>
      && tx in w.ledger.owner && tx !in w.ledger.mined
      && forall other :: other in w.ledger.mined ==>
          (other.chain, other.address, other.nonce) != (tx.chain, tx.address, tx.nonce)
    case Reverify(_) => true
    case Crash => true
  }

  function AfterEvent(w: World, event: Event): World
    requires EventEnabled(w, event)
  {
    match event
    case MineGas(gas, ok) => w.(ledger := w.ledger.(funded := w.ledger.funded[gas := ok]))
    case MineSweep(tx, ok) => w.(ledger := w.ledger.(mined := w.ledger.mined[tx := ok]))
    case Reverify(served) => w.(ledger := w.ledger.(served := served))
    case Crash => w.(tasks := map[], locks := Locks(map[], None))
  }

  predicate Enabled(w: World, a: Action) {
    match a
    case Begin(t, claim) => t !in w.tasks && MayStart(w.disk, claim.id)
    case Load(t, id) => t !in w.tasks && id in w.disk
    case Prepare(t, step) => t in w.tasks && PrepareEnabled(w, t, step)
    case Fund(t, step) => t in w.tasks && FundEnabled(w, t, step)
    case Sweep(t, step) => t in w.tasks && SweepEnabled(w, t, step)
    case Settle(t, step) => t in w.tasks && SettleEnabled(w, t, step)
    case Raise(t) => t in w.tasks && MayRaise(w.tasks[t].pc)
    case Drop(t) => t in w.tasks
    case Happen(event) => EventEnabled(w, event)
  }

  function Next(w: World, a: Action): World
    requires Enabled(w, a)
  {
    match a
    case Begin(t, claim) => Move(w.(disk := Without(w.disk, claim.id)), t, Task(Fresh(claim), WaitAddress))
    case Load(t, id) => Move(w, t, Task(w.disk[id], Reconcile))
    case Prepare(t, step) => AfterPrepare(w, t, step)
    case Fund(t, step) => AfterFund(w, t, step)
    case Sweep(t, step) => AfterSweep(w, t, step)
    case Settle(t, step) => AfterSettle(w, t, step)
    case Raise(t) => Abort(w, t)
    case Drop(t) => End(w, t)
    case Happen(event) => AfterEvent(w, event)
  }

  // ----- runs -----

  const INITIAL := World(map[], Ledger([], map[], map[], map[], map[], {}), map[], Locks(map[], None))

  ghost predicate Step(w: World, w': World) {
    exists a :: Enabled(w, a) && w' == Next(w, a)
  }

  /** Every world follows from the one before it. */
  ghost predicate Trace(trace: seq<World>) {
    |trace| > 0 && forall i :: 0 < i < |trace| ==> Step(trace[i - 1], trace[i])
  }

  /** A run starts with an empty system. */
  ghost predicate Run(run: seq<World>) {
    Trace(run) && run[0] == INITIAL
  }

  /** A run with the action of each step. */
  ghost predicate ActedRun(run: seq<World>, acts: seq<Action>) {
    && |run| == |acts| + 1 && run[0] == INITIAL
    && forall i :: 0 <= i < |acts| ==> Enabled(run[i], acts[i]) && run[i + 1] == Next(run[i], acts[i])
  }

  lemma ActedStep(run: seq<World>, acts: seq<Action>, k: nat)
    requires ActedRun(run, acts) && k < |acts|
    ensures Enabled(run[k], acts[k]) && run[k + 1] == Next(run[k], acts[k])
  {
  }

  /** The task an action belongs to. */
  function TaskOf(a: Action): Option<TaskId> {
    if a.Happen? then None else Some(a.t)
  }

  lemma ActedRunIsRun(run: seq<World>, acts: seq<Action>)
    requires ActedRun(run, acts)
    ensures Run(run)
  {
    forall i | 0 < i < |run| ensures Step(run[i - 1], run[i]) {
      assert Enabled(run[i - 1], acts[i - 1]) && run[i - 1 + 1] == Next(run[i - 1], acts[i - 1]);
    }
  }

  /** An action leaves the tasks of others as they are, or drops them. */
  lemma OthersKeepTask(w: World, a: Action, t: TaskId)
    requires Enabled(w, a) && TaskOf(a) != Some(t) && t in Next(w, a).tasks
    ensures t in w.tasks && Next(w, a).tasks[t] == w.tasks[t]
  {
    match a
    case Prepare(u, step) =>
    case Fund(u, step) =>
    case Sweep(u, step) =>
    case Settle(u, step) =>
    case _ =>
  }

  // ----- what a task's step leaves alone -----

  predicate SameEntry<K, V(==)>(m: map<K, V>, m': map<K, V>, key: K) {
    (key in m <==> key in m') && (key in m ==> m[key] == m'[key])
  }

  /** A step of task `t` for claim `c` touches no other file, credit or address lock, and mines nothing. */
  ghost predicate Framed(w: World, w': World, t: TaskId, c: Claim) {
    && (forall i :: i != c.id ==> SameEntry(w.disk, w'.disk, i) && SameEntry(w.ledger.credits, w'.ledger.credits, i))
    && (forall key :: key != LockKey(c) ==> SameEntry(w.locks.address, w'.locks.address, key))
    && w'.ledger.mined == w.ledger.mined && w'.ledger.funded == w.ledger.funded && w'.ledger.served == w.ledger.served
    && (t in w'.tasks ==> w'.tasks[t].record.claim == c)
    && (forall u :: u != t ==> SameEntry(w.tasks, w'.tasks, u))
  }

  lemma PrepareIsFramed(w: World, t: TaskId, step: PrepareStep)
    requires t in w.tasks && PrepareEnabled(w, t, step)
    ensures Framed(w, AfterPrepare(w, t, step), t, w.tasks[t].record.claim)
  {
  }

  lemma FundIsFramed(w: World, t: TaskId, step: FundStep)
    requires t in w.tasks && FundEnabled(w, t, step)
    ensures Framed(w, AfterFund(w, t, step), t, w.tasks[t].record.claim)
  {
  }

  lemma SweepIsFramed(w: World, t: TaskId, step: SweepStep)
    requires t in w.tasks && SweepEnabled(w, t, step)
    ensures Framed(w, AfterSweep(w, t, step), t, w.tasks[t].record.claim)
  {
  }

  lemma SettleIsFramed(w: World, t: TaskId, step: SettleStep)
    requires t in w.tasks && SettleEnabled(w, t, step)
    ensures Framed(w, AfterSettle(w, t, step), t, w.tasks[t].record.claim)
  {
  }

  /** The claim an action of a task is for. */
  function ClaimOf(w: World, a: Action): Claim
    requires Enabled(w, a) && !a.Happen?
  {
    match a
    case Begin(_, claim) => claim
    case Load(_, id) => w.disk[id].claim
    case Prepare(t, _) => w.tasks[t].record.claim
    case Fund(t, _) => w.tasks[t].record.claim
    case Sweep(t, _) => w.tasks[t].record.claim
    case Settle(t, _) => w.tasks[t].record.claim
    case Raise(t) => w.tasks[t].record.claim
    case Drop(t) => w.tasks[t].record.claim
  }

  lemma TaskActionIsFramed(w: World, a: Action)
    requires Enabled(w, a) && !a.Happen?
    ensures Framed(w, Next(w, a), a.t, ClaimOf(w, a))
  {
    match a
    case Prepare(t, step) => PrepareIsFramed(w, t, step);
    case Fund(t, step) => FundIsFramed(w, t, step);
    case Sweep(t, step) => SweepIsFramed(w, t, step);
    case Settle(t, step) => SettleIsFramed(w, t, step);
    case Begin(_, _) =>
    case Load(_, _) =>
    case Raise(_) =>
    case Drop(_) =>
  }

  function Last(trace: seq<World>): World
    requires |trace| > 0
  {
    trace[|trace| - 1]
  }

  lemma Extend(trace: seq<World>, a: Action) returns (longer: seq<World>)
    requires Trace(trace) && Enabled(Last(trace), a)
    ensures Trace(longer) && trace < longer && Last(longer) == Next(Last(trace), a)
  {
    longer := trace + [Next(Last(trace), a)];
    assert Step(longer[|trace| - 1], longer[|trace|]);
    forall i | 0 < i < |longer| ensures Step(longer[i - 1], longer[i]) {
      assert i < |trace| ==> longer[i - 1] == trace[i - 1] && longer[i] == trace[i] && Step(trace[i - 1], trace[i]);
    }
  }
}
