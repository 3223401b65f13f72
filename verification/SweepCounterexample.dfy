/**
 Two drivers can lose a broadcast sweep.  A recovery pass reads the record of a running background
 sweep before its hash is saved, and decides to resume it.  The background sweep saves its hash and
 times out waiting for the receipt; the resumed task then takes the address lock, still sees the
 unswept balance, and saves a fresh record over the one that held the hash.
 */
module SweepCounterexample {
  import opened Options
  import opened SweepModel

  const CLAIM := Claim(1, 10, 100, 1000, 5)
  const KEY := (10, 100)
  const GAS := GasTx(100, 0, 10, 1, 1)
  const TX := SweepTx(10, 100, 1000, 5, 0, 1)
  const FUNDED := Record(CLAIM, GasFunded, Some(GAS), None, false)
  const BROADCAST := Record(CLAIM, GasFunded, Some(GAS), Some(TX), false)

  /** Task 1 saves its PENDING record; task 2, a recovery pass, picks the record up and waits for the lock. */
  lemma BothDrive() returns (run: seq<World>)
    ensures Run(run)
    ensures Last(run) == World(map[1 := Fresh(CLAIM)],
                               Ledger([], map[], map[], map[], map[], {100}),
                               map[1 := Task(Fresh(CLAIM), WaitTank), 2 := Task(Fresh(CLAIM), WaitAddress)],
                               Locks(map[KEY := 1], None))
  {
    run := [INITIAL];
    run := Extend(run, Happen(Reverify({100})));
    run := Extend(run, Begin(1, CLAIM));
    run := Extend(run, Prepare(1, AcquireAddress));
    run := Extend(run, Prepare(1, SeeBalance(5)));
    run := Extend(run, Prepare(1, SaveFresh));
    run := Extend(run, Load(2, 1));
    run := Extend(run, Settle(2, SeeReconcile(false)));
    run := Extend(run, Settle(2, Route));
  }

  /** Task 1 funds the address. */
  lemma FirstIsFunded() returns (run: seq<World>)
    ensures Run(run)
    ensures Last(run) == World(map[1 := FUNDED],
                               Ledger([GAS], map[GAS := true], map[], map[], map[], {100}),
                               map[1 := Task(FUNDED, PriceSweep), 2 := Task(Fresh(CLAIM), WaitAddress)],
                               Locks(map[KEY := 1], None))
  {
    run := BothDrive();
    run := Extend(run, Fund(1, AcquireTank));
    run := Extend(run, Fund(1, SeeTankNonce(GAS)));
    run := Extend(run, Fund(1, RequestGas));
    run := Extend(run, Fund(1, AcceptGas(true)));
    run := Extend(run, Fund(1, SaveGas));
    run := Extend(run, Happen(MineGas(GAS, true)));
    run := Extend(run, Fund(1, SeeGasReceipt));
  }

  /** Task 1 broadcasts the sweep and saves its hash. */
  lemma FirstIsBroadcast() returns (run: seq<World>)
    ensures Run(run)
    ensures Last(run) == World(map[1 := BROADCAST],
                               Ledger([GAS], map[GAS := true], map[TX := 1], map[], map[], {100}),
                               map[1 := Task(BROADCAST, WaitSweepReceipt), 2 := Task(Fresh(CLAIM), WaitAddress)],
                               Locks(map[KEY := 1], None))
  {
    run := FirstIsFunded();
    run := Extend(run, Sweep(1, SignSweep(0, 1)));
    run := Extend(run, Sweep(1, RequestSweep));
    run := Extend(run, Sweep(1, AcceptSweep(true)));
    run := Extend(run, Sweep(1, SaveHash));
  }

  /** Task 1 times out, task 2 starts over, and only then the sweep is mined: the deposit is swept,
      not credited, and no record names the sweep. */
  lemma HashCanBeLost() returns (run: seq<World>, i: nat)
    ensures Run(run) && i < |run|
    ensures 1 in run[i].disk && run[i].disk[1].sweepTx == Some(TX)
    ensures TX in Last(run).ledger.mined && Last(run).ledger.mined[TX] && 1 !in Last(run).ledger.credits
    ensures 1 in Last(run).disk && Last(run).disk[1] == Fresh(CLAIM)
  {
    run := FirstIsBroadcast();
    i := |run| - 1;
    run := Extend(run, Raise(1));
    run := Extend(run, Prepare(2, AcquireAddress));
    run := Extend(run, Prepare(2, SeeBalance(5)));
    run := Extend(run, Prepare(2, SaveFresh));
    run := Extend(run, Happen(MineSweep(TX, true)));
  }
}
