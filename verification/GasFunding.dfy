/**
 The gas sent ahead of a sweep, the chain settings that bound it, and the verifier that must never
 take it for a deposit.
 */
module GasFunding {
  import opened Arithmetic
  import opened ChainConfigs
  import opened Options

  // ----- gas price and funding -----

  /** A price safe from underpricing, or None when the node gave no signal at all. */
  function SafeGasPrice(cfg: ChainConfig, baseFee: nat, rpcPrice: nat): Option<int> {
    if baseFee == 0 && rpcPrice == 0 then None
    else Some(Max(baseFee * 5 / 4, Max(rpcPrice, cfg.minGasPrice)))
  }

  predicate IsSweepGasLimit(gasLimit: int) {
    gasLimit == SWEEP_GAS_LIMIT_NATIVE || gasLimit == SWEEP_GAS_LIMIT_ERC20
  }

  function Uncapped(gasLimit: int, price: int, l1Fee: nat): int {
    gasLimit * price * GAS_FUNDING_HEADROOM + l1Fee
  }

  function FundingAmount(cfg: ChainConfig, gasLimit: int, price: int, l1Fee: nat): int {
    Min(Uncapped(gasLimit, price, l1Fee), cfg.fundingCap)
  }

  function SweepCost(gasLimit: int, price: int, l1Fee: nat): int {
    gasLimit * price + l1Fee
  }

  /** The price is the least one not below the node's, the floor, or 1.25 times the base fee rounded
      down; there is one unless the node reported neither price. */
  lemma PriceIsLeastSafe(cfg: ChainConfig, baseFee: nat, rpcPrice: nat, price: int)
    ensures SafeGasPrice(cfg, baseFee, rpcPrice).None? <==> baseFee == 0 && rpcPrice == 0
    ensures SafeGasPrice(cfg, baseFee, rpcPrice).Some? ==>
              (price >= SafeGasPrice(cfg, baseFee, rpcPrice).value <==>
               price >= rpcPrice && price >= cfg.minGasPrice && 4 * (price + 1) > 5 * baseFee)
  {
  }

  /** Funding covers the sweep exactly while its price is at most twice the one it was funded at and
      the cap allows it. */
  lemma FundingCoversDoubling(cfg: ChainConfig, gasLimit: int, price: int, l1Fee: nat, sweepPrice: int)
    requires IsSweepGasLimit(gasLimit)
    ensures gasLimit * sweepPrice + l1Fee <= FundingAmount(cfg, gasLimit, price, l1Fee) <==>
              sweepPrice <= 2 * price && gasLimit * sweepPrice + l1Fee <= cfg.fundingCap
  {
  }

  /** A price stays within double while the base fee stays strictly below double and the node's
      price within double. */
  lemma PriceWithinDouble(cfg: ChainConfig, baseFee: nat, rpcPrice: nat, laterBase: nat, laterRpc: nat)
    requires ValidConfig(cfg) && (baseFee != 0 || rpcPrice != 0) && (laterBase != 0 || laterRpc != 0)
    requires laterBase < 2 * baseFee || laterBase == 0
    requires laterRpc <= 2 * rpcPrice
    ensures SafeGasPrice(cfg, laterBase, laterRpc).value <= 2 * SafeGasPrice(cfg, baseFee, rpcPrice).value
  {
    assert laterBase * 5 / 4 <= 2 * (baseFee * 5 / 4);
  }

  /** An exact doubling of the base fee can pass double the price: 1.25 times it is rounded down, once
      when funding and once when sweeping. */
  lemma DoubledBaseFeeCanFallShort(cfg: ChainConfig, k: nat, l1Fee: nat, gasLimit: int)
    requires ValidConfig(cfg) && IsSweepGasLimit(gasLimit) && k >= cfg.minGasPrice
    ensures var baseFee := 4 * k + 3;
            var price, later := SafeGasPrice(cfg, baseFee, 0).value, SafeGasPrice(cfg, 2 * baseFee, 0).value;
            later == 2 * price + 1
            && SweepCost(gasLimit, later, l1Fee) > FundingAmount(cfg, gasLimit, price, l1Fee)
  {
    var baseFee := 4 * k + 3;
    assert baseFee * 5 / 4 == 5 * k + 3 && 2 * baseFee * 5 / 4 == 10 * k + 7;
  }

  /** Funding a floor-priced sweep with no L1 fee is never capped. */
  lemma FloorPriceIsNeverCapped(cfg: ChainConfig, gasLimit: int)
    requires ValidConfig(cfg) && IsSweepGasLimit(gasLimit)
    ensures FundingAmount(cfg, gasLimit, cfg.minGasPrice, 0) == Uncapped(gasLimit, cfg.minGasPrice, 0)
  {
  }

  /** Funding is positive, and below any native deposit. */
  lemma FundingIsNoDeposit(cfg: ChainConfig, gasLimit: int, baseFee: nat, rpcPrice: nat, l1Fee: nat)
    requires ValidConfig(cfg) && IsFunding(cfg, gasLimit, baseFee, rpcPrice, l1Fee)
    ensures 0 < FundingAt(cfg, gasLimit, baseFee, rpcPrice, l1Fee) < cfg.minDepositNative
  {
  }

  /** A sweep is funded for one of the two gas limits, and only with some price signal. */
  predicate IsFunding(cfg: ChainConfig, gasLimit: int, baseFee: nat, rpcPrice: nat, l1Fee: nat) {
    IsSweepGasLimit(gasLimit) && SafeGasPrice(cfg, baseFee, rpcPrice).Some?
  }

  function FundingAt(cfg: ChainConfig, gasLimit: int, baseFee: nat, rpcPrice: nat, l1Fee: nat): int
    requires IsFunding(cfg, gasLimit, baseFee, rpcPrice, l1Fee)
  {
    FundingAmount(cfg, gasLimit, SafeGasPrice(cfg, baseFee, rpcPrice).value, l1Fee)
  }

  // ----- verifying a claimed deposit -----

  type Address = int

  datatype Log = Log(isTransfer: bool, to: Address, logIndex: nat, token: Address, amount: nat)

  datatype Receipt = Receipt(status: int, block: int, logs: seq<Log>)

  /** What the chain shows of one transaction and of the deposit address around its block. */
  datatype Evidence = Evidence(receipt: Option<Receipt>, latest: int, to: Option<Address>, value: nat,
                               balanceBefore: int, balanceAfter: int)

  datatype Verified = Verified(amount: int, token: Option<Address>, depositIndex: int, block: int)

  datatype Claim = Claim(deposit: Address, expected: int, logIndex: int)

  predicate Pays(log: Log, deposit: Address) {
    log.isTransfer && log.to == deposit
  }

  /** The transfers to the deposit address, in log order. */
  function Payments(logs: seq<Log>, deposit: Address): seq<Log> {
    if logs == [] then []
    else Payments(logs[..|logs| - 1], deposit) + if Pays(logs[|logs| - 1], deposit) then [logs[|logs| - 1]] else []
  }

  predicate Settled(cfg: ChainConfig, e: Evidence) {
    e.receipt.Some? && e.receipt.value.status == 1 && e.latest - e.receipt.value.block >= cfg.finalityDepth
  }

  /** The claim names this transfer: the only one, or the one at its log index. */
  predicate Names(payments: seq<Log>, claim: Claim, log: Log) {
    log in payments && (|payments| == 1 || log.logIndex == claim.logIndex)
  }

  predicate IsDirect(e: Evidence, deposit: Address) {
    e.to == Some(deposit) && e.value > 0
  }

  /** What supports a native claim: the transaction's own value when it pays the address directly,
      else the address's balance change over the block. */
  function NativeEvidence(e: Evidence, deposit: Address): int {
    if IsDirect(e, deposit) then e.value else e.balanceAfter - e.balanceBefore
  }

  /** A transfer event to the deposit address. */
  predicate IsPayment(logs: seq<Log>, deposit: Address, log: Log) {
    log in logs && log.isTransfer && log.to == deposit
  }

  /** The transaction supports the claim: by the transfer it names, the only one to the address or the
      one at its log index; or, when none goes there, natively and at index zero.  The amount meets
      the minimum of its kind. */
  ghost predicate Supports(cfg: ChainConfig, e: Evidence, claim: Claim)
    requires e.receipt.Some?
  {
    var logs := e.receipt.value.logs;
    if exists log :: IsPayment(logs, claim.deposit, log) then
      exists log :: IsPayment(logs, claim.deposit, log) && log.amount >= claim.expected
                    && (log.logIndex == claim.logIndex || OnlyPayment(logs, claim.deposit, log))
                    && (cfg.minDepositErc20 <= 0 || claim.expected >= cfg.minDepositErc20)
    else
      && claim.logIndex == 0
      && (if e.to == Some(claim.deposit) && e.value > 0 then e.value else e.balanceAfter - e.balanceBefore)
         >= claim.expected
      && (cfg.minDepositNative <= 0 || claim.expected >= cfg.minDepositNative)
  }

  ghost predicate OnlyPayment(logs: seq<Log>, deposit: Address, log: Log) {
    forall other :: IsPayment(logs, deposit, other) ==> other == log
  }

  predicate DistinctLogIndices(logs: seq<Log>) {
    forall i, j :: 0 <= i < j < |logs| ==> logs[i].logIndex != logs[j].logIndex
  }

  lemma {:induction false} PaymentsAreExact(logs: seq<Log>, deposit: Address)
    ensures forall x :: x in Payments(logs, deposit) <==> x in logs && Pays(x, deposit)
    ensures DistinctLogIndices(logs) ==> DistinctLogIndices(Payments(logs, deposit))
  {
    if logs != [] {
      var init := logs[..|logs| - 1];
      PaymentsAreExact(init, deposit);
      assert logs == init + [logs[|logs| - 1]];
      if DistinctLogIndices(logs) {
        forall x | x in Payments(init, deposit) ensures x.logIndex != logs[|logs| - 1].logIndex {
          assert x in init;
        }
      }
    }
  }

  /** Where log indices are distinct, a claim names the only payment or the one at its index. */
  lemma NamesExactly(logs: seq<Log>, claim: Claim)
    ensures DistinctLogIndices(logs) ==>
              forall log :: Names(Payments(logs, claim.deposit), claim, log) <==>
                  && IsPayment(logs, claim.deposit, log)
                  && (log.logIndex == claim.logIndex || OnlyPayment(logs, claim.deposit, log))
    ensures Payments(logs, claim.deposit) == [] <==> !exists log :: IsPayment(logs, claim.deposit, log)
  {
    var payments := Payments(logs, claim.deposit);
    PaymentsAreExact(logs, claim.deposit);
    if payments != [] {
      assert payments[0] in payments && IsPayment(logs, claim.deposit, payments[0]);
    }
    forall log | IsPayment(logs, claim.deposit, log) && OnlyPayment(logs, claim.deposit, log) && |payments| > 1
      ensures !DistinctLogIndices(logs)
    {
      assert payments[0] in payments && payments[1] in payments;
      assert IsPayment(logs, claim.deposit, payments[0]) && IsPayment(logs, claim.deposit, payments[1]);
    }
    forall log | log in payments && |payments| == 1 ensures OnlyPayment(logs, claim.deposit, log) {
      assert payments == [payments[0]];
    }
  }

  /** Verifies a claim.  The amount confirmed is always the amount claimed, and never more than the
      evidence. */
  method VerifyDeposit(cfg: ChainConfig, e: Evidence, claim: Claim) returns (verified: Option<Verified>)
    ensures verified.Some? ==> Settled(cfg, e) && verified.value.amount == claim.expected
                               && verified.value.block == e.receipt.value.block
    ensures Settled(cfg, e) && Payments(e.receipt.value.logs, claim.deposit) != [] ==>
              && (verified.Some? ==> exists log ::
                    && Names(Payments(e.receipt.value.logs, claim.deposit), claim, log) && log.amount >= claim.expected
                    && verified.value.token == Some(log.token) && verified.value.depositIndex == log.logIndex)
              && (verified.None? ==> DistinctLogIndices(e.receipt.value.logs) ==>
                    forall log :: Names(Payments(e.receipt.value.logs, claim.deposit), claim, log) ==>
                        log.amount < claim.expected)
    ensures Settled(cfg, e) && Payments(e.receipt.value.logs, claim.deposit) == [] ==>
              && (verified.Some? <==> claim.logIndex == 0 && NativeEvidence(e, claim.deposit) >= claim.expected)
              && (verified.Some? ==> verified.value.token.None? && verified.value.depositIndex == 0)
  {
    if e.receipt.None? {
      return None;
    }
    var receipt := e.receipt.value;
    if receipt.status != 1 {
      return None;
    }
    if e.latest - receipt.block < cfg.finalityDepth {
      return None;
    }
    var matching := CollectPayments(receipt.logs, claim.deposit);
    if matching != [] {
      PaymentsAreExact(receipt.logs, claim.deposit);
      var found := if |matching| == 1 then Some(matching[0]) else None;
      if |matching| > 1 {
        found := FirstAt(matching, claim.logIndex);
        if found.None? {
          return None;
        }
      }
      var log := found.value;
      assert Names(matching, claim, log);
      if log.amount < claim.expected {
        return None;
      }
      return Some(Verified(claim.expected, Some(log.token), log.logIndex, receipt.block));
    }
    if claim.logIndex == 0 {
      if e.to == Some(claim.deposit) {
        if e.value > 0 {
          if e.value < claim.expected {
            return None;
          }
          return Some(Verified(claim.expected, None, 0, receipt.block));
        }
      }
      var delta := e.balanceAfter - e.balanceBefore;
      if delta >= claim.expected {
        return Some(Verified(claim.expected, None, 0, receipt.block));
      }
    }
    return None;
  }

  method CollectPayments(logs: seq<Log>, deposit: Address) returns (matching: seq<Log>)
    ensures matching == Payments(logs, deposit)
  {
    matching := [];
    for k := 0 to |logs|
      invariant matching == Payments(logs[..k], deposit)
    {
      assert logs[..k + 1][..k] == logs[..k];
      if !logs[k].isTransfer {
        continue;
      }
      if logs[k].to == deposit {
        matching := matching + [logs[k]];
      }
    }
    assert logs[..|logs|] == logs;
  }

  method FirstAt(logs: seq<Log>, logIndex: int) returns (found: Option<Log>)
    ensures found.Some? ==> found.value in logs && found.value.logIndex == logIndex
    ensures found.Some? && DistinctLogIndices(logs) ==>
              forall x :: x in logs && x.logIndex == logIndex ==> x == found.value
    ensures found.None? ==> forall x :: x in logs ==> x.logIndex != logIndex
  {
    for k := 0 to |logs|
      invariant forall l :: 0 <= l < k ==> logs[l].logIndex != logIndex
    {
      if logs[k].logIndex == logIndex {
        return Some(logs[k]);
      }
    }
    return None;
  }

  /** Submitting a claim: the gas-funding transfers remembered since the last restart are refused
      outright, then the claim is verified and held to the minimum. */
  method AcceptDeposit(cfg: ChainConfig, isKnownFunding: bool, e: Evidence, claim: Claim)
    returns (verified: Option<Verified>)
    ensures verified.Some? ==>
              && !isKnownFunding && Settled(cfg, e) && verified.value.amount == claim.expected
              && (verified.value.token.None? ==>
                    && NativeEvidence(e, claim.deposit) >= claim.expected
                    && (cfg.minDepositNative > 0 ==> claim.expected >= cfg.minDepositNative))
              && (verified.value.token.Some? ==>
                    && (exists log ::
                          && Pays(log, claim.deposit) && log in e.receipt.value.logs && log.amount >= claim.expected
                          && log.token == verified.value.token.value && log.logIndex == verified.value.depositIndex)
                    && (cfg.minDepositErc20 > 0 ==> claim.expected >= cfg.minDepositErc20))
    ensures e.receipt.Some? && DistinctLogIndices(e.receipt.value.logs) ==>
              (verified.Some? <==>
               && !isKnownFunding && e.receipt.value.status == 1
               && e.latest >= e.receipt.value.block + cfg.finalityDepth && Supports(cfg, e, claim))
    ensures e.receipt.None? ==> verified.None?
    ensures ValidConfig(cfg) && IsFundingTransfer(cfg, e, claim.deposit) ==> verified.None?
  {
    if isKnownFunding {
      return None;
    }
    if e.receipt.Some? {
      PaymentsAreExact(e.receipt.value.logs, claim.deposit);
      NamesExactly(e.receipt.value.logs, claim);
    }
    verified := VerifyDeposit(cfg, e, claim);
    if verified.None? {
      return;
    }
    if ValidConfig(cfg) && IsFundingTransfer(cfg, e, claim.deposit) {
      FundingTransferIsSmall(cfg, e, claim.deposit);
    }
    var minimum := if verified.value.token.None? then cfg.minDepositNative else cfg.minDepositErc20;
    if minimum > 0 && verified.value.amount < minimum {
      verified := None;
    }
  }

  /** A gas-funding transaction: it pays the deposit address directly some funding amount, and emits
      no token transfer to it. */
  ghost predicate IsFundingTransfer(cfg: ChainConfig, e: Evidence, deposit: Address) {
    && (e.receipt.Some? ==> Payments(e.receipt.value.logs, deposit) == [])
    && e.to == Some(deposit)
    && exists gasLimit: int, baseFee: nat, rpcPrice: nat, l1Fee: nat ::
         && IsFunding(cfg, gasLimit, baseFee, rpcPrice, l1Fee)
         && e.value == FundingAt(cfg, gasLimit, baseFee, rpcPrice, l1Fee)
  }

  lemma FundingTransferIsSmall(cfg: ChainConfig, e: Evidence, deposit: Address)
    requires ValidConfig(cfg) && IsFundingTransfer(cfg, e, deposit)
    ensures 0 < e.value < cfg.minDepositNative && NativeEvidence(e, deposit) == e.value
  {
    var gasLimit: int, baseFee: nat, rpcPrice: nat, l1Fee: nat :|
      && IsFunding(cfg, gasLimit, baseFee, rpcPrice, l1Fee)
      && e.value == FundingAt(cfg, gasLimit, baseFee, rpcPrice, l1Fee);
    FundingIsNoDeposit(cfg, gasLimit, baseFee, rpcPrice, l1Fee);
  }

  /** Token claims on one transaction never share a transfer under two deposit ids, nor an id between
      two transfers. */
  lemma IndexNamesOneTransfer(logs: seq<Log>, deposit: Address, a: Log, b: Log)
    requires DistinctLogIndices(logs)
    requires a in Payments(logs, deposit) && b in Payments(logs, deposit)
    ensures a == b <==> a.logIndex == b.logIndex
  {
    PaymentsAreExact(logs, deposit);
    var payments := Payments(logs, deposit);
    var i :| 0 <= i < |payments| && payments[i] == a;
    var j :| 0 <= j < |payments| && payments[j] == b;
  }
}
