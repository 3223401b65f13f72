/**
 The processor's gate, proof-of-payment rule, catch-up scan and per-chain loop.

 Node and contract answers are parameters.  Signed bytes stand for their own hash; the contract
 signs a resolved withdrawal again at any price, always with its own nonce.
 */
module WithdrawalProcessor {
  import opened FiniteSets
  import opened HighWater
  import opened Options
  import opened SortedSeqs
  import WithdrawalOrder

  datatype SignedTx = SignedTx(chain: ChainId, index: nat, nonce: nat, gasPrice: int)

  type Receipts = map<SignedTx, bool>   // the receipts a lookup would return now; true is status 1

  /** At most one transaction is mined per nonce of the broadcaster. */
  ghost predicate OneMinedPerNonce(receipts: Receipts) {
    forall a, b :: a in receipts && b in receipts && a.chain == b.chain && a.nonce == b.nonce ==> a == b
  }

  predicate PaidBy(receipts: Receipts, tx: SignedTx) {
    tx in receipts && receipts[tx]
  }

  // ----- proof of payment -----

  /** The transaction that proves a withdrawal paid: the first of the one broadcast earlier and the
      one signed now to have a receipt, if its status is 1. */
  function ProofFor(remembered: Option<SignedTx>, signed: SignedTx, receipts: Receipts): Option<SignedTx> {
    if remembered.Some? && remembered.value in receipts then
      if receipts[remembered.value] then remembered else None
    else if PaidBy(receipts, signed) then Some(signed)
    else None
  }

  /** Whichever of the two transactions paid, the rule finds it: a payment survives a new signature
      at another price. */
  lemma ProofSurvivesResigning(remembered: Option<SignedTx>, signed: SignedTx, receipts: Receipts)
    requires OneMinedPerNonce(receipts)
    requires remembered.Some? ==> remembered.value.chain == signed.chain && remembered.value.nonce == signed.nonce
    ensures ProofFor(remembered, signed, receipts).Some? <==>
              PaidBy(receipts, signed) || (remembered.Some? && PaidBy(receipts, remembered.value))
  {
    if remembered.Some? && remembered.value in receipts && signed in receipts {
      assert remembered.value == signed;
    }
  }

  // ----- the catch-up scan's view -----

  /** What the scan learns about one index.  `nonce` is None for a malformed identifier, `chain`
      when the token lookup failed, `signed` when the contract call raised. */
  datatype Item = Item(readable: bool, resolved: bool, nonce: Option<nat>, chain: Option<ChainId>,
                       signed: Option<SignedTx>, accepted: bool, receipts: Receipts)

  /** A resolved withdrawal of the chain whose nonce is wanted. */
  predicate Missing(chainId: ChainId, target: set<nat>, item: Item) {
    item.readable && item.resolved && item.nonce.Some? && item.nonce.value in target && item.chain == Some(chainId)
  }

  /** The bytes signed for an index are that withdrawal's, with the nonce it was resolved with. */
  ghost predicate SignsOwnNonce(chainId: ChainId, items: seq<Item>) {
    forall i: nat :: i < |items| && items[i].signed.Some? && items[i].nonce.Some? ==>
      SignedFor(items[i].signed.value, chainId, i) && items[i].signed.value.nonce == items[i].nonce.value
  }

  predicate SignedFor(tx: SignedTx, chainId: ChainId, index: nat) {
    tx.chain == chainId && tx.index == index
  }

  ghost predicate Paid(receipts: Receipts, chainId: ChainId, index: nat) {
    exists tx :: PaidBy(receipts, tx) && SignedFor(tx, chainId, index)
  }

  type Memory = map<(ChainId, nat), SignedTx>   // what was last broadcast for each withdrawal

  /** The nonce `n` is found at index `i`: its bytes are accepted, or a receipt proves it paid. */
  predicate FoundAt(memory: Memory, chainId: ChainId, items: seq<Item>, i: nat, n: nat) {
    && i < |items| && items[i].nonce == Some(n) && items[i].signed.Some?
    && (items[i].accepted || ProofFor(Lookup(memory, (chainId, i)), items[i].signed.value, items[i].receipts).Some?)
  }

  /** What is remembered once these indices were attempted: the bytes that were accepted. */
  ghost predicate Remembers(before: Memory, after: Memory, chainId: ChainId, items: seq<Item>, attempted: set<nat>) {
    forall key :: Lookup(after, key) == if NewlyAccepted(key, chainId, items, attempted) then items[key.1].signed
                                        else Lookup(before, key)
  }

  predicate NewlyAccepted(key: (ChainId, nat), chainId: ChainId, items: seq<Item>, attempted: set<nat>) {
    key.0 == chainId && key.1 in attempted && key.1 < |items| && items[key.1].accepted && items[key.1].signed.Some?
  }

  /** The wanted withdrawals from `from` on are those attempted. */
  ghost predicate AttemptedFrom(from: nat, chainId: ChainId, target: set<nat>, items: seq<Item>, attempted: set<nat>) {
    forall i: nat :: i in attempted <==> from <= i < |items| && Missing(chainId, target, items[i])
  }

  /** The contract call of the wanted withdrawal `i` raised, once those above it were attempted. */
  ghost predicate StoppedAt(i: nat, chainId: ChainId, target: set<nat>, items: seq<Item>, attempted: set<nat>) {
    && i < |items| && Missing(chainId, target, items[i]) && items[i].signed.None?
    && AttemptedFrom(i + 1, chainId, target, items, attempted)
  }

  /** Where the scan stands once it has gone through the items from `from` on. */
  ghost predicate Scanned(before: Memory, after: Memory, chainId: ChainId, target: set<nat>, items: seq<Item>,
                          from: nat, found: set<nat>, attempted: set<nat>) {
    && from <= |items| && AttemptedFrom(from, chainId, target, items, attempted)
    && (forall n :: n in found <==> exists i :: i in attempted && FoundAt(before, chainId, items, i, n))
    && Remembers(before, after, chainId, items, attempted)
  }

  lemma SkipsUnwanted(before: Memory, after: Memory, chainId: ChainId, target: set<nat>, items: seq<Item>, from: nat,
                      found: set<nat>, attempted: set<nat>)
    requires Scanned(before, after, chainId, target, items, from, found, attempted)
    requires from > 0 && !Missing(chainId, target, items[from - 1])
    ensures Scanned(before, after, chainId, target, items, from - 1, found, attempted)
  {
  }

  lemma AttemptScans(before: Memory, memory: Memory, chainId: ChainId, target: set<nat>, items: seq<Item>, index: nat,
                     found: set<nat>, attempted: set<nat>, isFound: bool)
    requires Scanned(before, memory, chainId, target, items, index + 1, found, attempted)
    requires index < |items| && Missing(chainId, target, items[index]) && items[index].signed.Some?
    requires isFound <==> FoundAt(before, chainId, items, index, items[index].nonce.value)
    ensures var key, item := (chainId, index), items[index];
            var after := if item.accepted then memory[key := item.signed.value] else memory;
            Scanned(before, after, chainId, target, items, index, if isFound then found + {item.nonce.value} else found,
                    attempted + {index})
  {
    var item := items[index];
    var found' := if isFound then found + {item.nonce.value} else found;
    forall n ensures n in found' <==> exists i :: i in attempted + {index} && FoundAt(before, chainId, items, i, n) {
      if n in found {
        var i :| i in attempted && FoundAt(before, chainId, items, i, n);
        assert i in attempted + {index};
      } else if n in found' {
        assert index in attempted + {index} && FoundAt(before, chainId, items, index, n);
      }
    }
  }

  /** A nonce is found only where its payment was accepted or is proven. */
  lemma FoundIsPaid(memory: Memory, chainId: ChainId, items: seq<Item>, i: nat, n: nat)
    requires SignsOwnNonce(chainId, items) && FoundAt(memory, chainId, items, i, n)
    requires (chainId, i) in memory ==> SignedFor(memory[(chainId, i)], chainId, i)
    ensures items[i].accepted || Paid(items[i].receipts, chainId, i)
  {
    if !items[i].accepted {
      var proof := ProofFor(Lookup(memory, (chainId, i)), items[i].signed.value, items[i].receipts);
      assert PaidBy(items[i].receipts, proof.value) && SignedFor(proof.value, chainId, i);
    }
  }

  /** The nonces from the first unmined one up to the contract's next. */
  function Gap(latest: nat, next: nat): (gap: set<nat>)
    ensures forall n :: n in gap <==> latest <= n < next
    decreases next - latest
  {
    if latest >= next then {} else {latest} + Gap(latest + 1, next)
  }

  // ----- the poll's view -----

  const UNREGISTERED: ChainId := 0   // the chain of a token that is not registered

  datatype Pending = Pending(index: nat, chain: ChainId, block: int)

  predicate ByIndex(a: Pending, b: Pending) {
    a.index < b.index
  }

  predicate Eligible(marks: Marks, currentBlock: int, p: Pending) {
    Due(marks, currentBlock, p.chain, p.block, p.index) && p.chain != UNREGISTERED
  }

  predicate DistinctIndices(pending: seq<Pending>) {
    forall i, j :: 0 <= i < j < |pending| ==> pending[i].index != pending[j].index
  }

  /** The queue keeps its order: an entry goes before the first one with a larger index. */
  function Insert(queue: seq<Pending>, p: Pending): seq<Pending> {
    if queue == [] || p.index <= queue[0].index then [p] + queue else [queue[0]] + Insert(queue[1..], p)
  }

  lemma {:induction false} InsertKeepsSorted(queue: seq<Pending>, p: Pending)
    requires Sorted(queue, ByIndex)
    requires forall x :: x in queue ==> x.index != p.index
    ensures Sorted(Insert(queue, p), ByIndex)
    ensures forall x :: x in Insert(queue, p) <==> x in queue || x == p
  {
    if queue != [] && p.index > queue[0].index {
      assert queue == [queue[0]] + queue[1..];
      InsertKeepsSorted(queue[1..], p);
      var rest := Insert(queue[1..], p);
      forall k | 0 <= k < |rest| ensures queue[0].index < rest[k].index {
        assert rest[k] in rest;
      }
    }
  }

  // ----- one withdrawal's view -----

  /** What one attempt at a withdrawal sees.  A None read raised; `polls` are the reads after the
      submission, one per second until the timeout. */
  datatype Attempt = Attempt(index: nat, resolvedNow: Option<bool>, submitted: bool, polls: seq<Option<bool>>,
                             signed: Option<SignedTx>, accepted: bool, receipts: Receipts)

  /** Some read says resolved, and every one before it, unresolved. */
  ghost predicate Confirmed(polls: seq<Option<bool>>) {
    exists k :: 0 <= k < |polls| && polls[k] == Some(true) && forall l :: 0 <= l < k ==> polls[l] == Some(false)
  }

  ghost predicate Resolves(a: Attempt) {
    a.resolvedNow.Some? && (a.resolvedNow.value || (a.submitted && Confirmed(a.polls)))
  }

  function Lookup<K, V>(m: map<K, V>, key: K): Option<V> {
    if key in m then Some(m[key]) else None
  }

  /** The attempt ends with the payment accepted by a node, or proven by a receipt. */
  ghost predicate Succeeds(a: Attempt, remembered: Option<SignedTx>) {
    Resolves(a) && a.signed.Some? && (a.accepted || ProofFor(remembered, a.signed.value, a.receipts).Some?)
  }

  const STUCK_NONCE_ALARM_CYCLES := 10

  function StuckCycles(cycles: map<ChainId, nat>, chainId: ChainId, stuck: bool): map<ChainId, nat> {
    if stuck then cycles[chainId := (if chainId in cycles then cycles[chainId] else 0) + 1] else cycles - {chainId}
  }

  predicate Alarms(cycles: map<ChainId, nat>, chainId: ChainId) {
    chainId in cycles && cycles[chainId] >= STUCK_NONCE_ALARM_CYCLES
  }

  // ----- the alarm, over a history of reads -----

  datatype NonceRead = NonceRead(chain: ChainId, stuck: bool)

  function CyclesAfter(history: seq<NonceRead>): map<ChainId, nat> {
    if history == [] then map[]
    else
      var last := history[|history| - 1];
      StuckCycles(CyclesAfter(history[..|history| - 1]), last.chain, last.stuck)
  }

  /** Whether each read of one chain found it stuck. */
  function OfChain(history: seq<NonceRead>, chainId: ChainId): seq<bool> {
    if history == [] then []
    else
      var last := history[|history| - 1];
      OfChain(history[..|history| - 1], chainId) + if last.chain == chainId then [last.stuck] else []
  }

  predicate LastAllStuck(stuck: seq<bool>, n: nat) {
    |stuck| >= n && forall i :: |stuck| - n <= i < |stuck| ==> stuck[i]
  }

  function Streak(stuck: seq<bool>): nat {
    if stuck == [] || !stuck[|stuck| - 1] then 0 else Streak(stuck[..|stuck| - 1]) + 1
  }

  lemma {:induction false} StreakIsLastStuck(stuck: seq<bool>, n: nat)
    ensures Streak(stuck) >= n <==> LastAllStuck(stuck, n)
  {
    if stuck != [] && n > 0 {
      StreakIsLastStuck(stuck[..|stuck| - 1], n - 1);
    }
  }

  lemma {:induction false} CyclesAreStreaks(history: seq<NonceRead>, chainId: ChainId)
    ensures var cycles := CyclesAfter(history);
            (if chainId in cycles then cycles[chainId] else 0) == Streak(OfChain(history, chainId))
  {
    if history != [] {
      var before, last := history[..|history| - 1], history[|history| - 1];
      CyclesAreStreaks(before, chainId);
      if last.chain == chainId {
        assert OfChain(history, chainId)[..|OfChain(before, chainId)|] == OfChain(before, chainId);
      } else {
        assert OfChain(history, chainId) == OfChain(before, chainId);
      }
    }
  }

  /** The alarm of a chain is on exactly when its last ten reads all found it stuck. */
  lemma AlarmMeansTenStuckReads(history: seq<NonceRead>, chainId: ChainId)
    ensures Alarms(CyclesAfter(history), chainId) <==> LastAllStuck(OfChain(history, chainId), 10)
  {
    CyclesAreStreaks(history, chainId);
    StreakIsLastStuck(OfChain(history, chainId), STUCK_NONCE_ALARM_CYCLES);
  }

  class WithdrawalProcessor {
    var chainHighWaterMark: Marks
    var lastBroadcastHash: Memory
    var nonceDivergenceReported: set<ChainId>
    var stuckNonceCycles: map<ChainId, nat>

    constructor ()
      ensures Valid() && chainHighWaterMark == map[] && nonceDivergenceReported == {} && stuckNonceCycles == map[]
    {
      chainHighWaterMark, lastBroadcastHash, nonceDivergenceReported, stuckNonceCycles := map[], map[], {}, map[];
    }

    /** What is remembered as broadcast for a withdrawal was signed for it. */
    ghost predicate Valid()
      reads this
    {
      forall c, i :: (c, i) in lastBroadcastHash ==> SignedFor(lastBroadcastHash[(c, i)], c, i)
    }

    /** The gate: nonces the contract never issued must not be spent.  Answers the contract's next
        nonce and the chain's first unmined one, or None to refuse the chain. */
    method ChainNonceState(chainId: ChainId, next: nat, pending: nat, latest: nat) returns (state: Option<(nat, nat)>)
      modifies this`nonceDivergenceReported, this`stuckNonceCycles
      ensures state == if next >= pending then Some((next, latest)) else None
      ensures (chainId in nonceDivergenceReported) == (next < pending)
      ensures forall c :: c != chainId ==> (c in nonceDivergenceReported <==> c in old(nonceDivergenceReported))
      ensures next >= pending ==>
                stuckNonceCycles == StuckCycles(old(stuckNonceCycles), chainId, pending > latest && next > latest)
      ensures next < pending ==> stuckNonceCycles == old(stuckNonceCycles)
    {
      if next >= pending {
        nonceDivergenceReported := nonceDivergenceReported - {chainId};
        var _ := TrackStuckNonce(chainId, next, pending, latest);
        return Some((next, latest));
      }
      nonceDivergenceReported := nonceDivergenceReported + {chainId};
      return None;
    }

    /** Counts the consecutive cycles in which a signed nonce sat unmined, and alarms at the tenth. */
    method TrackStuckNonce(chainId: ChainId, next: nat, pending: nat, latest: nat) returns (alarm: bool)
      modifies this`stuckNonceCycles
      ensures stuckNonceCycles == StuckCycles(old(stuckNonceCycles), chainId, pending > latest && next > latest)
      ensures alarm <==> Alarms(stuckNonceCycles, chainId)
    {
      var stuck := pending > latest && next > latest;
      if !stuck {
        stuckNonceCycles := stuckNonceCycles - {chainId};
        return false;
      }
      var cycles := (if chainId in stuckNonceCycles then stuckNonceCycles[chainId] else 0) + 1;
      stuckNonceCycles := stuckNonceCycles[chainId := cycles];
      return cycles >= STUCK_NONCE_ALARM_CYCLES;
    }

    /** Looks for a proof of payment after a rejected broadcast. */
    method FindBroadcastTx(chainId: ChainId, index: nat, signed: SignedTx, receipts: Receipts)
      returns (proof: Option<SignedTx>)
      ensures proof == ProofFor(Lookup(lastBroadcastHash, (chainId, index)), signed, receipts)
      ensures Valid() && SignedFor(signed, chainId, index) && proof.Some? ==> Paid(receipts, chainId, index)
    {
      var remembered := Lookup(lastBroadcastHash, (chainId, index));
      var candidates := if remembered.None? then [] else [remembered.value];
      if Some(signed) != remembered {
        candidates := candidates + [signed];
      }
      for k := 0 to |candidates|
        invariant forall l :: 0 <= l < k ==> candidates[l] !in receipts
      {
        assert k == 0 ==> candidates[k] == if remembered.Some? then remembered.value else signed;
        assert k == 1 ==> candidates[0] == remembered.value && candidates[1] == signed;
        if candidates[k] in receipts {
          return if receipts[candidates[k]] then Some(candidates[k]) else None;
        }
      }
      assert remembered.Some? ==> remembered.value == candidates[0];
      assert signed == candidates[|candidates| - 1];
      return None;
    }

    /** One attempt of the scan: a broadcast or, when that is rejected, a proof of payment. */
    method Rebroadcast(chainId: ChainId, index: nat, item: Item) returns (found: bool)
      requires Valid() && item.signed.Some? && SignedFor(item.signed.value, chainId, index)
      modifies this`lastBroadcastHash
      ensures Valid()
      ensures found <==>
                || item.accepted
                || ProofFor(Lookup(old(lastBroadcastHash), (chainId, index)), item.signed.value, item.receipts).Some?
      ensures lastBroadcastHash == if item.accepted then old(lastBroadcastHash)[(chainId, index) := item.signed.value]
                                   else old(lastBroadcastHash)
    {
      if item.accepted {
        lastBroadcastHash := lastBroadcastHash[(chainId, index) := item.signed.value];
        return true;
      }
      var proof := FindBroadcastTx(chainId, index, item.signed.value, item.receipts);
      return proof.Some?;
    }

    /** The scan for missing broadcasts, newest withdrawal first.  It attempts exactly the wanted
        withdrawals it gets to, counts a nonce as found exactly when it is accepted or proven paid,
        and stops early only when it has found every wanted nonce or a contract call raised. */
    method BroadcastMissingForChain(chainId: ChainId, target: set<nat>, items: seq<Item>)
      returns (found: set<nat>, attempted: set<nat>, raised: bool)
      requires Valid() && SignsOwnNonce(chainId, items)
      modifies this`lastBroadcastHash
      ensures Valid() && found <= target
      ensures forall n :: n in found <==>
                            exists i :: i in attempted && FoundAt(old(lastBroadcastHash), chainId, items, i, n)
      ensures raised ==> exists i: nat :: StoppedAt(i, chainId, target, items, attempted)
      ensures !raised ==> exists from: nat ::
                            AttemptedFrom(from, chainId, target, items, attempted) && (from == 0 || found == target)
      ensures Remembers(old(lastBroadcastHash), lastBroadcastHash, chainId, items, attempted)
    {
      found, attempted, raised := {}, {}, false;
      if target == {} {
        assert AttemptedFrom(0, chainId, target, items, attempted);
        return;
      }
      var index := |items|;
      while index > 0
        invariant 0 <= index <= |items| && Valid() && !raised && found <= target
        invariant Scanned(old(lastBroadcastHash), lastBroadcastHash, chainId, target, items, index, found, attempted)
      {
        if |found| >= |target| {
          FullSubset(found, target);
          return;
        }
        index := index - 1;
        var item := items[index];
        if !item.readable || !item.resolved || item.nonce.None? || item.nonce.value !in target {
          SkipsUnwanted(old(lastBroadcastHash), lastBroadcastHash, chainId, target, items, index + 1, found, attempted);
          continue;
        }
        if item.chain != Some(chainId) {
          SkipsUnwanted(old(lastBroadcastHash), lastBroadcastHash, chainId, target, items, index + 1, found, attempted);
          continue;
        }
        if item.signed.None? {
          raised := true;
          assert StoppedAt(index, chainId, target, items, attempted);
          return;
        }
        assert Lookup(lastBroadcastHash, (chainId, index)) == Lookup(old(lastBroadcastHash), (chainId, index));
        ghost var memory := lastBroadcastHash;
        var isFound := Rebroadcast(chainId, index, item);
        AttemptScans(old(lastBroadcastHash), memory, chainId, target, items, index, found, attempted, isFound);
        attempted := attempted + {index};
        if isFound {
          found := found + {item.nonce.value};
        }
      }
    }

    /** One catch-up of one chain: with the gate open, every resolved withdrawal whose nonce the
        chain has not mined is attempted, down to the first contract call that raises. */
    method CatchUp(chainId: ChainId, next: nat, pending: nat, latest: nat, items: seq<Item>)
      returns (attempted: set<nat>, raised: bool)
      requires Valid() && SignsOwnNonce(chainId, items) && DistinctNonces(chainId, items)
      modifies this`lastBroadcastHash, this`nonceDivergenceReported, this`stuckNonceCycles
      ensures Valid()
      ensures next < pending ==> attempted == {} && !raised
      ensures next >= pending && !raised ==> AttemptedFrom(0, chainId, Gap(latest, next), items, attempted)
      ensures next >= pending && !raised ==> forall i: nat ::
                i in attempted <==>
                  && i < |items| && items[i].readable && items[i].resolved && items[i].chain == Some(chainId)
                  && items[i].nonce.Some? && latest <= items[i].nonce.value < next
      ensures raised ==> exists i: nat :: StoppedAt(i, chainId, Gap(latest, next), items, attempted)
      ensures Remembers(old(lastBroadcastHash), lastBroadcastHash, chainId, items, attempted)
      ensures (chainId in nonceDivergenceReported) == (next < pending)
    {
      attempted, raised := {}, false;
      var state := ChainNonceState(chainId, next, pending, latest);
      if state.None? || next == latest {
        return;
      }
      var found;
      found, attempted, raised := BroadcastMissingForChain(chainId, Gap(latest, next), items);
      if found == Gap(latest, next) {
        AllFoundAllAttempted(chainId, Gap(latest, next), items, attempted);
      }
    }

    /** The poll's queues: per chain, the eligible withdrawals in index order. */
    method GetPendingWithdrawals(pending: seq<Pending>, currentBlock: int) returns (byChain: map<ChainId, seq<Pending>>)
      requires DistinctIndices(pending)
      ensures UNREGISTERED !in byChain && forall c :: c in byChain ==> Sorted(byChain[c], ByIndex)
      ensures forall c, p :: (c in byChain && p in byChain[c]) <==>
                             (p in pending && p.chain == c && Eligible(chainHighWaterMark, currentBlock, p))
    {
      byChain := map[];
      for k := 0 to |pending|
        invariant UNREGISTERED !in byChain && forall c :: c in byChain ==> Sorted(byChain[c], ByIndex)
        invariant forall c, p :: (c in byChain && p in byChain[c]) <==>
                                 (p in pending[..k] && p.chain == c && Eligible(chainHighWaterMark, currentBlock, p))
      {
        var p := pending[k];
        assert forall x :: x in pending[..k] ==> x.index != p.index;
        assert pending[..k + 1] == pending[..k] + [p];
        if Eligible(chainHighWaterMark, currentBlock, p) {
          var queue := if p.chain in byChain then byChain[p.chain] else [];
          InsertKeepsSorted(queue, p);
          byChain := byChain[p.chain := Insert(queue, p)];
        }
      }
      assert pending[..|pending|] == pending;
    }

    /** Polls until the contract shows the withdrawal resolved. */
    method AwaitResolution(polls: seq<Option<bool>>) returns (resolved: bool)
      ensures resolved <==> Confirmed(polls)
    {
      for k := 0 to |polls|
        invariant forall l :: 0 <= l < k ==> polls[l] == Some(false)
      {
        if polls[k].None? {
          return false;
        }
        if polls[k].value {
          return true;
        }
      }
      return false;
    }

    /** Resolves and broadcasts one withdrawal.  The mark moves, and only up to this index, just
        when the payment was accepted or is proven. */
    method ResolveAndBroadcast(chainId: ChainId, a: Attempt) returns (ok: bool)
      requires Valid() && (a.signed.Some? ==> SignedFor(a.signed.value, chainId, a.index))
      modifies this`chainHighWaterMark, this`lastBroadcastHash
      ensures Valid()
      ensures chainId == UNREGISTERED ==>
                ok && chainHighWaterMark == old(chainHighWaterMark) && lastBroadcastHash == old(lastBroadcastHash)
      ensures chainId != UNREGISTERED ==>
                && (ok <==>
                    && a.resolvedNow.Some? && (a.resolvedNow.value || (a.submitted && Confirmed(a.polls)))
                    && a.signed.Some?
                    && (a.accepted || ProofFor(Lookup(old(lastBroadcastHash), (chainId, a.index)), a.signed.value,
                                               a.receipts).Some?))
                && (ok ==> a.accepted || Paid(a.receipts, chainId, a.index))
                && chainHighWaterMark == if ok then Raised(old(chainHighWaterMark), chainId, a.index)
                                         else old(chainHighWaterMark)
      ensures lastBroadcastHash ==
              if ok && a.accepted && chainId != UNREGISTERED
              then old(lastBroadcastHash)[(chainId, a.index) := a.signed.value] else old(lastBroadcastHash)
    {
      if chainId == UNREGISTERED {
        return true;
      }
      if a.resolvedNow.None? {
        return false;
      }
      if !a.resolvedNow.value {
        if !a.submitted {
          return false;
        }
        var resolved := AwaitResolution(a.polls);
        if !resolved {
          return false;
        }
      }
      if a.signed.None? {
        return false;
      }
      if a.accepted {
        lastBroadcastHash := lastBroadcastHash[(chainId, a.index) := a.signed.value];
      } else {
        var proof := FindBroadcastTx(chainId, a.index, a.signed.value, a.receipts);
        if proof.None? {
          return false;
        }
      }
      chainHighWaterMark := Raised(chainHighWaterMark, chainId, a.index);
      return true;
    }

    /** Attempts the withdrawals in order up to the first failure or stop; the mark ends at the last
        success. */
    method ServeInOrder(chainId: ChainId, attempts: seq<Attempt>, stopAt: nat) returns (served: nat, failed: bool)
      requires Valid() && InOrder(attempts) && SignsOwnIndex(chainId, attempts) && chainId != UNREGISTERED
      modifies this`chainHighWaterMark, this`lastBroadcastHash
      ensures Valid()
      ensures ServedUpTo(old(lastBroadcastHash), chainId, attempts, stopAt, served)
      ensures failed <==> served < |attempts| && served < stopAt
      ensures chainHighWaterMark == MarkAfter(old(chainHighWaterMark), chainId, attempts, served)
      ensures forall k :: 0 <= k < served ==>
                attempts[k].accepted || Paid(attempts[k].receipts, chainId, attempts[k].index)
      ensures ServedMemory(old(lastBroadcastHash), lastBroadcastHash, chainId, attempts, served)
    {
      served, failed := 0, false;
      while served < |attempts|
        invariant served <= |attempts| && served <= stopAt && Valid()
        invariant forall k :: 0 <= k < served ==>
                    Succeeds(attempts[k], Lookup(old(lastBroadcastHash), (chainId, attempts[k].index)))
        invariant ServedMemory(old(lastBroadcastHash), lastBroadcastHash, chainId, attempts, served)
        invariant chainHighWaterMark == MarkAfter(old(chainHighWaterMark), chainId, attempts, served)
        invariant forall k :: 0 <= k < served ==>
                    attempts[k].accepted || Paid(attempts[k].receipts, chainId, attempts[k].index)
      {
        if served == stopAt {
          return;
        }
        ghost var memory := lastBroadcastHash;
        StillAsBefore(old(lastBroadcastHash), memory, chainId, attempts, served);
        var ok := ResolveAndBroadcast(chainId, attempts[served]);
        assert ok <==> Succeeds(attempts[served], Lookup(memory, (chainId, attempts[served].index)));
        if !ok {
          failed := true;
          return;
        }
        RemembersOneMore(old(lastBroadcastHash), memory, chainId, attempts, served);
        served := served + 1;
      }
    }

    /** One chain's turn: the gate, the withdrawals in order, and a catch-up after a failure.  A chain
        that the gate refuses is not touched.  Polls queue no withdrawal of an unregistered token. */
    method ProcessChain(chainId: ChainId, nonces: Option<Nonces>, attempts: seq<Attempt>, stopAt: nat,
                        again: Option<Nonces>, items: seq<Item>)
      returns (served: nat, failed: bool, caughtUp: set<nat>, raised: bool)
      requires Valid() && InOrder(attempts) && SignsOwnIndex(chainId, attempts) && chainId != UNREGISTERED
      requires SignsOwnNonce(chainId, items) && DistinctNonces(chainId, items)
      modifies this
      ensures Valid()
      ensures !Open(nonces) ==> served == 0 && !failed && caughtUp == {}
                                && chainHighWaterMark == old(chainHighWaterMark)
                                && lastBroadcastHash == old(lastBroadcastHash)
      ensures Open(nonces) ==> ServedUpTo(old(lastBroadcastHash), chainId, attempts, stopAt, served)
      ensures Open(nonces) ==> (failed <==> served < |attempts| && served < stopAt)
      ensures chainHighWaterMark == MarkAfter(old(chainHighWaterMark), chainId, attempts, served)
      ensures forall k :: 0 <= k < served ==>
                attempts[k].accepted || Paid(attempts[k].receipts, chainId, attempts[k].index)
      ensures Open(nonces) ==>
                exists memory :: ServedMemory(old(lastBroadcastHash), memory, chainId, attempts, served)
                                 && Remembers(memory, lastBroadcastHash, chainId, items, caughtUp)
      ensures failed && Open(again) ==>
                var gap := Gap(again.value.latest, again.value.next);
                && (!raised ==> AttemptedFrom(0, chainId, gap, items, caughtUp))
                && (raised ==> exists i: nat :: StoppedAt(i, chainId, gap, items, caughtUp))
      ensures !failed || !Open(again) ==> caughtUp == {} && !raised
      ensures nonces.Some? ==>
                (chainId in nonceDivergenceReported <==> !Open(if failed && again.Some? then again else nonces))
    {
      served, failed, caughtUp, raised := 0, false, {}, false;
      if nonces.None? {
        return;
      }
      var state := ChainNonceState(chainId, nonces.value.next, nonces.value.pending, nonces.value.latest);
      if state.None? {
        return;
      }
      served, failed := ServeInOrder(chainId, attempts, stopAt);
      ghost var memory := lastBroadcastHash;
      assert Remembers(memory, lastBroadcastHash, chainId, items, {});
      if failed && again.Some? {
        caughtUp, raised := CatchUp(chainId, again.value.next, again.value.pending, again.value.latest, items);
      }
    }
  }

  /** The contract's next nonce, and the chain's pending and latest counts; none when a read failed. */
  datatype Nonces = Nonces(next: nat, pending: nat, latest: nat)

  predicate Open(nonces: Option<Nonces>) {
    nonces.Some? && nonces.value.next >= nonces.value.pending
  }

  /** The first `served` attempts succeed, and the next, if it is made, does not. */
  ghost predicate ServedUpTo(memory: Memory, chainId: ChainId, attempts: seq<Attempt>, stopAt: nat,
                       served: nat) {
    && served <= |attempts| && served <= stopAt
    && (forall k :: 0 <= k < served ==> Succeeds(attempts[k], Lookup(memory, (chainId, attempts[k].index))))
    && (served < |attempts| && served < stopAt ==>
        !Succeeds(attempts[served], Lookup(memory, (chainId, attempts[served].index))))
  }

  /** What is remembered after the first `served` attempts: the bytes of those that were accepted. */
  ghost predicate ServedMemory(before: Memory, after: Memory, chainId: ChainId, attempts: seq<Attempt>, served: nat)
    requires served <= |attempts|
  {
    && (forall k :: 0 <= k < served ==>
          Lookup(after, (chainId, attempts[k].index))
          == if attempts[k].accepted then attempts[k].signed else Lookup(before, (chainId, attempts[k].index)))
    && (forall c: ChainId, i: nat :: (c != chainId || forall k :: 0 <= k < served ==> attempts[k].index != i) ==>
          Lookup(after, (c, i)) == Lookup(before, (c, i)))
  }

  lemma StillAsBefore(before: Memory, memory: Memory, chainId: ChainId, attempts: seq<Attempt>, served: nat)
    requires InOrder(attempts) && served < |attempts| && ServedMemory(before, memory, chainId, attempts, served)
    ensures Lookup(memory, (chainId, attempts[served].index)) == Lookup(before, (chainId, attempts[served].index))
  {
  }

  lemma RemembersOneMore(before: Memory, memory: Memory, chainId: ChainId, attempts: seq<Attempt>, served: nat)
    requires InOrder(attempts) && served < |attempts| && ServedMemory(before, memory, chainId, attempts, served)
    requires attempts[served].accepted ==> attempts[served].signed.Some?
    ensures var a := attempts[served];
            ServedMemory(before, if a.accepted then memory[(chainId, a.index) := a.signed.value] else memory, chainId,
                         attempts, served + 1)
  {
    StillAsBefore(before, memory, chainId, attempts, served);
  }

  function MarkAfter(marks: Marks, chainId: ChainId, attempts: seq<Attempt>, served: nat): Marks
    requires served <= |attempts|
  {
    if served == 0 then marks else Raised(marks, chainId, attempts[served - 1].index)
  }

  predicate SignsOwnIndex(chainId: ChainId, attempts: seq<Attempt>) {
    forall k :: 0 <= k < |attempts| && attempts[k].signed.Some? ==>
        SignedFor(attempts[k].signed.value, chainId, attempts[k].index)
  }

  predicate InOrder(attempts: seq<Attempt>) {
    forall i, j :: 0 <= i < j < |attempts| ==> attempts[i].index < attempts[j].index
  }

  /** Two resolved withdrawals of a chain never share a nonce. */
  ghost predicate DistinctNonces(chainId: ChainId, items: seq<Item>) {
    forall i: nat, j: nat, target: set<nat> ::
      (i < |items| && j < |items| && Missing(chainId, target, items[i]) && Missing(chainId, target, items[j])
       && items[i].nonce == items[j].nonce) ==> i == j
  }

  /** The early exit loses nothing: once every wanted nonce is found, every withdrawal bearing one
      was attempted. */
  lemma AllFoundAllAttempted(chainId: ChainId, target: set<nat>, items: seq<Item>, attempted: set<nat>)
    requires DistinctNonces(chainId, items)
    requires forall i :: i in attempted ==> i < |items| && Missing(chainId, target, items[i])
    requires forall n :: n in target ==> exists i :: i in attempted && items[i].nonce == Some(n)
    ensures forall i: nat :: i < |items| && Missing(chainId, target, items[i]) ==> i in attempted
  {
    forall i: nat | i < |items| && Missing(chainId, target, items[i]) ensures i in attempted {
      var j :| j in attempted && items[j].nonce == items[i].nonce;
      assert Missing(chainId, target, items[j]);
    }
  }

  // ----- the poll and the machine of WithdrawalOrder -----

  function Indices(queue: seq<Pending>): seq<nat> {
    seq(|queue|, i requires 0 <= i < |queue| => queue[i].index)
  }

  /** The listing as the poll sees it: chain and block of every listed withdrawal. */
  ghost predicate Shows(pending: seq<Pending>, w: WithdrawalOrder.World, listing: set<nat>) {
    forall p :: p in pending <==>
      p.index in listing && p.index < |w.all| && p == Pending(p.index, w.all[p.index].chain, w.all[p.index].block)
  }

  /** The queue a poll builds for a chain is the one the machine processes. */
  lemma PollBuildsTheQueue(w: WithdrawalOrder.World, listing: set<nat>, currentBlock: int, chainId: ChainId,
                           pending: seq<Pending>, queue: seq<Pending>)
    requires chainId != UNREGISTERED && Shows(pending, w, listing) && Sorted(queue, ByIndex)
    requires forall p :: p in queue <==> p in pending && p.chain == chainId && Eligible(w.highWater, currentBlock, p)
    ensures Indices(queue) == WithdrawalOrder.Queue(w, listing, currentBlock, chainId, |w.all|)
  {
    var expected := WithdrawalOrder.Queue(w, listing, currentBlock, chainId, |w.all|);
    WithdrawalOrder.QueueIsSorted(w, listing, currentBlock, chainId, |w.all|);
    var less := (x: nat, y: nat) => x < y;
    forall x: nat ensures x in Indices(queue) <==> x in expected {
      if x in Indices(queue) {
        var k :| 0 <= k < |queue| && Indices(queue)[k] == x;
        assert queue[k] in queue;
      }
      if x in expected {
        var p := Pending(x, w.all[x].chain, w.all[x].block);
        assert p in queue;
        var k :| 0 <= k < |queue| && queue[k] == p;
        assert Indices(queue)[k] == x;
      }
    }
    SortedIsUnique(Indices(queue), expected, less);
  }
}
