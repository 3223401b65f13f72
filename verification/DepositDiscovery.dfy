/**
 The discovery scan: a chunked descending search for uncredited token transfers to one deposit
 address, with a cap on what it returns and a cap on what it classifies.
 */
module DepositDiscovery {
  import opened Arithmetic
  import opened ChainConfigs
  import opened Options
  import opened SortedSeqs

  type Address = int

  type Identifier = int

  // ----- the source chain and its node -----

  /** A Transfer log to the deposit address. */
  datatype Log = Log(block: int, logIndex: nat, token: Address, txHash: int, amount: nat, wellFormed: bool)

  predicate Newer(a: Log, b: Log) {
    a.block > b.block || (a.block == b.block && a.logIndex > b.logIndex)
  }

  /** Answers `eth_getLogs` for some contracts and a block range; None when the call fails. */
  type Node = (set<Address>, int, int) -> Option<seq<Log>>

  predicate Matches(x: Log, tokens: set<Address>, lo: int, hi: int) {
    x.token in tokens && lo <= x.block <= hi
  }

  predicate NoRepeats<T(==)>(s: seq<T>) {
    forall i, j :: 0 <= i < j < |s| ==> s[i] != s[j]
  }

  /** A successful answer holds exactly the matching logs of the chain, in any order.  `chain` lists
      the chain's logs newest first. */
  ghost predicate Serves(node: Node, chain: seq<Log>) {
    forall tokens, lo, hi :: node(tokens, lo, hi).Some? ==> ExactLogs(chain, tokens, lo, hi, node(tokens, lo, hi).value)
  }

  ghost predicate ExactLogs(chain: seq<Log>, tokens: set<Address>, lo: int, hi: int, logs: seq<Log>) {
    NoRepeats(logs) && forall x :: x in logs <==> x in chain && Matches(x, tokens, lo, hi)
  }

  /** The matching logs, newest first. */
  function Window(chain: seq<Log>, tokens: set<Address>, lo: int, hi: int): seq<Log> {
    if chain == [] then []
    else (if Matches(chain[0], tokens, lo, hi) then [chain[0]] else []) + Window(chain[1..], tokens, lo, hi)
  }

  lemma {:induction false} WindowIsExact(chain: seq<Log>, tokens: set<Address>, lo: int, hi: int)
    requires Sorted(chain, Newer)
    ensures Sorted(Window(chain, tokens, lo, hi), Newer)
    ensures forall x :: x in Window(chain, tokens, lo, hi) <==> x in chain && Matches(x, tokens, lo, hi)
  {
    if chain != [] {
      WindowIsExact(chain[1..], tokens, lo, hi);
      assert chain == [chain[0]] + chain[1..];
      var rest := Window(chain[1..], tokens, lo, hi);
      forall k | 0 <= k < |rest| ensures Newer(chain[0], rest[k]) {
        assert rest[k] in rest && rest[k] in chain[1..];
      }
    }
  }

  lemma SortedConcatenation(newer: seq<Log>, older: seq<Log>)
    requires Sorted(newer, Newer) && Sorted(older, Newer)
    requires forall x, y :: x in newer && y in older ==> Newer(x, y)
    ensures Sorted(newer + older, Newer)
  {
    forall i, j | 0 <= i < |newer| && 0 <= j < |older| ensures Newer(newer[i], older[j]) {
      assert newer[i] in newer && older[j] in older;
    }
  }

  /** A window is its newer part followed by its older part. */
  lemma WindowSplits(chain: seq<Log>, tokens: set<Address>, lo: int, mid: int, hi: int)
    requires Sorted(chain, Newer) && lo <= mid <= hi + 1
    ensures Window(chain, tokens, lo, hi) == Window(chain, tokens, mid, hi) + Window(chain, tokens, lo, mid - 1)
  {
    WindowIsExact(chain, tokens, lo, hi);
    WindowIsExact(chain, tokens, mid, hi);
    WindowIsExact(chain, tokens, lo, mid - 1);
    var newer, older := Window(chain, tokens, mid, hi), Window(chain, tokens, lo, mid - 1);
    SortedConcatenation(newer, older);
    SortedIsUnique(Window(chain, tokens, lo, hi), newer + older, Newer);
  }

  // ----- sorting one answer -----

  function Insert(s: seq<Log>, x: Log): seq<Log> {
    if s == [] || Newer(x, s[0]) then [x] + s else [s[0]] + Insert(s[1..], x)
  }

  function NewestFirst(logs: seq<Log>): seq<Log> {
    if logs == [] then [] else Insert(NewestFirst(logs[1..]), logs[0])
  }

  /** No two logs share a position on the chain. */
  predicate DistinctPositions(logs: seq<Log>) {
    forall x, y :: x in logs && y in logs && x != y ==> Newer(x, y) || Newer(y, x)
  }

  lemma {:induction false} InsertKeepsSorted(s: seq<Log>, x: Log)
    requires Sorted(s, Newer) && forall y :: y in s ==> Newer(x, y) || Newer(y, x)
    ensures Sorted(Insert(s, x), Newer)
    ensures forall y :: y in Insert(s, x) <==> y in s || y == x
  {
    if s != [] {
      assert s == [s[0]] + s[1..];
      if !Newer(x, s[0]) {
        InsertKeepsSorted(s[1..], x);
        var rest := Insert(s[1..], x);
        forall k | 0 <= k < |rest| ensures Newer(s[0], rest[k]) {
          assert rest[k] in rest;
        }
      }
    }
  }

  lemma {:induction false} NewestFirstSorts(logs: seq<Log>)
    requires NoRepeats(logs) && DistinctPositions(logs)
    ensures Sorted(NewestFirst(logs), Newer)
    ensures forall x :: x in NewestFirst(logs) <==> x in logs
  {
    if logs != [] {
      assert logs == [logs[0]] + logs[1..];
      assert forall x :: x in logs[1..] ==> x in logs && x != logs[0];
      NewestFirstSorts(logs[1..]);
      InsertKeepsSorted(NewestFirst(logs[1..]), logs[0]);
    }
  }

  /** However the node orders an answer, sorting it gives the window. */
  lemma SortedAnswerIsWindow(chain: seq<Log>, tokens: set<Address>, lo: int, hi: int, logs: seq<Log>)
    requires Sorted(chain, Newer) && ExactLogs(chain, tokens, lo, hi, logs)
    ensures var sorted := NewestFirst(logs);
            && sorted == Window(chain, tokens, lo, hi)
            && forall i, j :: 0 <= i < j < |sorted| ==>
                 || sorted[i].block > sorted[j].block
                 || (sorted[i].block == sorted[j].block && sorted[i].logIndex > sorted[j].logIndex)
  {
    forall x, y | x in logs && y in logs && x != y ensures Newer(x, y) || Newer(y, x) {
      var i :| 0 <= i < |chain| && chain[i] == x;
      var j :| 0 <= j < |chain| && chain[j] == y;
      assert if i < j then Newer(x, y) else Newer(y, x);
    }
    NewestFirstSorts(logs);
    WindowIsExact(chain, tokens, lo, hi);
    SortedIsUnique(NewestFirst(logs), Window(chain, tokens, lo, hi), Newer);
  }

  // ----- what the scan should answer -----

  predicate IsCandidate(x: Log, minAmount: int) {
    x.wellFormed && x.amount >= minAmount
  }

  function Candidates(logs: seq<Log>, minAmount: int): seq<Log> {
    if logs == [] then []
    else (if IsCandidate(logs[0], minAmount) then [logs[0]] else []) + Candidates(logs[1..], minAmount)
  }

  lemma CandidatesStep(s: seq<Log>, tail: seq<Log>, minAmount: int)
    requires s != [] && s[1..] == tail
    ensures Candidates(s, minAmount)
            == (if IsCandidate(s[0], minAmount) then [s[0]] else []) + Candidates(tail, minAmount)
  {
  }

  lemma {:induction false} CandidatesConcatenate(a: seq<Log>, b: seq<Log>, minAmount: int)
    ensures Candidates(a + b, minAmount) == Candidates(a, minAmount) + Candidates(b, minAmount)
  {
    if a == [] {
      assert a + b == b;
    } else {
      CandidatesConcatenate(a[1..], b, minAmount);
      CandidatesStep(a + b, a[1..] + b, minAmount);
    }
  }

  datatype Status = Fresh | Processing

  datatype Discovered = Discovered(log: Log, id: DepositId, status: Status)

  type Classifier = Log -> Option<Discovered>

  function Returnable(logs: seq<Log>, classify: Classifier): seq<Discovered> {
    if logs == [] then []
    else Returnable(logs[..|logs| - 1], classify) + OfOption(classify(logs[|logs| - 1]))
  }

  function OfOption<T>(o: Option<T>): seq<T> {
    if o.Some? then [o.value] else []
  }

  function Take<T>(s: seq<T>, n: nat): seq<T> {
    if |s| <= n then s else s[..n]
  }

  lemma {:induction false} ReturnableOfPrefix(logs: seq<Log>, n: nat, classify: Classifier)
    requires n <= |logs|
    ensures Returnable(logs[..n], classify) <= Returnable(logs, classify)
    decreases |logs|
  {
    if n < |logs| {
      assert logs[..|logs| - 1][..n] == logs[..n];
      ReturnableOfPrefix(logs[..|logs| - 1], n, classify);
    } else {
      assert logs[..n] == logs;
    }
  }

  const MAX_PENDING_CANDIDATES := 20
  const MAX_CLASSIFIED_CANDIDATES := 60

  /** The first 20 returnable among the first 60 candidates. */
  function Listing(candidates: seq<Log>, classify: Classifier): seq<Discovered> {
    Take(Returnable(Take(candidates, MAX_CLASSIFIED_CANDIDATES), classify), MAX_PENDING_CANDIDATES)
  }

  /** Stopping at either cap, or at the end, gives the listing. */
  lemma StoppedListing(candidates: seq<Log>, classify: Classifier, n: nat)
    requires n <= |candidates| && n <= MAX_CLASSIFIED_CANDIDATES
    requires |Returnable(candidates[..n], classify)| <= MAX_PENDING_CANDIDATES
    requires n == |candidates| || n == MAX_CLASSIFIED_CANDIDATES
             || |Returnable(candidates[..n], classify)| == MAX_PENDING_CANDIDATES
    ensures Returnable(candidates[..n], classify) == Listing(candidates, classify)
  {
    var first := Take(candidates, MAX_CLASSIFIED_CANDIDATES);
    assert first[..n] == candidates[..n];
    ReturnableOfPrefix(first, n, classify);
    if n == |first| {
      assert first[..n] == first;
    }
  }

  /** The oldest block the answer vouches for. */
  function CoveredFrom(candidates: seq<Log>, classify: Classifier, fromBlock: int, classified: nat): int
    requires classified <= |candidates|
  {
    if |Listing(candidates, classify)| == MAX_PENDING_CANDIDATES && classified > 0 then
      candidates[classified - 1].block + 1
    else if |candidates| > MAX_CLASSIFIED_CANDIDATES then candidates[MAX_CLASSIFIED_CANDIDATES].block + 1
    else fromBlock
  }

  /** Every candidate in a block the answer vouches for was classified. */
  lemma CoverageIsHonest(candidates: seq<Log>, classify: Classifier, fromBlock: int, classified: nat)
    requires Sorted(candidates, Newer) && classified <= |candidates| && classified <= MAX_CLASSIFIED_CANDIDATES
    requires Stopped(candidates, classify, classified)
    ensures forall x :: (x in candidates && x.block >= CoveredFrom(candidates, classify, fromBlock, classified))
                        ==> x in candidates[..classified]
  {
    forall i | classified <= i < |candidates|
      ensures candidates[i].block < CoveredFrom(candidates, classify, fromBlock, classified)
    {
      if |Listing(candidates, classify)| == MAX_PENDING_CANDIDATES {
        assert Newer(candidates[classified - 1], candidates[i]);
      } else if i > MAX_CLASSIFIED_CANDIDATES {
        assert Newer(candidates[MAX_CLASSIFIED_CANDIDATES], candidates[i]);
      }
    }
    forall x | x in candidates && x.block >= CoveredFrom(candidates, classify, fromBlock, classified)
      ensures x in candidates[..classified]
    {
      var i :| 0 <= i < |candidates| && candidates[i] == x;
      assert i < classified;
      assert candidates[..classified][i] == x;
    }
  }

  /** The coverage falls short of the window only for a reason: the block below it holds a candidate
      that was not classified, or the one that filled the list. */
  lemma CoverageIsTight(candidates: seq<Log>, classify: Classifier, fromBlock: int, classified: nat)
    requires classified <= |candidates| && classified <= MAX_CLASSIFIED_CANDIDATES
    requires Stopped(candidates, classify, classified)
    ensures var from := CoveredFrom(candidates, classify, fromBlock, classified);
            if |Listing(candidates, classify)| == 20 then classified > 0 && candidates[classified - 1].block == from - 1
            else if |candidates| > 60 then candidates[60].block == from - 1
            else from == fromBlock
  {
  }

  /** The scan classified exactly this many candidates: up to the one that filled the list, or all
      it may. */
  predicate Stopped(candidates: seq<Log>, classify: Classifier, classified: nat)
    requires classified <= |candidates|
  {
    if |Listing(candidates, classify)| == MAX_PENDING_CANDIDATES then
      && classified > 0 && |Returnable(candidates[..classified], classify)| == MAX_PENDING_CANDIDATES
      && classify(candidates[classified - 1]).Some?
    else classified == |Take(candidates, MAX_CLASSIFIED_CANDIDATES)|
  }

  lemma {:induction false} CandidatesOfSorted(logs: seq<Log>, minAmount: int)
    requires Sorted(logs, Newer)
    ensures Sorted(Candidates(logs, minAmount), Newer)
    ensures forall x :: x in Candidates(logs, minAmount) <==> x in logs && IsCandidate(x, minAmount)
  {
    if logs != [] {
      assert logs == [logs[0]] + logs[1..];
      CandidatesOfSorted(logs[1..], minAmount);
      var rest := Candidates(logs[1..], minAmount);
      forall k | 0 <= k < |rest| ensures Newer(logs[0], rest[k]) {
        assert rest[k] in rest && rest[k] in logs[1..];
      }
    }
  }

  /** Over the chain: every transfer of the window worth a deposit, in a block the answer vouches
      for, was classified. */
  lemma WindowIsCovered(chain: seq<Log>, tokens: set<Address>, fromBlock: int, toBlock: int, minAmount: int,
                        classify: Classifier, classified: nat)
    requires Sorted(chain, Newer)
    requires var candidates := Candidates(Window(chain, tokens, fromBlock, toBlock), minAmount);
             && classified <= |candidates| && classified <= MAX_CLASSIFIED_CANDIDATES
             && Stopped(candidates, classify, classified)
    ensures var candidates := Candidates(Window(chain, tokens, fromBlock, toBlock), minAmount);
            forall x :: (x in chain && Matches(x, tokens, fromBlock, toBlock) && x.wellFormed && x.amount >= minAmount
                         && x.block >= CoveredFrom(candidates, classify, fromBlock, classified))
                        ==> x in candidates[..classified]
  {
    WindowIsExact(chain, tokens, fromBlock, toBlock);
    CandidatesOfSorted(Window(chain, tokens, fromBlock, toBlock), minAmount);
    CoverageIsHonest(Candidates(Window(chain, tokens, fromBlock, toBlock), minAmount), classify, fromBlock, classified);
  }

  // ----- the scan -----

  datatype Result = Found(pending: seq<Discovered>, scannedFrom: int, scannedTo: int, classified: nat) | RpcError

  /** The answer for a window: its listing, the coverage it claims, and how much was classified. */
  ghost predicate IsAnswer(result: Result, candidates: seq<Log>, classify: Classifier, fromBlock: int, toBlock: int)
    requires result.Found?
  {
    && result.scannedTo == toBlock
    && result.classified <= |candidates| && result.classified <= MAX_CLASSIFIED_CANDIDATES
    && result.pending == Listing(candidates, classify)
    && result.scannedFrom == CoveredFrom(candidates, classify, fromBlock, result.classified)
    && Stopped(candidates, classify, result.classified)
  }

  /** Classifies the entries of one chunk, newest first, until a cap is reached. */
  method ScanEntries(minDeposit: int, entries: seq<Log>, chunkStart: int, pendingBefore: seq<Discovered>,
                     classifiedBefore: nat, classify: Classifier, ghost candidates: seq<Log>, ghost older: seq<Log>)
    returns (pending: seq<Discovered>, classified: nat, boundReached: bool, scannedFrom: int)
    requires Progress(candidates, classify, pendingBefore, classifiedBefore) && |pendingBefore| < MAX_PENDING_CANDIDATES
    requires candidates[classifiedBefore..] == Candidates(entries + older, minDeposit)
    ensures Progress(candidates, classify, pending, classified)
    ensures Reached(candidates, classify, pending, classified, boundReached, scannedFrom,
                    Candidates(older, minDeposit), chunkStart)
  {
    pending, classified, boundReached, scannedFrom := pendingBefore, classifiedBefore, false, chunkStart;
    ghost var left := entries + older;
    for k := 0 to |entries|
      invariant Progress(candidates, classify, pending, classified) && |pending| < MAX_PENDING_CANDIDATES
      invariant left == entries[k..] + older && candidates[classified..] == Candidates(left, minDeposit)
      invariant !boundReached && scannedFrom == chunkStart
    {
      var entry := entries[k];
      NextCandidate(candidates, classified, left, minDeposit);
      left := left[1..];
      if !entry.wellFormed {
        continue;
      }
      if entry.amount < minDeposit {
        continue;
      }
      if classified >= MAX_CLASSIFIED_CANDIDATES {
        boundReached := true;
        scannedFrom := entry.block + 1;
        return;
      }
      ProgressByOne(candidates, classify, pending, classified);
      classified := classified + 1;
      var discovered := classify(entry);
      if discovered.Some? {
        pending := pending + [discovered.value];
        if |pending| >= MAX_PENDING_CANDIDATES {
          scannedFrom := entry.block + 1;
          return;
        }
      }
    }
    assert left == older;
  }

  /** The entry at hand is either no candidate, or the next one. */
  lemma NextCandidate(candidates: seq<Log>, classified: nat, left: seq<Log>, minDeposit: int)
    requires classified <= |candidates| && left != []
    requires candidates[classified..] == Candidates(left, minDeposit)
    ensures if IsCandidate(left[0], minDeposit)
            then classified < |candidates| && candidates[classified] == left[0]
                 && candidates[classified + 1..] == Candidates(left[1..], minDeposit)
            else candidates[classified..] == Candidates(left[1..], minDeposit)
  {
    if IsCandidate(left[0], minDeposit) {
      assert candidates[classified] == candidates[classified..][0];
      assert candidates[classified + 1..] == candidates[classified..][1..];
    }
  }

  lemma ProgressByOne(candidates: seq<Log>, classify: Classifier, pending: seq<Discovered>, n: nat)
    requires Progress(candidates, classify, pending, n) && |pending| < MAX_PENDING_CANDIDATES
    requires n < |candidates| && n < MAX_CLASSIFIED_CANDIDATES
    ensures var next := classify(candidates[n]);
            Progress(candidates, classify, if next.Some? then pending + [next.value] else pending, n + 1)
  {
    assert candidates[..n + 1][..n] == candidates[..n];
  }

  /** The window alone determines the answer: neither the chunk size nor the node's order shows. */
  lemma AnswerIsUnique(a: Result, b: Result, candidates: seq<Log>, classify: Classifier, fromBlock: int, toBlock: int)
    requires a.Found? && b.Found?
    requires IsAnswer(a, candidates, classify, fromBlock, toBlock)
    requires IsAnswer(b, candidates, classify, fromBlock, toBlock)
    ensures a == b
  {
    if |Listing(candidates, classify)| == MAX_PENDING_CANDIDATES {
      ListGrows(candidates, classify, a.classified, b.classified);
      ListGrows(candidates, classify, b.classified, a.classified);
    }
  }

  lemma ListGrows(candidates: seq<Log>, classify: Classifier, n: nat, m: nat)
    requires n <= |candidates| && 0 < m <= |candidates| && classify(candidates[m - 1]).Some?
    ensures n < m ==> |Returnable(candidates[..n], classify)| < |Returnable(candidates[..m], classify)|
  {
    if n < m {
      var before := candidates[..m - 1];
      assert candidates[..m][..m - 1] == before && before[..n] == candidates[..n];
      ReturnableOfPrefix(before, n, classify);
    }
  }

  /** Fetches the next chunk down and classifies it; `next` is the block below it. */
  method ScanNextChunk(cfg: ChainConfig, tokens: set<Address>, fromBlock: nat, chunkEnd: int, node: Node,
                       pendingBefore: seq<Discovered>, classifiedBefore: nat, classify: Classifier,
                       ghost chain: seq<Log>, ghost candidates: seq<Log>, ghost rest: seq<Log>)
    returns (answered: bool, next: int, pending: seq<Discovered>, classified: nat, boundReached: bool,
             scannedFrom: int, ghost older: seq<Log>, ghost covered: int)
    requires cfg.chunk > 0 && fromBlock <= chunkEnd && Sorted(chain, Newer) && Serves(node, chain)
    requires IsWindow(rest, chain, tokens, fromBlock, chunkEnd)
    requires Progress(candidates, classify, pendingBefore, classifiedBefore) && |pendingBefore| < MAX_PENDING_CANDIDATES
    requires candidates[classifiedBefore..] == Candidates(rest, cfg.minDepositErc20)
    ensures fromBlock - 1 <= next < chunkEnd && covered == next + 1
    ensures answered ==>
              && IsWindow(older, chain, tokens, fromBlock, next)
              && Progress(candidates, classify, pending, classified)
              && Reached(candidates, classify, pending, classified, boundReached, scannedFrom,
                         Candidates(older, cfg.minDepositErc20), covered)
  {
    var chunkStart := if chunkEnd - cfg.chunk + 1 > fromBlock then chunkEnd - cfg.chunk + 1 else fromBlock;
    next, covered := chunkStart - 1, chunkStart;
    pending, classified, boundReached, scannedFrom, older := pendingBefore, classifiedBefore, false, chunkStart, rest;
    var logs := node(tokens, chunkStart, chunkEnd);
    answered := logs.Some?;
    if answered {
      older := ChunkOfWindow(rest, chain, tokens, fromBlock, chunkStart, chunkEnd, node);
      pending, classified, boundReached, scannedFrom :=
        ScanEntries(cfg.minDepositErc20, NewestFirst(logs.value), chunkStart, pending, classified, classify, candidates,
                    older);
    }
  }

  /** The descending loop over the chunks of a window, down to its first block or to a cap. */
  method ScanWindow(cfg: ChainConfig, tokens: set<Address>, fromBlock: nat, toBlock: nat, node: Node,
                    classify: Classifier, ghost chain: seq<Log>, ghost window: seq<Log>, ghost candidates: seq<Log>)
    returns (answered: bool, pending: seq<Discovered>, classified: nat, boundReached: bool, scannedFrom: int)
    requires cfg.chunk > 0 && fromBlock <= toBlock && Sorted(chain, Newer) && Serves(node, chain)
    requires IsWindow(window, chain, tokens, fromBlock, toBlock)
    requires candidates == Candidates(window, cfg.minDepositErc20)
    ensures answered ==>
              && Progress(candidates, classify, pending, classified)
              && Reached(candidates, classify, pending, classified, boundReached, scannedFrom, [], fromBlock)
  {
    answered, pending, classified, boundReached, scannedFrom := true, [], 0, false, toBlock;
    var chunkEnd: int := toBlock;
    ghost var older, covered := window, toBlock as int;
    StartOfScan(candidates, classify);
    while chunkEnd >= fromBlock && |pending| < MAX_PENDING_CANDIDATES && !boundReached
      invariant answered && fromBlock - 1 <= chunkEnd
      invariant covered == chunkEnd + 1 || (covered == chunkEnd && fromBlock <= chunkEnd)
      invariant IsWindow(older, chain, tokens, fromBlock, chunkEnd)
      invariant Progress(candidates, classify, pending, classified)
      invariant Reached(candidates, classify, pending, classified, boundReached, scannedFrom,
                        Candidates(older, cfg.minDepositErc20), covered)
      decreases chunkEnd
    {
      answered, chunkEnd, pending, classified, boundReached, scannedFrom, older, covered :=
        ScanNextChunk(cfg, tokens, fromBlock, chunkEnd, node, pending, classified, classify, chain, candidates, older);
      if !answered {
        return;
      }
    }
    EmptyWindow(older, chain, tokens, fromBlock, chunkEnd);
  }

  /** One scan of the window that ends at the finalized head.  Chunks only size the node's calls:
      the answer is the listing of the whole window, whatever the chunk and the node's order. */
  method Scan(cfg: ChainConfig, tokens: set<Address>, latest: nat, lookback: int, node: Node, classify: Classifier,
              ghost chain: seq<Log>)
    returns (result: Result)
    requires cfg.chunk > 0 && lookback > 0
    requires Sorted(chain, Newer) && Serves(node, chain)
    ensures tokens == {} || latest < cfg.finalityDepth ==> result == Found([], 0, 0, 0)
    ensures result.Found? && tokens != {} && latest >= cfg.finalityDepth ==>
              var to := latest - cfg.finalityDepth;
              var from := if to - lookback + 1 > 0 then to - lookback + 1 else 0;
              IsAnswer(result, Candidates(Window(chain, tokens, from, to), cfg.minDepositErc20), classify, from, to)
  {
    if tokens == {} {
      return Found([], 0, 0, 0);
    }
    var toBlock := latest - cfg.finalityDepth;
    var fromBlock := if toBlock - lookback + 1 > 0 then toBlock - lookback + 1 else 0;
    if toBlock < 0 {
      return Found([], 0, 0, 0);
    }
    ghost var window := Window(chain, tokens, fromBlock, toBlock);
    ghost var candidates := Candidates(window, cfg.minDepositErc20);
    var answered, pending, classified, boundReached, scannedFrom :=
      ScanWindow(cfg, tokens, fromBlock, toBlock, node, classify, chain, window, candidates);
    if !answered {
      return RpcError;
    }
    EndOfScan(candidates, classify, pending, classified, boundReached, scannedFrom, fromBlock, toBlock);
    return Found(pending, scannedFrom, toBlock, classified);
  }

  ghost predicate IsWindow(logs: seq<Log>, chain: seq<Log>, tokens: set<Address>, lo: int, hi: int) {
    logs == Window(chain, tokens, lo, hi)
  }

  /** A chunk's sorted answer, then the older part, make up the rest of the window. */
  lemma ChunkOfWindow(rest: seq<Log>, chain: seq<Log>, tokens: set<Address>, fromBlock: int, chunkStart: int,
                      chunkEnd: int, node: Node)
    returns (older: seq<Log>)
    requires Sorted(chain, Newer) && Serves(node, chain) && IsWindow(rest, chain, tokens, fromBlock, chunkEnd)
    requires fromBlock <= chunkStart <= chunkEnd + 1 && node(tokens, chunkStart, chunkEnd).Some?
    ensures IsWindow(older, chain, tokens, fromBlock, chunkStart - 1)
    ensures rest == NewestFirst(node(tokens, chunkStart, chunkEnd).value) + older
  {
    older := Window(chain, tokens, fromBlock, chunkStart - 1);
    SortedAnswerIsWindow(chain, tokens, chunkStart, chunkEnd, node(tokens, chunkStart, chunkEnd).value);
    WindowSplits(chain, tokens, fromBlock, chunkStart, chunkEnd);
  }

  lemma {:induction false} NoWindow(chain: seq<Log>, tokens: set<Address>, lo: int, hi: int)
    requires hi < lo
    ensures Window(chain, tokens, lo, hi) == []
  {
    if chain != [] {
      NoWindow(chain[1..], tokens, lo, hi);
    }
  }

  lemma EmptyWindow(older: seq<Log>, chain: seq<Log>, tokens: set<Address>, lo: int, hi: int)
    requires IsWindow(older, chain, tokens, lo, hi)
    ensures hi < lo ==> older == []
  {
    if hi < lo {
      NoWindow(chain, tokens, lo, hi);
    }
  }

  lemma StartOfScan(candidates: seq<Log>, classify: Classifier)
    ensures Progress(candidates, classify, [], 0) && candidates[0..] == candidates
  {
  }

  ghost predicate Progress(candidates: seq<Log>, classify: Classifier, pending: seq<Discovered>, classified: nat) {
    && classified <= |candidates| && classified <= MAX_CLASSIFIED_CANDIDATES
    && pending == Returnable(candidates[..classified], classify)
    && |pending| <= MAX_PENDING_CANDIDATES
  }

  ghost predicate BoundReached(candidates: seq<Log>, pending: seq<Discovered>, classified: nat, scannedFrom: int) {
    && classified == MAX_CLASSIFIED_CANDIDATES < |candidates| && |pending| < MAX_PENDING_CANDIDATES
    && scannedFrom == candidates[MAX_CLASSIFIED_CANDIDATES].block + 1
  }

  /** Where a scan stands once it has gone through the blocks from `covered` up, with the candidates
      `rest` still below. */
  ghost predicate Reached(candidates: seq<Log>, classify: Classifier, pending: seq<Discovered>, classified: nat,
                          boundReached: bool, scannedFrom: int, rest: seq<Log>, covered: int)
    requires classified <= |candidates|
  {
    if boundReached then BoundReached(candidates, pending, classified, scannedFrom)
    else if |pending| == MAX_PENDING_CANDIDATES then
      && classified > 0 && classify(candidates[classified - 1]).Some?
      && scannedFrom == candidates[classified - 1].block + 1
    else candidates[classified..] == rest && scannedFrom == covered
  }

  lemma EndOfScan(candidates: seq<Log>, classify: Classifier, pending: seq<Discovered>, classified: nat,
                  boundReached: bool, scannedFrom: int, fromBlock: int, toBlock: int)
    requires Progress(candidates, classify, pending, classified)
    requires Reached(candidates, classify, pending, classified, boundReached, scannedFrom, [], fromBlock)
    ensures IsAnswer(Found(pending, scannedFrom, toBlock, classified), candidates, classify, fromBlock, toBlock)
  {
    assert |candidates[classified..]| == |candidates| - classified;
    StoppedListing(candidates, classify, classified);
  }

  // ----- the window asked for -----

  function Ceil(a: int, b: int): int
    requires b > 0
  {
    (a + b - 1) / b
  }

  /** The window of a request, or None when it asks for no block.  An explicit one is rounded up to
      whole chunks. */
  function Lookback(cfg: ChainConfig, requested: Option<int>): Option<int>
    requires ValidConfig(cfg)
  {
    var lookback := Min(if requested.Some? then requested.value else cfg.lookback, cfg.maxLookback);
    if lookback < 1 then None
    else if requested.Some? then Some(Min(Ceil(lookback, cfg.chunk) * cfg.chunk, cfg.maxLookback))
    else Some(lookback)
  }

  lemma CeilBounds(a: int, b: int)
    requires a > 0 && b > 0
    ensures a <= Ceil(a, b) * b < a + b && Ceil(a, b) >= 1
  {
    assert a + b - 1 == b * ((a + b - 1) / b) + (a + b - 1) % b;
    Scaled(Ceil(a, b), b);
  }

  lemma Scaled(k: int, b: int)
    requires b > 0
    ensures k >= 1 ==> k * b >= b
    ensures k <= 0 ==> k * b <= 0
    ensures k <= -1 ==> k * b <= -b
  {
  }

  lemma CeilUnique(a: int, b: int, q: int)
    requires b > 0 && (q - 1) * b < a <= q * b
    ensures Ceil(a, b) == q
  {
    var n := a + b - 1;
    var d := n / b;
    assert n == b * d + n % b;
    assert (d - q) * b == d * b - q * b;
    assert (q - 1) * b == q * b - b;
    Scaled(d - q, b);
  }

  /** A request that names no window gets the chain's own; one for less than a block gets none. */
  lemma DefaultWindow(cfg: ChainConfig, requested: Option<int>)
    requires ValidConfig(cfg)
    ensures Lookback(cfg, None) == Some(cfg.lookback)
    ensures Lookback(cfg, requested).None? <==> requested.Some? && requested.value < 1
  {
  }

  /** Rounding shows the caller no less than it asked for within the maximum, costs no extra node
      call, and leaves one window per call count: distinct windows, and so cache keys, are bounded. */
  lemma RoundingIsFree(cfg: ChainConfig, requested: int)
    requires ValidConfig(cfg) && requested >= 1
    ensures var asked := Min(requested, cfg.maxLookback);
            var window := Lookback(cfg, Some(requested));
            && window.Some? && asked <= window.value <= cfg.maxLookback
            && Ceil(window.value, cfg.chunk) == Ceil(asked, cfg.chunk)
            && 1 <= Ceil(asked, cfg.chunk) <= Ceil(cfg.maxLookback, cfg.chunk)
            && window.value == Min(Ceil(asked, cfg.chunk) * cfg.chunk, cfg.maxLookback)
  {
    var asked := Min(requested, cfg.maxLookback);
    var calls := Ceil(asked, cfg.chunk);
    CeilBounds(asked, cfg.chunk);
    CeilBounds(cfg.maxLookback, cfg.chunk);
    var window := Min(calls * cfg.chunk, cfg.maxLookback);
    assert (calls - 1) * cfg.chunk == calls * cfg.chunk - cfg.chunk;
    CeilUnique(window, cfg.chunk, calls);
    CeilMonotone(asked, cfg.maxLookback, cfg.chunk);
  }

  lemma CeilMonotone(a: int, c: int, b: int)
    requires b > 0 && 0 < a <= c
    ensures Ceil(a, b) <= Ceil(c, b)
  {
    CeilBounds(a, b);
    CeilBounds(c, b);
    var d := Ceil(a, b) - Ceil(c, b);
    assert d * b == Ceil(a, b) * b - Ceil(c, b) * b;
    Scaled(d, b);
  }

  // ----- one transfer's status, in three places -----

  datatype DepositId = DepositId(txHash: int, tokenId: Identifier, logIndex: nat)

  datatype Record = Record(beneficiary: int, errored: bool, swept: bool)

  /** The in-flight sweep records and the contract's processed set. */
  datatype Books = Books(records: map<DepositId, Record>, processed: set<DepositId>)

  function IdOf(log: Log, tokenId: Identifier): DepositId {
    DepositId(log.txHash, tokenId, log.logIndex)
  }

  /** The scan's verdict on one transfer. */
  function Classify(books: Books, tokens: map<Address, Identifier>, beneficiary: int, log: Log): Option<Discovered> {
    if log.token !in tokens then None
    else
      var id := IdOf(log, tokens[log.token]);
      if id in books.records && books.records[id].beneficiary != beneficiary then None
      else if id in books.records && !(books.records[id].errored && !books.records[id].swept) then
        Some(Discovered(log, id, Processing))
      else if id in books.processed then None
      else Some(Discovered(log, id, Fresh))
  }

  datatype Answer = Credited | Underway | Started

  /** What submitting a verified deposit answers: a record that failed before its sweep is dropped
      and the sweep starts again. */
  function ProcessDeposit(books: Books, id: DepositId): (Answer, Books) {
    if id in books.processed then (Credited, books)
    else if id in books.records then
      if books.records[id].errored then
        if books.records[id].swept then (Underway, books)
        else (Started, books.(records := books.records - {id}))
      else (Underway, books)
    else (Started, books)
  }

  datatype DepositStatus = Unknown | StatusPending | StatusError

  function GetDepositStatus(books: Books, id: DepositId, beneficiary: int): DepositStatus {
    if id !in books.records then Unknown
    else if books.records[id].beneficiary != beneficiary then Unknown
    else if books.records[id].errored then (if books.records[id].swept then StatusPending else StatusError)
    else StatusPending
  }

  /** The three answers agree on the caller's own registered transfers: one listed as fresh is one
      whose submission starts a sweep, one listed as processing is one whose status is pending, and
      one not listed is credited. */
  lemma ListedMeansSubmittable(books: Books, tokens: map<Address, Identifier>, beneficiary: int, log: Log)
    requires log.token in tokens
    requires var id := IdOf(log, tokens[log.token]);
             id in books.records ==> books.records[id].beneficiary == beneficiary
    ensures var id := IdOf(log, tokens[log.token]);
            var verdict := Classify(books, tokens, beneficiary, log);
            && (verdict.Some? && verdict.value.status.Fresh? <==> ProcessDeposit(books, id).0.Started?)
            && (verdict.Some? && verdict.value.status.Processing? <==>
                GetDepositStatus(books, id, beneficiary).StatusPending?)
            && (verdict.None? ==> ProcessDeposit(books, id).0.Credited?)
            && (verdict.Some? ==> verdict.value.log == log && verdict.value.id == id)
            && (GetDepositStatus(books, id, beneficiary).StatusError? ==>
                  id in books.records && (id in books.processed || ProcessDeposit(books, id).0.Started?))
            && (ProcessDeposit(books, id).0.Started? ==>
                  ProcessDeposit(books, id).1 == Books(books.records - {id}, books.processed))
            && (!ProcessDeposit(books, id).0.Started? ==> ProcessDeposit(books, id).1 == books)
            && (ProcessDeposit(books, id).0.Underway? ==> verdict.Some? && verdict.value.status.Processing?)
  {
  }

  /** Two transfers have one deposit id only if they are one log of one token. */
  lemma IdsAreDistinct(a: Log, tokenA: Identifier, b: Log, tokenB: Identifier)
    ensures IdOf(a, tokenA) == IdOf(b, tokenB) <==>
              a.txHash == b.txHash && a.logIndex == b.logIndex && tokenA == tokenB
  {
  }

  /** Nobody learns of another user's record. */
  lemma ForeignRecordsStayHidden(books: Books, tokens: map<Address, Identifier>, beneficiary: int, log: Log,
                                 record: Record)
    requires log.token in tokens && record.beneficiary != beneficiary
    ensures var id := IdOf(log, tokens[log.token]);
            var with := books.(records := books.records[id := record]);
            && Classify(with, tokens, beneficiary, log).None?
            && GetDepositStatus(with, id, beneficiary)
               == GetDepositStatus(books.(records := books.records - {id}), id, beneficiary)
  {
  }
}
