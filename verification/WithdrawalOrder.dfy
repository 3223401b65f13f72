/**
 The order in which withdrawals are resolved, over whole runs of the processor.

 Token lookups succeed, block numbers do not decrease with the index, and this process is the only
 resolver; its submissions may land late, and its reads may lag.
 */
module WithdrawalOrder {
  import opened HighWater

  datatype Withdrawal = Withdrawal(chain: ChainId, block: int, resolved: bool)

  datatype World = World(
    all: seq<Withdrawal>,
    log: seq<nat>,                        // indices in the order the contract first resolved them
    wire: set<nat>,                       // resolveWithdrawal submissions not yet landed
    accepted: set<nat>,                   // a node accepted bytes signed for these, mined since or not
    highWater: Marks,         // volatile, like the queues
    queues: map<ChainId, seq<nat>>)       // what is left of the current poll, per chain

  datatype Action =
    | Request(chain: ChainId, block: int)
    | Poll(listing: set<nat>, mark: nat, currentBlock: int)
    | Submit(chain: ChainId)
    | Land(index: nat)
    | Accept(index: nat)                  // a node accepts bytes signed for it, whoever sent them
    | Settle(chain: ChainId)              // the head's broadcast is seen accepted, or a receipt is found
    | Pause(chain: ChainId)               // any failure ends the chain's turn
    | Restart

  /** The pending withdrawals of one chain that a poll may process. */
  predicate Eligible(w: World, listing: set<nat>, currentBlock: int, chain: ChainId, i: nat)
    requires i < |w.all|
  {
    i in listing && w.all[i].chain == chain && Due(w.highWater, currentBlock, chain, w.all[i].block, i)
  }

  /** They are processed in index order. */
  function Queue(w: World, listing: set<nat>, currentBlock: int, chain: ChainId, n: nat): seq<nat>
    requires n <= |w.all|
  {
    if n == 0 then []
    else Queue(w, listing, currentBlock, chain, n - 1)
         + if Eligible(w, listing, currentBlock, chain, n - 1) then [n - 1] else []
  }

  predicate Queued(w: World, chain: ChainId) {
    chain in w.queues && w.queues[chain] != [] && w.queues[chain][0] < |w.all|
  }

  predicate Enabled(w: World, a: Action) {
    match a
    case Request(_, block) => |w.all| > 0 ==> w.all[|w.all| - 1].block <= block
    case Poll(listing, mark, _) =>
      // what a listing of the index promises
      && mark <= |w.all|
      && (forall i :: i in listing ==> i < mark)
      && (forall i: nat :: i < mark && !w.all[i].resolved ==> i in listing)
    case Submit(chain) => Queued(w, chain)
    case Land(index) => index in w.wire && index < |w.all|
    case Accept(index) => index < |w.all| && w.all[index].resolved
    case Settle(chain) =>
      Queued(w, chain) && w.all[w.queues[chain][0]].resolved && w.queues[chain][0] in w.accepted
    case Pause(_) => true
    case Restart => true
  }

  function Chains(w: World): set<ChainId> {
    set x | x in w.all :: x.chain
  }

  function Next(w: World, a: Action): World
    requires Enabled(w, a)
  {
    match a
    case Request(chain, block) => w.(all := w.all + [Withdrawal(chain, block, false)])
    case Poll(listing, _, currentBlock) =>
      w.(queues := map c | c in Chains(w) :: Queue(w, listing, currentBlock, c, |w.all|))
    case Submit(chain) => w.(wire := w.wire + {w.queues[chain][0]})
    case Land(index) =>
      if w.all[index].resolved then w.(wire := w.wire - {index})
      else w.(all := w.all[index := w.all[index].(resolved := true)], log := w.log + [index], wire := w.wire - {index})
    case Accept(index) => w.(accepted := w.accepted + {index})
    case Settle(chain) =>
      var index := w.queues[chain][0];
      w.(highWater := Raised(w.highWater, chain, index),
         queues := w.queues[chain := w.queues[chain][1..]])
    case Pause(chain) => w.(queues := w.queues - {chain})
    case Restart => w.(highWater := map[], queues := map[])
  }

  const INITIAL := World([], [], {}, {}, map[], map[])

  ghost predicate Step(w: World, w': World) {
    exists a :: Enabled(w, a) && w' == Next(w, a)
  }

  ghost predicate Run(run: seq<World>) {
    && |run| > 0 && run[0] == INITIAL
    && forall i :: 0 < i < |run| ==> Step(run[i - 1], run[i])
  }

  /** A run with the action of each step. */
  ghost predicate ActedRun(run: seq<World>, acts: seq<Action>) {
    && |run| == |acts| + 1 && run[0] == INITIAL
    && forall i :: 0 <= i < |acts| ==> Enabled(run[i], acts[i]) && run[i + 1] == Next(run[i], acts[i])
  }

  lemma ActedRunIsRun(run: seq<World>, acts: seq<Action>)
    requires ActedRun(run, acts)
    ensures Run(run)
  {
    forall i | 0 < i < |run| ensures Step(run[i - 1], run[i]) {
      assert Enabled(run[i - 1], acts[i - 1]) && run[i - 1 + 1] == Next(run[i - 1], acts[i - 1]);
    }
  }

  // ----- the invariant -----

  /** Every earlier withdrawal of the chain is resolved. */
  ghost predicate ClearBelow(w: World, chain: ChainId, n: nat) {
    forall k: nat :: k < n && k < |w.all| && w.all[k].chain == chain ==> w.all[k].resolved
  }

  ghost predicate QueueOk(w: World, chain: ChainId, queue: seq<nat>) {
    && (forall k, l :: 0 <= k < l < |queue| ==> queue[k] < queue[l])
    && (forall x :: x in queue ==> x < |w.all| && w.all[x].chain == chain)
    && (forall x: nat, k: nat :: x in queue && k < x && w.all[k].chain == chain && !w.all[k].resolved ==> k in queue)
  }

  ghost predicate HighWaterOk(w: World, chain: ChainId) {
    chain in w.highWater ==>
      var m := w.highWater[chain];
      m < |w.all| && w.all[m].chain == chain && m in w.accepted && ClearBelow(w, chain, m + 1)
  }

  predicate SameChain(w: World, x: nat, y: nat) {
    x < |w.all| && y < |w.all| && w.all[x].chain == w.all[y].chain
  }

  ghost predicate LogOk(w: World) {
    && (forall x :: x in w.log ==> x < |w.all| && w.all[x].resolved)
    && (forall x: nat :: x < |w.all| && w.all[x].resolved ==> x in w.log)
    && (forall k, l :: 0 <= k < l < |w.log| && SameChain(w, w.log[k], w.log[l]) ==> w.log[k] < w.log[l])
  }

  ghost predicate Ordered(w: World) {
    && (forall i, j :: 0 <= i < j < |w.all| ==> w.all[i].block <= w.all[j].block)
    && (forall j: nat :: j < |w.all| && (w.all[j].resolved || j in w.wire) ==> ClearBelow(w, w.all[j].chain, j))
    && (forall j :: j in w.wire ==> j < |w.all|)
    && (forall c :: c in w.queues ==> QueueOk(w, c, w.queues[c]))
    && (forall c :: HighWaterOk(w, c))
    && LogOk(w)
  }

  // ----- one action keeps it -----

  lemma {:induction false} QueueIsSorted(w: World, listing: set<nat>, currentBlock: int, chain: ChainId, n: nat)
    requires n <= |w.all|
    ensures var queue := Queue(w, listing, currentBlock, chain, n);
            && (forall x: nat :: x in queue <==> x < n && Eligible(w, listing, currentBlock, chain, x))
            && (forall k, l :: 0 <= k < l < |queue| ==> queue[k] < queue[l])
  {
    if n > 0 {
      QueueIsSorted(w, listing, currentBlock, chain, n - 1);
      var before := Queue(w, listing, currentBlock, chain, n - 1);
      assert forall k :: 0 <= k < |before| ==> before[k] in before;
    }
  }

  /** A poll queues for a chain exactly its listed withdrawals that are a block old and above the mark,
      in index order. */
  lemma QueueIsExact(w: World, listing: set<nat>, mark: nat, currentBlock: int, chain: ChainId)
    requires Enabled(w, Poll(listing, mark, currentBlock))
    ensures var queues := Next(w, Poll(listing, mark, currentBlock)).queues;
            var queue := if chain in queues then queues[chain] else [];
            && (forall x: nat :: x in queue <==>
                  && x < |w.all| && x in listing && w.all[x].chain == chain && currentBlock - w.all[x].block >= 1
                  && (chain in w.highWater ==> x > w.highWater[chain]))
            && (forall k, l :: 0 <= k < l < |queue| ==> queue[k] < queue[l])
  {
    QueueIsSorted(w, listing, currentBlock, chain, |w.all|);
  }

  lemma PolledQueueOk(w: World, listing: set<nat>, mark: nat, currentBlock: int, chain: ChainId)
    requires Ordered(w) && Enabled(w, Poll(listing, mark, currentBlock))
    ensures QueueOk(w, chain, Queue(w, listing, currentBlock, chain, |w.all|))
  {
    QueueIsSorted(w, listing, currentBlock, chain, |w.all|);
    assert HighWaterOk(w, chain);
  }

  /** Nothing unresolved precedes the head of a queue. */
  lemma HeadIsNext(w: World, chain: ChainId)
    requires Ordered(w) && Queued(w, chain)
    ensures ClearBelow(w, chain, w.queues[chain][0])
  {
    var queue := w.queues[chain];
    assert QueueOk(w, chain, queue) && queue[0] in queue;
  }

  lemma RequestKeepsOrdered(w: World, chain: ChainId, block: int)
    requires Ordered(w) && Enabled(w, Request(chain, block))
    ensures Ordered(Next(w, Request(chain, block)))
  {
    var w' := Next(w, Request(chain, block));
    forall c ensures HighWaterOk(w', c) {
      assert HighWaterOk(w, c);
    }
    forall c | c in w'.queues ensures QueueOk(w', c, w'.queues[c]) {
      assert QueueOk(w, c, w.queues[c]);
    }
  }

  lemma PollKeepsOrdered(w: World, listing: set<nat>, mark: nat, currentBlock: int)
    requires Ordered(w) && Enabled(w, Poll(listing, mark, currentBlock))
    ensures Ordered(Next(w, Poll(listing, mark, currentBlock)))
  {
    var w' := Next(w, Poll(listing, mark, currentBlock));
    forall c | c in w'.queues ensures QueueOk(w, c, w'.queues[c]) {
      PolledQueueOk(w, listing, mark, currentBlock, c);
    }
    SameMarks(w, w');
  }

  lemma SubmitKeepsOrdered(w: World, chain: ChainId)
    requires Ordered(w) && Enabled(w, Submit(chain))
    ensures Ordered(Next(w, Submit(chain)))
  {
    var w' := Next(w, Submit(chain));
    HeadIsNext(w, chain);
    assert QueueOk(w, chain, w.queues[chain]) && w.queues[chain][0] in w.queues[chain];
    forall c ensures HighWaterOk(w', c) {
      assert HighWaterOk(w, c);
    }
  }

  lemma LandKeepsOrdered(w: World, index: nat)
    requires Ordered(w) && Enabled(w, Land(index))
    ensures Ordered(Next(w, Land(index)))
  {
    var w' := Next(w, Land(index));
    forall c ensures HighWaterOk(w', c) {
      assert HighWaterOk(w, c);
    }
    forall c | c in w'.queues ensures QueueOk(w', c, w'.queues[c]) {
      assert QueueOk(w, c, w.queues[c]);
    }
    LandKeepsLog(w, index);
  }

  /** What lands is the next withdrawal of its chain. */
  lemma LandKeepsLog(w: World, index: nat)
    requires Ordered(w) && Enabled(w, Land(index))
    ensures LogOk(Next(w, Land(index)))
  {
    var w' := Next(w, Land(index));
    if !w.all[index].resolved {
      forall k, l | 0 <= k < l < |w'.log| && SameChain(w', w'.log[k], w'.log[l]) ensures w'.log[k] < w'.log[l] {
        if l < |w.log| {
          assert SameChain(w, w.log[k], w.log[l]);
        } else {
          var earlier := w.log[k];
          assert earlier in w.log && ClearBelow(w, w.all[earlier].chain, earlier);
        }
      }
    }
  }

  lemma SettleKeepsOrdered(w: World, chain: ChainId)
    requires Ordered(w) && Enabled(w, Settle(chain))
    ensures Ordered(Next(w, Settle(chain)))
  {
    var w' := Next(w, Settle(chain));
    HeadIsNext(w, chain);
    assert QueueOk(w, chain, w.queues[chain]) && w.queues[chain][0] in w.queues[chain];
    TailOk(w, chain, w.queues[chain]);
    forall c ensures HighWaterOk(w', c) {
      assert HighWaterOk(w, c);
    }
    forall c | c in w'.queues ensures QueueOk(w', c, w'.queues[c]) {
      assert c in w.queues && QueueOk(w, c, w.queues[c]);
    }
  }

  /** Once the head is resolved the rest of the queue is in order. */
  lemma TailOk(w: World, chain: ChainId, queue: seq<nat>)
    requires QueueOk(w, chain, queue) && queue != [] && queue[0] < |w.all| && w.all[queue[0]].resolved
    ensures QueueOk(w, chain, queue[1..])
  {
    assert queue == [queue[0]] + queue[1..];
    forall x: nat, k: nat | x in queue[1..] && k < x && x < |w.all| && w.all[k].chain == chain && !w.all[k].resolved
      ensures k in queue[1..]
    {
      assert x in queue && k in queue && k != queue[0];
    }
  }

  /** Polls, acceptances and pauses resolve nothing and move no mark. */
  lemma SameMarks(w: World, w': World)
    requires Ordered(w) && w'.all == w.all && w'.log == w.log && w'.wire == w.wire && w'.highWater == w.highWater
    requires w.accepted <= w'.accepted
    requires forall c :: c in w'.queues ==> QueueOk(w, c, w'.queues[c])
    ensures Ordered(w')
  {
    forall c ensures HighWaterOk(w', c) {
      assert HighWaterOk(w, c);
    }
    forall c | c in w'.queues ensures QueueOk(w', c, w'.queues[c]) {
      assert QueueOk(w, c, w'.queues[c]);
    }
  }

  lemma NextKeepsOrdered(w: World, a: Action)
    requires Ordered(w) && Enabled(w, a)
    ensures Ordered(Next(w, a))
  {
    match a
    case Request(chain, block) => RequestKeepsOrdered(w, chain, block);
    case Poll(listing, mark, currentBlock) => PollKeepsOrdered(w, listing, mark, currentBlock);
    case Submit(chain) => SubmitKeepsOrdered(w, chain);
    case Land(index) => LandKeepsOrdered(w, index);
    case Accept(_) => SameMarks(w, Next(w, a));
    case Settle(chain) => SettleKeepsOrdered(w, chain);
    case Pause(_) => SameMarks(w, Next(w, a));
    case Restart =>
  }

  lemma {:induction false} RunsAreOrdered(run: seq<World>, i: nat)
    requires Run(run) && i < |run|
    ensures Ordered(run[i])
  {
    if i > 0 {
      RunsAreOrdered(run, i - 1);
      assert Step(run[i - 1], run[i]);
      var a :| Enabled(run[i - 1], a) && run[i] == Next(run[i - 1], a);
      NextKeepsOrdered(run[i - 1], a);
    }
  }

  /** On each chain the contract first resolves withdrawals in increasing index order, never
      leaving one behind. */
  lemma ResolvedInIndexOrder(run: seq<World>, i: nat)
    requires Run(run) && i < |run|
    ensures var w := run[i];
            && (forall k, l :: 0 <= k < l < |w.log| && SameChain(w, w.log[k], w.log[l]) ==> w.log[k] < w.log[l])
            && (forall x: nat, y: nat :: x < y && SameChain(w, x, y) && w.all[y].resolved ==> w.all[x].resolved)
  {
    RunsAreOrdered(run, i);
    forall x: nat, y: nat | x < y && SameChain(run[i], x, y) && run[i].all[y].resolved ensures run[i].all[x].resolved {
      assert ClearBelow(run[i], run[i].all[y].chain, y);
    }
  }

  /** The mark of a chain stands at a withdrawal of which a node accepted signed bytes, and nothing
      at or below it is unresolved; so no poll ever filters out an unresolved withdrawal. */
  lemma HighWaterHidesNothing(run: seq<World>, i: nat, chain: ChainId)
    requires Run(run) && i < |run| && chain in run[i].highWater
    ensures run[i].highWater[chain] in run[i].accepted
    ensures forall k: nat :: (k < |run[i].all| && run[i].all[k].chain == chain && !run[i].all[k].resolved)
                             ==> Above(run[i].highWater, chain, k)
  {
    RunsAreOrdered(run, i);
    assert HighWaterOk(run[i], chain);
  }

  /** The mark of the chain is at the index or above, and the queue beyond it. */
  ghost predicate Passed(w: World, chain: ChainId, index: nat) {
    && chain in w.highWater && w.highWater[chain] >= index
    && (chain in w.queues ==> forall x :: x in w.queues[chain] ==> x > index)
  }

  lemma NextStaysPassed(w: World, a: Action, chain: ChainId, index: nat)
    requires Ordered(w) && Enabled(w, a) && a != Restart && Passed(w, chain, index)
    ensures Passed(Next(w, a), chain, index)
  {
    match a
    case Poll(listing, mark, currentBlock) => PollStaysPassed(w, listing, mark, currentBlock, chain, index);
    case Settle(c) =>
      if c == chain {
        assert forall x :: x in w.queues[c][1..] ==> x in w.queues[c];
      }
    case _ =>
  }

  lemma PollStaysPassed(w: World, listing: set<nat>, mark: nat, currentBlock: int, chain: ChainId, index: nat)
    requires Enabled(w, Poll(listing, mark, currentBlock)) && Passed(w, chain, index)
    ensures Passed(Next(w, Poll(listing, mark, currentBlock)), chain, index)
  {
    var w' := Next(w, Poll(listing, mark, currentBlock));
    QueueIsSorted(w, listing, currentBlock, chain, |w.all|);
    if chain in w'.queues {
      forall x | x in w'.queues[chain] ensures x > index {
        assert Eligible(w, listing, currentBlock, chain, x);
      }
    }
  }

  lemma SettlePasses(w: World, chain: ChainId)
    requires Ordered(w) && Enabled(w, Settle(chain))
    ensures Passed(Next(w, Settle(chain)), chain, w.queues[chain][0])
  {
    assert QueueOk(w, chain, w.queues[chain]);
  }

  /** A withdrawal served by a process is never queued by it again, whatever stale listings show. */
  lemma {:induction false} ServedIsNotQueuedAgain(run: seq<World>, acts: seq<Action>, i: nat, n: nat, chain: ChainId)
    requires ActedRun(run, acts) && i < n <= |acts|
    requires acts[i] == Settle(chain) && forall k :: i < k < n ==> acts[k] != Restart
    ensures Queued(run[i], chain) && Passed(run[n], chain, run[i].queues[chain][0])
  {
    if n == i + 1 {
      ActedStep(run, acts, i);
      SettlePasses(run[i], chain);
    } else {
      ServedIsNotQueuedAgain(run, acts, i, n - 1, chain);
      ActedStep(run, acts, n - 1);
      PassedNext(run[n - 1], acts[n - 1], run[n], chain, run[i].queues[chain][0]);
    }
  }

  lemma PassedNext(w: World, a: Action, w': World, chain: ChainId, index: nat)
    requires Ordered(w) && Enabled(w, a) && w' == Next(w, a) && a != Restart && Passed(w, chain, index)
    ensures Passed(w', chain, index)
  {
    NextStaysPassed(w, a, chain, index);
  }

  lemma ActedStep(run: seq<World>, acts: seq<Action>, k: nat)
    requires ActedRun(run, acts) && k < |acts|
    ensures Ordered(run[k]) && Enabled(run[k], acts[k]) && run[k + 1] == Next(run[k], acts[k])
  {
    ActedRunIsRun(run, acts);
    RunsAreOrdered(run, k);
  }

  /** The head of a queue can always be served: submitted, resolved, accepted by a node and settled,
      after which the next is at the head. */
  lemma HeadCanBeServed(w: World, chain: ChainId)
    requires Queued(w, chain)
    ensures var x := w.queues[chain][0];
            var submitted := Next(w, Submit(chain));
            && Enabled(submitted, Land(x))
            && var landed := Next(submitted, Land(x));
            && landed.all[x].resolved && Enabled(landed, Accept(x))
            && var accepted := Next(landed, Accept(x));
            && Enabled(accepted, Settle(chain))
            && var served := Next(accepted, Settle(chain));
            && served.queues[chain] == w.queues[chain][1..]
            && chain in served.highWater && served.highWater[chain] >= x
            && (w.all[x].resolved || served.log == w.log + [x])
  {
  }
}
