/**
 Signed writes to the Accounting contract: one task per calldata, durable records, and honest
 reports under resends, cancelled callers, crashes and lost replies.

 A key is the hash of the calldata, so equal keys are exact resends.  A submission handed to the
 relay may execute or revert at any later time, even after a crash of the process that sent it.
 */
module SignedSubmission {
  import opened Options

  type Key = int
  type SubmissionId = int
  type CallerId = int

  datatype Call = Pending | Executed(id: SubmissionId)

  type Store = map<Key, Call>

  /** `first`: the task found no earlier record when it started. */
  datatype Task = Scheduled | Submitting(first: bool, id: SubmissionId)

  /** How a task ended; `Lost` is every exception but a revert. */
  datatype Outcome = Replied(id: SubmissionId) | Reverted | Lost

  datatype Caller = Waiting(key: Key) | Woken(key: Key, outcome: Outcome)

  datatype Report = Success(id: SubmissionId) | DefiniteFailure | OutcomeUnknown

  datatype World = World(
    store: Store,                          // durable
    wire: map<SubmissionId, Key>,          // submitted, fate open
    executed: map<SubmissionId, Key>,      // executed on chain
    reverted: map<SubmissionId, Key>,      // reverted on chain
    expired: set<Key>,                     // keys whose record expired over something that has or may still land
    tasks: map<Key, Task>,                 // volatile, one per key
    callers: map<CallerId, Caller>)        // volatile

  datatype Action =
    | Submit(caller: CallerId, key: Key)       // a caller joins the key's task, or creates it
    | Start(key: Key, id: SubmissionId)        // the task runs up to the relay
    | Execute(id: SubmissionId)                // the chain decides
    | Revert(id: SubmissionId)
    | SeeOk(key: Key)                          // the relay answers the task
    | SeeRevert(key: Key)
    | SeeNothing(key: Key)
    | Answer(caller: CallerId)                 // a woken caller checks the store and returns
    | Cancel(caller: CallerId)
    | Crash
    | Expire(key: Key)

  /** The task for `key` ends: it leaves the table and its waiting callers are woken. */
  function Finish(w: World, key: Key, outcome: Outcome): World {
    w.(tasks := w.tasks - {key},
       callers := map c | c in w.callers ::
         if w.callers[c] == Waiting(key) then Woken(key, outcome) else w.callers[c])
  }

  predicate KnownExecuted(store: Store, key: Key) {
    key in store && store[key].Executed?
  }

  /** The record a task leaves before it submits. */
  function AfterStart(store: Store, key: Key): Store {
    if KnownExecuted(store, key) then store else store[key := Pending]
  }

  /** The record after a revert: only a first submission's revert is final. */
  function AfterRevert(store: Store, key: Key, first: bool): Store {
    if first then store - {key} else store
  }

  /** What a caller is told: after a failure, a record still there means the outcome is unknown. */
  function ReportOf(store: Store, key: Key, outcome: Outcome): Report {
    if outcome.Replied? then Success(outcome.id)
    else if key !in store then DefiniteFailure
    else OutcomeUnknown
  }

  predicate Enabled(w: World, a: Action) {
    match a
    case Submit(caller, key) => caller !in w.callers
    case Start(key, id) =>
      && key in w.tasks && w.tasks[key].Scheduled?
      && id !in w.wire && id !in w.executed && id !in w.reverted
    case Execute(id) => id in w.wire
    case Revert(id) => id in w.wire
    case SeeOk(key) => key in w.tasks && w.tasks[key].Submitting? && w.tasks[key].id in w.executed
    case SeeRevert(key) => key in w.tasks && w.tasks[key].Submitting? && w.tasks[key].id in w.reverted
    case SeeNothing(key) => key in w.tasks && w.tasks[key].Submitting?
    case Answer(caller) => caller in w.callers && w.callers[caller].Woken?
    case Cancel(caller) => caller in w.callers
    case Crash => true
    case Expire(key) => key in w.store
  }

  function Next(w: World, a: Action): World
    requires Enabled(w, a)
  {
    match a
    case Submit(caller, key) =>
      w.(tasks := if key in w.tasks then w.tasks else w.tasks[key := Scheduled],
         callers := w.callers[caller := Waiting(key)])
    case Start(key, id) =>
      if KnownExecuted(w.store, key) then Finish(w, key, Replied(w.store[key].id))
      else w.(store := AfterStart(w.store, key),
              wire := w.wire[id := key],
              tasks := w.tasks[key := Submitting(key !in w.store, id)])
    case Execute(id) => w.(wire := w.wire - {id}, executed := w.executed[id := w.wire[id]])
    case Revert(id) =>
      var w' := w.(wire := w.wire - {id}, reverted := w.reverted[id := w.wire[id]]);
      w'.(expired := if SomethingLanded(w', w.wire[id]) then w.expired else w.expired - {w.wire[id]})
    case SeeOk(key) =>
      Finish(w.(store := w.store[key := Executed(w.tasks[key].id)]), key, Replied(w.tasks[key].id))
    case SeeRevert(key) => Finish(w.(store := AfterRevert(w.store, key, w.tasks[key].first)), key, Reverted)
    case SeeNothing(key) => Finish(w, key, Lost)
    case Answer(caller) => w.(callers := w.callers - {caller})
    case Cancel(caller) => w.(callers := w.callers - {caller})
    case Crash => w.(tasks := map[], callers := map[])
    case Expire(key) =>
      w.(store := w.store - {key}, expired := if SomethingLanded(w, key) then w.expired + {key} else w.expired)
  }

  /** A submission of the key executed, or still may. */
  predicate SomethingLanded(w: World, key: Key) {
    (exists id :: id in w.wire && w.wire[id] == key) || (exists id :: id in w.executed && w.executed[id] == key)
  }

  /** What `Answer(caller)` returns to its caller. */
  function ReportTo(w: World, caller: CallerId): Report
    requires Enabled(w, Answer(caller))
  {
    ReportOf(w.store, w.callers[caller].key, w.callers[caller].outcome)
  }

  const INITIAL := World(map[], map[], map[], map[], {}, map[], map[])

  ghost predicate Step(w: World, w': World) {
    exists a :: Enabled(w, a) && w' == Next(w, a)
  }

  ghost predicate Run(run: seq<World>) {
    && |run| > 0 && run[0] == INITIAL
    && forall i :: 0 < i < |run| ==> Step(run[i - 1], run[i])
  }

  // ----- the invariant -----

  /** A submission of `key` has executed, or still may. */
  ghost predicate MayHaveLanded(w: World, key: Key, id: SubmissionId) {
    (id in w.wire && w.wire[id] == key) || (id in w.executed && w.executed[id] == key)
  }

  ghost predicate FatesDisjoint(w: World) {
    && (forall id :: id in w.wire ==> id !in w.executed && id !in w.reverted)
    && (forall id :: id in w.executed ==> id !in w.reverted)
  }

  ghost predicate TaskOk(w: World, key: Key) {
    key in w.tasks && w.tasks[key].Submitting? ==>
      var id := w.tasks[key].id;
      && (MayHaveLanded(w, key, id) || (id in w.reverted && w.reverted[id] == key))
      && (key in w.store ==> w.store[key] == Pending)
      && (key !in w.expired && w.tasks[key].first ==> forall other :: MayHaveLanded(w, key, other) ==> other == id)
  }

  ghost predicate StoreOk(w: World, key: Key) {
    && (key !in w.expired ==> forall id :: MayHaveLanded(w, key, id) ==> key in w.store)
    && (key in w.store && w.store[key].Executed? ==>
        w.store[key].id in w.executed && w.executed[w.store[key].id] == key)
  }

  ghost predicate CallerOk(w: World, c: CallerId) {
    c in w.callers && w.callers[c].Woken? && w.callers[c].outcome.Replied? ==>
      var id := w.callers[c].outcome.id;
      id in w.executed && w.executed[id] == w.callers[c].key
  }

  ghost predicate Honest(w: World) {
    && FatesDisjoint(w)
    && (forall key :: TaskOk(w, key) && StoreOk(w, key))
    && (forall key :: key in w.expired ==> SomethingLanded(w, key))
    && (forall c :: CallerOk(w, c))
  }

  // ----- one action keeps it -----

  lemma FatesStayDisjoint(w: World, a: Action)
    requires Honest(w) && Enabled(w, a)
    ensures FatesDisjoint(Next(w, a))
  {
  }

  /** Only a task that starts adds a submission. */
  lemma LandedBefore(w: World, a: Action, key: Key, id: SubmissionId)
    requires Enabled(w, a) && MayHaveLanded(Next(w, a), key, id)
    ensures MayHaveLanded(w, key, id) || a == Start(key, id)
  {
  }

  lemma StoreStaysOk(w: World, a: Action, key: Key)
    requires Honest(w) && Enabled(w, a)
    ensures StoreOk(Next(w, a), key)
  {
    assert TaskOk(w, key) && StoreOk(w, key);
    forall id | MayHaveLanded(Next(w, a), key, id) ensures MayHaveLanded(w, key, id) || a == Start(key, id) {
      LandedBefore(w, a, key, id);
    }
  }

  /** A task that starts hands its submission to the relay. */
  lemma StartedTaskIsOk(w: World, key: Key, id: SubmissionId)
    requires Honest(w) && Enabled(w, Start(key, id))
    ensures TaskOk(Next(w, Start(key, id)), key)
  {
    assert StoreOk(w, key);
    forall other | MayHaveLanded(Next(w, Start(key, id)), key, other)
      ensures MayHaveLanded(w, key, other) || other == id
    {
      LandedBefore(w, Start(key, id), key, other);
    }
  }

  lemma TaskStaysOk(w: World, a: Action, key: Key)
    requires Honest(w) && Enabled(w, a)
    ensures TaskOk(Next(w, a), key)
  {
    if a.Start? && a.key == key {
      StartedTaskIsOk(w, key, a.id);
    } else {
      assert TaskOk(w, key);
      forall id | MayHaveLanded(Next(w, a), key, id) ensures MayHaveLanded(w, key, id) {
        LandedBefore(w, a, key, id);
      }
    }
  }

  /** Waking the callers of a key tells them only of what executed. */
  lemma FinishKeepsCallerOk(w: World, key: Key, outcome: Outcome, c: CallerId)
    requires CallerOk(w, c)
    requires outcome.Replied? ==> outcome.id in w.executed && w.executed[outcome.id] == key
    ensures CallerOk(Finish(w, key, outcome), c)
  {
  }

  lemma CallerStaysOk(w: World, a: Action, c: CallerId)
    requires Honest(w) && Enabled(w, a)
    ensures CallerOk(Next(w, a), c)
  {
    assert CallerOk(w, c);
    match a
    case Start(key, _) =>
      assert StoreOk(w, key);
      if KnownExecuted(w.store, key) {
        FinishKeepsCallerOk(w, key, Replied(w.store[key].id), c);
      }
    case SeeOk(key) =>
      assert TaskOk(w, key);
      ExecutedForKey(w, key, w.tasks[key].id);
      FinishKeepsCallerOk(w.(store := w.store[key := Executed(w.tasks[key].id)]), key, Replied(w.tasks[key].id), c);
    case SeeRevert(key) =>
      FinishKeepsCallerOk(w.(store := AfterRevert(w.store, key, w.tasks[key].first)), key, Reverted, c);
    case SeeNothing(key) => FinishKeepsCallerOk(w, key, Lost, c);
    case Execute(id) => assert CallerOk(w, c) && FatesDisjoint(w);
    case _ =>
  }

  lemma ExecutedForKey(w: World, key: Key, id: SubmissionId)
    requires FatesDisjoint(w) && id in w.executed
    requires MayHaveLanded(w, key, id) || (id in w.reverted && w.reverted[id] == key)
    ensures w.executed[id] == key
  {
  }

  lemma LandedOne(w: World, key: Key) returns (id: SubmissionId)
    requires SomethingLanded(w, key)
    ensures MayHaveLanded(w, key, id)
  {
    if open :| open in w.wire && w.wire[open] == key {
      id := open;
    } else {
      id :| id in w.executed && w.executed[id] == key;
    }
  }

  /** Only a revert takes back that something may land. */
  lemma LandedStays(w: World, a: Action, key: Key, id: SubmissionId)
    requires FatesDisjoint(w) && Enabled(w, a) && MayHaveLanded(w, key, id)
    ensures MayHaveLanded(Next(w, a), key, id) || a == Revert(id)
  {
  }

  lemma LapsesStay(w: World, a: Action, key: Key)
    requires Honest(w) && Enabled(w, a) && key in Next(w, a).expired
    ensures SomethingLanded(Next(w, a), key)
  {
    if !(a.Revert? && w.wire[a.id] == key) {
      var id := LandedOne(w, key);
      LandedStays(w, a, key, id);
    }
  }

  lemma NextKeepsHonest(w: World, a: Action)
    requires Honest(w) && Enabled(w, a)
    ensures Honest(Next(w, a))
  {
    FatesStayDisjoint(w, a);
    forall key ensures TaskOk(Next(w, a), key) && StoreOk(Next(w, a), key) {
      TaskStaysOk(w, a, key);
      StoreStaysOk(w, a, key);
    }
    forall c ensures CallerOk(Next(w, a), c) {
      CallerStaysOk(w, a, c);
    }
    forall key | key in Next(w, a).expired ensures SomethingLanded(Next(w, a), key) {
      LapsesStay(w, a, key);
    }
  }

  lemma {:induction false} RunsAreHonest(run: seq<World>, i: nat)
    requires Run(run) && i < |run|
    ensures Honest(run[i])
  {
    if i > 0 {
      RunsAreHonest(run, i - 1);
      assert Step(run[i - 1], run[i]);
      var a :| Enabled(run[i - 1], a) && run[i] == Next(run[i - 1], a);
      NextKeepsHonest(run[i - 1], a);
    }
  }

  // ----- the theorems -----

  /** A caller told of success is told of a submission that executed; a caller told of a definite
      failure is told so only if no submission of the calldata has executed or still can, unless a
      record of it expired while one had or could. */
  lemma ReportsAreTruthful(run: seq<World>, i: nat, caller: CallerId)
    requires Run(run) && i < |run| && Enabled(run[i], Answer(caller))
    ensures match ReportTo(run[i], caller)
            case Success(id) => id in run[i].executed && run[i].executed[id] == run[i].callers[caller].key
            case DefiniteFailure => run[i].callers[caller].key !in run[i].expired
                                    ==> forall id :: !MayHaveLanded(run[i], run[i].callers[caller].key, id)
            case OutcomeUnknown => true
  {
    RunsAreHonest(run, i);
    assert CallerOk(run[i], caller);
    assert StoreOk(run[i], run[i].callers[caller].key);
  }

  /** Once a key is recorded as executed it stays so, and no step submits it again. */
  lemma ExecutedIsNeverResubmitted(run: seq<World>, i: nat, a: Action, key: Key)
    requires Run(run) && i < |run| && Enabled(run[i], a) && a != Expire(key)
    requires KnownExecuted(run[i].store, key)
    ensures KnownExecuted(Next(run[i], a).store, key) && Next(run[i], a).store[key] == run[i].store[key]
    ensures forall id :: id in Next(run[i], a).wire && Next(run[i], a).wire[id] == key ==> id in run[i].wire
  {
    RunsAreHonest(run, i);
    assert TaskOk(run[i], key);
  }

  /** While the task of a calldata waits for the relay, no second submission of it is made, and it goes
      on waiting until it ends; and the one of a first attempt is the only one that may land. */
  lemma SubmissionsAreSingleFlight(run: seq<World>, i: nat, a: Action, key: Key)
    requires Run(run) && i < |run| && Enabled(run[i], a)
    requires key in run[i].tasks && run[i].tasks[key].Submitting?
    ensures forall id :: MayHaveLanded(Next(run[i], a), key, id) ==> MayHaveLanded(run[i], key, id)
    ensures key in Next(run[i], a).tasks ==> Next(run[i], a).tasks[key] == run[i].tasks[key]
    ensures run[i].tasks[key].first && key !in run[i].expired ==>
              forall id :: MayHaveLanded(run[i], key, id) ==> id == run[i].tasks[key].id
  {
    RunsAreHonest(run, i);
    assert TaskOk(run[i], key);
    forall id | MayHaveLanded(Next(run[i], a), key, id) ensures MayHaveLanded(run[i], key, id) {
      LandedBefore(run[i], a, key, id);
    }
  }

  // ----- every caller is answered -----

  /** A run with the action of each step. */
  ghost predicate ActedRun(run: seq<World>, acts: seq<Action>) {
    && |run| == |acts| + 1 && run[0] == INITIAL
    && forall i :: 0 <= i < |acts| ==> Enabled(run[i], acts[i]) && run[i + 1] == Next(run[i], acts[i])
  }

  /** Whoever waits, waits for a live task. */
  ghost predicate Attended(w: World, c: CallerId) {
    c in w.callers && w.callers[c].Waiting? ==> w.callers[c].key in w.tasks
  }

  /** The action ends the task of the key, with this outcome. */
  predicate Ends(w: World, a: Action, key: Key, outcome: Outcome) {
    match a
    case Start(k, _) => k == key && KnownExecuted(w.store, key) && outcome == Replied(w.store[key].id)
    case SeeOk(k) => k == key && key in w.tasks && w.tasks[key].Submitting? && outcome == Replied(w.tasks[key].id)
    case SeeRevert(k) => k == key && outcome == Reverted
    case SeeNothing(k) => k == key && outcome == Lost
    case _ => false
  }

  lemma NextStaysAttended(w: World, a: Action, c: CallerId)
    requires Enabled(w, a) && Attended(w, c)
    ensures Attended(Next(w, a), c)
  {
  }

  /** In every run each caller asked for the key it is now waiting for, or was woken about, at a step
      `k` since which it has not left; and while it waits that key has a live task. */
  lemma {:induction false} CallersAwaitTheirOwn(run: seq<World>, acts: seq<Action>, n: nat, c: CallerId)
    returns (k: nat)
    requires ActedRun(run, acts) && n <= |acts| && c in run[n].callers
    ensures k < n && acts[k] == Submit(c, run[n].callers[c].key)
    ensures forall m :: k < m <= n ==> c in run[m].callers
    ensures Attended(run[n], c)
  {
    assert n > 0;
    var w, a := run[n - 1], acts[n - 1];
    assert Enabled(w, a) && run[n - 1 + 1] == Next(w, a);
    if c in w.callers {
      k := CallersAwaitTheirOwn(run, acts, n - 1, c);
      KeepsKey(w, a, c);
      NextStaysAttended(w, a, c);
    } else {
      k := n - 1;
    }
  }

  lemma KeepsKey(w: World, a: Action, c: CallerId)
    requires Enabled(w, a) && c in w.callers && c in Next(w, a).callers
    ensures Next(w, a).callers[c].key == w.callers[c].key
  {
  }

  /** A live task can always come to an end, and when it does every caller waiting for it is woken with
      its outcome; a reply is recorded, and no caller of another key is touched. */
  lemma EveryWaiterIsWoken(w: World, a: Action, key: Key, id: SubmissionId, c: CallerId)
    requires Enabled(w, a) && key in w.tasks && a != Crash
    ensures id !in w.wire && id !in w.executed && id !in w.reverted ==>
              Enabled(w, Start(key, id)) || Enabled(w, SeeNothing(key))
    ensures key !in Next(w, a).tasks <==> exists outcome :: Ends(w, a, key, outcome)
    ensures forall outcome :: Ends(w, a, key, outcome) ==>
              && (c in w.callers && w.callers[c] == Waiting(key) ==>
                    c in Next(w, a).callers && Next(w, a).callers[c] == Woken(key, outcome))
              && (outcome.Replied? ==> key in Next(w, a).store && Next(w, a).store[key] == Executed(outcome.id))
              && (c in w.callers && w.callers[c] != Waiting(key) ==>
                    c in Next(w, a).callers && Next(w, a).callers[c] == w.callers[c])
  {
    if key !in Next(w, a).tasks {
      var outcome := match a
                     case Start(k, _) => Replied(w.store[key].id)
                     case SeeOk(k) => Replied(w.tasks[key].id)
                     case SeeRevert(_) => Reverted
                     case _ => Lost;
      assert Ends(w, a, key, outcome);
    }
  }

  // ----- why records must not expire -----

  lemma Extend(run: seq<World>, a: Action) returns (longer: seq<World>)
    requires Run(run) && Enabled(run[|run| - 1], a)
    ensures Run(longer) && |longer| == |run| + 1 && longer[|run|] == Next(run[|run| - 1], a)
  {
    longer := run + [Next(run[|run| - 1], a)];
    forall i | 0 < i < |longer| ensures Step(longer[i - 1], longer[i]) {
      assert i < |run| ==> Step(run[i - 1], run[i]);
    }
  }

  /** A resend after the record expired reverts and is reported as a definite failure, although the
      first submission executed. */
  lemma ExpiryBreaksTruth() returns (run: seq<World>)
    ensures Run(run)
    ensures var w := run[|run| - 1];
            && Enabled(w, Answer(2)) && w.callers[2].key == 7
            && ReportTo(w, 2) == DefiniteFailure
            && 1 in w.executed && w.executed[1] == 7
  {
    run := [INITIAL];
    run := Extend(run, Submit(1, 7));
    run := Extend(run, Start(7, 1));
    run := Extend(run, Execute(1));
    run := Extend(run, SeeOk(7));
    run := Extend(run, Expire(7));
    run := Extend(run, Submit(2, 7));
    run := Extend(run, Start(7, 2));
    run := Extend(run, Revert(2));
    run := Extend(run, SeeRevert(7));
  }

  // ----- exactly which expiries break truth -----

  /** What follows a world, up to the next expiry of the key's record. */
  ghost predicate Continues(w: World, key: Key, worlds: seq<World>, acts: seq<Action>) {
    && |worlds| == |acts| + 1 && worlds[0] == w
    && forall i :: 0 <= i < |acts| ==>
         Enabled(worlds[i], acts[i]) && acts[i] != Expire(key) && worlds[i + 1] == Next(worlds[i], acts[i])
  }

  /** No caller of the key is about to be told of a definite failure while something landed or may. */
  ghost predicate Truthful(w: World, key: Key) {
    forall c :: Enabled(w, Answer(c)) && w.callers[c].key == key && ReportTo(w, c).DefiniteFailure? ==>
      !SomethingLanded(w, key)
  }

  ghost predicate StaysTruthful(w: World, key: Key) {
    forall worlds, acts :: Continues(w, key, worlds, acts) ==> Truthful(worlds[|acts|], key)
  }

  lemma {:induction false} ContinuationIsTruthful(w: World, key: Key, worlds: seq<World>, acts: seq<Action>, n: nat)
    requires Honest(w) && key !in w.expired && Continues(w, key, worlds, acts) && n <= |acts|
    ensures Honest(worlds[n]) && key !in worlds[n].expired
  {
    if n > 0 {
      ContinuationIsTruthful(w, key, worlds, acts, n - 1);
      assert Enabled(worlds[n - 1], acts[n - 1]) && worlds[n - 1 + 1] == Next(worlds[n - 1], acts[n - 1]);
      NextKeepsHonest(worlds[n - 1], acts[n - 1]);
    }
  }

  lemma UnlapsedIsTruthful(w: World, key: Key)
    requires Honest(w) && key !in w.expired
    ensures Truthful(w, key)
  {
    assert StoreOk(w, key);
    if SomethingLanded(w, key) {
      var id := LandedOne(w, key);
    }
  }

  /** An identifier above all of these. */
  lemma {:induction false} UnusedId(ids: set<SubmissionId>) returns (unused: SubmissionId)
    ensures forall x :: x in ids ==> x < unused
  {
    if y :| y in ids {
      var rest := UnusedId(ids - {y});
      unused := if y >= rest then y + 1 else rest;
      assert forall x :: x in ids ==> x == y || x in ids - {y};
    } else {
      unused := 0;
    }
  }

  lemma Continue(w: World, key: Key, worlds: seq<World>, acts: seq<Action>, a: Action)
    returns (longer: seq<World>, more: seq<Action>)
    requires Continues(w, key, worlds, acts) && Enabled(worlds[|acts|], a) && a != Expire(key)
    ensures Continues(w, key, longer, more) && longer[|more|] == Next(worlds[|acts|], a)
  {
    longer, more := worlds + [Next(worlds[|acts|], a)], acts + [a];
    forall i | 0 <= i < |more|
      ensures Enabled(longer[i], more[i]) && more[i] != Expire(key) && longer[i + 1] == Next(longer[i], more[i])
    {
      assert i < |acts| ==> longer[i] == worlds[i] && longer[i + 1] == worlds[i + 1] && more[i] == acts[i];
    }
  }

  function Restarted(w: World): World {
    Next(w, Crash)
  }

  function Rejoined(w: World, key: Key): World {
    Next(Restarted(w), Submit(0, key))
  }

  /** The resend of a calldata with no record, taken up by a new process. */
  function Resent(w: World, key: Key, id: SubmissionId): World {
    World(w.store[key := Pending], w.wire[id := key], w.executed, w.reverted, w.expired,
          map[key := Submitting(true, id)], map[0 := Waiting(key)])
  }

  lemma ResentByStart(w: World, key: Key, id: SubmissionId)
    requires key !in w.store && id !in w.wire && id !in w.executed && id !in w.reverted
    ensures Enabled(Rejoined(w, key), Start(key, id)) && Next(Rejoined(w, key), Start(key, id)) == Resent(w, key, id)
  {
    assert map[key := Scheduled][key := Submitting(true, id)] == map[key := Submitting(true, id)];
  }

  /** With no record, a resend after a restart counts as a first submission. */
  lemma ResendCountsAsFirst(w: World, key: Key, id: SubmissionId) returns (worlds: seq<World>, acts: seq<Action>)
    requires key !in w.store && id !in w.wire && id !in w.executed && id !in w.reverted
    ensures Continues(w, key, worlds, acts) && worlds[|acts|] == Resent(w, key, id)
  {
    ResentByStart(w, key, id);
    worlds, acts := Continue(w, key, [w], [], Crash);
    worlds, acts := Continue(w, key, worlds, acts, Submit(0, key));
    worlds, acts := Continue(w, key, worlds, acts, Start(key, id));
  }

  lemma ResendReverts(w: World, key: Key, id: SubmissionId, landed: SubmissionId) returns (w': World)
    requires id !in w.wire && id !in w.executed && id !in w.reverted && MayHaveLanded(w, key, landed)
    ensures Enabled(Resent(w, key, id), Revert(id)) && w' == Next(Resent(w, key, id), Revert(id))
    ensures Enabled(w', SeeRevert(key)) && w'.tasks[key].first && w'.callers == map[0 := Waiting(key)]
    ensures MayHaveLanded(w', key, landed)
  {
    w' := Next(Resent(w, key, id), Revert(id));
  }

  lemma SeenRevertMisleads(w: World, key: Key, landed: SubmissionId)
    requires Enabled(w, SeeRevert(key)) && w.tasks[key].first && w.callers == map[0 := Waiting(key)]
    requires MayHaveLanded(w, key, landed)
    ensures !Truthful(Next(w, SeeRevert(key)), key)
  {
    var w' := Next(w, SeeRevert(key));
    assert MayHaveLanded(w', key, landed);
    assert Enabled(w', Answer(0)) && ReportTo(w', 0).DefiniteFailure?;
  }

  /** When it reverts, its caller is told of a definite failure. */
  lemma ResendIsUntruthful(w: World, key: Key) returns (worlds: seq<World>, acts: seq<Action>)
    requires key !in w.store && SomethingLanded(w, key)
    ensures Continues(w, key, worlds, acts) && !Truthful(worlds[|acts|], key)
  {
    var id := UnusedId(w.wire.Keys + w.executed.Keys + w.reverted.Keys);
    var landed := LandedOne(w, key);
    worlds, acts := ResendCountsAsFirst(w, key, id);
    var w' := ResendReverts(w, key, id, landed);
    worlds, acts := Continue(w, key, worlds, acts, Revert(id));
    SeenRevertMisleads(w', key, landed);
    worlds, acts := Continue(w, key, worlds, acts, SeeRevert(key));
  }

  /** The expiry of a record keeps every later report of its calldata truthful, up to the next such
      expiry, if and only if no submission of it has executed or still can. */
  lemma ExpiryIsHarmlessExactlyIf(w: World, key: Key)
    requires Honest(w) && Enabled(w, Expire(key))
    ensures StaysTruthful(Next(w, Expire(key)), key) <==> !SomethingLanded(w, key)
  {
    var w' := Next(w, Expire(key));
    NextKeepsHonest(w, Expire(key));
    if SomethingLanded(w, key) {
      assert SomethingLanded(w', key) by {
        var id := LandedOne(w, key);
        assert MayHaveLanded(w', key, id);
      }
      var worlds, acts := ResendIsUntruthful(w', key);
    } else {
      forall worlds, acts | Continues(w', key, worlds, acts) ensures Truthful(worlds[|acts|], key) {
        ContinuationIsTruthful(w', key, worlds, acts, |acts|);
        UnlapsedIsTruthful(worlds[|acts|], key);
      }
    }
  }

  // ----- the service's code between two awaits -----

  /** Durable records keyed by calldata hash. */
  class AccountingStore {
    var calls: Store

    method Get(key: Key) returns (call: Option<Call>)
      ensures call == if key in calls then Some(calls[key]) else None
    {
      if key in calls {
        return Some(calls[key]);
      }
      return None;
    }

    method Put(key: Key, call: Call)
      modifies this
      ensures calls == old(calls)[key := call]
    {
      calls := calls[key := call];
    }

    method Delete(key: Key)
      modifies this
      ensures calls == old(calls) - {key}
    {
      calls := calls - {key};
    }
  }

  class AccountingContractService {
    const store: AccountingStore
    var submissions: set<Key>   // keys with a live task

    constructor (store: AccountingStore)
      ensures this.store == store && submissions == {}
    {
      this.store := store;
      submissions := {};
    }

    /** A caller's first step: whether it has to create the task. */
    method Join(key: Key) returns (create: bool)
      modifies this
      ensures create == (key !in old(submissions)) && submissions == old(submissions) + {key}
    {
      create := key !in submissions;
      if create {
        submissions := submissions + {key};
      }
    }

    /** The task up to the relay; an executed call is answered at once and not submitted. */
    method BeginSubmission(key: Key) returns (earlier: Option<Call>, answered: Option<SubmissionId>)
      modifies this, store
      ensures answered.Some? == KnownExecuted(old(store.calls), key)
      ensures answered.Some? ==>
                old(store.calls)[key] == Executed(answered.value) && submissions == old(submissions) - {key}
      ensures answered.None? ==> submissions == old(submissions)
      ensures earlier.None? == (key !in old(store.calls))
      ensures store.calls == AfterStart(old(store.calls), key)
    {
      answered := None;
      earlier := store.Get(key);
      if earlier.Some? && earlier.value.Executed? {
        submissions := submissions - {key};
        answered := Some(earlier.value.id);
        return;
      }
      store.Put(key, Pending);
    }

    /** The task after the relay's answer. */
    method EndSubmission(key: Key, earlier: Option<Call>, outcome: Outcome)
      modifies this, store
      ensures submissions == old(submissions) - {key}
      ensures store.calls == match outcome
                             case Replied(id) => old(store.calls)[key := Executed(id)]
                             case Reverted => AfterRevert(old(store.calls), key, earlier.None?)
                             case Lost => old(store.calls)
    {
      match outcome {
        case Replied(id) =>
          store.Put(key, Executed(id));
        case Reverted =>
          if earlier.None? {
            store.Delete(key);
          }
        case Lost =>
      }
      submissions := submissions - {key};
    }

    /** A woken caller's last step. */
    method Report(key: Key, outcome: Outcome) returns (report: Report)
      ensures report == ReportOf(store.calls, key, outcome)
    {
      if outcome.Replied? {
        return Success(outcome.id);
      }
      var call := store.Get(key);
      if call.None? {
        return DefiniteFailure;
      }
      return OutcomeUnknown;
    }

    /** A whole call, when nothing interrupts it and the relay answers `outcome`: a key with a live
        task is only joined.  An executed call is answered from its record; a revert is final only
        without an earlier record; every other failure leaves a pending record and an open outcome. */
    method SubmitSigned(key: Key, outcome: Outcome) returns (report: Option<Report>)
      modifies this, store
      ensures submissions == old(submissions)
      ensures report.None? <==> key in old(submissions)
      ensures report.None? ==> store.calls == old(store.calls)
      ensures report.Some? && KnownExecuted(old(store.calls), key) ==>
                report.value == Success(old(store.calls)[key].id) && store.calls == old(store.calls)
      ensures report.Some? && !KnownExecuted(old(store.calls), key) && outcome.Replied? ==>
                report.value == Success(outcome.id) && store.calls == old(store.calls)[key := Executed(outcome.id)]
      ensures report.Some? && outcome.Reverted? && key !in old(store.calls) ==>
                report.value == DefiniteFailure && store.calls == old(store.calls)
      ensures report.Some? && !KnownExecuted(old(store.calls), key) && !outcome.Replied?
              && !(outcome.Reverted? && key !in old(store.calls)) ==>
                report.value == OutcomeUnknown && store.calls == old(store.calls)[key := Pending]
    {
      var create := Join(key);
      if !create {
        return None;
      }
      var earlier, answered := BeginSubmission(key);
      if answered.Some? {
        return Some(Success(answered.value));
      }
      EndSubmission(key, earlier, outcome);
      var told := Report(key, outcome);
      return Some(told);
    }
  }
}
