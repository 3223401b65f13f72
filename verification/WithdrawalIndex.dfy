/**
 The incremental index over the contract's append-only array of withdrawals, read through nodes
 that may lag, in batches that may fail, by refreshes and listings that run concurrently.
 */
module WithdrawalIndex {
  import opened Arithmetic
  import opened Options
  import SortedSeqs

  type User = int
  type TaskId = int

  /** A withdrawal as a node reports it; `resolved` is the only part that ever changes. */
  datatype Withdrawal = Withdrawal(user: User, resolved: bool)

  const BATCH_SIZE: nat := 50

  /** What the index keeps of an unresolved withdrawal. */
  datatype Entry = Entry(index: nat, user: User)

  type Index = map<nat, Entry>

  /** A task of `_unresolved_withdrawal_entries`, for one user or for all. */
  datatype Task =
    | ReadCount(user: Option<User>)
    | WaitLock(user: Option<User>, count: nat)
    | ReadBatch(user: Option<User>, count: nat, next: nat)
    | Reread(user: Option<User>, count: nat, candidates: seq<nat>, mark: nat)

  datatype World = World(
    chain: seq<Withdrawal>,
    scanned: nat,
    unresolved: Index,
    lock: Option<TaskId>,
    tasks: map<TaskId, Task>)

  predicate Wanted(user: Option<User>, entry: Entry) {
    user.None? || entry.user == user.value
  }

  /** The entries of the user below `n`, in index order. */
  function CandidatesBelow(unresolved: Index, user: Option<User>, n: nat): seq<nat> {
    if n == 0 then []
    else CandidatesBelow(unresolved, user, n - 1)
         + if n - 1 in unresolved && Wanted(user, unresolved[n - 1]) then [n - 1] else []
  }

  /** Record the batch of `results` read from `start` on. */
  function Indexed(unresolved: Index, start: nat, results: seq<Withdrawal>): Index {
    if results == [] then unresolved
    else
      var last := |results| - 1;
      var before := Indexed(unresolved, start, results[..last]);
      if results[last].resolved then before else before[start + last := Entry(start + last, results[last].user)]
  }

  /** A candidate is listed when its re-read does not show it resolved and it is still indexed. */
  function Listed(unresolved: Index, candidates: seq<nat>, resolved: set<nat>): seq<Entry> {
    if candidates == [] then []
    else
      var last := |candidates| - 1;
      Listed(unresolved, candidates[..last], resolved)
      + if candidates[last] !in resolved && candidates[last] in unresolved then [unresolved[candidates[last]]] else []
  }

  datatype Action =
    | Begin(t: TaskId, user: Option<User>)
    | SeeCount(t: TaskId, count: nat)
    | AcquireLock(t: TaskId)
    | SeeBatch(t: TaskId, results: seq<Withdrawal>)
    | SeeReread(t: TaskId, resolved: set<nat>)
    | Fail(t: TaskId)
    | Append(owner: User)
    | Resolve(index: nat)
    | Restart

  function BatchEnd(count: nat, next: nat): nat {
    Min(next + BATCH_SIZE, count)
  }

  /** A node's answer about index `i`: an entry it shows resolved is resolved, but it may lag. */
  predicate Plausible(chain: seq<Withdrawal>, i: nat, seen: Withdrawal) {
    i < |chain| && seen.user == chain[i].user && (seen.resolved ==> chain[i].resolved)
  }

  predicate Enabled(w: World, a: Action) {
    match a
    case Begin(t, _) => t !in w.tasks
    case SeeCount(t, count) => t in w.tasks && w.tasks[t].ReadCount? && count <= |w.chain|
    case AcquireLock(t) => t in w.tasks && w.tasks[t].WaitLock? && w.lock.None?
    case SeeBatch(t, results) =>
      && t in w.tasks && w.tasks[t].ReadBatch?
      && var task := w.tasks[t];
      && |results| == BatchEnd(task.count, task.next) - task.next
      && forall k :: 0 <= k < |results| ==> Plausible(w.chain, task.next + k, results[k])
    case SeeReread(t, resolved) =>
      && t in w.tasks && w.tasks[t].Reread?
      // only candidates below the observed count are read again
      && forall i :: i in resolved ==>
           i in w.tasks[t].candidates && i < w.tasks[t].count && i < |w.chain| && w.chain[i].resolved
    case Fail(t) => t in w.tasks
    case Append(_) => true
    case Resolve(index) => index < |w.chain|
    case Restart => true
  }

  /** The refresh returns `count`; the candidates are picked at once. */
  function StartReread(w: World, t: TaskId, user: Option<User>, count: nat): World {
    var candidates := CandidatesBelow(w.unresolved, user, w.scanned);
    w.(tasks := w.tasks[t := Reread(user, count, candidates, Max(count, w.scanned))],
       lock := if w.lock == Some(t) then None else w.lock)
  }

  function Next(w: World, a: Action): World
    requires Enabled(w, a)
  {
    match a
    case Begin(t, user) => w.(tasks := w.tasks[t := ReadCount(user)])
    case SeeCount(t, count) =>
      if count <= w.scanned then StartReread(w, t, w.tasks[t].user, count)
      else w.(tasks := w.tasks[t := WaitLock(w.tasks[t].user, count)])
    case AcquireLock(t) =>
      var task := w.tasks[t];
      // a refresh that held the lock meanwhile may have indexed these
      if task.count <= w.scanned then StartReread(w, t, task.user, task.count)
      else w.(lock := Some(t), tasks := w.tasks[t := ReadBatch(task.user, task.count, w.scanned)])
    case SeeBatch(t, results) =>
      var task := w.tasks[t];
      var end := BatchEnd(task.count, task.next);
      var w' := w.(unresolved := Indexed(w.unresolved, task.next, results), scanned := end);
      if end == task.count then StartReread(w', t, task.user, task.count)
      else w'.(tasks := w.tasks[t := ReadBatch(task.user, task.count, end)])
    case SeeReread(t, resolved) => w.(unresolved := w.unresolved - resolved, tasks := w.tasks - {t})
    case Fail(t) => w.(tasks := w.tasks - {t}, lock := if w.lock == Some(t) then None else w.lock)
    case Append(owner) => w.(chain := w.chain + [Withdrawal(owner, false)])
    case Resolve(index) => w.(chain := w.chain[index := w.chain[index].(resolved := true)])
    case Restart => World(w.chain, 0, map[], None, map[])
  }

  /** What `SeeReread(t, resolved)` returns to its caller. */
  function Listing(w: World, t: TaskId, resolved: set<nat>): seq<Entry>
    requires Enabled(w, SeeReread(t, resolved))
  {
    Listed(w.unresolved, w.tasks[t].candidates, resolved)
  }

  const INITIAL := World([], 0, map[], None, map[])

  ghost predicate Step(w: World, w': World) {
    exists a :: Enabled(w, a) && w' == Next(w, a)
  }

  ghost predicate Run(run: seq<World>) {
    && |run| > 0 && run[0] == INITIAL
    && forall i :: 0 < i < |run| ==> Step(run[i - 1], run[i])
  }

  /** A run with the action of each step. */
  ghost predicate ActedRun(run: seq<World>, acts: seq<Action>) {
    && |run| == |acts| + 1 && run[0] == INITIAL
    && forall i :: 0 <= i < |acts| ==> Enabled(run[i], acts[i]) && run[i + 1] == Next(run[i], acts[i])
  }

  lemma ActedRunIsRun(run: seq<World>, acts: seq<Action>)
    requires ActedRun(run, acts)
    ensures Run(run)
  {
    forall i | 0 < i < |run| ensures Step(run[i - 1], run[i]) {
      assert Enabled(run[i - 1], acts[i - 1]) && run[i - 1 + 1] == Next(run[i - 1], acts[i - 1]);
    }
  }

  // ----- the invariant -----

  ghost predicate Increasing(s: seq<nat>) {
    forall i, j :: 0 <= i < j < |s| ==> s[i] < s[j]
  }

  /** On-chain, unresolved and of the user. */
  predicate Open(chain: seq<Withdrawal>, user: Option<User>, i: nat) {
    i < |chain| && !chain[i].resolved && Wanted(user, Entry(i, chain[i].user))
  }

  ghost predicate IndexOk(chain: seq<Withdrawal>, scanned: nat, unresolved: Index) {
    && scanned <= |chain|
    && (forall i: nat :: i < scanned && !chain[i].resolved ==> i in unresolved)
    && (forall i :: i in unresolved ==> i < scanned && unresolved[i] == Entry(i, chain[i].user))
  }

  ghost predicate CandidatesOk(chain: seq<Withdrawal>, scanned: nat, user: Option<User>, candidates: seq<nat>,
                               mark: nat) {
    && mark <= scanned <= |chain|
    && Increasing(candidates)
    && (forall i :: i in candidates ==> i < mark && Wanted(user, Entry(i, chain[i].user)))
    && (forall i: nat :: i < mark && Open(chain, user, i) ==> i in candidates)
  }

  ghost predicate TaskOk(w: World, t: TaskId, task: Task) {
    match task
    case ReadCount(_) => true
    case WaitLock(_, count) => count <= |w.chain|
    case ReadBatch(_, count, next) => w.lock == Some(t) && next == w.scanned < count <= |w.chain|
    case Reread(user, count, candidates, mark) =>
      count <= mark && CandidatesOk(w.chain, w.scanned, user, candidates, mark)
  }

  ghost predicate Indexes(w: World) {
    && IndexOk(w.chain, w.scanned, w.unresolved)
    && (forall t :: t in w.tasks ==> TaskOk(w, t, w.tasks[t]))
  }

  // ----- one action keeps it -----

  lemma {:induction false} CandidatesBelowOk(chain: seq<Withdrawal>, scanned: nat, unresolved: Index,
                                             user: Option<User>, n: nat)
    requires IndexOk(chain, scanned, unresolved) && n <= scanned
    ensures CandidatesOk(chain, scanned, user, CandidatesBelow(unresolved, user, n), n)
  {
    if n > 0 {
      CandidatesBelowOk(chain, scanned, unresolved, user, n - 1);
      var before := CandidatesBelow(unresolved, user, n - 1);
      assert forall k :: 0 <= k < |before| ==> before[k] in before;
    }
  }

  lemma {:induction false} IndexedOk(chain: seq<Withdrawal>, scanned: nat, unresolved: Index, results: seq<Withdrawal>)
    requires IndexOk(chain, scanned, unresolved)
    requires forall k :: 0 <= k < |results| ==> Plausible(chain, scanned + k, results[k])
    ensures IndexOk(chain, scanned + |results|, Indexed(unresolved, scanned, results))
  {
    if results != [] {
      var last := |results| - 1;
      assert Plausible(chain, scanned + last, results[last]);
      IndexedOk(chain, scanned, unresolved, results[..last]);
    }
  }

  /** More of the array, and more resolutions, take nothing from a set of candidates. */
  lemma CandidatesStayOk(chain: seq<Withdrawal>, chain': seq<Withdrawal>, scanned: nat, scanned': nat,
                         user: Option<User>, candidates: seq<nat>, mark: nat)
    requires CandidatesOk(chain, scanned, user, candidates, mark)
    requires Evolves(chain, chain') && scanned <= scanned' <= |chain'|
    ensures CandidatesOk(chain', scanned', user, candidates, mark)
  {
    forall i: nat | i < mark && Open(chain', user, i) ensures i in candidates {
      assert Open(chain, user, i);
    }
  }

  ghost predicate Evolves(chain: seq<Withdrawal>, chain': seq<Withdrawal>) {
    && |chain| <= |chain'|
    && (forall i :: 0 <= i < |chain| ==> chain'[i].user == chain[i].user && (chain[i].resolved ==> chain'[i].resolved))
  }

  lemma IndexStaysOk(w: World, a: Action)
    requires Indexes(w) && Enabled(w, a)
    ensures var w' := Next(w, a); IndexOk(w'.chain, w'.scanned, w'.unresolved)
    ensures Evolves(w.chain, Next(w, a).chain)
    ensures a.Restart? || w.scanned <= Next(w, a).scanned
  {
    if a.SeeBatch? {
      assert TaskOk(w, a.t, w.tasks[a.t]);
      IndexedOk(w.chain, w.scanned, w.unresolved, a.results);
    }
  }

  /** A task that an action leaves alone is still in order. */
  lemma IdleTaskStaysOk(w: World, a: Action, t: TaskId)
    requires Indexes(w) && Enabled(w, a) && t in w.tasks && t in Next(w, a).tasks && Next(w, a).tasks[t] == w.tasks[t]
    ensures TaskOk(Next(w, a), t, w.tasks[t])
  {
    var w', task := Next(w, a), w.tasks[t];
    IndexStaysOk(w, a);
    assert TaskOk(w, t, task);
    if task.Reread? {
      CandidatesStayOk(w.chain, w'.chain, w.scanned, w'.scanned, task.user, task.candidates, task.mark);
    }
  }

  /** A task that moves on to its re-read takes the index as it is. */
  lemma MovedTaskIsOk(w: World, a: Action, t: TaskId)
    requires Indexes(w) && Enabled(w, a) && t in Next(w, a).tasks
    requires t !in w.tasks || Next(w, a).tasks[t] != w.tasks[t]
    ensures TaskOk(Next(w, a), t, Next(w, a).tasks[t])
  {
    var w' := Next(w, a);
    IndexStaysOk(w, a);
    if t in w.tasks {
      assert TaskOk(w, t, w.tasks[t]);
    }
    if w'.tasks[t].Reread? {
      CandidatesBelowOk(w'.chain, w'.scanned, w'.unresolved, w'.tasks[t].user, w'.scanned);
    }
  }

  lemma TaskStaysOk(w: World, a: Action, t: TaskId)
    requires Indexes(w) && Enabled(w, a) && t in Next(w, a).tasks
    ensures TaskOk(Next(w, a), t, Next(w, a).tasks[t])
  {
    if t in w.tasks && Next(w, a).tasks[t] == w.tasks[t] {
      IdleTaskStaysOk(w, a, t);
    } else {
      MovedTaskIsOk(w, a, t);
    }
  }

  lemma {:induction false} RunsIndex(run: seq<World>, i: nat)
    requires Run(run) && i < |run|
    ensures Indexes(run[i])
  {
    if i > 0 {
      RunsIndex(run, i - 1);
      assert Step(run[i - 1], run[i]);
      var a :| Enabled(run[i - 1], a) && run[i] == Next(run[i - 1], a);
      IndexStaysOk(run[i - 1], a);
      forall t | t in run[i].tasks ensures TaskOk(run[i], t, run[i].tasks[t]) {
        TaskStaysOk(run[i - 1], a, t);
      }
    }
  }

  // ----- what a listing returns -----

  ghost predicate ByIndex(entries: seq<Entry>) {
    forall k, l :: 0 <= k < l < |entries| ==> entries[k].index < entries[l].index
  }

  lemma {:induction false} ListedIsExact(unresolved: Index, candidates: seq<nat>, resolved: set<nat>)
    requires Increasing(candidates) && forall i :: i in unresolved ==> unresolved[i].index == i
    ensures forall e :: e in Listed(unresolved, candidates, resolved)
              <==> e.index in candidates && e.index !in resolved && e.index in unresolved && unresolved[e.index] == e
    ensures ByIndex(Listed(unresolved, candidates, resolved))
  {
    if candidates != [] {
      var last := |candidates| - 1;
      ListedIsExact(unresolved, candidates[..last], resolved);
      var before := Listed(unresolved, candidates[..last], resolved);
      assert forall k :: 0 <= k < |before| ==> before[k] in before;
      assert candidates == candidates[..last] + [candidates[last]];
    }
  }

  /** The steps of the call that task `t` serves at world `n`: it began at step `b`, saw the count at
      step `c`, and its refresh had returned at world `k`. */
  ghost predicate Serves(run: seq<World>, acts: seq<Action>, n: nat, t: TaskId, b: nat, c: nat, k: nat)
    requires n <= |acts| < |run|
  {
    && t in run[n].tasks && b < n && acts[b] == Begin(t, run[n].tasks[t].user)
    && (forall m :: b < m <= n ==> t in run[m].tasks)
    && (!run[n].tasks[t].ReadCount? ==> b < c < n && acts[c] == SeeCount(t, run[n].tasks[t].count))
    && (run[n].tasks[t].Reread? ==>
          && c < k <= n && run[k].tasks[t] == run[n].tasks[t] && !run[k - 1].tasks[t].Reread?
          && run[n].tasks[t].mark == Max(run[n].tasks[t].count, run[k].scanned))
  }

  lemma OthersKeepTask(w: World, a: Action, t: TaskId)
    requires Enabled(w, a) && t in Next(w, a).tasks && !Acts(a, t)
    ensures t in w.tasks && Next(w, a).tasks[t] == w.tasks[t]
  {
  }

  predicate Acts(a: Action, t: TaskId) {
    match a
    case Begin(u, _) => u == t
    case SeeCount(u, _) => u == t
    case AcquireLock(u) => u == t
    case SeeBatch(u, _) => u == t
    case SeeReread(u, _) => u == t
    case Fail(u) => u == t
    case _ => false
  }

  /** What one of the call's own steps adds to its history. */
  lemma OwnStep(w: World, a: Action, t: TaskId)
    requires Enabled(w, a) && Acts(a, t) && t in w.tasks && t in Next(w, a).tasks
    ensures var task, task' := w.tasks[t], Next(w, a).tasks[t];
            && task'.user == task.user && !task.Reread? && !task'.ReadCount?
            && (if task.ReadCount? then a == SeeCount(t, task'.count) else task'.count == task.count)
            && (task'.Reread? ==> task'.mark == Max(task'.count, Next(w, a).scanned))
  {
  }

  /** One more step of the call, or of anything else. */
  lemma ServesOn(run: seq<World>, acts: seq<Action>, n: nat, t: TaskId, b: nat, c: nat, k: nat)
    returns (c': nat, k': nat)
    requires |run| == |acts| + 1 && n < |acts| && Enabled(run[n], acts[n]) && run[n + 1] == Next(run[n], acts[n])
    requires t in run[n].tasks && t in run[n + 1].tasks && Serves(run, acts, n, t, b, c, k)
    ensures Serves(run, acts, n + 1, t, b, c', k')
  {
    c' := if run[n].tasks[t].ReadCount? then n else c;
    k' := if run[n].tasks[t].Reread? then k else n + 1;
    if Acts(acts[n], t) {
      OwnStep(run[n], acts[n], t);
    } else {
      OthersKeepTask(run[n], acts[n], t);
    }
  }

  lemma {:induction false} TasksServe(run: seq<World>, acts: seq<Action>, n: nat, t: TaskId)
    returns (b: nat, c: nat, k: nat)
    requires ActedRun(run, acts) && n <= |acts| && t in run[n].tasks
    ensures Serves(run, acts, n, t, b, c, k)
  {
    assert n > 0;
    var a := acts[n - 1];
    assert Enabled(run[n - 1], a) && run[n - 1 + 1] == Next(run[n - 1], a);
    if a.Begin? && a.t == t {
      b, c, k := n - 1, 0, 0;
    } else {
      if !Acts(a, t) {
        OthersKeepTask(run[n - 1], a, t);
      }
      b, c, k := TasksServe(run, acts, n - 1, t);
      c, k := ServesOn(run, acts, n - 1, t, b, c, k);
    }
  }

  /** In every run, a listing was asked for at some step `b`, which names its user, saw a count at
      step `c`, and had its refresh back at world `k`.  It is in index order, contains only entries of
      that user that its own re-read did not show resolved, and misses no withdrawal of the user that
      is unresolved now and lies below that count or the scan mark of world `k`. */
  lemma ListingIsExact(run: seq<World>, acts: seq<Action>, n: nat, t: TaskId, resolved: set<nat>)
    returns (b: nat, c: nat, k: nat)
    requires ActedRun(run, acts) && n < |acts| && acts[n] == SeeReread(t, resolved)
    ensures b < c < k <= n && acts[b].Begin? && acts[b].t == t && acts[c].SeeCount? && acts[c].t == t
    ensures forall m :: b < m <= n ==> t in run[m].tasks
    ensures run[k].tasks[t].Reread? && !run[k - 1].tasks[t].Reread?
    ensures Enabled(run[n], SeeReread(t, resolved))
    ensures var listing, chain, user := Listing(run[n], t, resolved), run[n].chain, acts[b].user;
            && ByIndex(listing)
            && (forall e :: e in listing ==> e.index < |chain| && e == Entry(e.index, chain[e.index].user)
                                             && Wanted(user, e) && e.index !in resolved)
            && (forall j: nat :: j < Max(acts[c].count, run[k].scanned) && Open(chain, user, j) ==>
                  Entry(j, chain[j].user) in listing)
  {
    ActedRunIsRun(run, acts);
    RunsIndex(run, n);
    var w := run[n];
    assert Enabled(w, acts[n]);
    assert TaskOk(w, t, w.tasks[t]);
    b, c, k := TasksServe(run, acts, n, t);
    ListedIsExact(w.unresolved, w.tasks[t].candidates, resolved);
  }

  /** A listing drops what its re-read showed resolved, and as long as the process lives no refresh
      brings it back. */
  lemma {:induction false} ResolvedStaysDropped(run: seq<World>, acts: seq<Action>, i: nat, n: nat, t: TaskId,
                                                resolved: set<nat>, j: nat)
    requires ActedRun(run, acts) && i < n <= |acts| && acts[i] == SeeReread(t, resolved) && j in resolved
    requires forall m :: i < m < n ==> acts[m] != Restart
    ensures Dropped(run[n], j)
  {
    ActedStep(run, acts, n - 1);
    if n == i + 1 {
      RereadDrops(run[i], t, resolved, j);
    } else {
      ResolvedStaysDropped(run, acts, i, n - 1, t, resolved, j);
      DroppedStays(run[n - 1], acts[n - 1], run[n], j);
    }
  }

  lemma ActedStep(run: seq<World>, acts: seq<Action>, k: nat)
    requires ActedRun(run, acts) && k < |acts|
    ensures Indexes(run[k]) && Enabled(run[k], acts[k]) && run[k + 1] == Next(run[k], acts[k])
  {
    ActedRunIsRun(run, acts);
    RunsIndex(run, k);
  }

  lemma RereadDrops(w: World, t: TaskId, resolved: set<nat>, j: nat)
    requires Indexes(w) && Enabled(w, SeeReread(t, resolved)) && j in resolved
    ensures Dropped(Next(w, SeeReread(t, resolved)), j)
  {
    assert TaskOk(w, t, w.tasks[t]);
  }

  /** Scanned, and no longer indexed. */
  predicate Dropped(w: World, j: nat) {
    j < w.scanned && j !in w.unresolved
  }

  lemma DroppedStays(w: World, a: Action, w': World, j: nat)
    requires Indexes(w) && Enabled(w, a) && w' == Next(w, a) && a != Restart && Dropped(w, j)
    ensures Dropped(w', j)
  {
    if a.SeeBatch? {
      assert TaskOk(w, a.t, w.tasks[a.t]);
      IndexedAbove(w.unresolved, w.scanned, a.results);
    }
  }

  /** Only what a batch read showed unresolved is ever indexed, and so listed. */
  lemma {:induction false} IndexedWasSeenOpen(run: seq<World>, acts: seq<Action>, n: nat, j: nat)
    returns (m: nat, k: nat)
    requires ActedRun(run, acts) && n <= |acts| && j in run[n].unresolved
    ensures m < n && acts[m].SeeBatch? && k < |acts[m].results| && !acts[m].results[k].resolved
    ensures acts[m].t in run[m].tasks && run[m].tasks[acts[m].t].ReadBatch? && j == run[m].tasks[acts[m].t].next + k
  {
    assert n > 0;
    var w, a := run[n - 1], acts[n - 1];
    assert Enabled(w, a) && run[n - 1 + 1] == Next(w, a);
    if j in w.unresolved {
      m, k := IndexedWasSeenOpen(run, acts, n - 1, j);
    } else {
      m := n - 1;
      k := NewlyIndexed(w.unresolved, w.tasks[a.t].next, a.results, j);
    }
  }

  lemma {:induction false} NewlyIndexed(unresolved: Index, start: nat, results: seq<Withdrawal>, j: nat)
    returns (k: nat)
    requires j in Indexed(unresolved, start, results) && j !in unresolved
    ensures k < |results| && j == start + k && !results[k].resolved
  {
    var last := |results| - 1;
    if results != [] && j == start + last && !results[last].resolved {
      k := last;
    } else {
      k := NewlyIndexed(unresolved, start, results[..last], j);
    }
  }

  /** A batch indexes nothing below its start. */
  lemma {:induction false} IndexedAbove(unresolved: Index, start: nat, results: seq<Withdrawal>)
    ensures forall j: nat :: j < start ==> (j in Indexed(unresolved, start, results) <==> j in unresolved)
  {
    if results != [] {
      IndexedAbove(unresolved, start, results[..|results| - 1]);
    }
  }

  ghost predicate LockHeld(w: World) {
    w.lock.Some? ==> w.lock.value in w.tasks && w.tasks[w.lock.value].ReadBatch?
  }

  lemma NextKeepsLockHeld(w: World, a: Action)
    requires Indexes(w) && LockHeld(w) && Enabled(w, a)
    ensures LockHeld(Next(w, a))
  {
    if w.lock.Some? && Acts(a, w.lock.value) {
      assert TaskOk(w, w.lock.value, w.tasks[w.lock.value]);
    }
  }

  /** However refreshes fail, the lock is free unless a live task is reading a batch under it, so a
      task that waits can go on or waits for one that can. */
  lemma {:induction false} LockIsHeldByReader(run: seq<World>, i: nat)
    requires Run(run) && i < |run|
    ensures LockHeld(run[i])
  {
    if i > 0 {
      LockIsHeldByReader(run, i - 1);
      RunsIndex(run, i - 1);
      assert Step(run[i - 1], run[i]);
      var a :| Enabled(run[i - 1], a) && run[i] == Next(run[i - 1], a);
      NextKeepsLockHeld(run[i - 1], a);
    }
  }

  /** What scanning the whole array would list. */
  function FullScan(chain: seq<Withdrawal>, user: Option<User>, n: nat): seq<Entry>
    requires n <= |chain|
  {
    if n == 0 then []
    else FullScan(chain, user, n - 1) + if Open(chain, user, n - 1) then [Entry(n - 1, chain[n - 1].user)] else []
  }

  lemma {:induction false} FullScanIsExact(chain: seq<Withdrawal>, user: Option<User>, n: nat)
    requires n <= |chain|
    ensures forall e :: e in FullScan(chain, user, n) <==>
              e.index < n && Open(chain, user, e.index) && e == Entry(e.index, chain[e.index].user)
    ensures ByIndex(FullScan(chain, user, n))
  {
    if n > 0 {
      FullScanIsExact(chain, user, n - 1);
      var before := FullScan(chain, user, n - 1);
      assert forall k :: 0 <= k < |before| ==> before[k] in before;
    }
  }

  /** With a current count and a current re-read the listing is the full scan. */
  lemma CurrentListingIsFullScan(run: seq<World>, i: nat, t: TaskId, resolved: set<nat>)
    requires Run(run) && i < |run| && Enabled(run[i], SeeReread(t, resolved))
    requires run[i].tasks[t].count == |run[i].chain|
    requires forall j :: j in run[i].tasks[t].candidates && j < |run[i].chain| && run[i].chain[j].resolved ==>
               j in resolved
    ensures Listing(run[i], t, resolved) == FullScan(run[i].chain, run[i].tasks[t].user, |run[i].chain|)
  {
    var w, user := run[i], run[i].tasks[t].user;
    var listing, scan := Listing(w, t, resolved), FullScan(w.chain, user, |w.chain|);
    RunsIndex(run, i);
    assert TaskOk(w, t, w.tasks[t]);
    ListedIsExact(w.unresolved, w.tasks[t].candidates, resolved);
    FullScanIsExact(w.chain, user, |w.chain|);
    var less := (x: Entry, y: Entry) => x.index < y.index;
    forall e ensures e in listing <==> e in scan {
    }
    SortedSeqs.SortedIsUnique(listing, scan, less);
  }

  /** The scan mark never goes back while the process lives, and no open withdrawal below it is missed. */
  lemma ScanMarkOnlyGrows(run: seq<World>, i: nat, a: Action)
    requires Run(run) && i < |run| && Enabled(run[i], a) && a != Restart
    ensures run[i].scanned <= Next(run[i], a).scanned
    ensures var w := Next(run[i], a);
            w.scanned <= |w.chain| && forall j: nat :: j < w.scanned && !w.chain[j].resolved ==> j in w.unresolved
  {
    RunsIndex(run, i);
    IndexStaysOk(run[i], a);
  }

  // ----- the service's loops between two awaits -----

  class WithdrawalCache {
    var scanned: nat
    var unresolved: Index

    /** Index one batch; the mark moves only once the whole batch is in. */
    method RecordBatch(start: nat, results: seq<Withdrawal>)
      modifies this
      ensures unresolved == Indexed(old(unresolved), start, results)
      ensures scanned == start + |results|
    {
      for k := 0 to |results|
        invariant unresolved == Indexed(old(unresolved), start, results[..k])
      {
        assert results[..k + 1][..k] == results[..k];
        if !results[k].resolved {
          unresolved := unresolved[start + k := Entry(start + k, results[k].user)];
        }
      }
      assert results[..|results|] == results;
      scanned := start + |results|;
    }

    /** The indexed entries of the user, in index order. */
    method Candidates(user: Option<User>) returns (candidates: seq<nat>)
      ensures candidates == CandidatesBelow(unresolved, user, scanned)
    {
      candidates := [];
      for i := 0 to scanned
        invariant candidates == CandidatesBelow(unresolved, user, i)
      {
        if i in unresolved && Wanted(user, unresolved[i]) {
          candidates := candidates + [i];
        }
      }
    }

    /** Drop what the re-read showed resolved and list the rest. */
    method ListPending(candidates: seq<nat>, resolved: set<nat>) returns (pending: seq<Entry>)
      requires forall i :: i in resolved ==> i in candidates
      modifies this`unresolved
      ensures pending == Listed(old(unresolved), candidates, resolved)
      ensures unresolved == old(unresolved) - resolved
    {
      pending := [];
      for k := 0 to |candidates|
        invariant pending == Listed(old(unresolved), candidates[..k], resolved)
        invariant unresolved == old(unresolved) - (set i | i in candidates[..k] && i in resolved)
      {
        var index := candidates[k];
        assert candidates[..k + 1][..k] == candidates[..k];
        if index in resolved {
          unresolved := unresolved - {index};
          continue;
        }
        if index in unresolved {
          pending := pending + [unresolved[index]];
        }
      }
      assert candidates[..|candidates|] == candidates;
    }
  }
}
