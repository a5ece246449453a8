/** The whole system: workers as program counters over `worker.process`, heartbeats in flight,
    scheduler passes acting on lists they read earlier, operators, and Redis, which may hold anything.
    Any number of workers and schedulers interleave and may stop anywhere. */
module Cluster {
  import opened Types
  import opened Storage
  import opened Backoff
  import opened Queue
  import Ledger

  /** Where one worker is in Dequeue, with the keys of the poll cycle it has yet to visit, or in `process`,
      with the local variables alive at that point. */
  datatype Worker =
    | Idle
    | Polling(keys: seq<Key>)
    | Got(id: Id)
    | Claiming(id: Id, token: Id, base: Time)
    | Fetching(id: Id, run: Id, token: Id)
    | Loaded(id: Id, run: Id, token: Id, snap: Job)
    | Executing(id: Id, run: Id, token: Id, snap: Job)
    | Completing(id: Id, run: Id, token: Id, at: Time)
    | Closing(id: Id, run: Id, token: Id, at: Time)
    | Failing(id: Id, run: Id, token: Id, snap: Job, failedAt: Time, next: Option<Time>, error: string)
    | Removing(id: Id)

  /** An ExtendDeadline on its way to Postgres. */
  datatype Beat = Beat(id: Id, token: Id, base: Time)

  datatype Kind = DuePoll | RetryPoll | StaleReap | Reconcile

  /** A row as a pass remembers it. */
  datatype Item = Item(id: Id, tenant: Id, priority: int, runAt: Time)

  /** A scheduler pass: what is left of its list, and an id it still has to push to Redis. */
  datatype Pass = Pass(kind: Kind, todo: seq<Item>, push: Option<Item>)

  /** `drawn` holds every UUID ever generated. */
  datatype Sys = Sys(now: Time, db: Db, lists: Lists, workers: map<Id, Worker>, beats: set<Beat>,
                     passes: map<Id, Pass>, drawn: set<Id>)

  function WorkerAt(s: Sys, w: Id): Worker {
    if w in s.workers then s.workers[w] else Idle
  }

  // ---- what the passes read ----

  const BATCH: nat := 500

  /** Which rows GetDueJobs, GetFailedReadyJobs, GetStaleClaims and GetPendingJobs ask for. */
  predicate Due(kind: Kind, j: Job, now: Time) {
    match kind
    case DuePoll => j.state.Scheduled? && j.runAt <= now
    case RetryPoll => j.state.Failed? && j.runAt <= now
    case StaleReap => Stale(j, now)
    case Reconcile => j.state.Pending? && j.runAt <= now - 60 * SECOND
  }

  function ItemOf(id: Id, j: Job): Item { Item(id, j.tenant, j.priority, j.runAt) }

  /** The order of the lists: by priority, then by `run_at`. */
  predicate NotAfter(a: Item, b: Item) {
    a.priority < b.priority || (a.priority == b.priority && a.runAt <= b.runAt)
  }

  ghost predicate Listed(items: seq<Item>, id: Id) {
    exists i :: 0 <= i < |items| && items[i].id == id
  }

  /** `items` is a possible result of the query of `kind`. */
  ghost predicate IsBatch(db: Db, kind: Kind, now: Time, items: seq<Item>) {
    && (forall i :: 0 <= i < |items| ==>
          && items[i].id in db.jobs
          && Due(kind, db.jobs[items[i].id], now)
          && items[i] == ItemOf(items[i].id, db.jobs[items[i].id]))
    && (forall i, k :: 0 <= i < k < |items| ==> items[i].id != items[k].id)
    && if kind.StaleReap?
       then forall id :: id in db.jobs && Due(kind, db.jobs[id], now) ==> Listed(items, id)
       else
         && |items| <= BATCH
         && (forall i, k :: 0 <= i < k < |items| ==> NotAfter(items[i], items[k]))
         && (forall id :: id in db.jobs && Due(kind, db.jobs[id], now) && !Listed(items, id) ==>
               |items| == BATCH && forall i :: 0 <= i < |items| ==> NotAfter(items[i], ItemOf(id, db.jobs[id])))
  }

  // ---- events ----

  datatype Event =
    | Advance(span: nat)
    | Submitted(id: Id, row: Job)
    | Cancelled(id: Id, tenant: Id)
    | Replayed(id: Id, scope: Option<Id>)
    | ForceFailed(id: Id)
    | Lettered(id: Id)
    | Redis(lists: Lists)
    | Cycle(w: Id, keys: seq<Key>)
    | Pop(w: Id)
    | Begin(w: Id, token: Id)
    | Claim(w: Id, run: Id, locked: bool)
    | Fetch(w: Id)
    | Mark(w: Id, lost: bool)
    | Finish(w: Id, ok: bool, delay: int, error: string)
    | CompleteFirst(w: Id)
    | CompleteSecond(w: Id)
    | RecordFailure(w: Id)
    | Release(w: Id)
    | Crash(w: Id)
    | SendBeat(w: Id)
    | LandBeat(beat: Beat)
    | LoseBeat(beat: Beat)
    | StartPass(p: Id, kind: Kind, items: seq<Item>)
    | Act(p: Id)
    | PushOne(p: Id)
    | Skip(p: Id)
    | EndPass(p: Id)

  /** `delay` seconds is a possible backoff for the attempt after the one in `snap`. */
  predicate RetryDelay(snap: Job, delay: int) {
    snap.backoff >= 0 ==> Possible(Delay(if snap.attempt + 1 < 0 then 0 else snap.attempt + 1, snap.backoff), delay)
  }

  ghost predicate Enabled(s: Sys, e: Event) {
    match e
    case Submitted(id, row) => id !in s.drawn && Ledger.FreshRow(row, s.now)
    case Cycle(w, keys) => WorkerAt(s, w).Idle? && keys != []
    case Pop(w) => WorkerAt(s, w).Polling? && WorkerAt(s, w).keys != []
    case Begin(w, token) => WorkerAt(s, w).Got? && token !in s.drawn
    case Claim(w, run, _) => WorkerAt(s, w).Claiming? && run !in s.drawn
    case Fetch(w) => WorkerAt(s, w).Fetching?
    case Mark(w, _) => WorkerAt(s, w).Loaded?
    case Finish(w, _, delay, _) => WorkerAt(s, w).Executing? && RetryDelay(WorkerAt(s, w).snap, delay)
    case CompleteFirst(w) => WorkerAt(s, w).Completing?
    case CompleteSecond(w) => WorkerAt(s, w).Closing?
    case RecordFailure(w) => WorkerAt(s, w).Failing?
    case Release(w) => WorkerAt(s, w).Removing?
    case SendBeat(w) => WorkerAt(s, w).Executing?
    case LandBeat(beat) => beat in s.beats
    case StartPass(p, kind, items) => p !in s.passes && IsBatch(s.db, kind, s.now, items)
    case Act(p) => p in s.passes && s.passes[p].push.None? && s.passes[p].todo != []
    case PushOne(p) => p in s.passes && s.passes[p].push.Some?
    case Skip(p) => p in s.passes
    case _ => true
  }

  function Move(s: Sys, w: Id, next: Worker): Sys { s.(workers := s.workers[w := next]) }

  /** One visit of a poll cycle: LMOVE from the next key. An empty list, or an entry that does not
      parse, sends the worker on to the key after it. */
  function AfterPop(s: Sys, w: Id): Sys
    requires WorkerAt(s, w).Polling? && WorkerAt(s, w).keys != []
  {
    var keys := WorkerAt(s, w).keys;
    var q := Queued(s.lists, keys[0]);
    var rest := if |keys| == 1 then Idle else Polling(keys[1..]);
    if q == [] then Move(s, w, rest)
    else
      Move(s.(lists := AfterMove(s.lists, keys[0], w)), w,
           if q[|q| - 1].Some? then Got(q[|q| - 1].value) else rest)
  }

  /** TryClaim; a row locked by another transaction is skipped. */
  function AfterClaim(s: Sys, w: Id, run: Id, locked: bool): Sys
    requires WorkerAt(s, w).Claiming?
  {
    var Claiming(id, token, base) := WorkerAt(s, w);
    if locked || !Claimable(s.db, id) then Move(s, w, Removing(id))
    else Move(s.(db := AfterTryClaim(s.db, id, w, token, run, base + Ledger.CLAIM_LEASE, s.now), drawn := s.drawn + {run}),
              w, Fetching(id, run, token))
  }

  /** GetJob; a job that is gone ends `process` without clearing the processing list. */
  function AfterFetch(s: Sys, w: Id): Sys
    requires WorkerAt(s, w).Fetching?
  {
    var Fetching(id, run, token) := WorkerAt(s, w);
    if id in s.db.jobs then Move(s, w, Loaded(id, run, token, s.db.jobs[id])) else Move(s, w, Idle)
  }

  /** The end of `execute`; on failure the retry time is computed from the snapshot. */
  function AfterFinish(s: Sys, w: Id, ok: bool, delay: int, error: string): Sys
    requires WorkerAt(s, w).Executing?
  {
    var Executing(id, run, token, snap) := WorkerAt(s, w);
    if ok then Move(s, w, Completing(id, run, token, s.now))
    else
      var next := if ShouldRetry(snap.attempt, snap.maxRetries) then Some(s.now + delay * SECOND) else None;
      Move(s, w, Failing(id, run, token, snap, s.now, next, error))
  }

  function AfterFirst(s: Sys, w: Id): Sys
    requires WorkerAt(s, w).Completing?
  {
    var Completing(id, run, token, at) := WorkerAt(s, w);
    if Holds(s.db, id, token)
    then Move(s.(db := AfterComplete(s.db, id, token, at)), w, Closing(id, run, token, at))
    else Move(s, w, Removing(id))
  }

  function AfterFailure(s: Sys, w: Id): Sys
    requires WorkerAt(s, w).Failing?
  {
    var Failing(id, run, token, _, _, next, error) := WorkerAt(s, w);
    Move(s.(db := AfterFail(s.db, id, run, token, error, next, s.now)), w, Removing(id))
  }

  /** RequeueStaleJob returned dead: a stale row matched and had no attempt left. */
  predicate ReapsToDead(s: Sys, id: Id) {
    id in s.db.jobs && Stale(s.db.jobs[id], s.now) && Retried(s.db.jobs[id], Pending).Dead?
  }

  /** The database half of one iteration; every kind but a fatal reap goes on to push the id,
      whether or not a row matched. */
  function AfterAct(s: Sys, p: Id): Sys
    requires p in s.passes && s.passes[p].todo != []
  {
    var pass := s.passes[p];
    var item := pass.todo[0];
    var db' := match pass.kind
               case DuePoll => AfterPromoteScheduled(s.db, item.id)
               case RetryPoll => AfterPromoteFailed(s.db, item.id, s.now)
               case StaleReap => AfterRequeue(s.db, item.id, s.now)
               case Reconcile => s.db;
    var push := if pass.kind.StaleReap? && ReapsToDead(s, item.id) then None else Some(item);
    s.(db := db', passes := s.passes[p := Pass(pass.kind, pass.todo[1..], push)])
  }

  function ItemKey(item: Item): Key { Key(item.tenant, BucketFor(item.priority)) }

  function AfterPushOne(s: Sys, p: Id): Sys
    requires p in s.passes && s.passes[p].push.Some?
  {
    var item := s.passes[p].push.value;
    s.(lists := AfterPush(s.lists, ItemKey(item), Some(item.id)),
       passes := s.passes[p := s.passes[p].(push := None)])
  }

  /** An error is logged and the loop continues with the next row. */
  function AfterSkip(s: Sys, p: Id): Sys
    requires p in s.passes
  {
    var pass := s.passes[p];
    s.(passes := s.passes[p := if pass.push.Some? || pass.todo == [] then pass.(push := None)
                               else pass.(todo := pass.todo[1..])])
  }

  function Apply(s: Sys, e: Event): Sys
    requires Enabled(s, e)
  {
    match e
    case Advance(span) => s.(now := s.now + span)
    case Submitted(id, row) => s.(db := AfterInsert(s.db, id, row), drawn := s.drawn + {id})
    case Cancelled(id, tenant) => s.(db := AfterCancel(s.db, id, tenant))
    case Replayed(id, scope) => s.(db := AfterReplay(s.db, id, scope))
    case ForceFailed(id) => s.(db := AfterForceFail(s.db, id))
    case Lettered(id) => s.(db := AfterDeadLetter(s.db, id))
    case Redis(lists) => s.(lists := lists)
    case Cycle(w, keys) => Move(s, w, Polling(keys))
    case Pop(w) => AfterPop(s, w)
    case Begin(w, token) => Move(s.(drawn := s.drawn + {token}), w, Claiming(WorkerAt(s, w).id, token, s.now))
    case Claim(w, run, locked) => AfterClaim(s, w, run, locked)
    case Fetch(w) => AfterFetch(s, w)
    case Mark(w, lost) =>
      var Loaded(id, run, token, snap) := WorkerAt(s, w);
      Move(if lost then s else s.(db := AfterMarkRunning(s.db, id, token)), w, Executing(id, run, token, snap))
    case Finish(w, ok, delay, error) => AfterFinish(s, w, ok, delay, error)
    case CompleteFirst(w) => AfterFirst(s, w)
    case CompleteSecond(w) =>
      var Closing(id, run, _, at) := WorkerAt(s, w);
      Move(s.(db := AfterCompleteRun(s.db, run, at)), w, Removing(id))
    case RecordFailure(w) => AfterFailure(s, w)
    case Release(w) => Move(s.(lists := AfterRemove(s.lists, w, WorkerAt(s, w).id)), w, Idle)
    case Crash(w) => Move(s, w, Idle)
    case SendBeat(w) => s.(beats := s.beats + {Beat(WorkerAt(s, w).id, WorkerAt(s, w).token, s.now)})
    case LandBeat(beat) =>
      s.(db := AfterExtendDeadline(s.db, beat.id, beat.token, beat.base + Ledger.BEAT_LEASE), beats := s.beats - {beat})
    case LoseBeat(beat) => s.(beats := s.beats - {beat})
    case StartPass(p, kind, items) => s.(passes := s.passes[p := Pass(kind, items, None)])
    case Act(p) => AfterAct(s, p)
    case PushOne(p) => AfterPushOne(s, p)
    case Skip(p) => AfterSkip(s, p)
    case EndPass(p) => s.(passes := s.passes - {p})
  }

  ghost predicate Init(s: Sys) {
    && s.db == Db(map[], map[], map[]) && s.workers == map[] && s.beats == {} && s.passes == map[]
  }

  ghost predicate IsRun(ss: seq<Sys>, es: seq<Event>) {
    && |ss| == |es| + 1
    && forall i :: 0 <= i < |es| ==> Enabled(ss[i], es[i]) && ss[i + 1] == Apply(ss[i], es[i])
  }
}
