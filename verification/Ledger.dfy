/** The Redis-free protocol: the tables, one clock and history variables, changed by
    any statement, of any process, on any id, at any time. */
module Ledger {
  import opened Types
  import opened Storage

  /** What became of a claim token. A completed claim is `closed` once CompleteJob's
      second statement has run. */
  datatype Outcome = Live | Completed(at: Time, closed: bool) | Errored | Reaped(when: Time) | Forced {
    predicate Lost() { Errored? || Reaped? }
  }

  /** History of one successful TryClaim: its place since the job's insert or last replay, when
      the current deadline was computed (`lease`) and how many extensions landed (`beats`). */
  datatype Claim = Claim(token: Id, run: Id, ordinal: nat, lease: Time, beats: nat, outcome: Outcome)

  /** All claims of one job in order; those since its insert or last replay start at `from`. */
  datatype History = History(claims: seq<Claim>, from: nat) {
    predicate Any() { |claims| > 0 }

    function Last(): Claim
      requires Any()
    {
      claims[|claims| - 1]
    }

    function WithLast(c: Claim): History
      requires Any()
    {
      this.(claims := claims[|claims| - 1 := c])
    }

    function Settled(outcome: Outcome): History {
      if Any() then WithLast(Last().(outcome := outcome)) else this
    }

    /** Number of claims since the insert or last replay. */
    function Count(): int { |claims| - from }
  }

  /** Where a token or a run belongs: a job and an index into its history. */
  datatype Place = Place(job: Id, index: nat)

  /** `hist` keeps the ids of cancelled jobs; `home` and `owner` hold every token and run ever used. */
  datatype Core = Core(now: Time, db: Db, hist: map<Id, History>, home: map<Id, Place>, owner: map<Id, Place>)

  const CLAIM_LEASE: int := 60 * SECOND
  const BEAT_LEASE: int := 15 * SECOND

  function LeaseLength(beats: nat): int { if beats == 0 then CLAIM_LEASE else BEAT_LEASE }

  datatype Step =
    | Tick(span: nat)
    | Submit(id: Id, row: Job)
    | Cancel(id: Id, tenant: Id)
    | Replay(id: Id, scope: Option<Id>)
    | ForceFail(id: Id)
    | PromoteScheduled(id: Id)
    | PromoteFailed(id: Id)
    | Reap(id: Id)
    | DeadLetter(id: Id)
    | TryClaim(id: Id, worker: Id, token: Id, run: Id, base: Time)
    | MarkRunning(id: Id, token: Id)
    | Extend(id: Id, token: Id, base: Time)
    | Complete(id: Id, token: Id, at: Time)
    | CompleteRun(id: Id)
    | Fail(id: Id, token: Id, run: Id, error: string, nextRunAt: Option<Time>)

  /** The row handleSubmitJob or fireSchedule builds, `now` being the clock at insertion. */
  predicate FreshRow(j: Job, now: Time) {
    && (j.state.Pending? || j.state.Scheduled?)
    && (j.state.Pending? ==> j.runAt <= now)
    && j.attempt == 0 && j.token == None && j.deadline == None && j.completedAt == None
    && j.claimedAt == None && j.claimedBy == None && j.lastError == None
  }

  /** CompleteJob's first statement has succeeded for `id` and its second has not run. */
  predicate HalfComplete(c: Core, id: Id) {
    && id in c.hist && c.hist[id].Any()
    && c.hist[id].Last().outcome.Completed? && !c.hist[id].Last().outcome.closed
  }

  /** New UUIDs are fresh; deadlines are computed before the statement that carries them
      runs; FailJob passes the run its own TryClaim returned. */
  predicate Enabled(c: Core, st: Step) {
    match st
    case Submit(id, row) => id !in c.hist && FreshRow(row, c.now)
    case TryClaim(_, _, token, run, base) => token !in c.home && run !in c.owner && base <= c.now
    case Extend(_, _, base) => base <= c.now
    case CompleteRun(id) => HalfComplete(c, id)
    case Fail(id, token, run, _, _) =>
      id in c.hist && c.hist[id].Any() && c.hist[id].Last().token == token ==> c.hist[id].Last().run == run
    case _ => true
  }

  function HistoryOf(c: Core, id: Id): History {
    if id in c.hist then c.hist[id] else History([], 0)
  }

  function Settle(c: Core, id: Id, outcome: Outcome): map<Id, History> {
    c.hist[id := HistoryOf(c, id).Settled(outcome)]
  }

  function Apply(c: Core, st: Step): Core
    requires Enabled(c, st)
  {
    match st
    case Tick(span) => c.(now := c.now + span)
    case Submit(id, row) =>
      if Insertable(c.db, id, row)
      then c.(db := AfterInsert(c.db, id, row), hist := c.hist[id := History([], 0)])
      else c
    case Cancel(id, tenant) => c.(db := AfterCancel(c.db, id, tenant))
    case Replay(id, scope) =>
      if Replayable(c.db, id, scope)
      then
        var h := HistoryOf(c, id);
        c.(db := AfterReplay(c.db, id, scope), hist := c.hist[id := h.(from := |h.claims|)])
      else c
    case ForceFail(id) =>
      if id in c.db.jobs && c.db.jobs[id].state.InFlight()
      then c.(db := AfterForceFail(c.db, id), hist := Settle(c, id, Forced))
      else c.(db := AfterForceFail(c.db, id))
    case PromoteScheduled(id) => c.(db := AfterPromoteScheduled(c.db, id))
    case PromoteFailed(id) => c.(db := AfterPromoteFailed(c.db, id, c.now))
    case Reap(id) =>
      if id in c.db.jobs && Stale(c.db.jobs[id], c.now)
      then c.(db := AfterRequeue(c.db, id, c.now), hist := Settle(c, id, Reaped(c.now)))
      else c.(db := AfterRequeue(c.db, id, c.now))
    case DeadLetter(id) => c.(db := AfterDeadLetter(c.db, id))
    case TryClaim(id, worker, token, run, base) =>
      if Claimable(c.db, id)
      then
        var h := HistoryOf(c, id);
        var place := Place(id, |h.claims|);
        var claim := Claim(token, run, Max(0, h.Count()), base, 0, Live);
        c.(db := AfterTryClaim(c.db, id, worker, token, run, base + CLAIM_LEASE, c.now),
           hist := c.hist[id := h.(claims := h.claims + [claim])],
           home := c.home[token := place],
           owner := c.owner[run := place])
      else c
    case MarkRunning(id, token) => c.(db := AfterMarkRunning(c.db, id, token))
    case Extend(id, token, base) =>
      if Holds(c.db, id, token)
      then
        var h := HistoryOf(c, id);
        c.(db := AfterExtendDeadline(c.db, id, token, base + BEAT_LEASE),
           hist := c.hist[id := if h.Any()
                                then h.WithLast(h.Last().(lease := base, beats := h.Last().beats + 1))
                                else h])
      else c
    case Complete(id, token, at) =>
      if Holds(c.db, id, token)
      then c.(db := AfterComplete(c.db, id, token, at), hist := Settle(c, id, Completed(at, false)))
      else c
    case CompleteRun(id) =>
      var last := c.hist[id].Last();
      c.(db := AfterCompleteRun(c.db, last.run, last.outcome.at), hist := Settle(c, id, Completed(last.outcome.at, true)))
    case Fail(id, token, run, error, nextRunAt) =>
      if Holds(c.db, id, token)
      then c.(db := AfterFail(c.db, id, run, token, error, nextRunAt, c.now), hist := Settle(c, id, Errored))
      else c
  }

  predicate Init(c: Core) {
    c.db == Db(map[], map[], map[]) && c.hist == map[] && c.home == map[] && c.owner == map[]
  }

  /** A run: states `cs` linked by `sts`. */
  predicate IsRun(cs: seq<Core>, sts: seq<Step>) {
    && |cs| == |sts| + 1
    && forall i :: 0 <= i < |sts| ==> Enabled(cs[i], sts[i]) && cs[i + 1] == Apply(cs[i], sts[i])
  }
}
