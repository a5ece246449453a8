/** Idempotent submission: `handleSubmitJob` as an insert followed, on a key conflict, by a separate
    lookup, interleaved with other submissions and with every step of the protocol. */
module Submission {
  import opened Types
  import opened Storage
  import L = Ledger

  /** A tenant and a non-null idempotency key. */
  datatype Pair = Pair(tenant: Id, key: string)

  predicate Has(j: Job, p: Pair) { j.tenant == p.tenant && j.key == Some(p.key) }

  /** The row handleSubmitJob builds from a request, read at `now`. */
  method BuildJob(tenant: Id, priority: Option<int>, runAt: Option<Time>, maxRetries: Option<int>, backoff: Option<int>,
                  key: Option<string>, now: Time) returns (j: Job)
    ensures L.FreshRow(j, now)
    ensures j.state.Scheduled? <==> runAt.Some? && runAt.value > now
    ensures j.runAt == if j.state.Scheduled? then runAt.value else now
    ensures j.tenant == tenant && j.key == key
    ensures j.priority == priority.Or(5) && j.maxRetries == maxRetries.Or(3) && j.backoff == backoff.Or(30)
  {
    var prio := 5;
    if priority.Some? {
      prio := priority.value;
    }
    var retries := 3;
    if maxRetries.Some? {
      retries := maxRetries.value;
    }
    var pause := 30;
    if backoff.Some? {
      pause := backoff.value;
    }
    var at, state := now, Pending;
    if runAt.Some? && runAt.value > now {
      at, state := runAt.value, Scheduled;
    }
    j := Job(tenant, prio, state, at, None, None, None, None, 0, retries, pause, key, None, now, None);
  }

  /** A response carrying a job: 201 if `created`, 200 with the original otherwise. */
  datatype Answer = Answer(pair: Pair, id: Id, created: bool)

  /** `looking` holds the requests between the failed insert and their lookup. */
  datatype Front = Front(core: L.Core, looking: map<Id, Pair>, answers: seq<Answer>)

  datatype Move =
    | Insert(request: Id, id: Id, row: Job)
    | Lookup(request: Id)
    | Other(step: L.Step)

  /** Rows with a key come from submissions only; scheduled cron jobs have none. */
  ghost predicate Enabled(f: Front, m: Move) {
    match m
    case Insert(_, id, row) => L.Enabled(f.core, L.Submit(id, row))
    case Lookup(request) => request in f.looking
    case Other(step) => L.Enabled(f.core, step) && (step.Submit? ==> step.row.key.None?)
  }

  /** GetJobByIdempotencyKey */
  ghost predicate Finds(db: Db, p: Pair, id: Id) { id in db.jobs && Has(db.jobs[id], p) }

  /** A request whose row conflicts goes on to the lookup, a lookup that finds nothing answers 409. */
  ghost predicate Next(f: Front, m: Move, g: Front)
    requires Enabled(f, m)
  {
    match m
    case Insert(request, id, row) =>
      && g.core == L.Apply(f.core, L.Submit(id, row))
      && if Insertable(f.core.db, id, row)
         then
           && g.looking == f.looking
           && g.answers == if row.key.Some? then f.answers + [Answer(Pair(row.tenant, row.key.value), id, true)] else f.answers
         else
           && g.answers == f.answers
           && g.looking == if row.key.Some? then f.looking[request := Pair(row.tenant, row.key.value)] else f.looking
    case Lookup(request) =>
      && g.core == f.core && g.looking == f.looking - {request}
      && var p := f.looking[request];
      if exists id :: Finds(f.core.db, p, id)
      then exists id :: Finds(f.core.db, p, id) && g.answers == f.answers + [Answer(p, id, false)]
      else g.answers == f.answers
    case Other(step) => g == f.(core := L.Apply(f.core, step))
  }

  ghost predicate IsRun(fs: seq<Front>, ms: seq<Move>) {
    && |fs| == |ms| + 1
    && forall i :: 0 <= i < |ms| ==> Enabled(fs[i], ms[i]) && Next(fs[i], ms[i], fs[i + 1])
  }

  /** `UNIQUE (tenant_id, idempotency_key)` */
  ghost predicate AtMostOne(db: Db, p: Pair) {
    forall a, b :: Finds(db, p, a) && Finds(db, p, b) ==> a == b
  }

  /** The move deletes the row that holds the pair. */
  ghost predicate CancelsPair(f: Front, m: Move, p: Pair) {
    && m.Other? && m.step.Cancel? && Finds(f.core.db, p, m.step.id)
    && Cancellable(f.core.db, m.step.id, m.step.tenant)
  }

  ghost predicate KeepsPolicy(c: L.Core, d: L.Core, id: Id) {
    id in c.db.jobs && id in d.db.jobs ==>
      d.db.jobs[id].tenant == c.db.jobs[id].tenant && d.db.jobs[id].key == c.db.jobs[id].key
  }

  lemma StepKeepsPolicy(c: L.Core, st: L.Step, id: Id)
    requires L.Enabled(c, st)
    ensures KeepsPolicy(c, L.Apply(c, st), id)
    ensures id in c.db.jobs && !(st.Cancel? && st.id == id && Cancellable(c.db, id, st.tenant)) ==>
              id in L.Apply(c, st).db.jobs
    ensures id !in c.db.jobs && id in L.Apply(c, st).db.jobs ==>
              st.Submit? && st.id == id && Insertable(c.db, id, st.row) && L.Apply(c, st).db.jobs[id] == st.row
  {
  }

  function StepOf(m: Move): L.Step
    requires !m.Lookup?
  {
    if m.Insert? then L.Submit(m.id, m.row) else m.step
  }

  /** A row that newly holds the pair was inserted by this very move, and nobody held it before. */
  lemma NewHolder(f: Front, m: Move, g: Front, p: Pair, id: Id)
    requires Enabled(f, m) && Next(f, m, g) && Finds(g.core.db, p, id) && !Finds(f.core.db, p, id)
    ensures g.answers == f.answers + [Answer(p, id, true)]
    ensures forall k :: !Finds(f.core.db, p, k)
  {
    StepKeepsPolicy(f.core, StepOf(m), id);
    assert m.Insert? && m.id == id && Has(m.row, p);
  }

  /** Every answer names a row that holds its pair at that moment. */
  lemma AnswerHolds(f: Front, m: Move, g: Front)
    requires Enabled(f, m) && Next(f, m, g) && g.answers != f.answers
    ensures |g.answers| == |f.answers| + 1 && g.answers[..|f.answers|] == f.answers
    ensures var a := g.answers[|f.answers|];
            Finds(g.core.db, a.pair, a.id) && (a.created ==> forall k :: !Finds(f.core.db, a.pair, k))
  {
    if m.Insert? {
      NewHolder(f, m, g, Pair(m.row.tenant, m.row.key.value), m.id);
    }
  }

  /** At most one live row per pair, in every interleaving. */
  lemma StaysAtMostOne(f: Front, m: Move, g: Front, p: Pair)
    requires Enabled(f, m) && Next(f, m, g) && AtMostOne(f.core.db, p)
    ensures AtMostOne(g.core.db, p)
  {
    forall a, b | Finds(g.core.db, p, a) && Finds(g.core.db, p, b)
      ensures a == b
    {
      if !Finds(f.core.db, p, a) {
        NewHolder(f, m, g, p, a);
      } else if !Finds(f.core.db, p, b) {
        NewHolder(f, m, g, p, b);
      }
      if a != b && !Finds(f.core.db, p, a) && !Finds(f.core.db, p, b) {
        NewHolder(f, m, g, p, b);
      }
    }
  }

  lemma {:induction false} AlwaysAtMostOne(fs: seq<Front>, ms: seq<Move>, i: nat, p: Pair)
    requires IsRun(fs, ms) && i < |fs| && AtMostOne(fs[0].core.db, p)
    ensures AtMostOne(fs[i].core.db, p)
  {
    if i > 0 {
      AlwaysAtMostOne(fs, ms, i - 1, p);
      StaysAtMostOne(fs[i - 1], ms[i - 1], fs[i], p);
    }
  }

  /** A pair keeps its row unless that row is cancelled. */
  lemma KeepsRow(f: Front, m: Move, g: Front, p: Pair, id: Id)
    requires Enabled(f, m) && Next(f, m, g) && Finds(f.core.db, p, id) && !CancelsPair(f, m, p)
    ensures Finds(g.core.db, p, id)
  {
    if !m.Lookup? {
      StepKeepsPolicy(f.core, StepOf(m), id);
    }
  }

  /** Answers for the pair given since position `n` all name `id`. */
  ghost predicate AllName(answers: seq<Answer>, n: nat, p: Pair, id: Id) {
    forall i :: n <= i < |answers| && answers[i].pair == p ==> answers[i].id == id
  }

  function Created(answers: seq<Answer>, n: nat, p: Pair): nat
    decreases |answers| - n
  {
    if n >= |answers| then 0
    else (if answers[n].pair == p && answers[n].created then 1 else 0) + Created(answers, n + 1, p)
  }

  lemma {:induction false} CreatedAppend(answers: seq<Answer>, a: Answer, n: nat, p: Pair)
    requires n <= |answers|
    ensures Created(answers + [a], n, p) == Created(answers, n, p) + (if a.pair == p && a.created then 1 else 0)
    decreases |answers| - n
  {
    if n < |answers| {
      CreatedAppend(answers, a, n + 1, p);
      assert (answers + [a])[n] == answers[n];
    } else {
      assert (answers + [a])[n] == a;
    }
  }

  /** Since position `n` of the answers: either nobody has the pair yet and nobody was answered, or
      one row holds it, every answer names it, and it was created in this stretch iff it was missing. */
  ghost predicate Settled(f: Front, p: Pair, n: nat, missing: bool) {
    && n <= |f.answers| && AtMostOne(f.core.db, p)
    && if exists id :: Finds(f.core.db, p, id)
       then exists id :: Finds(f.core.db, p, id) && AllName(f.answers, n, p, id)
                         && Created(f.answers, n, p) == if missing then 1 else 0
       else missing && Created(f.answers, n, p) == 0 && forall i :: n <= i < |f.answers| ==> f.answers[i].pair != p
  }

  lemma StaysSettled(f: Front, m: Move, g: Front, p: Pair, n: nat, missing: bool)
    requires Enabled(f, m) && Next(f, m, g) && Settled(f, p, n, missing) && !CancelsPair(f, m, p)
    ensures Settled(g, p, n, missing)
  {
    StaysAtMostOne(f, m, g, p);
    if g.answers != f.answers {
      AnswerHolds(f, m, g);
      CreatedAppend(f.answers, g.answers[|f.answers|], n, p);
      assert g.answers == f.answers + [g.answers[|f.answers|]];
    }
    if id :| Finds(f.core.db, p, id) && AllName(f.answers, n, p, id) {
      KeepsRow(f, m, g, p, id);
    } else if id :| Finds(g.core.db, p, id) {
      NewHolder(f, m, g, p, id);
      assert AllName(g.answers, n, p, id);
    }
  }

  lemma {:induction false} RunStaysSettled(fs: seq<Front>, ms: seq<Move>, i: nat, k: nat, p: Pair, missing: bool)
    requires IsRun(fs, ms) && i <= k < |fs|
    requires forall x :: i <= x < k ==> !CancelsPair(fs[x], ms[x], p)
    requires AtMostOne(fs[i].core.db, p) && (missing <==> !exists id :: Finds(fs[i].core.db, p, id))
    ensures Settled(fs[k], p, |fs[i].answers|, missing)
    decreases k - i
  {
    if i < k {
      RunStaysSettled(fs, ms, i, k - 1, p, missing);
      StaysSettled(fs[k - 1], ms[k - 1], fs[k], p, |fs[i].answers|, missing);
    } else if id :| Finds(fs[i].core.db, p, id) {
      assert AllName(fs[i].answers, |fs[i].answers|, p, id);
    }
  }

  /** In every interleaving without a cancel of the pair's row: all successful submits of the pair
      return the same job, at most one of them created it, and exactly one if there was none before. */
  lemma IdempotentSubmission(fs: seq<Front>, ms: seq<Move>, i: nat, k: nat, p: Pair, x: nat, y: nat)
    requires IsRun(fs, ms) && i <= k < |fs| && AtMostOne(fs[i].core.db, p)
    requires forall z :: i <= z < k ==> !CancelsPair(fs[z], ms[z], p)
    requires |fs[i].answers| <= x < |fs[k].answers| && |fs[i].answers| <= y < |fs[k].answers|
    requires fs[k].answers[x].pair == p && fs[k].answers[y].pair == p
    ensures fs[k].answers[x].id == fs[k].answers[y].id
    ensures Finds(fs[k].core.db, p, fs[k].answers[x].id)
    ensures Created(fs[k].answers, |fs[i].answers|, p) == if exists id :: Finds(fs[i].core.db, p, id) then 0 else 1
  {
    RunStaysSettled(fs, ms, i, k, p, !exists id :: Finds(fs[i].core.db, p, id));
  }
}
