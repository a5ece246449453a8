/** Theorems about whole runs of the Redis-free protocol: fencing, one outcome per token, claims that do not
    overlap, one recorded success, dead letters. */
module LedgerRuns {
  import opened Types
  import opened Storage
  import opened Ledger
  import opened LedgerInvariants

  // ---- every state of a run satisfies the invariant ----

  lemma InitInv(c: Core)
    requires Init(c)
    ensures Inv(c)
  {
  }

  lemma {:induction false} RunKeepsInv(cs: seq<Core>, sts: seq<Step>, i: nat)
    requires IsRun(cs, sts) && Inv(cs[0]) && i < |cs|
    ensures Inv(cs[i])
  {
    if i > 0 {
      RunKeepsInv(cs, sts, i - 1);
      StepKeepsInv(cs[i - 1], sts[i - 1]);
    }
  }

  // ---- what no step ever undoes ----

  /** `b` is the later record of claim `a`: once settled it stays, except that the second
      statement of CompleteJob may still close it. */
  ghost predicate LaterClaim(a: Claim, b: Claim) {
    && b.token == a.token && b.run == a.run && b.ordinal == a.ordinal
    && (!a.outcome.Live? ==>
          b == a || (a.outcome.Completed? && b == a.(outcome := Completed(a.outcome.at, true))))
  }

  ghost predicate LaterHistory(g: History, h: History) {
    && |g.claims| <= |h.claims| && g.from <= h.from
    && forall i :: 0 <= i < |g.claims| ==> LaterClaim(g.claims[i], h.claims[i])
  }

  /** Histories only grow and a succeeded row never changes again, nor disappears. */
  ghost predicate LaterJob(c: Core, d: Core, id: Id) {
    && (id in c.hist ==> id in d.hist && LaterHistory(c.hist[id], d.hist[id]))
    && (id in c.db.jobs && c.db.jobs[id].state.Succeeded? ==> id in d.db.jobs && d.db.jobs[id] == c.db.jobs[id])
    && (id in c.db.letters ==> id in d.db.letters && d.db.letters[id] == c.db.letters[id])
  }

  /** Runs are never deleted, renumbered or moved to another job; a succeeded run is final. */
  ghost predicate LaterRun(c: Core, d: Core, r: Id) {
    r in c.db.runs ==>
      && r in d.db.runs
      && d.db.runs[r].job == c.db.runs[r].job && d.db.runs[r].attempt == c.db.runs[r].attempt
      && d.db.runs[r].startedAt == c.db.runs[r].startedAt
      && (c.db.runs[r].state.Succeeded? ==> d.db.runs[r] == c.db.runs[r])
  }

  ghost predicate Later(c: Core, d: Core) {
    && c.now <= d.now
    && (forall id :: LaterJob(c, d, id))
    && (forall r :: LaterRun(c, d, r))
  }

  /** A step on one job leaves every other job's row and letter alone ... */
  lemma OtherRowsKept(c: Core, st: Step, id: Id)
    requires Enabled(c, st) && (st.Tick? || st.id != id)
    ensures var d := Apply(c, st);
            && (id in d.db.jobs <==> id in c.db.jobs)
            && (id in c.db.jobs ==> d.db.jobs[id] == c.db.jobs[id])
            && (id in d.db.letters <==> id in c.db.letters)
            && (id in c.db.letters ==> d.db.letters[id] == c.db.letters[id])
  {
  }

  /** ... and its history. */
  lemma OtherHistoriesKept(c: Core, st: Step, id: Id)
    requires Enabled(c, st) && (st.Tick? || st.id != id)
    ensures var d := Apply(c, st);
            && (id in d.hist <==> id in c.hist)
            && (id in c.hist ==> d.hist[id] == c.hist[id])
  {
  }

  lemma StepLaterHistory(c: Core, st: Step)
    requires Inv(c) && Enabled(c, st) && !st.Tick? && st.id in c.hist
    ensures st.id in Apply(c, st).hist && LaterHistory(c.hist[st.id], Apply(c, st).hist[st.id])
  {
    assert JobInv(c, st.id);
  }

  lemma StepLaterRow(c: Core, st: Step)
    requires Inv(c) && Enabled(c, st) && !st.Tick?
    ensures var d := Apply(c, st);
            && (st.id in c.db.jobs && c.db.jobs[st.id].state.Succeeded? ==>
                  st.id in d.db.jobs && d.db.jobs[st.id] == c.db.jobs[st.id])
            && (st.id in c.db.letters ==> st.id in d.db.letters && d.db.letters[st.id] == c.db.letters[st.id])
  {
    assert JobInv(c, st.id);
  }

  lemma StepLaterJob(c: Core, st: Step, id: Id)
    requires Inv(c) && Enabled(c, st)
    ensures LaterJob(c, Apply(c, st), id)
  {
    if st.Tick? || st.id != id {
      OtherRowsKept(c, st, id);
      OtherHistoriesKept(c, st, id);
    } else {
      StepLaterRow(c, st);
      if id in c.hist {
        StepLaterHistory(c, st);
      }
    }
  }

  lemma StepLaterRun(c: Core, st: Step, r: Id)
    requires Inv(c) && Enabled(c, st)
    ensures LaterRun(c, Apply(c, st), r)
  {
    assert RunInv(c, r);
    if !st.Tick? {
      assert JobInv(c, st.id);
    }
  }

  lemma StepLater(c: Core, st: Step)
    requires Inv(c) && Enabled(c, st)
    ensures Later(c, Apply(c, st))
  {
    forall id
      ensures LaterJob(c, Apply(c, st), id)
    {
      StepLaterJob(c, st, id);
    }
    forall r
      ensures LaterRun(c, Apply(c, st), r)
    {
      StepLaterRun(c, st, r);
    }
  }

  lemma LaterTransitive(c: Core, d: Core, e: Core)
    requires Later(c, d) && Later(d, e)
    ensures Later(c, e)
  {
    forall id
      ensures LaterJob(c, e, id)
    {
      assert LaterJob(c, d, id) && LaterJob(d, e, id);
    }
    forall r
      ensures LaterRun(c, e, r)
    {
      assert LaterRun(c, d, r) && LaterRun(d, e, r);
    }
  }

  /** Over any stretch of any run, nothing settled is ever undone. */
  lemma {:induction false} RunLater(cs: seq<Core>, sts: seq<Step>, i: nat, j: nat)
    requires IsRun(cs, sts) && Inv(cs[0]) && i <= j < |cs|
    ensures Later(cs[i], cs[j])
    decreases j - i
  {
    if i < j {
      RunLater(cs, sts, i, j - 1);
      RunKeepsInv(cs, sts, j - 1);
      StepLater(cs[j - 1], sts[j - 1]);
      LaterTransitive(cs[i], cs[j - 1], cs[j]);
    }
  }

  // ---- fencing ----

  /** The token a row carries belongs to the newest claim of that job, and that claim is live. */
  lemma HolderIsLive(c: Core, id: Id, token: Id)
    requires Inv(c) && id in c.db.jobs && c.db.jobs[id].token == Some(token)
    ensures c.db.jobs[id].state.InFlight()
    ensures id in c.hist && c.hist[id].Any() && c.hist[id].Last().token == token && c.hist[id].Last().outcome.Live?
    ensures token in c.home && c.home[token] == Place(id, |c.hist[id].claims| - 1)
  {
    assert JobInv(c, id);
  }

  /** In every state of every run the token and the deadline are set exactly while a job is claimed or running. */
  lemma TokenMeansInFlight(cs: seq<Core>, sts: seq<Step>, i: nat, id: Id)
    requires IsRun(cs, sts) && Inv(cs[0]) && i < |cs| && id in cs[i].db.jobs
    ensures cs[i].db.jobs[id].token.Some? <==> cs[i].db.jobs[id].state.InFlight()
    ensures cs[i].db.jobs[id].deadline.Some? <==> cs[i].db.jobs[id].state.InFlight()
  {
    RunKeepsInv(cs, sts, i);
    assert JobInv(cs[i], id);
  }

  /** A worker whose claim was completed, failed, reaped or force-failed at some point of a run is
      fenced off for ever: no row carries its token, and none of its statements changes anything. */
  lemma Fencing(cs: seq<Core>, sts: seq<Step>, i: nat, j: nat, id: Id, p: nat, st: Step)
    requires IsRun(cs, sts) && Inv(cs[0]) && i <= j < |cs|
    requires id in cs[i].hist && p < |cs[i].hist[id].claims| && !cs[i].hist[id].claims[p].outcome.Live?
    requires Enabled(cs[j], st)
    requires var t := cs[i].hist[id].claims[p].token;
             match st
             case MarkRunning(_, token) => token == t
             case Extend(_, token, _) => token == t
             case Complete(_, token, _) => token == t
             case Fail(_, token, _, _, _) => token == t
             case _ => false
    ensures Apply(cs[j], st) == cs[j]
    ensures forall k :: k in cs[j].db.jobs ==> cs[j].db.jobs[k].token != Some(st.token)
  {
    RunLater(cs, sts, i, j);
    RunKeepsInv(cs, sts, j);
    assert LaterJob(cs[i], cs[j], id);
    assert JobInv(cs[j], id);
    forall k | k in cs[j].db.jobs
      ensures cs[j].db.jobs[k].token != Some(st.token)
    {
      if cs[j].db.jobs[k].token == Some(st.token) {
        HolderIsLive(cs[j], k, st.token);
      }
    }
  }

  /** Whatever happened to a token is the only thing that ever happens to it. */
  lemma OneOutcome(cs: seq<Core>, sts: seq<Step>, i: nat, j: nat, id: Id, p: nat)
    requires IsRun(cs, sts) && Inv(cs[0]) && i <= j < |cs|
    requires id in cs[i].hist && p < |cs[i].hist[id].claims| && !cs[i].hist[id].claims[p].outcome.Live?
    ensures id in cs[j].hist && p < |cs[j].hist[id].claims|
    ensures var a, b := cs[i].hist[id].claims[p], cs[j].hist[id].claims[p];
            b.outcome == a.outcome || (a.outcome.Completed? && b.outcome == Completed(a.outcome.at, true))
  {
    RunLater(cs, sts, i, j);
    assert LaterJob(cs[i], cs[j], id);
  }

  /** Two successful claims of one job: by the second, the first was lost or force-failed. */
  lemma ClaimsDoNotOverlap(cs: seq<Core>, sts: seq<Step>, i: nat, j: nat)
    requires IsRun(cs, sts) && Inv(cs[0]) && i < j < |sts|
    requires sts[i].TryClaim? && sts[j].TryClaim? && sts[i].id == sts[j].id
    requires Claimable(cs[i].db, sts[i].id) && Claimable(cs[j].db, sts[j].id)
    ensures sts[i].token != sts[j].token && sts[i].run != sts[j].run
    ensures sts[i].token in cs[j].home && At(cs[j], cs[j].home[sts[i].token])
    ensures var p := cs[j].home[sts[i].token];
            var cl := cs[j].hist[p.job].claims[p.index];
            p.job == sts[i].id && cl.token == sts[i].token && (cl.outcome.Lost() || cl.outcome.Forced?)
  {
    var id := sts[i].id;
    RunKeepsInv(cs, sts, i);
    assert JobInv(cs[i], id);
    var p := |cs[i].hist[id].claims|;
    RunLater(cs, sts, i + 1, j);
    RunKeepsInv(cs, sts, j);
    assert LaterJob(cs[i + 1], cs[j], id);
    assert JobInv(cs[j], id);
    assert cs[i + 1].hist[id].claims[p].token == sts[i].token;
    assert LaterClaim(cs[i + 1].hist[id].claims[p], cs[j].hist[id].claims[p]);
    assert cs[j].home[cs[j].hist[id].claims[p].token] == Place(id, p);
  }

  // ---- one recorded success ----

  lemma SucceededRunWins(c: Core, r: Id)
    requires Inv(c) && r in c.db.runs && c.db.runs[r].state.Succeeded?
    ensures c.db.runs[r].job in c.db.jobs && c.db.jobs[c.db.runs[r].job].state.Succeeded?
    ensures c.db.runs[r].job in c.hist && c.hist[c.db.runs[r].job].Any()
    ensures c.hist[c.db.runs[r].job].Last().run == r
  {
    assert RunInv(c, r);
    assert JobInv(c, c.db.runs[r].job);
  }

  /** Success is absorbing, stamped, recorded by one run at most, and such a run is final, with
      the reaper free to act between the two statements of CompleteJob. */
  lemma OneSuccess(cs: seq<Core>, sts: seq<Step>, i: nat, j: nat, id: Id, r: Id, q: Id)
    requires IsRun(cs, sts) && Inv(cs[0]) && i <= j < |cs|
    ensures id in cs[i].db.jobs && cs[i].db.jobs[id].state.Succeeded? ==>
              id in cs[j].db.jobs && cs[j].db.jobs[id] == cs[i].db.jobs[id]
    ensures id in cs[j].db.jobs ==> (cs[j].db.jobs[id].completedAt.Some? <==> cs[j].db.jobs[id].state.Succeeded?)
    ensures r in cs[i].db.runs && cs[i].db.runs[r].state.Succeeded? ==>
              && r in cs[j].db.runs && cs[j].db.runs[r] == cs[i].db.runs[r]
              && cs[j].db.runs[r].job in cs[j].db.jobs && cs[j].db.jobs[cs[j].db.runs[r].job].state.Succeeded?
    ensures (&& r in cs[i].db.runs && cs[i].db.runs[r].state.Succeeded?
             && q in cs[j].db.runs && cs[j].db.runs[q].state.Succeeded?
             && cs[i].db.runs[r].job == cs[j].db.runs[q].job) ==> r == q
  {
    RunLater(cs, sts, i, j);
    RunKeepsInv(cs, sts, j);
    assert LaterJob(cs[i], cs[j], id) && JobInv(cs[j], id);
    assert LaterRun(cs[i], cs[j], r);
    if r in cs[j].db.runs && cs[j].db.runs[r].state.Succeeded? {
      SucceededRunWins(cs[j], r);
    }
    if q in cs[j].db.runs && cs[j].db.runs[q].state.Succeeded? {
      SucceededRunWins(cs[j], q);
    }
  }

  // ---- dead letters ----

  /** A letter in `d` was there in `c`, or records a row that was dead in `c`. */
  ghost predicate LetterLink(c: Core, d: Core, id: Id) {
    id in d.db.letters ==>
      || (id in c.db.letters && d.db.letters[id] == c.db.letters[id])
      || (id in c.db.jobs && RecordsDeath(d.db.letters[id], c.db.jobs[id]))
  }

  predicate RecordsDeath(l: Letter, j: Job) { j.state.Dead? && l == Letter(j.tenant, j.lastError, j.attempt, j) }

  lemma StepLinksLetters(c: Core, st: Step, id: Id)
    requires Enabled(c, st)
    ensures LetterLink(c, Apply(c, st), id)
  {
  }

  lemma {:induction false} LinkedLetters(cs: seq<Core>, i: nat, id: Id) returns (k: nat)
    requires i < |cs| && id in cs[i].db.letters && id !in cs[0].db.letters
    requires forall n :: 0 <= n < i ==> LetterLink(cs[n], cs[n + 1], id)
    ensures k < i && id in cs[k].db.jobs && RecordsDeath(cs[i].db.letters[id], cs[k].db.jobs[id])
  {
    assert i > 0 && LetterLink(cs[i - 1], cs[i - 1 + 1], id);
    if id in cs[i - 1].db.letters && cs[i].db.letters[id] == cs[i - 1].db.letters[id] {
      k := LinkedLetters(cs, i - 1, id);
    } else {
      k := i - 1;
    }
  }

  /** A letter is written once, from a row that was dead at that moment, and outlives replays. */
  lemma LetterRecordsDeath(cs: seq<Core>, sts: seq<Step>, i: nat, id: Id) returns (k: nat)
    requires IsRun(cs, sts) && cs[0].db.letters == map[] && i < |cs| && id in cs[i].db.letters
    ensures k < i && id in cs[k].db.jobs && RecordsDeath(cs[i].db.letters[id], cs[k].db.jobs[id])
  {
    forall n | 0 <= n < i
      ensures LetterLink(cs[n], cs[n + 1], id)
    {
      StepLinksLetters(cs[n], sts[n], id);
    }
    k := LinkedLetters(cs, i, id);
  }
}
