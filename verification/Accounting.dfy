/** Attempt accounting, the run ledger, leases and the progress measure of the Redis-free protocol. */
module Accounting {
  import opened Types
  import opened Storage
  import opened Ledger
  import opened LedgerInvariants
  import opened LedgerRuns

  // ---- attempt accounting ----

  /** How many of these claims ended in an error or at the reaper. */
  function LostCount(claims: seq<Claim>): nat {
    if claims == [] then 0
    else LostCount(claims[..|claims| - 1]) + (if claims[|claims| - 1].outcome.Lost() then 1 else 0)
  }

  lemma {:induction false} AllLost(claims: seq<Claim>)
    requires forall i :: 0 <= i < |claims| ==> claims[i].outcome.Lost()
    ensures LostCount(claims) == |claims|
  {
    if claims != [] {
      AllLost(claims[..|claims| - 1]);
    }
  }

  /** The newest claim since the insert or last replay was taken away by force-fail. */
  predicate ForcedAway(h: History) {
    h.Any() && h.Count() > 0 && h.Last().outcome.Forced?
  }

  /** `attempt` counts the claims lost since the insert or last replay, every other claim is the one still
      (or last) in possession, and there are never more claims than max(1, max_retries). */
  ghost predicate Accounted(j: Job, h: History) {
    && h.from <= |h.claims|
    && var since := h.claims[h.from..];
    && LostCount(since) == j.attempt
    && |since| == j.attempt + (if j.state.InFlight() || j.state.Succeeded? || ForcedAway(h) then 1 else 0)
    && |since| <= Max(1, j.maxRetries)
  }

  lemma Account(j: Job, h: History, now: Time)
    requires JobOk(j, h) && HistoryOk(h, now)
    ensures Accounted(j, h)
  {
    var since := h.claims[h.from..];
    if since != [] {
      var older := since[..|since| - 1];
      assert forall k :: 0 <= k < |older| ==> older[k] == h.claims[h.from + k];
      AllLost(older);
    }
  }

  /** In every state of every run, with any number of concurrent workers and reapers, every job is accounted for. */
  lemma AttemptAccounting(cs: seq<Core>, sts: seq<Step>, i: nat, id: Id)
    requires IsRun(cs, sts) && Inv(cs[0]) && i < |cs| && id in cs[i].db.jobs
    ensures id in cs[i].hist && Accounted(cs[i].db.jobs[id], cs[i].hist[id])
  {
    RunKeepsInv(cs, sts, i);
    assert JobInv(cs[i], id);
    Account(cs[i].db.jobs[id], cs[i].hist[id], cs[i].now);
  }

  // ---- the run ledger ----

  /** Since the insert or last replay, the k-th claim of a job has a run of its own, filed under
      that job with attempt number k. */
  lemma RunsAreNumbered(c: Core, id: Id, k: nat, m: nat)
    requires Inv(c) && id in c.hist && k < c.hist[id].Count() && m < c.hist[id].Count()
    ensures var h := c.hist[id];
            && h.from + k < |h.claims| && h.from + m < |h.claims|
            && var r := h.claims[h.from + k].run;
            && r in c.db.runs && c.db.runs[r].job == id && c.db.runs[r].attempt == k
            && (k != m ==> r != h.claims[h.from + m].run)
  {
    assert JobInv(c, id);
    var h := c.hist[id];
    assert RunInv(c, h.claims[h.from + k].run);
  }

  /** No live claim of `id` was ever force-failed. */
  ghost predicate NeverForced(c: Core, id: Id) {
    id in c.hist ==> forall i :: 0 <= i < |c.hist[id].claims| ==> !c.hist[id].claims[i].outcome.Forced?
  }

  /** An open run belongs to the token holder, to the winner, or to a force-failed claim. */
  lemma OpenRunOwner(c: Core, r: Id)
    requires Inv(c) && r in c.db.runs && c.db.runs[r].finishedAt.None?
    ensures r in c.owner && At(c, c.owner[r]) && c.owner[r].job == c.db.runs[r].job
    ensures var p := c.owner[r];
            var cl := c.hist[p.job].claims[p.index];
            cl.run == r && (cl.outcome.Forced? || p.index == |c.hist[p.job].claims| - 1)
    ensures var p := c.owner[r];
            var cl := c.hist[p.job].claims[p.index];
            cl.outcome.Forced?
            || (p.job in c.db.jobs && (c.db.jobs[p.job].token == Some(cl.token) || c.db.jobs[p.job].state.Succeeded?))
  {
    assert RunInv(c, r);
    assert JobInv(c, c.owner[r].job);
  }

  /** A job whose claims were never force-failed has at most one open run; that run is the token
      holder's or the winner's, and there is none while the job waits, is dead or is gone. */
  lemma AtMostOneOpenRun(c: Core, r: Id, q: Id)
    requires Inv(c)
    requires r in c.db.runs && c.db.runs[r].finishedAt.None?
    requires q in c.db.runs && c.db.runs[q].finishedAt.None?
    requires c.db.runs[r].job == c.db.runs[q].job && NeverForced(c, c.db.runs[r].job)
    ensures r == q
    ensures c.db.runs[r].job in c.db.jobs
    ensures c.db.runs[r].job in c.hist && c.hist[c.db.runs[r].job].Any()
    ensures var j, last := c.db.jobs[c.db.runs[r].job], c.hist[c.db.runs[r].job].Last();
            last.run == r && (j.state.Succeeded? || (j.state.InFlight() && j.token == Some(last.token)))
  {
    OpenRunOwner(c, r);
    OpenRunOwner(c, q);
    assert JobInv(c, c.db.runs[r].job);
  }

  // ---- leases ----

  /** When the reaper took a claim, either no extension had landed and more than 60 s had passed
      since the worker computed the first deadline, or more than 15 s had passed since the worker
      computed the last one that landed. */
  lemma ReapedLate(c: Core, id: Id, i: nat)
    requires Inv(c) && id in c.hist && i < |c.hist[id].claims| && c.hist[id].claims[i].outcome.Reaped?
    ensures var cl := c.hist[id].claims[i];
            if cl.beats == 0 then cl.outcome.when > cl.lease + 60 * SECOND
            else cl.outcome.when > cl.lease + 15 * SECOND
  {
    assert JobInv(c, id);
    assert ClaimOk(c.hist[id].claims[i], c.now);
  }

  ghost predicate LiveAt(c: Core, id: Id, p: nat) {
    id in c.hist && p < |c.hist[id].claims| && c.hist[id].claims[p].outcome.Live?
  }

  function DeadlineOf(cl: Claim): Time { cl.lease + LeaseLength(cl.beats) }

  /** Step `n` is an extension of claim `p` of job `id` that lands. */
  ghost predicate Lands(cs: seq<Core>, sts: seq<Step>, n: nat, id: Id, p: nat)
    requires IsRun(cs, sts) && n < |sts|
  {
    sts[n].Extend? && sts[n].id == id && Holding(cs[n], id, p, sts[n].token)
  }

  /** Claim `p` is the one whose `token` the row of `id` carries. */
  ghost predicate Holding(c: Core, id: Id, p: nat, token: Id) {
    LiveAt(c, id, p) && c.hist[id].claims[p].token == token && Holds(c.db, id, token)
  }

  /** Step `n` ends claim `p` otherwise than by reaping: its worker reports, or an operator force-fails the job. */
  ghost predicate Ends(cs: seq<Core>, sts: seq<Step>, n: nat, id: Id, p: nat)
    requires IsRun(cs, sts) && n < |sts|
  {
    || ((sts[n].Complete? || sts[n].Fail?) && sts[n].id == id && Holding(cs[n], id, p, sts[n].token))
    || (sts[n].ForceFail? && sts[n].id == id && LiveAt(cs[n], id, p))
  }

  /** From state `i` on, the next thing to happen to claim `p` happens no later than `deadline`: an
      extension lands, the claim ends, or the stretch up to `j` is over. */
  ghost predicate InTime(cs: seq<Core>, sts: seq<Step>, i: nat, j: nat, id: Id, p: nat, deadline: Time)
    requires IsRun(cs, sts) && j < |cs|
  {
    exists n {:trigger cs[n]} :: i <= n <= j && cs[n].now <= deadline
                                 && (n == j || Lands(cs, sts, n, id, p) || Ends(cs, sts, n, id, p))
  }

  /** Every extension landing in [i, j), good for 15 s from the moment its worker computed it, is itself
      followed in time. */
  ghost predicate Beating(cs: seq<Core>, sts: seq<Step>, i: nat, j: nat, id: Id, p: nat)
    requires IsRun(cs, sts) && j < |cs|
  {
    forall n :: i <= n < j && Lands(cs, sts, n, id, p) ==> InTime(cs, sts, n + 1, j, id, p, sts[n].base + 15 * SECOND)
  }

  /** Only the reaper, once the deadline has passed, and the steps named above touch a live claim. */
  lemma StepKeepsDeadline(cs: seq<Core>, sts: seq<Step>, n: nat, id: Id, p: nat)
    requires IsRun(cs, sts) && n < |sts| && Inv(cs[n]) && LiveAt(cs[n], id, p)
    requires !Lands(cs, sts, n, id, p) && !Ends(cs, sts, n, id, p)
    requires cs[n].now <= DeadlineOf(cs[n].hist[id].claims[p])
    ensures LiveAt(cs[n + 1], id, p)
    ensures DeadlineOf(cs[n + 1].hist[id].claims[p]) == DeadlineOf(cs[n].hist[id].claims[p])
  {
    assert JobInv(cs[n], id);
    if sts[n].Tick? || sts[n].id != id {
      OtherHistoriesKept(cs[n], sts[n], id);
    }
  }

  /** An extension that lands sets the deadline it carries. */
  lemma LandingSetsDeadline(cs: seq<Core>, sts: seq<Step>, n: nat, id: Id, p: nat)
    requires IsRun(cs, sts) && n < |sts| && Inv(cs[n]) && Lands(cs, sts, n, id, p)
    ensures LiveAt(cs[n + 1], id, p)
    ensures DeadlineOf(cs[n + 1].hist[id].claims[p]) == sts[n].base + 15 * SECOND
  {
    assert JobInv(cs[n], id);
  }

  lemma EndIsNotReaping(cs: seq<Core>, sts: seq<Step>, n: nat, id: Id, p: nat)
    requires IsRun(cs, sts) && n < |sts| && Inv(cs[n]) && Ends(cs, sts, n, id, p)
    ensures id in cs[n + 1].hist && p < |cs[n + 1].hist[id].claims|
    ensures !cs[n + 1].hist[id].claims[p].outcome.Live? && !cs[n + 1].hist[id].claims[p].outcome.Reaped?
  {
    assert JobInv(cs[n], id);
  }

  /** A claim that is live at `i`, whose present deadline is followed in time and whose extensions keep
      landing in time, is not reaped up to `j`. */
  lemma {:induction false} BeatingSurvives(cs: seq<Core>, sts: seq<Step>, i: nat, j: nat, id: Id, p: nat)
    requires IsRun(cs, sts) && Inv(cs[0]) && i <= j < |cs| && LiveAt(cs[i], id, p)
    requires InTime(cs, sts, i, j, id, p, DeadlineOf(cs[i].hist[id].claims[p])) && Beating(cs, sts, i, j, id, p)
    ensures id in cs[j].hist && p < |cs[j].hist[id].claims| && !cs[j].hist[id].claims[p].outcome.Reaped?
    decreases j - i
  {
    if i < j {
      RunKeepsInv(cs, sts, i);
      if Ends(cs, sts, i, id, p) {
        EndIsNotReaping(cs, sts, i, id, p);
        OneOutcome(cs, sts, i + 1, j, id, p);
      } else {
        if Lands(cs, sts, i, id, p) {
          LandingSetsDeadline(cs, sts, i, id, p);
        } else {
          QuietStep(cs, sts, i, j, id, p);
        }
        BeatingSurvives(cs, sts, i + 1, j, id, p);
      }
    }
  }

  /** Between landings the deadline does not move, and what follows it in time is still to come. */
  lemma QuietStep(cs: seq<Core>, sts: seq<Step>, i: nat, j: nat, id: Id, p: nat)
    requires IsRun(cs, sts) && Inv(cs[0]) && i < j < |cs| && Inv(cs[i]) && LiveAt(cs[i], id, p)
    requires InTime(cs, sts, i, j, id, p, DeadlineOf(cs[i].hist[id].claims[p]))
    requires !Lands(cs, sts, i, id, p) && !Ends(cs, sts, i, id, p)
    ensures LiveAt(cs[i + 1], id, p)
    ensures InTime(cs, sts, i + 1, j, id, p, DeadlineOf(cs[i + 1].hist[id].claims[p]))
  {
    var n :| i <= n <= j && cs[n].now <= DeadlineOf(cs[i].hist[id].claims[p])
             && (n == j || Lands(cs, sts, n, id, p) || Ends(cs, sts, n, id, p));
    RunLater(cs, sts, i, n);
    StepKeepsDeadline(cs, sts, i, id, p);
  }

  lemma ClaimSetsDeadline(cs: seq<Core>, sts: seq<Step>, i: nat)
    requires IsRun(cs, sts) && i < |sts| && Inv(cs[i]) && sts[i].TryClaim? && Claimable(cs[i].db, sts[i].id)
    ensures sts[i].id in cs[i].hist
    ensures var p := |cs[i].hist[sts[i].id].claims|;
            LiveAt(cs[i + 1], sts[i].id, p)
            && DeadlineOf(cs[i + 1].hist[sts[i].id].claims[p]) == sts[i].base + 60 * SECOND
  {
    assert JobInv(cs[i], sts[i].id);
  }

  /** A worker that claims a job at step `i` is not reaped up to `j` if its first extension lands (or it
      reports) within 60 s of computing the first deadline, and every extension that lands is followed by
      the next within 15 s of computing the one before. */
  lemma BeatingIsNeverReaped(cs: seq<Core>, sts: seq<Step>, i: nat, j: nat)
    requires IsRun(cs, sts) && Inv(cs[0]) && i < j < |cs|
    requires sts[i].TryClaim? && Claimable(cs[i].db, sts[i].id) && sts[i].id in cs[i].hist
    requires var id, p := sts[i].id, |cs[i].hist[sts[i].id].claims|;
             InTime(cs, sts, i + 1, j, id, p, sts[i].base + 60 * SECOND) && Beating(cs, sts, i + 1, j, id, p)
    ensures var id, p := sts[i].id, |cs[i].hist[sts[i].id].claims|;
            && id in cs[j].hist && p < |cs[j].hist[id].claims|
            && cs[j].hist[id].claims[p].token == sts[i].token && !cs[j].hist[id].claims[p].outcome.Reaped?
  {
    var id, p := sts[i].id, |cs[i].hist[sts[i].id].claims|;
    RunKeepsInv(cs, sts, i);
    ClaimSetsDeadline(cs, sts, i);
    BeatingSurvives(cs, sts, i + 1, j, id, p);
    RunLater(cs, sts, i + 1, j);
    assert LaterJob(cs[i + 1], cs[j], id);
    assert LaterClaim(cs[i + 1].hist[id].claims[p], cs[j].hist[id].claims[p]);
  }

  // ---- the progress measure ----

  function Rank(s: JobState): nat {
    match s
    case Scheduled => 4
    case Failed => 4
    case Pending => 3
    case Claimed => 2
    case Running => 1
    case Succeeded => 0
    case Dead => 0
  }

  /** The lexicographic pair (max(1, max_retries) - attempt, rank of the state) as one number. */
  function Measure(j: Job): int {
    5 * (Max(1, j.maxRetries) - j.attempt) + Rank(j.state)
  }

  lemma MeasureIsNatural(c: Core, id: Id)
    requires Inv(c) && id in c.db.jobs
    ensures Measure(c.db.jobs[id]) >= 0
  {
    assert JobInv(c, id);
  }

  /** Apart from replay, a step either leaves state and attempt of a row alone or lowers its measure. */
  lemma StepLowersMeasure(c: Core, st: Step, id: Id)
    requires Inv(c) && Enabled(c, st) && !(st.Replay? && st.id == id)
    requires id in c.db.jobs && id in Apply(c, st).db.jobs
    ensures var j, k := c.db.jobs[id], Apply(c, st).db.jobs[id];
            && k.maxRetries == j.maxRetries
            && ((k.state == j.state && k.attempt == j.attempt)
                || (k.state != j.state && Measure(k) < Measure(j)))
  {
    assert JobInv(c, id);
    if st.Tick? || st.id != id {
      OtherRowsKept(c, st, id);
    }
  }

  /** How often the state of `id` changes between states `i` and `j` of a run. */
  ghost function Changes(cs: seq<Core>, i: nat, j: nat, id: Id): nat
    requires i <= j < |cs| && forall n :: i <= n <= j ==> id in cs[n].db.jobs
    decreases j - i
  {
    if i == j then 0
    else (if cs[i].db.jobs[id].state == cs[i + 1].db.jobs[id].state then 0 else 1) + Changes(cs, i + 1, j, id)
  }

  lemma OneChange(cs: seq<Core>, sts: seq<Step>, i: nat, id: Id)
    requires IsRun(cs, sts) && Inv(cs[0]) && i < |sts| && !(sts[i].Replay? && sts[i].id == id)
    requires id in cs[i].db.jobs && id in cs[i + 1].db.jobs
    ensures var j, k := cs[i].db.jobs[id], cs[i + 1].db.jobs[id];
            (if j.state == k.state then 0 else 1) <= Measure(j) - Measure(k)
  {
    RunKeepsInv(cs, sts, i);
    StepLowersMeasure(cs[i], sts[i], id);
  }

  lemma {:induction false} ChangesPayMeasure(cs: seq<Core>, sts: seq<Step>, i: nat, j: nat, id: Id)
    requires IsRun(cs, sts) && Inv(cs[0]) && i <= j < |cs|
    requires forall n :: i <= n <= j ==> id in cs[n].db.jobs
    requires forall n :: i <= n < j ==> !(sts[n].Replay? && sts[n].id == id)
    ensures Changes(cs, i, j, id) <= Measure(cs[i].db.jobs[id]) - Measure(cs[j].db.jobs[id])
    decreases j - i
  {
    if i < j {
      OneChange(cs, sts, i, id);
      ChangesPayMeasure(cs, sts, i + 1, j, id);
    }
  }

  /** Between replays a job changes state only a bounded number of times, whatever the processes do. */
  lemma BoundedChanges(cs: seq<Core>, sts: seq<Step>, i: nat, j: nat, id: Id)
    requires IsRun(cs, sts) && Inv(cs[0]) && i <= j < |cs|
    requires forall n :: i <= n <= j ==> id in cs[n].db.jobs
    requires forall n :: i <= n < j ==> !(sts[n].Replay? && sts[n].id == id)
    ensures Changes(cs, i, j, id) <= 5 * (Max(1, cs[i].db.jobs[id].maxRetries) - cs[i].db.jobs[id].attempt) + 4
  {
    ChangesPayMeasure(cs, sts, i, j, id);
    RunKeepsInv(cs, sts, j);
    MeasureIsNatural(cs[j], id);
  }
}
