/** The scheduler and the change-request handlers as they run against the database, between the steps of everybody
    else: every method is a sequence of transaction steps of module Governance. */
module GovernedWrites {
  import opened Options
  import Publication
  import opened Governance

  /** Where a database call of a scheduler iteration fails, if anywhere. */
  datatype Fault =
    | NoFault | BeginFails | ClaimFails | SavepointFails | WriteFails | CommitFails | RollbackFails | RecordFails

  datatype Outcome = Stopped | Attempt(job: nat, ok: bool)

  /** What others try to do before each statement of a transaction is through, in particular while it waits for a
      lock: before it starts, claims its row, reads its environment, locks its flag, and commits. */
  datatype Waits = Waits(
    start: seq<Step>, claim: seq<Step>, environment: seq<Step>, flag: seq<Step>, commit: seq<Step>)

  const OK := 200
  const ACCEPTED := 202
  const NO_CONTENT := 204
  const UNAUTHORIZED := 401
  const FORBIDDEN := 403
  const NOT_FOUND := 404
  const CONFLICT := 409
  const UNPROCESSABLE := 422
  const FAILED := 500

  // ---- Transactions among others ----

  /** The transaction a step belongs to. */
  function ActsOn(step: Step): Option<nat> {
    match step
    case BeginWork(t) => Some(t)
    case BeginReview(t, _) => Some(t)
    case ClaimJob(t, _) => Some(t)
    case LockRequest(t, _) => Some(t)
    case LockEnvironment(t) => Some(t)
    case WriteFlag(t) => Some(t)
    case RollbackToSavepoint(t) => Some(t)
    case CommitJob(t) => Some(t)
    case CommitFailure(t) => Some(t)
    case CommitApproval(t) => Some(t)
    case Abort(t) => Some(t)
    case _ => None
  }

  /** How often a transaction numbered `t` committed. */
  function OwnCommits(steps: seq<Step>, t: nat): nat {
    if |steps| == 0 then 0
    else
      var last := steps[|steps| - 1];
      OwnCommits(steps[..|steps| - 1], t) + (if ActsOn(last) == Some(t) && !InsideTransaction(last) then 1 else 0)
  }

  /** From `v` to `w` nothing that transaction `t` has locked changed: the row it works on, the flag it has written,
      and whether its environment requires approval. */
  predicate Isolated(v: World, w: World, t: nat) {
    && (t in v.txns <==> t in w.txns)
    && v.history <= w.history && v.now <= w.now
    && (t in v.txns ==> w.txns[t] == v.txns[t] && SameClaim(v, w, v.txns[t]))
  }

  predicate SameClaim(v: World, w: World, x: Txn) {
    && (x.claim.OnJob? && x.claim.job in v.jobs ==>
          x.claim.job in w.jobs && w.jobs[x.claim.job] == v.jobs[x.claim.job])
    && (x.claim.OnRequest? && x.claim.request in v.requests ==>
          x.claim.request in w.requests && w.requests[x.claim.request] == v.requests[x.claim.request])
    && (x.write.Some? && x.write.value.0 in v.flags ==>
          x.write.value.0 in w.flags && w.flags[x.write.value.0] == v.flags[x.write.value.0])
    && (x.env.Some? ==> (x.env.value in v.guarded <==> x.env.value in w.guarded))
  }

  /** Locks isolate: no step of anybody else changes what an open transaction has locked. */
  lemma LocksIsolate(merge: Merge, w: World, step: Step, t: nat)
    requires Inv(merge, w) && Can(merge, w, step) && ActsOn(step) != Some(t)
    ensures Isolated(w, Do(merge, w, step), t)
  {
    hide Inv, TxnOk, FirstClaimable, Claimed, FlagLocked, EnvironmentLocked;
    if t in w.txns {
      if ActsOn(step).Some? { TransactionsAreApart(merge, w, step, t); } else { RequestsWait(merge, w, step, t); }
    }
  }

  lemma TransactionsAreApart(merge: Merge, w: World, step: Step, t: nat)
    requires Inv(merge, w) && Can(merge, w, step) && ActsOn(step).Some? && ActsOn(step) != Some(t) && t in w.txns
    ensures Isolated(w, Do(merge, w, step), t)
  {
    hide Inv, TxnOk, FirstClaimable, Claimed, FlagLocked, EnvironmentLocked;
    if !InsideTransaction(step) { CommitsAreApart(merge, w, step, t); }
  }

  lemma CommitsAreApart(merge: Merge, w: World, step: Step, t: nat)
    requires Inv(merge, w) && Can(merge, w, step) && ActsOn(step).Some? && ActsOn(step) != Some(t) && t in w.txns
    requires !InsideTransaction(step)
    ensures Isolated(w, Do(merge, w, step), t)
  {
    hide JobOk, RequestOk, Spaced, NoneForgotten, Replay, FirstClaimable;
    var x := w.txns[ActsOn(step).value];
    assert TxnOk(merge, w, x) && Apart(x, w.txns[t]);
    assert SameClaim(w, Do(merge, w, step), w.txns[t]);
  }

  lemma RequestsWait(merge: Merge, w: World, step: Step, t: nat)
    requires Inv(merge, w) && Can(merge, w, step) && ActsOn(step).None? && t in w.txns
    ensures Isolated(w, Do(merge, w, step), t)
  {
    hide JobOk, RequestOk, Spaced, Replay, Exclusive;
    var x := w.txns[t];
    assert TxnOk(merge, w, x);
    assert SameClaim(w, Do(merge, w, step), x);
  }

  lemma IsolationLasts(u: World, v: World, w: World, t: nat)
    requires Isolated(u, v, t) && Isolated(v, w, t)
    ensures Isolated(u, w, t)
  {
  }

  lemma CountStep(steps: seq<Step>, step: Step, t: nat)
    ensures OwnCommits(steps + [step], t)
         == OwnCommits(steps, t) + (if ActsOn(step) == Some(t) && !InsideTransaction(step) then 1 else 0)
  {
    assert (steps + [step])[..|steps|] == steps;
  }

  lemma IsolatedFromNothing(w: World, t: nat)
    ensures Isolated(w, w, t)
  {
  }

  /** `v` was the state of the database at some moment since the trace had the given length. */
  ghost predicate Visited(merge: Merge, origin: World, steps: seq<Step>, since: nat, v: World) {
    exists n :: since <= n <= |steps| && After(merge, origin, steps[..n]) == Some(v)
  }

  lemma VisitedNow(merge: Merge, origin: World, steps: seq<Step>, since: nat, v: World)
    requires After(merge, origin, steps) == Some(v) && since <= |steps|
    ensures Visited(merge, origin, steps, since, v)
  {
    assert steps[..|steps|] == steps;
  }

  lemma VisitedBefore(merge: Merge, origin: World, steps: seq<Step>, more: seq<Step>, since: nat, from: nat, v: World)
    requires Visited(merge, origin, steps, since, v) && steps <= more && from <= since
    ensures Visited(merge, origin, more, from, v)
  {
    var n :| since <= n <= |steps| && After(merge, origin, steps[..n]) == Some(v);
    assert more[..n] == steps[..n];
  }

  /** Whether the patch of an unexecuted job can be applied now. */
  predicate Applies(merge: Merge, w: World, j: Job) {
    j.slot.env !in w.guarded && j.slot in w.flags && merge(w.flags[j.slot], j.patch).Some?
  }

  /** The same, with the flag's row not locked by anybody else. */
  predicate Writable(merge: Merge, w: World, j: Job) {
    Applies(merge, w, j) && !FlagLocked(w, j.slot)
  }

  /** The world after one committed attempt of a transaction that started then; only the job, the flag and the
      history differ. */
  ghost predicate AttemptedOnce(merge: Merge, w: World, v: World, job: nat, started: int, ok: bool)
    requires job in w.jobs
  {
    var j := w.jobs[job];
    && v.jobs == w.jobs[job := Attempted(j, started, ok)]
    && v.flags == (if ok then Merged(merge, w.flags, j.slot, j.patch) else w.flags)
    && v.history == w.history + [if ok then JobDone(job, j.slot, j.patch, started) else JobFailed(job, started)]
    && v == w.(jobs := v.jobs, flags := v.flags, history := v.history)
  }

  /** A request of this environment that this person may approve. */
  predicate Reviewable(w: World, env: string, id: nat, reviewer: string) {
    Found(w, env, id) && w.requests[id].status.Pending? && w.requests[id].requestedBy != reviewer
  }

  predicate Withdrawable(w: World, env: string, id: nat, caller: string, admin: bool) {
    Found(w, env, id) && w.requests[id].status.Pending? && (admin || w.requests[id].requestedBy == caller)
  }

  predicate Found(w: World, env: string, id: nat) {
    id in w.requests && w.requests[id].slot.env == env
  }

  /** The i-th outcome is the attempt committed as entry `commits[i]` of the history, in order and from `start` on. */
  predicate Logged(history: seq<Commit>, start: nat, outcomes: seq<Outcome>, commits: seq<nat>) {
    && |outcomes| == |commits|
    && forall i :: 0 <= i < |outcomes| ==>
         && outcomes[i].Attempt? && start <= commits[i] < |history|
         && (i > 0 ==> commits[i - 1] < commits[i])
         && AttemptOn(history[commits[i]], outcomes[i].job)
         && history[commits[i]].JobDone? == outcomes[i].ok
  }

  lemma LogGrows(
    history: seq<Commit>, later: seq<Commit>, start: nat, outcomes: seq<Outcome>, commits: seq<nat>, outcome: Outcome)
    requires Logged(history, start, outcomes, commits) && start <= |history|
    requires history <= later && |history| < |later| && outcome.Attempt?
    requires AttemptOn(later[|later| - 1], outcome.job) && later[|later| - 1].JobDone? == outcome.ok
    ensures Logged(later, start, outcomes + [outcome], commits + [|later| - 1])
  {
  }

  lemma NothingLogged(history: seq<Commit>)
    ensures Logged(history, |history|, [], [])
  {
  }

  lemma LogStays(history: seq<Commit>, later: seq<Commit>, start: nat, outcomes: seq<Outcome>, commits: seq<nat>)
    requires Logged(history, start, outcomes, commits) && history <= later
    ensures Logged(later, start, outcomes, commits)
  {
  }

  /** Where `steps` lead from `w`, if each of them can be taken. */
  ghost function After(merge: Merge, w: World, steps: seq<Step>): Option<World> {
    if |steps| == 0 then (if Inv(merge, w) then Some(w) else None)
    else
      var before := After(merge, w, steps[..|steps| - 1]);
      if before.Some? && Inv(merge, before.value) && Can(merge, before.value, steps[|steps| - 1])
      then Some(Do(merge, before.value, steps[|steps| - 1]))
      else None
  }

  /** What the methods below do is a run in the sense of Governance, so everything proved about runs is true of
      them. */
  lemma {:induction false} TraceIsRun(merge: Merge, origin: World, steps: seq<Step>)
    requires Initial(origin) && After(merge, origin, steps).Some?
    ensures exists ws :: IsRun(merge, ws, steps) && ws[|steps|] == After(merge, origin, steps).value
  {
    hide Inv, Can, Do;
    if |steps| == 0 {
      assert IsRun(merge, [origin], steps);
    } else {
      var init := steps[..|steps| - 1];
      TraceIsRun(merge, origin, init);
      var vs :| IsRun(merge, vs, init) && vs[|init|] == After(merge, origin, init).value;
      var ws := vs + [After(merge, origin, steps).value];
      forall i | 0 <= i < |steps| ensures StepsTo(merge, ws[i], steps[i], ws[i + 1]) {
        if i < |init| { assert StepsTo(merge, vs[i], init[i], vs[i + 1]); }
      }
      assert IsRun(merge, ws, steps);
    }
  }

  /** Among claimable jobs there is a first one. */
  lemma {:induction false} FirstAmong(w: World, started: int, among: set<nat>, job: nat) returns (first: nat)
    requires job in among
    requires forall j :: j in among ==> Claimable(w, started, j)
    ensures first in among && first in w.jobs
    ensures forall k :: k in among && k in w.jobs ==>
              w.jobs[first].due < w.jobs[k].due || (w.jobs[first].due == w.jobs[k].due && first <= k)
    decreases |among|
  {
    if other :| other in among && other != job {
      var best := FirstAmong(w, started, among - {job}, other);
      first := if w.jobs[job].due < w.jobs[best].due || (w.jobs[job].due == w.jobs[best].due && job <= best)
               then job else best;
    } else {
      first := job;
    }
  }

  class Database {
    const merge: Merge
    ghost const origin: World
    var w: World
    ghost var trace: seq<Step>

    ghost predicate Valid()
      reads this
    {
      && Initial(origin) && Inv(merge, w) && After(merge, origin, trace) == Some(w)
      && forall d, p: Patch :: !p.wellFormed ==> merge(d, p) == None
    }

    /** An empty database with any approval rules. */
    constructor (m: Merge, start: World)
      requires Initial(start) && forall d, p: Patch :: !p.wellFormed ==> m(d, p) == None
      ensures Valid() && merge == m && w == origin == start && trace == []
    {
      InitialInv(m, start);
      merge, origin, w, trace := m, start, start, [];
    }

    /** Whatever the methods below did is a run of the transactions. */
    lemma TraceIsRunFromStart()
      requires Valid()
      ensures exists ws :: IsRun(merge, ws, trace) && ws[|trace|] == w
    {
      hide Inv, Initial;
      TraceIsRun(merge, origin, trace);
    }

    ghost predicate Since(v: World, length: nat)
      reads this
    {
      Visited(merge, origin, trace, length, v)
    }

    method Take(step: Step)
      requires Valid() && Can(merge, w, step)
      modifies this`w, this`trace
      ensures Valid() && trace == old(trace) + [step]
      ensures w == Do(merge, old(w), step) && old(w).history <= w.history
    {
      StepKeepsInv(merge, w, step);
      w := Do(merge, w, step);
      assert (trace + [step])[..|trace|] == trace;
      trace := trace + [step];
    }

    /** Others take those of the given steps that they can, in that order, for any number of transactions of theirs;
        an own transaction finds what it has locked as it left it. */
    method Await(own: Option<nat>, others: seq<Step>) returns (ghost taken: seq<Step>)
      requires Valid()
      modifies this`w, this`trace
      ensures Valid() && trace == old(trace) + taken && forall s :: s in taken ==> s in others
      ensures old(w).history <= w.history
      ensures own.Some? ==>
                Isolated(old(w), w, own.value) && OwnCommits(trace, own.value) == old(OwnCommits(trace, own.value))
      ensures others == [] ==> w == old(w)
    {
      hide Inv, Can, Do, After, OwnCommits, Isolated;
      taken := [];
      if own.Some? { IsolatedFromNothing(w, own.value); }
      for i := 0 to |others|
        invariant Valid() && trace == old(trace) + taken && forall s :: s in taken ==> s in others
        invariant old(w).history <= w.history
        invariant own.Some? ==>
                    Isolated(old(w), w, own.value) && OwnCommits(trace, own.value) == old(OwnCommits(trace, own.value))
        invariant i == 0 ==> w == old(w)
      {
        if Can(merge, w, others[i]) && (own.None? || ActsOn(others[i]) != own) {
          if own.Some? {
            LocksIsolate(merge, w, others[i], own.value);
            IsolationLasts(old(w), w, Do(merge, w, others[i]), own.value);
          }
          if own.Some? { CountStep(trace, others[i], own.value); }
          Take(others[i]);
          taken := taken + [others[i]];
        }
      }
    }

    method Begin(t: nat, reviewer: Option<string>)
      requires Valid() && t !in w.txns
      modifies this`w, this`trace
      ensures Valid() && old(trace) <= trace && OwnCommits(trace, t) == old(OwnCommits(trace, t))
      ensures w == WithTxn(old(w), t, Txn(old(w).now, reviewer, NoClaim, None, None, false))
    {
      hide Inv, OwnCommits, After, Replay, FirstClaimable;
      if reviewer.None? {
        CountStep(trace, BeginWork(t), t);
        Take(BeginWork(t));
      } else {
        CountStep(trace, BeginReview(t, reviewer.value), t);
        Take(BeginReview(t, reviewer.value));
      }
    }

    /** The transaction is dropped, and the database rolls it back. */
    method Drop(t: nat)
      requires Valid() && t in w.txns
      modifies this`w, this`trace
      ensures Valid() && old(trace) <= trace && OwnCommits(trace, t) == old(OwnCommits(trace, t))
      ensures w == old(w).(txns := old(w).txns - {t})
    {
      hide Inv, OwnCommits, After, Replay, FirstClaimable;
      CountStep(trace, Abort(t), t);
      Take(Abort(t));
    }

    /** One iteration of the scheduler, in transaction `t`. Locking the first claimable job, if any, it attempts it
        once: the job is marked executed exactly when its patch merged into the flag, found unlocked; otherwise only
        its failure is recorded. Every early return commits nothing. */
    method ExecuteNext(t: nat, fault: Fault, waits: Waits)
      returns (outcome: Outcome, ghost claimed: World, ghost tried: World, ghost at: World)
      requires Valid() && t !in w.txns
      modifies this`w, this`trace
      ensures Valid() && old(trace) <= trace && old(w).history <= w.history
      ensures Since(claimed, |old(trace)|) && Since(tried, |old(trace)|) && Since(at, |old(trace)|)
      ensures old(w).now <= claimed.now && old(w).history <= at.history
      ensures outcome.Stopped? ==> OwnCommits(trace, t) == old(OwnCommits(trace, t))
      ensures outcome.Attempt? ==>
                && OwnCommits(trace, t) == old(OwnCommits(trace, t)) + 1
                && FirstClaimable(claimed, old(w).now, outcome.job)
                && outcome.job in tried.jobs && outcome.job in at.jobs
                && claimed.jobs[outcome.job] == tried.jobs[outcome.job] == at.jobs[outcome.job]
                && outcome.ok == (fault != WriteFails && Writable(merge, tried, at.jobs[outcome.job]))
                && AttemptedOnce(merge, at.(txns := w.txns), w, outcome.job, old(w).now, outcome.ok)
                && (outcome.ok ==> Applies(merge, at, at.jobs[outcome.job]))
      ensures fault.NoFault? || fault.WriteFails? ==>
                (outcome.Stopped? <==> forall j :: j in claimed.jobs ==> !Claimable(claimed, old(w).now, j))
    {
      hide Inv, Can, Do, After, OwnCommits, Isolated, Visited, Applies, Writable, AttemptedOnce;
      var job;
      job, claimed := BeginAndClaim(t, fault, waits);
      if job.None? {
        tried, at := w, w;
        VisitedNow(merge, origin, trace, |old(trace)|, w);
        return Stopped, claimed, tried, at;
      }
      ghost var before := trace;
      var ok;
      ok, tried, at := AttemptClaimed(t, fault, waits);
      VisitedBefore(merge, origin, before, trace, |old(trace)|, |old(trace)|, claimed);
      VisitedBefore(merge, origin, trace, trace, |before|, |old(trace)|, tried);
      VisitedBefore(merge, origin, trace, trace, |before|, |old(trace)|, at);
      outcome := if ok.None? then Stopped else Attempt(job.value, ok.value);
    }

    /** The transaction up to its savepoint, with the first claimable job locked; without one it is dropped. */
    method BeginAndClaim(t: nat, fault: Fault, waits: Waits) returns (job: Option<nat>, ghost claimed: World)
      requires Valid() && t !in w.txns
      modifies this`w, this`trace
      ensures Valid() && old(trace) <= trace && old(w).history <= w.history
      ensures OwnCommits(trace, t) == old(OwnCommits(trace, t)) && Since(claimed, |old(trace)|)
      ensures old(w).now <= claimed.now && old(w).history <= claimed.history
      ensures job.Some? ==>
                && FirstClaimable(claimed, old(w).now, job.value)
                && w == WithTxn(claimed, t, Txn(old(w).now, None, OnJob(job.value), None, None, false))
      ensures fault.BeginFails? || fault.ClaimFails? || fault.SavepointFails?
           || (job.None? <==> forall j :: j in claimed.jobs ==> !Claimable(claimed, old(w).now, j))
    {
      hide Inv, Can, Do, After, OwnCommits, Visited;
      if fault.BeginFails? {
        claimed := w;
        VisitedNow(merge, origin, trace, |old(trace)|, w);
        return None, claimed;
      }
      Begin(t, None);
      ghost var taken := Await(Some(t), waits.claim);
      claimed := w;
      VisitedNow(merge, origin, trace, |old(trace)|, w);
      ghost var before := trace;
      if !fault.ClaimFails? { job := ClaimNext(t); } else { job := None; }
      if job.None? || fault.SavepointFails? {
        Drop(t);
        job := None;
      }
      VisitedBefore(merge, origin, before, trace, |old(trace)|, |old(trace)|, claimed);
    }

    /** The attempt on the claimed job: None when the transaction was dropped. */
    method AttemptClaimed(t: nat, fault: Fault, waits: Waits)
      returns (ok: Option<bool>, ghost tried: World, ghost at: World)
      requires Valid() && t in w.txns && w.txns[t].claim.OnJob? && w.txns[t].claim.job in w.jobs
      requires w.txns[t].env.None? && !w.txns[t].failing && w.txns[t].write.None?
      modifies this`w, this`trace
      ensures Valid() && old(trace) <= trace && old(w).history <= w.history
      ensures Since(tried, |old(trace)|) && Since(at, |old(trace)|) && old(w).history <= at.history
      ensures ok.None? ==> !fault.NoFault? && !fault.WriteFails? && OwnCommits(trace, t) == old(OwnCommits(trace, t))
      ensures ok.Some? ==>
                var job, started := old(w).txns[t].claim.job, old(w).txns[t].started;
                && OwnCommits(trace, t) == old(OwnCommits(trace, t)) + 1
                && job in tried.jobs && job in at.jobs && old(w).jobs[job] == tried.jobs[job] == at.jobs[job]
                && ok.value == (fault != WriteFails && Writable(merge, tried, at.jobs[job]))
                && AttemptedOnce(merge, at.(txns := w.txns), w, job, started, ok.value)
                && (ok.value ==> Applies(merge, at, at.jobs[job]))
    {
      hide Inv, Can, Do, After, OwnCommits, Visited, Applies, Writable, AttemptedOnce;
      var written;
      written, tried := TryWrite(t, fault.WriteFails?, waits);
      ghost var before := trace;
      ghost var taken := Await(Some(t), waits.commit);
      at := w;
      VisitedNow(merge, origin, trace, |old(trace)|, w);
      ghost var until := trace;
      if written && !fault.CommitFails? {
        CommitWrite(t);
        ok := Some(true);
      } else if !written && !fault.RollbackFails? && !fault.RecordFails? && !fault.CommitFails? {
        RecordFailure(t);
        ok := Some(false);
      } else {
        Drop(t);
        ok := None;
      }
      VisitedBefore(merge, origin, before, trace, |old(trace)|, |old(trace)|, tried);
      VisitedBefore(merge, origin, until, trace, |old(trace)|, |old(trace)|, at);
    }

    method CommitWrite(t: nat)
      requires Valid() && t in w.txns && w.txns[t].claim.OnJob? && w.txns[t].write.Some?
      requires w.txns[t].claim.job in w.jobs
      modifies this`w, this`trace
      ensures Valid() && old(trace) <= trace && old(w).history <= w.history
      ensures OwnCommits(trace, t) == old(OwnCommits(trace, t)) + 1
      ensures var job, started := old(w).txns[t].claim.job, old(w).txns[t].started;
              && Applies(merge, old(w), old(w).jobs[job])
              && AttemptedOnce(merge, old(w).(txns := w.txns), w, job, started, true)
    {
      hide Inv, OwnCommits, After, Replay, FirstClaimable;
      CommitsMergeIntoTheCurrentFlag(merge, w, CommitJob(t));
      CountStep(trace, CommitJob(t), t);
      Take(CommitJob(t));
    }

    /** Undoes the write but keeps the claim until the failure and its time are committed. */
    method RecordFailure(t: nat)
      requires Valid() && t in w.txns && w.txns[t].claim.OnJob? && !w.txns[t].failing
      requires w.txns[t].claim.job in w.jobs
      modifies this`w, this`trace
      ensures Valid() && old(trace) <= trace && old(w).history <= w.history
      ensures OwnCommits(trace, t) == old(OwnCommits(trace, t)) + 1
      ensures var job, started := old(w).txns[t].claim.job, old(w).txns[t].started;
              AttemptedOnce(merge, old(w).(txns := w.txns), w, job, started, false)
    {
      hide Inv, OwnCommits, After, Replay, FirstClaimable;
      CountStep(trace, RollbackToSavepoint(t), t);
      Take(RollbackToSavepoint(t));
      CountStep(trace, CommitFailure(t), t);
      Take(CommitFailure(t));
    }

    /** Selects and locks the first claimable job, skipping locked ones. */
    method ClaimNext(t: nat) returns (job: Option<nat>)
      requires Valid() && t in w.txns && w.txns[t].claim.NoClaim? && w.txns[t].reviewer.None?
      modifies this`w, this`trace
      ensures Valid() && old(trace) <= trace && OwnCommits(trace, t) == old(OwnCommits(trace, t))
      ensures job.None? ==> w == old(w) && forall j :: j in w.jobs ==> !Claimable(w, w.txns[t].started, j)
      ensures job.Some? ==>
                && FirstClaimable(old(w), old(w).txns[t].started, job.value)
                && w == WithTxn(old(w), t, old(w).txns[t].(claim := OnJob(job.value)))
    {
      hide Inv, OwnCommits, After, Replay;
      var started := w.txns[t].started;
      if j :| j in w.jobs && Claimable(w, started, j) {
        ghost var first := FirstAmong(w, started, (set k | k in w.jobs && Claimable(w, started, k)), j);
        assert FirstClaimable(w, started, first);
        var k :| k in w.jobs && FirstClaimable(w, started, k);
        CountStep(trace, ClaimJob(t, k), t);
        Take(ClaimJob(t, k));
        return Some(k);
      }
      return None;
    }

    /** The share lock on the environment of the claimed row. */
    method ShareEnvironment(t: nat, slot: Publication.Slot, patch: Patch)
      requires Valid() && t in w.txns && !w.txns[t].failing && TargetOf(w, w.txns[t].claim) == Some((slot, patch))
      requires w.txns[t].claim.OnJob? ==> slot.env !in w.guarded
      modifies this`w, this`trace
      ensures Valid() && old(trace) <= trace && OwnCommits(trace, t) == old(OwnCommits(trace, t))
      ensures w == WithTxn(old(w), t, old(w).txns[t].(env := Some(slot.env)))
    {
      hide Inv, OwnCommits, After, Replay, FirstClaimable;
      CountStep(trace, LockEnvironment(t), t);
      Take(LockEnvironment(t));
    }

    /** Locks the flag and merges the claimed row's patch into it. */
    method WriteMerged(t: nat, slot: Publication.Slot, patch: Patch)
      requires Valid() && t in w.txns && w.txns[t].env.Some? && w.txns[t].write.None? && !FlagLocked(w, slot)
      requires TargetOf(w, w.txns[t].claim) == Some((slot, patch))
      requires slot in w.flags && merge(w.flags[slot], patch).Some?
      modifies this`w, this`trace
      ensures Valid() && old(trace) <= trace && OwnCommits(trace, t) == old(OwnCommits(trace, t))
      ensures w == WithTxn(old(w), t,
                           old(w).txns[t].(write := Some((slot, merge(old(w).flags[slot], patch).value))))
    {
      hide Inv, OwnCommits, After, Replay, FirstClaimable;
      CountStep(trace, WriteFlag(t), t);
      Take(WriteFlag(t));
    }

    /** Locks the environment, refuses if it requires approval, and merges the patch into the locked flag. A flag that
        stays locked by somebody else is a failed statement. */
    method TryWrite(t: nat, fails: bool, waits: Waits) returns (ok: bool, ghost tried: World)
      requires Valid() && t in w.txns && w.txns[t].claim.OnJob? && w.txns[t].claim.job in w.jobs
      requires w.txns[t].env.None? && !w.txns[t].failing && w.txns[t].write.None?
      modifies this`w, this`trace
      ensures Valid() && old(trace) <= trace && old(w).history <= w.history
      ensures OwnCommits(trace, t) == old(OwnCommits(trace, t)) && Since(tried, |old(trace)|)
      ensures var job := old(w).txns[t].claim.job;
              && job in tried.jobs && job in w.jobs && old(w).jobs[job] == tried.jobs[job] == w.jobs[job]
              && ok == (!fails && Writable(merge, tried, old(w).jobs[job]))
      ensures t in w.txns && w.txns[t] == old(w).txns[t].(env := w.txns[t].env, write := w.txns[t].write)
      ensures ok <==> w.txns[t].write.Some?
    {
      hide Inv, Can, Do, After, OwnCommits, Visited;
      var j := w.jobs[w.txns[t].claim.job];
      ghost var taken := Await(Some(t), waits.environment);
      if j.slot.env in w.guarded {
        tried := w;
        VisitedNow(merge, origin, trace, |old(trace)|, w);
        return false, tried;
      }
      ShareEnvironment(t, j.slot, j.patch);
      taken := Await(Some(t), waits.flag);
      tried := w;
      VisitedNow(merge, origin, trace, |old(trace)|, w);
      if fails || FlagLocked(w, j.slot) || j.slot !in w.flags || merge(w.flags[j.slot], j.patch).None? {
        return false, tried;
      }
      ghost var before := trace;
      WriteMerged(t, j.slot, j.patch);
      VisitedBefore(merge, origin, before, trace, |old(trace)|, |old(trace)|, tried);
      return true, tried;
    }

    /** One scheduler run: at most BATCH iterations, the i-th with the failure `faults[i]`. `commits` says where in the
        history its attempts are. If no database call failed and the batch was not used up, nothing was claimable
        when it stopped. */
    method ExecuteDue(faults: seq<Fault>, waits: seq<Waits>)
      returns (outcomes: seq<Outcome>, ghost commits: seq<nat>, ghost last: World, ghost started: int)
      requires Valid() && |waits| == |faults| == BATCH
      modifies this`w, this`trace
      ensures Valid() && old(trace) <= trace && old(w).history <= w.history
      ensures |outcomes| <= BATCH && Logged(w.history, |old(w).history|, outcomes, commits)
      ensures (forall f :: f in faults ==> f.NoFault? || f.WriteFails?) && |outcomes| < BATCH ==>
                && Since(last, |old(trace)|) && started <= last.now
                && forall j :: j in last.jobs ==> !Claimable(last, started, j)
    {
      hide Inv, Can, Do, After, OwnCommits, Visited, Applies, Writable, Logged;
      NothingLogged(w.history);
      outcomes, commits, last, started := [], [], w, w.now;
      for i := 0 to BATCH
        invariant Valid() && old(trace) <= trace && old(w).history <= w.history
        invariant |outcomes| == i && Logged(w.history, |old(w).history|, outcomes, commits)
      {
        ghost var earlier := w.history;
        var t := FreshTxn(w.txns.Keys);
        ghost var taken := Await(Some(t), waits[i].start);
        ghost var before := trace;
        started := w.now;
        var outcome;
        ghost var tried, at;
        outcome, last, tried, at := ExecuteNext(t, faults[i], waits[i]);
        VisitedBefore(merge, origin, trace, trace, |before|, |old(trace)|, last);
        if outcome.Stopped? {
          LogStays(earlier, w.history, |old(w).history|, outcomes, commits);
          return;
        }
        LogGrows(earlier, w.history, |old(w).history|, outcomes, commits, outcome);
        outcomes, commits := outcomes + [outcome], commits + [|w.history| - 1];
      }
    }

    method FreshTxn(used: set<nat>) returns (t: nat)
      ensures t !in used
    {
      t := 0;
      var todo := used;
      while todo != {}
        invariant forall v :: v in used && v !in todo ==> v < t
        decreases todo
      {
        var u :| u in todo;
        todo := todo - {u};
        if u >= t { t := u + 1; }
      }
    }

    /** Approval of request `id` in environment `env`. `commits` says whether the commit succeeds. `seen` is the moment
        when the request's row was locked and read, `at` the moment when the flag was merged or, after that,
        committed. */
    method Approve(t: nat, env: string, id: nat, caller: Option<string>, commits: bool, waits: Waits)
      returns (status: nat, ghost seen: World, ghost at: World)
      requires Valid() && t !in w.txns
      modifies this`w, this`trace
      ensures Valid() && old(trace) <= trace && Since(seen, |old(trace)|) && Since(at, |old(trace)|)
      ensures status in {OK, UNAUTHORIZED, FORBIDDEN, NOT_FOUND, CONFLICT, UNPROCESSABLE, FAILED}
      ensures status == UNAUTHORIZED <==> caller.None?
      ensures caller.Some? && status != FAILED ==>
                && (status == CONFLICT <==> Found(seen, env, id) && !seen.requests[id].status.Pending?)
                && (status == FORBIDDEN <==>
                      Found(seen, env, id) && seen.requests[id].status.Pending?
                      && seen.requests[id].requestedBy == caller.value)
                && (status in {OK, UNPROCESSABLE} ==> Reviewable(seen, env, id, caller.value))
      ensures caller.Some? && status != FAILED && Reviewable(seen, env, id, caller.value) ==>
                var r := seen.requests[id];
                && id in at.requests && at.requests[id] == r
                && (status == OK <==> r.slot in at.flags && merge(at.flags[r.slot], r.patch).Some?)
                && (status == NOT_FOUND <==> r.slot !in at.flags)
      ensures status == OK ==>
                var r := seen.requests[id];
                && OwnCommits(trace, t) == old(OwnCommits(trace, t)) + 1
                && w == at.(
                     flags := Merged(merge, at.flags, r.slot, r.patch),
                     requests := at.requests[id := r.(status := Approved, reviewedBy := caller)],
                     history := at.history + [RequestDone(id, r.slot, r.patch, caller.value)],
                     txns := at.txns - {t})
      ensures status != OK ==> OwnCommits(trace, t) == old(OwnCommits(trace, t)) && t !in w.txns
      ensures status == FAILED ==>
                !commits || Claimed(seen, OnRequest(id)) || (id in at.requests && FlagLocked(at, at.requests[id].slot))
    {
      hide Inv, Can, Do, After, OwnCommits, Visited, Merged;
      ghost var start := |trace|;
      if caller.None? {
        seen, at := w, w;
        VisitedNow(merge, origin, trace, start, w);
        return UNAUTHORIZED, seen, at;
      }
      Begin(t, caller);
      ghost var taken := Await(Some(t), waits.claim);
      seen, at := w, w;
      VisitedNow(merge, origin, trace, start, w);
      ghost var before := trace;
      if !Found(w, env, id) {
        status := NOT_FOUND;
      } else if Claimed(w, OnRequest(id)) {
        status := FAILED;
      } else if !w.requests[id].status.Pending? {
        status := CONFLICT;
      } else if w.requests[id].requestedBy == caller.value {
        status := FORBIDDEN;
      } else {
        status, at := WriteApproved(t, id, waits);
        VisitedBefore(merge, origin, trace, trace, |before|, start, at);
      }
      if status == OK {
        taken := Await(Some(t), waits.commit);
        at := w;
        VisitedNow(merge, origin, trace, start, w);
      }
      ghost var until := trace;
      if status == OK && commits {
        CommitApproved(t, id);
      } else {
        if status == OK { status := FAILED; }
        Drop(t);
      }
      VisitedBefore(merge, origin, before, trace, start, start, seen);
      VisitedBefore(merge, origin, until, trace, start, start, at);
    }

    /** Locks the request, the environment and the flag, and merges the requested patch. */
    method WriteApproved(t: nat, id: nat, waits: Waits) returns (status: nat, ghost at: World)
      requires Valid() && t in w.txns && w.txns[t].claim.NoClaim? && w.txns[t].reviewer.Some?
      requires !w.txns[t].failing && w.txns[t].write.None? && !Claimed(w, OnRequest(id))
      requires id in w.requests && w.requests[id].status.Pending?
      requires w.requests[id].requestedBy != w.txns[t].reviewer.value
      modifies this`w, this`trace
      ensures Valid() && old(trace) <= trace && Since(at, |old(trace)|)
      ensures OwnCommits(trace, t) == old(OwnCommits(trace, t))
      ensures id in at.requests && id in w.requests && old(w).requests[id] == at.requests[id] == w.requests[id]
      ensures var r := old(w).requests[id];
              status == (if FlagLocked(at, r.slot) then FAILED
                         else if r.slot !in at.flags then NOT_FOUND
                         else if merge(at.flags[r.slot], r.patch).None? then UNPROCESSABLE else OK)
      ensures t in w.txns && w.txns[t].claim == OnRequest(id) && w.txns[t].reviewer == old(w).txns[t].reviewer
      ensures status == OK ==> w.txns[t].write.Some?
    {
      hide Inv, Can, Do, After, OwnCommits, Visited;
      var r := w.requests[id];
      LockPending(t, id);
      ghost var taken := Await(Some(t), waits.environment);
      ShareEnvironment(t, r.slot, r.patch);
      taken := Await(Some(t), waits.flag);
      at := w;
      VisitedNow(merge, origin, trace, |old(trace)|, w);
      if FlagLocked(w, r.slot) { return FAILED, at; }
      if r.slot !in w.flags { return NOT_FOUND, at; }
      if merge(w.flags[r.slot], r.patch).None? { return UNPROCESSABLE, at; }
      ghost var before := trace;
      WriteMerged(t, r.slot, r.patch);
      VisitedBefore(merge, origin, before, trace, |old(trace)|, |old(trace)|, at);
      return OK, at;
    }

    method LockPending(t: nat, id: nat)
      requires Valid() && t in w.txns && w.txns[t].claim.NoClaim? && w.txns[t].reviewer.Some?
      requires !Claimed(w, OnRequest(id)) && id in w.requests && w.requests[id].status.Pending?
      requires w.requests[id].requestedBy != w.txns[t].reviewer.value
      modifies this`w, this`trace
      ensures Valid() && old(trace) <= trace && OwnCommits(trace, t) == old(OwnCommits(trace, t))
      ensures w == WithTxn(old(w), t, old(w).txns[t].(claim := OnRequest(id)))
    {
      hide Inv, OwnCommits, After, Replay, FirstClaimable;
      CountStep(trace, LockRequest(t, id), t);
      Take(LockRequest(t, id));
    }

    method CommitApproved(t: nat, id: nat)
      requires Valid() && t in w.txns && w.txns[t].claim == OnRequest(id) && id in w.requests
      requires w.txns[t].write.Some? && w.txns[t].reviewer.Some?
      modifies this`w, this`trace
      ensures Valid() && old(trace) <= trace && OwnCommits(trace, t) == old(OwnCommits(trace, t)) + 1
      ensures var r, reviewer := old(w).requests[id], old(w).txns[t].reviewer;
              && r.slot in old(w).flags && merge(old(w).flags[r.slot], r.patch).Some?
              && w == old(w).(
                flags := Merged(merge, old(w).flags, r.slot, r.patch),
                requests := old(w).requests[id := r.(status := Approved, reviewedBy := reviewer)],
                history := old(w).history + [RequestDone(id, r.slot, r.patch, reviewer.value)],
                txns := old(w).txns - {t})
    {
      hide Inv, OwnCommits, After, Replay, FirstClaimable;
      CommitsMergeIntoTheCurrentFlag(merge, w, CommitApproval(t));
      CountStep(trace, CommitApproval(t), t);
      Take(CommitApproval(t));
    }

    /** Rejection of a pending request, once nobody else holds its row; anyone with access may reject, the requester
        included. `seen` is the moment when the statement ran. */
    method Reject(env: string, id: nat, caller: Option<string>, waits: seq<Step>)
      returns (status: nat, ghost seen: World, ghost taken: seq<Step>)
      requires Valid()
      modifies this`w, this`trace
      ensures Valid() && Since(seen, |old(trace)|) && forall s :: s in taken ==> s in waits
      ensures status == NO_CONTENT <==>
                && caller.Some? && Found(seen, env, id) && seen.requests[id].status.Pending?
                && !Claimed(seen, OnRequest(id))
      ensures status == NO_CONTENT ==>
                && trace == old(trace) + taken + [RejectRequest(id, caller.value)]
                && w == seen.(requests := seen.requests[
                          id := seen.requests[id].(status := Rejected, reviewedBy := caller)])
      ensures status != NO_CONTENT ==>
                && w == seen && trace == old(trace) + taken
                && status == (if caller.None? then UNAUTHORIZED
                              else if Found(seen, env, id) && seen.requests[id].status.Pending? then FAILED
                              else NOT_FOUND)
    {
      hide Inv, After, OwnCommits, Visited;
      taken := [];
      if caller.Some? { taken := Await(None, waits); }
      seen := w;
      VisitedNow(merge, origin, trace, |old(trace)|, w);
      if caller.None? { return UNAUTHORIZED, seen, taken; }
      if !Found(w, env, id) || !w.requests[id].status.Pending? { return NOT_FOUND, seen, taken; }
      if Claimed(w, OnRequest(id)) { return FAILED, seen, taken; }
      ghost var before := trace;
      Take(RejectRequest(id, caller.value));
      VisitedBefore(merge, origin, before, trace, |old(trace)|, |old(trace)|, seen);
      return NO_CONTENT, seen, taken;
    }

    /** Withdrawal of a pending request, once nobody else holds its row: one's own, or any as an administrator. */
    method Cancel(env: string, id: nat, caller: Option<string>, admin: bool, waits: seq<Step>)
      returns (status: nat, ghost seen: World, ghost taken: seq<Step>)
      requires Valid()
      modifies this`w, this`trace
      ensures Valid() && Since(seen, |old(trace)|) && forall s :: s in taken ==> s in waits
      ensures status == NO_CONTENT <==>
                && caller.Some? && Withdrawable(seen, env, id, caller.value, admin) && !Claimed(seen, OnRequest(id))
      ensures status == NO_CONTENT ==>
                && trace == old(trace) + taken + [CancelRequest(id, caller.value, admin)]
                && w == seen.(requests := seen.requests - {id})
      ensures status != NO_CONTENT ==>
                && w == seen && trace == old(trace) + taken
                && status == (if caller.None? then FORBIDDEN
                              else if Withdrawable(seen, env, id, caller.value, admin) then FAILED else NOT_FOUND)
    {
      hide Inv, After, OwnCommits, Visited;
      taken := [];
      if caller.Some? { taken := Await(None, waits); }
      seen := w;
      VisitedNow(merge, origin, trace, |old(trace)|, w);
      if caller.None? { return FORBIDDEN, seen, taken; }
      if !Withdrawable(w, env, id, caller.value, admin) { return NOT_FOUND, seen, taken; }
      if Claimed(w, OnRequest(id)) { return FAILED, seen, taken; }
      ghost var before := trace;
      Take(CancelRequest(id, caller.value, admin));
      VisitedBefore(merge, origin, before, trace, |old(trace)|, |old(trace)|, seen);
      return NO_CONTENT, seen, taken;
    }

    /** A patch by a user: applied at once, or queued for approval when the environment requires it. Either way it
        is refused unless it merges into a valid flag: the flag that is committed then, when it is applied, and the
        flag that was read, when it is queued. */
    method PatchFlag(slot: Publication.Slot, patch: Patch, caller: Option<string>, commits: bool, waits: Waits)
      returns (status: nat, ghost seen: World, ghost at: World, ghost taken: seq<Step>)
      requires Valid()
      modifies this`w, this`trace
      ensures Valid() && Since(seen, |old(trace)|) && Since(at, |old(trace)|)
      ensures forall s :: s in taken ==> s in waits.flag + waits.commit
      ensures status in {OK, ACCEPTED, UNAUTHORIZED, NOT_FOUND, UNPROCESSABLE, FAILED}
      ensures status == OK || status == ACCEPTED ==>
                && slot in seen.flags && merge(seen.flags[slot], patch).Some?
                && (status == ACCEPTED <==> slot.env in seen.guarded)
      ensures status == OK ==>
                && at == seen && trace == old(trace) + taken + [PatchDirectly(slot, patch)]
                && w == at.(flags := Merged(merge, at.flags, slot, patch),
                            history := at.history + [PatchedDirectly(slot, patch)])
      ensures status == ACCEPTED ==>
                && caller.Some?
                && trace == old(trace) + taken + [AddRequest(Request(slot, patch, caller.value, Pending, None))]
                && w == at.(
                     requests := at.requests[at.nextRequest := Request(slot, patch, caller.value, Pending, None)],
                     nextRequest := at.nextRequest + 1)
      ensures status != OK && status != ACCEPTED ==> w == at && trace == old(trace) + taken
      ensures status == UNAUTHORIZED <==> slot.env in seen.guarded && caller.None?
      ensures status == NOT_FOUND <==>
                && slot !in seen.flags
                && (if slot.env in seen.guarded then caller.Some? && patch.wellFormed else !FlagLocked(seen, slot))
      ensures status == FAILED ==> !commits || FlagLocked(seen, slot)
    {
      hide Inv, Can, Do, After, OwnCommits, Visited, Merged;
      ghost var start := |trace|;
      taken := Await(None, waits.flag);
      seen, at := w, w;
      VisitedNow(merge, origin, trace, start, w);
      ghost var before := trace;
      if slot.env !in w.guarded {
        if FlagLocked(w, slot) { return FAILED, seen, at, taken; }
        if slot !in w.flags { return NOT_FOUND, seen, at, taken; }
        if merge(w.flags[slot], patch).None? { return UNPROCESSABLE, seen, at, taken; }
        if !commits { return FAILED, seen, at, taken; }
        PatchNow(slot, patch);
        VisitedBefore(merge, origin, before, trace, start, start, seen);
        return OK, seen, at, taken;
      }
      if caller.None? { return UNAUTHORIZED, seen, at, taken; }
      if !patch.wellFormed { return UNPROCESSABLE, seen, at, taken; }
      if slot !in w.flags { return NOT_FOUND, seen, at, taken; }
      if merge(w.flags[slot], patch).None? { return UNPROCESSABLE, seen, at, taken; }
      ghost var more := Await(None, waits.commit);
      taken := taken + more;
      at := w;
      VisitedNow(merge, origin, trace, start, w);
      VisitedBefore(merge, origin, before, trace, start, start, seen);
      if !commits { return FAILED, seen, at, taken; }
      before := trace;
      Enqueue(Request(slot, patch, caller.value, Pending, None));
      VisitedBefore(merge, origin, before, trace, start, start, seen);
      VisitedBefore(merge, origin, before, trace, start, start, at);
      return ACCEPTED, seen, at, taken;
    }

    method PatchNow(slot: Publication.Slot, patch: Patch)
      requires Valid() && !FlagLocked(w, slot) && slot.env !in w.guarded
      requires slot in w.flags && merge(w.flags[slot], patch).Some?
      modifies this`w, this`trace
      ensures Valid() && trace == old(trace) + [PatchDirectly(slot, patch)]
      ensures w == old(w).(flags := Merged(merge, old(w).flags, slot, patch),
                           history := old(w).history + [PatchedDirectly(slot, patch)])
    {
      hide Inv, OwnCommits, After, Replay, FirstClaimable;
      Take(PatchDirectly(slot, patch));
    }

    method Enqueue(r: Request)
      requires Valid() && r.status.Pending? && r.reviewedBy.None?
      modifies this`w, this`trace
      ensures Valid() && trace == old(trace) + [AddRequest(r)]
      ensures w == old(w).(requests := old(w).requests[old(w).nextRequest := r], nextRequest := old(w).nextRequest + 1)
    {
      hide Inv, OwnCommits, After, Replay, FirstClaimable;
      Take(AddRequest(r));
    }
  }
}
