/** Governed writes: the scheduler's workers and the reviewers of change requests as concurrent transactions
    over the job, request and flag rows. */
module Governance {
  import opened Options
  import opened Publication

  const BACKOFF := 60          // seconds between attempts on one job
  const BATCH := 50            // jobs per scheduler run

  datatype Doc = Doc(text: string)
  /** `wellFormed` says whether the patch passes the checks that do not look at the flag. */
  datatype Patch = Patch(text: string, wellFormed: bool)

  /** Merging a patch into a flag document; None when the result is not a valid flag. */
  type Merge = (Doc, Patch) -> Option<Doc>

  datatype Job = Job(
    slot: Slot, patch: Patch, due: int,
    executed: Option<int>, lastAttempt: Option<int>, attempts: nat, failed: bool)

  datatype Status = Pending | Approved | Rejected

  datatype Request = Request(
    slot: Slot, patch: Patch, requestedBy: string, status: Status, reviewedBy: Option<string>)

  /** What a transaction works on; the row is locked by it. */
  datatype Claim = NoClaim | OnJob(job: nat) | OnRequest(request: nat)

  /** An open transaction. `env` is the environment it share-locks; `write` is its uncommitted flag write, whose
      row it locks; `failing` means that it rolled back to its savepoint and will only record the failure. */
  datatype Txn = Txn(
    started: int, reviewer: Option<string>, claim: Claim, env: Option<string>,
    write: Option<(Slot, Doc)>, failing: bool)

  /** Committed transactions, in commit order. */
  datatype Commit =
    | JobDone(job: nat, slot: Slot, patch: Patch, started: int)
    | JobFailed(job: nat, started: int)
    | RequestDone(request: nat, slot: Slot, patch: Patch, reviewer: string)
    | PatchedDirectly(slot: Slot, patch: Patch)
    | Replaced(slot: Slot, doc: Option<Doc>)   // create, promote, delete

  datatype World = World(
    now: int,
    flags: map<Slot, Doc>,
    guarded: set<string>,        // environments that require approval
    jobs: map<nat, Job>, nextJob: nat,
    requests: map<nat, Request>, nextRequest: nat,
    txns: map<nat, Txn>,
    history: seq<Commit>)

  datatype Step =
    | Tick(seconds: nat)
    | BeginWork(t: nat)
    | BeginReview(t: nat, email: string)
    | ClaimJob(t: nat, job: nat)
    | LockRequest(t: nat, request: nat)
    | LockEnvironment(t: nat)
    | WriteFlag(t: nat)
    | RollbackToSavepoint(t: nat)
    | CommitJob(t: nat)
    | CommitFailure(t: nat)
    | CommitApproval(t: nat)
    | Abort(t: nat)
    | RejectRequest(request: nat, reviewer: string)
    | CancelRequest(request: nat, caller: string, admin: bool)
    | CancelJob(job: nat)
    | AddJob(newJob: Job)
    | AddRequest(newRequest: Request)
    | PatchDirectly(slot: Slot, patch: Patch)
    | Replace(slot: Slot, doc: Option<Doc>)
    | Guard(env: string, on: bool)

  // ---- Locks ----

  predicate Claimed(w: World, c: Claim) {
    exists t :: t in w.txns && w.txns[t].claim == c
  }

  predicate FlagLocked(w: World, slot: Slot) {
    exists t :: t in w.txns && w.txns[t].write.Some? && w.txns[t].write.value.0 == slot
  }

  predicate EnvironmentLocked(w: World, env: string) {
    exists t :: t in w.txns && w.txns[t].env == Some(env)
  }

  // ---- Steps ----

  /** Unexecuted, due, and not attempted within the backoff, as of the start of the transaction. */
  predicate Due(j: Job, started: int) {
    && j.executed.None?
    && j.due <= started
    && (j.lastAttempt.Some? ==> j.lastAttempt.value <= started - BACKOFF)
  }

  predicate Claimable(w: World, started: int, job: nat) {
    job in w.jobs && Due(w.jobs[job], started) && !Claimed(w, OnJob(job))
  }

  /** Locked rows are skipped; of the others the one that was due first is taken. */
  predicate FirstClaimable(w: World, started: int, job: nat) {
    && Claimable(w, started, job)
    && forall k :: k in w.jobs && Claimable(w, started, k) ==>
         w.jobs[job].due < w.jobs[k].due || (w.jobs[job].due == w.jobs[k].due && job <= k)
  }

  function TargetOf(w: World, c: Claim): Option<(Slot, Patch)> {
    match c
    case OnJob(j) => if j in w.jobs then Some((w.jobs[j].slot, w.jobs[j].patch)) else None
    case OnRequest(r) => if r in w.requests then Some((w.requests[r].slot, w.requests[r].patch)) else None
    case NoClaim => None
  }

  predicate Can(merge: Merge, w: World, step: Step) {
    match step
    case Tick(_) => true
    case BeginWork(t) => t !in w.txns
    case BeginReview(t, _) => t !in w.txns
    case ClaimJob(t, j) =>
      t in w.txns && w.txns[t].claim.NoClaim? && w.txns[t].reviewer.None? && FirstClaimable(w, w.txns[t].started, j)
    case LockRequest(t, r) =>
      t in w.txns && w.txns[t].claim.NoClaim? && w.txns[t].reviewer.Some? && r in w.requests
      && !Claimed(w, OnRequest(r))
      && w.requests[r].status.Pending? && w.requests[r].requestedBy != w.txns[t].reviewer.value
    case LockEnvironment(t) =>
      t in w.txns && !w.txns[t].failing && TargetOf(w, w.txns[t].claim).Some?
      && (w.txns[t].claim.OnJob? ==> TargetOf(w, w.txns[t].claim).value.0.env !in w.guarded)
    case WriteFlag(t) =>
      t in w.txns && w.txns[t].env.Some? && w.txns[t].write.None? && TargetOf(w, w.txns[t].claim).Some?
      && var (slot, patch) := TargetOf(w, w.txns[t].claim).value;
         slot in w.flags && !FlagLocked(w, slot) && merge(w.flags[slot], patch).Some?
    case RollbackToSavepoint(t) => t in w.txns && w.txns[t].claim.OnJob? && !w.txns[t].failing
    case CommitJob(t) => t in w.txns && w.txns[t].claim.OnJob? && w.txns[t].write.Some?
    case CommitFailure(t) => t in w.txns && w.txns[t].claim.OnJob? && w.txns[t].failing
    case CommitApproval(t) => t in w.txns && w.txns[t].claim.OnRequest? && w.txns[t].write.Some?
    case Abort(t) => t in w.txns
    case RejectRequest(r, _) => r in w.requests && w.requests[r].status.Pending? && !Claimed(w, OnRequest(r))
    case CancelRequest(r, caller, admin) =>
      r in w.requests && w.requests[r].status.Pending? && !Claimed(w, OnRequest(r))
      && (admin || w.requests[r].requestedBy == caller)
    case CancelJob(j) => j in w.jobs && w.jobs[j].executed.None? && !Claimed(w, OnJob(j))
    case AddJob(j) => j.executed.None? && j.lastAttempt.None? && j.attempts == 0
    case AddRequest(r) => r.status.Pending? && r.reviewedBy.None?
    case PatchDirectly(slot, patch) =>
      slot in w.flags && !FlagLocked(w, slot) && slot.env !in w.guarded && merge(w.flags[slot], patch).Some?
    case Replace(slot, doc) =>
      !FlagLocked(w, slot) && (slot.env !in w.guarded || (slot !in w.flags && doc.Some?))
    case Guard(env, _) => !EnvironmentLocked(w, env)
  }

  function WithTxn(w: World, t: nat, x: Txn): World {
    w.(txns := w.txns[t := x])
  }

  function End(w: World, t: nat, c: Commit): World {
    w.(txns := w.txns - {t}, history := w.history + [c])
  }

  function Attempted(j: Job, started: int, executed: bool): Job {
    j.(executed := if executed then Some(started) else j.executed, lastAttempt := Some(started),
       attempts := j.attempts + 1, failed := !executed)
  }

  function SetOrDrop(flags: map<Slot, Doc>, slot: Slot, doc: Option<Doc>): map<Slot, Doc> {
    if doc.Some? then flags[slot := doc.value] else flags - {slot}
  }

  function Do(merge: Merge, w: World, step: Step): World
    requires Can(merge, w, step) && Inv(merge, w)
  {
    match step
    case Tick(seconds) => w.(now := w.now + seconds)
    case BeginWork(t) => WithTxn(w, t, Txn(w.now, None, NoClaim, None, None, false))
    case BeginReview(t, email) => WithTxn(w, t, Txn(w.now, Some(email), NoClaim, None, None, false))
    case ClaimJob(t, j) => WithTxn(w, t, w.txns[t].(claim := OnJob(j)))
    case LockRequest(t, r) => WithTxn(w, t, w.txns[t].(claim := OnRequest(r)))
    case LockEnvironment(t) =>
      WithTxn(w, t, w.txns[t].(env := Some(TargetOf(w, w.txns[t].claim).value.0.env)))
    case WriteFlag(t) =>
      var (slot, patch) := TargetOf(w, w.txns[t].claim).value;
      WithTxn(w, t, w.txns[t].(write := Some((slot, merge(w.flags[slot], patch).value))))
    case RollbackToSavepoint(t) => WithTxn(w, t, w.txns[t].(env := None, write := None, failing := true))
    case CommitJob(t) =>
      var x, j := w.txns[t], w.txns[t].claim.job;
      End(w, t, JobDone(j, w.jobs[j].slot, w.jobs[j].patch, x.started))
        .(flags := w.flags[x.write.value.0 := x.write.value.1],
          jobs := w.jobs[j := Attempted(w.jobs[j], x.started, true)])
    case CommitFailure(t) =>
      var x, j := w.txns[t], w.txns[t].claim.job;
      End(w, t, JobFailed(j, x.started)).(jobs := w.jobs[j := Attempted(w.jobs[j], x.started, false)])
    case CommitApproval(t) =>
      var x, r := w.txns[t], w.txns[t].claim.request;
      End(w, t, RequestDone(r, w.requests[r].slot, w.requests[r].patch, x.reviewer.value))
        .(flags := w.flags[x.write.value.0 := x.write.value.1],
          requests := w.requests[r := w.requests[r].(status := Approved, reviewedBy := x.reviewer)])
    case Abort(t) => w.(txns := w.txns - {t})
    case RejectRequest(r, reviewer) =>
      w.(requests := w.requests[r := w.requests[r].(status := Rejected, reviewedBy := Some(reviewer))])
    case CancelRequest(r, _, _) => w.(requests := w.requests - {r})
    case CancelJob(j) => w.(jobs := w.jobs - {j})
    case AddJob(j) => w.(jobs := w.jobs[w.nextJob := j], nextJob := w.nextJob + 1)
    case AddRequest(r) => w.(requests := w.requests[w.nextRequest := r], nextRequest := w.nextRequest + 1)
    case PatchDirectly(slot, patch) =>
      w.(flags := w.flags[slot := merge(w.flags[slot], patch).value],
         history := w.history + [PatchedDirectly(slot, patch)])
    case Replace(slot, doc) =>
      w.(flags := SetOrDrop(w.flags, slot, doc), history := w.history + [Replaced(slot, doc)])
    case Guard(env, on) => w.(guarded := if on then w.guarded + {env} else w.guarded - {env})
  }

  // ---- What the history says ----

  function Merged(merge: Merge, flags: map<Slot, Doc>, slot: Slot, patch: Patch): map<Slot, Doc> {
    if slot in flags && merge(flags[slot], patch).Some? then flags[slot := merge(flags[slot], patch).value] else flags
  }

  /** The flags after replaying the patches of the history in commit order, from nothing. */
  function Replay(merge: Merge, history: seq<Commit>): map<Slot, Doc> {
    if |history| == 0 then map[]
    else
      var before := Replay(merge, history[..|history| - 1]);
      match history[|history| - 1]
      case JobDone(_, slot, patch, _) => Merged(merge, before, slot, patch)
      case RequestDone(_, slot, patch, _) => Merged(merge, before, slot, patch)
      case PatchedDirectly(slot, patch) => Merged(merge, before, slot, patch)
      case Replaced(slot, doc) => SetOrDrop(before, slot, doc)
      case JobFailed(_, _) => before
  }

  function Executions(history: seq<Commit>, job: nat): nat {
    if |history| == 0 then 0
    else
      Executions(history[..|history| - 1], job)
      + (if history[|history| - 1].JobDone? && history[|history| - 1].job == job then 1 else 0)
  }

  function Failures(history: seq<Commit>, job: nat): nat {
    if |history| == 0 then 0
    else
      Failures(history[..|history| - 1], job)
      + (if history[|history| - 1].JobFailed? && history[|history| - 1].job == job then 1 else 0)
  }

  function Approvals(history: seq<Commit>, request: nat): nat {
    if |history| == 0 then 0
    else
      Approvals(history[..|history| - 1], request)
      + (if history[|history| - 1].RequestDone? && history[|history| - 1].request == request then 1 else 0)
  }

  lemma Append(merge: Merge, history: seq<Commit>, c: Commit, id: nat)
    ensures Executions(history + [c], id) == Executions(history, id) + (if c.JobDone? && c.job == id then 1 else 0)
    ensures Failures(history + [c], id) == Failures(history, id) + (if c.JobFailed? && c.job == id then 1 else 0)
    ensures Approvals(history + [c], id)
         == Approvals(history, id) + (if c.RequestDone? && c.request == id then 1 else 0)
    ensures Replay(merge, history + [c]) ==
              match c
              case JobDone(_, slot, patch, _) => Merged(merge, Replay(merge, history), slot, patch)
              case RequestDone(_, slot, patch, _) => Merged(merge, Replay(merge, history), slot, patch)
              case PatchedDirectly(slot, patch) => Merged(merge, Replay(merge, history), slot, patch)
              case Replaced(slot, doc) => SetOrDrop(Replay(merge, history), slot, doc)
              case JobFailed(_, _) => Replay(merge, history)
  {
    assert (history + [c])[..|history|] == history;
  }

  predicate AttemptOn(c: Commit, job: nat) {
    (c.JobDone? || c.JobFailed?) && c.job == job
  }

  // ---- The invariant ----

  /** A job was executed once or not at all, its attempts are its failures and its execution, and no attempt
      started after the recorded last one. */
  predicate JobOk(history: seq<Commit>, id: nat, j: Job) {
    && Executions(history, id) == (if j.executed.Some? then 1 else 0)
    && j.attempts == Failures(history, id) + Executions(history, id)
    && forall i :: 0 <= i < |history| && AttemptOn(history[i], id) ==>
         && j.lastAttempt.Some? && history[i].started <= j.lastAttempt.value
         && (history[i].JobDone? ==> history[i].slot == j.slot && history[i].patch == j.patch)
  }

  /** A request was applied exactly when it is approved, once, and not by its requester. */
  predicate RequestOk(history: seq<Commit>, id: nat, r: Request) {
    && Approvals(history, id) == (if r.status.Approved? then 1 else 0)
    && (r.status.Approved? ==> r.reviewedBy.Some? && r.reviewedBy.value != r.requestedBy)
    && forall i :: 0 <= i < |history| && history[i].RequestDone? && history[i].request == id ==>
         history[i].slot == r.slot && history[i].patch == r.patch && r.reviewedBy == Some(history[i].reviewer)
  }

  /** Attempts on one job start at least the backoff apart. */
  predicate Spaced(history: seq<Commit>) {
    forall i, j :: 0 <= i < j < |history| && IsAttempt(history[i]) && AttemptOn(history[j], history[i].job) ==>
      history[i].started + BACKOFF <= history[j].started
  }

  predicate IsAttempt(c: Commit) {
    c.JobDone? || c.JobFailed?
  }

  /** Rows that are gone were never applied, and numbers to come are unused. */
  predicate NoneForgotten(w: World) {
    && (forall i :: 0 <= i < |w.history| && w.history[i].JobDone? ==> w.history[i].job in w.jobs)
    && (forall i :: 0 <= i < |w.history| && w.history[i].JobFailed? ==> w.history[i].job < w.nextJob)
    && (forall i :: 0 <= i < |w.history| && w.history[i].RequestDone? ==> w.history[i].request in w.requests)
    && (forall j :: j in w.jobs ==> j < w.nextJob)
    && (forall r :: r in w.requests ==> r < w.nextRequest)
  }

  /** An open transaction still finds its row as it claimed it, and its write is still the merge of its patch
      into the committed flag. */
  predicate TxnOk(merge: Merge, w: World, x: Txn) {
    && (x.claim.OnJob? ==> x.reviewer.None? && x.claim.job in w.jobs && Due(w.jobs[x.claim.job], x.started))
    && (x.claim.OnRequest? ==>
          x.reviewer.Some? && x.claim.request in w.requests
          && w.requests[x.claim.request].status.Pending?
          && w.requests[x.claim.request].requestedBy != x.reviewer.value)
    && (x.write.Some? ==> x.env.Some?)
    && (x.failing ==> x.env.None?)
    && (x.env.Some? ==>
          TargetOf(w, x.claim).Some? && x.env.value == TargetOf(w, x.claim).value.0.env
          && (x.claim.OnJob? ==> x.env.value !in w.guarded))
    && (x.write.Some? ==>
          var (slot, patch) := TargetOf(w, x.claim).value;
          x.write.value.0 == slot && slot in w.flags && merge(w.flags[slot], patch) == Some(x.write.value.1))
  }

  /** Row locks are exclusive. */
  predicate Exclusive(txns: map<nat, Txn>) {
    forall s, t :: s in txns && t in txns && s != t ==> Apart(txns[s], txns[t])
  }

  predicate Apart(x: Txn, y: Txn) {
    && (x.claim == y.claim ==> x.claim.NoClaim?)
    && (x.write.Some? && y.write.Some? ==> x.write.value.0 != y.write.value.0)
  }

  predicate Inv(merge: Merge, w: World) {
    && w.flags == Replay(merge, w.history)
    && (forall j :: j in w.jobs ==> JobOk(w.history, j, w.jobs[j]))
    && (forall r :: r in w.requests ==> RequestOk(w.history, r, w.requests[r]))
    && Spaced(w.history)
    && NoneForgotten(w)
    && (forall t :: t in w.txns ==> TxnOk(merge, w, w.txns[t]))
    && Exclusive(w.txns)
  }

  // ---- Every step keeps the invariant ----

  /** Steps inside a transaction change nothing that is committed. */
  predicate InsideTransaction(step: Step) {
    step.Tick? || step.BeginWork? || step.BeginReview? || step.ClaimJob? || step.LockRequest?
    || step.LockEnvironment? || step.WriteFlag? || step.RollbackToSavepoint? || step.Abort?
  }

  lemma TxnKeepsInv(merge: Merge, w: World, t: nat, x: Txn)
    requires Inv(merge, w) && TxnOk(merge, w, x)
    requires forall s :: s in w.txns && s != t ==> Apart(w.txns[s], x)
    ensures Inv(merge, WithTxn(w, t, x))
  {
    var v := WithTxn(w, t, x);
    forall s | s in v.txns ensures TxnOk(merge, v, v.txns[s]) {
      SameRows(merge, w, v, v.txns[s]);
    }
    forall r, s | r in v.txns && s in v.txns && r != s ensures Apart(v.txns[r], v.txns[s]) {
      if r != t && s != t { assert Apart(w.txns[r], w.txns[s]); }
    }
  }

  lemma SameRows(merge: Merge, w: World, v: World, x: Txn)
    requires TxnOk(merge, w, x)
    requires v.jobs == w.jobs && v.requests == w.requests && v.flags == w.flags && v.guarded == w.guarded
    ensures TxnOk(merge, v, x)
  {
  }

  lemma InsideKeepsInv(merge: Merge, w: World, step: Step)
    requires Inv(merge, w) && Can(merge, w, step) && InsideTransaction(step)
    ensures Inv(merge, Do(merge, w, step))
  {
    var v := Do(merge, w, step);
    if step.Tick? || step.Abort? {
      forall s | s in v.txns ensures TxnOk(merge, v, v.txns[s]) {
        SameRows(merge, w, v, w.txns[s]);
      }
    } else {
      var t := step.t;
      InsideIsApart(merge, w, step);
      if t in w.txns { assert TxnOk(merge, w, w.txns[t]); }
      TxnKeepsInv(merge, w, t, v.txns[t]);
    }
  }

  lemma InsideIsApart(merge: Merge, w: World, step: Step)
    requires Inv(merge, w) && Can(merge, w, step) && InsideTransaction(step) && !step.Tick? && !step.Abort?
    ensures forall s :: s in w.txns && s != step.t ==> Apart(w.txns[s], Do(merge, w, step).txns[step.t])
  {
    forall s | s in w.txns && s != step.t ensures Apart(w.txns[s], Do(merge, w, step).txns[step.t]) {
      if step.t in w.txns { assert Apart(w.txns[s], w.txns[step.t]); }
    }
  }

  lemma AttemptKeepsJob(merge: Merge, history: seq<Commit>, c: Commit, id: nat, j: Job, started: int)
    requires JobOk(history, id, j) && Due(j, started)
    requires c == JobDone(id, j.slot, j.patch, started) || c == JobFailed(id, started)
    ensures JobOk(history + [c], id, Attempted(j, started, c.JobDone?))
  {
    Append(merge, history, c, id);
  }

  lemma OtherKeepsJob(merge: Merge, history: seq<Commit>, c: Commit, id: nat, j: Job)
    requires JobOk(history, id, j) && !AttemptOn(c, id)
    ensures JobOk(history + [c], id, j)
  {
    Append(merge, history, c, id);
  }

  lemma OtherKeepsRequest(merge: Merge, history: seq<Commit>, c: Commit, id: nat, r: Request)
    requires RequestOk(history, id, r) && !(c.RequestDone? && c.request == id)
    ensures RequestOk(history + [c], id, r)
  {
    Append(merge, history, c, id);
  }

  lemma AttemptKeepsSpaced(history: seq<Commit>, c: Commit, j: Job)
    requires Spaced(history) && IsAttempt(c) && JobOk(history, c.job, j) && Due(j, c.started)
    ensures Spaced(history + [c])
  {
    var h := history + [c];
    forall i, k | 0 <= i < k < |h| && IsAttempt(h[i]) && AttemptOn(h[k], h[i].job)
      ensures h[i].started + BACKOFF <= h[k].started
    {
      if k == |history| { assert AttemptOn(history[i], c.job); }
    }
  }

  lemma OtherKeepsSpaced(history: seq<Commit>, c: Commit)
    requires Spaced(history) && !IsAttempt(c)
    ensures Spaced(history + [c])
  {
  }

  /** A commit or another write leaves the remaining transactions as they were. */
  lemma OthersStay(merge: Merge, w: World, v: World, t: nat)
    requires Inv(merge, w) && t in w.txns
    requires v.txns == w.txns - {t} && v.guarded == w.guarded
    requires forall j :: j in w.jobs && w.txns[t].claim != OnJob(j) ==> j in v.jobs && v.jobs[j] == w.jobs[j]
    requires forall r :: r in w.requests && w.txns[t].claim != OnRequest(r) ==>
               r in v.requests && v.requests[r] == w.requests[r]
    requires forall s :: s in w.flags && !(w.txns[t].write.Some? && w.txns[t].write.value.0 == s) ==>
               s in v.flags && v.flags[s] == w.flags[s]
    ensures forall u :: u in v.txns ==> TxnOk(merge, v, v.txns[u])
    ensures Exclusive(v.txns)
  {
    forall u | u in v.txns ensures TxnOk(merge, v, v.txns[u]) {
      assert TxnOk(merge, w, w.txns[u]) && Apart(w.txns[u], w.txns[t]);
    }
    forall a, b | a in v.txns && b in v.txns && a != b ensures Apart(v.txns[a], v.txns[b]) {
      assert Apart(w.txns[a], w.txns[b]);
    }
  }

  lemma CommitJobKeepsInv(merge: Merge, w: World, t: nat)
    requires Inv(merge, w) && Can(merge, w, CommitJob(t))
    ensures Inv(merge, Do(merge, w, CommitJob(t)))
  {
    var v, x, id := Do(merge, w, CommitJob(t)), w.txns[t], w.txns[t].claim.job;
    var c := JobDone(id, w.jobs[id].slot, w.jobs[id].patch, x.started);
    assert TxnOk(merge, w, x);
    AttemptKeepsInv(merge, w, v, c, t);
    assert v.flags == Replay(merge, v.history) by { Append(merge, w.history, c, id); }
    OthersStay(merge, w, v, t);
    NextIsKnown(w, v, c);
  }

  lemma CommitFailureKeepsInv(merge: Merge, w: World, t: nat)
    requires Inv(merge, w) && Can(merge, w, CommitFailure(t))
    ensures Inv(merge, Do(merge, w, CommitFailure(t)))
  {
    var v, x, id := Do(merge, w, CommitFailure(t)), w.txns[t], w.txns[t].claim.job;
    var c := JobFailed(id, x.started);
    assert TxnOk(merge, w, x);
    AttemptKeepsInv(merge, w, v, c, t);
    assert v.flags == Replay(merge, v.history) by { Append(merge, w.history, c, id); }
    OthersStay(merge, w, v, t);
    NextIsKnown(w, v, c);
  }

  lemma NextIsKnown(w: World, v: World, c: Commit)
    requires NoneForgotten(w) && v.history == w.history + [c]
    requires v.jobs.Keys == w.jobs.Keys && v.requests.Keys == w.requests.Keys
    requires v.nextJob == w.nextJob && v.nextRequest == w.nextRequest
    requires IsAttempt(c) ==> c.job in w.jobs
    requires c.RequestDone? ==> c.request in w.requests
    ensures NoneForgotten(v)
  {
  }

  predicate IsAttemptOf(w: World, v: World, c: Commit, t: nat) {
    && t in w.txns && w.txns[t].claim.OnJob? && w.txns[t].claim.job in w.jobs
    && var id := w.txns[t].claim.job;
       && (c == JobDone(id, w.jobs[id].slot, w.jobs[id].patch, w.txns[t].started)
           || c == JobFailed(id, w.txns[t].started))
       && v.jobs == w.jobs[id := Attempted(w.jobs[id], w.txns[t].started, c.JobDone?)]
       && v.history == w.history + [c]
  }

  /** What an attempt, successful or not, keeps about the jobs. */
  lemma AttemptKeepsJobs(merge: Merge, w: World, v: World, c: Commit, t: nat)
    requires Inv(merge, w) && IsAttemptOf(w, v, c, t)
    ensures forall j :: j in v.jobs ==> JobOk(v.history, j, v.jobs[j])
  {
    assert TxnOk(merge, w, w.txns[t]);
    forall j | j in v.jobs ensures JobOk(v.history, j, v.jobs[j]) {
      if j == c.job {
        AttemptKeepsJob(merge, w.history, c, j, w.jobs[j], c.started);
      } else {
        OtherKeepsJob(merge, w.history, c, j, w.jobs[j]);
      }
    }
  }

  /** What it keeps about the requests and the history. */
  lemma AttemptKeepsInv(merge: Merge, w: World, v: World, c: Commit, t: nat)
    requires Inv(merge, w) && IsAttemptOf(w, v, c, t) && v.requests == w.requests
    ensures forall j :: j in v.jobs ==> JobOk(v.history, j, v.jobs[j])
    ensures forall r :: r in v.requests ==> RequestOk(v.history, r, v.requests[r])
    ensures Spaced(v.history)
  {
    assert TxnOk(merge, w, w.txns[t]);
    AttemptKeepsJobs(merge, w, v, c, t);
    AttemptKeepsSpaced(w.history, c, w.jobs[c.job]);
    NoApprovalKeepsRequests(merge, w, v, c);
  }

  lemma CommitApprovalKeepsInv(merge: Merge, w: World, t: nat)
    requires Inv(merge, w) && Can(merge, w, CommitApproval(t))
    ensures Inv(merge, Do(merge, w, CommitApproval(t)))
  {
    var v, x, id := Do(merge, w, CommitApproval(t)), w.txns[t], w.txns[t].claim.request;
    var c := RequestDone(id, w.requests[id].slot, w.requests[id].patch, x.reviewer.value);
    assert TxnOk(merge, w, x);
    NoAttemptKeepsJobs(merge, w, v, c);
    ApprovalKeepsRequests(merge, w, v, c);
    assert v.flags == Replay(merge, v.history) by { Append(merge, w.history, c, id); }
    OthersStay(merge, w, v, t);
    NextIsKnown(w, v, c);
  }

  lemma ApprovalKeepsRequests(merge: Merge, w: World, v: World, c: Commit)
    requires Inv(merge, w) && c.RequestDone? && c.request in w.requests
    requires var r := w.requests[c.request];
             && r.status.Pending? && c.slot == r.slot && c.patch == r.patch && c.reviewer != r.requestedBy
             && v.requests == w.requests[c.request := r.(status := Approved, reviewedBy := Some(c.reviewer))]
    requires v.history == w.history + [c]
    ensures forall r :: r in v.requests ==> RequestOk(v.history, r, v.requests[r])
  {
    forall r | r in v.requests ensures RequestOk(v.history, r, v.requests[r]) {
      if r == c.request {
        ApprovalKeepsRequest(merge, w.history, c, w.requests[r]);
      } else {
        OtherKeepsRequest(merge, w.history, c, r, w.requests[r]);
      }
    }
  }

  lemma NoAttemptKeepsJobs(merge: Merge, w: World, v: World, c: Commit)
    requires Inv(merge, w) && !IsAttempt(c)
    requires v.history == w.history + [c] && v.jobs == w.jobs
    ensures forall j :: j in v.jobs ==> JobOk(v.history, j, v.jobs[j])
    ensures Spaced(v.history)
  {
    OtherKeepsSpaced(w.history, c);
    forall j | j in v.jobs ensures JobOk(v.history, j, v.jobs[j]) {
      OtherKeepsJob(merge, w.history, c, j, w.jobs[j]);
    }
  }

  lemma ApprovalKeepsRequest(merge: Merge, history: seq<Commit>, c: Commit, r: Request)
    requires c.RequestDone? && RequestOk(history, c.request, r) && r.status.Pending?
    requires c.slot == r.slot && c.patch == r.patch && c.reviewer != r.requestedBy
    ensures RequestOk(history + [c], c.request, r.(status := Approved, reviewedBy := Some(c.reviewer)))
  {
    Append(merge, history, c, c.request);
    NoneCounted(merge, history, c.request);
  }

  /** A count of zero means that no entry is counted. */
  lemma {:induction false} NoneCounted(merge: Merge, history: seq<Commit>, id: nat)
    ensures Approvals(history, id) == 0
       <==> forall i :: 0 <= i < |history| ==> !(history[i].RequestDone? && history[i].request == id)
    ensures Executions(history, id) == 0
       <==> forall i :: 0 <= i < |history| ==> !(history[i].JobDone? && history[i].job == id)
    ensures Failures(history, id) == 0
       <==> forall i :: 0 <= i < |history| ==> !(history[i].JobFailed? && history[i].job == id)
  {
    if |history| > 0 {
      var init := history[..|history| - 1];
      NoneCounted(merge, init, id);
      assert forall i :: 0 <= i < |init| ==> history[i] == init[i];
    }
  }

  lemma PatchDirectlyKeepsInv(merge: Merge, w: World, slot: Slot, patch: Patch)
    requires Inv(merge, w) && Can(merge, w, PatchDirectly(slot, patch))
    ensures Inv(merge, Do(merge, w, PatchDirectly(slot, patch)))
  {
    var v, c := Do(merge, w, PatchDirectly(slot, patch)), PatchedDirectly(slot, patch);
    Append(merge, w.history, c, 0);
    OtherWriteKeepsInv(merge, w, v.flags, c);
  }

  lemma ReplaceKeepsInv(merge: Merge, w: World, slot: Slot, doc: Option<Doc>)
    requires Inv(merge, w) && Can(merge, w, Replace(slot, doc))
    ensures Inv(merge, Do(merge, w, Replace(slot, doc)))
  {
    var v, c := Do(merge, w, Replace(slot, doc)), Replaced(slot, doc);
    Append(merge, w.history, c, 0);
    OtherWriteKeepsInv(merge, w, v.flags, c);
  }

  /** Writes that bypass jobs and requests. */
  lemma OtherWriteKeepsInv(merge: Merge, w: World, flags: map<Slot, Doc>, c: Commit)
    requires Inv(merge, w) && (c.PatchedDirectly? || c.Replaced?) && !FlagLocked(w, c.slot)
    requires flags == Replay(merge, w.history + [c])
    requires forall s :: s != c.slot && s in w.flags ==> s in flags && flags[s] == w.flags[s]
    ensures Inv(merge, w.(flags := flags, history := w.history + [c]))
  {
    var v := w.(flags := flags, history := w.history + [c]);
    NoAttemptKeepsJobs(merge, w, v, c);
    NoApprovalKeepsRequests(merge, w, v, c);
    OtherWriteKeepsTxns(merge, w, v, c.slot);
  }

  lemma NoApprovalKeepsRequests(merge: Merge, w: World, v: World, c: Commit)
    requires Inv(merge, w) && !c.RequestDone?
    requires v.history == w.history + [c] && v.requests == w.requests
    ensures forall r :: r in v.requests ==> RequestOk(v.history, r, v.requests[r])
  {
    forall r | r in v.requests ensures RequestOk(v.history, r, v.requests[r]) {
      OtherKeepsRequest(merge, w.history, c, r, w.requests[r]);
    }
  }

  lemma OtherWriteKeepsTxns(merge: Merge, w: World, v: World, slot: Slot)
    requires Inv(merge, w) && !FlagLocked(w, slot)
    requires v.txns == w.txns && v.jobs == w.jobs && v.requests == w.requests && v.guarded == w.guarded
    requires forall s :: s != slot && s in w.flags ==> s in v.flags && v.flags[s] == w.flags[s]
    ensures forall t :: t in v.txns ==> TxnOk(merge, v, v.txns[t])
  {
    forall t | t in v.txns ensures TxnOk(merge, v, v.txns[t]) {
      assert TxnOk(merge, w, w.txns[t]);
    }
  }

  /** An unclaimed request is rejected. */
  lemma RejectKeepsInv(merge: Merge, w: World, r: nat, reviewer: string)
    requires Inv(merge, w) && Can(merge, w, RejectRequest(r, reviewer))
    ensures Inv(merge, Do(merge, w, RejectRequest(r, reviewer)))
  {
    var v := Do(merge, w, RejectRequest(r, reviewer));
    NoneCounted(merge, w.history, r);
    assert RequestOk(v.history, r, v.requests[r]);
    RequestRowsKeepTxns(merge, w, v, r);
  }

  /** An unclaimed request is withdrawn. */
  lemma CancelKeepsInv(merge: Merge, w: World, step: Step)
    requires Inv(merge, w) && Can(merge, w, step) && step.CancelRequest?
    ensures Inv(merge, Do(merge, w, step))
  {
    var v := Do(merge, w, step);
    NoneCounted(merge, w.history, step.request);
    RequestRowsKeepTxns(merge, w, v, step.request);
  }

  /** A request is added under a new number, which no approval has used. */
  lemma AddRequestKeepsInv(merge: Merge, w: World, r: Request)
    requires Inv(merge, w) && Can(merge, w, AddRequest(r))
    ensures Inv(merge, Do(merge, w, AddRequest(r)))
  {
    var v := Do(merge, w, AddRequest(r));
    NoneCounted(merge, w.history, w.nextRequest);
    assert RequestOk(v.history, w.nextRequest, r);
    RequestRowsKeepTxns(merge, w, v, w.nextRequest);
  }

  lemma RequestRowsKeepTxns(merge: Merge, w: World, v: World, request: nat)
    requires Inv(merge, w) && !Claimed(w, OnRequest(request))
    requires v.txns == w.txns && v.flags == w.flags && v.jobs == w.jobs && v.guarded == w.guarded
    requires forall r :: r in w.requests && r != request ==> r in v.requests && v.requests[r] == w.requests[r]
    ensures forall t :: t in v.txns ==> TxnOk(merge, v, v.txns[t])
  {
    forall t | t in v.txns ensures TxnOk(merge, v, v.txns[t]) {
      assert TxnOk(merge, w, w.txns[t]) && w.txns[t].claim != OnRequest(request);
    }
  }

  /** An unclaimed job is withdrawn. */
  lemma CancelJobKeepsInv(merge: Merge, w: World, job: nat)
    requires Inv(merge, w) && Can(merge, w, CancelJob(job))
    ensures Inv(merge, Do(merge, w, CancelJob(job)))
  {
    var v := Do(merge, w, CancelJob(job));
    NoneCounted(merge, w.history, job);
    JobRowsKeepTxns(merge, w, v, job);
  }

  /** A job is added under a new number, which no attempt has used. */
  lemma AddJobKeepsInv(merge: Merge, w: World, j: Job)
    requires Inv(merge, w) && Can(merge, w, AddJob(j))
    ensures Inv(merge, Do(merge, w, AddJob(j)))
  {
    var v := Do(merge, w, AddJob(j));
    NoneCounted(merge, w.history, w.nextJob);
    assert JobOk(v.history, w.nextJob, j);
    JobRowsKeepTxns(merge, w, v, w.nextJob);
  }

  lemma JobRowsKeepTxns(merge: Merge, w: World, v: World, job: nat)
    requires Inv(merge, w) && !Claimed(w, OnJob(job))
    requires v.txns == w.txns && v.flags == w.flags && v.requests == w.requests && v.guarded == w.guarded
    requires forall j :: j in w.jobs && j != job ==> j in v.jobs && v.jobs[j] == w.jobs[j]
    ensures forall t :: t in v.txns ==> TxnOk(merge, v, v.txns[t])
  {
    forall t | t in v.txns ensures TxnOk(merge, v, v.txns[t]) {
      assert TxnOk(merge, w, w.txns[t]) && w.txns[t].claim != OnJob(job);
    }
  }

  /** The approval policy of an environment changes only while no write holds it. */
  lemma GuardKeepsInv(merge: Merge, w: World, step: Step)
    requires Inv(merge, w) && Can(merge, w, step) && step.Guard?
    ensures Inv(merge, Do(merge, w, step))
  {
    var v := Do(merge, w, step);
    forall t | t in v.txns ensures TxnOk(merge, v, v.txns[t]) {
      assert TxnOk(merge, w, w.txns[t]) && w.txns[t].env != Some(step.env);
    }
  }

  lemma StepKeepsInv(merge: Merge, w: World, step: Step)
    requires Inv(merge, w) && Can(merge, w, step)
    ensures Inv(merge, Do(merge, w, step))
  {
    if InsideTransaction(step) {
      InsideKeepsInv(merge, w, step);
    } else {
      match step {
        case CommitJob(t) => CommitJobKeepsInv(merge, w, t);
        case CommitFailure(t) => CommitFailureKeepsInv(merge, w, t);
        case CommitApproval(t) => CommitApprovalKeepsInv(merge, w, t);
        case PatchDirectly(slot, patch) => PatchDirectlyKeepsInv(merge, w, slot, patch);
        case Replace(slot, doc) => ReplaceKeepsInv(merge, w, slot, doc);
        case CancelJob(j) => CancelJobKeepsInv(merge, w, j);
        case AddJob(j) => AddJobKeepsInv(merge, w, j);
        case Guard(_, _) => GuardKeepsInv(merge, w, step);
        case RejectRequest(r, reviewer) => RejectKeepsInv(merge, w, r, reviewer);
        case CancelRequest(_, _, _) => CancelKeepsInv(merge, w, step);
        case AddRequest(r) => AddRequestKeepsInv(merge, w, r);
      }
    }
  }

  // ---- Whole runs ----

  predicate Initial(w: World) {
    w.flags == map[] && w.jobs == map[] && w.requests == map[] && w.txns == map[] && w.history == []
  }

  lemma InitialInv(merge: Merge, w: World)
    requires Initial(w)
    ensures Inv(merge, w)
  {
  }

  predicate StepsTo(merge: Merge, w: World, step: Step, v: World) {
    Inv(merge, w) ==> Can(merge, w, step) && v == Do(merge, w, step)
  }

  /** `ws` is a run: any interleaving of any number of workers, reviewers and other writers. */
  predicate IsRun(merge: Merge, ws: seq<World>, steps: seq<Step>) {
    && |ws| == |steps| + 1 && Initial(ws[0])
    && forall i :: 0 <= i < |steps| ==> StepsTo(merge, ws[i], steps[i], ws[i + 1])
  }

  lemma {:induction false} RunKeepsInv(merge: Merge, ws: seq<World>, steps: seq<Step>, n: nat)
    requires IsRun(merge, ws, steps) && n < |ws|
    ensures Inv(merge, ws[n])
  {
    if n == 0 {
      InitialInv(merge, ws[0]);
    } else {
      RunKeepsInv(merge, ws, steps, n - 1);
      assert StepsTo(merge, ws[n - 1], steps[n - 1], ws[n - 1 + 1]);
      StepKeepsInv(merge, ws[n - 1], steps[n - 1]);
    }
  }

  /** Conservation. In every state of every run the flags are the fold, in commit order, of the patches in the
      history. Executed jobs and approved requests are in it exactly once, with their own patch; no other job or
      request is in it; a job's attempts are its failures plus its execution; attempts on one job start at least
      a minute apart; and nobody approved their own request. */
  lemma PatchesAreConserved(merge: Merge, ws: seq<World>, steps: seq<Step>, n: nat)
    requires IsRun(merge, ws, steps) && n < |ws|
    ensures var w := ws[n];
            && w.flags == Replay(merge, w.history)
            && (forall j :: j in w.jobs ==>
                  Executions(w.history, j) == (if w.jobs[j].executed.Some? then 1 else 0)
                  && w.jobs[j].attempts == Failures(w.history, j) + Executions(w.history, j))
            && (forall r :: r in w.requests ==>
                  Approvals(w.history, r) == (if w.requests[r].status.Approved? then 1 else 0)
                  && (w.requests[r].status.Approved? ==> w.requests[r].reviewedBy != Some(w.requests[r].requestedBy)))
            && (forall i :: 0 <= i < |w.history| && w.history[i].JobDone? ==>
                  w.history[i].job in w.jobs
                  && w.history[i].slot == w.jobs[w.history[i].job].slot
                  && w.history[i].patch == w.jobs[w.history[i].job].patch)
            && (forall i :: 0 <= i < |w.history| && w.history[i].RequestDone? ==>
                  w.history[i].request in w.requests
                  && w.history[i].slot == w.requests[w.history[i].request].slot
                  && w.history[i].patch == w.requests[w.history[i].request].patch
                  && w.requests[w.history[i].request].reviewedBy == Some(w.history[i].reviewer))
            && Spaced(w.history)
  {
    RunKeepsInv(merge, ws, steps, n);
    var w := ws[n];
    forall i | 0 <= i < |w.history| && w.history[i].JobDone?
      ensures w.history[i].job in w.jobs
        && w.history[i].slot == w.jobs[w.history[i].job].slot && w.history[i].patch == w.jobs[w.history[i].job].patch
    {
      assert AttemptOn(w.history[i], w.history[i].job);
      assert JobOk(w.history, w.history[i].job, w.jobs[w.history[i].job]);
    }
    forall i | 0 <= i < |w.history| && w.history[i].RequestDone?
      ensures w.history[i].request in w.requests
        && w.history[i].slot == w.requests[w.history[i].request].slot
        && w.history[i].patch == w.requests[w.history[i].request].patch
        && w.requests[w.history[i].request].reviewedBy == Some(w.history[i].reviewer)
    {
      assert RequestOk(w.history, w.history[i].request, w.requests[w.history[i].request]);
    }
  }

  /** No patch is merged into a stale flag: a commit stores the merge of its patch into the flag that is
      committed at that moment. A scheduled patch is never applied while its environment requires approval. */
  lemma CommitsMergeIntoTheCurrentFlag(merge: Merge, w: World, step: Step)
    requires Inv(merge, w) && Can(merge, w, step) && (step.CommitJob? || step.CommitApproval?)
    ensures TargetOf(w, w.txns[step.t].claim).Some?
    ensures var (slot, patch) := TargetOf(w, w.txns[step.t].claim).value;
            && slot in w.flags && merge(w.flags[slot], patch).Some?
            && Do(merge, w, step).flags == w.flags[slot := merge(w.flags[slot], patch).value]
            && (step.CommitJob? ==> slot.env !in w.guarded)
  {
    assert TxnOk(merge, w, w.txns[step.t]);
  }

  /** While an environment requires approval, a flag of it changes only by an approval, and not by the one who
      asked for the change. */
  lemma GuardedFlagsNeedApproval(merge: Merge, w: World, step: Step, slot: Slot)
    requires Inv(merge, w) && Can(merge, w, step)
    requires slot.env in w.guarded && slot in w.flags
    requires var v := Do(merge, w, step); slot !in v.flags || v.flags[slot] != w.flags[slot]
    ensures step.CommitApproval? && w.txns[step.t].claim.OnRequest?
    ensures var r := w.txns[step.t].claim.request;
            && r in w.requests && w.requests[r].slot == slot
            && w.requests[r].requestedBy != w.txns[step.t].reviewer.value
            && Do(merge, w, step).history ==
               w.history + [RequestDone(r, slot, w.requests[r].patch, w.txns[step.t].reviewer.value)]
  {
    if step.CommitJob? || step.CommitApproval? {
      CommitsMergeIntoTheCurrentFlag(merge, w, step);
      assert TxnOk(merge, w, w.txns[step.t]);
    }
  }

  predicate ApprovedBetween(history: seq<Commit>, from: nat, until: nat, slot: Slot) {
    exists i :: from <= i < until && i < |history| && history[i].RequestDone? && history[i].slot == slot
  }

  /** The same over whole runs: a flag whose environment requires approval all along is untouched, unless an
      approval of a change to it was committed in the meantime. */
  lemma {:induction false} GuardedFlagsStay(
    merge: Merge, ws: seq<World>, steps: seq<Step>, from: nat, until: nat, slot: Slot)
    requires IsRun(merge, ws, steps) && from <= until < |ws|
    requires forall k :: from <= k <= until ==> slot.env in ws[k].guarded
    requires slot in ws[from].flags
    ensures ws[from].history <= ws[until].history
    ensures (slot in ws[until].flags && ws[until].flags[slot] == ws[from].flags[slot])
         || ApprovedBetween(ws[until].history, |ws[from].history|, |ws[until].history|, slot)
    decreases until
  {
    if from < until {
      GuardedFlagsStay(merge, ws, steps, from, until - 1, slot);
      var w, step := ws[until - 1], steps[until - 1];
      RunKeepsInv(merge, ws, steps, until - 1);
      assert StepsTo(merge, w, step, ws[until - 1 + 1]);
      assert w.history <= ws[until].history;
      if ApprovedBetween(w.history, |ws[from].history|, |w.history|, slot) {
        var i :| |ws[from].history| <= i < |w.history| && w.history[i].RequestDone? && w.history[i].slot == slot;
        assert ws[until].history[i] == w.history[i];
      } else if slot !in ws[until].flags || ws[until].flags[slot] != w.flags[slot] {
        GuardedFlagsNeedApproval(merge, w, step, slot);
        assert ws[until].history[|w.history|].slot == slot;
      }
    }
  }
}
