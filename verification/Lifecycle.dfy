/** The life of a job in runs where every API write lands on a row that still
    passes the check the request made before it.  That is weaker than making the
    check and the write one atomic step, and `LegalIffTimely` shows that it is exactly
    what the life of every job needs. */
module Lifecycle {
  import opened Wrappers
  import opened Jobs
  import opened RedisLists
  import opened Protocol
  import opened Fencing

  /** The status an unguarded API write may meet without doing harm. */
  predicate Admits(t: CallStep, status: Status) {
    match t
    case WriteQueued => status.Pending? || status.Queued? || status.Retrying?
    case WriteCancelled => Cancellable(status) || status.Cancelled?
    case WriteRevived => status.Failed?
    case _ => true
  }

  predicate IsApiWrite(t: CallStep) {
    t.WriteQueued? || t.WriteCancelled? || t.WriteRevived?
  }

  predicate Timely(s: World, t: Step) {
    t.ByCall? && IsApiWrite(t.c) && t.call in s.calls && s.calls[t.call].job in s.rows ==>
      Admits(t.c, s.rows[s.calls[t.call].job].status)
  }

  ghost predicate TimelyRun(s: World, ts: seq<Step>)
    requires Runs(s, ts)
  {
    forall k :: 0 <= k < |ts| ==> (PrefixRuns(s, ts, k); Timely(After(s, ts[..k]), ts[k]))
  }

  /** What one write may do to the life of a job. */
  predicate LegalMove(r: Row, r': Row) {
    && (r'.worker.Some? <==> r'.status.Running?)
    && (r.status.Completed? || r.status.Cancelled? ==> r'.status == r.status)
    && (r.status.Failed? && r'.status != r.status ==> r'.status.Pending? && r'.retryCount == r.retryCount + 1)
    && (r'.retryCount != r.retryCount ==>
          r'.retryCount == r.retryCount + 1 &&
          ((r.status.Failed? && r'.status.Pending?) || (r.status.Running? && r'.status.Retrying?)))
  }

  /** The invariant of one job: its owner, its result and its accounts. */
  predicate RowInv(r: Row, y: Tally, hasResult: bool, now: Time) {
    && (r.worker.Some? <==> r.status.Running?)
    && (hasResult <==> r.status.Completed?)
    && (r.status.Failed? ==> r.retryCount >= MAX_RETRIES)
    && r.retryCount == y.autoRetries + y.manualRetries
    && y.autoRetries <= MAX_RETRIES
    && y.completions == One(r.status.Completed?)
    && y.failures == y.manualRetries + One(r.status.Failed?)
    && y.claims == y.completions + y.autoRetries + y.failures + y.recoveries + One(r.status.Running?)
    && r.createdAt <= now && r.updatedAt <= now
  }

  /** A fresh row read in the catch block still describes the row whenever the row
      is RUNNING at the version that was read. */
  predicate FreshRead(s: World, j: JobId, version: int, retryCount: nat) {
    && j in s.rows && version <= s.rows[j].version
    && (version == s.rows[j].version && s.rows[j].status.Running? ==> retryCount == s.rows[j].retryCount)
  }

  predicate AttemptInv(s: World, at: Attempt) {
    match at.pc
    case RetryWriting(v, n) => n < MAX_RETRIES && FreshRead(s, at.job, v, n)
    case FailWriting(v, n) => n >= MAX_RETRIES && FreshRead(s, at.job, v, n)
    case _ => true
  }

  ghost predicate JobsInv(s: World) {
    && s.tallies.Keys == s.rows.Keys && s.results <= s.rows.Keys
    && (forall j :: j in s.rows ==> RowInv(s.rows[j], s.tallies[j], j in s.results, s.now))
  }

  ghost predicate Inv(s: World) {
    && JobsInv(s)
    && (forall a :: a in s.attempts ==> AttemptInv(s, s.attempts[a]))
  }

  lemma Owned(s: World)
    requires JobsInv(s)
    ensures forall j :: j in s.rows ==> (s.rows[j].worker.Some? <==> s.rows[j].status.Running?)
  {
  }

  // ----- the invariant is kept: rows -----

  lemma WorkerRowKeeps(r: Row, y: Tally, hasResult: bool, at: Attempt, t: WorkerStep, now: Time)
    requires RowInv(r, y, hasResult, now) && WorkerGuard(r, at, t)
    requires t.WriteRetry? ==> r.retryCount < MAX_RETRIES
    requires t.WriteFailure? ==> r.retryCount >= MAX_RETRIES
    ensures RowInv(WorkerRow(r, at.worker, t, now), WorkerTally(y, t), hasResult || t.Complete?, now)
  {
  }

  lemma CallRowKeeps(r: Row, y: Tally, hasResult: bool, t: CallStep, now: Time)
    requires RowInv(r, y, hasResult, now)
    requires (IsApiWrite(t) ==> Admits(t, r.status)) && (t.WriteRollback? ==> RollbackGuard(r))
    ensures RowInv(CallRow(r, t, now), CallTally(y, t), hasResult, now)
  {
  }

  lemma NewRowKeeps(r: Row, y: Tally, hasResult: bool, at: Sweep, now: Time)
    requires RowInv(r, y, hasResult, now) && Writes(at) && Moves(at) && GuardOf(r, at)
    ensures RowInv(NewRow(r, at, now), NewTally(y, at), hasResult, now)
  {
  }

  // ----- the invariant is kept: worlds -----

  lemma JobsKept(s: World, s': World, j: JobId, r: Row, y: Tally, hasResult: bool)
    requires JobsInv(s) && s'.now == s.now
    requires s'.rows == s.rows[j := r] && s'.tallies == s.tallies[j := y]
    requires s'.results == s.results + (if hasResult then {j} else {}) && (j in s.results ==> hasResult)
    requires RowInv(r, y, hasResult, s.now)
    ensures JobsInv(s')
  {
  }

  lemma WorkerKeepsJobs(s: World, a: nat, t: WorkerStep)
    requires Inv(s) && WorkerEnabled(s, a, t)
    ensures JobsInv(WorkerApply(s, a, t))
  {
    hide NextPc, Pop, Forget, RowInv, WorkerGuard, WorkerRow, WorkerTally;
    if !t.PopJob? {
      var at := s.attempts[a];
      if !t.CleanUp? && WorkerWrites(s, at, t) {
        var r, y := s.rows[at.job], s.tallies[at.job];
        FreshWhenWriting(s, at, t);
        WorkerRowKeeps(r, y, at.job in s.results, at, t, s.now);
        JobsKept(s, WorkerApply(s, a, t), at.job, WorkerRow(r, at.worker, t, s.now), WorkerTally(y, t),
                 at.job in s.results || t.Complete?);
      }
    }
  }

  /** When a catch-block write matches, the retry count it was decided on is current. */
  lemma FreshWhenWriting(s: World, at: Attempt, t: WorkerStep)
    requires JobsInv(s) && AttemptInv(s, at) && WorkerWrites(s, at, t)
    ensures t.WriteRetry? ==> s.rows[at.job].retryCount < MAX_RETRIES
    ensures t.WriteFailure? ==> s.rows[at.job].retryCount >= MAX_RETRIES
  {
  }

  lemma CallKeepsJobs(s: World, c: nat, t: CallStep)
    requires JobsInv(s) && CallEnabled(s, c, t) && Timely(s, ByCall(c, t))
    ensures JobsInv(CallApply(s, c, t))
  {
    hide NextCall, Enqueue, RowInv, CallRow, CallTally;
    var j := CallJob(s, c, t);
    var s' := CallApply(s, c, t);
    if t.InsertJob? {
      assert RowInv(Created(t.priority, s.now), NO_HISTORY, false, s.now) by { NewJobKeeps(t.priority, s.now); }
      JobsKept(s, s', j, Created(t.priority, s.now), NO_HISTORY, false);
    } else if !t.PushJob? && CallWrites(s, j, t) {
      var r, y := s.rows[j], s.tallies[j];
      CallRowKeeps(r, y, j in s.results, t, s.now);
      JobsKept(s, s', j, CallRow(r, t, s.now), CallTally(y, t), j in s.results);
    }
  }

  lemma NewJobKeeps(p: Priority, now: Time)
    ensures RowInv(Created(p, now), NO_HISTORY, false, now)
  {
  }

  lemma AdvanceKeepsJobs(s: World, x: nat, at: Sweep)
    requires JobsInv(s) && Moves(at)
    ensures JobsInv(AdvanceApply(s, x, at))
  {
    hide NextAt, Enqueue, Forget, RowInv, GuardOf, NewRow, NewTally, IsPush;
    if !IsPush(at) && !(at.ScanRemoving? || at.RecoverRemoving?) && Matches(s, at) {
      var j := Subject(at).job;
      var r, y := s.rows[j], s.tallies[j];
      NewRowKeeps(r, y, j in s.results, at, s.now);
      JobsKept(s, AdvanceApply(s, x, at), j, NewRow(r, at, s.now), NewTally(y, at), j in s.results);
    }
  }

  // ----- the invariant is kept: attempts -----

  /** Attempts that do not move only see the rows evolve. */
  lemma AttemptKept(s: World, s': World, at: Attempt)
    requires RowsEvolve(s, s') && AttemptInv(s, at)
    ensures AttemptInv(s', at)
  {
  }

  lemma AllKept(s: World, s': World)
    requires RowsEvolve(s, s') && s'.attempts == s.attempts
    requires forall b :: b in s.attempts ==> AttemptInv(s, s.attempts[b])
    ensures forall b :: b in s'.attempts ==> AttemptInv(s', s'.attempts[b])
  {
    forall b | b in s'.attempts
      ensures AttemptInv(s', s'.attempts[b])
    {
      AttemptKept(s, s', s.attempts[b]);
    }
  }

  lemma WorkerKeepsAttempts(s: World, a: nat, t: WorkerStep)
    requires Inv(s) && WorkerEnabled(s, a, t)
    ensures var s' := WorkerApply(s, a, t); forall b :: b in s'.attempts ==> AttemptInv(s', s'.attempts[b])
  {
    hide WorkerEnabled, WorkerEffect, NextPc, Pop, AttemptInv, JobsInv, RowsEvolve;
    var s' := WorkerApply(s, a, t);
    WorkerEvolves(s, a, t);
    forall b | b in s'.attempts
      ensures AttemptInv(s', s'.attempts[b])
    {
      if b != a {
        AttemptKept(s, s', s.attempts[b]);
      } else {
        MoverKept(s, a, t);
      }
    }
  }

  lemma MoverKept(s: World, a: nat, t: WorkerStep)
    requires WorkerEnabled(s, a, t)
    ensures var s' := WorkerApply(s, a, t); a in s'.attempts ==> AttemptInv(s', s'.attempts[a])
  {
    hide Pop, Forget;
  }

  lemma WorkerKeeps(s: World, a: nat, t: WorkerStep)
    requires Inv(s) && WorkerEnabled(s, a, t)
    ensures Inv(WorkerApply(s, a, t))
  {
    hide WorkerApply, WorkerEnabled, JobsInv, AttemptInv;
    WorkerKeepsJobs(s, a, t);
    WorkerKeepsAttempts(s, a, t);
  }

  lemma CallKeeps(s: World, c: nat, t: CallStep)
    requires Inv(s) && CallEnabled(s, c, t) && Timely(s, ByCall(c, t))
    ensures Inv(CallApply(s, c, t))
  {
    hide CallApply, CallEnabled, JobsInv, AttemptInv, RowsEvolve, Timely;
    CallEvolves(s, c, t);
    OnlyWorkersMoveAttempts(s, ByCall(c, t));
    AllKept(s, CallApply(s, c, t));
    CallKeepsJobs(s, c, t);
  }

  lemma SweepKeeps(s: World, x: nat, t: SweepStep)
    requires Inv(s) && SweepEnabled(s, x, t)
    ensures Inv(SweepApply(s, x, t))
  {
    hide AdvanceApply, AttemptInv, RowsEvolve, IsPage, Current;
    StepEvolves(s, BySweep(x, t));
    OnlyWorkersMoveAttempts(s, BySweep(x, t));
    AllKept(s, SweepApply(s, x, t));
    if t.Advance? {
      AdvanceKeepsJobs(s, x, s.sweeps[x]);
    }
  }

  lemma StepKeeps(s: World, t: Step)
    requires Inv(s) && Enabled(s, t) && Timely(s, t)
    ensures Inv(Apply(s, t))
  {
    hide WorkerApply, CallApply, SweepApply;
    match t
    case ByWorker(a, w) => WorkerKeeps(s, a, w);
    case ByCall(c, k) => CallKeeps(s, c, k);
    case BySweep(x, p) => SweepKeeps(s, x, p);
    case _ =>
  }

  /** Every world a timely run reaches satisfies the invariant: a job has a worker
      exactly when it is RUNNING, a result exactly when it is COMPLETED, and
      balanced accounts. */
  lemma {:induction false} InvHolds(s: World, ts: seq<Step>)
    requires Init(s) && Runs(s, ts) && TimelyRun(s, ts)
    ensures Inv(After(s, ts))
    decreases |ts|
  {
    hide Apply, Enabled;
    if ts != [] {
      var n := |ts| - 1;
      PrefixRuns(s, ts, n);
      PrefixTimely(s, ts, n);
      InvHolds(s, ts[..n]);
      StepKeeps(After(s, ts[..n]), ts[n]);
    }
  }

  lemma PrefixTimely(s: World, ts: seq<Step>, n: nat)
    requires Runs(s, ts) && TimelyRun(s, ts) && n <= |ts|
    ensures Runs(s, ts[..n]) && TimelyRun(s, ts[..n])
  {
    hide Apply, Enabled;
    PrefixRuns(s, ts, n);
    forall k | 0 <= k < n
      ensures Runs(s, ts[..n][..k]) && Timely(After(s, ts[..n][..k]), ts[..n][k])
    {
      PrefixRuns(s, ts, k);
      assert ts[..n][..k] == ts[..k];
    }
  }
}
