/** Consequences of the invariant for whole timely runs, and the exact cost of the
    API's unguarded writes. */
module JobTheorems {
  import opened Wrappers
  import opened Jobs
  import opened Protocol
  import opened Fencing
  import opened Lifecycle

  lemma RunInv(s: World, ts: seq<Step>, k: nat)
    requires Init(s) && Runs(s, ts) && TimelyRun(s, ts) && k <= |ts|
    ensures Runs(s, ts[..k]) && Inv(After(s, ts[..k]))
  {
    hide Apply, Enabled;
    PrefixTimely(s, ts, k);
    InvHolds(s, ts[..k]);
  }

  // ----- ownership and status -----

  /** The retry and fail writes do not look at the status, yet they only ever fire
      on a RUNNING row of the writing worker, and only with a retry count that is
      still the one the catch block read. */
  lemma FailureWritesHitRunningRows(s: World, ts: seq<Step>, k: nat, a: nat)
    requires Init(s) && Runs(s, ts) && TimelyRun(s, ts) && k < |ts|
    requires ts[k] == ByWorker(a, WriteFailure) || (ts[k].ByWorker? && ts[k].attempt == a && ts[k].w.WriteRetry?)
    ensures Runs(s, ts[..k]) && a in After(s, ts[..k]).attempts
    ensures var u := After(s, ts[..k]);
            var at := u.attempts[a];
            (at.pc.RetryWriting? || at.pc.FailWriting?) &&
            (at.job in u.rows && FailureGuard(u.rows[at.job], at.pc.version, at.worker) ==>
              u.rows[at.job].status.Running? && u.rows[at.job].retryCount == at.pc.retryCount)
  {
    hide Apply;
    RunInv(s, ts, k);
    PrefixRuns(s, ts, k);
    var u := After(s, ts[..k]);
    assert AttemptInv(u, u.attempts[a]);
  }

  ghost predicate LegalMoves(s: World, s': World) {
    forall j :: j in s.rows ==> j in s'.rows && LegalMove(s.rows[j], s'.rows[j])
  }

  lemma StepLegal(s: World, t: Step)
    requires Inv(s) && Enabled(s, t) && Timely(s, t)
    ensures LegalMoves(s, Apply(s, t))
  {
    hide WorkerApply, CallApply, SweepApply;
    match t
    case ByWorker(a, w) => WorkerLegal(s, a, w);
    case ByCall(c, k) => CallLegal(s, c, k);
    case BySweep(x, p) => SweepLegal(s, x, p);
    case _ =>
  }

  lemma WorkerLegal(s: World, a: nat, t: WorkerStep)
    requires Inv(s) && WorkerEnabled(s, a, t)
    ensures LegalMoves(s, WorkerApply(s, a, t))
  {
    hide WorkerApply, JobsInv, AttemptInv, WorkerRow, WorkerGuard, LegalMove;
    Owned(s);
    WorkerRows(s, a, t);
    forall j | j in s.rows
      ensures LegalMove(s.rows[j], s.rows[j])
    {
      StillLegal(s.rows[j]);
    }
    if !t.PopJob? && WorkerWrites(s, s.attempts[a], t) {
      WorkerRowLegal(s.rows[s.attempts[a].job], s.attempts[a], t, s.now);
    }
  }

  lemma StillLegal(r: Row)
    requires r.worker.Some? <==> r.status.Running?
    ensures LegalMove(r, r)
  {
  }

  lemma WorkerRowLegal(r: Row, at: Attempt, t: WorkerStep, now: Time)
    requires (r.worker.Some? <==> r.status.Running?) && WorkerGuard(r, at, t)
    ensures LegalMove(r, WorkerRow(r, at.worker, t, now))
  {
  }

  lemma NewRowLegal(r: Row, at: Sweep, now: Time)
    requires (r.worker.Some? <==> r.status.Running?) && Writes(at) && Moves(at) && GuardOf(r, at)
    ensures LegalMove(r, NewRow(r, at, now))
  {
  }

  lemma CallLegal(s: World, c: nat, t: CallStep)
    requires Inv(s) && CallEnabled(s, c, t) && Timely(s, ByCall(c, t))
    ensures LegalMoves(s, CallApply(s, c, t))
  {
    hide CallApply, JobsInv, AttemptInv;
    Owned(s);
    CallRows(s, c, t);
  }

  lemma SweepLegal(s: World, x: nat, t: SweepStep)
    requires Inv(s) && SweepEnabled(s, x, t)
    ensures LegalMoves(s, SweepApply(s, x, t))
  {
    hide AdvanceApply, IsPage, Current, AttemptInv, JobsInv;
    Owned(s);
    if t.Advance? {
      AdvanceLegal(s, x, s.sweeps[x]);
    }
  }

  lemma AdvanceLegal(s: World, x: nat, at: Sweep)
    requires forall j :: j in s.rows ==> (s.rows[j].worker.Some? <==> s.rows[j].status.Running?)
    requires Moves(at)
    ensures LegalMoves(s, AdvanceApply(s, x, at))
  {
    hide AdvanceApply, NewRow, GuardOf, LegalMove;
    AdvanceRows(s, x, at);
    forall j | j in s.rows
      ensures LegalMove(s.rows[j], s.rows[j])
    {
      StillLegal(s.rows[j]);
    }
    if Matches(s, at) {
      NewRowLegal(s.rows[Subject(at).job], at, s.now);
    }
  }

  /** Every single step of a timely run moves every job legally: COMPLETED and
      CANCELLED are never left, FAILED is left only to PENDING with one more
      retry, and `retryCount` grows only then and on RUNNING to RETRYING. */
  lemma MovesAreLegal(s: World, ts: seq<Step>, k: nat)
    requires Init(s) && Runs(s, ts) && TimelyRun(s, ts) && k < |ts|
    ensures Runs(s, ts[..k]) && Runs(s, ts[..k + 1])
    ensures LegalMoves(After(s, ts[..k]), After(s, ts[..k + 1]))
  {
    hide Apply, Enabled;
    RunInv(s, ts, k);
    PrefixRuns(s, ts, k);
    StepLegal(After(s, ts[..k]), ts[k]);
  }

  lemma TerminalMove(u: World, u': World, j: JobId)
    requires LegalMoves(u, u') && j in u.rows && (u.rows[j].status.Completed? || u.rows[j].status.Cancelled?)
    ensures j in u'.rows && u'.rows[j].status == u.rows[j].status
  {
  }

  lemma {:induction false} TerminalForever(s: World, ts: seq<Step>, i: nat, k: nat, j: JobId)
    requires Init(s) && Runs(s, ts) && TimelyRun(s, ts) && i <= k <= |ts|
    requires Runs(s, ts[..i]) && j in After(s, ts[..i]).rows
    requires var r := After(s, ts[..i]).rows[j]; r.status.Completed? || r.status.Cancelled?
    ensures Runs(s, ts[..k]) && j in After(s, ts[..k]).rows
    ensures After(s, ts[..k]).rows[j].status == After(s, ts[..i]).rows[j].status
    decreases k
  {
    hide Apply, Enabled, TimelyRun, Init, LegalMoves;
    PrefixRuns(s, ts, k);
    if i < k {
      TerminalForever(s, ts, i, k - 1, j);
      MovesAreLegal(s, ts, k - 1);
      TerminalMove(After(s, ts[..k - 1]), After(s, ts[..k]), j);
    }
  }

  // ----- retries -----

  /** How long after its failure number `n` a job is due again: 5 to 10 s, 15 to 30 s,
      half a minute to a minute, then one to two minutes. */
  predicate DueIn(n: nat, wait: Time) {
    if n == 1 then 5_000 <= wait <= 10_000
    else if n == 2 then 15_000 <= wait <= 30_000
    else if n == 3 then 30_000 <= wait <= 60_000
    else 60_000 <= wait <= 120_000
  }

  /** An automatic retry that matches counts one more and is due in time. */
  lemma RetryIsDue(s: World, ts: seq<Step>, k: nat, a: nat, at: Time)
    requires Init(s) && Runs(s, ts) && TimelyRun(s, ts) && k < |ts| && ts[k] == ByWorker(a, WriteRetry(at))
    requires Runs(s, ts[..k]) && var u := After(s, ts[..k]); a in u.attempts && WorkerWrites(u, u.attempts[a], ts[k].w)
    ensures Runs(s, ts[..k + 1])
    ensures var u, u' := After(s, ts[..k]), After(s, ts[..k + 1]);
            var j := u.attempts[a].job;
            && j in u.rows && j in u'.rows && u'.rows[j].status.Retrying?
            && u'.rows[j].retryCount == u.rows[j].retryCount + 1 <= 4
            && u'.rows[j].nextRetryAt == Some(at) && DueIn(u'.rows[j].retryCount, at - u.now)
  {
    hide Apply, Enabled;
    RunInv(s, ts, k);
    PrefixRuns(s, ts, k);
    RetryStep(After(s, ts[..k]), a, at);
  }

  lemma RetryStep(u: World, a: nat, at: Time)
    requires Inv(u) && Enabled(u, ByWorker(a, WriteRetry(at)))
    requires a in u.attempts && WorkerWrites(u, u.attempts[a], WriteRetry(at))
    ensures var u' := Apply(u, ByWorker(a, WriteRetry(at)));
            var j := u.attempts[a].job;
            && j in u.rows && j in u'.rows && u'.rows[j].status.Retrying?
            && u'.rows[j].retryCount == u.rows[j].retryCount + 1 <= 4
            && u'.rows[j].nextRetryAt == Some(at) && DueIn(u'.rows[j].retryCount, at - u.now)
  {
    hide JobsInv, RowInv;
    WorkerRows(u, a, WriteRetry(at));
    JobFacts(u, u.attempts[a].job);
    Decided(u, u.attempts[a]);
  }

  lemma JobFacts(u: World, j: JobId)
    requires Inv(u) && j in u.rows
    ensures j in u.tallies && RowInv(u.rows[j], u.tallies[j], j in u.results, u.now)
  {
  }

  lemma Decided(u: World, at: Attempt)
    requires Inv(u) && at.job in u.rows && AttemptInv(u, at) && at.pc.RetryWriting?
    requires FailureGuard(u.rows[at.job], at.pc.version, at.worker)
    ensures u.rows[at.job].retryCount == at.pc.retryCount < MAX_RETRIES
  {
  }

  // ----- completions -----

  /** Step `k` is a completion transaction of job `j` whose row update matches. */
  ghost predicate MatchesAt(s: World, ts: seq<Step>, k: nat, j: JobId)
    requires Runs(s, ts)
  {
    k < |ts| && ts[k].ByWorker? && ts[k].w.Complete? &&
    (PrefixRuns(s, ts, k);
     var u := After(s, ts[..k]);
     var at := u.attempts[ts[k].attempt];
     at.job == j && Owns(u, j, at.worker, at.pc.version))
  }

  lemma CompleteEffect(u: World, a: nat, j: JobId)
    requires Inv(u) && Enabled(u, ByWorker(a, Complete))
    requires u.attempts[a].job == j && Owns(u, j, u.attempts[a].worker, u.attempts[a].pc.version)
    ensures j !in u.results
    ensures var u' := Apply(u, ByWorker(a, Complete)); j in u'.rows && u'.rows[j].status.Completed? && j in u'.results
  {
  }

  /** A job's completion matches at most once in a timely run, before the unique
      constraint on results is ever consulted; it commits with the result. */
  lemma CompletesOnce(s: World, ts: seq<Step>, i: nat, k: nat, j: JobId)
    requires Init(s) && Runs(s, ts) && TimelyRun(s, ts) && i < k && MatchesAt(s, ts, i, j)
    ensures !MatchesAt(s, ts, k, j)
    ensures Runs(s, ts[..i]) && j !in After(s, ts[..i]).results
    ensures Runs(s, ts[..i + 1]) && j in After(s, ts[..i + 1]).results
  {
    hide Apply, Enabled;
    RunInv(s, ts, i);
    PrefixRuns(s, ts, i);
    CompleteEffect(After(s, ts[..i]), ts[i].attempt, j);
    if MatchesAt(s, ts, k, j) {
      TerminalForever(s, ts, i + 1, k, j);
      assert false;
    }
  }

  // ----- accounts -----

  /** Conservation and bounds, in every world a timely run reaches. */
  lemma Accounts(s: World, ts: seq<Step>, j: JobId)
    requires Init(s) && Runs(s, ts) && TimelyRun(s, ts) && j in After(s, ts).rows
    ensures var u := After(s, ts);
            var r := u.rows[j];
            j in u.tallies && var y := u.tallies[j];
            && (r.worker.Some? <==> r.status.Running?)
            && (j in u.results <==> r.status.Completed?)
            && y.claims == y.completions + y.autoRetries + y.failures + y.recoveries + One(r.status.Running?)
            && r.retryCount == y.autoRetries + y.manualRetries
            && y.completions <= 1 && y.autoRetries <= 4
            && (r.status.Failed? ==> r.retryCount >= 4)
            && y.claims <= 5 + y.manualRetries + y.recoveries
  {
    hide Apply, Enabled;
    InvHolds(s, ts);
  }

  // ----- what the unguarded writes need, exactly -----

  /** In a world that satisfies the invariant, a late API write moves its job
      legally exactly when it meets a status that `Admits` lists: the condition
      on runs in this module is the weakest one under which jobs live legally. */
  lemma ApiWriteIsLegalIff(s: World, c: nat, t: CallStep)
    requires Inv(s) && CallEnabled(s, c, t) && IsApiWrite(t) && s.calls[c].job in s.rows
    ensures var j := s.calls[c].job;
            j in CallApply(s, c, t).rows &&
            (LegalMove(s.rows[j], CallApply(s, c, t).rows[j]) <==> Admits(t, s.rows[j].status))
  {
  }

  /** Step `k` moves every job legally. */
  ghost predicate LegalAt(s: World, ts: seq<Step>, k: nat)
    requires Runs(s, ts) && k < |ts|
  {
    PrefixRuns(s, ts, k);
    LegalMoves(After(s, ts[..k]), After(s, ts[..k + 1]))
  }

  ghost predicate LegalRun(s: World, ts: seq<Step>)
    requires Runs(s, ts)
  {
    forall k :: 0 <= k < |ts| ==> LegalAt(s, ts, k)
  }

  lemma PrefixLegal(s: World, ts: seq<Step>, n: nat)
    requires Runs(s, ts) && LegalRun(s, ts) && n <= |ts|
    ensures Runs(s, ts[..n]) && LegalRun(s, ts[..n])
  {
    hide Apply, Enabled, LegalMoves;
    PrefixRuns(s, ts, n);
    forall k | 0 <= k < n
      ensures LegalAt(s, ts[..n], k)
    {
      assert LegalAt(s, ts, k);
      PrefixRuns(s, ts, k);
      assert ts[..n][..k] == ts[..k] && ts[..n][..k + 1] == ts[..k + 1];
    }
  }

  lemma LegalStepIsTimely(s: World, t: Step)
    requires Inv(s) && Enabled(s, t) && LegalMoves(s, Apply(s, t))
    ensures Timely(s, t)
  {
    hide WorkerApply, CallApply, SweepApply, Inv, LegalMove, Admits;
    if t.ByCall? && IsApiWrite(t.c) && s.calls[t.call].job in s.rows {
      ApiWriteIsLegalIff(s, t.call, t.c);
    }
  }

  lemma {:induction false} LegalIsTimely(s: World, ts: seq<Step>)
    requires Init(s) && Runs(s, ts) && LegalRun(s, ts)
    ensures TimelyRun(s, ts)
    decreases |ts|
  {
    hide Apply, Enabled, LegalMoves, Inv, Timely;
    if ts != [] {
      var n := |ts| - 1;
      PrefixLegal(s, ts, n);
      LegalIsTimely(s, ts[..n]);
      InvHolds(s, ts[..n]);
      PrefixRuns(s, ts, n);
      assert ts[..n + 1] == ts;
      assert LegalAt(s, ts, n);
      LegalStepIsTimely(After(s, ts[..n]), ts[n]);
      forall k | 0 <= k < |ts|
        ensures Runs(s, ts[..k]) && Timely(After(s, ts[..k]), ts[k])
      {
        PrefixRuns(s, ts, k);
        if k < n {
          assert ts[..n][..k] == ts[..k];
        }
      }
    }
  }

  /** The timely runs are exactly those in which jobs live legally. */
  lemma LegalIffTimely(s: World, ts: seq<Step>)
    requires Init(s) && Runs(s, ts)
    ensures LegalRun(s, ts) <==> TimelyRun(s, ts)
  {
    hide Apply, Enabled, LegalMoves;
    if LegalRun(s, ts) {
      LegalIsTimely(s, ts);
    }
    if TimelyRun(s, ts) {
      forall k | 0 <= k < |ts|
        ensures LegalAt(s, ts, k)
      {
        MovesAreLegal(s, ts, k);
      }
    }
  }
}
