/** What the version column buys, with every API write left as unguarded as the
    code has it: properties of ALL runs. */
module Fencing {
  import opened Jobs
  import opened RedisLists
  import opened Protocol

  /** How any write may change a row: the version never drops, and a row that is
      RUNNING (or RETRYING) afterwards at an unchanged version already was so
      before, in the same run. */
  predicate Evolves(r: Row, r': Row) {
    && r.version <= r'.version
    && (r.version == r'.version && r'.status.Running? ==>
          r.status.Running? && r.worker == r'.worker && r.retryCount == r'.retryCount)
    && (r.version == r'.version && r'.status.Retrying? ==> r.status.Retrying?)
  }

  ghost predicate RowsEvolve(s: World, s': World) {
    forall j :: j in s.rows ==> j in s'.rows && Evolves(s.rows[j], s'.rows[j])
  }

  // ----- what each kind of step does to the rows -----

  lemma WorkerRows(s: World, a: nat, t: WorkerStep)
    requires WorkerEnabled(s, a, t)
    ensures !t.PopJob? ==> a in s.attempts
    ensures WorkerApply(s, a, t).rows ==
              if !t.PopJob? && WorkerWrites(s, s.attempts[a], t)
              then s.rows[s.attempts[a].job :=
                     WorkerRow(s.rows[s.attempts[a].job], s.attempts[a].worker, t, s.now)]
              else s.rows
  {
    hide NextPc, Pop, Forget, WorkerRow, WorkerTally;
  }

  lemma CallRows(s: World, c: nat, t: CallStep)
    requires CallEnabled(s, c, t)
    ensures var j := CallJob(s, c, t);
            CallApply(s, c, t).rows ==
              if t.InsertJob? then s.rows[j := Created(t.priority, s.now)]
              else if CallWrites(s, j, t) then s.rows[j := CallRow(s.rows[j], t, s.now)]
              else s.rows
  {
    hide NextCall, Enqueue, CallRow, CallTally;
  }

  lemma AdvanceRows(s: World, x: nat, at: Sweep)
    requires Moves(at)
    ensures AdvanceApply(s, x, at).rows ==
              if Matches(s, at) then s.rows[Subject(at).job := NewRow(s.rows[Subject(at).job], at, s.now)] else s.rows
  {
    hide NextAt, Enqueue, Forget, NewRow, NewTally, GuardOf;
  }

  /** ... and an advancing sweep to everything else. */
  lemma EffectQueues(s: World, at: Sweep)
    requires Moves(at)
    ensures Effect(s, at).queues ==
              (if IsPush(at) then Enqueue(s.queues, PriorityOf(s, Subject(at).job), Subject(at).job)
               else if at.ScanRemoving? || at.RecoverRemoving? then Forget(s.queues, at.job)
               else s.queues)
  {
    hide Enqueue, Forget, NewRow, NewTally, GuardOf;
  }

  lemma EffectRest(s: World, at: Sweep)
    requires Moves(at)
    ensures var u := Effect(s, at);
            && u.attempts == s.attempts && u.calls == s.calls && u.now == s.now && u.results == s.results
            && u.retryPushes == (if at.RetryPushing? then s.retryPushes + [at.cur] else s.retryPushes)
            && u.roster == (if at.MonitorLoop? || (at.RecoverLoop? && at.todo == []) then NewRoster(s.roster, at, s.now)
                            else s.roster)
  {
    hide Enqueue, Forget, NewRow, NewTally, Matches, NewRoster, Subject, PriorityOf, TallyOf;
  }

  lemma AdvanceRest(s: World, x: nat, at: Sweep)
    requires Moves(at)
    ensures var s' := AdvanceApply(s, x, at);
            && s'.sweeps == s.sweeps[x := NextAt(s, at)]
            && s'.attempts == s.attempts && s'.calls == s.calls && s'.now == s.now && s'.results == s.results
            && s'.retryPushes == (if at.RetryPushing? then s.retryPushes + [at.cur] else s.retryPushes)
            && s'.queues == (if IsPush(at) then Enqueue(s.queues, PriorityOf(s, Subject(at).job), Subject(at).job)
                             else if at.ScanRemoving? || at.RecoverRemoving? then Forget(s.queues, at.job)
                             else s.queues)
            && s'.roster == (if at.MonitorLoop? || (at.RecoverLoop? && at.todo == [])
                             then NewRoster(s.roster, at, s.now) else s.roster)
  {
    hide NextAt, Enqueue, Forget, Effect, NewRoster;
    EffectQueues(s, at);
    EffectRest(s, at);
  }

  lemma WorkerEvolves(s: World, a: nat, t: WorkerStep)
    requires WorkerEnabled(s, a, t)
    ensures RowsEvolve(s, WorkerApply(s, a, t))
  {
    hide WorkerApply;
    WorkerRows(s, a, t);
  }

  lemma CallEvolves(s: World, c: nat, t: CallStep)
    requires CallEnabled(s, c, t)
    ensures RowsEvolve(s, CallApply(s, c, t))
  {
    hide CallApply;
    CallRows(s, c, t);
  }

  lemma AdvanceEvolves(s: World, x: nat, at: Sweep)
    requires Moves(at)
    ensures RowsEvolve(s, AdvanceApply(s, x, at))
  {
    hide AdvanceApply;
    AdvanceRows(s, x, at);
  }

  lemma StepEvolves(s: World, t: Step)
    requires Enabled(s, t)
    ensures RowsEvolve(s, Apply(s, t))
  {
    hide WorkerApply, CallApply, AdvanceApply, IsPage, Current;
    match t
    case ByWorker(a, w) => WorkerEvolves(s, a, w);
    case ByCall(c, k) => CallEvolves(s, c, k);
    case BySweep(x, p) => if p.Advance? { AdvanceEvolves(s, x, s.sweeps[x]); }
    case _ =>
  }

  lemma {:induction false} RunEvolves(s: World, ts: seq<Step>, i: nat, k: nat)
    requires Runs(s, ts) && i <= k <= |ts|
    ensures Runs(s, ts[..i]) && Runs(s, ts[..k])
    ensures RowsEvolve(After(s, ts[..i]), After(s, ts[..k]))
    decreases k
  {
    hide Apply, Enabled, EpisodesUnique;
    PrefixRuns(s, ts, i);
    PrefixRuns(s, ts, k);
    if i < k {
      RunEvolves(s, ts, i, k - 1);
      PrefixRuns(s, ts, k - 1);
      StepEvolves(After(s, ts[..k - 1]), ts[k - 1]);
    }
  }

  // ----- fencing of completions -----

  /** The row is RUNNING for worker `w` at version `v`. */
  predicate Owns(s: World, j: JobId, w: WorkerId, v: int) {
    j in s.rows && CompleteGuard(s.rows[j], v, w)
  }

  /** Step `k` is the claim of attempt `a`, and it succeeds. */
  ghost predicate ClaimsAt(s: World, ts: seq<Step>, k: nat, a: nat)
    requires Runs(s, ts)
  {
    k < |ts| && ts[k] == ByWorker(a, Claim) &&
    (PrefixRuns(s, ts, k);
     var u := After(s, ts[..k]);
     u.attempts[a].job in u.rows && ClaimGuard(u.rows[u.attempts[a].job], u.attempts[a].pc.version))
  }

  /** Step `k` is the completion transaction of attempt `a`, and it commits. */
  ghost predicate CompletesAt(s: World, ts: seq<Step>, k: nat, a: nat)
    requires Runs(s, ts)
  {
    k < |ts| && ts[k] == ByWorker(a, Complete) &&
    (PrefixRuns(s, ts, k);
     var u := After(s, ts[..k]);
     var at := u.attempts[a];
     Owns(u, at.job, at.worker, at.pc.version) && at.job !in u.results)
  }

  lemma AttemptStays(s: World, t: Step, a: nat)
    requires Enabled(s, t) && t != ByWorker(a, Claim)
    requires var s' := Apply(s, t); a in s'.attempts && s'.attempts[a].pc.Working?
    ensures a in s.attempts && s.attempts[a] == Apply(s, t).attempts[a]
  {
    hide WorkerEffect, CallApply, SweepApply;
    if !t.ByWorker? {
      OnlyWorkersMoveAttempts(s, t);
    }
  }

  lemma OnlyWorkersMoveAttempts(s: World, t: Step)
    requires Enabled(s, t) && !t.ByWorker?
    ensures Apply(s, t).attempts == s.attempts
  {
    hide WorkerApply, CallApply, SweepApply, IsPage, Current;
    match t
    case ByCall(c, k) => CallFrame(s, c, k);
    case BySweep(x, p) => SweepFrame(s, x, p);
    case _ =>
  }

  /** Which processes a step of each kind leaves where they are. */
  lemma WorkerFrame(s: World, a: nat, t: WorkerStep)
    requires WorkerEnabled(s, a, t)
    ensures var s' := WorkerApply(s, a, t);
            s'.sweeps == s.sweeps && s'.calls == s.calls && s'.retryPushes == s.retryPushes
  {
    hide WorkerEnabled, NextPc, Pop, Forget, WorkerGuard, WorkerRow, WorkerTally;
  }

  lemma CallFrame(s: World, c: nat, t: CallStep)
    requires CallEnabled(s, c, t)
    ensures var s' := CallApply(s, c, t);
            s'.attempts == s.attempts && s'.sweeps == s.sweeps && s'.retryPushes == s.retryPushes
  {
    hide CallEnabled, NextCall, Enqueue, CallRow, CallTally;
  }

  lemma SweepFrame(s: World, x: nat, t: SweepStep)
    requires SweepEnabled(s, x, t)
    ensures var s' := SweepApply(s, x, t); s'.attempts == s.attempts && s'.calls == s.calls
  {
    hide IsPage, Current, AdvanceApply;
    if t.Advance? {
      AdvanceRest(s, x, s.sweeps[x]);
    }
  }

  lemma {:induction false} WorkingSince(s: World, ts: seq<Step>, i: nat, k: nat, a: nat)
    requires Runs(s, ts) && i <= k <= |ts| && Runs(s, ts[..k]) && Runs(s, ts[..i])
    requires forall m :: i <= m < k ==> ts[m] != ByWorker(a, Claim)
    requires var u := After(s, ts[..k]); a in u.attempts && u.attempts[a].pc.Working?
    ensures a in After(s, ts[..i]).attempts
    ensures After(s, ts[..i]).attempts[a] == After(s, ts[..k]).attempts[a]
    decreases k
  {
    if i < k {
      PrefixRuns(s, ts, k - 1);
      AttemptStays(After(s, ts[..k - 1]), ts[k - 1], a);
      WorkingSince(s, ts, i, k - 1, a);
    }
  }

  lemma ClaimEffect(u: World, a: nat)
    requires Enabled(u, ByWorker(a, Claim))
    ensures a in u.attempts && u.attempts[a].pc.Claiming?
    ensures var at := u.attempts[a];
            at.job in u.rows && ClaimGuard(u.rows[at.job], at.pc.version) ==>
              var u' := Apply(u, ByWorker(a, Claim));
              Owns(u', at.job, at.worker, at.pc.version + 1) &&
              a in u'.attempts && u'.attempts[a] == at.(pc := Working(at.pc.version + 1))
  {
  }

  lemma CompleteNeedsWorking(u: World, a: nat)
    requires Enabled(u, ByWorker(a, Complete))
    ensures a in u.attempts && u.attempts[a].pc.Working?
  {
  }

  /** If attempt `a` claims at step `i`, does not claim again, and its completion
      commits at step `k`, then at every moment in between the row was RUNNING,
      owned by the attempt's worker, at exactly the version of that claim. */
  lemma {:induction false} CompletionFenced(s: World, ts: seq<Step>, i: nat, k: nat, a: nat)
    requires Runs(s, ts) && i < k
    requires ClaimsAt(s, ts, i, a) && CompletesAt(s, ts, k, a)
    requires forall m :: i < m < k ==> ts[m] != ByWorker(a, Claim)
    ensures Runs(s, ts[..i]) && a in After(s, ts[..i]).attempts
    ensures var at := After(s, ts[..i]).attempts[a];
            at.pc.Claiming? &&
            forall m :: i < m <= k ==> Runs(s, ts[..m]) && Owns(After(s, ts[..m]), at.job, at.worker, at.pc.version + 1)
  {
    hide Apply, Enabled;
    PrefixRuns(s, ts, i);
    PrefixRuns(s, ts, k);
    ClaimEffect(After(s, ts[..i]), a);
    CompleteNeedsWorking(After(s, ts[..k]), a);
    WorkingSince(s, ts, i + 1, k, a);
    var at := After(s, ts[..i]).attempts[a];
    forall m | i < m <= k
      ensures Runs(s, ts[..m]) && Owns(After(s, ts[..m]), at.job, at.worker, at.pc.version + 1)
    {
      RunEvolves(s, ts, i + 1, m);
      RunEvolves(s, ts, m, k);
    }
  }

  /** A working attempt has claimed its job, and not claimed again since. */
  lemma {:induction false} WorksSinceClaim(s: World, ts: seq<Step>, k: nat, a: nat) returns (i: nat)
    requires Init(s) && Runs(s, ts) && k <= |ts| && Runs(s, ts[..k])
    requires var u := After(s, ts[..k]); a in u.attempts && u.attempts[a].pc.Working?
    ensures i < k && ClaimsAt(s, ts, i, a) && forall m :: i < m < k ==> ts[m] != ByWorker(a, Claim)
    decreases k
  {
    hide Apply, Enabled;
    assert k > 0;
    i := k - 1;
    PrefixRuns(s, ts, i);
    if ts[i] == ByWorker(a, Claim) {
      OnlyMatchingClaims(After(s, ts[..i]), a);
    } else {
      AttemptStays(After(s, ts[..i]), ts[i], a);
      i := WorksSinceClaim(s, ts, i, a);
    }
  }

  lemma OnlyMatchingClaims(u: World, a: nat)
    requires Enabled(u, ByWorker(a, Claim))
    requires var u' := Apply(u, ByWorker(a, Claim)); a in u'.attempts && u'.attempts[a].pc.Working?
    ensures a in u.attempts && u.attempts[a].pc.Claiming?
    ensures var at := u.attempts[a]; at.job in u.rows && ClaimGuard(u.rows[at.job], at.pc.version)
  {
  }

  /** So every completion that commits is fenced from a claim of its attempt on. */
  lemma EveryCompletionFenced(s: World, ts: seq<Step>, k: nat, a: nat) returns (i: nat)
    requires Init(s) && Runs(s, ts) && CompletesAt(s, ts, k, a)
    ensures i < k && ClaimsAt(s, ts, i, a) && Runs(s, ts[..i]) && a in After(s, ts[..i]).attempts
    ensures var at := After(s, ts[..i]).attempts[a];
            at.pc.Claiming? &&
            forall m :: i < m <= k ==> Runs(s, ts[..m]) && Owns(After(s, ts[..m]), at.job, at.worker, at.pc.version + 1)
  {
    hide Apply, Enabled, Init, Owns, ClaimsAt;
    PrefixRuns(s, ts, k);
    CompleteNeedsWorking(After(s, ts[..k]), a);
    i := WorksSinceClaim(s, ts, k, a);
    CompletionFenced(s, ts, i, k, a);
  }

  // ----- retries and their rollback -----

  /** Step `k` is the compare-and-set by which a sweep takes `c` out of RETRYING. */
  ghost predicate TakesAt(s: World, ts: seq<Step>, k: nat, c: Snap)
    requires Runs(s, ts)
  {
    k < |ts| && ts[k].BySweep? && ts[k].p.Advance? &&
    (PrefixRuns(s, ts, k);
     var u := After(s, ts[..k]);
     var at := u.sweeps[ts[k].sweep];
     at.RetryLoop? && at.todo[0] == c && c.job in u.rows && RequeueGuard(u.rows[c.job], c.version))
  }

  /** Step `k` is the LPUSH of `processRetries` for the episode `c`. */
  ghost predicate PushesAt(s: World, ts: seq<Step>, k: nat, c: Snap)
    requires Runs(s, ts)
  {
    k < |ts| && ts[k].BySweep? && ts[k].p.Advance? &&
    (PrefixRuns(s, ts, k);
     var at := After(s, ts[..k]).sweeps[ts[k].sweep];
     at.RetryPushing? && at.cur == c)
  }

  /** Step `k` rolls `c` back to RETRYING after a failed LPUSH, and has effect. */
  ghost predicate UndoesAt(s: World, ts: seq<Step>, k: nat, c: Snap)
    requires Runs(s, ts)
  {
    k < |ts| && ts[k].BySweep? && ts[k].p.Advance? &&
    (PrefixRuns(s, ts, k);
     var u := After(s, ts[..k]);
     var at := u.sweeps[ts[k].sweep];
     at.RetryUndoing? && at.cur == c && c.job in u.rows && UndoGuard(u.rows[c.job], c.version))
  }

  lemma TakeEffect(u: World, x: nat)
    requires Enabled(u, BySweep(x, Advance)) && u.sweeps[x].RetryLoop?
    ensures var c := u.sweeps[x].todo[0];
            c.job in u.rows && RequeueGuard(u.rows[c.job], c.version) ==>
              var u' := Apply(u, BySweep(x, Advance));
              c.job in u'.rows && u'.rows[c.job].version == c.version + 1 && u'.rows[c.job].status.Queued?
  {
  }

  /** A rollback never undoes a claim: from the moment a sweep took the job out of
      RETRYING until the rollback has its effect, the job was never RUNNING. */
  lemma RollbackNeverUndoesClaim(s: World, ts: seq<Step>, i: nat, k: nat, c: Snap)
    requires Runs(s, ts) && i < k && TakesAt(s, ts, i, c) && UndoesAt(s, ts, k, c)
    ensures forall m :: i < m <= k ==>
              Runs(s, ts[..m]) && c.job in After(s, ts[..m]).rows &&
              var r := After(s, ts[..m]).rows[c.job];
              r.version == c.version + 1 && !r.status.Running?
  {
    hide Apply, Enabled;
    PrefixRuns(s, ts, i);
    PrefixRuns(s, ts, k);
    TakeEffect(After(s, ts[..i]), ts[i].sweep);
    forall m | i < m <= k
      ensures Runs(s, ts[..m]) && c.job in After(s, ts[..m]).rows
      ensures var r := After(s, ts[..m]).rows[c.job]; r.version == c.version + 1 && !r.status.Running?
    {
      RunEvolves(s, ts, i + 1, m);
      RunEvolves(s, ts, m, k);
    }
  }

  /** Episodes already taken out of RETRYING lie in the past of their row, and
      belong to at most one sweep or to the log of pushes, never to both. */
  ghost predicate EpisodesUnique(s: World) {
    && (forall c :: c in s.retryPushes ==> c.job in s.rows && c.version < s.rows[c.job].version)
    && (forall x :: x in s.sweeps && s.sweeps[x].RetryPushing? ==>
          var c := s.sweeps[x].cur;
          c !in s.retryPushes && c.job in s.rows && c.version < s.rows[c.job].version)
    && (forall x, y | x in s.sweeps && y in s.sweeps && s.sweeps[x].RetryPushing? && s.sweeps[y].RetryPushing? ::
          s.sweeps[x].cur == s.sweeps[y].cur ==> x == y)
  }

  lemma EpisodesStayUnique(s: World, t: Step)
    requires Enabled(s, t) && EpisodesUnique(s)
    ensures EpisodesUnique(Apply(s, t)) && s.retryPushes <= Apply(s, t).retryPushes
  {
    hide WorkerApply, CallApply, SweepApply, WorkerEnabled, CallEnabled;
    StepEvolves(s, t);
    if t.BySweep? {
      SweepKeepsEpisodes(s, t.sweep, t.p);
    } else {
      OnlySweepsMoveSweeps(s, t);
    }
  }

  lemma OnlySweepsMoveSweeps(s: World, t: Step)
    requires Enabled(s, t) && !t.BySweep?
    ensures Apply(s, t).sweeps == s.sweeps && Apply(s, t).retryPushes == s.retryPushes
  {
    hide WorkerApply, CallApply, SweepApply, WorkerEnabled, CallEnabled;
    match t
    case ByWorker(a, w) => WorkerFrame(s, a, w);
    case ByCall(c, k) => CallFrame(s, c, k);
    case _ =>
  }

  lemma SweepKeepsEpisodes(s: World, x: nat, t: SweepStep)
    requires SweepEnabled(s, x, t) && EpisodesUnique(s) && RowsEvolve(s, SweepApply(s, x, t))
    ensures EpisodesUnique(SweepApply(s, x, t)) && s.retryPushes <= SweepApply(s, x, t).retryPushes
  {
    hide IsPage, Current, AdvanceApply;
    if t.Advance? {
      AdvanceKeepsEpisodes(s, x);
    }
  }

  lemma AdvanceKeepsEpisodes(s: World, x: nat)
    requires x in s.sweeps && Moves(s.sweeps[x]) && EpisodesUnique(s)
    requires RowsEvolve(s, AdvanceApply(s, x, s.sweeps[x]))
    ensures var s' := AdvanceApply(s, x, s.sweeps[x]); EpisodesUnique(s') && s.retryPushes <= s'.retryPushes
  {
    hide AdvanceApply, NextAt, RowsEvolve;
    var at := s.sweeps[x];
    Versions(s, AdvanceApply(s, x, at));
    AdvanceRest(s, x, at);
    NextPushing(s, at);
    if NextAt(s, at).RetryPushing? {
      TakenVersion(s, x);
      assert at.todo[0] !in s.retryPushes;
    }
  }

  lemma Versions(s: World, s': World)
    requires RowsEvolve(s, s')
    ensures forall j :: j in s.rows ==> j in s'.rows && s.rows[j].version <= s'.rows[j].version
  {
  }

  lemma TakenVersion(s: World, x: nat)
    requires x in s.sweeps && s.sweeps[x].RetryLoop? && Matches(s, s.sweeps[x])
    ensures var c := s.sweeps[x].todo[0];
            c.version == s.rows[c.job].version && AdvanceApply(s, x, s.sweeps[x]).rows[c.job].version == c.version + 1
  {
  }

  lemma NextPushing(s: World, at: Sweep)
    requires Moves(at)
    ensures NextAt(s, at).RetryPushing? ==> at.RetryLoop? && Matches(s, at) && NextAt(s, at).cur == at.todo[0]
  {
  }

  lemma InitEpisodes(s: World)
    requires Init(s)
    ensures EpisodesUnique(s)
  {
  }

  lemma {:induction false} EpisodesOfRun(s: World, ts: seq<Step>, i: nat, k: nat)
    requires Init(s) && Runs(s, ts) && i <= k <= |ts|
    ensures Runs(s, ts[..i]) && Runs(s, ts[..k])
    ensures EpisodesUnique(After(s, ts[..k])) && After(s, ts[..i]).retryPushes <= After(s, ts[..k]).retryPushes
    decreases k
  {
    hide Apply, Enabled, EpisodesUnique, Init;
    PrefixRuns(s, ts, i);
    PrefixRuns(s, ts, k);
    if k == 0 {
      InitEpisodes(s);
    } else {
      PrefixRuns(s, ts, k - 1);
      EpisodesOfRun(s, ts, if i < k then i else k - 1, k - 1);
      EpisodesStayUnique(After(s, ts[..k - 1]), ts[k - 1]);
    }
  }

  /** However many sweeps run at once, one RETRYING episode of a job (a version at
      which it is RETRYING) leads to at most one LPUSH by `processRetries`. */
  lemma RetryPushedOnce(s: World, ts: seq<Step>, i: nat, k: nat, c: Snap)
    requires Init(s) && Runs(s, ts) && i < k && PushesAt(s, ts, i, c)
    ensures !PushesAt(s, ts, k, c)
  {
    hide Apply, Enabled;
    if PushesAt(s, ts, k, c) {
      PrefixRuns(s, ts, i);
      PrefixRuns(s, ts, k);
      PushIsLogged(After(s, ts[..i]), ts[i].sweep);
      PushIsLogged(After(s, ts[..k]), ts[k].sweep);
      EpisodesOfRun(s, ts, i + 1, k);
      assert false;
    }
  }

  lemma PushIsLogged(u: World, x: nat)
    requires Enabled(u, BySweep(x, Advance)) && u.sweeps[x].RetryPushing?
    ensures x in u.sweeps && u.sweeps[x].cur in Apply(u, BySweep(x, Advance)).retryPushes
  {
  }
}
