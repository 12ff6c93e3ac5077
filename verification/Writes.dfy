/** What any step may do to the fields of a row, that a version is written over only
    once, and that pushes and removals follow the writes they depend on. */
module Writes {
  import opened Wrappers
  import opened Jobs
  import opened RedisLists
  import opened Protocol
  import opened Fencing

  // ----- fields -----

  /** A changed row keeps its creation time and priority and carries the time of the
      change.  Owner and due time only change with a version; a job is due again as soon
      as its worker is given up, 5 s after a push that failed, and no sooner than now
      after a failure. */
  predicate FieldsMove(r: Row, r': Row, now: Time) {
    var bumped := r'.version == r.version + 1;
    && r'.createdAt == r.createdAt && r'.priority == r.priority && r'.updatedAt == now
    && (bumped || (r'.version == r.version && r'.worker == r.worker && r'.nextRetryAt == r.nextRetryAt))
    && (r'.retryCount == r.retryCount || r'.retryCount == r.retryCount + 1)
    && (bumped && r'.status.Retrying? ==>
          && r'.nextRetryAt.Some?
          && (r'.retryCount == r.retryCount ==>
                r'.nextRetryAt.value == if r.status.Running? then now else now + 5_000)
          && r'.nextRetryAt.value >= now)
    && (bumped && r.status.Retrying? && r'.status.Queued? ==> r'.nextRetryAt == None)
    && (r'.nextRetryAt != r.nextRetryAt ==> r'.status.Retrying? || (r.status.Retrying? && r'.status.Queued?))
    && (r'.worker != r.worker ==> r'.worker == None || (r.status.Queued? && r'.status.Running?))
    && (bumped && r'.status.Running? ==> r.status.Queued? && r'.worker.Some?)
    && (bumped && r.status.Running? ==> r'.worker == None)
  }

  lemma RowStep(s: World, t: Step, j: JobId)
    requires Enabled(s, t) && j in s.rows
    ensures j in Apply(s, t).rows
    ensures Apply(s, t).rows[j] != s.rows[j] ==> FieldsMove(s.rows[j], Apply(s, t).rows[j], s.now)
  {
    hide WorkerApply, CallApply, AdvanceApply, IsPage, Current;
    match t
    case ByWorker(a, w) => WorkerFields(s, a, w, j);
    case ByCall(c, k) => CallFields(s, c, k, j);
    case BySweep(x, p) => if p.Advance? { SweepFields(s, x, j); }
    case _ =>
  }

  lemma WorkerFields(s: World, a: nat, w: WorkerStep, j: JobId)
    requires WorkerEnabled(s, a, w) && j in s.rows
    ensures var s' := WorkerApply(s, a, w);
            j in s'.rows && (s'.rows[j] != s.rows[j] ==> FieldsMove(s.rows[j], s'.rows[j], s.now))
  {
    hide WorkerApply;
    WorkerRows(s, a, w);
  }

  lemma CallFields(s: World, c: nat, k: CallStep, j: JobId)
    requires CallEnabled(s, c, k) && j in s.rows
    ensures var s' := CallApply(s, c, k);
            j in s'.rows && (s'.rows[j] != s.rows[j] ==> FieldsMove(s.rows[j], s'.rows[j], s.now))
  {
    hide CallApply;
    CallRows(s, c, k);
  }

  lemma SweepFields(s: World, x: nat, j: JobId)
    requires x in s.sweeps && Moves(s.sweeps[x]) && j in s.rows
    ensures var s' := AdvanceApply(s, x, s.sweeps[x]);
            j in s'.rows && (s'.rows[j] != s.rows[j] ==> FieldsMove(s.rows[j], s'.rows[j], s.now))
  {
    hide AdvanceApply;
    AdvanceRows(s, x, s.sweeps[x]);
  }

  // ----- versions -----

  predicate IsCas(t: WorkerStep) {
    t.Claim? || t.Complete? || t.WriteRetry? || t.WriteFailure?
  }

  /** The step is a compare-and-set that matches job `j`, of a process that expects
      version `v`: the one it has read, or, for a rollback, the one after. */
  ghost predicate Consumes(s: World, t: Step, j: JobId, v: int) {
    match t
    case ByWorker(a, w) =>
      && IsCas(w) && a in s.attempts && s.attempts[a].job == j && WorkerWrites(s, s.attempts[a], w)
      && (s.attempts[a].pc.Claiming? || s.attempts[a].pc.Working? || s.attempts[a].pc.RetryWriting? ||
          s.attempts[a].pc.FailWriting?)
      && s.attempts[a].pc.version == v
    case BySweep(x, p) =>
      && p.Advance? && x in s.sweeps && Matches(s, s.sweeps[x]) && Subject(s.sweeps[x]).job == j
      && v == Subject(s.sweeps[x]).version + One(s.sweeps[x].RetryUndoing?)
    case _ => false
  }

  lemma ConsumesVersion(s: World, t: Step, j: JobId, v: int)
    requires Enabled(s, t) && Consumes(s, t, j, v)
    ensures j in s.rows && s.rows[j].version == v
    ensures j in Apply(s, t).rows && Apply(s, t).rows[j].version == v + 1
  {
    hide WorkerApply, AdvanceApply;
    if t.ByWorker? {
      WorkerRows(s, t.attempt, t.w);
    } else {
      AdvanceRows(s, t.sweep, s.sweeps[t.sweep]);
    }
  }

  /** Over whole runs, no two compare-and-sets of any processes match the same version of
      a job. */
  lemma VersionConsumedOnce(s: World, ts: seq<Step>, i: nat, k: nat, j: JobId, v: int)
    requires Runs(s, ts) && i < k < |ts| && Runs(s, ts[..i]) && Runs(s, ts[..k])
    requires Consumes(After(s, ts[..i]), ts[i], j, v)
    ensures !Consumes(After(s, ts[..k]), ts[k], j, v)
  {
    hide Apply, Enabled, Consumes;
    PrefixRuns(s, ts, i);
    PrefixRuns(s, ts, k);
    ConsumesVersion(After(s, ts[..i]), ts[i], j, v);
    RunEvolves(s, ts, i + 1, k);
    if Consumes(After(s, ts[..k]), ts[k], j, v) {
      ConsumesVersion(After(s, ts[..k]), ts[k], j, v);
    }
  }

  // ----- what precedes a removal by a worker -----

  /** Step `i` is the last step of attempt `a` before step `k`. */
  ghost predicate LastOfAttempt(ts: seq<Step>, i: nat, k: nat, a: nat) {
    && i < k <= |ts| && ts[i].ByWorker? && ts[i].attempt == a
    && forall m :: i < m < k ==> !(ts[m].ByWorker? && ts[m].attempt == a)
  }

  lemma OthersKeepAttempt(s: World, t: Step, a: nat)
    requires Enabled(s, t) && !(t.ByWorker? && t.attempt == a)
    ensures a in Apply(s, t).attempts <==> a in s.attempts
    ensures a in s.attempts ==> Apply(s, t).attempts[a] == s.attempts[a]
  {
    hide CallApply, SweepApply, WorkerEffect, NextPc, Pop;
    if !t.ByWorker? {
      OnlyWorkersMoveAttempts(s, t);
    }
  }

  lemma {:induction false} AttemptSince(s: World, ts: seq<Step>, k: nat, a: nat) returns (i: nat)
    requires Init(s) && Runs(s, ts) && k <= |ts| && Runs(s, ts[..k]) && a in After(s, ts[..k]).attempts
    ensures LastOfAttempt(ts, i, k, a) && Runs(s, ts[..i]) && Runs(s, ts[..i + 1])
    ensures a in After(s, ts[..i + 1]).attempts && After(s, ts[..i + 1]).attempts[a] == After(s, ts[..k]).attempts[a]
    decreases k
  {
    hide Apply, Enabled;
    assert k > 0;
    i := k - 1;
    PrefixRuns(s, ts, i);
    if !(ts[i].ByWorker? && ts[i].attempt == a) {
      OthersKeepAttempt(After(s, ts[..i]), ts[i], a);
      i := AttemptSince(s, ts, i, a);
    }
  }

  lemma CleansOnlyAfterWrite(s: World, a: nat, w: WorkerStep)
    requires WorkerEnabled(s, a, w)
    requires var s' := WorkerApply(s, a, w); a in s'.attempts && s'.attempts[a].pc.Cleaning?
    ensures (w.Complete? || w.WriteRetry? || w.WriteFailure?) && a in s.attempts && WorkerWrites(s, s.attempts[a], w)
    ensures s.attempts[a].job == WorkerApply(s, a, w).attempts[a].job
  {
    hide Pop, Forget, WorkerRow, WorkerTally;
  }

  /** A worker removes an entry only right after its attempt has written the row of that
      job: a zombie, whose write did not match, removes nothing. */
  lemma RemovalFollowsWrite(s: World, ts: seq<Step>, k: nat, a: nat) returns (i: nat)
    requires Init(s) && Runs(s, ts) && k < |ts| && ts[k] == ByWorker(a, CleanUp) && Runs(s, ts[..k])
    ensures LastOfAttempt(ts, i, k, a) && Runs(s, ts[..i])
    ensures var u, w := After(s, ts[..i]), ts[i].w;
            && (w.Complete? || w.WriteRetry? || w.WriteFailure?)
            && a in u.attempts && WorkerWrites(u, u.attempts[a], w)
            && a in After(s, ts[..k]).attempts && After(s, ts[..k]).attempts[a].job == u.attempts[a].job
  {
    hide Apply, Enabled;
    PrefixRuns(s, ts, k);
    CleanUpEnabled(After(s, ts[..k]), a);
    i := AttemptSince(s, ts, k, a);
    PrefixRuns(s, ts, i);
    StepOfAttempt(After(s, ts[..i]), a, ts[i].w);
    CleansOnlyAfterWrite(After(s, ts[..i]), a, ts[i].w);
  }

  lemma CleanUpEnabled(u: World, a: nat)
    requires Enabled(u, ByWorker(a, CleanUp))
    ensures a in u.attempts && u.attempts[a].pc.Cleaning?
  {
  }

  lemma StepOfAttempt(u: World, a: nat, w: WorkerStep)
    requires Enabled(u, ByWorker(a, w))
    ensures WorkerEnabled(u, a, w) && Apply(u, ByWorker(a, w)) == WorkerApply(u, a, w)
  {
    hide WorkerApply, WorkerEnabled;
  }

  // ----- what precedes a push or a removal by a sweep -----

  ghost predicate LastOfSweep(ts: seq<Step>, i: nat, k: nat, x: nat) {
    && i < k <= |ts| && ts[i].BySweep? && ts[i].sweep == x
    && forall m :: i < m < k ==> !(ts[m].BySweep? && ts[m].sweep == x)
  }

  lemma OthersKeepSweep(s: World, t: Step, x: nat)
    requires Enabled(s, t) && !(t.BySweep? && t.sweep == x)
    ensures x in Apply(s, t).sweeps <==> x in s.sweeps
    ensures x in s.sweeps ==> Apply(s, t).sweeps[x] == s.sweeps[x]
  {
    hide WorkerApply, CallApply, AdvanceApply, WorkerEnabled, CallEnabled, IsPage, Current, NextAt;
    if t.BySweep? {
      if t.p.Advance? {
        AdvanceRest(s, t.sweep, s.sweeps[t.sweep]);
      }
    } else {
      OnlySweepsMoveSweeps(s, t);
    }
  }

  lemma {:induction false} SweepSince(s: World, ts: seq<Step>, k: nat, x: nat) returns (i: nat)
    requires Init(s) && Runs(s, ts) && k <= |ts| && Runs(s, ts[..k]) && x in After(s, ts[..k]).sweeps
    ensures LastOfSweep(ts, i, k, x) && Runs(s, ts[..i]) && Runs(s, ts[..i + 1])
    ensures x in After(s, ts[..i + 1]).sweeps && After(s, ts[..i + 1]).sweeps[x] == After(s, ts[..k]).sweeps[x]
    decreases k
  {
    hide Apply, Enabled;
    assert k > 0;
    i := k - 1;
    PrefixRuns(s, ts, i);
    if !(ts[i].BySweep? && ts[i].sweep == x) {
      OthersKeepSweep(After(s, ts[..i]), ts[i], x);
      i := SweepSince(s, ts, i, x);
    }
  }

  /** What the step that led to this state of a sweep was: a push other than of a PENDING
      job follows the compare-and-set of the same snapshot, and so does the removal for a
      dead worker; a rollback follows the push that failed; the row of a PENDING job is
      written after its push; an entry found in `processing-queue` is removed after its
      push, or because its job is missing, finished or RETRYING. */
  ghost predicate CameBy(s: World, x: nat, p: SweepStep, at: Sweep) {
    match at
    case RetryPushing(c, _) => Wrote(s, x, p, c) && s.sweeps[x].RetryLoop?
    case StalePushing(c, _) => Wrote(s, x, p, c) && s.sweeps[x].StaleWriting?
    case ScanPushing(c, _) => Wrote(s, x, p, c) && s.sweeps[x].ScanWriting?
    case RecoverRemoving(_, _, j, _, _) =>
      && p.Advance? && x in s.sweeps && s.sweeps[x].RecoverLoop?
      && Matches(s, s.sweeps[x]) && Subject(s.sweeps[x]).job == j
    case RetryUndoing(c, _) => p.PushFails? && x in s.sweeps && s.sweeps[x].RetryPushing? && s.sweeps[x].cur == c
    case PendingWriting(c, _) =>
      && p.Advance? && x in s.sweeps && s.sweeps[x].PendingLoop?
      && s.sweeps[x].todo != [] && s.sweeps[x].todo[0] == c
    case ScanRemoving(j, _) =>
      p.Advance? && x in s.sweeps &&
      ((s.sweeps[x].ScanPushing? && s.sweeps[x].cur.job == j) ||
       (s.sweeps[x].ScanLoop? && s.sweeps[x].ids != [] && s.sweeps[x].ids[0] == j && Spent(s, j)))
    case _ => true
  }

  ghost predicate Wrote(s: World, x: nat, p: SweepStep, c: Snap) {
    p.Advance? && x in s.sweeps && Matches(s, s.sweeps[x]) && Subject(s.sweeps[x]) == c
  }

  predicate Spent(s: World, j: JobId) {
    j in s.rows ==>
      var st := s.rows[j].status;
      st.Completed? || st.Failed? || st.Cancelled? || st.Retrying?
  }

  lemma SweepCameBy(s: World, x: nat, p: SweepStep)
    requires SweepEnabled(s, x, p) && x in SweepApply(s, x, p).sweeps
    ensures CameBy(s, x, p, SweepApply(s, x, p).sweeps[x])
  {
    hide AdvanceApply, IsPage, Current, GuardOf;
    if p.Advance? {
      AdvanceRest(s, x, s.sweeps[x]);
    }
  }

  /** In every run, whatever a sweep is about to do, its last step is what it depends on. */
  lemma SweepFollows(s: World, ts: seq<Step>, k: nat, x: nat) returns (i: nat)
    requires Init(s) && Runs(s, ts) && k <= |ts| && Runs(s, ts[..k]) && x in After(s, ts[..k]).sweeps
    ensures LastOfSweep(ts, i, k, x) && Runs(s, ts[..i])
    ensures CameBy(After(s, ts[..i]), x, ts[i].p, After(s, ts[..k]).sweeps[x])
  {
    hide Apply, Enabled, CameBy;
    i := SweepSince(s, ts, k, x);
    PrefixRuns(s, ts, i);
    StepOfSweep(After(s, ts[..i]), x, ts[i].p);
    SweepCameBy(After(s, ts[..i]), x, ts[i].p);
  }

  lemma StepOfSweep(u: World, x: nat, p: SweepStep)
    requires Enabled(u, BySweep(x, p))
    ensures SweepEnabled(u, x, p) && Apply(u, BySweep(x, p)) == SweepApply(u, x, p)
  {
    hide SweepApply, SweepEnabled;
  }

  // ----- the roster -----

  /** The step takes a worker declared dead off the list. */
  predicate StrikesOff(s: World, t: Step, w: WorkerId) {
    && t.BySweep? && t.p.Advance? && t.sweep in s.sweeps
    && s.sweeps[t.sweep].RecoverLoop? && s.sweeps[t.sweep].todo == [] && s.sweeps[t.sweep].dead == w
  }

  /** What each step does to the list of workers and to the keys. */
  lemma RosterStep(s: World, t: Step, w: WorkerId)
    requires Enabled(s, t)
    ensures var r, r' := s.roster, Apply(s, t).roster;
            && (w in r'.active <==> t == Register(w) || (w in r.active && t != Deregister(w) && !StrikesOff(s, t, w)))
            && (w in r'.silent <==> t == FallSilent(w) || (w in r.silent && t != Register(w)))
            && (w in r'.expires <==> t == Beat(w) || (w in r.expires && t != DropKey(w)))
            && (w in r'.expires ==>
                  r'.expires[w] == if t == Beat(w) then s.now + 30_000
                                   else if w in r.expires then r.expires[w] else r'.expires[w])
  {
    hide AdvanceApply, IsPage, Current, WorkerApply, CallApply;
    match t
    case ByWorker(_, _) => WorkersKeepRoster(s, t);
    case ByCall(_, _) => WorkersKeepRoster(s, t);
    case BySweep(x, p) => if p.Advance? { AdvanceRest(s, x, s.sweeps[x]); }
    case _ =>
  }

  lemma WorkersKeepRoster(s: World, t: Step)
    requires Enabled(s, t) && (t.ByWorker? || t.ByCall?)
    ensures Apply(s, t).roster == s.roster
  {
    hide Pop, Forget, Enqueue, WorkerRow, WorkerTally, WorkerGuard, CallRow, CallTally, NextPc, NextCall;
  }

  /** Listed from its registration on, until it leaves or is struck off. */
  lemma {:induction false} ListedSince(s: World, ts: seq<Step>, i: nat, k: nat, w: WorkerId)
    requires Runs(s, ts) && i < k <= |ts| && ts[i] == Register(w)
    requires forall m :: i < m < k ==>
                           ts[m] != Deregister(w) && Runs(s, ts[..m]) && !StrikesOff(After(s, ts[..m]), ts[m], w)
    ensures Runs(s, ts[..k]) && w in After(s, ts[..k]).roster.active
    decreases k
  {
    hide Apply, Enabled, StrikesOff;
    PrefixRuns(s, ts, k);
    PrefixRuns(s, ts, k - 1);
    if i < k - 1 {
      ListedSince(s, ts, i, k - 1, w);
    }
    RosterStep(After(s, ts[..k - 1]), ts[k - 1], w);
  }

  /** A key written at time `now` expires 30 s later, unless it is written again or
      dropped. */
  lemma {:induction false} KeySince(s: World, ts: seq<Step>, i: nat, k: nat, w: WorkerId)
    requires Runs(s, ts) && i < k <= |ts| && ts[i] == Beat(w)
    requires forall m :: i < m < k ==> ts[m] != DropKey(w) && ts[m] != Beat(w)
    ensures Runs(s, ts[..k]) && Runs(s, ts[..i])
    ensures KeyAlive(After(s, ts[..k]).roster, w, After(s, ts[..k]).now) <==>
            After(s, ts[..k]).now < After(s, ts[..i]).now + 30_000
    ensures w in After(s, ts[..k]).roster.expires
    ensures After(s, ts[..k]).roster.expires[w] == After(s, ts[..i]).now + 30_000
    decreases k
  {
    hide Apply, Enabled;
    PrefixRuns(s, ts, i);
    PrefixRuns(s, ts, k);
    PrefixRuns(s, ts, k - 1);
    if i < k - 1 {
      KeySince(s, ts, i, k - 1, w);
    }
    RosterStep(After(s, ts[..k - 1]), ts[k - 1], w);
  }
}
