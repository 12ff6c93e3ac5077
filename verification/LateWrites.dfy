/** What goes wrong when an unguarded API write lands late: concrete runs of the
    code as it stands, and a job that is lost for good. */
module LateWrites {
  import opened Wrappers
  import opened Jobs
  import opened RedisLists
  import opened Protocol
  import opened Fencing

  const NOBODY := Roster({}, map[], map[], {})

  const EMPTY := World(map[], {}, [[], [], [], [], [], []], NOBODY, 0, map[], map[], map[], map[], [])

  ghost predicate Gives(ts: seq<Step>, u: World) {
    Runs(EMPTY, ts) && After(EMPTY, ts) == u
  }

  lemma Then(ts: seq<Step>, u: World, t: Step)
    requires Gives(ts, u) && Enabled(u, t)
    ensures Gives(ts + [t], Apply(u, t))
  {
    hide Apply, Enabled;
    assert (ts + [t])[..|ts + [t]| - 1] == ts;
  }

  lemma Next(ts: seq<Step>, u: World, t: Step, u': World) returns (ts': seq<Step>)
    requires Gives(ts, u) && Enabled(u, t) && Apply(u, t) == u'
    ensures Gives(ts', u') && ts' == ts + [t]
  {
    hide Apply, Enabled;
    Then(ts, u, t);
    ts' := ts + [t];
  }

  // ----- a cancel that lands after the claim -----

  /** Job "j" has been created and pushed. */
  const SUBMITTED := EMPTY.(
    rows := map["j" := Row(Queued, 1, None, 0, None, Medium, 0, 0)],
    tallies := map["j" := NO_HISTORY],
    queues := [[], [], ["j"], [], [], []],
    calls := map[0 := Logging("j")])

  lemma Submits() returns (ts: seq<Step>)
    ensures Gives(ts, SUBMITTED)
  {
    var u1 := EMPTY.(
      rows := map["j" := Created(Medium, 0)], tallies := map["j" := NO_HISTORY], calls := map[0 := Labelling("j")]);
    ts := Next([], EMPTY, ByCall(0, InsertJob("j", Medium)), u1);
    var u2 := u1.(rows := SUBMITTED.rows, calls := map[0 := Pushing("j")]);
    ts := Next(ts, u1, ByCall(0, WriteQueued), u2);
    assert ["j"] + u2.queues[2] == ["j"];
    ts := Next(ts, u2, ByCall(0, PushJob), SUBMITTED);
  }

  /** A request has read it for cancelling; then worker "w" has claimed it. */
  const OVERTAKEN := SUBMITTED.(
    rows := map["j" := Row(Running, 2, Some("w"), 0, None, Medium, 0, 0)],
    tallies := map["j" := NO_HISTORY.(claims := 1)],
    queues := [[], [], [], [], [], ["j"]],
    calls := map[0 := Logging("j"), 1 := Cancelling("j")],
    attempts := map[0 := Attempt("w", "j", Working(2))])

  lemma Overtakes() returns (ts: seq<Step>)
    ensures Gives(ts, OVERTAKEN)
  {
    hide Runs, After;
    ts := Submits();
    var u1 := SUBMITTED.(calls := OVERTAKEN.calls);
    ts := Next(ts, SUBMITTED, ByCall(1, ReadForCancel("j")), u1);
    var u2 := u1.(queues := OVERTAKEN.queues, attempts := map[0 := Attempt("w", "j", Reading)]);
    assert u1.queues[2][..0] == [] && ["j"] + u1.queues[PROCESSING] == ["j"];
    ts := Next(ts, u1, ByWorker(0, PopJob("w", 2)), u2);
    var u3 := u2.(attempts := map[0 := Attempt("w", "j", Claiming(1))]);
    ts := Next(ts, u2, ByWorker(0, ReadJob), u3);
    ts := Next(ts, u3, ByWorker(0, Claim), OVERTAKEN);
  }

  /** The worker completes the job and the cancel lands on the COMPLETED row: the
      job ends CANCELLED although its result is stored. */
  lemma LateCancelErasesCompletion() returns (ts: seq<Step>, u: World)
    ensures Init(EMPTY) && Gives(ts, u)
    ensures "j" in u.rows && u.rows["j"].status.Cancelled? && "j" in u.results
  {
    hide Runs, After;
    ts := Overtakes();
    var u1 := Apply(OVERTAKEN, ByWorker(0, Complete));
    ts := Next(ts, OVERTAKEN, ByWorker(0, Complete), u1);
    u := Apply(u1, ByCall(1, WriteCancelled));
    ts := Next(ts, u1, ByCall(1, WriteCancelled), u);
  }

  /** The cancel lands on the RUNNING row; then the job throws, and the catch
      block, which checks no status, schedules a retry of the cancelled job. */
  lemma CancelledJobIsRetried() returns (ts: seq<Step>, mid: World, u: World)
    ensures Init(EMPTY) && |ts| > 3 && Gives(ts[..|ts| - 3], mid) && Gives(ts, u)
    ensures "j" in mid.rows && mid.rows["j"].status.Cancelled?
    ensures "j" in u.rows && u.rows["j"].status.Retrying?
  {
    hide Runs, After;
    ts := Overtakes();
    mid := Apply(OVERTAKEN, ByCall(1, WriteCancelled));
    ts := Next(ts, OVERTAKEN, ByCall(1, WriteCancelled), mid);
    var before := ts;
    var u1 := Apply(mid, ByWorker(0, Throw));
    ts := Next(ts, mid, ByWorker(0, Throw), u1);
    var u2 := Apply(u1, ByWorker(0, ReadFresh));
    ts := Next(ts, u1, ByWorker(0, ReadFresh), u2);
    u := Apply(u2, ByWorker(0, WriteRetry(5_000)));
    ts := Next(ts, u2, ByWorker(0, WriteRetry(5_000)), u);
    assert ts[..|ts| - 3] == before;
  }

  // ----- a QUEUED write that lands after the claim -----

  /** Nobody is about to push, claim, write or relabel it. */
  ghost predicate Quiet(s: World, j: JobId) {
    && (forall a :: a in s.attempts ==> s.attempts[a].job != j)
    && (forall c :: c in s.calls ==> s.calls[c].job != j)
    && (forall x :: x in s.sweeps ==> !Aims(s.sweeps[x], j))
  }

  /** QUEUED, yet owned and in no polled list, and nobody will change that. */
  ghost predicate Lost(s: World, j: JobId) {
    && j in s.rows && s.rows[j].status.Queued? && s.rows[j].worker.Some?
    && !Waiting(s.queues, j) && Quiet(s, j)
  }

  /** The sweep holds a snapshot of `j`, or is about to push or forget it. */
  ghost predicate Aims(at: Sweep, j: JobId) {
    match at
    case ScanLoop(_) => false
    case ScanWriting(c, _) => c.job == j
    case ScanPushing(c, _) => c.job == j
    case ScanRemoving(k, _) => k == j
    case RetryLoop(todo) => j in JobsOf(todo)
    case PendingLoop(todo) => j in JobsOf(todo)
    case StaleLoop(todo) => j in JobsOf(todo)
    case RecoverLoop(_, _, todo, _) => j in JobsOf(todo)
    case RecoverRemoving(_, _, k, todo, _) => k == j || j in JobsOf(todo)
    case MonitorLoop(_, _) => false
    case Condemning(_, _, _) => false
    case _ => at.cur.job == j || j in JobsOf(at.todo)
  }

  lemma LostToWorkers(s: World, a: nat, t: WorkerStep, j: JobId)
    requires Lost(s, j) && WorkerEnabled(s, a, t)
    ensures Lost(WorkerApply(s, a, t), j)
  {
    hide Lost;
    if t.PopJob? {
      LostToPop(s, a, t, j);
    } else {
      LostToOwners(s, a, t, j);
    }
  }

  lemma LostToPop(s: World, a: nat, t: WorkerStep, j: JobId)
    requires Lost(s, j) && t.PopJob? && WorkerEnabled(s, a, t)
    ensures Lost(WorkerApply(s, a, t), j)
  {
    var s' := WorkerApply(s, a, t);
    var k := s.queues[t.list][|s.queues[t.list]| - 1];
    assert k in s.queues[t.list];
    assert forall i :: 0 <= i <= MAIN && i != t.list ==> s'.queues[i] == s.queues[i];
  }

  lemma LostToOwners(s: World, a: nat, t: WorkerStep, j: JobId)
    requires Lost(s, j) && !t.PopJob? && WorkerEnabled(s, a, t)
    ensures Lost(WorkerApply(s, a, t), j)
  {
    hide WorkerApply;
    OwnRowOnly(s, a, t, j);
    ForgetKeepsWaiting(s.queues, s.attempts[a].job);
  }

  /** An attempt only ever writes the row of its own job. */
  lemma OwnRowOnly(s: World, a: nat, t: WorkerStep, j: JobId)
    requires !t.PopJob? && WorkerEnabled(s, a, t) && j in s.rows && s.attempts[a].job != j
    ensures var s' := WorkerApply(s, a, t);
            && j in s'.rows && s'.rows[j] == s.rows[j]
            && s'.sweeps == s.sweeps && s'.calls == s.calls
            && (s'.queues == s.queues || s'.queues == Forget(s.queues, s.attempts[a].job))
            && forall b :: b in s'.attempts ==> b in s.attempts && s'.attempts[b].job == s.attempts[b].job
  {
    hide WorkerApply;
    WorkerRows(s, a, t);
    WorkerFrame(s, a, t);
    SameJobs(s, a, t);
  }

  lemma SameJobs(s: World, a: nat, t: WorkerStep)
    requires !t.PopJob? && WorkerEnabled(s, a, t)
    ensures var s' := WorkerApply(s, a, t);
            && (s'.queues == s.queues || s'.queues == Forget(s.queues, s.attempts[a].job))
            && forall b :: b in s'.attempts ==> b in s.attempts && s'.attempts[b].job == s.attempts[b].job
  {
    hide NextPc, Forget, WorkerRow, WorkerTally, WorkerGuard;
  }

  lemma LostToCalls(s: World, c: nat, t: CallStep, j: JobId)
    requires Lost(s, j) && CallEnabled(s, c, t) && t != ReadForCancel(j)
    ensures Lost(CallApply(s, c, t), j)
  {
    hide CallApply, Waiting, Aims, Enqueue;
    CallRows(s, c, t);
    CallFrame(s, c, t);
    CallQueues(s, c, t);
    assert CallJob(s, c, t) != j;
    EnqueueWaits(s.queues, PriorityOf(s, CallJob(s, c, t)), CallJob(s, c, t));
  }

  lemma CallQueues(s: World, c: nat, t: CallStep)
    requires CallEnabled(s, c, t)
    ensures var s' := CallApply(s, c, t);
            var k := CallJob(s, c, t);
            && (s'.queues == s.queues || s'.queues == Enqueue(s.queues, PriorityOf(s, k), k))
            && forall d :: d in s'.calls ==>
                 (d == c && s'.calls[d].job == k) || (d in s.calls && s'.calls[d] == s.calls[d])
  {
    hide Enqueue, CallRow, CallTally;
  }

  lemma LostToAdvance(s: World, x: nat, j: JobId)
    requires Lost(s, j) && x in s.sweeps && Moves(s.sweeps[x])
    ensures Lost(AdvanceApply(s, x, s.sweeps[x]), j)
  {
    hide AdvanceApply, NextAt, Waiting, Aims, Enqueue, Forget;
    var at := s.sweeps[x];
    AdvanceRows(s, x, at);
    AdvanceRest(s, x, at);
    AimsElsewhere(s, at, j);
    if IsPush(at) {
      EnqueueWaits(s.queues, PriorityOf(s, Subject(at).job), Subject(at).job);
    } else if at.ScanRemoving? || at.RecoverRemoving? {
      ForgetKeepsWaiting(s.queues, at.job);
    }
  }

  /** No compare-and-set matches an owned QUEUED row, and no loop turns to it. */
  lemma AimsElsewhere(s: World, at: Sweep, j: JobId)
    requires j in s.rows && s.rows[j].status.Queued? && s.rows[j].worker.Some? && Moves(at) && !Aims(at, j)
    ensures !Aims(NextAt(s, at), j)
    ensures Matches(s, at) ==> Subject(at).job != j
    ensures IsPush(at) ==> Subject(at).job != j
  {
    match at
    case RetryLoop(todo) => RestOfPage(todo);
    case PendingLoop(todo) => RestOfPage(todo);
    case StaleLoop(todo) => RestOfPage(todo);
    case RecoverLoop(_, _, todo, _) => if todo != [] { RestOfPage(todo); }
    case _ =>
  }

  /** No query finds a lost job. */
  lemma QueriesMiss(s: World, t: SweepStep, x: nat, j: JobId)
    requires Lost(s, j) && SweepEnabled(s, x, t)
    ensures t.FindRetries? || t.FindPending? || t.FindStale? || t.FindRunning? ==> j !in JobsOf(t.page)
  {
    hide JobsOf, Waiting, Aims;
    match t
    case FindRetries(page) => PageWithin(s.rows, DueJobs(s.rows, s.now), page, j);
    case FindPending(page) => PageWithin(s.rows, AgedJobs(s.rows, s.now), page, j);
    case FindStale(page) => PageWithin(s.rows, StaleJobs(s.rows, s.now), page, j);
    case FindRunning(page) => PageWithin(s.rows, RunningJobs(s.rows, s.sweeps[x].dead), page, j);
    case _ =>
  }

  lemma PageWithin(rows: map<JobId, Row>, eligible: set<JobId>, page: seq<Snap>, j: JobId)
    requires eligible <= rows.Keys && Current(rows, eligible, page) && j !in eligible
    ensures j !in JobsOf(page)
  {
  }

  lemma LostToSweeps(s: World, x: nat, t: SweepStep, j: JobId)
    requires Lost(s, j) && SweepEnabled(s, x, t)
    ensures Lost(SweepApply(s, x, t), j)
  {
    hide AdvanceApply, Waiting, IsPage, Current, JobsOf, DueJobs, AgedJobs, StaleJobs, RunningJobs;
    if t.Advance? {
      LostToAdvance(s, x, j);
    } else {
      QueriesMiss(s, t, x, j);
      if (t.PushFails? && s.sweeps[x].PendingLoop?) || (t.Swallow? && s.sweeps[x].StaleLoop?) {
        RestOfPage(s.sweeps[x].todo);
      }
    }
  }

  /** A lost job stays lost under every step of every process, failing or not,
      except a user's decision to cancel it: no sweep ever repairs it. */
  lemma {:induction false} LostForGood(s: World, ts: seq<Step>, j: JobId)
    requires Lost(s, j) && Runs(s, ts)
    requires forall c :: ByCall(c, ReadForCancel(j)) !in ts
    ensures Lost(After(s, ts), j)
    decreases |ts|
  {
    hide WorkerApply, CallApply, SweepApply, WorkerEnabled, CallEnabled, SweepEnabled, Lost;
    if ts != [] {
      var n := |ts| - 1;
      LostForGood(s, ts[..n], j);
      var u := After(s, ts[..n]);
      match ts[n]
      case ByWorker(a, w) => LostToWorkers(u, a, w, j);
      case ByCall(c, k) => assert ts[n] in ts; LostToCalls(u, c, k, j);
      case BySweep(x, p) => LostToSweeps(u, x, p, j);
      case _ => LostToOthers(u, ts[n], j);
    }
  }

  lemma LostToOthers(s: World, t: Step, j: JobId)
    requires Lost(s, j) && Enabled(s, t) && !t.ByWorker? && !t.ByCall? && !t.BySweep?
    ensures Lost(Apply(s, t), j)
  {
  }

  // ----- a run that loses a job -----

  /** Created by a slow request and reconciled by a scheduler. */
  const AFTER_SWEEP := EMPTY.(
    now := PENDING_GRACE,
    rows := map["j" := Row(Queued, 2, None, 0, None, Medium, 0, PENDING_GRACE)],
    tallies := map["j" := NO_HISTORY],
    queues := [[], [], ["j"], [], [], []],
    calls := map[0 := Labelling("j")],
    sweeps := map[0 := PendingLoop([])])

  const BEFORE_SWEEP := EMPTY.(
    now := PENDING_GRACE,
    rows := map["j" := Created(Medium, 0)],
    tallies := map["j" := NO_HISTORY],
    calls := map[0 := Labelling("j")])

  lemma Creates() returns (ts: seq<Step>)
    ensures Gives(ts, BEFORE_SWEEP)
  {
    hide Runs, After;
    ts := Start();
    var u1 := EMPTY.(
      rows := map["j" := Created(Medium, 0)], tallies := map["j" := NO_HISTORY], calls := map[0 := Labelling("j")]);
    ts := Next(ts, EMPTY, ByCall(0, InsertJob("j", Medium)), u1);
    ts := Next(ts, u1, Tick(PENDING_GRACE), BEFORE_SWEEP);
  }

  const FOUND := BEFORE_SWEEP.(sweeps := map[0 := PendingLoop([Snap("j", 1)])])

  lemma Finds() returns (ts: seq<Step>)
    ensures Gives(ts, FOUND)
  {
    hide Runs, After, IsPage, Current, AgedJobs;
    var page := [Snap("j", 1)];
    ts := Creates();
    OnlyPage(BEFORE_SWEEP, page);
    ts := Next(ts, BEFORE_SWEEP, BySweep(0, FindPending(page)), FOUND);
  }

  const PUSHED := FOUND.(
    queues := AFTER_SWEEP.queues, sweeps := map[0 := PendingWriting(Snap("j", 1), [])])

  lemma Pushes() returns (ts: seq<Step>)
    ensures Gives(ts, PUSHED)
  {
    hide Runs, After;
    ts := Finds();
    assert ["j"] + FOUND.queues[2] == ["j"] && [Snap("j", 1)][1..] == [];
    ts := Next(ts, FOUND, BySweep(0, Advance), PUSHED);
  }

  lemma Reconciles() returns (ts: seq<Step>)
    ensures Gives(ts, AFTER_SWEEP)
  {
    hide Runs, After;
    ts := Pushes();
    ts := Next(ts, PUSHED, BySweep(0, Advance), AFTER_SWEEP);
  }

  lemma OnlyPage(u: World, page: seq<Snap>)
    requires u.rows == map["j" := Created(Medium, 0)] && u.now == PENDING_GRACE && page == [Snap("j", 1)]
    requires u.sweeps == map[]
    ensures Enabled(u, BySweep(0, FindPending(page)))
    ensures Apply(u, BySweep(0, FindPending(page))) == u.(sweeps := map[0 := PendingLoop(page)])
  {
    assert AgedJobs(u.rows, u.now) == {"j"} && page[0].job in JobsOf(page);
  }

  /** Worker "w" has claimed it. */
  const TAKEN := AFTER_SWEEP.(
    rows := map["j" := Row(Running, 3, Some("w"), 0, None, Medium, 0, PENDING_GRACE)],
    tallies := map["j" := NO_HISTORY.(claims := 1)],
    queues := [[], [], [], [], [], ["j"]],
    attempts := map[0 := Attempt("w", "j", Working(3))])

  lemma Takes() returns (ts: seq<Step>)
    ensures Gives(ts, TAKEN)
  {
    hide Runs, After;
    ts := Reconciles();
    assert AFTER_SWEEP.queues[2][..0] == [] && ["j"] + AFTER_SWEEP.queues[PROCESSING] == ["j"];
    var u1 := AFTER_SWEEP.(queues := TAKEN.queues, attempts := map[0 := Attempt("w", "j", Reading)]);
    ts := Next(ts, AFTER_SWEEP, ByWorker(0, PopJob("w", 2)), u1);
    var u2 := u1.(attempts := map[0 := Attempt("w", "j", Claiming(2))]);
    ts := Next(ts, u1, ByWorker(0, ReadJob), u2);
    ts := Next(ts, u2, ByWorker(0, Claim), TAKEN);
  }

  lemma Start() returns (ts: seq<Step>)
    ensures ts == [] && Gives(ts, EMPTY)
  {
    ts := [];
  }

  /** The slow request writes QUEUED over the RUNNING row and stops before its
      LPUSH. */
  const OVERWRITTEN := TAKEN.(
    rows := map["j" := Row(Queued, 3, Some("w"), 0, None, Medium, 0, PENDING_GRACE)], calls := map[])

  lemma Overwrites() returns (ts: seq<Step>)
    ensures Gives(ts, OVERWRITTEN)
  {
    hide Runs, After;
    ts := Takes();
    var u := OVERWRITTEN.(calls := map[0 := Pushing("j")]);
    ts := Next(ts, TAKEN, ByCall(0, WriteQueued), u);
    ts := Next(ts, u, ByCall(0, Hang), OVERWRITTEN);
  }

  /** The worker's completion then matches nothing.  The job is lost. */
  lemma LateQueuedWriteLosesJob() returns (ts: seq<Step>, u: World)
    ensures Init(EMPTY) && Gives(ts, u) && Lost(u, "j")
  {
    hide Runs, After;
    ts := Overwrites();
    var v := OVERWRITTEN.(attempts := map[0 := Attempt("w", "j", WrappingUp)]);
    ts := Next(ts, OVERWRITTEN, ByWorker(0, Complete), v);
    u := v.(attempts := map[]);
    ts := Next(ts, v, ByWorker(0, WrapUp), u);
  }
}
