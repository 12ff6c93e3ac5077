/** The job ownership protocol as a transition system.  One step is one database
    statement, one transaction or one Redis command; between any two steps every
    other process may run, and any process may stop for good.  Workers, API
    requests and scheduler sweeps are unbounded in number and keep only what the
    code keeps in local variables. */
module Protocol {
  import opened Wrappers
  import opened Jobs
  import opened RedisLists
  import WorkerMonitor

  // ----- processes -----

  /** One `processOneJob` call.  Several may share a worker ID. */
  datatype Attempt = Attempt(worker: WorkerId, job: JobId, pc: AttemptPc)

  datatype AttemptPc =
    | Reading                                      // popped; before the first findUnique
    | Claiming(version: int)                       // saw QUEUED at this version
    | Working(version: int)                        // claimed; currentVersion is this version
    | FailReading                                  // in the catch block, before the fresh read
    | RetryWriting(version: int, retryCount: nat)  // fresh row read; will schedule a retry
    | FailWriting(version: int, retryCount: nat)   // fresh row read; will fail the job
    | Cleaning(inCatch: bool)                      // before the LREM
    | WrappingUp                                   // in the try block, after its last database write or LREM

  /** An API request between its database read and its last write. */
  datatype Call =
    | Labelling(job: JobId)    // createJob: row inserted, QUEUED not yet written
    | Pushing(job: JobId)      // createJob: before the LPUSH
    | Logging(job: JobId)      // createJob: before the JOB_QUEUED event
    | RollingBack(job: JobId)  // createJob: in the catch block
    | Cancelling(job: JobId)   // cancelJob: status check passed
    | Reviving(job: JobId)     // retryJob: status check passed

  /** A scheduler sweep and the part of its batch it has not reached. */
  datatype Sweep =
    | RetryLoop(todo: seq<Snap>)
    | RetryPushing(cur: Snap, todo: seq<Snap>)
    | RetryUndoing(cur: Snap, todo: seq<Snap>)
    | PendingLoop(todo: seq<Snap>)
    | PendingWriting(cur: Snap, todo: seq<Snap>)
    | StaleLoop(todo: seq<Snap>)
    | StaleLooking(cur: Snap, list: nat, todo: seq<Snap>)
    | StaleWriting(cur: Snap, todo: seq<Snap>)
    | StalePushing(cur: Snap, todo: seq<Snap>)
    | ScanLoop(ids: seq<JobId>)
    | ScanWriting(cur: Snap, ids: seq<JobId>)
    | ScanPushing(cur: Snap, ids: seq<JobId>)
    | ScanRemoving(job: JobId, ids: seq<JobId>)
    // monitorWorkers of one scheduler: workers to look at, one declared dead,
    // and recoverWorkerJobs for it
    | MonitorLoop(scheduler: nat, workers: seq<WorkerId>)
    | Condemning(scheduler: nat, dead: WorkerId, workers: seq<WorkerId>)
    | RecoverLoop(scheduler: nat, dead: WorkerId, todo: seq<Snap>, workers: seq<WorkerId>)
    | RecoverRemoving(scheduler: nat, dead: WorkerId, job: JobId, todo: seq<Snap>, workers: seq<WorkerId>)

  /** The workers as Redis and the schedulers know them. */
  datatype Roster = Roster(
    active: set<WorkerId>,                  // workers:active
    expires: map<WorkerId, Time>,           // the keys worker:<id>
    strikes: map<nat, map<WorkerId, nat>>,  // missedHeartbeats of each scheduler
    silent: set<WorkerId>)                  // workers whose heartbeat has stopped; no guard of the code reads it

  /** History of one job; no guard reads it. */
  datatype Tally = Tally(
    claims: nat, completions: nat, autoRetries: nat, failures: nat, recoveries: nat, manualRetries: nat)

  const NO_HISTORY := Tally(0, 0, 0, 0, 0, 0)

  datatype World = World(
    rows: map<JobId, Row>,
    results: set<JobId>,             // the Result table: jobId is unique in it
    queues: Queues,
    roster: Roster,
    now: Time,
    attempts: map<nat, Attempt>,
    calls: map<nat, Call>,
    sweeps: map<nat, Sweep>,
    tallies: map<JobId, Tally>,      // history
    retryPushes: seq<Snap>)          // history: RETRYING episodes pushed by processRetries

  // ----- steps -----

  datatype WorkerStep =
    | PopJob(worker: WorkerId, list: nat)
    | ReadJob
    | Claim
    | Report  // the handler writes its progress
    | Throw
    | Complete
    | ReadFresh
    | WriteRetry(at: Time)
    | WriteFailure
    | CleanUp
    | WrapUp
    | Abandon

  datatype CallStep =
    | InsertJob(job: JobId, priority: Priority)
    | WriteQueued
    | PushJob
    | Finish
    | Fail
    | WriteRollback
    | ReadForCancel(job: JobId)
    | WriteCancelled
    | ReadForRetry(job: JobId)
    | WriteRevived
    | Hang

  datatype SweepStep =
    | FindRetries(page: seq<Snap>)
    | FindPending(page: seq<Snap>)
    | FindStale(page: seq<Snap>)
    | ListProcessing
    | ListWorkers(scheduler: nat, workers: seq<WorkerId>)
    | FindRunning(page: seq<Snap>)
    | Advance   // the next database or Redis effect, which succeeds
    | PushFails // the next effect is an LPUSH, and it throws
    | Swallow   // the next effect is another one that throws into the catch block of the job
    | Conclude
    | Stop      // the scheduler crashes or the sweep is aborted

  datatype Step =
    | ByWorker(attempt: nat, w: WorkerStep)
    | ByCall(call: nat, c: CallStep)
    | BySweep(sweep: nat, p: SweepStep)
    | Register(worker: WorkerId)    // SADD workers:active
    | Deregister(worker: WorkerId)  // SREM workers:active, at shutdown
    | Beat(worker: WorkerId)        // SET worker:<id> EX 30
    | DropKey(worker: WorkerId)     // DEL worker:<id>, at shutdown
    | FallSilent(worker: WorkerId)  // the worker stops beating
    | Tick(elapsed: nat)

  // ----- small effects -----

  function TallyOf(s: World, j: JobId): Tally {
    if j in s.tallies then s.tallies[j] else NO_HISTORY
  }

  function Write(s: World, j: JobId, r: Row, y: Tally): World {
    s.(rows := s.rows[j := r], tallies := s.tallies[j := y])
  }

  function PriorityOf(s: World, j: JobId): Priority {
    if j in s.rows then s.rows[j].priority else Medium
  }

  /** LPUSH with the priority the row was read with; priorities never change. */
  function Push(s: World, j: JobId): World {
    s.(queues := Enqueue(s.queues, PriorityOf(s, j), j))
  }

  /** A process moves to its next control state, or ends. */
  function Moved<P>(ps: map<nat, P>, i: nat, next: Option<P>): map<nat, P> {
    if next.Some? then ps[i := next.value] else ps - {i}
  }

  // ----- worker steps -----

  predicate WorkerEnabled(s: World, a: nat, t: WorkerStep) {
    if t.PopJob? then a !in s.attempts && t.list <= MAIN && s.queues[t.list] != []
    else
      a in s.attempts &&
      var pc := s.attempts[a].pc;
      match t
      case ReadJob => pc.Reading?
      case Claim => pc.Claiming?
      case Throw => pc.Claiming? || pc.Working? || pc == Cleaning(false) || pc.WrappingUp?
      case Report => pc.Working?
      case Complete => pc.Working?
      case ReadFresh => pc.FailReading?
      case WriteRetry(at) =>
        pc.RetryWriting? &&
        var base := RetryDelay(pc.retryCount + 1);
        s.now + 500 * base <= at <= s.now + 1000 * base
      case WriteFailure => pc.FailWriting?
      case CleanUp => pc.Cleaning?
      case WrapUp => pc.WrappingUp?
      case Abandon => true
  }

  function WorkerApply(s: World, a: nat, t: WorkerStep): World
    requires WorkerEnabled(s, a, t)
  {
    if t.PopJob? then
      var j := s.queues[t.list][|s.queues[t.list]| - 1];
      s.(queues := Pop(s.queues, t.list), attempts := s.attempts[a := Attempt(t.worker, j, Reading)])
    else
      var at := s.attempts[a];
      var pc := NextPc(s, at, t);
      WorkerEffect(s, at, t).(
        attempts := Moved(s.attempts, a, if pc.Some? then Some(at.(pc := pc.value)) else None))
  }

  /** The guard of the compare-and-set, for the steps that are one.  Progress is
      written without any. */
  predicate WorkerGuard(r: Row, at: Attempt, t: WorkerStep) {
    match t
    case Claim => at.pc.Claiming? && ClaimGuard(r, at.pc.version)
    case Report => at.pc.Working?
    case Complete => at.pc.Working? && CompleteGuard(r, at.pc.version, at.worker)
    case WriteRetry(_) => at.pc.RetryWriting? && FailureGuard(r, at.pc.version, at.worker)
    case WriteFailure => at.pc.FailWriting? && FailureGuard(r, at.pc.version, at.worker)
    case _ => false
  }

  /** The step writes the row.  A completion is one transaction with the insert of
      the result, and that fails when a result exists. */
  predicate WorkerWrites(s: World, at: Attempt, t: WorkerStep) {
    at.job in s.rows && WorkerGuard(s.rows[at.job], at, t) && (t.Complete? ==> at.job !in s.results)
  }

  function WorkerRow(r: Row, w: WorkerId, t: WorkerStep, now: Time): Row {
    match t
    case Claim => Claimed(r, w, now)
    case Report => Reported(r, now)
    case Complete => Succeeded(r, now)
    case WriteRetry(at) => RetryScheduled(r, at, now)
    case WriteFailure => FinallyFailed(r, now)
    case _ => r
  }

  function WorkerTally(y: Tally, t: WorkerStep): Tally {
    match t
    case Claim => y.(claims := y.claims + 1)
    case Complete => y.(completions := y.completions + 1)
    case WriteRetry(_) => y.(autoRetries := y.autoRetries + 1)
    case WriteFailure => y.(failures := y.failures + 1)
    case _ => y
  }

  function WorkerEffect(s: World, at: Attempt, t: WorkerStep): World {
    if t.CleanUp? then s.(queues := Forget(s.queues, at.job))
    else if WorkerWrites(s, at, t) then
      Write(s, at.job, WorkerRow(s.rows[at.job], at.worker, t, s.now), WorkerTally(TallyOf(s, at.job), t))
        .(results := if t.Complete? then s.results + {at.job} else s.results)
    else s
  }

  /** Where the attempt goes next; None when it is over. */
  function NextPc(s: World, at: Attempt, t: WorkerStep): Option<AttemptPc> {
    var j := at.job;
    match t
    case ReadJob => if j in s.rows && s.rows[j].status.Queued? then Some(Claiming(s.rows[j].version)) else None
    case Claim => if WorkerWrites(s, at, t) && at.pc.Claiming? then Some(Working(at.pc.version + 1)) else None
    case Report => Some(at.pc)
    case Throw => Some(FailReading)
    case Complete =>
      if WorkerWrites(s, at, t) then Some(Cleaning(false))
      else if j in s.rows && WorkerGuard(s.rows[j], at, t) then Some(FailReading)
      else Some(WrappingUp)
    case ReadFresh =>
      if j !in s.rows then None
      else if s.rows[j].retryCount < MAX_RETRIES then Some(RetryWriting(s.rows[j].version, s.rows[j].retryCount))
      else Some(FailWriting(s.rows[j].version, s.rows[j].retryCount))
    case WriteRetry(_) => if WorkerWrites(s, at, t) then Some(Cleaning(true)) else None
    case WriteFailure => if WorkerWrites(s, at, t) then Some(Cleaning(true)) else None
    case CleanUp => if at.pc == Cleaning(false) then Some(WrappingUp) else None
    case _ => None
  }

  // ----- API steps -----

  predicate CallEnabled(s: World, c: nat, t: CallStep) {
    match t
    case InsertJob(j, _) => c !in s.calls && j !in s.rows
    case ReadForCancel(j) => c !in s.calls && j in s.rows && Cancellable(s.rows[j].status)
    case ReadForRetry(j) => c !in s.calls && j in s.rows && s.rows[j].status.Failed?
    case WriteQueued => c in s.calls && s.calls[c].Labelling?
    case PushJob => c in s.calls && s.calls[c].Pushing?
    case Finish => c in s.calls && s.calls[c].Logging?
    case Fail => c in s.calls && (s.calls[c].Labelling? || s.calls[c].Pushing? || s.calls[c].Logging?)
    case WriteRollback => c in s.calls && s.calls[c].RollingBack?
    case WriteCancelled => c in s.calls && s.calls[c].Cancelling?
    case WriteRevived => c in s.calls && s.calls[c].Reviving?
    case Hang => c in s.calls
  }

  predicate Cancellable(status: Status) {
    status.Pending? || status.Queued? || status.Retrying?
  }

  /** The job the request is about. */
  function CallJob(s: World, c: nat, t: CallStep): JobId
    requires CallEnabled(s, c, t)
  {
    if t.InsertJob? || t.ReadForCancel? || t.ReadForRetry? then t.job else s.calls[c].job
  }

  function CallApply(s: World, c: nat, t: CallStep): World
    requires CallEnabled(s, c, t)
  {
    var j := CallJob(s, c, t);
    CallEffect(s, j, t).(calls := Moved(s.calls, c, NextCall(s, j, t)))
  }

  predicate CallWrites(s: World, j: JobId, t: CallStep) {
    j in s.rows &&
    (t.WriteQueued? || t.WriteCancelled? || t.WriteRevived? || (t.WriteRollback? && RollbackGuard(s.rows[j])))
  }

  function CallRow(r: Row, t: CallStep, now: Time): Row {
    match t
    case WriteQueued => Relabelled(r, Queued, now)
    case WriteCancelled => Relabelled(r, Cancelled, now)
    case WriteRevived => Revived(r, now)
    case WriteRollback => RolledBack(r, now)
    case _ => r
  }

  function CallTally(y: Tally, t: CallStep): Tally {
    if t.WriteRevived? then y.(manualRetries := y.manualRetries + 1) else y
  }

  function CallEffect(s: World, j: JobId, t: CallStep): World {
    if t.InsertJob? then Write(s, j, Created(t.priority, s.now), NO_HISTORY)
    else if t.PushJob? then Push(s, j)
    else if CallWrites(s, j, t) then Write(s, j, CallRow(s.rows[j], t, s.now), CallTally(TallyOf(s, j), t))
    else s
  }

  function NextCall(s: World, j: JobId, t: CallStep): Option<Call> {
    match t
    case InsertJob(_, _) => Some(Labelling(j))
    case ReadForCancel(_) => Some(Cancelling(j))
    case ReadForRetry(_) => Some(Reviving(j))
    case WriteQueued => if j in s.rows then Some(Pushing(j)) else None
    case PushJob => Some(Logging(j))
    case Fail => Some(RollingBack(j))
    case _ => None
  }

  // ----- scheduler steps -----

  ghost predicate SweepEnabled(s: World, x: nat, t: SweepStep) {
    match t
    case FindRetries(page) => x !in s.sweeps && IsPage(s.rows, DueJobs(s.rows, s.now), ByUpdate, PAGE_SIZE, page)
    case FindPending(page) => x !in s.sweeps && IsPage(s.rows, AgedJobs(s.rows, s.now), ByCreation, PAGE_SIZE, page)
    case FindStale(page) => x !in s.sweeps && IsPage(s.rows, StaleJobs(s.rows, s.now), ByUpdate, PAGE_SIZE, page)
    case ListProcessing => x !in s.sweeps
    case ListWorkers(_, workers) => x !in s.sweeps && Enumerates(workers, s.roster.active)
    case FindRunning(page) =>
      && x in s.sweeps && s.sweeps[x].Condemning?
      && var jobs := RunningJobs(s.rows, s.sweeps[x].dead);
         Current(s.rows, jobs, page) && jobs <= JobsOf(page)
    case Advance => x in s.sweeps && Moves(s.sweeps[x])
    case PushFails => x in s.sweeps && IsPush(s.sweeps[x])
    case Swallow => x in s.sweeps && Swallows(s.sweeps[x])
    case Conclude => x in s.sweeps && IsFinished(s.sweeps[x])
    case Stop => x in s.sweeps
  }

  /** SMEMBERS: each member once. */
  ghost predicate Enumerates(workers: seq<WorkerId>, active: set<WorkerId>) {
    && (forall w :: w in workers <==> w in active)
    && forall i, k :: 0 <= i < k < |workers| ==> workers[i] != workers[k]
  }

  predicate IsFinished(at: Sweep) {
    match at
    case RetryLoop(todo) => todo == []
    case PendingLoop(todo) => todo == []
    case StaleLoop(todo) => todo == []
    case ScanLoop(ids) => ids == []
    case MonitorLoop(_, workers) => workers == []
    case _ => false
  }

  /** The next effect is determined. */
  predicate Moves(at: Sweep) {
    !IsFinished(at) && !at.Condemning?
  }

  predicate IsPush(at: Sweep) {
    || at.RetryPushing? || at.StalePushing? || at.ScanPushing?
    || (at.PendingLoop? && at.todo != [])
  }

  /** The next effect is no LPUSH, and the loop survives its failure. */
  predicate Swallows(at: Sweep) {
    || at.RetryUndoing? || at.PendingWriting? || at.StaleLooking? || at.StaleWriting?
    || (at.StaleLoop? && at.todo != [])
  }

  ghost function SweepApply(s: World, x: nat, t: SweepStep): World
    requires SweepEnabled(s, x, t)
  {
    match t
    case FindRetries(page) => s.(sweeps := s.sweeps[x := RetryLoop(page)])
    case FindPending(page) => s.(sweeps := s.sweeps[x := PendingLoop(page)])
    case FindStale(page) => s.(sweeps := s.sweeps[x := StaleLoop(page)])
    case ListProcessing => s.(sweeps := s.sweeps[x := ScanLoop(s.queues[PROCESSING])])
    case ListWorkers(m, workers) => s.(sweeps := s.sweeps[x := MonitorLoop(m, workers)])
    case FindRunning(page) =>
      var at := s.sweeps[x];
      s.(sweeps := s.sweeps[x := RecoverLoop(at.scheduler, at.dead, page, at.workers)])
    case Advance => AdvanceApply(s, x, s.sweeps[x])
    case PushFails => s.(sweeps := Moved(s.sweeps, x, NextOnFailure(s.sweeps[x])))
    case Swallow => s.(sweeps := s.sweeps[x := NextOnSwallow(s.sweeps[x])])
    case Conclude => s.(sweeps := s.sweeps - {x})
    case Stop => s.(sweeps := s.sweeps - {x})
  }

  /** One database statement or Redis command of a sweep, and where its loop goes. */
  function AdvanceApply(s: World, x: nat, at: Sweep): World
    requires Moves(at)
  {
    Effect(s, at).(sweeps := s.sweeps[x := NextAt(s, at)])
  }

  function Effect(s: World, at: Sweep): World
    requires Moves(at)
  {
    if IsPush(at) then LogPush(Push(s, Subject(at).job), at)
    else if at.ScanRemoving? || at.RecoverRemoving? then s.(queues := Forget(s.queues, at.job))
    else if at.MonitorLoop? || (at.RecoverLoop? && at.todo == []) then s.(roster := NewRoster(s.roster, at, s.now))
    else if Matches(s, at) then
      var j := Subject(at).job;
      Write(s, j, NewRow(s.rows[j], at, s.now), NewTally(TallyOf(s, j), at))
    else s
  }

  function LogPush(s: World, at: Sweep): World {
    if at.RetryPushing? then s.(retryPushes := s.retryPushes + [at.cur]) else s
  }

  // the worker monitor

  predicate KeyAlive(r: Roster, w: WorkerId, now: Time) {
    w in r.expires && now < r.expires[w]
  }

  function StrikesBy(r: Roster, m: nat, w: WorkerId): nat {
    if m in r.strikes then WorkerMonitor.Strikes(r.strikes[m], w) else 0
  }

  /** What scheduler `m` makes of worker `w` at this look. */
  function LookAt(r: Roster, m: nat, w: WorkerId, now: Time): (nat, bool) {
    WorkerMonitor.Look(StrikesBy(r, m, w), KeyAlive(r, w, now))
  }

  /** A look counts; after recoverWorkerJobs the worker leaves the list. */
  function NewRoster(r: Roster, at: Sweep, now: Time): Roster
    requires (at.MonitorLoop? && at.workers != []) || at.RecoverLoop?
  {
    if at.RecoverLoop? then r.(active := r.active - {at.dead})
    else
      var w := at.workers[0];
      var missed := if at.scheduler in r.strikes then r.strikes[at.scheduler] else map[];
      r.(strikes := r.strikes[at.scheduler := missed[w := LookAt(r, at.scheduler, w, now).0]])
  }

  /** The states whose next effect is a compare-and-set. */
  predicate Writes(at: Sweep) {
    || at.RetryLoop? || at.RetryUndoing? || at.PendingWriting? || at.StaleWriting? || at.ScanWriting?
    || (at.RecoverLoop? && at.todo != [])
  }

  /** The snapshot the next effect is about. */
  function Subject(at: Sweep): Snap
    requires (Writes(at) || IsPush(at)) && Moves(at)
  {
    if at.RetryLoop? || at.PendingLoop? || at.RecoverLoop? then at.todo[0] else at.cur
  }

  predicate GuardOf(r: Row, at: Sweep)
    requires Writes(at) && Moves(at)
  {
    var v := Subject(at).version;
    match at
    case RetryLoop(_) => RequeueGuard(r, v)
    case RetryUndoing(_, _) => UndoGuard(r, v)
    case PendingWriting(_, _) => DispatchGuard(r, v)
    case RecoverLoop(_, w, _, _) => RecoverGuard(r, v, w)
    case _ => RefreshGuard(r, v)
  }

  function NewRow(r: Row, at: Sweep, now: Time): Row
    requires Writes(at)
  {
    match at
    case RetryLoop(_) => Requeued(r, now)
    case RetryUndoing(_, _) => Undone(r, now)
    case PendingWriting(_, _) => Dispatched(r, now)
    case RecoverLoop(_, _, _, _) => Recovered(r, now)
    case _ => Refreshed(r, now)
  }

  function NewTally(y: Tally, at: Sweep): Tally {
    if at.RecoverLoop? then y.(recoveries := y.recoveries + 1) else y
  }

  predicate Matches(s: World, at: Sweep) {
    Writes(at) && Moves(at) && Subject(at).job in s.rows && GuardOf(s.rows[Subject(at).job], at)
  }

  function NextAt(s: World, at: Sweep): Sweep
    requires Moves(at)
  {
    match at
    case RetryLoop(todo) => if Matches(s, at) then RetryPushing(todo[0], todo[1..]) else RetryLoop(todo[1..])
    case RetryPushing(_, todo) => RetryLoop(todo)
    case RetryUndoing(_, todo) => RetryLoop(todo)
    case PendingLoop(todo) => PendingWriting(todo[0], todo[1..])
    case PendingWriting(_, todo) => PendingLoop(todo)
    case StaleLoop(todo) => Looked(s, todo[0], 0, todo[1..])
    case StaleLooking(c, list, todo) => Looked(s, c, list, todo)
    case StaleWriting(c, todo) => if Matches(s, at) then StalePushing(c, todo) else StaleLoop(todo)
    case StalePushing(_, todo) => StaleLoop(todo)
    case ScanLoop(ids) => Scanned(s, ids[0], ids[1..])
    case ScanWriting(c, ids) => if Matches(s, at) then ScanPushing(c, ids) else ScanLoop(ids)
    case ScanPushing(c, ids) => ScanRemoving(c.job, ids)
    case ScanRemoving(_, ids) => ScanLoop(ids)
    case MonitorLoop(m, ws) =>
      if LookAt(s.roster, m, ws[0], s.now).1 then Condemning(m, ws[0], ws[1..]) else MonitorLoop(m, ws[1..])
    case RecoverLoop(m, w, todo, ws) =>
      if todo == [] then MonitorLoop(m, ws)
      else if Matches(s, at) then RecoverRemoving(m, w, todo[0].job, todo[1..], ws)
      else RecoverLoop(m, w, todo[1..], ws)
    case RecoverRemoving(m, w, _, todo, ws) => RecoverLoop(m, w, todo, ws)
  }

  /** One LPOS of `isJobInAnyQueue`. */
  function Looked(s: World, c: Snap, list: nat, todo: seq<Snap>): Sweep {
    if list > PROCESSING then StaleWriting(c, todo)
    else if c.job in s.queues[list] then StaleLoop(todo)
    else if list == PROCESSING then StaleWriting(c, todo)
    else StaleLooking(c, list + 1, todo)
  }

  /** The findUnique of `recoverProcessingQueue` and the branch it selects. */
  function Scanned(s: World, j: JobId, ids: seq<JobId>): Sweep {
    if j !in s.rows then ScanRemoving(j, ids)
    else
      var r := s.rows[j];
      if r.status.Completed? || r.status.Failed? || r.status.Cancelled? then ScanRemoving(j, ids)
      else if r.status.Retrying? then ScanRemoving(j, ids)
      else if Stranded(r, s.now) then ScanWriting(Snap(j, r.version), ids)
      else ScanLoop(ids)
  }

  /** The catch block after a failed LPUSH; None when the error ends the sweep. */
  function NextOnFailure(at: Sweep): Option<Sweep>
    requires IsPush(at)
  {
    match at
    case RetryPushing(c, todo) => Some(RetryUndoing(c, todo))
    case PendingLoop(todo) => Some(PendingLoop(todo[1..]))
    case StalePushing(_, todo) => Some(StaleLoop(todo))
    case ScanPushing(_, _) => None
  }

  /** The catch block after another failure: on to the next job. */
  function NextOnSwallow(at: Sweep): Sweep
    requires Swallows(at)
  {
    match at
    case RetryUndoing(_, todo) => RetryLoop(todo)
    case PendingWriting(_, todo) => PendingLoop(todo)
    case StaleLoop(todo) => StaleLoop(todo[1..])
    case StaleLooking(_, _, todo) => StaleLoop(todo)
    case StaleWriting(_, todo) => StaleLoop(todo)
  }

  // ----- runs -----

  ghost predicate Enabled(s: World, t: Step) {
    match t
    case ByWorker(a, w) => WorkerEnabled(s, a, w)
    case ByCall(c, k) => CallEnabled(s, c, k)
    case BySweep(x, p) => SweepEnabled(s, x, p)
    case Beat(w) => w !in s.roster.silent
    case _ => true
  }

  ghost function Apply(s: World, t: Step): World
    requires Enabled(s, t)
  {
    match t
    case ByWorker(a, w) => WorkerApply(s, a, w)
    case ByCall(c, k) => CallApply(s, c, k)
    case BySweep(x, p) => SweepApply(s, x, p)
    case Tick(d) => s.(now := s.now + d)
    case _ => s.(roster := RosterApply(s.roster, t, s.now))
  }

  /** What workers do to the roster themselves. */
  function RosterApply(r: Roster, t: Step, now: Time): Roster {
    match t
    case Register(w) => r.(active := r.active + {w}, silent := r.silent - {w})
    case Deregister(w) => r.(active := r.active - {w})
    case Beat(w) => r.(expires := r.expires[w := now + WorkerMonitor.HEARTBEAT_TTL])
    case DropKey(w) => r.(expires := r.expires - {w})
    case FallSilent(w) => r.(silent := r.silent + {w})
    case _ => r
  }

  /** The system starts without jobs; the lists may hold anything. */
  predicate Init(s: World) {
    s.rows == map[] && s.results == {} && s.attempts == map[] && s.calls == map[] && s.sweeps == map[]
    && s.tallies == map[] && s.retryPushes == []
  }

  ghost predicate Runs(s: World, ts: seq<Step>)
    decreases |ts|, 0
  {
    |ts| == 0 || (Runs(s, ts[..|ts| - 1]) && Enabled(After(s, ts[..|ts| - 1]), ts[|ts| - 1]))
  }

  /** The world after the steps `ts`. */
  ghost function After(s: World, ts: seq<Step>): World
    requires Runs(s, ts)
    decreases |ts|, 1
  {
    if |ts| == 0 then s else Apply(After(s, ts[..|ts| - 1]), ts[|ts| - 1])
  }

  lemma {:induction false} PrefixRuns(s: World, ts: seq<Step>, k: nat)
    requires Runs(s, ts) && k <= |ts|
    ensures Runs(s, ts[..k])
    ensures k < |ts| ==> Enabled(After(s, ts[..k]), ts[k])
    ensures k < |ts| ==> Runs(s, ts[..k + 1]) && After(s, ts[..k + 1]) == Apply(After(s, ts[..k]), ts[k])
    decreases |ts|
  {
    if k == |ts| {
      assert ts[..k] == ts;
    } else {
      var front := ts[..|ts| - 1];
      if k == |front| {
        assert ts[..k + 1] == ts;
      } else {
        PrefixRuns(s, front, k);
        assert front[..k] == ts[..k] && front[..k + 1] == ts[..k + 1];
      }
    }
  }

  lemma {:induction false} RunsAppend(s: World, ts: seq<Step>, us: seq<Step>)
    requires Runs(s, ts) && Runs(After(s, ts), us)
    ensures Runs(s, ts + us) && After(s, ts + us) == After(After(s, ts), us)
    decreases |us|
  {
    hide Apply, Enabled;
    var all := ts + us;
    if us == [] {
      assert all == ts;
    } else {
      var front := us[..|us| - 1];
      RunsAppend(s, ts, front);
      assert all[..|all| - 1] == ts + front && all[|all| - 1] == us[|us| - 1];
    }
  }
}
