/** The `Job` row shared by the API, the workers and the schedulers, and every
    conditional write they perform on it.  Each `...Guard` is the `where` clause
    of an `updateMany`; the function beside it is the `data` clause. */
module Jobs {
  import opened Wrappers

  type JobId = string
  type WorkerId = string
  type Time = int  // milliseconds

  const MAX_RETRIES: nat := 4
  const PENDING_GRACE: Time := 10_000
  const PROCESSING_STALE: Time := 30_000
  const ROLLBACK_DELAY: Time := 5_000
  const PAGE_SIZE: nat := 100

  datatype Status = Pending | Queued | Running | Completed | Failed | Retrying | Cancelled

  datatype Priority = Critical | High | Medium | Low

  datatype Row = Row(
    status: Status,
    version: int,
    worker: Option<WorkerId>,
    retryCount: nat,
    nextRetryAt: Option<Time>,
    priority: Priority,
    createdAt: Time,
    updatedAt: Time)

  // ----- worker writes -----

  predicate ClaimGuard(r: Row, version: int) {
    r.version == version && r.status.Queued?
  }

  function Claimed(r: Row, w: WorkerId, now: Time): Row {
    r.(status := Running, worker := Some(w), version := r.version + 1, updatedAt := now)
  }

  /** `updateProgress`: no guard, no version bump. */
  function Reported(r: Row, now: Time): Row {
    r.(updatedAt := now)
  }

  predicate CompleteGuard(r: Row, version: int, w: WorkerId) {
    r.version == version && r.worker == Some(w) && r.status.Running?
  }

  function Succeeded(r: Row, now: Time): Row {
    r.(status := Completed, worker := None, version := r.version + 1, updatedAt := now)
  }

  /** The retry and fail writes check the version and the owner, not the status. */
  predicate FailureGuard(r: Row, version: int, w: WorkerId) {
    r.version == version && r.worker == Some(w)
  }

  function RetryScheduled(r: Row, at: Time, now: Time): Row {
    r.(status := Retrying, worker := None, retryCount := r.retryCount + 1, nextRetryAt := Some(at),
       version := r.version + 1, updatedAt := now)
  }

  function FinallyFailed(r: Row, now: Time): Row {
    r.(status := Failed, worker := None, version := r.version + 1, updatedAt := now)
  }

  /** Base delay in seconds before automatic retry number `n`. */
  function RetryDelay(n: nat): nat {
    if n == 1 then 10 else if n == 2 then 30 else if n == 3 then 60 else 120
  }

  // ----- scheduler writes -----

  predicate RecoverGuard(r: Row, version: int, w: WorkerId) {
    r.version == version && r.worker == Some(w) && r.status.Running?
  }

  /** Crash recovery does not touch `retryCount`. */
  function Recovered(r: Row, now: Time): Row {
    r.(status := Retrying, worker := None, nextRetryAt := Some(now), version := r.version + 1, updatedAt := now)
  }

  predicate RequeueGuard(r: Row, version: int) {
    r.version == version && r.status.Retrying?
  }

  function Requeued(r: Row, now: Time): Row {
    r.(status := Queued, nextRetryAt := None, version := r.version + 1, updatedAt := now)
  }

  predicate UndoGuard(r: Row, version: int) {
    r.version == version + 1 && r.status.Queued? && r.worker.None?
  }

  function Undone(r: Row, now: Time): Row {
    r.(status := Retrying, nextRetryAt := Some(now + ROLLBACK_DELAY), version := r.version + 1, updatedAt := now)
  }

  predicate DispatchGuard(r: Row, version: int) {
    r.version == version && r.status.Pending?
  }

  function Dispatched(r: Row, now: Time): Row {
    r.(status := Queued, version := r.version + 1, updatedAt := now)
  }

  predicate RefreshGuard(r: Row, version: int) {
    r.version == version && r.status.Queued? && r.worker.None?
  }

  function Refreshed(r: Row, now: Time): Row {
    r.(version := r.version + 1, updatedAt := now)
  }

  // ----- API writes -----

  function Created(p: Priority, now: Time): Row {
    Row(Pending, 1, None, 0, None, p, now, now)
  }

  /** `updateStatus`: no guard, no version bump. */
  function Relabelled(r: Row, status: Status, now: Time): Row {
    r.(status := status, updatedAt := now)
  }

  predicate RollbackGuard(r: Row) {
    r.status.Queued? && r.worker.None?
  }

  function RolledBack(r: Row, now: Time): Row {
    r.(status := Pending, version := r.version + 1, updatedAt := now)
  }

  /** `retryJob`: no guard, no version bump. */
  function Revived(r: Row, now: Time): Row {
    r.(status := Pending, retryCount := r.retryCount + 1, updatedAt := now)
  }

  // ----- scheduler queries -----

  predicate DueRetry(r: Row, now: Time) {
    r.status.Retrying? && (r.nextRetryAt.None? || r.nextRetryAt.value <= now)
  }

  predicate AgedPending(r: Row, now: Time) {
    r.status.Pending? && r.createdAt <= now - PENDING_GRACE
  }

  predicate StaleQueued(r: Row, now: Time) {
    r.status.Queued? && r.worker.None? && r.updatedAt <= now - PENDING_GRACE
  }

  predicate Stranded(r: Row, now: Time) {
    r.status.Queued? && r.worker.None? && now - r.updatedAt >= PROCESSING_STALE
  }

  function DueJobs(rows: map<JobId, Row>, now: Time): set<JobId> {
    set j | j in rows && DueRetry(rows[j], now)
  }

  function AgedJobs(rows: map<JobId, Row>, now: Time): set<JobId> {
    set j | j in rows && AgedPending(rows[j], now)
  }

  function StaleJobs(rows: map<JobId, Row>, now: Time): set<JobId> {
    set j | j in rows && StaleQueued(rows[j], now)
  }

  function RunningJobs(rows: map<JobId, Row>, w: WorkerId): set<JobId> {
    set j | j in rows && rows[j].status.Running? && rows[j].worker == Some(w)
  }

  /** What a `findMany` keeps of a row for its later compare-and-set. */
  datatype Snap = Snap(job: JobId, version: int)

  datatype Order = ByCreation | ByUpdate

  function Age(order: Order, r: Row): Time {
    if order.ByCreation? then r.createdAt else r.updatedAt
  }

  /** `page` is a possible result of `findMany` over the `eligible` rows with
      `orderBy <order> asc` and `take: <size>`. */
  ghost predicate IsPage(rows: map<JobId, Row>, eligible: set<JobId>, order: Order, size: nat, page: seq<Snap>)
    requires eligible <= rows.Keys
  {
    && |page| <= size
    && Current(rows, eligible, page)
    && (forall i, k | 0 <= i < k < |page| ::
          Age(order, rows[page[i].job]) <= Age(order, rows[page[k].job]))
    && (forall j | j in eligible ::
          || j in JobsOf(page)
          || (|page| == size && forall i | 0 <= i < |page| ::
                Age(order, rows[page[i].job]) <= Age(order, rows[j])))
  }

  /** Snapshots of distinct eligible rows, all taken now. */
  ghost predicate Current(rows: map<JobId, Row>, eligible: set<JobId>, page: seq<Snap>)
    requires eligible <= rows.Keys
  {
    && (forall i | 0 <= i < |page| ::
          page[i].job in eligible && page[i].version == rows[page[i].job].version)
    && (forall i, k | 0 <= i < k < |page| :: page[i].job != page[k].job)
  }

  ghost function JobsOf(page: seq<Snap>): set<JobId> {
    set i | 0 <= i < |page| :: page[i].job
  }

  function One(b: bool): nat {
    if b then 1 else 0
  }

  lemma RestOfPage(page: seq<Snap>)
    requires page != []
    ensures page[0].job in JobsOf(page) && JobsOf(page[1..]) <= JobsOf(page)
  {
    forall j | j in JobsOf(page[1..])
      ensures j in JobsOf(page)
    {
      var i :| 0 <= i < |page[1..]| && page[1..][i].job == j;
      assert page[i + 1].job == j;
    }
  }

  lemma SmallerSet(a: set<JobId>, b: set<JobId>)
    requires a < b
    ensures |a| < |b|
  {
    assert b == a + (b - a);
  }

  lemma JobsOfSize(page: seq<Snap>)
    requires forall i, k | 0 <= i < k < |page| :: page[i].job != page[k].job
    ensures |JobsOf(page)| == |page|
  {
    if page != [] {
      var n := |page| - 1;
      JobsOfSize(page[..n]);
      assert JobsOf(page) == JobsOf(page[..n]) + {page[n].job};
    }
  }

  /** When everything eligible fits on the page, the page is all of it. */
  lemma FullPage(rows: map<JobId, Row>, eligible: set<JobId>, order: Order, size: nat, page: seq<Snap>)
    requires eligible <= rows.Keys && IsPage(rows, eligible, order, size, page) && |eligible| <= size
    ensures JobsOf(page) == eligible
  {
    assert JobsOf(page) <= eligible;
    if j :| j in eligible && j !in JobsOf(page) {
      JobsOfSize(page);
      SmallerSet(JobsOf(page), eligible);
      assert false;
    }
  }
}
