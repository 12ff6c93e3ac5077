/** What can be claimed is never wedged: whatever crashes and late writes left behind,
    finitely many ordinary steps lead to a claim. */
module Progress {
  import opened Wrappers
  import opened Jobs
  import opened RedisLists
  import opened Protocol
  import opened Fencing
  import opened Continuations
  import Monitoring

  // ----- a sweep runs to its end -----

  /** Steps left in an undisturbed sweep, at most. */
  function Work(at: Sweep): nat {
    match at
    case RetryLoop(todo) => 8 * |todo|
    case RetryPushing(_, todo) => 8 * |todo| + 1
    case RetryUndoing(_, todo) => 8 * |todo| + 1
    case PendingLoop(todo) => 8 * |todo|
    case PendingWriting(_, todo) => 8 * |todo| + 1
    case StaleLoop(todo) => 8 * |todo|
    case StaleLooking(_, list, todo) => 8 * |todo| + (if list <= PROCESSING then 8 - list else 0)
    case StaleWriting(_, todo) => 8 * |todo| + 2
    case StalePushing(_, todo) => 8 * |todo| + 1
    case ScanLoop(ids) => 8 * |ids|
    case ScanWriting(_, ids) => 8 * |ids| + 3
    case ScanPushing(_, ids) => 8 * |ids| + 2
    case ScanRemoving(_, ids) => 8 * |ids| + 1
    case _ => 0
  }

  predicate Undisturbed(at: Sweep) {
    && !at.RetryUndoing? && !Monitoring.Monitors(at)
    && (at.StaleLooking? ==> 1 <= at.list <= PROCESSING)
  }

  /** `processStaleQueuedJobs` and `recoverProcessingQueue` never change a status. */
  predicate KeepsStatuses(at: Sweep) {
    || at.StaleLoop? || at.StaleLooking? || at.StaleWriting? || at.StalePushing?
    || at.ScanLoop? || at.ScanWriting? || at.ScanPushing? || at.ScanRemoving?
  }

  /** The jobs a sweep may still touch. */
  ghost predicate Mentions(at: Sweep, j: JobId) {
    match at
    case ScanLoop(ids) => j in ids
    case ScanWriting(c, ids) => c.job == j || j in ids
    case ScanPushing(c, ids) => c.job == j || j in ids
    case ScanRemoving(k, ids) => k == j || j in ids
    case RetryLoop(todo) => j in JobsOf(todo)
    case PendingLoop(todo) => j in JobsOf(todo)
    case StaleLoop(todo) => j in JobsOf(todo)
    case RecoverLoop(_, _, todo, _) => j in JobsOf(todo)
    case RecoverRemoving(_, _, k, todo, _) => k == j || j in JobsOf(todo)
    case MonitorLoop(_, _) => false
    case Condemning(_, _, _) => false
    case _ => at.cur.job == j || j in JobsOf(at.todo)
  }

  predicate Listed(s: World, todo: seq<Snap>, j: JobId)
    requires j in s.rows
  {
    Snap(j, s.rows[j].version) in todo
  }

  predicate IsCurrent(s: World, c: Snap, j: JobId)
    requires j in s.rows
  {
    c == Snap(j, s.rows[j].version)
  }

  /** The sweep has made `j` ready, or will. */
  ghost predicate Promise(s: World, at: Sweep, j: JobId) {
    j in s.rows &&
    var r := s.rows[j];
    match at
    case RetryLoop(todo) => Ready(s, j) || (r.status.Retrying? && Listed(s, todo, j))
    case RetryPushing(c, todo) =>
      Ready(s, j) || (r.status.Queued? && c.job == j) || (r.status.Retrying? && Listed(s, todo, j))
    case PendingLoop(todo) => Ready(s, j) || (r.status.Pending? && Listed(s, todo, j))
    case PendingWriting(c, todo) =>
      || Ready(s, j)
      || (r.status.Pending? && IsCurrent(s, c, j) && Waiting(s.queues, j))
      || (r.status.Pending? && !IsCurrent(s, c, j) && Listed(s, todo, j))
    case StaleLoop(todo) => Ready(s, j) || (Missing(s, j) && Listed(s, todo, j))
    case StaleLooking(c, _, todo) => Ready(s, j) || (Missing(s, j) && (IsCurrent(s, c, j) || Listed(s, todo, j)))
    case StaleWriting(c, todo) => Ready(s, j) || (Missing(s, j) && (IsCurrent(s, c, j) || Listed(s, todo, j)))
    case StalePushing(c, todo) =>
      Ready(s, j) || (r.status.Queued? && c.job == j) || (Missing(s, j) && Listed(s, todo, j))
    case ScanLoop(ids) => Ready(s, j) || (Stranded(r, s.now) && j in ids)
    case ScanWriting(c, ids) => Ready(s, j) || (Stranded(r, s.now) && (IsCurrent(s, c, j) || j in ids))
    case ScanPushing(c, ids) => Ready(s, j) || (r.status.Queued? && c.job == j) || (Stranded(r, s.now) && j in ids)
    case ScanRemoving(_, ids) => Ready(s, j) || (Stranded(r, s.now) && j in ids)
    case _ => false
  }

  ghost predicate Missing(s: World, j: JobId)
    requires j in s.rows
  {
    s.rows[j].status.Queued? && s.rows[j].worker.None? && !InAnyList(s.queues, j)
  }

  /** Statuses only move from PENDING or RETRYING to QUEUED, and owners stay. */
  ghost predicate Forward(s: World, at: Sweep, s': World) {
    && s'.now == s.now && s'.rows.Keys == s.rows.Keys
    && forall m :: m in s.rows ==>
         var a, b := s.rows[m].status, s'.rows[m].status;
         && (a == b || (b.Queued? && (a.Pending? || a.Retrying?) && !KeepsStatuses(at)))
         && s'.rows[m].worker == s.rows[m].worker
         && (!Mentions(at, m) ==> s'.rows[m] == s.rows[m])
  }

  ghost predicate Narrower(at: Sweep, at': Sweep) {
    && Work(at') < Work(at)
    && (KeepsStatuses(at) <==> KeepsStatuses(at'))
    && forall m :: Mentions(at', m) ==> Mentions(at, m)
  }

  ghost predicate Progressed(s: World, x: nat, s': World, j: JobId)
    requires x in s.sweeps
  {
    && x in s'.sweeps && Undisturbed(s'.sweeps[x])
    && Narrower(s.sweeps[x], s'.sweeps[x])
    && Forward(s, s.sweeps[x], s')
    && Promise(s', s'.sweeps[x], j)
  }

  lemma RetryProgress(s: World, x: nat, j: JobId)
    requires x in s.sweeps && (s.sweeps[x].RetryLoop? || s.sweeps[x].RetryPushing?)
    requires Moves(s.sweeps[x]) && Promise(s, s.sweeps[x], j)
    ensures Progressed(s, x, AdvanceApply(s, x, s.sweeps[x]), j)
  {
    hide AdvanceApply, Enqueue, Waiting;
    AdvanceRows(s, x, s.sweeps[x]);
    AdvanceRest(s, x, s.sweeps[x]);
    match s.sweeps[x]
    case RetryLoop(todo) => RestOfPage(todo);
    case RetryPushing(c, _) => EnqueueWaits(s.queues, PriorityOf(s, c.job), c.job);
  }

  lemma PendingProgress(s: World, x: nat, j: JobId)
    requires x in s.sweeps && (s.sweeps[x].PendingLoop? || s.sweeps[x].PendingWriting?)
    requires Moves(s.sweeps[x]) && Promise(s, s.sweeps[x], j)
    ensures Progressed(s, x, AdvanceApply(s, x, s.sweeps[x]), j)
  {
    hide AdvanceApply, Enqueue, Waiting;
    AdvanceRows(s, x, s.sweeps[x]);
    AdvanceRest(s, x, s.sweeps[x]);
    if s.sweeps[x].PendingLoop? {
      var c := s.sweeps[x].todo[0];
      RestOfPage(s.sweeps[x].todo);
      EnqueueWaits(s.queues, PriorityOf(s, c.job), c.job);
    }
  }

  lemma StaleProgress(s: World, x: nat, j: JobId)
    requires x in s.sweeps && Undisturbed(s.sweeps[x])
    requires var at := s.sweeps[x]; at.StaleLoop? || at.StaleLooking? || at.StaleWriting? || at.StalePushing?
    requires Moves(s.sweeps[x]) && Promise(s, s.sweeps[x], j)
    ensures Progressed(s, x, AdvanceApply(s, x, s.sweeps[x]), j)
  {
    hide AdvanceApply, Enqueue, Waiting;
    AdvanceRows(s, x, s.sweeps[x]);
    AdvanceRest(s, x, s.sweeps[x]);
    if s.sweeps[x].StaleLoop? {
      RestOfPage(s.sweeps[x].todo);
    } else if s.sweeps[x].StalePushing? {
      var c := s.sweeps[x].cur;
      EnqueueWaits(s.queues, PriorityOf(s, c.job), c.job);
      EnqueueLists(s.queues, PriorityOf(s, c.job), c.job);
    }
  }

  lemma EnqueueLists(q: Queues, p: Priority, j: JobId)
    ensures forall k :: k != j && InAnyList(Enqueue(q, p, j), k) ==> InAnyList(q, k)
  {
    forall k | k != j && InAnyList(Enqueue(q, p, j), k)
      ensures InAnyList(q, k)
    {
      var i :| 0 <= i <= PROCESSING && k in Enqueue(q, p, j)[i];
      assert k in q[i];
    }
  }

  lemma ScanProgress(s: World, x: nat, j: JobId)
    requires x in s.sweeps
    requires s.sweeps[x].ScanLoop? || s.sweeps[x].ScanWriting? || s.sweeps[x].ScanPushing? || s.sweeps[x].ScanRemoving?
    requires Moves(s.sweeps[x]) && Promise(s, s.sweeps[x], j)
    ensures Progressed(s, x, AdvanceApply(s, x, s.sweeps[x]), j)
  {
    hide AdvanceApply, Enqueue, Forget, Waiting;
    AdvanceRows(s, x, s.sweeps[x]);
    AdvanceRest(s, x, s.sweeps[x]);
    match s.sweeps[x]
    case ScanLoop(ids) => assert ids == [ids[0]] + ids[1..];
    case ScanWriting(_, _) =>
    case ScanPushing(c, _) => EnqueueWaits(s.queues, PriorityOf(s, c.job), c.job);
    case ScanRemoving(k, _) => ForgetKeepsWaiting(s.queues, k);
  }

  lemma SweepProgress(s: World, x: nat, j: JobId)
    requires x in s.sweeps && Undisturbed(s.sweeps[x]) && Moves(s.sweeps[x]) && Promise(s, s.sweeps[x], j)
    ensures Progressed(s, x, AdvanceApply(s, x, s.sweeps[x]), j)
  {
    hide AdvanceApply, Promise, Progressed;
    var at := s.sweeps[x];
    if at.RetryLoop? || at.RetryPushing? {
      RetryProgress(s, x, j);
    } else if at.PendingLoop? || at.PendingWriting? {
      PendingProgress(s, x, j);
    } else if at.StaleLoop? || at.StaleLooking? || at.StaleWriting? || at.StalePushing? {
      StaleProgress(s, x, j);
    } else {
      ScanProgress(s, x, j);
    }
  }

  lemma ForwardStays(s: World, at: Sweep)
    ensures Forward(s, at, s)
  {
  }

  lemma ForwardJoin(s: World, at: Sweep, u: World, at': Sweep, s': World)
    requires Forward(s, at, u) && Narrower(at, at') && Forward(u, at', s')
    ensures Forward(s, at, s') && Work(at') < Work(at)
  {
  }

  lemma Concludes(s: World, x: nat, j: JobId)
    requires x in s.sweeps && IsFinished(s.sweeps[x]) && Promise(s, s.sweeps[x], j)
    ensures Enabled(s, BySweep(x, Conclude))
    ensures var s' := Apply(s, BySweep(x, Conclude));
            Forward(s, s.sweeps[x], s') && j in s'.rows && Ready(s', j)
  {
  }

  lemma Advances(s: World, x: nat)
    requires x in s.sweeps && Moves(s.sweeps[x])
    ensures Enabled(s, BySweep(x, Advance))
    ensures Apply(s, BySweep(x, Advance)) == AdvanceApply(s, x, s.sweeps[x])
  {
  }

  /** An undisturbed sweep runs to its end and keeps its promise. */
  lemma {:induction false} RunSweep(s: World, x: nat, j: JobId) returns (ts: seq<Step>, s': World)
    requires Sane(s) && x in s.sweeps && Undisturbed(s.sweeps[x]) && Promise(s, s.sweeps[x], j)
    ensures Leads(s, ts, s') && Sane(s') && Forward(s, s.sweeps[x], s') && j in s'.rows
    ensures Ready(s', j)
    decreases Work(s.sweeps[x])
  {
    hide Apply, Enabled, AdvanceApply, Sane, Forward, Promise, Narrower, Ready, Work, Leads, Goes;
    if IsFinished(s.sweeps[x]) {
      Concludes(s, x, j);
      s' := Apply(s, BySweep(x, Conclude));
      LeadsOnce(s, BySweep(x, Conclude));
      ts := [BySweep(x, Conclude)];
    } else {
      var t := BySweep(x, Advance);
      Advances(s, x);
      var u := Apply(s, t);
      LeadsOnce(s, t);
      SweepProgress(s, x, j);
      ForwardStays(u, u.sweeps[x]);
      ForwardJoin(s, s.sweeps[x], u, u.sweeps[x], u);
      var us;
      us, s' := RunSweep(u, x, j);
      LeadsOn(s, [t], u, us, s');
      ForwardJoin(s, s.sweeps[x], u, u.sweeps[x], s');
      ts := [t] + us;
    }
  }

  // ----- from each live status to a claim -----

  function With(s: World, status: Status): set<JobId> {
    set j | j in s.rows && s.rows[j].status == status
  }

  /** A sweep starts, runs to its end, and `j` profits. */
  lemma StartAndRun(s: World, x: nat, t: SweepStep, j: JobId) returns (ts: seq<Step>, s': World)
    requires Sane(s) && x !in s.sweeps && SweepEnabled(s, x, t) && Ordinary(BySweep(x, t))
    requires var u := SweepApply(s, x, t); x in u.sweeps && Undisturbed(u.sweeps[x]) && Promise(u, u.sweeps[x], j)
    ensures Leads(s, ts, s') && Sane(s') && j in s'.rows
    ensures var u := SweepApply(s, x, t);
            Forward(u, u.sweeps[x], s') && Ready(s', j)
  {
    hide SweepApply, SweepEnabled, Forward, Promise;
    var u := Apply(s, BySweep(x, t));
    LeadsOnce(s, BySweep(x, t));
    var us;
    us, s' := RunSweep(u, x, j);
    LeadsOn(s, [BySweep(x, t)], u, us, s');
    ts := [BySweep(x, t)] + us;
  }

  ghost predicate SameHolders(s: World, s': World) {
    && s'.rows.Keys == s.rows.Keys
    && forall m :: m in s.rows ==> s'.rows[m].status == s.rows[m].status && s'.rows[m].worker == s.rows[m].worker
  }

  lemma ScanBrings(u: World, k: JobId) returns (ts: seq<Step>, s': World)
    requires Sane(u) && k in u.rows && k in u.queues[PROCESSING] && Stranded(u.rows[k], u.now)
    ensures Leads(u, ts, s') && Sane(s') && Ready(s', k) && SameHolders(u, s')
  {
    hide Leads, Sane;
    var x := FreshNumber(u.sweeps.Keys);
    ts, s' := StartAndRun(u, x, ListProcessing, k);
  }

  /** No stale job is in any list, so the oldest one is pushed. */
  lemma StaleBrings(u: World, j: JobId) returns (ts: seq<Step>, s': World, k: JobId)
    requires Sane(u) && j in StaleJobs(u.rows, u.now)
    requires forall m :: m in StaleJobs(u.rows, u.now) ==> !InAnyList(u.queues, m)
    ensures Leads(u, ts, s') && Sane(s') && Ready(s', k) && SameHolders(u, s')
  {
    hide Leads, Sane;
    var x := FreshNumber(u.sweeps.Keys);
    var page := PageExists(u.rows, StaleJobs(u.rows, u.now), ByUpdate, PAGE_SIZE);
    assert page != [];
    k := page[0].job;
    assert page[0] in page;
    ts, s' := StartAndRun(u, x, FindStale(page), k);
  }

  /** QUEUED, and found by workers or by sweeps. */
  ghost predicate Live(s: World, j: JobId) {
    j in s.rows && s.rows[j].status.Queued? && (s.rows[j].worker.None? || Waiting(s.queues, j))
  }

  /** Where some job is live, some QUEUED job is brought into a polled list, and no
      status or owner changes. */
  lemma BringIntoList(s: World, j: JobId) returns (ts: seq<Step>, s': World, k: JobId)
    requires Sane(s) && Live(s, j)
    ensures Leads(s, ts, s') && Sane(s') && Ready(s', k) && SameHolders(s, s') && Live(s', j)
  {
    hide Leads, Goes, Apply, Enabled, Waiting;
    var ts0, u := Monitoring.Wait(s, PROCESSING_STALE);
    ts, s', k := ts0, u, j;
    if m :| Ready(u, m) {
      k := m;
    } else {
      assert !Ready(u, j);
      var us;
      if m :| m in u.rows && m in u.queues[PROCESSING] && Stranded(u.rows[m], u.now) {
        k := m;
        us, s' := ScanBrings(u, m);
      } else {
        forall m | m in StaleJobs(u.rows, u.now)
          ensures !InAnyList(u.queues, m)
        {
          assert !Ready(u, m);
          NotListed(s, u, m);
        }
        us, s', k := StaleBrings(u, j);
      }
      LeadsOn(s, ts, u, us, s');
      ts := ts + us;
    }
  }

  /** A stale job that is in no list after the wait. */
  lemma NotListed(s: World, u: World, m: JobId)
    requires Sane(s) && u.rows == s.rows && u.now == s.now + PROCESSING_STALE
    requires m in u.rows && StaleQueued(u.rows[m], u.now) && !Waiting(u.queues, m)
    requires m in u.queues[PROCESSING] ==> !Stranded(u.rows[m], u.now)
    ensures !InAnyList(u.queues, m)
  {
  }

  /** A live job is claimed. */
  lemma {:induction false} ClaimQueued(s: World, j: JobId, w: WorkerId) returns (ts: seq<Step>)
    requires Sane(s) && Live(s, j)
    ensures EndsInClaim(s, ts, j, w)
    decreases |With(s, Queued)|
  {
    hide EndsInClaim, Leads, Goes, Waiting;
    var ts1, u, k := BringIntoList(s, j);
    var ts2, m, us, v := ClaimWaiting(u, k, w);
    if m == j {
      ClaimLater(s, ts1, u, ts2, j, w);
      ts := ts1 + ts2;
    } else {
      assert With(v, Queued) < With(s, Queued) by {
        assert m in With(s, Queued) && m !in With(v, Queued);
      }
      SmallerSet(With(v, Queued), With(s, Queued));
      assert u.rows[j].worker.Some? ==> Ready(u, j);
      var ts3 := ClaimQueued(v, j, w);
      LeadsOn(s, ts1, u, us, v);
      ClaimLater(s, ts1 + us, v, ts3, j, w);
      ts := ts1 + us + ts3;
    }
  }

  lemma PagePromises(u: World, page: seq<Snap>, k: JobId)
    requires k in JobsOf(page)
    requires forall i :: 0 <= i < |page| ==> page[i].job in u.rows && page[i].version == u.rows[page[i].job].version
    ensures k in u.rows && Listed(u, page, k)
  {
    var i :| 0 <= i < |page| && page[i].job == k;
    assert page[i] in page;
  }

  /** A pass over the oldest PENDING jobs leaves fewer of them. */
  lemma PendingRound(s: World, j: JobId) returns (ts: seq<Step>, v: World)
    requires Sane(s) && j in s.rows && s.rows[j].status.Pending?
    ensures Leads(s, ts, v) && Sane(v) && j in v.rows
    ensures Ready(v, j) || (v.rows[j].status.Pending? && With(v, Pending) < With(s, Pending))
  {
    hide Leads, Goes;
    var ts0, u := Monitoring.Wait(s, PENDING_GRACE);
    var page := PageExists(u.rows, AgedJobs(u.rows, u.now), ByCreation, PAGE_SIZE);
    assert j in AgedJobs(u.rows, u.now);
    assert page != [];
    var x := FreshNumber(u.sweeps.Keys);
    var k := if j in JobsOf(page) then j else page[0].job;
    PagePromises(u, page, k);
    var us;
    us, v := StartAndRun(u, x, FindPending(page), k);
    LeadsOn(s, ts0, u, us, v);
    ts := ts0 + us;
    assert k in With(s, Pending) && k !in With(v, Pending);
  }

  lemma StartsRetries(u: World, x: nat, page: seq<Snap>, k: JobId)
    requires x !in u.sweeps && IsPage(u.rows, DueJobs(u.rows, u.now), ByUpdate, PAGE_SIZE, page)
    requires k in u.rows && Listed(u, page, k)
    ensures u.rows[k].status.Retrying?
    ensures SweepEnabled(u, x, FindRetries(page))
    ensures var v := SweepApply(u, x, FindRetries(page));
            x in v.sweeps && v.sweeps[x] == RetryLoop(page) && v.rows == u.rows && Promise(v, v.sweeps[x], k)
  {
    var i :| 0 <= i < |page| && page[i] == Snap(k, u.rows[k].version);
    assert page[i].job in DueJobs(u.rows, u.now);
  }

  /** Likewise for RETRYING jobs, once the given one is due. */
  lemma RetryRound(s: World, j: JobId) returns (ts: seq<Step>, v: World)
    requires Sane(s) && j in s.rows && s.rows[j].status.Retrying?
    ensures Leads(s, ts, v) && Sane(v) && j in v.rows
    ensures Ready(v, j) || (v.rows[j].status.Retrying? && With(v, Retrying) < With(s, Retrying))
  {
    hide Leads, Sane, Promise, SweepApply, SweepEnabled;
    var due := s.rows[j].nextRetryAt;
    var d: nat := if due.Some? && s.now < due.value then due.value - s.now else 0;
    var ts0, u := Monitoring.Wait(s, d);
    var page := PageExists(u.rows, DueJobs(u.rows, u.now), ByUpdate, PAGE_SIZE);
    assert j in DueJobs(u.rows, u.now);
    assert page != [];
    var x := FreshNumber(u.sweeps.Keys);
    var k := if j in JobsOf(page) then j else page[0].job;
    PagePromises(u, page, k);
    StartsRetries(u, x, page, k);
    var us;
    us, v := StartAndRun(u, x, FindRetries(page), k);
    LeadsOn(s, ts0, u, us, v);
    ts := ts0 + us;
    assert k in With(s, Retrying) && k !in With(v, Retrying);
  }

  lemma {:induction false} ClaimPending(s: World, j: JobId, w: WorkerId) returns (ts: seq<Step>)
    requires Sane(s) && j in s.rows && s.rows[j].status.Pending?
    ensures EndsInClaim(s, ts, j, w)
    decreases |With(s, Pending)|
  {
    hide EndsInClaim, Sane, Leads, Goes;
    var v, more;
    ts, v := PendingRound(s, j);
    if Ready(v, j) {
      more := ClaimQueued(v, j, w);
    } else {
      SmallerSet(With(v, Pending), With(s, Pending));
      more := ClaimPending(v, j, w);
    }
    ClaimLater(s, ts, v, more, j, w);
    ts := ts + more;
  }

  lemma {:induction false} ClaimRetrying(s: World, j: JobId, w: WorkerId) returns (ts: seq<Step>)
    requires Sane(s) && j in s.rows && s.rows[j].status.Retrying?
    ensures EndsInClaim(s, ts, j, w)
    decreases |With(s, Retrying)|
  {
    hide EndsInClaim, Sane, Leads, Goes;
    var v, more;
    ts, v := RetryRound(s, j);
    if Ready(v, j) {
      more := ClaimQueued(v, j, w);
    } else {
      SmallerSet(With(v, Retrying), With(s, Retrying));
      more := ClaimRetrying(v, j, w);
    }
    ClaimLater(s, ts, v, more, j, w);
    ts := ts + more;
  }

  /** For a RUNNING job, the listed worker has fallen silent; scheduler `m` finds out. */
  lemma ClaimRunning(s: World, j: JobId, d: WorkerId, m: nat, w: WorkerId) returns (ts: seq<Step>)
    requires Sane(s) && Monitoring.Held(s, j, d) && d in s.roster.active && d in s.roster.silent
    ensures EndsInClaim(s, ts, j, w)
  {
    hide EndsInClaim, Leads, Goes, Sane;
    var v;
    ts, v := Monitoring.SilentWorkerLosesJob(s, j, d, m);
    var more := ClaimRetrying(v, j, w);
    ClaimLater(s, ts, v, more, j, w);
    ts := ts + more;
  }

  // ----- whole runs -----

  /** PENDING, RETRYING, live, or RUNNING on a listed worker that has fallen silent. */
  ghost predicate Claimable(s: World, j: JobId) {
    j in s.rows &&
    match s.rows[j].status
    case Pending => true
    case Retrying => true
    case Queued => Live(s, j)
    case Running => s.rows[j].worker.Some? && s.rows[j].worker.value in s.roster.active * s.roster.silent
    case _ => false
  }

  lemma ClaimsClaimable(s: World, j: JobId, w: WorkerId) returns (ts: seq<Step>)
    requires Sane(s) && Claimable(s, j)
    ensures EndsInClaim(s, ts, j, w)
  {
    hide EndsInClaim, Live, Sane;
    match s.rows[j].status
    case Pending => ts := ClaimPending(s, j, w);
    case Retrying => ts := ClaimRetrying(s, j, w);
    case Queued => ts := ClaimQueued(s, j, w);
    case Running => ts := ClaimRunning(s, j, s.rows[j].worker.value, 0, w);
  }

  /** From every world any run reaches, crashes and late writes anywhere included, a
      claimable job can be claimed, by any given worker that takes one job at a time,
      after finitely many ordinary steps. */
  lemma NeverWedged(s: World, ts: seq<Step>, j: JobId, w: WorkerId) returns (more: seq<Step>)
    requires Init(s) && Runs(s, ts) && Claimable(After(s, ts), j)
    ensures EndsInClaim(After(s, ts), more, j, w)
    ensures Runs(s, ts + more)
  {
    hide Apply, Enabled, Orderly, Claimable;
    SaneHolds(s, ts);
    more := ClaimsClaimable(After(s, ts), j, w);
    RunsAppend(s, ts, more);
  }
}
