/** The scheduler's sweeps as the loops they are, over rows and lists they change
    in place, and the state in which one uninterrupted pass leaves the cluster. */
module LeaderPass {
  import opened Wrappers
  import opened Jobs
  import opened RedisLists
  import opened Sweeps
  import WorkerMonitor

  class Cluster {
    var rows: map<JobId, Row>
    var queues: Queues
    var active: set<WorkerId>
    var now: Time

    constructor (rows: map<JobId, Row>, queues: Queues, active: set<WorkerId>, now: Time)
      ensures this.rows == rows && this.queues == queues && this.active == active && this.now == now
    {
      this.rows, this.queues, this.active, this.now := rows, queues, active, now;
    }

    /** `QueueService.enqueue`; `ok` is false where the LPUSH throws. */
    method EnqueueJob(j: JobId, p: Priority, throws: bool) returns (ok: bool)
      modifies this`queues
      ensures ok == !throws
      ensures queues == if ok then Enqueue(old(queues), p, j) else old(queues)
    {
      if !throws {
        queues := Enqueue(queues, p, j);
      }
      ok := !throws;
    }

    /** `lrem processing-queue 1 j` */
    method ForgetJob(j: JobId)
      modifies this`queues
      ensures queues == Forget(old(queues), j)
    {
      queues := Forget(queues, j);
    }

    /** The loop of `processRetries` over the jobs that `getRetryingJobs` found.
        `throws` names the jobs whose LPUSH throws, `undoThrows` those whose rollback
        throws as well. */
    method ProcessRetries(page: seq<Snap>, throws: set<JobId>, undoThrows: set<JobId>) returns (requeued: nat)
      requires IsPage(rows, DueJobs(rows, now), ByUpdate, PAGE_SIZE, page)
      modifies this`rows, this`queues
      ensures rows == AfterRetries(old(rows), JobsOf(page), throws - undoThrows, now)
      ensures var pushed := Chosen(page, throws);
              && requeued == |pushed| && (forall j :: j in pushed ==> j in old(rows))
              && queues == PushAll(old(queues), old(rows), pushed)
    {
      hide IsPage, Current, Chosen, PushAll, AfterRetries, Enqueue, DueJobs, JobsOf;
      requeued := 0;
      ghost var was, q, failed := rows, queues, throws - undoThrows;
      NothingDone(was, q, page, throws, failed, now);
      var i := 0;
      while i < |page|
        invariant i <= |page|
        invariant rows == AfterRetries(was, JobsOf(page[..i]), failed, now)
        invariant forall j :: j in Chosen(page[..i], throws) ==> j in was
        invariant queues == PushAll(q, was, Chosen(page[..i], throws))
        invariant requeued == |Chosen(page[..i], throws)|
      {
        var c := page[i];
        RetriesTurn(was, q, page, i, throws, failed, now);
        if c.job in rows && RequeueGuard(rows[c.job], c.version) {
          ghost var before := rows;
          rows := rows[c.job := Requeued(rows[c.job], now)];
          var ok := EnqueueJob(c.job, rows[c.job].priority, c.job in throws);
          if ok {
            requeued := requeued + 1;
          } else if c.job !in undoThrows && c.job in rows && UndoGuard(rows[c.job], c.version) {
            rows := rows[c.job := Undone(rows[c.job], now)];
            assert rows == before[c.job := RetriedRow(was[c.job], true, now)];
          }
        }
        i := i + 1;
      }
      assert page[..i] == page;
    }

    /** The loop of `processPendingJobs`: the push comes before the status.
        `writeThrows` names the jobs whose row update throws. */
    method ProcessPendingJobs(page: seq<Snap>, throws: set<JobId>, writeThrows: set<JobId>) returns (reconciled: nat)
      requires IsPage(rows, AgedJobs(rows, now), ByCreation, PAGE_SIZE, page)
      modifies this`rows, this`queues
      ensures rows == AfterPending(old(rows), JobsOf(page), throws + writeThrows, now)
      ensures reconciled == |Chosen(page, throws + writeThrows)|
      ensures var pushed := Chosen(page, throws);
              && (forall j :: j in pushed ==> j in old(rows))
              && queues == PushAll(old(queues), old(rows), pushed)
    {
      hide IsPage, Current, Chosen, PushAll, AfterPending, Enqueue, AgedJobs, JobsOf;
      reconciled := 0;
      ghost var was, q, failed := rows, queues, throws + writeThrows;
      NothingDone(was, q, page, throws, failed, now);
      NothingDone(was, q, page, failed, failed, now);
      var i := 0;
      while i < |page|
        invariant i <= |page|
        invariant rows == AfterPending(was, JobsOf(page[..i]), failed, now)
        invariant forall j :: j in Chosen(page[..i], throws) ==> j in was
        invariant queues == PushAll(q, was, Chosen(page[..i], throws))
        invariant reconciled == |Chosen(page[..i], failed)|
      {
        var c := page[i];
        PendingTurn(was, q, page, i, throws, failed, now);
        var ok := EnqueueJob(c.job, rows[c.job].priority, c.job in throws);
        if ok && c.job !in writeThrows && c.job in rows && DispatchGuard(rows[c.job], c.version) {
          rows := rows[c.job := Dispatched(rows[c.job], now)];
          reconciled := reconciled + 1;
        }
        i := i + 1;
      }
      assert page[..i] == page;
    }

    /** `isJobInAnyQueue`: six LPOS, one after the other. */
    method IsJobInAnyQueue(j: JobId) returns (found: bool)
      ensures found <==> InAnyList(queues, j)
    {
      var i := 0;
      while i <= PROCESSING
        invariant i <= PROCESSING + 1
        invariant forall k :: 0 <= k < i ==> j !in queues[k]
      {
        if j in queues[i] {
          return true;
        }
        i := i + 1;
      }
      return false;
    }

    /** The loop of `processStaleQueuedJobs`.  `skipThrows` names the jobs whose lookup
        or row update throws. */
    method ProcessStaleQueuedJobs(page: seq<Snap>, throws: set<JobId>, skipThrows: set<JobId>) returns (recovered: nat)
      requires IsPage(rows, StaleJobs(rows, now), ByUpdate, PAGE_SIZE, page)
      modifies this`rows, this`queues
      ensures rows == AfterStale(old(rows), JobsOf(page), ListedJobs(old(queues)) + skipThrows, now)
      ensures var q := old(queues);
              var pushed := Chosen(page, throws + (ListedJobs(q) + skipThrows));
              && recovered == |pushed| && (forall j :: j in pushed ==> j in old(rows))
              && queues == PushAll(q, old(rows), pushed)
    {
      hide IsPage, Current, Chosen, PushAll, AfterStale, Enqueue, StaleJobs, JobsOf, ListedJobs;
      recovered := 0;
      ghost var was, q := rows, queues;
      ghost var kept := ListedJobs(q) + skipThrows;
      NothingDone(was, q, page, throws + kept, kept, now);
      var i := 0;
      while i < |page|
        invariant i <= |page|
        invariant rows == AfterStale(was, JobsOf(page[..i]), kept, now)
        invariant forall j :: j in Chosen(page[..i], throws + kept) ==> j in was
        invariant queues == PushAll(q, was, Chosen(page[..i], throws + kept))
        invariant recovered == |Chosen(page[..i], throws + kept)|
      {
        var c := page[i];
        StaleRow(was, page, i, kept, now);
        StalePush(was, q, page, i, throws + kept, now);
        if c.job !in skipThrows {
          var inQueue := IsJobInAnyQueue(c.job);
          if !inQueue && c.job in rows && RefreshGuard(rows[c.job], c.version) {
            rows := rows[c.job := Refreshed(rows[c.job], now)];
            var ok := EnqueueJob(c.job, rows[c.job].priority, c.job in throws);
            if ok {
              recovered := recovered + 1;
            }
          }
        }
        i := i + 1;
      }
      assert page[..i] == page;
    }

    /** `recoverProcessingQueue`.  The first push that throws ends the sweep. */
    method RecoverProcessingQueue(throws: set<JobId>) returns (ended: bool)
      modifies this`rows, this`queues
      ensures (Store(rows, queues), ended) == ScanUntil(old(Store(rows, queues)), old(queues)[PROCESSING], throws, now)
    {
      var ids := queues[PROCESSING];
      ghost var s := Store(rows, queues);
      var i := 0;
      while i < |ids|
        invariant i <= |ids|
        invariant (Store(rows, queues), false) == ScanUntil(s, ids[..i], throws, now)
      {
        var j := ids[i];
        assert ids[..i + 1][..i] == ids[..i];
        if j !in rows {
          ForgetJob(j);
        } else if rows[j].status.Completed? || rows[j].status.Failed? || rows[j].status.Cancelled? {
          ForgetJob(j);
        } else if rows[j].status.Retrying? {
          ForgetJob(j);
        } else if rows[j].status.Queued? && rows[j].worker.None? && now - rows[j].updatedAt >= PROCESSING_STALE {
          var version := rows[j].version;
          if RefreshGuard(rows[j], version) {
            rows := rows[j := Refreshed(rows[j], now)];
            var ok := EnqueueJob(j, rows[j].priority, j in throws);
            if !ok {
              EndedStays(s, ids, i + 1, throws, now);
              return true;
            }
            ForgetJob(j);
          }
        }
        i := i + 1;
      }
      assert ids[..i] == ids;
      ended := false;
    }

    /** `recoverWorkerJobs` for a worker declared dead, over the jobs it is running.  It
        throws at the job number `stop`, before its row write or after it, or not at
        all where there is no such job. */
    method RecoverWorkerJobs(w: WorkerId, page: seq<Snap>, stop: nat, written: bool)
      returns (recovered: nat, ended: bool)
      requires Current(rows, RunningJobs(rows, w), page) && RunningJobs(rows, w) <= JobsOf(page)
      modifies this`rows, this`queues
      ensures Store(rows, queues) == RecoveredUntil(old(Store(rows, queues)), w, page, now, stop, written)
      ensures ended == (stop < |page|) && recovered == if ended then stop else |page|
      ensures forall i :: 0 <= i <= MAIN ==> queues[i] == old(queues)[i]
      ensures multiset(queues[PROCESSING]) ==
                multiset(old(queues)[PROCESSING]) - multiset(JobsOf(page[..recovered]))
    {
      hide Current, Chosen, AfterRecovery, JobsOf, ForgetAll;
      recovered := 0;
      ghost var was, q := rows, queues;
      NothingDone(was, q, page, {}, {}, now);
      var i := 0;
      while i < |page|
        invariant recovered == i <= |page| && i <= stop
        invariant rows == AfterRecovery(was, JobsOf(page[..i]), now)
        invariant queues == ForgetAll(q, Chosen(page[..i], {}))
      {
        var c := page[i];
        if i == stop && !written {
          ListsAfter(was, RunningJobs(was, w), q, page, i);
          assert JobsOf(page[..i]) + {} == JobsOf(page[..i]);
          return recovered, true;
        }
        RecoveryTurn(was, w, page, i, now);
        if c.job in rows && RecoverGuard(rows[c.job], c.version, w) {
          rows := rows[c.job := Recovered(rows[c.job], now)];
          if i == stop {
            ListsAfter(was, RunningJobs(was, w), q, page, i);
            return recovered, true;
          }
          NextForget(q, Chosen(page[..i], {}), c.job);
          ForgetJob(c.job);
          recovered := recovered + 1;
        }
        i := i + 1;
      }
      ListsAfter(was, RunningJobs(was, w), q, page, i);
      assert page[..i] == page;
      SamePage(was, RunningJobs(was, w), page);
      ended := false;
    }

    /** monitorWorkers: each listed worker is looked at, and one that is declared dead
        loses its jobs and its place on the list.  `jobs` is what the query for the
        jobs of such a worker returns.  The first call that throws ends it. */
    method MonitorWorkers(monitor: WorkerMonitor.Monitor, workers: seq<WorkerId>, alive: set<WorkerId>,
                          jobs: map<WorkerId, seq<Snap>>, fault: Fault) returns (ended: bool)
      requires forall i, k :: 0 <= i < k < |workers| ==> workers[i] != workers[k]
      requires MonitorPages(Store(rows, queues), monitor.missed,
                            LookedAt(fault, monitor.missed, workers, alive, jobs), alive, jobs, now)
      modifies this`rows, this`queues, this`active, monitor
      ensures ended == Hits(fault, old(monitor.missed), workers, alive, jobs)
      ensures Store(rows, queues) ==
                MonitorResult(old(Store(rows, queues)), old(monitor.missed), workers, alive, jobs, now, fault)
      ensures forall i :: 0 <= i <= MAIN ==> queues[i] == old(queues)[i]
      ensures active ==
                old(active) -
                Removed(old(monitor.missed), Handled(fault, old(monitor.missed), workers, alive, jobs), alive)
      ensures forall w :: WorkerMonitor.Strikes(monitor.missed, w) ==
                if w in LookedAt(fault, old(monitor.missed), workers, alive, jobs)
                then WorkerMonitor.Look(WorkerMonitor.Strikes(old(monitor.missed), w), w in alive).0
                else WorkerMonitor.Strikes(old(monitor.missed), w)
    {
      hide RecoveredUntil, RecoveredFrom, Current, JobsOf, RunningJobs, Monitored, MonitorPages, WorkerMonitor.Look;
      hide Hits, LookedAt, Handled, MonitorResult, Removed;
      ghost var s, missed, listed := Store(rows, queues), monitor.missed, active;
      NoneMonitored(s, missed, alive, jobs, now);
      var i := 0;
      while i < |workers|
        invariant i <= |workers|
        invariant Hits(fault, missed, workers, alive, jobs) ==> i <= fault.worker
        invariant Store(rows, queues) == Monitored(s, missed, workers[..i], alive, jobs, now)
        invariant forall k :: 0 <= k <= MAIN ==> queues[k] == s.queues[k]
        invariant active == listed - Removed(missed, workers[..i], alive)
        invariant forall w :: WorkerMonitor.Strikes(monitor.missed, w) ==
                    if w in workers[..i] then WorkerMonitor.Look(WorkerMonitor.Strikes(missed, w), w in alive).0
                    else WorkerMonitor.Strikes(missed, w)
      {
        var w := workers[i];
        EndsAt(s, missed, workers, alive, jobs, now, fault, i);
        if fault == LookThrows(i) {
          return true;
        }
        TurnOf(s, missed, workers, alive, jobs, now, fault, i);
        assert workers[..i + 1] == workers[..i] + [w];
        var dead := monitor.LookAt(w, w in alive);
        if dead {
          var page := jobs[w];
          var here := fault.RecoveryThrows? && fault.worker == i;
          var stop := if here then fault.stop else |page|;
          ghost var u := Store(rows, queues);
          var _, stopped := RecoverWorkerJobs(w, page, stop, here && fault.written);
          if stopped {
            return true;
          }
          NothingThrows(u, w, page, now, stop, here && fault.written);
          if fault == RemovalThrows(i) {
            return true;
          }
          active := active - {w};
        }
        OneMoreRemoved(missed, workers, i, alive);
        i := i + 1;
      }
      assert workers[..i] == workers;
      NeverEnds(s, missed, workers, alive, jobs, now, fault);
      ended := false;
    }
  }

  lemma OneMoreRemoved(missed: map<WorkerId, nat>, workers: seq<WorkerId>, i: nat, alive: set<WorkerId>)
    requires i < |workers|
    ensures Removed(missed, workers[..i + 1], alive) ==
            Removed(missed, workers[..i], alive) + if DiesNow(missed, workers[i], alive) then {workers[i]} else {}
  {
    hide DiesNow;
  }

  /** The workers that are declared dead and taken off the list. */
  function Removed(missed: map<WorkerId, nat>, handled: seq<WorkerId>, alive: set<WorkerId>): set<WorkerId> {
    set w | w in handled && DiesNow(missed, w, alive)
  }

  // ----- one turn of each loop -----

  lemma NoneMonitored(s: Store, missed: map<WorkerId, nat>, alive: set<WorkerId>,
                      jobs: map<WorkerId, seq<Snap>>, now: Time)
    ensures Monitored(s, missed, [], alive, jobs, now) == s
    ensures Removed(missed, [], alive) == {}
  {
  }

  lemma NextInPage(rows: map<JobId, Row>, eligible: set<JobId>, page: seq<Snap>, i: nat, skip: set<JobId>)
    requires eligible <= rows.Keys && Current(rows, eligible, page) && i < |page|
    ensures JobsOf(page[..i + 1]) == JobsOf(page[..i]) + {page[i].job} && page[i].job !in JobsOf(page[..i])
    ensures page[i].job in eligible && page[i].version == rows[page[i].job].version
    ensures page[i].job !in Chosen(page[..i], skip)
    ensures Chosen(page[..i + 1], skip) ==
              if page[i].job in skip then Chosen(page[..i], skip) else Chosen(page[..i], skip) + [page[i].job]
  {
    assert page[..i + 1][i] == page[i];
    assert page[..i + 1][..i] == page[..i];
  }

  lemma NothingDone(rows: map<JobId, Row>, q: Queues, page: seq<Snap>, skip: set<JobId>, failed: set<JobId>, now: Time)
    ensures JobsOf(page[..0]) == {} && Chosen(page[..0], skip) == []
    ensures PushAll(q, rows, []) == q && ForgetAll(q, []) == q
    ensures AfterRetries(rows, {}, failed, now) == rows && AfterPending(rows, {}, failed, now) == rows
    ensures AfterStale(rows, {}, failed, now) == rows && AfterRecovery(rows, {}, now) == rows
  {
  }

  lemma SamePage(rows: map<JobId, Row>, eligible: set<JobId>, page: seq<Snap>)
    requires eligible <= rows.Keys && Current(rows, eligible, page) && eligible <= JobsOf(page)
    ensures JobsOf(page) == eligible
  {
  }

  /** What `recoverWorkerJobs` has done to the lists. */
  lemma ListsAfter(rows: map<JobId, Row>, eligible: set<JobId>, q: Queues, page: seq<Snap>, n: nat)
    requires eligible <= rows.Keys && Current(rows, eligible, page) && n <= |page|
    ensures var q' := ForgetAll(q, Chosen(page[..n], {}));
            && (forall i :: 0 <= i <= MAIN ==> q'[i] == q[i])
            && multiset(q'[PROCESSING]) == multiset(q[PROCESSING]) - multiset(JobsOf(page[..n]))
  {
    hide Chosen, ForgetAll, JobsOf;
    ForgetAllEffect(q, Chosen(page[..n], {}));
    ChosenOnce(page[..n]);
  }

  lemma NextPush(q: Queues, rows: map<JobId, Row>, js: seq<JobId>, j: JobId)
    requires j in rows && forall k :: k in js ==> k in rows
    ensures PushAll(q, rows, js + [j]) == Enqueue(PushAll(q, rows, js), rows[j].priority, j)
  {
    assert (js + [j])[..|js + [j]| - 1] == js;
  }

  /** Pushing other jobs does not list this one. */
  lemma PushedOthers(q: Queues, rows: map<JobId, Row>, js: seq<JobId>, j: JobId)
    requires j !in js && forall k :: k in js ==> k in rows
    ensures InAnyList(PushAll(q, rows, js), j) <==> j in ListedJobs(q)
  {
    PushAllWaits(q, rows, js);
    ListedOrWaiting(q, j);
    ListedOrWaiting(PushAll(q, rows, js), j);
  }

  lemma NextForget(q: Queues, js: seq<JobId>, j: JobId)
    ensures ForgetAll(q, js + [j]) == Forget(ForgetAll(q, js), j)
  {
    assert (js + [j])[..|js + [j]| - 1] == js;
  }

  lemma RetriesTurn(was: map<JobId, Row>, q: Queues, page: seq<Snap>, i: nat,
                    throws: set<JobId>, failed: set<JobId>, now: Time)
    requires IsPage(was, DueJobs(was, now), ByUpdate, PAGE_SIZE, page) && i < |page|
    requires forall k :: k in Chosen(page[..i], throws) ==> k in was
    ensures var c := page[i];
            var done, all := JobsOf(page[..i]), JobsOf(page[..i + 1]);
            var before, after := Chosen(page[..i], throws), Chosen(page[..i + 1], throws);
            && c.job in was && RequeueGuard(was[c.job], c.version)
            && c.job in AfterRetries(was, done, failed, now)
            && AfterRetries(was, done, failed, now)[c.job] == was[c.job]
            && AfterRetries(was, all, failed, now) ==
                 AfterRetries(was, done, failed, now)[c.job := RetriedRow(was[c.job], c.job in failed, now)]
            && after == (if c.job in throws then before else before + [c.job])
            && (forall k :: k in after ==> k in was)
            && PushAll(q, was, before + [c.job]) == Enqueue(PushAll(q, was, before), was[c.job].priority, c.job)
  {
    hide Chosen, PushAll, Enqueue;
    NextInPage(was, DueJobs(was, now), page, i, throws);
    NextPush(q, was, Chosen(page[..i], throws), page[i].job);
  }

  lemma PendingTurn(was: map<JobId, Row>, q: Queues, page: seq<Snap>, i: nat,
                    throws: set<JobId>, failed: set<JobId>, now: Time)
    requires IsPage(was, AgedJobs(was, now), ByCreation, PAGE_SIZE, page) && i < |page|
    requires forall k :: k in Chosen(page[..i], throws) ==> k in was
    ensures var c := page[i];
            var done, all := JobsOf(page[..i]), JobsOf(page[..i + 1]);
            var before, after := Chosen(page[..i], throws), Chosen(page[..i + 1], throws);
            && c.job in was && DispatchGuard(was[c.job], c.version)
            && c.job in AfterPending(was, done, failed, now)
            && AfterPending(was, done, failed, now)[c.job] == was[c.job]
            && AfterPending(was, all, failed, now) ==
                 (if c.job in failed then AfterPending(was, done, failed, now)
                  else AfterPending(was, done, failed, now)[c.job := Dispatched(was[c.job], now)])
            && Chosen(page[..i + 1], failed) ==
                 (if c.job in failed then Chosen(page[..i], failed) else Chosen(page[..i], failed) + [c.job])
            && after == (if c.job in throws then before else before + [c.job])
            && (forall k :: k in after ==> k in was)
            && PushAll(q, was, before + [c.job]) == Enqueue(PushAll(q, was, before), was[c.job].priority, c.job)
  {
    hide Chosen, PushAll, Enqueue;
    NextInPage(was, AgedJobs(was, now), page, i, throws);
    NextInPage(was, AgedJobs(was, now), page, i, failed);
    NextPush(q, was, Chosen(page[..i], throws), page[i].job);
  }

  lemma StaleRow(was: map<JobId, Row>, page: seq<Snap>, i: nat, listed: set<JobId>, now: Time)
    requires IsPage(was, StaleJobs(was, now), ByUpdate, PAGE_SIZE, page) && i < |page|
    ensures var c := page[i];
            var done, all := JobsOf(page[..i]), JobsOf(page[..i + 1]);
            && c.job in was && RefreshGuard(was[c.job], c.version)
            && c.job in AfterStale(was, done, listed, now) && AfterStale(was, done, listed, now)[c.job] == was[c.job]
            && AfterStale(was, all, listed, now) ==
                 (if c.job in listed then AfterStale(was, done, listed, now)
                  else AfterStale(was, done, listed, now)[c.job := Refreshed(was[c.job], now)])
  {
    hide Chosen;
    NextInPage(was, StaleJobs(was, now), page, i, {});
  }

  lemma StalePush(was: map<JobId, Row>, q: Queues, page: seq<Snap>, i: nat, skip: set<JobId>, now: Time)
    requires IsPage(was, StaleJobs(was, now), ByUpdate, PAGE_SIZE, page) && i < |page|
    requires forall k :: k in Chosen(page[..i], skip) ==> k in was
    ensures var j := page[i].job;
            var before, after := Chosen(page[..i], skip), Chosen(page[..i + 1], skip);
            && j in was && after == (if j in skip then before else before + [j])
            && (forall k :: k in after ==> k in was)
            && (InAnyList(PushAll(q, was, before), j) <==> j in ListedJobs(q))
            && PushAll(q, was, before + [j]) == Enqueue(PushAll(q, was, before), was[j].priority, j)
  {
    hide Chosen, PushAll, Enqueue, ListedJobs, InAnyList, Current, JobsOf;
    NextInPage(was, StaleJobs(was, now), page, i, skip);
    NextPush(q, was, Chosen(page[..i], skip), page[i].job);
    PushedOthers(q, was, Chosen(page[..i], skip), page[i].job);
  }

  lemma RecoveryTurn(was: map<JobId, Row>, w: WorkerId, page: seq<Snap>, i: nat, now: Time)
    requires Current(was, RunningJobs(was, w), page) && i < |page|
    ensures var c := page[i];
            var done, all := JobsOf(page[..i]), JobsOf(page[..i + 1]);
            && c.job in was && RecoverGuard(was[c.job], c.version, w)
            && c.job in AfterRecovery(was, done, now) && AfterRecovery(was, done, now)[c.job] == was[c.job]
            && AfterRecovery(was, all, now) == AfterRecovery(was, done, now)[c.job := Recovered(was[c.job], now)]
            && all == done + {c.job} && Chosen(page[..i + 1], {}) == Chosen(page[..i], {}) + [c.job]
  {
    hide Chosen;
    NextInPage(was, RunningJobs(was, w), page, i, {});
  }

  // ----- one uninterrupted pass -----

  ghost function Retried(s: Store, page: seq<Snap>, now: Time): Store
    requires JobsOf(page) <= s.rows.Keys
  {
    Store(AfterRetries(s.rows, JobsOf(page), {}, now), PushAll(s.queues, s.rows, Chosen(page, {})))
  }

  ghost function Reconciled(s: Store, page: seq<Snap>, now: Time): Store
    requires JobsOf(page) <= s.rows.Keys
  {
    Store(AfterPending(s.rows, JobsOf(page), {}, now), PushAll(s.queues, s.rows, Chosen(page, {})))
  }

  ghost function Restored(s: Store, page: seq<Snap>, now: Time): Store
    requires JobsOf(page) <= s.rows.Keys
  {
    var listed := ListedJobs(s.queues);
    Store(AfterStale(s.rows, JobsOf(page), listed, now), PushAll(s.queues, s.rows, Chosen(page, listed)))
  }

  function Scanned(s: Store, now: Time): Store {
    ScanAll(s, s.queues[PROCESSING], now)
  }

  /** The pages are what the three queries find when they are issued. */
  ghost predicate PagesOf(s: Store, retries: seq<Snap>, pending: seq<Snap>, stale: seq<Snap>, now: Time) {
    IsPage(s.rows, DueJobs(s.rows, now), ByUpdate, PAGE_SIZE, retries) &&
    var s1 := Retried(s, retries, now);
    IsPage(s1.rows, AgedJobs(s1.rows, now), ByCreation, PAGE_SIZE, pending) &&
    var s2 := Reconciled(s1, pending, now);
    IsPage(s2.rows, StaleJobs(s2.rows, now), ByUpdate, PAGE_SIZE, stale)
  }

  ghost function PassResult(s: Store, retries: seq<Snap>, pending: seq<Snap>, stale: seq<Snap>, now: Time): Store
    requires PagesOf(s, retries, pending, stale, now)
  {
    Scanned(Restored(Reconciled(Retried(s, retries, now), pending, now), stale, now), now)
  }

  /** What the four sweeps of a pass do, one after the other. */
  method SweepQueues(cluster: Cluster, retries: seq<Snap>, pending: seq<Snap>, stale: seq<Snap>)
    requires PagesOf(Store(cluster.rows, cluster.queues), retries, pending, stale, cluster.now)
    modifies cluster`rows, cluster`queues
    ensures Store(cluster.rows, cluster.queues) ==
              PassResult(old(Store(cluster.rows, cluster.queues)), retries, pending, stale, cluster.now)
  {
    hide IsPage, Chosen, PushAll, ScanAll, ScanUntil, AfterRetries, AfterPending, AfterStale, JobsOf, ListedJobs;
    var none: set<JobId> := {};
    assert none - none == none && none + none == none;
    var _ := cluster.ProcessRetries(retries, none, none);
    var _ := cluster.ProcessPendingJobs(pending, none, none);
    ghost var listed := ListedJobs(cluster.queues);
    assert none + (listed + none) == listed && listed + none == listed;
    var _ := cluster.ProcessStaleQueuedJobs(stale, none, none);
    ScanAllWhenNoneThrows(Store(cluster.rows, cluster.queues), cluster.queues[PROCESSING], cluster.now);
    var _ := cluster.RecoverProcessingQueue(none);
  }

  /** What `runScheduler` does in one pass.  An exception in the monitor does not keep
      the sweeps from running. */
  method Pass(cluster: Cluster, monitor: WorkerMonitor.Monitor, workers: seq<WorkerId>, alive: set<WorkerId>,
              jobs: map<WorkerId, seq<Snap>>, fault: Fault,
              retries: seq<Snap>, pending: seq<Snap>, stale: seq<Snap>)
    requires forall i, k :: 0 <= i < k < |workers| ==> workers[i] != workers[k]
    requires var s, missed := Store(cluster.rows, cluster.queues), monitor.missed;
             && MonitorPages(s, missed, LookedAt(fault, missed, workers, alive, jobs), alive, jobs, cluster.now)
             && PagesOf(MonitorResult(s, missed, workers, alive, jobs, cluster.now, fault), retries, pending, stale,
                        cluster.now)
    modifies cluster`rows, cluster`queues, cluster`active, monitor
    ensures var u := MonitorResult(old(Store(cluster.rows, cluster.queues)), old(monitor.missed), workers, alive, jobs,
                                   cluster.now, fault);
            && PagesOf(u, retries, pending, stale, cluster.now)
            && Store(cluster.rows, cluster.queues) == PassResult(u, retries, pending, stale, cluster.now)
    ensures cluster.active ==
              old(cluster.active) -
              Removed(old(monitor.missed), Handled(fault, old(monitor.missed), workers, alive, jobs), alive)
  {
    hide PagesOf, MonitorPages, MonitorResult, PassResult, DiesNow, LookedAt, Hits, Handled;
    var _ := cluster.MonitorWorkers(monitor, workers, alive, jobs, fault);
    SweepQueues(cluster, retries, pending, stale);
  }

  lemma PageInside(rows: map<JobId, Row>, eligible: set<JobId>, order: Order, size: nat, page: seq<Snap>)
    requires eligible <= rows.Keys && IsPage(rows, eligible, order, size, page)
    ensures JobsOf(page) <= eligible
  {
  }

  lemma RetriedEffect(s: Store, page: seq<Snap>, now: Time)
    requires IsPage(s.rows, DueJobs(s.rows, now), ByUpdate, PAGE_SIZE, page) && |DueJobs(s.rows, now)| <= PAGE_SIZE
    ensures var u := Retried(s, page, now);
            && u.rows.Keys == s.rows.Keys && u.queues[PROCESSING] == s.queues[PROCESSING]
            && (forall j :: j in s.rows ==>
                  u.rows[j] == if DueRetry(s.rows[j], now) then Requeued(s.rows[j], now) else s.rows[j])
            && (forall j :: Waiting(u.queues, j) <==> Waiting(s.queues, j) || j in DueJobs(s.rows, now))
  {
    FullPage(s.rows, DueJobs(s.rows, now), ByUpdate, PAGE_SIZE, page);
    PushAllWaits(s.queues, s.rows, Chosen(page, {}));
    ChosenAll(page, {});
  }

  lemma ReconciledEffect(s: Store, page: seq<Snap>, now: Time)
    requires IsPage(s.rows, AgedJobs(s.rows, now), ByCreation, PAGE_SIZE, page) && |AgedJobs(s.rows, now)| <= PAGE_SIZE
    ensures var u := Reconciled(s, page, now);
            && u.rows.Keys == s.rows.Keys && u.queues[PROCESSING] == s.queues[PROCESSING]
            && (forall j :: j in s.rows ==>
                  u.rows[j] == if AgedPending(s.rows[j], now) then Dispatched(s.rows[j], now) else s.rows[j])
            && (forall j :: Waiting(u.queues, j) <==> Waiting(s.queues, j) || j in AgedJobs(s.rows, now))
  {
    FullPage(s.rows, AgedJobs(s.rows, now), ByCreation, PAGE_SIZE, page);
    PushAllWaits(s.queues, s.rows, Chosen(page, {}));
    ChosenAll(page, {});
  }

  lemma RestoredEffect(s: Store, page: seq<Snap>, now: Time)
    requires IsPage(s.rows, StaleJobs(s.rows, now), ByUpdate, PAGE_SIZE, page) && |StaleJobs(s.rows, now)| <= PAGE_SIZE
    ensures var u := Restored(s, page, now);
            && u.rows.Keys == s.rows.Keys && u.queues[PROCESSING] == s.queues[PROCESSING]
            && (forall j :: j in s.rows ==>
                  u.rows[j] == if StaleQueued(s.rows[j], now) && j !in ListedJobs(s.queues)
                               then Refreshed(s.rows[j], now) else s.rows[j])
            && (forall j :: Waiting(u.queues, j) <==>
                  Waiting(s.queues, j) || (j in StaleJobs(s.rows, now) && j !in s.queues[PROCESSING]))
  {
    FullPage(s.rows, StaleJobs(s.rows, now), ByUpdate, PAGE_SIZE, page);
    PushAllWaits(s.queues, s.rows, Chosen(page, ListedJobs(s.queues)));
    ChosenAll(page, ListedJobs(s.queues));
    forall j
      ensures j in ListedJobs(s.queues) <==> Waiting(s.queues, j) || j in s.queues[PROCESSING]
    {
      ListedOrWaiting(s.queues, j);
    }
  }

  lemma ChosenAll(page: seq<Snap>, skip: set<JobId>)
    ensures forall j :: j in Chosen(page, skip) <==> j in JobsOf(page) && j !in skip
  {
  }

  lemma ScannedEffect(s: Store, now: Time)
    ensures var u := Scanned(s, now);
            && u.rows.Keys == s.rows.Keys
            && (forall j :: j in s.rows ==>
                  u.rows[j] == if j in s.queues[PROCESSING] && Stranded(s.rows[j], now)
                               then Refreshed(s.rows[j], now) else s.rows[j])
            && (forall j :: Waiting(u.queues, j) <==>
                  Waiting(s.queues, j) || (j in s.queues[PROCESSING] && j in s.rows && Stranded(s.rows[j], now)))
            && (forall j :: j in u.queues[PROCESSING] ==> !Dead(u.rows, j))
  {
    var ids := s.queues[PROCESSING];
    ScanAllRows(s, ids, now);
    ScanAllWaits(s, ids, now);
    ScanAllRemoves(s, ids, now);
    var u := Scanned(s, now);
    forall j | j in u.queues[PROCESSING]
      ensures !Dead(u.rows, j)
    {
      assert multiset(u.queues[PROCESSING])[j] > 0;
    }
  }

  /** The first three sweeps together. */
  lemma ThreeSweeps(s: Store, retries: seq<Snap>, pending: seq<Snap>, stale: seq<Snap>, now: Time)
    requires PagesOf(s, retries, pending, stale, now)
    requires |DueJobs(s.rows, now)| <= PAGE_SIZE && |AgedJobs(s.rows, now)| <= PAGE_SIZE
    requires |StaleJobs(s.rows, now)| <= PAGE_SIZE
    ensures JobsOf(retries) <= s.rows.Keys
    ensures var s1 := Retried(s, retries, now);
            && JobsOf(pending) <= s1.rows.Keys
            && var s2 := Reconciled(s1, pending, now);
            && JobsOf(stale) <= s2.rows.Keys
            && var u := Restored(s2, stale, now);
            && u.rows.Keys == s.rows.Keys && u.queues[PROCESSING] == s.queues[PROCESSING]
            && (forall j :: j in s.rows && DueRetry(s.rows[j], now) ==>
                  u.rows[j] == Requeued(s.rows[j], now) && Waiting(u.queues, j))
            && (forall j :: j in s.rows && AgedPending(s.rows[j], now) ==>
                  u.rows[j] == Dispatched(s.rows[j], now) && Waiting(u.queues, j))
            && (forall j :: j in s.rows && StaleQueued(s.rows[j], now) ==>
                  && (Waiting(u.queues, j) <==> Waiting(s.queues, j) || j !in s.queues[PROCESSING])
                  && u.rows[j] == if Waiting(u.queues, j) && !Waiting(s.queues, j)
                                  then Refreshed(s.rows[j], now) else s.rows[j])
  {
    hide IsPage, Retried, Reconciled, Restored, Waiting, ListedJobs, InAnyList;
    PageInside(s.rows, DueJobs(s.rows, now), ByUpdate, PAGE_SIZE, retries);
    var s1 := Retried(s, retries, now);
    RetriedEffect(s, retries, now);
    PageInside(s1.rows, AgedJobs(s1.rows, now), ByCreation, PAGE_SIZE, pending);
    assert AgedJobs(s1.rows, now) == AgedJobs(s.rows, now);
    var s2 := Reconciled(s1, pending, now);
    ReconciledEffect(s1, pending, now);
    PageInside(s2.rows, StaleJobs(s2.rows, now), ByUpdate, PAGE_SIZE, stale);
    assert StaleJobs(s2.rows, now) == StaleJobs(s.rows, now);
    RestoredEffect(s2, stale, now);
    forall j | j in s.rows && StaleQueued(s.rows[j], now)
      ensures j in ListedJobs(s2.queues) <==> Waiting(s.queues, j) || j in s.queues[PROCESSING]
    {
      ListedOrWaiting(s2.queues, j);
    }
  }

  /** One uninterrupted pass heals the cluster when no query finds more than it may
      take.  Due RETRYING and aged PENDING jobs end QUEUED in a polled list.  A
      stale QUEUED job does too, unless its only trace is an entry of
      `processing-queue` and it has not been untouched for the longer time that
      `recoverProcessingQueue` waits; it is then left where it is.  No entry of
      `processing-queue` names a missing, finished, cancelled or RETRYING job. */
  lemma SelfHealing(s: Store, retries: seq<Snap>, pending: seq<Snap>, stale: seq<Snap>, now: Time)
    requires PagesOf(s, retries, pending, stale, now)
    requires |DueJobs(s.rows, now)| <= PAGE_SIZE && |AgedJobs(s.rows, now)| <= PAGE_SIZE
    requires |StaleJobs(s.rows, now)| <= PAGE_SIZE
    ensures var u := PassResult(s, retries, pending, stale, now);
            && u.rows.Keys == s.rows.Keys
            && (forall j :: j in s.rows && (DueRetry(s.rows[j], now) || AgedPending(s.rows[j], now)) ==>
                  u.rows[j].status.Queued? && Waiting(u.queues, j))
            && (forall j :: j in s.rows && StaleQueued(s.rows[j], now) ==>
                  u.rows[j].status.Queued? &&
                  (Waiting(u.queues, j) <==>
                     Waiting(s.queues, j) || j !in s.queues[PROCESSING] || Stranded(s.rows[j], now)))
            && (forall j :: j in u.queues[PROCESSING] ==> !Dead(u.rows, j))
  {
    hide PagesOf, Retried, Reconciled, Restored, Scanned, Waiting;
    ThreeSweeps(s, retries, pending, stale, now);
    var s3 := Restored(Reconciled(Retried(s, retries, now), pending, now), stale, now);
    ScannedEffect(s3, now);
  }

  // ----- the jobs of dead workers -----

  predicate RunsOn(r: Row, w: WorkerId) {
    r.status.Running? && r.worker == Some(w)
  }

  predicate Orphan(r: Row, missed: map<WorkerId, nat>, workers: seq<WorkerId>, alive: set<WorkerId>) {
    r.status.Running? && r.worker.Some? && r.worker.value in workers && DiesNow(missed, r.worker.value, alive)
  }

  lemma RecoveredRows(s: Store, w: WorkerId, page: seq<Snap>, now: Time)
    ensures var u := RecoveredFrom(s, w, page, now);
            && u.rows.Keys == s.rows.Keys
            && forall j :: j in s.rows ==>
                             u.rows[j] == if RunsOn(s.rows[j], w) then Recovered(s.rows[j], now) else s.rows[j]
  {
    hide Chosen, ForgetAll, Recovered;
  }

  lemma OneMoreWorker(r: Row, missed: map<WorkerId, nat>, front: seq<WorkerId>, w: WorkerId, alive: set<WorkerId>,
                      now: Time)
    ensures Orphan(r, missed, front + [w], alive) <==>
            Orphan(r, missed, front, alive) || (RunsOn(r, w) && DiesNow(missed, w, alive))
    ensures !RunsOn(Recovered(r, now), w)
  {
    hide DiesNow;
  }

  /** The monitor makes exactly the RUNNING jobs of dead workers RETRYING, due now. */
  lemma {:induction false} MonitoredRows(s: Store, missed: map<WorkerId, nat>, workers: seq<WorkerId>,
                                         alive: set<WorkerId>, jobs: map<WorkerId, seq<Snap>>, now: Time)
    requires MonitorPages(s, missed, workers, alive, jobs, now)
    ensures var u := Monitored(s, missed, workers, alive, jobs, now);
            && u.rows.Keys == s.rows.Keys
            && forall j :: j in s.rows ==>
                 u.rows[j] == if Orphan(s.rows[j], missed, workers, alive) then Recovered(s.rows[j], now) else s.rows[j]
  {
    if workers != [] {
      hide DiesNow, JobsOf, Current, RecoveredFrom, Recovered, Orphan, RunsOn;
      var front, w := workers[..|workers| - 1], workers[|workers| - 1];
      MonitoredRows(s, missed, front, alive, jobs, now);
      var u := Monitored(s, missed, front, alive, jobs, now);
      if DiesNow(missed, w, alive) {
        RecoveredRows(u, w, jobs[w], now);
      }
      assert workers == front + [w];
      forall j | j in s.rows
        ensures Monitored(s, missed, workers, alive, jobs, now).rows[j] ==
                if Orphan(s.rows[j], missed, workers, alive) then Recovered(s.rows[j], now) else s.rows[j]
      {
        OneMoreWorker(s.rows[j], missed, front, w, alive, now);
      }
    } else {
      assert forall j :: j in s.rows ==> !Orphan(s.rows[j], missed, workers, alive);
    }
  }

  /** A whole pass brings the RUNNING jobs of the workers it declares dead back into a
      polled list. */
  lemma DeadWorkersJobsReturn(s: Store, missed: map<WorkerId, nat>, workers: seq<WorkerId>, alive: set<WorkerId>,
                              jobs: map<WorkerId, seq<Snap>>, retries: seq<Snap>, pending: seq<Snap>,
                              stale: seq<Snap>, now: Time)
    requires MonitorPages(s, missed, workers, alive, jobs, now)
    requires var u := Monitored(s, missed, workers, alive, jobs, now);
             && PagesOf(u, retries, pending, stale, now)
             && |DueJobs(u.rows, now)| <= PAGE_SIZE && |AgedJobs(u.rows, now)| <= PAGE_SIZE
             && |StaleJobs(u.rows, now)| <= PAGE_SIZE
    ensures var u := Monitored(s, missed, workers, alive, jobs, now);
            var v := PassResult(u, retries, pending, stale, now);
            && v.rows.Keys == s.rows.Keys
            && forall j :: j in s.rows && Orphan(s.rows[j], missed, workers, alive) ==>
                             v.rows[j].status.Queued? && Waiting(v.queues, j)
  {
    hide PagesOf, PassResult, Waiting, DiesNow, MonitorPages, Monitored;
    MonitoredRows(s, missed, workers, alive, jobs, now);
    SelfHealing(Monitored(s, missed, workers, alive, jobs, now), retries, pending, stale, now);
  }
}
