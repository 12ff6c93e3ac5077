/** What one uninterrupted scheduler sweep makes of the rows and the lists. */
module Sweeps {
  import opened Wrappers
  import opened Jobs
  import opened RedisLists
  import WorkerMonitor

  datatype Store = Store(rows: map<JobId, Row>, queues: Queues)

  // ----- pushes -----

  /** The jobs `js` are pushed in this order, each to the list of its priority. */
  function PushAll(q: Queues, rows: map<JobId, Row>, js: seq<JobId>): Queues
    requires forall j :: j in js ==> j in rows
  {
    if js == [] then q
    else
      var j := js[|js| - 1];
      Enqueue(PushAll(q, rows, js[..|js| - 1]), rows[j].priority, j)
  }

  /** One entry of each of the jobs `js` leaves `processing-queue`. */
  function ForgetAll(q: Queues, js: seq<JobId>): Queues {
    if js == [] then q else Forget(ForgetAll(q, js[..|js| - 1]), js[|js| - 1])
  }

  lemma {:induction false} ForgetAllEffect(q: Queues, js: seq<JobId>)
    ensures forall i :: 0 <= i <= MAIN ==> ForgetAll(q, js)[i] == q[i]
    ensures multiset(ForgetAll(q, js)[PROCESSING]) == multiset(q[PROCESSING]) - multiset(js)
  {
    if js != [] {
      var front, j := js[..|js| - 1], js[|js| - 1];
      assert js == front + [j];
      ForgetAllEffect(q, front);
      RemoveFirstMultiset(ForgetAll(q, front)[PROCESSING], j);
    }
  }

  /** The jobs of a page that are not skipped, in page order. */
  function Chosen(page: seq<Snap>, skip: set<JobId>): (js: seq<JobId>)
    ensures forall j :: j in js <==> j !in skip && exists i :: 0 <= i < |page| && page[i].job == j
  {
    if page == [] then []
    else
      var front := Chosen(page[..|page| - 1], skip);
      var j := page[|page| - 1].job;
      if j !in skip then front + [j] else front
  }

  /** The IDs some list holds. */
  function ListedJobs(q: Queues): (js: set<JobId>)
    ensures forall j :: j in js <==> InAnyList(q, j)
  {
    set i, k | 0 <= i <= PROCESSING && 0 <= k < |q[i]| :: q[i][k]
  }

  lemma {:induction false} PushAllWaits(q: Queues, rows: map<JobId, Row>, js: seq<JobId>)
    requires forall j :: j in js ==> j in rows
    ensures forall j :: Waiting(PushAll(q, rows, js), j) <==> Waiting(q, j) || j in js
    ensures PushAll(q, rows, js)[PROCESSING] == q[PROCESSING]
  {
    if js != [] {
      var front := js[..|js| - 1];
      var j := js[|js| - 1];
      assert js == front + [j];
      PushAllWaits(q, rows, front);
      EnqueueWaits(PushAll(q, rows, front), rows[j].priority, j);
    }
  }

  lemma ListedOrWaiting(q: Queues, j: JobId)
    ensures InAnyList(q, j) <==> Waiting(q, j) || j in q[PROCESSING]
  {
    if i :| 0 <= i <= PROCESSING && j in q[i] {
      assert i <= MAIN ==> Waiting(q, j);
    }
  }

  // ----- the four sweeps of a pass, on rows -----

  /** After `processRetries`: pushed, or rolled back where the LPUSH threw (the
      rollback wants a row without an owner). */
  function RetriedRow(r: Row, failed: bool, now: Time): Row {
    if failed && r.worker.None? then Undone(Requeued(r, now), now) else Requeued(r, now)
  }

  function AfterRetries(rows: map<JobId, Row>, jobs: set<JobId>, failed: set<JobId>, now: Time): map<JobId, Row> {
    map j | j in rows :: if j in jobs then RetriedRow(rows[j], j in failed, now) else rows[j]
  }

  /** After `processPendingJobs`: a failed LPUSH leaves the row PENDING. */
  function AfterPending(rows: map<JobId, Row>, jobs: set<JobId>, failed: set<JobId>, now: Time): map<JobId, Row> {
    map j | j in rows :: if j in jobs && j !in failed then Jobs.Dispatched(rows[j], now) else rows[j]
  }

  /** After `processStaleQueuedJobs`: the version moves even if the LPUSH throws. */
  function AfterStale(rows: map<JobId, Row>, jobs: set<JobId>, listed: set<JobId>, now: Time): map<JobId, Row> {
    map j | j in rows :: if j in jobs && j !in listed then Refreshed(rows[j], now) else rows[j]
  }

  function AfterRecovery(rows: map<JobId, Row>, jobs: set<JobId>, now: Time): map<JobId, Row> {
    map j | j in rows :: if j in jobs then Recovered(rows[j], now) else rows[j]
  }

  /** After `recoverWorkerJobs` for worker `w`. */
  function RecoveredFrom(s: Store, w: WorkerId, page: seq<Snap>, now: Time): Store {
    Store(AfterRecovery(s.rows, RunningJobs(s.rows, w), now), ForgetAll(s.queues, Chosen(page, {})))
  }

  /** After `recoverWorkerJobs` that throws at the job number `stop`, before its row
      write or after it. */
  ghost function RecoveredUntil(
    s: Store, w: WorkerId, page: seq<Snap>, now: Time, stop: nat, written: bool): Store
  {
    if stop >= |page| then RecoveredFrom(s, w, page, now)
    else
      Store(AfterRecovery(s.rows, JobsOf(page[..stop]) + if written then {page[stop].job} else {}, now),
            ForgetAll(s.queues, Chosen(page[..stop], {})))
  }

  lemma LastJob(page: seq<Snap>)
    requires page != [] && forall i, k :: 0 <= i < k < |page| ==> page[i].job != page[k].job
    ensures var front, last := page[..|page| - 1], page[|page| - 1];
            JobsOf(page) == JobsOf(front) + {last.job} && last.job !in JobsOf(front)
  {
  }

  lemma NothingThrows(s: Store, w: WorkerId, page: seq<Snap>, now: Time, stop: nat, written: bool)
    requires stop >= |page|
    ensures RecoveredUntil(s, w, page, now, stop, written) == RecoveredFrom(s, w, page, now)
  {
  }

  lemma {:induction false} ChosenOnce(page: seq<Snap>)
    requires forall i, k :: 0 <= i < k < |page| ==> page[i].job != page[k].job
    ensures multiset(Chosen(page, {})) == multiset(JobsOf(page))
  {
    if page != [] {
      var front, last := page[..|page| - 1], page[|page| - 1];
      ChosenOnce(front);
      LastJob(page);
      hide JobsOf;
      assert Chosen(page, {}) == Chosen(front, {}) + [last.job];
    }
  }

  predicate DiesNow(missed: map<WorkerId, nat>, w: WorkerId, alive: set<WorkerId>) {
    WorkerMonitor.Look(WorkerMonitor.Strikes(missed, w), w in alive).1
  }

  /** After `monitorWorkers` has gone through the workers. */
  function Monitored(s: Store, missed: map<WorkerId, nat>, workers: seq<WorkerId>, alive: set<WorkerId>,
                     jobs: map<WorkerId, seq<Snap>>, now: Time): Store {
    if workers == [] then s
    else
      var u, w := Monitored(s, missed, workers[..|workers| - 1], alive, jobs, now), workers[|workers| - 1];
      if DiesNow(missed, w, alive) && w in jobs then RecoveredFrom(u, w, jobs[w], now) else u
  }

  /** The call of `monitorWorkers` that throws: for the worker with this number the
      lookup of its key, something in `recoverWorkerJobs`, or its removal. */
  datatype Fault =
    | NoFault
    | LookThrows(worker: nat)
    | RecoveryThrows(worker: nat, stop: nat, written: bool)
    | RemovalThrows(worker: nat)

  /** The pass gets as far as that call. */
  predicate Hits(
    fault: Fault, missed: map<WorkerId, nat>, workers: seq<WorkerId>, alive: set<WorkerId>,
    jobs: map<WorkerId, seq<Snap>>): (hits: bool)
    ensures hits ==> !fault.NoFault? && fault.worker < |workers|
  {
    && !fault.NoFault? && fault.worker < |workers|
    && var w := workers[fault.worker];
       match fault
       case LookThrows(_) => true
       case RecoveryThrows(_, stop, _) => DiesNow(missed, w, alive) && w in jobs && stop < |jobs[w]|
       case _ => DiesNow(missed, w, alive)
  }

  /** The workers that are looked at. */
  function LookedAt(
    fault: Fault, missed: map<WorkerId, nat>, workers: seq<WorkerId>, alive: set<WorkerId>,
    jobs: map<WorkerId, seq<Snap>>): (looked: seq<WorkerId>)
    ensures |looked| <= |workers| && looked == workers[..|looked|]
  {
    if !Hits(fault, missed, workers, alive, jobs) then workers
    else if fault.LookThrows? then workers[..fault.worker] else workers[..fault.worker + 1]
  }

  /** The workers whose turn comes to its end. */
  function Handled(
    fault: Fault, missed: map<WorkerId, nat>, workers: seq<WorkerId>, alive: set<WorkerId>,
    jobs: map<WorkerId, seq<Snap>>): (handled: seq<WorkerId>)
    ensures |handled| <= |workers| && handled == workers[..|handled|]
  {
    if Hits(fault, missed, workers, alive, jobs) then workers[..fault.worker] else workers
  }

  /** After `monitorWorkers` that may throw. */
  ghost function MonitorResult(
    s: Store, missed: map<WorkerId, nat>, workers: seq<WorkerId>, alive: set<WorkerId>,
    jobs: map<WorkerId, seq<Snap>>, now: Time, fault: Fault): Store
  {
    if Hits(fault, missed, workers, alive, jobs) && fault.RecoveryThrows? then
      var w := workers[fault.worker];
      RecoveredUntil(Monitored(s, missed, workers[..fault.worker], alive, jobs, now), w, jobs[w], now,
                     fault.stop, fault.written)
    else Monitored(s, missed, LookedAt(fault, missed, workers, alive, jobs), alive, jobs, now)
  }

  /** `jobs` is what the queries for the jobs of the dead workers find. */
  ghost predicate MonitorPages(s: Store, missed: map<WorkerId, nat>, workers: seq<WorkerId>, alive: set<WorkerId>,
                               jobs: map<WorkerId, seq<Snap>>, now: Time) {
    workers == [] ||
    (var front, w := workers[..|workers| - 1], workers[|workers| - 1];
     var u := Monitored(s, missed, front, alive, jobs, now);
     && MonitorPages(s, missed, front, alive, jobs, now)
     && (DiesNow(missed, w, alive) ==>
           && w in jobs && Current(u.rows, RunningJobs(u.rows, w), jobs[w])
           && RunningJobs(u.rows, w) <= JobsOf(jobs[w])))
  }

  lemma {:induction false} FrontPages(
    s: Store, missed: map<WorkerId, nat>, workers: seq<WorkerId>, alive: set<WorkerId>,
    jobs: map<WorkerId, seq<Snap>>, now: Time, n: nat)
    requires MonitorPages(s, missed, workers, alive, jobs, now) && n <= |workers|
    ensures MonitorPages(s, missed, workers[..n], alive, jobs, now)
  {
    hide RecoveredFrom, Current, RunningJobs, JobsOf;
    if n == |workers| {
      assert workers[..n] == workers;
    } else {
      var front := workers[..|workers| - 1];
      FrontPages(s, missed, front, alive, jobs, now, n);
      assert front[..n] == workers[..n];
    }
  }

  /** One more worker. */
  lemma NextMonitored(
    s: Store, missed: map<WorkerId, nat>, workers: seq<WorkerId>, alive: set<WorkerId>,
    jobs: map<WorkerId, seq<Snap>>, now: Time, i: nat)
    requires MonitorPages(s, missed, workers, alive, jobs, now) && i < |workers|
    ensures var u, w := Monitored(s, missed, workers[..i], alive, jobs, now), workers[i];
            var next := Monitored(s, missed, workers[..i + 1], alive, jobs, now);
            if DiesNow(missed, w, alive) then
              && w in jobs && Current(u.rows, RunningJobs(u.rows, w), jobs[w])
              && RunningJobs(u.rows, w) <= JobsOf(jobs[w])
              && next == RecoveredFrom(u, w, jobs[w], now)
            else next == u
  {
    hide RecoveredFrom, Current, RunningJobs, JobsOf, DiesNow;
    FrontPages(s, missed, workers, alive, jobs, now, i + 1);
    assert workers[..i + 1][..i] == workers[..i];
  }

  /** The turn of worker `i`, if the pass gets to it and its key can be read. */
  lemma TurnOf(
    s: Store, missed: map<WorkerId, nat>, workers: seq<WorkerId>, alive: set<WorkerId>,
    jobs: map<WorkerId, seq<Snap>>, now: Time, fault: Fault, i: nat)
    requires MonitorPages(s, missed, LookedAt(fault, missed, workers, alive, jobs), alive, jobs, now)
    requires i < |workers| && fault != LookThrows(i)
    requires Hits(fault, missed, workers, alive, jobs) ==> i <= fault.worker
    ensures var u, w := Monitored(s, missed, workers[..i], alive, jobs, now), workers[i];
            var next := Monitored(s, missed, workers[..i + 1], alive, jobs, now);
            if DiesNow(missed, w, alive) then
              && w in jobs && Current(u.rows, RunningJobs(u.rows, w), jobs[w])
              && RunningJobs(u.rows, w) <= JobsOf(jobs[w])
              && next == RecoveredFrom(u, w, jobs[w], now)
            else next == u
  {
    hide Monitored, MonitorPages, RecoveredFrom, Current, RunningJobs, JobsOf, DiesNow;
    var looked := LookedAt(fault, missed, workers, alive, jobs);
    assert looked[..i] == workers[..i] && looked[..i + 1] == workers[..i + 1] && looked[i] == workers[i];
    NextMonitored(s, missed, looked, alive, jobs, now, i);
  }

  /** Where the pass ends at worker `i`, or does not. */
  lemma EndsAt(
    s: Store, missed: map<WorkerId, nat>, workers: seq<WorkerId>, alive: set<WorkerId>,
    jobs: map<WorkerId, seq<Snap>>, now: Time, fault: Fault, i: nat)
    requires i < |workers| && (Hits(fault, missed, workers, alive, jobs) ==> i <= fault.worker)
    ensures var w := workers[i];
            var dies := DiesNow(missed, w, alive) && w in jobs;
            var hits := Hits(fault, missed, workers, alive, jobs);
            var handled := Handled(fault, missed, workers, alive, jobs);
            var looked := LookedAt(fault, missed, workers, alive, jobs);
            var result := MonitorResult(s, missed, workers, alive, jobs, now, fault);
            if fault == LookThrows(i) then
              && hits && looked == handled == workers[..i]
              && result == Monitored(s, missed, workers[..i], alive, jobs, now)
            else if dies && fault.RecoveryThrows? && fault.worker == i && fault.stop < |jobs[w]| then
              && hits && looked == workers[..i + 1] && handled == workers[..i]
              && result == RecoveredUntil(Monitored(s, missed, workers[..i], alive, jobs, now), w, jobs[w], now,
                                          fault.stop, fault.written)
            else if dies && fault == RemovalThrows(i) then
              && hits && looked == workers[..i + 1] && handled == workers[..i]
              && result == Monitored(s, missed, workers[..i + 1], alive, jobs, now)
            else dies || !DiesNow(missed, w, alive) ==> hits ==> i < fault.worker
  {
    hide Monitored, RecoveredUntil, DiesNow;
  }

  lemma NeverEnds(
    s: Store, missed: map<WorkerId, nat>, workers: seq<WorkerId>, alive: set<WorkerId>,
    jobs: map<WorkerId, seq<Snap>>, now: Time, fault: Fault)
    requires Hits(fault, missed, workers, alive, jobs) ==> |workers| <= fault.worker
    ensures !Hits(fault, missed, workers, alive, jobs)
    ensures LookedAt(fault, missed, workers, alive, jobs) == Handled(fault, missed, workers, alive, jobs) == workers
    ensures MonitorResult(s, missed, workers, alive, jobs, now, fault) ==
            Monitored(s, missed, workers, alive, jobs, now)
  {
  }

  // ----- recoverProcessingQueue -----

  /** The ID belongs to no job, or to one that has nothing in flight. */
  predicate Dead(rows: map<JobId, Row>, j: JobId) {
    j !in rows || rows[j].status.Completed? || rows[j].status.Failed? || rows[j].status.Cancelled?
    || rows[j].status.Retrying?
  }

  /** One entry of `processing-queue` is examined. */
  function ScanOne(s: Store, j: JobId, now: Time): Store {
    if Dead(s.rows, j) then s.(queues := Forget(s.queues, j))
    else if Stranded(s.rows[j], now) then
      Store(s.rows[j := Refreshed(s.rows[j], now)], Forget(Enqueue(s.queues, s.rows[j].priority, j), j))
    else s
  }

  function ScanAll(s: Store, ids: seq<JobId>, now: Time): Store {
    if ids == [] then s else ScanOne(ScanAll(s, ids[..|ids| - 1], now), ids[|ids| - 1], now)
  }

  /** With pushes that may throw: the first one that does ends the sweep, after the
      row has been refreshed. */
  function ScanUntil(s: Store, ids: seq<JobId>, throws: set<JobId>, now: Time): (Store, bool) {
    if ids == [] then (s, false)
    else
      var (u, ended) := ScanUntil(s, ids[..|ids| - 1], throws, now);
      var j := ids[|ids| - 1];
      if ended then (u, true)
      else if !Dead(u.rows, j) && Stranded(u.rows[j], now) && j in throws then
        (u.(rows := u.rows[j := Refreshed(u.rows[j], now)]), true)
      else (ScanOne(u, j, now), false)
  }

  lemma {:induction false} EndedStays(s: Store, ids: seq<JobId>, n: nat, throws: set<JobId>, now: Time)
    requires n <= |ids| && ScanUntil(s, ids[..n], throws, now).1
    ensures ScanUntil(s, ids, throws, now) == ScanUntil(s, ids[..n], throws, now)
  {
    if n == |ids| {
      assert ids[..n] == ids;
    } else {
      var front := ids[..|ids| - 1];
      assert front[..n] == ids[..n];
      EndedStays(s, front, n, throws, now);
    }
  }

  /** Where no push throws every entry is examined. */
  lemma {:induction false} ScanAllWhenNoneThrows(s: Store, ids: seq<JobId>, now: Time)
    ensures ScanUntil(s, ids, {}, now) == (ScanAll(s, ids, now), false)
  {
    if ids != [] {
      ScanAllWhenNoneThrows(s, ids[..|ids| - 1], now);
    }
  }

  /** Scanning leaves all rows alone but those of stranded jobs it came across. */
  lemma {:induction false} ScanAllRows(s: Store, ids: seq<JobId>, now: Time)
    ensures var s' := ScanAll(s, ids, now);
            && s'.rows.Keys == s.rows.Keys
            && forall j :: j in s.rows ==>
                 s'.rows[j] == if j in ids && Stranded(s.rows[j], now) then Refreshed(s.rows[j], now) else s.rows[j]
  {
    if ids != [] {
      var front, k := ids[..|ids| - 1], ids[|ids| - 1];
      ScanAllRows(s, front, now);
      assert ids == front + [k];
    }
  }

  /** It brings exactly the stranded IDs among the scanned ones into polled lists. */
  lemma {:induction false} ScanAllWaits(s: Store, ids: seq<JobId>, now: Time)
    ensures forall j :: Waiting(ScanAll(s, ids, now).queues, j) <==>
              Waiting(s.queues, j) || (j in ids && j in s.rows && Stranded(s.rows[j], now))
  {
    if ids != [] {
      var front, k := ids[..|ids| - 1], ids[|ids| - 1];
      var u := ScanAll(s, front, now);
      ScanAllRows(s, front, now);
      ScanAllWaits(s, front, now);
      ScanOneEffect(u, k, now);
      assert ids == front + [k];
      forall j
        ensures Waiting(ScanAll(s, ids, now).queues, j) <==>
                  Waiting(s.queues, j) || (j in ids && j in s.rows && Stranded(s.rows[j], now))
      {
        assert j in ids <==> j in front || j == k;
      }
    }
  }

  /** Of a dead ID it removes as many entries as it scanned, and it adds none. */
  lemma {:induction false} ScanAllRemoves(s: Store, ids: seq<JobId>, now: Time)
    requires multiset(ids) <= multiset(s.queues[PROCESSING])
    ensures var left := multiset(ScanAll(s, ids, now).queues[PROCESSING]);
            && left <= multiset(s.queues[PROCESSING])
            && forall j :: Dead(s.rows, j) ==> left[j] == multiset(s.queues[PROCESSING])[j] - multiset(ids)[j]
  {
    hide ScanOne;
    if ids != [] {
      var front, k := ids[..|ids| - 1], ids[|ids| - 1];
      assert ids == front + [k];
      assert multiset(ids) == multiset(front) + multiset{k};
      ScanAllRows(s, front, now);
      ScanAllRemoves(s, front, now);
      ScanOneEffect(ScanAll(s, front, now), k, now);
    }
  }

  lemma ScanOneEffect(s: Store, k: JobId, now: Time)
    ensures var s' := ScanOne(s, k, now);
            && (forall j :: Waiting(s'.queues, j) <==>
                  Waiting(s.queues, j) || (j == k && k in s.rows && Stranded(s.rows[k], now)))
            && multiset(s'.queues[PROCESSING]) ==
                 (if Dead(s.rows, k) || Stranded(s.rows[k], now)
                  then multiset(s.queues[PROCESSING]) - multiset{k} else multiset(s.queues[PROCESSING]))
  {
    RemoveFirstMultiset(s.queues[PROCESSING], k);
    if k in s.rows {
      EnqueueWaits(s.queues, s.rows[k].priority, k);
      ForgetKeepsWaiting(Enqueue(s.queues, s.rows[k].priority, k), k);
    }
    ForgetKeepsWaiting(s.queues, k);
  }
}
