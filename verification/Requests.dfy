/** What one API request does from beginning to end, while nobody else acts: `createJob`
    with each way it can fail, `cancelJob` and `retryJob`. */
module Requests {
  import opened Wrappers
  import opened Jobs
  import opened RedisLists
  import opened Protocol

  ghost predicate Leads(s: World, ts: seq<Step>, s': World) {
    Runs(s, ts) && After(s, ts) == s'
  }

  lemma LeadsBy(s: World, ts: seq<Step>, u: World, t: Step, s': World)
    requires Leads(s, ts, u) && Enabled(u, t) && Apply(u, t) == s'
    ensures Leads(s, ts + [t], s')
  {
    hide Apply, Enabled;
    assert (ts + [t])[..|ts + [t]| - 1] == ts;
  }

  lemma LeadsNowhere(s: World)
    ensures Leads(s, [], s)
  {
  }

  /** Where a call of `createJob` throws, if one does. */
  datatype Failure = Never | AtStatus | AtPush | AtEvent

  /** The row that is left. */
  function Outcome(p: Priority, f: Failure, now: Time): Row {
    match f
    case Never => Row(Queued, 1, None, 0, None, p, now, now)
    case AtStatus => Row(Pending, 1, None, 0, None, p, now, now)
    case _ => Row(Pending, 2, None, 0, None, p, now, now)
  }

  /** Only the row and the lists change. */
  ghost predicate Only(s: World, s': World, j: JobId, r: Row) {
    && s'.rows == s.rows[j := r] && s'.calls == s.calls && s'.attempts == s.attempts && s'.sweeps == s.sweeps
    && s'.results == s.results && s'.roster == s.roster && s'.now == s.now
  }

  /** The request is at `at`, row `j` is `r` and the lists are `q`. */
  ghost predicate Standing(s: World, u: World, c: nat, at: Call, j: JobId, r: Row, q: Queues) {
    Only(s, u.(calls := s.calls), j, r) && u.calls == s.calls[c := at] && u.queues == q
  }

  lemma Inserted(s: World, c: nat, j: JobId, p: Priority) returns (ts: seq<Step>, u: World)
    requires c !in s.calls && j !in s.rows
    ensures Leads(s, ts, u)
    ensures Standing(s, u, c, Labelling(j), j, Row(Pending, 1, None, 0, None, p, s.now, s.now), s.queues)
  {
    var t := ByCall(c, InsertJob(j, p));
    u := Apply(s, t);
    LeadsNowhere(s);
    LeadsBy(s, [], s, t, u);
    ts := [] + [t];
  }

  /** One more step of the request. */
  lemma Goes(s: World, ts: seq<Step>, u: World, c: nat, k: CallStep) returns (us: seq<Step>, v: World)
    requires Leads(s, ts, u) && CallEnabled(u, c, k)
    ensures Leads(s, us, v) && v == CallApply(u, c, k)
  {
    hide CallApply, CallEnabled;
    v := CallApply(u, c, k);
    us := ts + [ByCall(c, k)];
    LeadsBy(s, ts, u, ByCall(c, k), v);
  }

  lemma LabelsQueued(s: World, u: World, c: nat, j: JobId, r: Row)
    requires Standing(s, u, c, Labelling(j), j, r, s.queues)
    ensures CallEnabled(u, c, WriteQueued)
    ensures Standing(s, CallApply(u, c, WriteQueued), c, Pushing(j), j, r.(status := Queued, updatedAt := s.now),
                     s.queues)
  {
  }

  lemma PushesJob(s: World, u: World, c: nat, j: JobId, r: Row)
    requires Standing(s, u, c, Pushing(j), j, r, s.queues)
    ensures CallEnabled(u, c, PushJob)
    ensures Standing(s, CallApply(u, c, PushJob), c, Logging(j), j, r, Enqueue(s.queues, r.priority, j))
  {
    hide Enqueue;
  }

  lemma Ends(s: World, u: World, c: nat, j: JobId, r: Row, q: Queues)
    requires c !in s.calls && Standing(s, u, c, Logging(j), j, r, q)
    ensures CallEnabled(u, c, Finish)
    ensures Only(s, CallApply(u, c, Finish), j, r) && CallApply(u, c, Finish).queues == q
  {
    assert s.calls[c := Logging(j)] - {c} == s.calls;
  }

  lemma Throws(s: World, u: World, c: nat, at: Call, j: JobId, r: Row, q: Queues)
    requires Standing(s, u, c, at, j, r, q) && at in {Labelling(j), Pushing(j), Logging(j)}
    ensures CallEnabled(u, c, Fail) && Standing(s, CallApply(u, c, Fail), c, RollingBack(j), j, r, q)
  {
  }

  lemma RollsBack(s: World, u: World, c: nat, j: JobId, r: Row, q: Queues)
    requires c !in s.calls && Standing(s, u, c, RollingBack(j), j, r, q)
    ensures CallEnabled(u, c, WriteRollback)
    ensures var v := CallApply(u, c, WriteRollback);
            && v.queues == q
            && Only(s, v, j, if r.status.Queued? && r.worker.None?
                             then r.(status := Pending, version := r.version + 1, updatedAt := s.now) else r)
  {
    assert s.calls[c := RollingBack(j)] - {c} == s.calls;
  }

  /** A created job ends QUEUED, with one entry at the head of the list of its priority.
      Where a call throws it ends PENDING; if that was the event after the push, the entry
      stays. */
  lemma CreateEnds(s: World, c: nat, j: JobId, p: Priority, f: Failure) returns (ts: seq<Step>, s': World)
    requires c !in s.calls && j !in s.rows
    ensures Leads(s, ts, s') && Only(s, s', j, Outcome(p, f, s.now))
    ensures forall l :: 0 <= l <= PROCESSING ==>
              s'.queues[l] ==
              if l == Level(p) && (f.Never? || f.AtEvent?) then [j] + s.queues[l] else s.queues[l]
  {
    hide Leads, Standing, CallApply, CallEnabled, Only;
    var u;
    var at, r, q := Labelling(j), Row(Pending, 1, None, 0, None, p, s.now, s.now), s.queues;
    ts, u := Inserted(s, c, j, p);
    if !f.AtStatus? {
      LabelsQueued(s, u, c, j, r);
      ts, u := Goes(s, ts, u, c, WriteQueued);
      at, r := Pushing(j), r.(status := Queued, updatedAt := s.now);
      if !f.AtPush? {
        PushesJob(s, u, c, j, r);
        ts, u := Goes(s, ts, u, c, PushJob);
        at, q := Logging(j), Enqueue(s.queues, p, j);
      }
    }
    if f.Never? {
      Ends(s, u, c, j, r, q);
      ts, s' := Goes(s, ts, u, c, Finish);
    } else {
      Throws(s, u, c, at, j, r, q);
      ts, u := Goes(s, ts, u, c, Fail);
      RollsBack(s, u, c, j, r, q);
      ts, s' := Goes(s, ts, u, c, WriteRollback);
    }
  }

  /** A request to cancel is taken exactly for PENDING, QUEUED and RETRYING jobs, and then
      the job is CANCELLED and nothing else changes. */
  lemma CancelEnds(s: World, c: nat, j: JobId) returns (ts: seq<Step>, s': World)
    requires c !in s.calls
    ensures CallEnabled(s, c, ReadForCancel(j)) <==>
            j in s.rows && s.rows[j].status in {Pending, Queued, Retrying}
    ensures j in s.rows && s.rows[j].status in {Pending, Queued, Retrying} ==>
              && Leads(s, ts, s') && s'.queues == s.queues
              && Only(s, s', j, s.rows[j].(status := Cancelled, updatedAt := s.now))
  {
    hide Leads;
    LeadsNowhere(s);
    ts, s' := [], s;
    if CallEnabled(s, c, ReadForCancel(j)) {
      var u;
      ts, u := Goes(s, [], s, c, ReadForCancel(j));
      ts, s' := Goes(s, ts, u, c, WriteCancelled);
      assert u.calls - {c} == s.calls;
    }
  }

  /** A request to retry is taken exactly for FAILED jobs, and then the job is PENDING
      with one more retry. */
  lemma RetryEnds(s: World, c: nat, j: JobId) returns (ts: seq<Step>, s': World)
    requires c !in s.calls
    ensures CallEnabled(s, c, ReadForRetry(j)) <==> j in s.rows && s.rows[j].status == Failed
    ensures j in s.rows && s.rows[j].status == Failed ==>
              && Leads(s, ts, s') && s'.queues == s.queues
              && Only(s, s', j, s.rows[j].(status := Pending, retryCount := s.rows[j].retryCount + 1,
                                           updatedAt := s.now))
  {
    hide Leads;
    LeadsNowhere(s);
    ts, s' := [], s;
    if CallEnabled(s, c, ReadForRetry(j)) {
      var u;
      ts, u := Goes(s, [], s, c, ReadForRetry(j));
      ts, s' := Goes(s, ts, u, c, WriteRevived);
      assert u.calls - {c} == s.calls;
    }
  }
}
