/** Continuations of a run in which everyone does their work. */
module Continuations {
  import opened Jobs
  import opened RedisLists
  import opened Protocol
  import opened Fencing

  // ----- clocks -----

  predicate Past(r: Row, now: Time) {
    r.createdAt <= now && r.updatedAt <= now
  }

  /** No time stamp lies ahead of the clock. */
  ghost predicate Sane(s: World) {
    forall j :: j in s.rows ==> Past(s.rows[j], s.now)
  }

  lemma WorkerKeepsSane(s: World, a: nat, t: WorkerStep)
    requires Sane(s) && WorkerEnabled(s, a, t)
    ensures Sane(WorkerApply(s, a, t))
  {
    hide WorkerApply;
    WorkerRows(s, a, t);
    WorkerClock(s, a, t);
  }

  lemma WorkerClock(s: World, a: nat, t: WorkerStep)
    requires WorkerEnabled(s, a, t)
    ensures WorkerApply(s, a, t).now == s.now
  {
    hide NextPc, Pop, Forget, WorkerGuard, WorkerRow, WorkerTally;
  }

  lemma CallKeepsSane(s: World, c: nat, t: CallStep)
    requires Sane(s) && CallEnabled(s, c, t)
    ensures Sane(CallApply(s, c, t))
  {
    hide CallApply;
    CallRows(s, c, t);
    CallClock(s, c, t);
  }

  lemma CallClock(s: World, c: nat, t: CallStep)
    requires CallEnabled(s, c, t)
    ensures CallApply(s, c, t).now == s.now
  {
    hide NextCall, Enqueue, CallRow, CallTally;
  }

  lemma SweepKeepsSane(s: World, x: nat, t: SweepStep)
    requires Sane(s) && SweepEnabled(s, x, t)
    ensures Sane(SweepApply(s, x, t))
  {
    hide AdvanceApply, IsPage, Current;
    if t.Advance? {
      AdvanceRows(s, x, s.sweeps[x]);
      AdvanceRest(s, x, s.sweeps[x]);
    }
  }

  lemma StepKeepsSane(s: World, t: Step)
    requires Sane(s) && Enabled(s, t)
    ensures Sane(Apply(s, t))
  {
    hide WorkerApply, CallApply, SweepApply, WorkerEnabled, CallEnabled, SweepEnabled;
    match t
    case ByWorker(a, w) => WorkerKeepsSane(s, a, w);
    case ByCall(c, k) => CallKeepsSane(s, c, k);
    case BySweep(x, p) => SweepKeepsSane(s, x, p);
    case _ =>
  }

  /** So it is in every world that any run reaches. */
  lemma {:induction false} SaneHolds(s: World, ts: seq<Step>)
    requires Init(s) && Runs(s, ts)
    ensures Sane(After(s, ts))
    decreases |ts|
  {
    hide Apply, Enabled;
    if ts != [] {
      SaneHolds(s, ts[..|ts| - 1]);
      StepKeepsSane(After(s, ts[..|ts| - 1]), ts[|ts| - 1]);
    }
  }

  // ----- ordinary steps -----

  /** Steps of workers and schedulers that do their work: no handler throws, nothing
      crashes or stops, no user acts, and no worker comes or goes by itself.  The catch
      block is there for a completion that meets a stored result.  Workers that have
      not fallen silent may beat; the monitor may take silent ones off its list. */
  predicate Ordinary(t: Step) {
    match t
    case ByWorker(_, w) => !w.Throw? && !w.Abandon?
    case BySweep(_, p) => !p.PushFails? && !p.Swallow? && !p.Stop?
    case Beat(_) => true
    case Tick(_) => true
    case _ => false
  }

  predicate Pops(t: Step) {
    t.ByWorker? && t.w.PopJob?
  }

  /** A look of a monitor at a worker that has not fallen silent finds its key. */
  ghost predicate Heeds(u: World, t: Step) {
    t.BySweep? && t.p.Advance? && t.sweep in u.sweeps && u.sweeps[t.sweep].MonitorLoop? ==>
      var ws := u.sweeps[t.sweep].workers;
      ws != [] && ws[0] !in u.roster.silent ==> KeyAlive(u.roster, ws[0], u.now)
  }

  /** A job is popped only when every attempt begun on the way is over: one worker
      that takes one job at a time is enough. */
  ghost predicate Proper(busy: set<nat>, u: World, t: Step) {
    Ordinary(t) && (Pops(t) ==> u.attempts.Keys == busy) && Heeds(u, t)
  }

  ghost predicate Orderly(s: World, ts: seq<Step>) {
    forall k :: 0 <= k < |ts| && Runs(s, ts[..k]) ==> Proper(s.attempts.Keys, After(s, ts[..k]), ts[k])
  }

  ghost predicate Goes(s: World, ts: seq<Step>, s': World) {
    Runs(s, ts) && After(s, ts) == s' && Orderly(s, ts)
  }

  /** And every attempt begun on the way is over at its end. */
  ghost predicate Leads(s: World, ts: seq<Step>, s': World) {
    Goes(s, ts, s') && s'.attempts.Keys == s.attempts.Keys
  }

  lemma GoesBy(s: World, ts: seq<Step>, u: World, t: Step)
    requires Goes(s, ts, u) && Sane(u) && Enabled(u, t) && Proper(s.attempts.Keys, u, t)
    ensures Goes(s, ts + [t], Apply(u, t)) && Sane(Apply(u, t))
  {
    hide Apply, Enabled, Sane, Proper, Orderly;
    assert (ts + [t])[..|ts + [t]| - 1] == ts;
    StepKeepsSane(u, t);
    OrderlyBy(s, ts, t);
  }

  lemma OrderlyBy(s: World, ts: seq<Step>, t: Step)
    requires Runs(s, ts) && Orderly(s, ts) && Proper(s.attempts.Keys, After(s, ts), t)
    ensures Orderly(s, ts + [t])
  {
    hide Apply, Enabled, Proper;
    var more := ts + [t];
    forall k | 0 <= k < |more| && Runs(s, more[..k])
      ensures Proper(s.attempts.Keys, After(s, more[..k]), more[k])
    {
      if k < |ts| {
        assert more[..k] == ts[..k];
      } else {
        assert more[..k] == ts;
      }
    }
  }

  lemma Stays(s: World)
    ensures Leads(s, [], s)
  {
  }

  lemma GoesOnce(s: World, t: Step)
    requires Sane(s) && Enabled(s, t) && Ordinary(t) && Heeds(s, t)
    ensures Goes(s, [t], Apply(s, t)) && Sane(Apply(s, t))
  {
    hide Apply, Enabled, Sane, Goes, Ordinary, Heeds;
    Stays(s);
    GoesBy(s, [], s, t);
    assert [] + [t] == [t];
  }

  /** Steps of others leave the attempts alone. */
  lemma LeadsOnce(s: World, t: Step)
    requires Sane(s) && Enabled(s, t) && Ordinary(t) && Heeds(s, t) && !t.ByWorker?
    ensures Leads(s, [t], Apply(s, t)) && Sane(Apply(s, t))
  {
    hide Apply, Enabled, Sane, Goes, Ordinary, Heeds;
    GoesOnce(s, t);
    OnlyWorkersMoveAttempts(s, t);
  }

  /** `us` goes on where `ts` ends, if it may pop there. */
  lemma GoesOn(s: World, ts: seq<Step>, u: World, us: seq<Step>, s': World)
    requires Goes(s, ts, u) && Goes(u, us, s')
    requires u.attempts.Keys == s.attempts.Keys || forall t :: t in us ==> !Pops(t)
    ensures Goes(s, ts + us, s')
  {
    hide Apply, Enabled, Ordinary, Heeds;
    RunsAppend(s, ts, us);
    var more := ts + us;
    forall k | 0 <= k < |more| && Runs(s, more[..k])
      ensures Proper(s.attempts.Keys, After(s, more[..k]), more[k])
    {
      if k < |ts| {
        assert more[..k] == ts[..k];
      } else {
        var m := k - |ts|;
        PrefixRuns(u, us, m);
        RunsAppend(s, ts, us[..m]);
        assert more[..k] == ts + us[..m] && us[m] == more[k] && us[m] in us;
      }
    }
  }

  lemma LeadsOn(s: World, ts: seq<Step>, u: World, us: seq<Step>, s': World)
    requires Leads(s, ts, u) && Leads(u, us, s')
    ensures Leads(s, ts + us, s')
  {
    hide Goes;
    GoesOn(s, ts, u, us, s');
  }

  /** The last of the steps `ts` is a successful claim of job `j` by worker `w`. */
  ghost predicate EndsInClaim(s: World, ts: seq<Step>, j: JobId, w: WorkerId) {
    && ts != [] && Goes(s, ts, After'(s, ts))
    && var last := ts[|ts| - 1];
       var u := After'(s, ts[..|ts| - 1]);
       && last.ByWorker? && last.w.Claim?
       && last.attempt in u.attempts && u.attempts[last.attempt].job == j && u.attempts[last.attempt].worker == w
       && j in u.rows && u.rows[j].status.Queued?
       && j in After'(s, ts).rows && After'(s, ts).rows[j].status.Running?
  }

  /** `After`, and the start itself where the steps are no run. */
  ghost function After'(s: World, ts: seq<Step>): World {
    if Runs(s, ts) then After(s, ts) else s
  }

  lemma ClaimLater(s: World, ts: seq<Step>, u: World, us: seq<Step>, j: JobId, w: WorkerId)
    requires Leads(s, ts, u) && EndsInClaim(u, us, j, w)
    ensures EndsInClaim(s, ts + us, j, w)
  {
    hide Apply, Enabled, Orderly;
    var front := us[..|us| - 1];
    GoesOn(s, ts, u, us, After'(u, us));
    PrefixRuns(u, us, |us| - 1);
    RunsAppend(s, ts, us);
    RunsAppend(s, ts, front);
    assert (ts + us)[..|ts + us| - 1] == ts + front;
    assert (ts + us)[|ts + us| - 1] == us[|us| - 1];
  }

  // ----- finding fresh process numbers and pages -----

  lemma FreshNumber(used: set<nat>) returns (n: nat)
    ensures n !in used && forall k :: k in used ==> k < n
  {
    if used == {} {
      n := 0;
    } else {
      var k :| k in used;
      var m := FreshNumber(used - {k});
      n := if k < m then m else k + 1;
      assert forall i :: i in used ==> i == k || i in used - {k};
    }
  }

  lemma Oldest(rows: map<JobId, Row>, eligible: set<JobId>, order: Order) returns (m: JobId)
    requires eligible <= rows.Keys && eligible != {}
    ensures m in eligible && forall j :: j in eligible ==> Age(order, rows[m]) <= Age(order, rows[j])
  {
    m :| m in eligible;
    if eligible != {m} {
      var n := Oldest(rows, eligible - {m}, order);
      assert forall j :: j in eligible ==> j == m || j in eligible - {m};
      if Age(order, rows[n]) < Age(order, rows[m]) {
        m := n;
      }
    }
  }

  /** A query always has a result. */
  lemma PageExists(rows: map<JobId, Row>, eligible: set<JobId>, order: Order, size: nat) returns (page: seq<Snap>)
    requires eligible <= rows.Keys
    ensures IsPage(rows, eligible, order, size, page)
    decreases size
  {
    if eligible == {} || size == 0 {
      page := [];
    } else {
      var m := Oldest(rows, eligible, order);
      var rest := PageExists(rows, eligible - {m}, order, size - 1);
      page := [Snap(m, rows[m].version)] + rest;
      FirstOfPage(rows, eligible, order, size, m, rest);
    }
  }

  lemma FirstJob(c: Snap, rest: seq<Snap>)
    ensures JobsOf([c] + rest) == {c.job} + JobsOf(rest)
  {
    var page := [c] + rest;
    assert page[0].job in JobsOf(page);
    forall j | j in JobsOf(rest)
      ensures j in JobsOf(page)
    {
      var i :| 0 <= i < |rest| && rest[i].job == j;
      assert page[i + 1].job == j;
    }
  }

  lemma FirstIsCurrent(rows: map<JobId, Row>, eligible: set<JobId>, m: JobId, rest: seq<Snap>)
    requires eligible <= rows.Keys && m in eligible && Current(rows, eligible - {m}, rest)
    ensures Current(rows, eligible, [Snap(m, rows[m].version)] + rest)
  {
    var page := [Snap(m, rows[m].version)] + rest;
    assert forall i :: 0 < i < |page| ==> page[i] == rest[i - 1] && page[i].job in eligible - {m};
  }

  lemma FirstIsOldest(rows: map<JobId, Row>, eligible: set<JobId>, order: Order, m: JobId, rest: seq<Snap>)
    requires eligible <= rows.Keys && m in eligible
    requires forall j :: j in eligible ==> Age(order, rows[m]) <= Age(order, rows[j])
    requires forall i :: 0 <= i < |rest| ==> rest[i].job in eligible
    requires forall i, k :: 0 <= i < k < |rest| ==> Age(order, rows[rest[i].job]) <= Age(order, rows[rest[k].job])
    ensures var page := [Snap(m, rows[m].version)] + rest;
            && (forall i :: 0 <= i < |page| ==> page[i].job in eligible)
            && forall i, k :: 0 <= i < k < |page| ==> Age(order, rows[page[i].job]) <= Age(order, rows[page[k].job])
  {
    hide Age;
    var page := [Snap(m, rows[m].version)] + rest;
    assert forall i :: 0 < i < |page| ==> page[i] == rest[i - 1];
  }

  lemma FirstOfPage(rows: map<JobId, Row>, eligible: set<JobId>, order: Order, size: nat, m: JobId, rest: seq<Snap>)
    requires eligible <= rows.Keys && m in eligible && size > 0
    requires forall j :: j in eligible ==> Age(order, rows[m]) <= Age(order, rows[j])
    requires IsPage(rows, eligible - {m}, order, size - 1, rest)
    ensures IsPage(rows, eligible, order, size, [Snap(m, rows[m].version)] + rest)
  {
    var page := [Snap(m, rows[m].version)] + rest;
    FirstIsCurrent(rows, eligible, m, rest);
    FirstIsOldest(rows, eligible, order, m, rest);
    FirstJob(page[0], rest);
    hide Current, JobsOf, Age;
    forall j | j in eligible && j !in JobsOf(page)
      ensures |page| == size && forall i :: 0 <= i < |page| ==> Age(order, rows[page[i].job]) <= Age(order, rows[j])
    {
      assert forall i :: 0 < i < |page| ==> page[i] == rest[i - 1];
    }
  }

  /** All snapshots of a set of jobs, in some order. */
  lemma SnapshotsExist(rows: map<JobId, Row>, jobs: set<JobId>) returns (page: seq<Snap>)
    requires jobs <= rows.Keys
    ensures Current(rows, jobs, page) && jobs <= JobsOf(page)
  {
    page := PageExists(rows, jobs, ByUpdate, |jobs|);
    var distinct := JobsOf(page);
    if j :| j in jobs && j !in distinct {
      JobsOfSize(page);
      assert distinct <= jobs - {j};
      SmallerSet(distinct, jobs);
      assert false;
    }
  }

  // ----- workers -----

  function Backlog(q: Queues): nat {
    |q[0]| + |q[1]| + |q[2]| + |q[3]| + |q[4]|
  }

  /** The list a scan of `waitForJob` pops from. */
  lemma FirstNonEmpty(q: Queues, j: JobId) returns (list: nat)
    requires Waiting(q, j)
    ensures list <= MAIN && q[list] != [] && forall i :: 0 <= i < list ==> q[i] == []
    ensures Backlog(Pop(q, list)) < Backlog(q)
  {
    list := 0;
    while q[list] == []
      invariant list <= MAIN && forall i :: 0 <= i < list ==> q[i] == []
      invariant exists i :: list <= i <= MAIN && j in q[i]
      decreases MAIN - list
    {
      list := list + 1;
    }
  }

  function LastOf(l: seq<JobId>): JobId
    requires l != []
  {
    l[|l| - 1]
  }

  lemma PopsEntry(s: World, a: nat, list: nat, w: WorkerId)
    requires a !in s.attempts && list <= MAIN && s.queues[list] != []
    ensures Enabled(s, ByWorker(a, PopJob(w, list)))
    ensures Apply(s, ByWorker(a, PopJob(w, list))) ==
              s.(queues := Pop(s.queues, list),
                 attempts := s.attempts[a := Attempt(w, LastOf(s.queues[list]), Reading)])
  {
    hide Pop;
  }

  lemma ReadsRow(s: World, a: nat)
    requires a in s.attempts && s.attempts[a].pc.Reading?
    ensures Enabled(s, ByWorker(a, ReadJob))
    ensures var at := s.attempts[a];
            var s' := Apply(s, ByWorker(a, ReadJob));
            && s'.rows == s.rows && s'.queues == s.queues && s'.now == s.now
            && s'.attempts == if at.job in s.rows && s.rows[at.job].status.Queued?
                              then s.attempts[a := at.(pc := Claiming(s.rows[at.job].version))] else s.attempts - {a}
  {
  }

  lemma ClaimsRow(s: World, a: nat)
    requires a in s.attempts && s.attempts[a].job in s.rows && s.rows[s.attempts[a].job].status.Queued?
    requires s.attempts[a].pc == Claiming(s.rows[s.attempts[a].job].version)
    ensures Enabled(s, ByWorker(a, Claim))
    ensures var at := s.attempts[a];
            var s' := Apply(s, ByWorker(a, Claim));
            && s'.rows == s.rows[at.job := Claimed(s.rows[at.job], at.worker, s.now)] && s'.queues == s.queues
            && s'.attempts == s.attempts[a := at.(pc := Working(s.rows[at.job].version + 1))]
  {
  }

  /** The job has just been claimed by attempt `a`. */
  ghost predicate HasClaimed(s: World, a: nat, j: JobId) {
    && a in s.attempts && s.attempts[a].job == j && j in s.rows && s.attempts[a].pc.Working?
    && CompleteGuard(s.rows[j], s.attempts[a].pc.version, s.attempts[a].worker)
  }

  lemma CompletesRow(s: World, a: nat, j: JobId)
    requires HasClaimed(s, a, j) && j !in s.results
    ensures Enabled(s, ByWorker(a, Complete))
    ensures var s' := Apply(s, ByWorker(a, Complete));
            && s'.rows == s.rows[j := Succeeded(s.rows[j], s.now)] && s'.queues == s.queues
            && s'.attempts == s.attempts[a := s.attempts[a].(pc := Cleaning(false))]
  {
  }

  lemma CleansUp(s: World, a: nat)
    requires a in s.attempts && s.attempts[a].pc.Cleaning?
    ensures Enabled(s, ByWorker(a, CleanUp))
    ensures var s' := Apply(s, ByWorker(a, CleanUp));
            && s'.rows == s.rows && (forall i :: 0 <= i <= MAIN ==> s'.queues[i] == s.queues[i])
            && multiset(s'.queues[PROCESSING]) == multiset(s.queues[PROCESSING]) - multiset{s.attempts[a].job}
            && s'.attempts == if s.attempts[a].pc == Cleaning(false)
                              then s.attempts[a := s.attempts[a].(pc := WrappingUp)] else s.attempts - {a}
  {
    RemoveFirstMultiset(s.queues[PROCESSING], s.attempts[a].job);
  }

  lemma WrapsUp(s: World, a: nat)
    requires a in s.attempts && s.attempts[a].pc.WrappingUp?
    ensures Enabled(s, ByWorker(a, WrapUp))
    ensures var s' := Apply(s, ByWorker(a, WrapUp));
            s'.rows == s.rows && s'.queues == s.queues && s'.attempts == s.attempts - {a}
  {
  }

  lemma Collides(s: World, a: nat, j: JobId)
    requires HasClaimed(s, a, j) && j in s.results
    ensures Enabled(s, ByWorker(a, Complete))
    ensures var s' := Apply(s, ByWorker(a, Complete));
            && s'.rows == s.rows && s'.queues == s.queues && s'.now == s.now
            && s'.attempts == s.attempts[a := s.attempts[a].(pc := FailReading)]
  {
  }

  lemma ReadsFresh(s: World, a: nat, j: JobId)
    requires a in s.attempts && s.attempts[a].job == j && s.attempts[a].pc.FailReading? && j in s.rows
    ensures Enabled(s, ByWorker(a, ReadFresh))
    ensures var s' := Apply(s, ByWorker(a, ReadFresh));
            var v, n := s.rows[j].version, s.rows[j].retryCount;
            && s'.rows == s.rows && s'.queues == s.queues && s'.now == s.now
            && s'.attempts == s.attempts[a := s.attempts[a].(
                 pc := if n < MAX_RETRIES then RetryWriting(v, n) else FailWriting(v, n))]
  {
  }

  /** The catch block has read the row and is about to write it. */
  ghost predicate FailsNext(s: World, a: nat, j: JobId) {
    && a in s.attempts && s.attempts[a].job == j && j in s.rows
    && (s.attempts[a].pc.RetryWriting? || s.attempts[a].pc.FailWriting?)
    && FailureGuard(s.rows[j], s.attempts[a].pc.version, s.attempts[a].worker)
  }

  lemma WritesOff(s: World, a: nat, j: JobId) returns (t: WorkerStep)
    requires FailsNext(s, a, j)
    ensures (t.WriteRetry? || t.WriteFailure?) && Enabled(s, ByWorker(a, t))
    ensures var s' := Apply(s, ByWorker(a, t));
            && s'.rows == s.rows[j := s'.rows[j]] && (s'.rows[j].status.Retrying? || s'.rows[j].status.Failed?)
            && s'.queues == s.queues
            && s'.attempts == s.attempts[a := s.attempts[a].(pc := Cleaning(true))]
  {
    var pc := s.attempts[a].pc;
    t := if pc.RetryWriting? then WriteRetry(s.now + 1000 * RetryDelay(pc.retryCount + 1)) else WriteFailure;
  }

  /** A claimed job leaves QUEUED for good in this attempt, others are left alone. */
  ghost predicate Settles(s: World, s': World, j: JobId) {
    && s'.rows.Keys == s.rows.Keys && j in s'.rows && !s'.rows[j].status.Queued?
    && (forall m :: m in s.rows && m != j ==> s'.rows[m] == s.rows[m])
  }

  /** One entry of `j` leaves `processing-queue`, if there is one, and no other entry
      any list. */
  ghost predicate Unlists(s: World, s': World, j: JobId) {
    && (forall i :: 0 <= i <= MAIN ==> s'.queues[i] == s.queues[i])
    && multiset(s'.queues[PROCESSING]) == multiset(s.queues[PROCESSING]) - multiset{j}
  }

  /** The end of an attempt whose last database write is done. */
  lemma Leaves(s: World, a: nat) returns (ts: seq<Step>, s': World)
    requires Sane(s) && a in s.attempts && s.attempts[a].pc.Cleaning?
    ensures Goes(s, ts, s') && Sane(s') && s'.attempts.Keys == s.attempts.Keys - {a} && s'.rows == s.rows
    ensures Unlists(s, s', s.attempts[a].job)
    ensures forall t :: t in ts ==> !Pops(t)
  {
    hide Apply, Enabled, Sane, Goes;
    CleansUp(s, a);
    ts, s' := [ByWorker(a, CleanUp)], Apply(s, ByWorker(a, CleanUp));
    GoesOnce(s, ByWorker(a, CleanUp));
    if s.attempts[a].pc == Cleaning(false) {
      WrapsUp(s', a);
      GoesBy(s, ts, s', ByWorker(a, WrapUp));
      ts, s' := ts + [ByWorker(a, WrapUp)], Apply(s', ByWorker(a, WrapUp));
    }
  }

  /** The database writes of an attempt that has claimed its job: the completion, or
      the catch block where a result is stored already. */
  lemma Concludes(s: World, a: nat, j: JobId) returns (ts: seq<Step>, s': World)
    requires Sane(s) && HasClaimed(s, a, j)
    ensures Goes(s, ts, s') && Sane(s') && s'.attempts.Keys == s.attempts.Keys
    ensures a in s'.attempts && s'.attempts[a].pc.Cleaning? && s'.attempts[a].job == j
    ensures Settles(s, s', j) && s'.queues == s.queues
    ensures forall t :: t in ts ==> !Pops(t)
  {
    hide Apply, Enabled, Sane, Goes;
    ts, s' := [ByWorker(a, Complete)], s;
    if j !in s.results {
      CompletesRow(s, a, j);
      s' := Apply(s, ByWorker(a, Complete));
      GoesOnce(s, ByWorker(a, Complete));
    } else {
      Collides(s, a, j);
      GoesOnce(s, ByWorker(a, Complete));
      var s1 := Apply(s, ByWorker(a, Complete));
      ReadsFresh(s1, a, j);
      GoesBy(s, ts, s1, ByWorker(a, ReadFresh));
      var s2 := Apply(s1, ByWorker(a, ReadFresh));
      var t := WritesOff(s2, a, j);
      ts := ts + [ByWorker(a, ReadFresh)];
      GoesBy(s, ts, s2, ByWorker(a, t));
      ts, s' := ts + [ByWorker(a, t)], Apply(s2, ByWorker(a, t));
    }
  }

  /** A claimed job is done with and the attempt ends. */
  lemma Finishes(s: World, a: nat, j: JobId) returns (ts: seq<Step>, s': World)
    requires Sane(s) && HasClaimed(s, a, j)
    ensures Goes(s, ts, s') && Sane(s') && s'.attempts.Keys == s.attempts.Keys - {a}
    ensures Settles(s, s', j) && Unlists(s, s', j)
    ensures forall t :: t in ts ==> !Pops(t)
  {
    hide Sane, Goes;
    var u, us;
    ts, u := Concludes(s, a, j);
    us, s' := Leaves(u, a);
    GoesOn(s, ts, u, us, s');
    ts := ts + us;
  }

  /** Worker `w` pops one entry and reads the row.  If that is QUEUED it claims the
      job, and `a` is the attempt; otherwise the attempt is over. */
  lemma PopAndClaim(s: World, list: nat, w: WorkerId) returns (ts: seq<Step>, s': World, a: nat)
    requires Sane(s) && list <= MAIN && s.queues[list] != []
    ensures Goes(s, ts, s') && Sane(s') && s'.queues == Pop(s.queues, list)
    ensures var j := LastOf(s.queues[list]);
            if j in s.rows && s.rows[j].status.Queued?
            then && EndsInClaim(s, ts, j, w) && s'.rows == s.rows[j := Claimed(s.rows[j], w, s.now)]
                 && a !in s.attempts && s'.attempts.Keys == s.attempts.Keys + {a} && HasClaimed(s', a, j)
            else s'.rows == s.rows && s'.attempts.Keys == s.attempts.Keys
  {
    hide Apply, Enabled, Pop, Sane, Orderly;
    var j := LastOf(s.queues[list]);
    a := FreshNumber(s.attempts.Keys);
    var pop, read, claim := ByWorker(a, PopJob(w, list)), ByWorker(a, ReadJob), ByWorker(a, Claim);
    PopsEntry(s, a, list, w);
    var s1 := Apply(s, pop);
    assert s1.attempts.Keys == s.attempts.Keys + {a};
    GoesOnce(s, pop);
    ReadsRow(s1, a);
    var s2 := Apply(s1, read);
    GoesBy(s, [pop], s1, read);
    ts, s' := [pop] + [read], s2;
    if j in s.rows && s.rows[j].status.Queued? {
      ClaimsRow(s2, a);
      assert s2.attempts.Keys == s.attempts.Keys + {a};
      s' := Apply(s2, claim);
      assert s'.attempts.Keys == s2.attempts.Keys + {a};
      GoesBy(s, ts, s2, claim);
      assert (ts + [claim])[..|ts + [claim]| - 1] == ts;
      ts := ts + [claim];
    }
  }

  /** QUEUED, and waiting in a list that workers poll. */
  ghost predicate Ready(s: World, j: JobId) {
    j in s.rows && s.rows[j].status.Queued? && Waiting(s.queues, j)
  }

  /** Job `k` is no longer QUEUED; no other row has changed, and what was ready is. */
  ghost predicate Takes(s: World, s': World, k: JobId) {
    && k in s.rows && s.rows[k].status.Queued?
    && s'.rows.Keys == s.rows.Keys && !s'.rows[k].status.Queued?
    && (forall m :: m in s.rows && m != k ==> s'.rows[m] == s.rows[m])
    && forall m :: m != k && Ready(s, m) ==> Ready(s', m)
  }

  /** A whole attempt leaves `processing-queue` with the entries it had before the pop. */
  lemma PoppedAndUnlisted(s: World, list: nat, u: World, s': World)
    requires list <= MAIN && s.queues[list] != [] && u.queues == Pop(s.queues, list)
    requires Unlists(u, s', LastOf(s.queues[list]))
    ensures multiset(s'.queues[PROCESSING]) == multiset(s.queues[PROCESSING])
    ensures forall i :: 0 <= i <= MAIN ==>
              s'.queues[i] == if i == list then s.queues[i][..|s.queues[i]| - 1] else s.queues[i]
  {
  }

  /** Entries of QUEUED jobs in `processing-queue` are as many as before. */
  ghost predicate KeepsListed(s: World, s': World) {
    forall m :: m in s.rows && s.rows[m].status.Queued? ==>
                  multiset(s'.queues[PROCESSING])[m] == multiset(s.queues[PROCESSING])[m]
  }

  lemma PopsOther(s: World, list: nat, u: World)
    requires list <= MAIN && s.queues[list] != [] && u.queues == Pop(s.queues, list)
    requires var k := LastOf(s.queues[list]); !(k in s.rows && s.rows[k].status.Queued?)
    ensures KeepsListed(s, u)
  {
  }

  /** The next entry is of a QUEUED job: it is claimed and done with. */
  lemma TakesNext(s: World, list: nat, u: World, a: nat, ts: seq<Step>, k: JobId) returns (us: seq<Step>, s': World)
    requires list <= MAIN && s.queues[list] != [] && k == LastOf(s.queues[list]) && Sane(u)
    requires k in s.rows && s.rows[k].status.Queued? && Goes(s, ts, u) && u.queues == Pop(s.queues, list)
    requires k in u.rows && u.rows == s.rows[k := u.rows[k]]
    requires a !in s.attempts && u.attempts.Keys == s.attempts.Keys + {a} && HasClaimed(u, a, k)
    ensures Leads(s, us, s') && Sane(s') && Takes(s, s', k) && KeepsListed(s, s')
  {
    hide Goes, Sane, Waiting, Pop;
    StaysReady(s, list, u);
    us, s' := Finishes(u, a, k);
    PoppedAndUnlisted(s, list, u, s');
    SameWaiting(u.queues, s'.queues);
    GoesOn(s, ts, u, us, s');
    us := ts + us;
  }

  /** While some QUEUED job waits in a list, a polling worker soon claims one, and
      before that claim no row changes.  `us` goes on until that job is done with. */
  lemma {:induction false} ClaimWaiting(s: World, j: JobId, w: WorkerId)
    returns (ts: seq<Step>, k: JobId, us: seq<Step>, s': World)
    requires Sane(s) && Ready(s, j)
    ensures EndsInClaim(s, ts, k, w)
    ensures Leads(s, us, s') && Sane(s') && Takes(s, s', k) && KeepsListed(s, s')
    decreases Backlog(s.queues)
  {
    hide Runs, After, Apply, Enabled, Goes, Sane, EndsInClaim, Waiting, Pop, HasClaimed;
    var list := FirstNonEmpty(s.queues, j);
    k := LastOf(s.queues[list]);
    var u, a;
    ts, u, a := PopAndClaim(s, list, w);
    if k in s.rows && s.rows[k].status.Queued? {
      us, s' := TakesNext(s, list, u, a, ts, k);
    } else {
      StaysReady(s, list, u);
      PopsOther(s, list, u);
      var vs := ts;
      ts, k, us, s' := ClaimWaiting(u, j, w);
      ClaimLater(s, vs, u, ts, k, w);
      LeadsOn(s, vs, u, us, s');
      ts, us := vs + ts, vs + us;
    }
  }

  lemma StaysReady(s: World, list: nat, u: World)
    requires list <= MAIN && s.queues[list] != [] && u.queues == Pop(s.queues, list)
    ensures forall m :: m != LastOf(s.queues[list]) && Ready(s, m) ==> Waiting(u.queues, m)
  {
    hide Waiting, Pop;
    forall m | m != LastOf(s.queues[list]) && Ready(s, m)
      ensures Waiting(u.queues, m)
    {
      StillWaiting(s.queues, list, m);
    }
  }

  lemma SameWaiting(q: Queues, q': Queues)
    requires forall i :: 0 <= i <= MAIN ==> q'[i] == q[i]
    ensures forall j :: Waiting(q', j) <==> Waiting(q, j)
  {
  }

  lemma StillWaiting(q: Queues, list: nat, j: JobId)
    requires list <= MAIN && q[list] != [] && Waiting(q, j) && LastOf(q[list]) != j
    ensures Waiting(Pop(q, list), j)
  {
    var i :| 0 <= i <= MAIN && j in q[i];
    var p := Pop(q, list);
    if i == list {
      var n :| 0 <= n < |q[i]| && q[i][n] == j;
      assert p[i][n] == j;
    } else {
      assert p[i] == q[i];
    }
  }
}
