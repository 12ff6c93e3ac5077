/** The sweeps as loops and the sweeps as steps are the same: a sweep that nothing
    disturbs is a run of the transition system with the same effect.  So what one
    uninterrupted pass heals is healed in every world the system reaches. */
module SweepRuns {
  import opened Jobs
  import opened RedisLists
  import opened Sweeps
  import opened Protocol
  import opened Fencing
  import LateWrites
  import LeaderPass
  import Monitoring
  import WorkerMonitor

  ghost predicate Reaches(s: World, ts: seq<Step>, s': World) {
    Runs(s, ts) && After(s, ts) == s'
  }

  lemma ReachesBy(s: World, ts: seq<Step>, u: World, t: Step)
    requires Reaches(s, ts, u) && Enabled(u, t)
    ensures Reaches(s, ts + [t], Apply(u, t))
  {
    hide Apply, Enabled;
    assert (ts + [t])[..|ts + [t]| - 1] == ts;
  }

  lemma ReachesOn(s: World, ts: seq<Step>, u: World, us: seq<Step>, s': World)
    requires Reaches(s, ts, u) && Reaches(u, us, s')
    ensures Reaches(s, ts + us, s')
  {
    hide Apply, Enabled;
    RunsAppend(s, ts, us);
  }

  /** Only the rows and the lists differ. */
  ghost predicate Aside(s: World, u: World) {
    u.attempts == s.attempts && u.calls == s.calls && u.results == s.results && u.now == s.now && u.roster == s.roster
  }

  /** Sweep `x` of `s` stands at `at`. */
  ghost predicate At(s: World, u: World, x: nat, at: Sweep) {
    Aside(s, u) && u.sweeps == s.sweeps[x := at]
  }

  function Holds(s: World): Store {
    Store(s.rows, s.queues)
  }

  ghost predicate OnlyAdvances(ts: seq<Step>, x: nat) {
    forall t :: t in ts ==> t == BySweep(x, Advance)
  }

  /** From its query to its end nothing but the next effect ever happens. */
  ghost predicate Undisturbed(ts: seq<Step>, x: nat, p: SweepStep) {
    && |ts| >= 2 && ts[0] == BySweep(x, p) && ts[|ts| - 1] == BySweep(x, Conclude)
    && OnlyAdvances(ts[1..|ts| - 1], x)
  }

  /** One more effect. */
  lemma Advances(s: World, u: World, x: nat) returns (v: World)
    requires x in u.sweeps && Moves(u.sweeps[x]) && At(s, u, x, u.sweeps[x])
    requires !u.sweeps[x].MonitorLoop? && !(u.sweeps[x].RecoverLoop? && u.sweeps[x].todo == [])
    ensures Reaches(u, [BySweep(x, Advance)], v) && OnlyAdvances([BySweep(x, Advance)], x)
    ensures At(s, v, x, NextAt(u, u.sweeps[x]))
    ensures var at := u.sweeps[x];
            && v.rows == (if Matches(u, at) then u.rows[Subject(at).job := NewRow(u.rows[Subject(at).job], at, u.now)]
                          else u.rows)
            && v.queues == (if IsPush(at) then Enqueue(u.queues, PriorityOf(u, Subject(at).job), Subject(at).job)
                            else if at.ScanRemoving? || at.RecoverRemoving? then Forget(u.queues, at.job)
                            else u.queues)
  {
    hide AdvanceApply, NextAt, Matches, NewRow, Enqueue, Forget;
    AdvanceRows(u, x, u.sweeps[x]);
    AdvanceRest(u, x, u.sweeps[x]);
    v := AdvanceApply(u, x, u.sweeps[x]);
    var t := BySweep(x, Advance);
    assert Reaches(u, [], u);
    ReachesBy(u, [], u, t);
    assert [] + [t] == [t];
  }

  lemma TwoAdvances(u: World, v: World, w: World, x: nat) returns (ts: seq<Step>)
    requires Reaches(u, [BySweep(x, Advance)], v) && Reaches(v, [BySweep(x, Advance)], w)
    ensures Reaches(u, ts, w) && OnlyAdvances(ts, x)
  {
    ReachesOn(u, [BySweep(x, Advance)], v, [BySweep(x, Advance)], w);
    ts := [BySweep(x, Advance)] + [BySweep(x, Advance)];
  }

  /** A query, the loop, and the end. */
  lemma Whole(s: World, x: nat, p: SweepStep, u: World, mid: seq<Step>, v: World) returns (ts: seq<Step>, s': World)
    requires x !in s.sweeps && SweepEnabled(s, x, p) && SweepApply(s, x, p) == u
    requires Reaches(u, mid, v) && OnlyAdvances(mid, x)
    requires x in v.sweeps && IsFinished(v.sweeps[x]) && At(s, v, x, v.sweeps[x])
    ensures Reaches(s, ts, s') && Undisturbed(ts, x, p)
    ensures Aside(s, s') && s'.sweeps == s.sweeps && Holds(s') == Holds(v)
  {
    hide Runs, After, IsFinished, IsPage, Current, OnlyAdvances;
    var first, last := BySweep(x, p), BySweep(x, Conclude);
    StartReaches(s);
    ReachesBy(s, [], s, first);
    assert [] + [first] == [first];
    ReachesOn(s, [first], u, mid, v);
    ReachesBy(s, [first] + mid, v, last);
    ts, s' := [first] + mid + [last], Apply(v, last);
    assert ts[1..|ts| - 1] == mid;
    assert s.sweeps[x := v.sweeps[x]] - {x} == s.sweeps;
  }

  lemma StartReaches(s: World)
    ensures Reaches(s, [], s)
  {
  }

  lemma NoSteps(u: World, x: nat)
    ensures Reaches(u, [], u) && OnlyAdvances([], x)
  {
  }

  lemma Longer(u: World, mid: seq<Step>, v: World, more: seq<Step>, w: World, x: nat)
    requires Reaches(u, mid, v) && OnlyAdvances(mid, x) && Reaches(v, more, w) && OnlyAdvances(more, x)
    ensures Reaches(u, mid + more, w) && OnlyAdvances(mid + more, x)
  {
    ReachesOn(u, mid, v, more, w);
  }

  // ----- processRetries -----

  ghost predicate RetriedSoFar(s: World, u: World, x: nat, page: seq<Snap>, i: nat)
    requires i <= |page|
  {
    && At(s, u, x, RetryLoop(page[i..])) && u.rows == AfterRetries(s.rows, JobsOf(page[..i]), {}, s.now)
    && (forall j :: j in Chosen(page[..i], {}) ==> j in s.rows)
    && u.queues == PushAll(s.queues, s.rows, Chosen(page[..i], {}))
  }

  lemma RetryTurn(s: World, u: World, x: nat, page: seq<Snap>, i: nat) returns (ts: seq<Step>, v: World)
    requires IsPage(s.rows, DueJobs(s.rows, s.now), ByUpdate, PAGE_SIZE, page) && i < |page|
    requires RetriedSoFar(s, u, x, page, i)
    ensures Reaches(u, ts, v) && OnlyAdvances(ts, x) && RetriedSoFar(s, v, x, page, i + 1)
  {
    hide Runs, After, IsPage, AfterRetries, PushAll, Chosen, Enqueue, JobsOf, OnlyAdvances;
    LeaderPass.RetriesTurn(s.rows, s.queues, page, i, {}, {}, s.now);
    assert page[i..][1..] == page[i + 1..] && page[i..][0] == page[i];
    var mid := Advances(s, u, x);
    v := Advances(s, mid, x);
    ts := TwoAdvances(u, mid, v, x);
  }

  lemma RetriesAsRun(s: World, x: nat, page: seq<Snap>) returns (ts: seq<Step>, s': World)
    requires x !in s.sweeps && IsPage(s.rows, DueJobs(s.rows, s.now), ByUpdate, PAGE_SIZE, page)
    ensures Reaches(s, ts, s') && Undisturbed(ts, x, FindRetries(page)) && Aside(s, s') && s'.sweeps == s.sweeps
    ensures JobsOf(page) <= s.rows.Keys && Holds(s') == LeaderPass.Retried(Holds(s), page, s.now)
  {
    hide Runs, After, IsPage, AfterRetries, PushAll, Chosen, JobsOf, OnlyAdvances, Undisturbed;
    LeaderPass.PageInside(s.rows, DueJobs(s.rows, s.now), ByUpdate, PAGE_SIZE, page);
    LeaderPass.NothingDone(s.rows, s.queues, page, {}, {}, s.now);
    var u := SweepApply(s, x, FindRetries(page));
    var mid: seq<Step>, v, i := [], u, 0;
    NoSteps(u, x);
    assert page[0..] == page;
    while i < |page|
      invariant i <= |page| && Reaches(u, mid, v) && OnlyAdvances(mid, x) && RetriedSoFar(s, v, x, page, i)
    {
      var more, w := RetryTurn(s, v, x, page, i);
      Longer(u, mid, v, more, w, x);
      mid, v, i := mid + more, w, i + 1;
    }
    assert page[..i] == page && page[i..] == [];
    ts, s' := Whole(s, x, FindRetries(page), u, mid, v);
  }

  // ----- processPendingJobs -----

  ghost predicate DispatchedSoFar(s: World, u: World, x: nat, page: seq<Snap>, i: nat)
    requires i <= |page|
  {
    && At(s, u, x, PendingLoop(page[i..])) && u.rows == AfterPending(s.rows, JobsOf(page[..i]), {}, s.now)
    && (forall j :: j in Chosen(page[..i], {}) ==> j in s.rows)
    && u.queues == PushAll(s.queues, s.rows, Chosen(page[..i], {}))
  }

  lemma PendingTurn(s: World, u: World, x: nat, page: seq<Snap>, i: nat) returns (ts: seq<Step>, v: World)
    requires IsPage(s.rows, AgedJobs(s.rows, s.now), ByCreation, PAGE_SIZE, page) && i < |page|
    requires DispatchedSoFar(s, u, x, page, i)
    ensures Reaches(u, ts, v) && OnlyAdvances(ts, x) && DispatchedSoFar(s, v, x, page, i + 1)
  {
    hide Runs, After, IsPage, AfterPending, PushAll, Chosen, Enqueue, JobsOf, OnlyAdvances;
    LeaderPass.PendingTurn(s.rows, s.queues, page, i, {}, {}, s.now);
    assert page[i..][1..] == page[i + 1..] && page[i..][0] == page[i];
    var mid := Advances(s, u, x);
    v := Advances(s, mid, x);
    ts := TwoAdvances(u, mid, v, x);
  }

  lemma PendingAsRun(s: World, x: nat, page: seq<Snap>) returns (ts: seq<Step>, s': World)
    requires x !in s.sweeps && IsPage(s.rows, AgedJobs(s.rows, s.now), ByCreation, PAGE_SIZE, page)
    ensures Reaches(s, ts, s') && Undisturbed(ts, x, FindPending(page)) && Aside(s, s') && s'.sweeps == s.sweeps
    ensures JobsOf(page) <= s.rows.Keys && Holds(s') == LeaderPass.Reconciled(Holds(s), page, s.now)
  {
    hide Runs, After, IsPage, AfterPending, PushAll, Chosen, JobsOf, OnlyAdvances, Undisturbed;
    LeaderPass.PageInside(s.rows, AgedJobs(s.rows, s.now), ByCreation, PAGE_SIZE, page);
    LeaderPass.NothingDone(s.rows, s.queues, page, {}, {}, s.now);
    var u := SweepApply(s, x, FindPending(page));
    var mid: seq<Step>, v, i := [], u, 0;
    NoSteps(u, x);
    assert page[0..] == page;
    while i < |page|
      invariant i <= |page| && Reaches(u, mid, v) && OnlyAdvances(mid, x) && DispatchedSoFar(s, v, x, page, i)
    {
      var more, w := PendingTurn(s, v, x, page, i);
      Longer(u, mid, v, more, w, x);
      mid, v, i := mid + more, w, i + 1;
    }
    assert page[..i] == page && page[i..] == [];
    ts, s' := Whole(s, x, FindPending(page), u, mid, v);
  }

  // ----- processStaleQueuedJobs -----

  /** The lookups from list `k` on: on to the next job if one of them finds the ID. */
  lemma {:induction false} Looks(s: World, u: World, x: nat, c: Snap, k: nat, todo: seq<Snap>)
    returns (ts: seq<Step>, v: World)
    requires 1 <= k <= PROCESSING && At(s, u, x, StaleLooking(c, k, todo))
    requires forall i :: 0 <= i < k ==> c.job !in u.queues[i]
    ensures Reaches(u, ts, v) && OnlyAdvances(ts, x) && Holds(v) == Holds(u)
    ensures At(s, v, x, if InAnyList(u.queues, c.job) then StaleLoop(todo) else StaleWriting(c, todo))
    decreases PROCESSING - k
  {
    hide Runs, After, OnlyAdvances;
    v := Advances(s, u, x);
    ts := [BySweep(x, Advance)];
    if c.job !in u.queues[k] && k < PROCESSING {
      var mid := v;
      var more;
      more, v := Looks(s, mid, x, c, k + 1, todo);
      Longer(u, ts, mid, more, v, x);
      ts := ts + more;
    }
  }

  lemma FirstLook(s: World, u: World, x: nat, c: Snap, todo: seq<Snap>) returns (ts: seq<Step>, v: World)
    requires At(s, u, x, StaleLoop([c] + todo))
    ensures Reaches(u, ts, v) && OnlyAdvances(ts, x) && Holds(v) == Holds(u)
    ensures At(s, v, x, if InAnyList(u.queues, c.job) then StaleLoop(todo) else StaleWriting(c, todo))
  {
    hide Runs, After, OnlyAdvances;
    assert ([c] + todo)[1..] == todo && ([c] + todo)[0] == c;
    v := Advances(s, u, x);
    ts := [BySweep(x, Advance)];
    if c.job !in u.queues[0] {
      var mid := v;
      var more;
      more, v := Looks(s, mid, x, c, 1, todo);
      Longer(u, ts, mid, more, v, x);
      ts := ts + more;
    }
  }

  ghost predicate RestoredSoFar(s: World, u: World, x: nat, page: seq<Snap>, i: nat)
    requires i <= |page|
  {
    var listed := ListedJobs(s.queues);
    && At(s, u, x, StaleLoop(page[i..])) && u.rows == AfterStale(s.rows, JobsOf(page[..i]), listed, s.now)
    && (forall j :: j in Chosen(page[..i], listed) ==> j in s.rows)
    && u.queues == PushAll(s.queues, s.rows, Chosen(page[..i], listed))
  }

  lemma StaleTurn(s: World, u: World, x: nat, page: seq<Snap>, i: nat) returns (ts: seq<Step>, v: World)
    requires IsPage(s.rows, StaleJobs(s.rows, s.now), ByUpdate, PAGE_SIZE, page) && i < |page|
    requires RestoredSoFar(s, u, x, page, i)
    ensures Reaches(u, ts, v) && OnlyAdvances(ts, x) && RestoredSoFar(s, v, x, page, i + 1)
  {
    hide Runs, After, IsPage, AfterStale, PushAll, Chosen, Enqueue, JobsOf, OnlyAdvances, InAnyList, ListedJobs;
    LeaderPass.StaleRow(s.rows, page, i, ListedJobs(s.queues), s.now);
    LeaderPass.StalePush(s.rows, s.queues, page, i, ListedJobs(s.queues), s.now);
    assert page[i..] == [page[i]] + page[i + 1..];
    ts, v := FirstLook(s, u, x, page[i], page[i + 1..]);
    if page[i].job !in ListedJobs(s.queues) {
      var found := v;
      var mid := Advances(s, found, x);
      v := Advances(s, mid, x);
      var more := TwoAdvances(found, mid, v, x);
      Longer(u, ts, found, more, v, x);
      ts := ts + more;
    }
  }

  lemma StaleAsRun(s: World, x: nat, page: seq<Snap>) returns (ts: seq<Step>, s': World)
    requires x !in s.sweeps && IsPage(s.rows, StaleJobs(s.rows, s.now), ByUpdate, PAGE_SIZE, page)
    ensures Reaches(s, ts, s') && Undisturbed(ts, x, FindStale(page)) && Aside(s, s') && s'.sweeps == s.sweeps
    ensures JobsOf(page) <= s.rows.Keys && Holds(s') == LeaderPass.Restored(Holds(s), page, s.now)
  {
    hide Runs, After, IsPage, AfterStale, PushAll, Chosen, JobsOf, OnlyAdvances, Undisturbed, ListedJobs;
    LeaderPass.PageInside(s.rows, StaleJobs(s.rows, s.now), ByUpdate, PAGE_SIZE, page);
    LeaderPass.NothingDone(s.rows, s.queues, page, ListedJobs(s.queues), ListedJobs(s.queues), s.now);
    var u := SweepApply(s, x, FindStale(page));
    var mid: seq<Step>, v, i := [], u, 0;
    NoSteps(u, x);
    assert page[0..] == page;
    while i < |page|
      invariant i <= |page| && Reaches(u, mid, v) && OnlyAdvances(mid, x) && RestoredSoFar(s, v, x, page, i)
    {
      var more, w := StaleTurn(s, v, x, page, i);
      Longer(u, mid, v, more, w, x);
      mid, v, i := mid + more, w, i + 1;
    }
    assert page[..i] == page && page[i..] == [];
    ts, s' := Whole(s, x, FindStale(page), u, mid, v);
  }

  // ----- recoverProcessingQueue -----

  ghost predicate ScannedSoFar(s: World, u: World, x: nat, ids: seq<JobId>, i: nat)
    requires i <= |ids|
  {
    At(s, u, x, ScanLoop(ids[i..])) && Holds(u) == ScanAll(Holds(s), ids[..i], s.now)
  }

  /** Reading one entry's row, and what follows from it. */
  lemma ScanTurn(s: World, u: World, x: nat, j: JobId, rest: seq<JobId>) returns (ts: seq<Step>, v: World)
    requires At(s, u, x, ScanLoop([j] + rest))
    ensures Reaches(u, ts, v) && OnlyAdvances(ts, x)
    ensures At(s, v, x, ScanLoop(rest)) && Holds(v) == ScanOne(Holds(u), j, s.now)
  {
    hide Runs, After, OnlyAdvances, Enqueue, Forget;
    assert ([j] + rest)[1..] == rest && ([j] + rest)[0] == j;
    var read := Advances(s, u, x);
    ts, v := [BySweep(x, Advance)], read;
    if Dead(u.rows, j) {
      v := Advances(s, read, x);
      ts := TwoAdvances(u, read, v, x);
    } else if Stranded(u.rows[j], s.now) {
      var more;
      more, v := RestoreTurn(s, u, read, x, j, rest);
      Longer(u, ts, read, more, v, x);
      ts := ts + more;
    }
  }

  /** A stranded entry: the row is refreshed, the job pushed, the entry removed. */
  lemma RestoreTurn(s: World, u: World, read: World, x: nat, j: JobId, rest: seq<JobId>)
    returns (ts: seq<Step>, v: World)
    requires j in u.rows && Stranded(u.rows[j], s.now) && u.now == s.now
    requires At(s, read, x, ScanWriting(Snap(j, u.rows[j].version), rest)) && Holds(read) == Holds(u)
    ensures Reaches(read, ts, v) && OnlyAdvances(ts, x) && At(s, v, x, ScanLoop(rest))
    ensures Holds(v) == Store(u.rows[j := Refreshed(u.rows[j], s.now)],
                              Forget(Enqueue(u.queues, u.rows[j].priority, j), j))
  {
    hide Runs, After, OnlyAdvances, Enqueue, Forget;
    var written := Advances(s, read, x);
    var pushed := Advances(s, written, x);
    v := Advances(s, pushed, x);
    ts := TwoAdvances(read, written, pushed, x);
    Longer(read, ts, pushed, [BySweep(x, Advance)], v, x);
    ts := ts + [BySweep(x, Advance)];
  }

  lemma ScanAsRun(s: World, x: nat) returns (ts: seq<Step>, s': World)
    requires x !in s.sweeps
    ensures Reaches(s, ts, s') && Undisturbed(ts, x, ListProcessing) && Aside(s, s') && s'.sweeps == s.sweeps
    ensures Holds(s') == LeaderPass.Scanned(Holds(s), s.now)
  {
    hide Runs, After, OnlyAdvances, Undisturbed, ScanOne;
    var ids := s.queues[PROCESSING];
    var u := SweepApply(s, x, ListProcessing);
    var mid: seq<Step>, v, i := [], u, 0;
    NoSteps(u, x);
    assert ids[0..] == ids;
    while i < |ids|
      invariant i <= |ids| && Reaches(u, mid, v) && OnlyAdvances(mid, x) && ScannedSoFar(s, v, x, ids, i)
    {
      assert ids[i..] == [ids[i]] + ids[i + 1..] && ids[..i + 1][..i] == ids[..i];
      var more, w := ScanTurn(s, v, x, ids[i], ids[i + 1..]);
      Longer(u, mid, v, more, w, x);
      mid, v, i := mid + more, w, i + 1;
    }
    assert ids[..i] == ids && ids[i..] == [];
    ts, s' := Whole(s, x, ListProcessing, u, mid, v);
  }

  // ----- monitorWorkers -----

  lemma RosterAdvance(u: World, x: nat) returns (v: World)
    requires x in u.sweeps && Moves(u.sweeps[x])
    requires u.sweeps[x].MonitorLoop? || (u.sweeps[x].RecoverLoop? && u.sweeps[x].todo == [])
    ensures Reaches(u, [BySweep(x, Advance)], v)
    ensures v == u.(roster := NewRoster(u.roster, u.sweeps[x], u.now), sweeps := u.sweeps[x := NextAt(u, u.sweeps[x])])
  {
    hide NextAt, NewRoster;
    v := AdvanceApply(u, x, u.sweeps[x]);
    var t := BySweep(x, Advance);
    assert Reaches(u, [], u);
    ReachesBy(u, [], u, t);
    assert [] + [t] == [t];
  }

  ghost predicate RecoveredSoFar(s: World, u: World, x: nat, page: seq<Snap>, i: nat)
    requires i <= |page| && x in s.sweeps && s.sweeps[x].Condemning?
  {
    var c := s.sweeps[x];
    && At(s, u, x, RecoverLoop(c.scheduler, c.dead, page[i..], c.workers))
    && u.rows == AfterRecovery(s.rows, JobsOf(page[..i]), s.now)
    && u.queues == ForgetAll(s.queues, Chosen(page[..i], {}))
  }

  lemma RecoverTurn(s: World, u: World, x: nat, page: seq<Snap>, i: nat) returns (ts: seq<Step>, v: World)
    requires x in s.sweeps && s.sweeps[x].Condemning? && i < |page|
    requires Current(s.rows, RunningJobs(s.rows, s.sweeps[x].dead), page) && RecoveredSoFar(s, u, x, page, i)
    ensures Reaches(u, ts, v) && OnlyAdvances(ts, x) && RecoveredSoFar(s, v, x, page, i + 1)
  {
    hide Runs, After, AfterRecovery, ForgetAll, Chosen, Forget, JobsOf, OnlyAdvances;
    LeaderPass.RecoveryTurn(s.rows, s.sweeps[x].dead, page, i, s.now);
    LeaderPass.NextForget(s.queues, Chosen(page[..i], {}), page[i].job);
    assert page[i..][1..] == page[i + 1..] && page[i..][0] == page[i];
    var mid := Advances(s, u, x);
    v := Advances(s, mid, x);
    ts := TwoAdvances(u, mid, v, x);
  }

  /** From the third miss until the worker is off the list. */
  lemma RecoverAsRun(s: World, x: nat, page: seq<Snap>) returns (ts: seq<Step>, s': World)
    requires SweepEnabled(s, x, FindRunning(page))
    ensures Reaches(s, [BySweep(x, FindRunning(page))] + ts, s') && OnlyAdvances(ts, x)
    ensures var c := s.sweeps[x];
            s' == s.(rows := s'.rows, queues := s'.queues, tallies := s'.tallies, retryPushes := s'.retryPushes,
                     sweeps := s.sweeps[x := MonitorLoop(c.scheduler, c.workers)],
                     roster := s.roster.(active := s.roster.active - {c.dead}))
    ensures Holds(s') == RecoveredFrom(Holds(s), s.sweeps[x].dead, page, s.now)
  {
    hide Runs, After, AfterRecovery, ForgetAll, Chosen, JobsOf, OnlyAdvances, Current;
    var first := BySweep(x, FindRunning(page));
    LeaderPass.NothingDone(s.rows, s.queues, page, {}, {}, s.now);
    StartReaches(s);
    ReachesBy(s, [], s, first);
    assert [] + [first] == [first];
    var u := Apply(s, first);
    var v, i := u, 0;
    ts := [];
    NoSteps(u, x);
    assert page[0..] == page;
    while i < |page|
      invariant i <= |page| && Reaches(u, ts, v) && OnlyAdvances(ts, x) && RecoveredSoFar(s, v, x, page, i)
    {
      var more, w := RecoverTurn(s, v, x, page, i);
      Longer(u, ts, v, more, w, x);
      ts, v, i := ts + more, w, i + 1;
    }
    assert page[..i] == page && page[i..] == [];
    LeaderPass.SamePage(s.rows, RunningJobs(s.rows, s.sweeps[x].dead), page);
    s' := RosterAdvance(v, x);
    OneAdvance(x);
    Longer(u, ts, v, [BySweep(x, Advance)], s', x);
    ts := ts + [BySweep(x, Advance)];
    ReachesOn(s, [first], u, ts, s');
  }

  lemma OneAdvance(x: nat)
    ensures OnlyAdvances([BySweep(x, Advance)], x)
  {
  }

  /** The workers that scheduler `m` will find alive. */
  function AliveNow(s: World, workers: seq<WorkerId>): set<WorkerId> {
    set w | w in workers && KeyAlive(s.roster, w, s.now)
  }

  /** Those of the workers who are declared dead. */
  function Gone(workers: seq<WorkerId>, missed: map<WorkerId, nat>, alive: set<WorkerId>): set<WorkerId> {
    set w | w in workers && DiesNow(missed, w, alive)
  }

  lemma GoneAdds(workers: seq<WorkerId>, i: nat, missed: map<WorkerId, nat>, alive: set<WorkerId>)
    requires i < |workers|
    ensures Gone(workers[..i + 1], missed, alive) ==
            Gone(workers[..i], missed, alive) + if DiesNow(missed, workers[i], alive) then {workers[i]} else {}
  {
    hide DiesNow;
    assert workers[..i + 1] == workers[..i] + [workers[i]];
  }

  /** Scheduler `m` has gone through the first `i` workers. */
  ghost predicate MonitoredSoFar(s: World, u: World, x: nat, m: nat, workers: seq<WorkerId>, i: nat,
                                 missed: map<WorkerId, nat>, jobs: map<WorkerId, seq<Snap>>)
    requires i <= |workers|
  {
    var alive := AliveNow(s, workers);
    && u.attempts == s.attempts && u.calls == s.calls && u.results == s.results && u.now == s.now
    && u.sweeps == s.sweeps[x := MonitorLoop(m, workers[i..])]
    && u.roster.expires == s.roster.expires && u.roster.silent == s.roster.silent
    && u.roster.active == s.roster.active - Gone(workers[..i], missed, alive)
    && (forall w :: w !in workers[..i] ==> StrikesBy(u.roster, m, w) == WorkerMonitor.Strikes(missed, w))
    && Holds(u) == Monitored(Holds(s), missed, workers[..i], alive, jobs, s.now)
  }

  ghost predicate MonitorReady(s: World, m: nat, workers: seq<WorkerId>, missed: map<WorkerId, nat>,
                               jobs: map<WorkerId, seq<Snap>>) {
    && Enumerates(workers, s.roster.active)
    && (forall w :: StrikesBy(s.roster, m, w) == WorkerMonitor.Strikes(missed, w))
    && MonitorPages(Holds(s), missed, workers, AliveNow(s, workers), jobs, s.now)
  }

  /** Steps of a monitoring pass. */
  ghost predicate OnlyMonitors(ts: seq<Step>, x: nat) {
    forall t :: t in ts ==> t.BySweep? && t.sweep == x && (t.p.Advance? || t.p.FindRunning?)
  }

  lemma LookTurn(s: World, u: World, x: nat, m: nat, workers: seq<WorkerId>, i: nat,
                 missed: map<WorkerId, nat>, jobs: map<WorkerId, seq<Snap>>) returns (v: World)
    requires MonitorReady(s, m, workers, missed, jobs) && i < |workers|
    requires MonitoredSoFar(s, u, x, m, workers, i, missed, jobs)
    ensures Reaches(u, [BySweep(x, Advance)], v)
    ensures var w := workers[i];
            && v == u.(roster := v.roster, sweeps := v.sweeps)
            && v.roster == u.roster.(strikes := v.roster.strikes)
            && v.sweeps == u.sweeps[x := if DiesNow(missed, w, AliveNow(s, workers))
                                         then Condemning(m, w, workers[i + 1..])
                                         else MonitorLoop(m, workers[i + 1..])]
            && forall k :: k !in workers[..i + 1] ==> StrikesBy(v.roster, m, k) == WorkerMonitor.Strikes(missed, k)
  {
    hide Runs, After, Monitored, MonitorPages;
    assert workers[i..][1..] == workers[i + 1..] && workers[i..][0] == workers[i];
    assert workers[i] !in workers[..i] && workers[i] in workers;
    assert workers[..i + 1] == workers[..i] + [workers[i]];
    v := RosterAdvance(u, x);
    forall k | k !in workers[..i + 1]
      ensures StrikesBy(v.roster, m, k) == WorkerMonitor.Strikes(missed, k)
    {
      Monitoring.StrikesAfter(u.roster, u.sweeps[x], u.now, k);
    }
  }

  lemma MonitorTurn(s: World, u: World, x: nat, m: nat, workers: seq<WorkerId>, i: nat,
                    missed: map<WorkerId, nat>, jobs: map<WorkerId, seq<Snap>>) returns (ts: seq<Step>, v: World)
    requires MonitorReady(s, m, workers, missed, jobs) && i < |workers|
    requires MonitoredSoFar(s, u, x, m, workers, i, missed, jobs)
    ensures Reaches(u, ts, v) && OnlyMonitors(ts, x)
    ensures MonitoredSoFar(s, v, x, m, workers, i + 1, missed, jobs)
  {
    hide Runs, After, RecoveredFrom, Current, JobsOf, RunningJobs, DiesNow, Enumerates, Monitored, MonitorPages;
    hide Gone, AliveNow, OnlyAdvances, OnlyMonitors, StrikesBy, WorkerMonitor.Strikes, Reaches;
    var w, alive := workers[i], AliveNow(s, workers);
    NextMonitored(Holds(s), missed, workers, alive, jobs, s.now, i);
    GoneAdds(workers, i, missed, alive);
    v := LookTurn(s, u, x, m, workers, i, missed, jobs);
    ts := [BySweep(x, Advance)];
    OneLook(x);
    if DiesNow(missed, w, alive) {
      var looked := v;
      StrikesStay(looked.roster, looked.roster.active - {w});
      ts, v := DeadTurn(u, looked, x, jobs[w]);
    }
  }

  /** After a look that declares the worker dead. */
  lemma DeadTurn(u: World, looked: World, x: nat, page: seq<Snap>) returns (ts: seq<Step>, v: World)
    requires Reaches(u, [BySweep(x, Advance)], looked) && SweepEnabled(looked, x, FindRunning(page))
    ensures Reaches(u, ts, v) && OnlyMonitors(ts, x)
    ensures var c := looked.sweeps[x];
            v == looked.(rows := v.rows, queues := v.queues, tallies := v.tallies, retryPushes := v.retryPushes,
                         sweeps := looked.sweeps[x := MonitorLoop(c.scheduler, c.workers)],
                         roster := looked.roster.(active := looked.roster.active - {c.dead}))
    ensures Holds(v) == RecoveredFrom(Holds(looked), looked.sweeps[x].dead, page, looked.now)
  {
    hide Reaches, OnlyAdvances, OnlyMonitors, RecoveredFrom, Current;
    var more;
    more, v := RecoverAsRun(looked, x, page);
    ReachesOn(u, [BySweep(x, Advance)], looked, [BySweep(x, FindRunning(page))] + more, v);
    MonitorSteps(more, x, page);
    ts := [BySweep(x, Advance)] + ([BySweep(x, FindRunning(page))] + more);
  }

  lemma OneLook(x: nat)
    ensures OnlyMonitors([BySweep(x, Advance)], x)
  {
  }

  lemma StrikesStay(r: Roster, active: set<WorkerId>)
    ensures forall m, w :: StrikesBy(r.(active := active), m, w) == StrikesBy(r, m, w)
  {
  }

  lemma MonitorSteps(more: seq<Step>, x: nat, page: seq<Snap>)
    requires OnlyAdvances(more, x)
    ensures OnlyMonitors([BySweep(x, Advance)] + ([BySweep(x, FindRunning(page))] + more), x)
  {
  }

  lemma MonitorStarts(s: World, x: nat, m: nat, workers: seq<WorkerId>, missed: map<WorkerId, nat>,
                      jobs: map<WorkerId, seq<Snap>>) returns (u: World)
    requires x !in s.sweeps && MonitorReady(s, m, workers, missed, jobs)
    ensures Reaches(s, [BySweep(x, ListWorkers(m, workers))], u)
    ensures MonitoredSoFar(s, u, x, m, workers, 0, missed, jobs)
  {
    hide Runs, After, MonitorPages, DiesNow, StrikesBy, Enumerates;
    var first := BySweep(x, ListWorkers(m, workers));
    StartReaches(s);
    ReachesBy(s, [], s, first);
    assert [] + [first] == [first] && workers[0..] == workers;
    u := Apply(s, first);
  }

  lemma MonitorEnds(s: World, v: World, x: nat, m: nat, workers: seq<WorkerId>, missed: map<WorkerId, nat>,
                    jobs: map<WorkerId, seq<Snap>>) returns (s': World)
    requires x !in s.sweeps && MonitoredSoFar(s, v, x, m, workers, |workers|, missed, jobs)
    ensures Reaches(v, [BySweep(x, Conclude)], s') && s'.sweeps == s.sweeps && s'.now == s.now
    ensures Holds(s') == Monitored(Holds(s), missed, workers, AliveNow(s, workers), jobs, s.now)
    ensures s'.roster.active == s.roster.active - Gone(workers, missed, AliveNow(s, workers))
  {
    hide Runs, After, DiesNow, StrikesBy, Monitored, Gone, AliveNow;
    var last := BySweep(x, Conclude);
    assert workers[..|workers|] == workers && workers[|workers|..] == [];
    StartReaches(v);
    ReachesBy(v, [], v, last);
    assert [] + [last] == [last];
    s' := Apply(v, last);
    assert s.sweeps[x := v.sweeps[x]] - {x} == s.sweeps;
  }

  /** A monitoring pass of the transition system does what the loop does. */
  lemma MonitorAsRun(s: World, x: nat, m: nat, workers: seq<WorkerId>, missed: map<WorkerId, nat>,
                     jobs: map<WorkerId, seq<Snap>>) returns (ts: seq<Step>, s': World)
    requires x !in s.sweeps && MonitorReady(s, m, workers, missed, jobs)
    ensures Reaches(s, [BySweep(x, ListWorkers(m, workers))] + ts + [BySweep(x, Conclude)], s') && OnlyMonitors(ts, x)
    ensures s'.sweeps == s.sweeps && s'.now == s.now
    ensures Holds(s') == Monitored(Holds(s), missed, workers, AliveNow(s, workers), jobs, s.now)
    ensures s'.roster.active == s.roster.active - Gone(workers, missed, AliveNow(s, workers))
  {
    hide MonitorReady, MonitoredSoFar, Monitored, Gone, AliveNow, Reaches, Holds;
    var first, last := BySweep(x, ListWorkers(m, workers)), BySweep(x, Conclude);
    var u := MonitorStarts(s, x, m, workers, missed, jobs);
    var v, i := u, 0;
    ts := [];
    StartReaches(u);
    while i < |workers|
      invariant i <= |workers| && Reaches(u, ts, v) && OnlyMonitors(ts, x)
      invariant MonitoredSoFar(s, v, x, m, workers, i, missed, jobs)
    {
      var more, w := MonitorTurn(s, v, x, m, workers, i, missed, jobs);
      ReachesOn(u, ts, v, more, w);
      ts, v, i := ts + more, w, i + 1;
    }
    s' := MonitorEnds(s, v, x, m, workers, missed, jobs);
    ReachesOn(s, [first], u, ts, v);
    ReachesOn(s, [first] + ts, v, [last], s');
  }

  // ----- a pass -----

  /** The four sweeps, each undisturbed, one after the other. */
  ghost predicate IsPass(ts: seq<Step>, x: nat, retries: seq<Snap>, pending: seq<Snap>, stale: seq<Snap>) {
    exists a, b, c, d ::
      && ts == a + b + c + d
      && Undisturbed(a, x, FindRetries(retries)) && Undisturbed(b, x, FindPending(pending))
      && Undisturbed(c, x, FindStale(stale)) && Undisturbed(d, x, ListProcessing)
  }

  /** An undisturbed pass of the transition system does what the loops do. */
  lemma PassAsRun(s: World, x: nat, retries: seq<Snap>, pending: seq<Snap>, stale: seq<Snap>)
    returns (ts: seq<Step>, s': World)
    requires x !in s.sweeps && LeaderPass.PagesOf(Holds(s), retries, pending, stale, s.now)
    ensures Reaches(s, ts, s') && IsPass(ts, x, retries, pending, stale)
    ensures Aside(s, s') && s'.sweeps == s.sweeps
    ensures Holds(s') == LeaderPass.PassResult(Holds(s), retries, pending, stale, s.now)
  {
    hide Runs, After, IsPage, Undisturbed;
    hide LeaderPass.Retried, LeaderPass.Reconciled, LeaderPass.Restored, LeaderPass.Scanned;
    var a, s1 := RetriesAsRun(s, x, retries);
    var b, s2 := PendingAsRun(s1, x, pending);
    ReachesOn(s, a, s1, b, s2);
    var c, s3 := StaleAsRun(s2, x, stale);
    ReachesOn(s, a + b, s2, c, s3);
    var d, s4 := ScanAsRun(s3, x);
    ReachesOn(s, a + b + c, s3, d, s4);
    ts, s' := a + b + c + d, s4;
  }

  /** RETRYING and due, or PENDING for 10 s. */
  predicate IsDue(r: Row, now: Time) {
    || (r.status.Retrying? && (r.nextRetryAt.None? || r.nextRetryAt.value <= now))
    || (r.status.Pending? && r.createdAt + 10_000 <= now)
  }

  /** QUEUED without an owner, and untouched for 10 s. */
  predicate IsStale(r: Row, now: Time) {
    r.status.Queued? && r.worker.None? && r.updatedAt + 10_000 <= now
  }

  /** From every world, one uninterrupted pass that is not cut short by the page limits
      heals the system. */
  lemma PassHeals(u: World, x: nat, retries: seq<Snap>, pending: seq<Snap>, stale: seq<Snap>)
    returns (pass: seq<Step>, v: World)
    requires x !in u.sweeps && LeaderPass.PagesOf(Holds(u), retries, pending, stale, u.now)
    requires |DueJobs(u.rows, u.now)| <= 100 && |AgedJobs(u.rows, u.now)| <= 100
    requires |StaleJobs(u.rows, u.now)| <= 100
    ensures Reaches(u, pass, v) && IsPass(pass, x, retries, pending, stale)
    ensures v.rows.Keys == u.rows.Keys
    ensures forall j :: j in u.rows && IsDue(u.rows[j], u.now) ==> v.rows[j].status.Queued? && Waiting(v.queues, j)
    ensures forall j :: j in u.rows && IsStale(u.rows[j], u.now) ==>
                          v.rows[j].status.Queued? &&
                          (Waiting(v.queues, j) <==>
                             || Waiting(u.queues, j) || j !in u.queues[PROCESSING]
                             || u.rows[j].updatedAt + 30_000 <= u.now)
    ensures forall j :: j in v.queues[PROCESSING] ==>
                          j in v.rows && v.rows[j].status in {Pending, Queued, Running}
  {
    hide Runs, After, IsPass, LeaderPass.PagesOf, LeaderPass.PassResult, Waiting;
    pass, v := PassAsRun(u, x, retries, pending, stale);
    LeaderPass.SelfHealing(Holds(u), retries, pending, stale, u.now);
  }

  // ----- a run that leaves a job unhealed -----

  /** Worker "w" popped job "j" and died before it read the row; 10 s have passed. */
  const DROPPED := LateWrites.SUBMITTED.(now := PENDING_GRACE, queues := [[], [], [], [], [], ["j"]])

  lemma Drops() returns (ts: seq<Step>)
    ensures LateWrites.Gives(ts, DROPPED)
  {
    hide Runs, After;
    ts := LateWrites.Submits();
    var u1 := LateWrites.SUBMITTED.(queues := DROPPED.queues, attempts := map[0 := Attempt("w", "j", Reading)]);
    var q := LateWrites.SUBMITTED.queues;
    assert q[2][..0] == [] && ["j"] + q[PROCESSING] == ["j"];
    ts := LateWrites.Next(ts, LateWrites.SUBMITTED, ByWorker(0, PopJob("w", 2)), u1);
    var u2 := u1.(attempts := map[]);
    ts := LateWrites.Next(ts, u1, ByWorker(0, Abandon), u2);
    ts := LateWrites.Next(ts, u2, Tick(PENDING_GRACE), DROPPED);
  }

  /** The job is stale, and no uninterrupted pass from there brings it into a polled
      list. */
  lemma PassMissesJob() returns (ts: seq<Step>)
    ensures Init(LateWrites.EMPTY) && LateWrites.Gives(ts, DROPPED)
    ensures StaleQueued(DROPPED.rows["j"], DROPPED.now) && !Waiting(DROPPED.queues, "j")
    ensures forall retries, pending, stale ::
              LeaderPass.PagesOf(Holds(DROPPED), retries, pending, stale, DROPPED.now) ==>
                var v := LeaderPass.PassResult(Holds(DROPPED), retries, pending, stale, DROPPED.now);
                "j" in v.rows && v.rows["j"].status.Queued? && !Waiting(v.queues, "j")
  {
    hide Runs, After;
    ts := Drops();
    FewJobs();
    hide LeaderPass.PagesOf, LeaderPass.PassResult, DueJobs, AgedJobs, StaleJobs;
    forall retries, pending, stale | LeaderPass.PagesOf(Holds(DROPPED), retries, pending, stale, DROPPED.now)
      ensures var v := LeaderPass.PassResult(Holds(DROPPED), retries, pending, stale, DROPPED.now);
              "j" in v.rows && v.rows["j"].status.Queued? && !Waiting(v.queues, "j")
    {
      LeaderPass.SelfHealing(Holds(DROPPED), retries, pending, stale, DROPPED.now);
    }
  }

  lemma FewJobs()
    ensures |DueJobs(DROPPED.rows, DROPPED.now)| == 0 && |AgedJobs(DROPPED.rows, DROPPED.now)| == 0
    ensures |StaleJobs(DROPPED.rows, DROPPED.now)| == 1
  {
    assert StaleJobs(DROPPED.rows, DROPPED.now) == {"j"};
  }
}
