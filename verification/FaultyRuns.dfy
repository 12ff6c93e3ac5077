/** Sweeps in which calls throw: the transition system has runs whose effect is that of
    the loops with their catch blocks. */
module FaultyRuns {
  import opened Wrappers
  import opened Jobs
  import opened RedisLists
  import opened Sweeps
  import opened Protocol
  import opened SweepRuns
  import LeaderPass

  /** Effects of the sweep, failing or not. */
  ghost predicate OnlyEffects(ts: seq<Step>, x: nat) {
    forall t :: t in ts ==> t.BySweep? && t.sweep == x && (t.p.Advance? || t.p.PushFails? || t.p.Swallow?)
  }

  /** From its query on, and to its end if none of its calls ends it. */
  ghost predicate OneSweep(ts: seq<Step>, x: nat, p: SweepStep, ended: bool) {
    && |ts| >= 2 && ts[0] == BySweep(x, p)
    && if ended then OnlyEffects(ts[1..], x)
       else ts[|ts| - 1] == BySweep(x, Conclude) && OnlyEffects(ts[1..|ts| - 1], x)
  }

  lemma AlsoEffects(ts: seq<Step>, x: nat)
    requires OnlyAdvances(ts, x)
    ensures OnlyEffects(ts, x)
  {
  }

  lemma NoEffects(u: World, x: nat)
    ensures Reaches(u, [], u) && OnlyEffects([], x)
  {
  }

  lemma Joined(u: World, mid: seq<Step>, v: World, more: seq<Step>, w: World, x: nat)
    requires Reaches(u, mid, v) && OnlyEffects(mid, x) && Reaches(v, more, w) && OnlyEffects(more, x)
    ensures Reaches(u, mid + more, w) && OnlyEffects(mid + more, x)
  {
    ReachesOn(u, mid, v, more, w);
  }

  /** An effect that succeeds. */
  lemma Succeeds(s: World, u: World, x: nat) returns (v: World, ts: seq<Step>)
    requires x in u.sweeps && Moves(u.sweeps[x]) && At(s, u, x, u.sweeps[x])
    requires !u.sweeps[x].MonitorLoop? && !(u.sweeps[x].RecoverLoop? && u.sweeps[x].todo == [])
    ensures Reaches(u, ts, v) && OnlyEffects(ts, x) && At(s, v, x, NextAt(u, u.sweeps[x]))
    ensures var at := u.sweeps[x];
            && v.rows == (if Matches(u, at) then u.rows[Subject(at).job := NewRow(u.rows[Subject(at).job], at, u.now)]
                          else u.rows)
            && v.queues == (if IsPush(at) then Enqueue(u.queues, PriorityOf(u, Subject(at).job), Subject(at).job)
                            else if at.ScanRemoving? || at.RecoverRemoving? then Forget(u.queues, at.job)
                            else u.queues)
  {
    hide NextAt, Matches, NewRow, Enqueue, Forget, Reaches;
    v := Advances(s, u, x);
    ts := [BySweep(x, Advance)];
    AlsoEffects(ts, x);
  }

  /** An LPUSH that throws. */
  lemma PushThrows(s: World, u: World, x: nat) returns (v: World, ts: seq<Step>)
    requires x in u.sweeps && IsPush(u.sweeps[x]) && At(s, u, x, u.sweeps[x]) && NextOnFailure(u.sweeps[x]).Some?
    ensures Reaches(u, ts, v) && OnlyEffects(ts, x) && At(s, v, x, NextOnFailure(u.sweeps[x]).value)
    ensures Holds(v) == Holds(u)
  {
    var t := BySweep(x, PushFails);
    NoEffects(u, x);
    ReachesBy(u, [], u, t);
    ts, v := [] + [t], Apply(u, t);
  }

  /** Another call that throws. */
  lemma CallThrows(s: World, u: World, x: nat) returns (v: World, ts: seq<Step>)
    requires x in u.sweeps && Swallows(u.sweeps[x]) && At(s, u, x, u.sweeps[x])
    ensures Reaches(u, ts, v) && OnlyEffects(ts, x) && At(s, v, x, NextOnSwallow(u.sweeps[x]))
    ensures Holds(v) == Holds(u)
  {
    var t := BySweep(x, Swallow);
    NoEffects(u, x);
    ReachesBy(u, [], u, t);
    ts, v := [] + [t], Apply(u, t);
  }

  /** A query, the loop, and the end. */
  lemma WholeSweep(s: World, x: nat, p: SweepStep, u: World, mid: seq<Step>, v: World)
    returns (ts: seq<Step>, s': World)
    requires x !in s.sweeps && SweepEnabled(s, x, p) && SweepApply(s, x, p) == u
    requires Reaches(u, mid, v) && OnlyEffects(mid, x)
    requires x in v.sweeps && IsFinished(v.sweeps[x]) && At(s, v, x, v.sweeps[x])
    ensures Reaches(s, ts, s') && OneSweep(ts, x, p, false)
    ensures Aside(s, s') && s'.sweeps == s.sweeps && Holds(s') == Holds(v)
  {
    hide Runs, After, IsFinished, IsPage, Current, OnlyEffects;
    var first, last := BySweep(x, p), BySweep(x, Conclude);
    StartReaches(s);
    ReachesBy(s, [], s, first);
    assert [] + [first] == [first];
    ReachesOn(s, [first], u, mid, v);
    ReachesBy(s, [first] + mid, v, last);
    ts, s' := [first] + mid + [last], Apply(v, last);
    assert ts[1..|ts| - 1] == mid;
    assert s.sweeps[x := v.sweeps[x]] - {x} == s.sweeps;
  }

  // ----- processRetries -----

  ghost predicate RetriedBut(
    s: World, u: World, x: nat, page: seq<Snap>, i: nat, throws: set<JobId>, failed: set<JobId>)
    requires i <= |page|
  {
    && At(s, u, x, RetryLoop(page[i..])) && u.rows == AfterRetries(s.rows, JobsOf(page[..i]), failed, s.now)
    && (forall j :: j in Chosen(page[..i], throws) ==> j in s.rows)
    && u.queues == PushAll(s.queues, s.rows, Chosen(page[..i], throws))
  }

  lemma RetryTurn(s: World, u: World, x: nat, page: seq<Snap>, i: nat, throws: set<JobId>, undoThrows: set<JobId>)
    returns (ts: seq<Step>, v: World)
    requires IsPage(s.rows, DueJobs(s.rows, s.now), ByUpdate, PAGE_SIZE, page) && i < |page|
    requires RetriedBut(s, u, x, page, i, throws, throws - undoThrows)
    ensures Reaches(u, ts, v) && OnlyEffects(ts, x) && RetriedBut(s, v, x, page, i + 1, throws, throws - undoThrows)
  {
    hide Reaches, IsPage, AfterRetries, PushAll, Chosen, Enqueue, JobsOf, OnlyEffects;
    var c := page[i];
    LeaderPass.RetriesTurn(s.rows, s.queues, page, i, throws, throws - undoThrows, s.now);
    assert page[i..][1..] == page[i + 1..] && page[i..][0] == c;
    var mid, next;
    mid, ts := Succeeds(s, u, x);
    if c.job in throws {
      var failed, more := PushThrows(s, mid, x);
      Joined(u, ts, mid, more, failed, x);
      ts := ts + more;
      if c.job in undoThrows {
        v, next := CallThrows(s, failed, x);
      } else {
        v, next := Succeeds(s, failed, x);
        UndoneAgain(u.rows, c.job, s.now);
      }
      Joined(u, ts, failed, next, v, x);
    } else {
      v, next := Succeeds(s, mid, x);
      Joined(u, ts, mid, next, v, x);
    }
    ts := ts + next;
  }

  lemma UndoneAgain(rows: map<JobId, Row>, j: JobId, now: Time)
    requires j in rows
    ensures rows[j := Requeued(rows[j], now)][j := Undone(Requeued(rows[j], now), now)] ==
            rows[j := Undone(Requeued(rows[j], now), now)]
  {
  }

  /** The loop of `processRetries`: pushes throw for the jobs `throws`, and their
      rollbacks for the jobs `undoThrows`. */
  lemma RetriesWithFaults(s: World, x: nat, page: seq<Snap>, throws: set<JobId>, undoThrows: set<JobId>)
    returns (ts: seq<Step>, s': World)
    requires x !in s.sweeps && IsPage(s.rows, DueJobs(s.rows, s.now), ByUpdate, PAGE_SIZE, page)
    ensures Reaches(s, ts, s') && OneSweep(ts, x, FindRetries(page), false) && Aside(s, s') && s'.sweeps == s.sweeps
    ensures forall j :: j in Chosen(page, throws) ==> j in s.rows
    ensures s'.rows == AfterRetries(s.rows, JobsOf(page), throws - undoThrows, s.now)
    ensures s'.queues == PushAll(s.queues, s.rows, Chosen(page, throws))
  {
    hide Runs, After, IsPage, AfterRetries, PushAll, Chosen, JobsOf, OnlyEffects, OneSweep;
    LeaderPass.NothingDone(s.rows, s.queues, page, throws, throws - undoThrows, s.now);
    var u := SweepApply(s, x, FindRetries(page));
    var mid: seq<Step>, v, i := [], u, 0;
    NoEffects(u, x);
    assert page[0..] == page;
    while i < |page|
      invariant i <= |page| && Reaches(u, mid, v) && OnlyEffects(mid, x)
      invariant RetriedBut(s, v, x, page, i, throws, throws - undoThrows)
    {
      var more, w := RetryTurn(s, v, x, page, i, throws, undoThrows);
      Joined(u, mid, v, more, w, x);
      mid, v, i := mid + more, w, i + 1;
    }
    assert page[..i] == page && page[i..] == [];
    ts, s' := WholeSweep(s, x, FindRetries(page), u, mid, v);
  }

  // ----- processPendingJobs -----

  ghost predicate DispatchedBut(
    s: World, u: World, x: nat, page: seq<Snap>, i: nat, throws: set<JobId>, failed: set<JobId>)
    requires i <= |page|
  {
    && At(s, u, x, PendingLoop(page[i..])) && u.rows == AfterPending(s.rows, JobsOf(page[..i]), failed, s.now)
    && (forall j :: j in Chosen(page[..i], throws) ==> j in s.rows)
    && u.queues == PushAll(s.queues, s.rows, Chosen(page[..i], throws))
  }

  lemma PendingTurn(s: World, u: World, x: nat, page: seq<Snap>, i: nat, throws: set<JobId>, writeThrows: set<JobId>)
    returns (ts: seq<Step>, v: World)
    requires IsPage(s.rows, AgedJobs(s.rows, s.now), ByCreation, PAGE_SIZE, page) && i < |page|
    requires DispatchedBut(s, u, x, page, i, throws, throws + writeThrows)
    ensures Reaches(u, ts, v) && OnlyEffects(ts, x)
    ensures DispatchedBut(s, v, x, page, i + 1, throws, throws + writeThrows)
  {
    hide Reaches, IsPage, AfterPending, PushAll, Chosen, Enqueue, JobsOf, OnlyEffects;
    var c := page[i];
    LeaderPass.PendingTurn(s.rows, s.queues, page, i, throws, throws + writeThrows, s.now);
    assert page[i..][1..] == page[i + 1..] && page[i..][0] == c;
    if c.job in throws {
      v, ts := PushThrows(s, u, x);
    } else {
      var pushed, next;
      pushed, ts := Succeeds(s, u, x);
      if c.job in writeThrows {
        v, next := CallThrows(s, pushed, x);
      } else {
        v, next := Succeeds(s, pushed, x);
      }
      Joined(u, ts, pushed, next, v, x);
      ts := ts + next;
    }
  }

  lemma PendingWithFaults(s: World, x: nat, page: seq<Snap>, throws: set<JobId>, writeThrows: set<JobId>)
    returns (ts: seq<Step>, s': World)
    requires x !in s.sweeps && IsPage(s.rows, AgedJobs(s.rows, s.now), ByCreation, PAGE_SIZE, page)
    ensures Reaches(s, ts, s') && OneSweep(ts, x, FindPending(page), false) && Aside(s, s') && s'.sweeps == s.sweeps
    ensures forall j :: j in Chosen(page, throws) ==> j in s.rows
    ensures s'.rows == AfterPending(s.rows, JobsOf(page), throws + writeThrows, s.now)
    ensures s'.queues == PushAll(s.queues, s.rows, Chosen(page, throws))
  {
    hide Runs, After, IsPage, AfterPending, PushAll, Chosen, JobsOf, OnlyEffects, OneSweep;
    LeaderPass.NothingDone(s.rows, s.queues, page, throws, throws + writeThrows, s.now);
    var u := SweepApply(s, x, FindPending(page));
    var mid: seq<Step>, v, i := [], u, 0;
    NoEffects(u, x);
    assert page[0..] == page;
    while i < |page|
      invariant i <= |page| && Reaches(u, mid, v) && OnlyEffects(mid, x)
      invariant DispatchedBut(s, v, x, page, i, throws, throws + writeThrows)
    {
      var more, w := PendingTurn(s, v, x, page, i, throws, writeThrows);
      Joined(u, mid, v, more, w, x);
      mid, v, i := mid + more, w, i + 1;
    }
    assert page[..i] == page && page[i..] == [];
    ts, s' := WholeSweep(s, x, FindPending(page), u, mid, v);
  }

  // ----- processStaleQueuedJobs -----

  ghost predicate RestoredBut(s: World, u: World, x: nat, page: seq<Snap>, i: nat, throws: set<JobId>, kept: set<JobId>)
    requires i <= |page|
  {
    && At(s, u, x, StaleLoop(page[i..])) && u.rows == AfterStale(s.rows, JobsOf(page[..i]), kept, s.now)
    && (forall j :: j in Chosen(page[..i], throws + kept) ==> j in s.rows)
    && u.queues == PushAll(s.queues, s.rows, Chosen(page[..i], throws + kept))
  }

  lemma StaleTurn(s: World, u: World, x: nat, page: seq<Snap>, i: nat, throws: set<JobId>, skipThrows: set<JobId>)
    returns (ts: seq<Step>, v: World)
    requires IsPage(s.rows, StaleJobs(s.rows, s.now), ByUpdate, PAGE_SIZE, page) && i < |page|
    requires RestoredBut(s, u, x, page, i, throws, ListedJobs(s.queues) + skipThrows)
    ensures Reaches(u, ts, v) && OnlyEffects(ts, x)
    ensures RestoredBut(s, v, x, page, i + 1, throws, ListedJobs(s.queues) + skipThrows)
  {
    hide Reaches, IsPage, AfterStale, PushAll, Chosen, Enqueue, JobsOf, OnlyEffects, OnlyAdvances;
    hide InAnyList, ListedJobs;
    var c, kept := page[i], ListedJobs(s.queues) + skipThrows;
    LeaderPass.StaleRow(s.rows, page, i, kept, s.now);
    LeaderPass.StalePush(s.rows, s.queues, page, i, throws + kept, s.now);
    assert page[i..] == [c] + page[i + 1..] && page[i..][1..] == page[i + 1..];
    if c.job in skipThrows {
      v, ts := CallThrows(s, u, x);
    } else {
      ts, v := FirstLook(s, u, x, c, page[i + 1..]);
      AlsoEffects(ts, x);
      if c.job !in kept {
        var found := v;
        var more;
        more, v := WritesAndPushes(s, found, x, c, page[i + 1..], c.job in throws);
        Joined(u, ts, found, more, v, x);
        ts := ts + more;
      }
    }
  }

  /** The job is in no list: its row is refreshed, and it is pushed unless that throws. */
  lemma WritesAndPushes(s: World, u: World, x: nat, c: Snap, todo: seq<Snap>, throws: bool)
    returns (ts: seq<Step>, v: World)
    requires At(s, u, x, StaleWriting(c, todo)) && c.job in u.rows && RefreshGuard(u.rows[c.job], c.version)
    ensures Reaches(u, ts, v) && OnlyEffects(ts, x) && At(s, v, x, StaleLoop(todo))
    ensures v.rows == u.rows[c.job := Refreshed(u.rows[c.job], s.now)]
    ensures v.queues == if throws then u.queues else Enqueue(u.queues, u.rows[c.job].priority, c.job)
  {
    hide Reaches, OnlyEffects, Enqueue;
    var written, last;
    written, ts := Succeeds(s, u, x);
    if throws {
      v, last := PushThrows(s, written, x);
    } else {
      v, last := Succeeds(s, written, x);
    }
    Joined(u, ts, written, last, v, x);
    ts := ts + last;
  }

  lemma StaleWithFaults(s: World, x: nat, page: seq<Snap>, throws: set<JobId>, skipThrows: set<JobId>)
    returns (ts: seq<Step>, s': World)
    requires x !in s.sweeps && IsPage(s.rows, StaleJobs(s.rows, s.now), ByUpdate, PAGE_SIZE, page)
    ensures Reaches(s, ts, s') && OneSweep(ts, x, FindStale(page), false) && Aside(s, s') && s'.sweeps == s.sweeps
    ensures var kept := ListedJobs(s.queues) + skipThrows;
            && s'.rows == AfterStale(s.rows, JobsOf(page), kept, s.now)
            && (forall j :: j in Chosen(page, throws + kept) ==> j in s.rows)
            && s'.queues == PushAll(s.queues, s.rows, Chosen(page, throws + kept))
  {
    hide Runs, After, IsPage, AfterStale, PushAll, Chosen, JobsOf, OnlyEffects, OneSweep, ListedJobs;
    var kept := ListedJobs(s.queues) + skipThrows;
    LeaderPass.NothingDone(s.rows, s.queues, page, throws + kept, kept, s.now);
    var u := SweepApply(s, x, FindStale(page));
    var mid: seq<Step>, v, i := [], u, 0;
    NoEffects(u, x);
    assert page[0..] == page;
    while i < |page|
      invariant i <= |page| && Reaches(u, mid, v) && OnlyEffects(mid, x)
      invariant RestoredBut(s, v, x, page, i, throws, kept)
    {
      var more, w := StaleTurn(s, v, x, page, i, throws, skipThrows);
      Joined(u, mid, v, more, w, x);
      mid, v, i := mid + more, w, i + 1;
    }
    assert page[..i] == page && page[i..] == [];
    ts, s' := WholeSweep(s, x, FindStale(page), u, mid, v);
  }

  // ----- recoverProcessingQueue -----

  /** A stranded entry whose push throws ends the sweep after the row is refreshed. */
  lemma RestoreThrows(s: World, u: World, x: nat, j: JobId, rest: seq<JobId>) returns (ts: seq<Step>, v: World)
    requires At(s, u, x, ScanLoop([j] + rest)) && x !in s.sweeps
    requires j in u.rows && Stranded(u.rows[j], s.now) && !Dead(u.rows, j)
    ensures Reaches(u, ts, v) && OnlyEffects(ts, x) && Aside(s, v) && v.sweeps == s.sweeps && ts != []
    ensures Holds(v) == Store(u.rows[j := Refreshed(u.rows[j], s.now)], u.queues)
  {
    hide Reaches, OnlyEffects;
    assert ([j] + rest)[1..] == rest && ([j] + rest)[0] == j;
    var read, one := Succeeds(s, u, x);
    var written, two := Succeeds(s, read, x);
    Joined(u, one, read, two, written, x);
    var t := BySweep(x, PushFails);
    LastThrows(s, written, x);
    v := Apply(written, t);
    Joined(u, one + two, written, [t], v, x);
    ts := one + two + [t];
    assert s.sweeps[x := written.sweeps[x]] - {x} == s.sweeps;
  }

  lemma LastThrows(s: World, u: World, x: nat)
    requires x in u.sweeps && u.sweeps[x].ScanPushing?
    ensures Enabled(u, BySweep(x, PushFails))
    ensures var v := Apply(u, BySweep(x, PushFails));
            && Reaches(u, [BySweep(x, PushFails)], v) && OnlyEffects([BySweep(x, PushFails)], x)
            && v == u.(sweeps := u.sweeps - {x})
  {
    var t := BySweep(x, PushFails);
    NoEffects(u, x);
    ReachesBy(u, [], u, t);
    assert [] + [t] == [t];
  }

  lemma ScanStep(s: World, ids: seq<JobId>, i: nat, throws: set<JobId>)
    requires i < |ids| && !ScanUntil(Holds(s), ids[..i], throws, s.now).1
    ensures var u := ScanUntil(Holds(s), ids[..i], throws, s.now).0;
            var next := ScanUntil(Holds(s), ids[..i + 1], throws, s.now);
            if !Dead(u.rows, ids[i]) && Stranded(u.rows[ids[i]], s.now) && ids[i] in throws then
              next == (u.(rows := u.rows[ids[i] := Refreshed(u.rows[ids[i]], s.now)]), true)
            else next == (ScanOne(u, ids[i], s.now), false)
  {
    hide ScanOne;
    assert ids[..i + 1][..i] == ids[..i];
  }

  /** The loop of `recoverProcessingQueue`; the first push that throws ends the sweep. */
  lemma ScanWithFaults(s: World, x: nat, throws: set<JobId>) returns (ts: seq<Step>, s': World)
    requires x !in s.sweeps
    ensures var (u, ended) := ScanUntil(Holds(s), s.queues[PROCESSING], throws, s.now);
            Reaches(s, ts, s') && OneSweep(ts, x, ListProcessing, ended) && Holds(s') == u
    ensures Aside(s, s') && s'.sweeps == s.sweeps
  {
    hide Runs, After, OnlyEffects, ScanOne, ScanUntil, Stranded, OneSweep, Refreshed;
    var ids := s.queues[PROCESSING];
    var u := SweepApply(s, x, ListProcessing);
    var mid: seq<Step>, v, i := [], u, 0;
    NoEffects(u, x);
    NothingScanned(s, throws);
    assert ids[0..] == ids && ids[..0] == [];
    while i < |ids|
      invariant i <= |ids| && Reaches(u, mid, v) && OnlyEffects(mid, x)
      invariant At(s, v, x, ScanLoop(ids[i..])) && (Holds(v), false) == ScanUntil(Holds(s), ids[..i], throws, s.now)
    {
      assert ids[i..] == [ids[i]] + ids[i + 1..];
      ScanStep(s, ids, i, throws);
      var more, w;
      if !Dead(v.rows, ids[i]) && Stranded(v.rows[ids[i]], s.now) && ids[i] in throws {
        more, w := RestoreThrows(s, v, x, ids[i], ids[i + 1..]);
        Joined(u, mid, v, more, w, x);
        EndedStays(Holds(s), ids, i + 1, throws, s.now);
        ts, s' := EndedSweep(s, x, u, mid + more, w);
        return;
      }
      more, w := ScanTurn(s, v, x, ids[i], ids[i + 1..]);
      AlsoEffects(more, x);
      Joined(u, mid, v, more, w, x);
      mid, v, i := mid + more, w, i + 1;
    }
    assert ids[..i] == ids && ids[i..] == [];
    ts, s' := WholeSweep(s, x, ListProcessing, u, mid, v);
  }

  lemma NothingScanned(s: World, throws: set<JobId>)
    ensures ScanUntil(Holds(s), [], throws, s.now) == (Holds(s), false)
  {
  }

  lemma EndedSweep(s: World, x: nat, u: World, mid: seq<Step>, v: World) returns (ts: seq<Step>, s': World)
    requires x !in s.sweeps && SweepApply(s, x, ListProcessing) == u
    requires Reaches(u, mid, v) && OnlyEffects(mid, x) && mid != []
    ensures Reaches(s, ts, s') && OneSweep(ts, x, ListProcessing, true) && s' == v
  {
    hide Runs, After, OnlyEffects;
    var first := BySweep(x, ListProcessing);
    StartReaches(s);
    ReachesBy(s, [], s, first);
    assert [] + [first] == [first];
    ReachesOn(s, [first], u, mid, v);
    ts, s' := [first] + mid, v;
    assert ts[1..] == mid;
  }
}
