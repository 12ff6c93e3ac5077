/** A listed worker that has fallen silent is declared dead, and its jobs are taken
    from it, whatever else the monitor meets on the way. */
module Monitoring {
  import opened Wrappers
  import opened Jobs
  import opened RedisLists
  import opened Protocol
  import opened Fencing
  import opened Continuations

  predicate Monitors(at: Sweep) {
    at.MonitorLoop? || at.Condemning? || at.RecoverLoop? || at.RecoverRemoving?
  }

  predicate Held(s: World, j: JobId, d: WorkerId) {
    j in s.rows && s.rows[j].status.Running? && s.rows[j].worker == Some(d)
  }

  predicate Listed(s: World, todo: seq<Snap>, j: JobId)
    requires j in s.rows
  {
    Snap(j, s.rows[j].version) in todo
  }

  /** `d` had `n` strikes before this pass, and has one more once it has been seen. */
  predicate Counts(s: World, m: nat, d: WorkerId, n: nat, ws: seq<WorkerId>) {
    if d in ws then StrikesBy(s.roster, m, d) == n else n < 2 && StrikesBy(s.roster, m, d) == n + 1
  }

  /** The pass of scheduler `m` will count or condemn `d`, or has, and if it condemns
      `d` it will take `j`. */
  predicate Hope(s: World, at: Sweep, j: JobId, d: WorkerId, m: nat, n: nat)
    requires j in s.rows && Monitors(at)
  {
    && at.scheduler == m
    && match at
       case MonitorLoop(_, ws) => Counts(s, m, d, n, ws)
       case Condemning(_, v, ws) => v == d || Counts(s, m, d, n, ws)
       case RecoverLoop(_, v, todo, ws) => if v == d then Listed(s, todo, j) else Counts(s, m, d, n, ws)
       case RecoverRemoving(_, v, _, todo, ws) => if v == d then Listed(s, todo, j) else Counts(s, m, d, n, ws)
  }

  ghost predicate Lapsed(s: World, d: WorkerId) {
    d in s.roster.silent && !KeyAlive(s.roster, d, s.now)
  }

  predicate Apart(ws: seq<WorkerId>) {
    forall i, k :: 0 <= i < k < |ws| ==> ws[i] != ws[k]
  }

  ghost predicate OnWatch(s: World, x: nat, j: JobId, d: WorkerId, m: nat, n: nat) {
    && x in s.sweeps && Monitors(s.sweeps[x]) && j in s.rows && Lapsed(s, d)
    && Apart(s.sweeps[x].workers)
    && (!s.sweeps[x].MonitorLoop? ==> s.sweeps[x].dead in s.roster.silent)
    && (s.rows[j].status.Retrying? || (Held(s, j, d) && d in s.roster.active && Hope(s, s.sweeps[x], j, d, m, n)))
  }

  /** Workers that beat stay on the list, and nobody falls silent or speaks again. */
  ghost predicate KeepsBeaters(s: World, s': World) {
    && s'.now == s.now && s'.roster.silent == s.roster.silent
    && forall v :: v in s.roster.active && v !in s.roster.silent ==> v in s'.roster.active
  }

  /** What is left of a pass. */
  function Phase(at: Sweep): nat
    requires Monitors(at)
  {
    match at
    case MonitorLoop(_, _) => 0
    case Condemning(_, _, _) => 2
    case _ => 1
  }

  function Left(at: Sweep): nat
    requires Monitors(at)
  {
    match at
    case RecoverLoop(_, _, todo, _) => 2 * |todo|
    case RecoverRemoving(_, _, _, todo, _) => 2 * |todo| + 1
    case _ => 0
  }

  ghost predicate Less(a: Sweep, b: Sweep)
    requires Monitors(a) && Monitors(b)
  {
    || |a.workers| < |b.workers|
    || (|a.workers| == |b.workers| && (Phase(a) < Phase(b) || (Phase(a) == Phase(b) && Left(a) < Left(b))))
  }

  /** One step of the pass keeps the watch. */
  ghost predicate WatchedOn(s: World, s': World, x: nat, j: JobId, d: WorkerId, m: nat, n: nat)
    requires x in s.sweeps && Monitors(s.sweeps[x])
  {
    OnWatch(s', x, j, d, m, n) && KeepsBeaters(s, s') && Less(s'.sweeps[x], s.sweeps[x])
  }

  // ----- the steps of a pass -----

  /** The first worker of the list beats, unless it has fallen silent. */
  lemma BeatFirst(s: World, x: nat, j: JobId, d: WorkerId, m: nat, n: nat) returns (ts: seq<Step>, s': World)
    requires Sane(s) && OnWatch(s, x, j, d, m, n) && s.sweeps[x].MonitorLoop? && s.sweeps[x].workers != []
    ensures Leads(s, ts, s') && Sane(s') && OnWatch(s', x, j, d, m, n) && KeepsBeaters(s, s')
    ensures s'.sweeps == s.sweeps
    ensures var w := s.sweeps[x].workers[0]; w in s'.roster.silent || KeyAlive(s'.roster, w, s'.now)
  {
    hide Sane, Goes;
    var w := s.sweeps[x].workers[0];
    if w in s.roster.silent {
      Stays(s);
      ts, s' := [], s;
    } else {
      LeadsOnce(s, Beat(w));
      ts, s' := [Beat(w)], Apply(s, Beat(w));
    }
  }

  lemma LookWatched(s: World, x: nat, j: JobId, d: WorkerId, m: nat, n: nat)
    requires OnWatch(s, x, j, d, m, n) && s.sweeps[x].MonitorLoop? && s.sweeps[x].workers != []
    requires var w := s.sweeps[x].workers[0]; w in s.roster.silent || KeyAlive(s.roster, w, s.now)
    ensures WatchedOn(s, AdvanceApply(s, x, s.sweeps[x]), x, j, d, m, n)
  {
    hide AdvanceApply;
    var at := s.sweeps[x];
    AdvanceRows(s, x, at);
    AdvanceRest(s, x, at);
    assert at.workers == [at.workers[0]] + at.workers[1..];
    StrikesAfter(s.roster, at, s.now, d);
  }

  lemma StrikesAfter(r: Roster, at: Sweep, now: Time, d: WorkerId)
    requires at.MonitorLoop? && at.workers != []
    ensures var r' := NewRoster(r, at, now);
            && r'.active == r.active && r'.silent == r.silent && r'.expires == r.expires
            && StrikesBy(r', at.scheduler, d) ==
                 if at.workers[0] == d then LookAt(r, at.scheduler, d, now).0 else StrikesBy(r, at.scheduler, d)
  {
  }

  lemma RecoverWatched(s: World, x: nat, j: JobId, d: WorkerId, m: nat, n: nat)
    requires OnWatch(s, x, j, d, m, n) && (s.sweeps[x].RecoverLoop? || s.sweeps[x].RecoverRemoving?)
    ensures WatchedOn(s, AdvanceApply(s, x, s.sweeps[x]), x, j, d, m, n)
  {
    hide AdvanceApply, Forget;
    var at := s.sweeps[x];
    AdvanceRows(s, x, at);
    AdvanceRest(s, x, at);
    if at.RecoverLoop? && at.todo != [] {
      assert at.todo == [at.todo[0]] + at.todo[1..];
    }
  }

  lemma FindWatched(s: World, x: nat, page: seq<Snap>, j: JobId, d: WorkerId, m: nat, n: nat)
    requires OnWatch(s, x, j, d, m, n) && SweepEnabled(s, x, FindRunning(page))
    ensures WatchedOn(s, SweepApply(s, x, FindRunning(page)), x, j, d, m, n)
  {
    if Held(s, j, d) && s.sweeps[x].dead == d {
      assert j in RunningJobs(s.rows, d);
      var i :| 0 <= i < |page| && page[i].job == j;
      assert page[i] == Snap(j, s.rows[j].version);
    }
  }

  /** A pass runs to its end. */
  lemma {:induction false} RunMonitor(s: World, x: nat, j: JobId, d: WorkerId, m: nat, n: nat)
    returns (ts: seq<Step>, s': World)
    requires Sane(s) && OnWatch(s, x, j, d, m, n)
    ensures Leads(s, ts, s') && Sane(s') && KeepsBeaters(s, s') && j in s'.rows && Lapsed(s', d)
    ensures s'.rows[j].status.Retrying? ||
            (n < 2 && Held(s', j, d) && d in s'.roster.active && StrikesBy(s'.roster, m, d) == n + 1)
    decreases |s.sweeps[x].workers|, Phase(s.sweeps[x]), Left(s.sweeps[x])
  {
    hide Apply, Enabled, AdvanceApply, SweepApply, Sane, Goes, Leads;
    var at := s.sweeps[x];
    if IsFinished(at) {
      ts, s' := Ends(s, x);
    } else {
      var u, v, us;
      if at.Condemning? {
        var page := SnapshotsExist(s.rows, RunningJobs(s.rows, at.dead));
        ts, v := Steps(s, x, FindRunning(page));
        FindWatched(s, x, page, j, d, m, n);
        u := s;
      } else if at.MonitorLoop? {
        ts, u := BeatFirst(s, x, j, d, m, n);
        us, v := Steps(u, x, Advance);
        LookWatched(u, x, j, d, m, n);
        LeadsOn(s, ts, u, us, v);
        ts := ts + us;
      } else {
        ts, v := Steps(s, x, Advance);
        RecoverWatched(s, x, j, d, m, n);
        u := s;
      }
      us, s' := RunMonitor(v, x, j, d, m, n);
      LeadsOn(s, ts, v, us, s');
      ts := ts + us;
    }
  }

  lemma Steps(s: World, x: nat, p: SweepStep) returns (ts: seq<Step>, s': World)
    requires Sane(s) && SweepEnabled(s, x, p) && Ordinary(BySweep(x, p)) && Heeds(s, BySweep(x, p))
    ensures Leads(s, ts, s') && Sane(s')
    ensures s' == SweepApply(s, x, p) && (p.Advance? ==> s' == AdvanceApply(s, x, s.sweeps[x]))
  {
    hide AdvanceApply, Sane, Goes, Leads, IsPage, Current;
    LeadsOnce(s, BySweep(x, p));
    ts, s' := [BySweep(x, p)], Apply(s, BySweep(x, p));
  }

  lemma Ends(s: World, x: nat) returns (ts: seq<Step>, s': World)
    requires Sane(s) && x in s.sweeps && IsFinished(s.sweeps[x])
    ensures Leads(s, ts, s') && Sane(s') && s' == s.(sweeps := s.sweeps - {x})
  {
    hide Sane, Goes, Leads;
    LeadsOnce(s, BySweep(x, Conclude));
    ts, s' := [BySweep(x, Conclude)], Apply(s, BySweep(x, Conclude));
  }

  // ----- pass after pass -----

  lemma Enumeration(active: set<WorkerId>) returns (ws: seq<WorkerId>)
    ensures Enumerates(ws, active)
  {
    if active == {} {
      ws := [];
    } else {
      var w :| w in active;
      var rest := Enumeration(active - {w});
      ws := [w] + rest;
    }
  }

  lemma Begins(s: World, x: nat, ws: seq<WorkerId>, j: JobId, d: WorkerId, m: nat)
    requires x !in s.sweeps && Enumerates(ws, s.roster.active)
    requires Held(s, j, d) && d in s.roster.active && Lapsed(s, d)
    ensures SweepEnabled(s, x, ListWorkers(m, ws))
    ensures OnWatch(SweepApply(s, x, ListWorkers(m, ws)), x, j, d, m, StrikesBy(s.roster, m, d))
    ensures KeepsBeaters(s, SweepApply(s, x, ListWorkers(m, ws)))
  {
  }

  /** Once the key of a silent worker is gone, its job is taken from it after at most
      three passes of any one scheduler `m`. */
  lemma {:induction false} Condemns(s: World, j: JobId, d: WorkerId, m: nat) returns (ts: seq<Step>, s': World)
    requires Sane(s) && Held(s, j, d) && d in s.roster.active && Lapsed(s, d)
    ensures Leads(s, ts, s') && Sane(s') && KeepsBeaters(s, s')
    ensures j in s'.rows && s'.rows[j].status.Retrying?
    decreases 3 - StrikesBy(s.roster, m, d)
  {
    hide Apply, Enabled, SweepApply, SweepEnabled, Sane, Goes, Leads, OnWatch;
    var n := StrikesBy(s.roster, m, d);
    var x := FreshNumber(s.sweeps.Keys);
    var ws := Enumeration(s.roster.active);
    Begins(s, x, ws, j, d, m);
    var u, us;
    ts, u := Steps(s, x, ListWorkers(m, ws));
    us, s' := RunMonitor(u, x, j, d, m, n);
    LeadsOn(s, ts, u, us, s');
    ts := ts + us;
    if !s'.rows[j].status.Retrying? {
      var v := s';
      us, s' := Condemns(v, j, d, m);
      LeadsOn(s, ts, v, us, s');
      ts := ts + us;
    }
  }

  lemma Wait(s: World, d: nat) returns (ts: seq<Step>, s': World)
    requires Sane(s)
    ensures Leads(s, ts, s') && Sane(s') && s' == s.(now := s.now + d)
  {
    hide Sane, Goes, Leads;
    LeadsOnce(s, Tick(d));
    ts, s' := [Tick(d)], Apply(s, Tick(d));
  }

  /** A RUNNING job of a listed worker that has fallen silent becomes RETRYING, and no
      worker that still beats leaves the list. */
  lemma SilentWorkerLosesJob(s: World, j: JobId, d: WorkerId, m: nat) returns (ts: seq<Step>, s': World)
    requires Sane(s) && Held(s, j, d) && d in s.roster.active && d in s.roster.silent
    ensures Leads(s, ts, s') && Sane(s') && j in s'.rows && s'.rows[j].status.Retrying?
    ensures forall v :: v in s.roster.active && v !in s.roster.silent ==> v in s'.roster.active
  {
    hide Sane, Goes, Leads;
    var lapse: nat := if KeyAlive(s.roster, d, s.now) then s.roster.expires[d] - s.now else 0;
    var u, us;
    ts, u := Wait(s, lapse);
    us, s' := Condemns(u, j, d, m);
    LeadsOn(s, ts, u, us, s');
    ts := ts + us;
  }
}
