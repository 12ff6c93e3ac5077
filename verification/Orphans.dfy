/** Why `Claimable` asks that the worker of a RUNNING job is listed and silent.  A
    RUNNING job that nobody works on stays RUNNING until a scheduler declares its
    worker dead, and that never happens while the worker beats in time, nor once it
    has left `workers:active`. */
module Orphans {
  import opened Wrappers
  import opened Jobs
  import opened RedisLists
  import opened Protocol
  import opened Fencing
  import LateWrites
  import Writes

  /** The sweep has declared `w` dead and is not done with it. */
  predicate Condemns(at: Sweep, w: WorkerId) {
    (at.Condemning? || at.RecoverLoop? || at.RecoverRemoving?) && at.dead == w
  }

  ghost predicate Condemned(s: World, w: WorkerId) {
    exists x :: x in s.sweeps && Condemns(s.sweeps[x], w)
  }

  /** RUNNING on `w`, and nobody works on it or is about to take it from `w`. */
  ghost predicate Neglected(s: World, j: JobId, w: WorkerId) {
    && j in s.rows && s.rows[j].status.Running? && s.rows[j].worker == Some(w)
    && (forall a :: a in s.attempts && s.attempts[a].job == j ==> s.attempts[a].pc.Reading?)
    && (forall c :: c in s.calls ==> s.calls[c].job != j)
    && !Condemned(s, w)
  }

  // ----- no step but a condemnation changes the row -----

  lemma StaysToWorkers(s: World, a: nat, t: WorkerStep, j: JobId, w: WorkerId)
    requires Neglected(s, j, w) && WorkerEnabled(s, a, t)
    ensures Neglected(WorkerApply(s, a, t), j, w)
  {
    hide Pop, Forget, WorkerRow, WorkerTally;
    WorkerRows(s, a, t);
  }

  lemma StaysToCalls(s: World, c: nat, t: CallStep, j: JobId, w: WorkerId)
    requires Neglected(s, j, w) && CallEnabled(s, c, t)
    ensures Neglected(CallApply(s, c, t), j, w)
  {
    hide CallRow, CallTally, Enqueue;
    CallRows(s, c, t);
    LateWrites.CallQueues(s, c, t);
    assert CallJob(s, c, t) != j;
  }

  /** No compare-and-set of a sweep but that of `recoverWorkerJobs` matches a RUNNING
      row. */
  lemma AdvanceMisses(s: World, at: Sweep, j: JobId, w: WorkerId)
    requires j in s.rows && s.rows[j].status.Running? && s.rows[j].worker == Some(w)
    requires Moves(at) && !Condemns(at, w)
    ensures Matches(s, at) ==> Subject(at).job != j
  {
  }

  lemma StaysToSweeps(s: World, x: nat, t: SweepStep, j: JobId, w: WorkerId)
    requires Neglected(s, j, w) && SweepEnabled(s, x, t) && !Condemned(SweepApply(s, x, t), w)
    ensures Neglected(SweepApply(s, x, t), j, w)
  {
    hide AdvanceApply, IsPage, Current, NextAt, Condemns;
    SweepFrame(s, x, t);
    if t.Advance? {
      assert !Condemns(s.sweeps[x], w);
      AdvanceRows(s, x, s.sweeps[x]);
      AdvanceMisses(s, s.sweeps[x], j, w);
    }
  }

  lemma StaysToOthers(s: World, t: Step, j: JobId, w: WorkerId)
    requires Neglected(s, j, w) && Enabled(s, t) && !t.ByWorker? && !t.ByCall? && !t.BySweep?
    ensures Neglected(Apply(s, t), j, w)
  {
  }

  /** One step of anyone leaves the job as it is, or declares its worker dead. */
  lemma NeglectedOrCondemned(s: World, t: Step, j: JobId, w: WorkerId)
    requires Neglected(s, j, w) && Enabled(s, t) && !Condemned(Apply(s, t), w)
    ensures Neglected(Apply(s, t), j, w)
  {
    hide WorkerApply, CallApply, SweepApply, WorkerEnabled, CallEnabled, SweepEnabled, Neglected, Condemned;
    match t
    case ByWorker(a, k) => StaysToWorkers(s, a, k, j, w);
    case ByCall(c, k) => StaysToCalls(s, c, k, j, w);
    case BySweep(x, p) => StaysToSweeps(s, x, p, j, w);
    case _ => StaysToOthers(s, t, j, w);
  }

  // ----- when a worker can be condemned -----

  predicate Lists(at: Sweep, w: WorkerId) {
    (at.MonitorLoop? || at.Condemning? || at.RecoverLoop? || at.RecoverRemoving?) && w in at.workers
  }

  /** Neither in `workers:active` nor in a list that a scheduler has read. */
  ghost predicate Unlisted(s: World, w: WorkerId) {
    w !in s.roster.active && forall x :: x in s.sweeps ==> !Lists(s.sweeps[x], w)
  }

  /** Only a look that finds no key declares a worker dead. */
  lemma LookCondemns(s: World, at: Sweep, w: WorkerId)
    requires Moves(at) && Condemns(NextAt(s, at), w) && !Condemns(at, w)
    ensures at.MonitorLoop? && at.workers != [] && at.workers[0] == w
    ensures !KeyAlive(s.roster, w, s.now)
  {
    hide Matches;
  }

  /** Other steps of a sweep start none of that. */
  lemma OnlyLooksCondemn(s: World, x: nat, p: SweepStep, w: WorkerId)
    requires SweepEnabled(s, x, p) && !p.Advance? && Condemned(SweepApply(s, x, p), w)
    ensures Condemned(s, w)
  {
    hide IsPage, Current, Enumerates, JobsOf;
    var s' := SweepApply(s, x, p);
    var y :| y in s'.sweeps && Condemns(s'.sweeps[y], w);
    if y == x {
      assert p.FindRunning? && Condemns(s.sweeps[x], w);
    } else {
      assert s'.sweeps[y] == s.sweeps[y];
    }
  }

  lemma AdvanceCondemns(s: World, x: nat, w: WorkerId)
    requires x in s.sweeps && Moves(s.sweeps[x]) && !Condemned(s, w)
    requires Condemned(AdvanceApply(s, x, s.sweeps[x]), w)
    ensures var at := s.sweeps[x]; at.MonitorLoop? && at.workers != [] && at.workers[0] == w
    ensures !KeyAlive(s.roster, w, s.now)
  {
    hide AdvanceApply, NextAt, Condemns, KeyAlive;
    var s' := AdvanceApply(s, x, s.sweeps[x]);
    AdvanceRest(s, x, s.sweeps[x]);
    var y :| y in s'.sweeps && Condemns(s'.sweeps[y], w);
    assert y == x;
    LookCondemns(s, s.sweeps[x], w);
  }

  lemma SameSweeps(s: World, s': World, w: WorkerId)
    requires s'.sweeps == s.sweeps
    ensures Condemned(s', w) <==> Condemned(s, w)
  {
  }

  /** A worker is declared dead only at a look of a monitor that finds its key gone. */
  lemma CondemnedByLook(s: World, t: Step, w: WorkerId)
    requires Enabled(s, t) && !Condemned(s, w) && Condemned(Apply(s, t), w)
    ensures t.BySweep? && t.p.Advance? && t.sweep in s.sweeps
    ensures var at := s.sweeps[t.sweep]; at.MonitorLoop? && at.workers != [] && at.workers[0] == w
    ensures !KeyAlive(s.roster, w, s.now)
  {
    hide WorkerApply, CallApply, SweepApply, WorkerEnabled, CallEnabled, Condemned, KeyAlive, IsPage, Current;
    match t
    case ByWorker(a, k) =>
      WorkerFrame(s, a, k);
      SameSweeps(s, Apply(s, t), w);
    case ByCall(c, k) =>
      CallFrame(s, c, k);
      SameSweeps(s, Apply(s, t), w);
    case BySweep(x, p) =>
      if p.Advance? {
        AdvanceIsApply(s, x);
        AdvanceCondemns(s, x, w);
      } else {
        OnlyLooksCondemn(s, x, p, w);
      }
    case _ => SameSweeps(s, Apply(s, t), w);
  }

  lemma AdvanceIsApply(s: World, x: nat)
    requires SweepEnabled(s, x, Advance)
    ensures SweepApply(s, x, Advance) == AdvanceApply(s, x, s.sweeps[x])
  {
    hide AdvanceApply;
  }

  lemma UnlistedToSweeps(s: World, x: nat, p: SweepStep, w: WorkerId)
    requires SweepEnabled(s, x, p) && !p.Advance? && Unlisted(s, w)
    ensures Unlisted(SweepApply(s, x, p), w)
  {
    hide IsPage, Current, JobsOf, IsFinished;
  }

  lemma UnlistedToAdvance(s: World, x: nat, w: WorkerId)
    requires x in s.sweeps && Moves(s.sweeps[x]) && Unlisted(s, w)
    ensures Unlisted(AdvanceApply(s, x, s.sweeps[x]), w)
  {
    hide AdvanceApply, NextAt, Lists, Moves;
    AdvanceRest(s, x, s.sweeps[x]);
    AdvanceKeepsList(s, x);
  }

  lemma UnlistedStays(s: World, t: Step, w: WorkerId)
    requires Enabled(s, t) && Unlisted(s, w) && t != Register(w)
    ensures Unlisted(Apply(s, t), w)
  {
    hide WorkerApply, CallApply, SweepApply, WorkerEnabled, CallEnabled, Lists, IsPage, Current;
    match t
    case ByWorker(a, k) =>
      WorkerFrame(s, a, k);
      Writes.WorkersKeepRoster(s, t);
    case ByCall(c, k) =>
      CallFrame(s, c, k);
      Writes.WorkersKeepRoster(s, t);
    case BySweep(x, p) =>
      if p.Advance? {
        AdvanceIsApply(s, x);
        UnlistedToAdvance(s, x, w);
      } else {
        UnlistedToSweeps(s, x, p, w);
      }
    case _ =>
  }

  lemma AdvanceKeepsList(s: World, x: nat)
    requires x in s.sweeps && Moves(s.sweeps[x])
    ensures AdvanceApply(s, x, s.sweeps[x]).roster.active <= s.roster.active
    ensures forall w :: Lists(NextAt(s, s.sweeps[x]), w) ==> Lists(s.sweeps[x], w)
  {
    hide AdvanceApply, NextAt, LookAt, Lists;
    AdvanceRest(s, x, s.sweeps[x]);
    NextKeepsList(s, s.sweeps[x]);
  }

  lemma NextKeepsList(s: World, at: Sweep)
    requires Moves(at)
    ensures forall w :: Lists(NextAt(s, at), w) ==> Lists(at, w)
  {
    hide Matches;
  }

  // ----- whole runs -----

  ghost predicate Orphaned(s: World, j: JobId, w: WorkerId) {
    Neglected(s, j, w) && Unlisted(s, w)
  }

  /** An orphaned job stays RUNNING under every step of every process until a worker
      registers under the same ID again. */
  lemma {:induction false} OrphanedForGood(s: World, ts: seq<Step>, j: JobId, w: WorkerId)
    requires Orphaned(s, j, w) && Runs(s, ts) && Register(w) !in ts
    ensures Orphaned(After(s, ts), j, w)
    decreases |ts|
  {
    hide Apply, Enabled, Neglected, Unlisted, Condemned;
    if ts != [] {
      var n := |ts| - 1;
      OrphanedForGood(s, ts[..n], j, w);
      var u := After(s, ts[..n]);
      assert ts[n] in ts;
      UnlistedStays(u, ts[n], w);
      NeverCondemned(u, ts[n], j, w);
      NeglectedOrCondemned(u, ts[n], j, w);
    }
  }

  lemma NeverCondemned(s: World, t: Step, j: JobId, w: WorkerId)
    requires Enabled(s, t) && Neglected(s, j, w) && (Unlisted(s, w) || KeyAlive(s.roster, w, s.now))
    ensures !Condemned(Apply(s, t), w)
  {
    hide Apply, Enabled, Condemned, KeyAlive;
    if Condemned(Apply(s, t), w) {
      CondemnedByLook(s, t, w);
    }
  }

  /** While the key of its worker never lapses, a neglected job stays RUNNING. */
  lemma {:induction false} NeglectedWhileAlive(s: World, ts: seq<Step>, j: JobId, w: WorkerId)
    requires Neglected(s, j, w) && Runs(s, ts)
    requires forall k :: 0 <= k <= |ts| && Runs(s, ts[..k]) ==>
                           KeyAlive(After(s, ts[..k]).roster, w, After(s, ts[..k]).now)
    ensures Neglected(After(s, ts), j, w)
    decreases |ts|
  {
    hide Apply, Enabled, Neglected, Condemned, KeyAlive;
    if ts != [] {
      var n := |ts| - 1;
      PrefixRuns(s, ts, n);
      forall k | 0 <= k <= n && Runs(s, ts[..n][..k])
        ensures KeyAlive(After(s, ts[..n][..k]).roster, w, After(s, ts[..n][..k]).now)
      {
        assert ts[..n][..k] == ts[..k];
      }
      NeglectedWhileAlive(s, ts[..n], j, w);
      var u := After(s, ts[..n]);
      NeverCondemned(u, ts[n], j, w);
      NeglectedOrCondemned(u, ts[n], j, w);
    }
  }

  // ----- a run that leaves a job with a worker that beats -----

  /** Worker "w" has claimed job "j". */
  const HELD := LateWrites.SUBMITTED.(
    rows := map["j" := Row(Running, 2, Some("w"), 0, None, Medium, 0, 0)],
    tallies := map["j" := NO_HISTORY.(claims := 1)],
    queues := [[], [], [], [], [], ["j"]],
    attempts := map[0 := Attempt("w", "j", Working(2))])

  lemma ClaimsInTime() returns (ts: seq<Step>)
    ensures LateWrites.Gives(ts, HELD)
  {
    hide Runs, After;
    ts := LateWrites.Submits();
    var q := LateWrites.SUBMITTED.queues;
    assert q[2][..0] == [] && ["j"] + q[PROCESSING] == ["j"];
    var u1 := LateWrites.SUBMITTED.(queues := HELD.queues, attempts := map[0 := Attempt("w", "j", Reading)]);
    ts := LateWrites.Next(ts, LateWrites.SUBMITTED, ByWorker(0, PopJob("w", 2)), u1);
    var u2 := u1.(attempts := map[0 := Attempt("w", "j", Claiming(1))]);
    ts := LateWrites.Next(ts, u1, ByWorker(0, ReadJob), u2);
    ts := LateWrites.Next(ts, u2, ByWorker(0, Claim), HELD);
  }

  /** The attempt is given up, but its worker starts anew and beats: listed, with a live
      key, and yet nobody works on its job. */
  lemma LeavesNeglected() returns (ts: seq<Step>, u: World)
    ensures Init(LateWrites.EMPTY) && LateWrites.Gives(ts, u)
    ensures Neglected(u, "j", "w") && "w" in u.roster.active && KeyAlive(u.roster, "w", u.now)
  {
    hide Runs, After;
    ts := ClaimsInTime();
    var u1 := HELD.(attempts := map[]);
    ts := LateWrites.Next(ts, HELD, ByWorker(0, Abandon), u1);
    var u2 := u1.(calls := map[]);
    ts := LateWrites.Next(ts, u1, ByCall(0, Finish), u2);
    var u3 := u2.(roster := Roster({"w"}, map[], map[], {}));
    ts := LateWrites.Next(ts, u2, Register("w"), u3);
    u := Apply(u3, Beat("w"));
    ts := LateWrites.Next(ts, u3, Beat("w"), u);
  }

  // ----- a run that orphans a job -----

  /** Job "j" is submitted, worker "w" is listed without a key, and the scheduler has
      looked at it `n` times. */
  function Struck(n: nat): World {
    LateWrites.SUBMITTED.(calls := map[], roster := Suspects(n))
  }

  function Suspects(n: nat): Roster {
    Roster({"w"}, map[], if n == 0 then map[] else map[7 := map["w" := n]], {})
  }

  lemma Suspected() returns (ts: seq<Step>)
    ensures LateWrites.Gives(ts, Struck(0))
  {
    hide Runs, After;
    ts := LateWrites.Submits();
    var u1 := LateWrites.SUBMITTED.(roster := Suspects(0));
    ts := LateWrites.Next(ts, LateWrites.SUBMITTED, Register("w"), u1);
    ts := LateWrites.Next(ts, u1, ByCall(0, Finish), Struck(0));
  }

  lemma LooksAgain(n: nat)
    requires n <= 2
    ensures LookAt(Suspects(n), 7, "w", 0) == if n < 2 then (n + 1, false) else (0, true)
    ensures NewRoster(Suspects(n), MonitorLoop(7, ["w"]), 0) ==
            Roster({"w"}, map[], map[7 := map["w" := if n < 2 then n + 1 else 0]], {})
  {
    var r := NewRoster(Suspects(n), MonitorLoop(7, ["w"]), 0);
    assert r.strikes[7] == map["w" := if n < 2 then n + 1 else 0];
    assert r.strikes == map[7 := r.strikes[7]];
  }

  /** Struck `n` times, and the scheduler is about to look again. */
  function Looking(n: nat): World {
    Struck(n).(sweeps := map[0 := MonitorLoop(7, ["w"])])
  }

  lemma Looks(n: nat, ts: seq<Step>) returns (us: seq<Step>)
    requires LateWrites.Gives(ts, Struck(n))
    ensures LateWrites.Gives(us, Looking(n))
  {
    hide Runs, After;
    us := LateWrites.Next(ts, Struck(n), BySweep(0, ListWorkers(7, ["w"])), Looking(n));
  }

  lemma Concludes(u: World, x: nat, ts: seq<Step>) returns (us: seq<Step>)
    requires LateWrites.Gives(ts, u) && x in u.sweeps && IsFinished(u.sweeps[x])
    ensures LateWrites.Gives(us, u.(sweeps := u.sweeps - {x}))
  {
    hide Runs, After, IsFinished;
    us := LateWrites.Next(ts, u, BySweep(x, Conclude), u.(sweeps := u.sweeps - {x}));
  }

  lemma Advances(u: World, x: nat, ts: seq<Step>, u': World) returns (us: seq<Step>)
    requires LateWrites.Gives(ts, u) && x in u.sweeps && Moves(u.sweeps[x])
    requires AdvanceApply(u, x, u.sweeps[x]) == u'
    ensures LateWrites.Gives(us, u')
  {
    hide Runs, After, Moves, AdvanceApply;
    us := LateWrites.Next(ts, u, BySweep(x, Advance), u');
  }

  /** A look at a worker without a key. */
  lemma Strikes(n: nat, ts: seq<Step>) returns (us: seq<Step>)
    requires n < 2 && LateWrites.Gives(ts, Struck(n))
    ensures LateWrites.Gives(us, Struck(n + 1))
  {
    hide LateWrites.Gives, LookAt, NewRoster;
    us := Looks(n, ts);
    LooksAgain(n);
    assert ["w"][1..] == [];
    var u := Struck(n + 1).(sweeps := map[0 := MonitorLoop(7, [])]);
    us := Advances(Looking(n), 0, us, u);
    us := Concludes(u, 0, us);
    assert u.(sweeps := u.sweeps - {0}) == Struck(n + 1);
  }

  /** The third look; the scheduler finds no job of "w". */
  const WATCHED := Struck(2).(
    roster := Roster({"w"}, map[], map[7 := map["w" := 0]], {}), sweeps := map[0 := RecoverLoop(7, "w", [], [])])

  lemma Watches() returns (ts: seq<Step>)
    ensures LateWrites.Gives(ts, WATCHED)
  {
    hide LateWrites.Gives;
    ts := Suspected();
    ts := Strikes(0, ts);
    ts := Strikes(1, ts);
    ts := Looks(2, ts);
    ts := DeclaresDead(ts);
    ts := FindsNothing(ts, WATCHED.(sweeps := map[0 := Condemning(7, "w", [])]));
  }

  lemma DeclaresDead(ts: seq<Step>) returns (us: seq<Step>)
    requires LateWrites.Gives(ts, Looking(2))
    ensures LateWrites.Gives(us, WATCHED.(sweeps := map[0 := Condemning(7, "w", [])]))
  {
    hide LateWrites.Gives, LookAt, NewRoster;
    LooksAgain(2);
    assert ["w"][1..] == [];
    us := Advances(Looking(2), 0, ts, WATCHED.(sweeps := map[0 := Condemning(7, "w", [])]));
  }

  lemma FindsNothing(ts: seq<Step>, u: World) returns (us: seq<Step>)
    requires u == WATCHED.(sweeps := map[0 := Condemning(7, "w", [])]) && LateWrites.Gives(ts, u)
    ensures LateWrites.Gives(us, WATCHED)
  {
    hide Runs, After;
    assert RunningJobs(u.rows, "w") == {};
    us := LateWrites.Next(ts, u, BySweep(0, FindRunning([])), WATCHED);
  }

  /** Now "w" claims the job. */
  const LATE_CLAIM := WATCHED.(
    rows := map["j" := Row(Running, 2, Some("w"), 0, None, Medium, 0, 0)],
    tallies := map["j" := NO_HISTORY.(claims := 1)],
    queues := [[], [], [], [], [], ["j"]],
    attempts := map[0 := Attempt("w", "j", Working(2))])

  lemma ClaimsLate() returns (ts: seq<Step>)
    ensures LateWrites.Gives(ts, LATE_CLAIM)
  {
    hide Runs, After;
    ts := Watches();
    var u1 := WATCHED.(queues := LATE_CLAIM.queues, attempts := map[0 := Attempt("w", "j", Reading)]);
    assert WATCHED.queues[2][..0] == [] && ["j"] + WATCHED.queues[PROCESSING] == ["j"];
    ts := LateWrites.Next(ts, WATCHED, ByWorker(0, PopJob("w", 2)), u1);
    var u2 := u1.(attempts := map[0 := Attempt("w", "j", Claiming(1))]);
    ts := LateWrites.Next(ts, u1, ByWorker(0, ReadJob), u2);
    ts := LateWrites.Next(ts, u2, ByWorker(0, Claim), LATE_CLAIM);
  }

  /** The scheduler takes "w" off the list. */
  const DELISTED := LATE_CLAIM.(roster := LATE_CLAIM.roster.(active := {}), sweeps := map[])

  lemma TakesOff() returns (ts: seq<Step>)
    ensures LateWrites.Gives(ts, DELISTED)
  {
    hide LateWrites.Gives;
    ts := ClaimsLate();
    ts := Delists(ts);
    var u := DELISTED.(sweeps := map[0 := MonitorLoop(7, [])]);
    ts := Concludes(u, 0, ts);
    assert u.(sweeps := u.sweeps - {0}) == DELISTED;
  }

  lemma Delists(ts: seq<Step>) returns (us: seq<Step>)
    requires LateWrites.Gives(ts, LATE_CLAIM)
    ensures LateWrites.Gives(us, DELISTED.(sweeps := map[0 := MonitorLoop(7, [])]))
  {
    hide LateWrites.Gives;
    assert {"w"} - {"w"} == {};
    us := Advances(LATE_CLAIM, 0, ts, DELISTED.(sweeps := map[0 := MonitorLoop(7, [])]));
  }

  /** Then "w" dies. */
  lemma LateClaimOrphans() returns (ts: seq<Step>, u: World)
    ensures Init(LateWrites.EMPTY) && LateWrites.Gives(ts, u) && Orphaned(u, "j", "w")
  {
    hide Runs, After;
    ts := TakesOff();
    u := DELISTED.(attempts := map[]);
    ts := LateWrites.Next(ts, DELISTED, ByWorker(0, Abandon), u);
  }
}
