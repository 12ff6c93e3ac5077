/** When a job is wedged: of a job that nobody is working on, its row, the lists and
    the roster tell whether ordinary steps can ever lead to a claim. */
module Wedging {
  import opened Wrappers
  import opened Jobs
  import opened RedisLists
  import opened Protocol
  import opened Fencing
  import opened Continuations
  import opened LateWrites
  import opened Orphans
  import opened Progress
  import Writes

  lemma OrderlyPrefix(s: World, ts: seq<Step>, n: nat)
    requires Runs(s, ts) && Orderly(s, ts) && n < |ts|
    ensures Runs(s, ts[..n]) && Orderly(s, ts[..n])
    ensures Enabled(After(s, ts[..n]), ts[n]) && Proper(s.attempts.Keys, After(s, ts[..n]), ts[n])
  {
    hide Apply, Enabled, Proper;
    PrefixRuns(s, ts, n);
    forall k | 0 <= k < n && Runs(s, ts[..n][..k])
      ensures Proper(s.attempts.Keys, After(s, ts[..n][..k]), ts[..n][k])
    {
      assert ts[..n][..k] == ts[..k];
    }
  }

  lemma {:induction false} AllOrdinary(s: World, ts: seq<Step>)
    requires Runs(s, ts) && Orderly(s, ts)
    ensures forall t :: t in ts ==> Ordinary(t)
  {
    hide Apply, Enabled, Orderly, Ordinary;
    forall k | 0 <= k < |ts|
      ensures Ordinary(ts[k])
    {
      OrderlyPrefix(s, ts, k);
    }
  }

  // ----- a RUNNING job that nobody works on -----

  /** Nobody falls silent or speaks again in ordinary steps. */
  lemma SilenceKept(s: World, t: Step)
    requires Enabled(s, t) && Ordinary(t)
    ensures Apply(s, t).roster.silent == s.roster.silent
  {
    hide WorkerApply, AdvanceApply, WorkerEnabled, IsPage, Current;
    match t
    case ByWorker(_, _) => Writes.WorkersKeepRoster(s, t);
    case BySweep(x, p) => if p.Advance? { AdvanceRest(s, x, s.sweeps[x]); }
    case _ =>
  }

  /** A worker that beats is not condemned in ordinary steps, so its job stays. */
  lemma {:induction false} BeatenFor(s: World, ts: seq<Step>, j: JobId, d: WorkerId)
    requires Runs(s, ts) && Orderly(s, ts) && Neglected(s, j, d) && d !in s.roster.silent
    ensures Neglected(After(s, ts), j, d) && d !in After(s, ts).roster.silent
    decreases |ts|
  {
    hide Apply, Enabled, Neglected, Condemned, KeyAlive, Orderly, Ordinary;
    if ts != [] {
      var n := |ts| - 1;
      OrderlyPrefix(s, ts, n);
      BeatenFor(s, ts[..n], j, d);
      var u := After(s, ts[..n]);
      SilenceKept(u, ts[n]);
      NotCondemned(u, ts[n], j, d);
      NeglectedOrCondemned(u, ts[n], j, d);
    }
  }

  lemma NotCondemned(s: World, t: Step, j: JobId, d: WorkerId)
    requires Enabled(s, t) && Heeds(s, t) && Neglected(s, j, d) && d !in s.roster.silent
    ensures !Condemned(Apply(s, t), d)
  {
    hide Apply, Enabled, Condemned, KeyAlive;
    if Condemned(Apply(s, t), d) {
      CondemnedByLook(s, t, d);
    }
  }

  /** The job stays RUNNING unless its worker is listed and silent. */
  lemma StaysRunning(s: World, ts: seq<Step>, j: JobId, d: WorkerId)
    requires Runs(s, ts) && Orderly(s, ts) && Neglected(s, j, d)
    requires d !in s.roster.silent || Unlisted(s, d)
    ensures Neglected(After(s, ts), j, d)
  {
    hide Neglected, Unlisted, Orderly, Runs, After, Ordinary;
    if d !in s.roster.silent {
      BeatenFor(s, ts, j, d);
    } else {
      AllOrdinary(s, ts);
      NoneRegisters(ts, d);
      OrphanedForGood(s, ts, j, d);
    }
  }

  lemma NoneRegisters(ts: seq<Step>, d: WorkerId)
    requires forall t :: t in ts ==> Ordinary(t)
    ensures Register(d) !in ts && forall c, j :: ByCall(c, ReadForCancel(j)) !in ts
  {
  }

  // ----- a job that is done with -----

  /** COMPLETED, FAILED or CANCELLED, and no attempt has got beyond popping it. */
  ghost predicate Done(s: World, j: JobId) {
    && j in s.rows && (s.rows[j].status.Completed? || s.rows[j].status.Failed? || s.rows[j].status.Cancelled?)
    && forall a :: a in s.attempts && s.attempts[a].job == j ==> s.attempts[a].pc.Reading?
  }

  lemma DoneToWorkers(s: World, a: nat, t: WorkerStep, j: JobId)
    requires Done(s, j) && WorkerEnabled(s, a, t)
    ensures Done(WorkerApply(s, a, t), j)
  {
    hide Pop, Forget, WorkerRow, WorkerTally;
    WorkerRows(s, a, t);
  }

  /** No compare-and-set of a sweep matches such a row. */
  lemma DoneToSweeps(s: World, x: nat, t: SweepStep, j: JobId)
    requires Done(s, j) && SweepEnabled(s, x, t)
    ensures Done(SweepApply(s, x, t), j)
  {
    hide AdvanceApply, IsPage, Current, NextAt;
    SweepFrame(s, x, t);
    if t.Advance? {
      AdvanceRows(s, x, s.sweeps[x]);
    }
  }

  lemma {:induction false} StaysDone(s: World, ts: seq<Step>, j: JobId)
    requires Runs(s, ts) && Done(s, j) && forall t :: t in ts ==> Ordinary(t)
    ensures Done(After(s, ts), j)
    decreases |ts|
  {
    hide WorkerApply, SweepApply, WorkerEnabled, SweepEnabled, Done;
    if ts != [] {
      var n := |ts| - 1;
      StaysDone(s, ts[..n], j);
      assert ts[n] in ts;
      var u, t := After(s, ts[..n]), ts[n];
      if t.ByWorker? {
        DoneToWorkers(u, t.attempt, t.w, j);
      } else if t.BySweep? {
        DoneToSweeps(u, t.sweep, t.p, j);
      } else {
        DoneToOthers(u, t, j);
      }
    }
  }

  lemma DoneToOthers(s: World, t: Step, j: JobId)
    requires Done(s, j) && Enabled(s, t) && Ordinary(t) && !t.ByWorker? && !t.BySweep?
    ensures Done(Apply(s, t), j)
  {
  }

  // ----- the exact condition -----

  /** Nobody is working on the job, or about to.  Where it is RUNNING, no scheduler is
      just taking it from its worker, or has read a list that names a worker since
      taken off it. */
  ghost predicate Untouched(s: World, j: JobId) {
    j in s.rows &&
    if s.rows[j].status.Running? then
      s.rows[j].worker.Some? &&
      var d := s.rows[j].worker.value;
      Neglected(s, j, d) && (d in s.roster.active || Unlisted(s, d))
    else Quiet(s, j)
  }

  lemma ClaimMeans(s: World, ts: seq<Step>, j: JobId, w: WorkerId)
    requires EndsInClaim(s, ts, j, w)
    ensures ts != [] && Runs(s, ts) && Orderly(s, ts) && Runs(s, ts[..|ts| - 1]) && Orderly(s, ts[..|ts| - 1])
    ensures var u := After(s, ts[..|ts| - 1]); j in u.rows && u.rows[j].status.Queued?
    ensures var u := After(s, ts); j in u.rows && u.rows[j].status.Running?
  {
    hide Apply, Enabled, Orderly;
    OrderlyPrefix(s, ts, |ts| - 1);
  }

  /** No ordinary steps lead to a claim of a job that is not claimable. */
  lemma NeverClaimed(s: World, ts: seq<Step>, j: JobId, w: WorkerId)
    requires Untouched(s, j) && !Claimable(s, j)
    ensures !EndsInClaim(s, ts, j, w)
  {
    hide EndsInClaim, Unlisted, Runs, After, Orderly, Condemned, Ordinary;
    if EndsInClaim(s, ts, j, w) {
      ClaimMeans(s, ts, j, w);
      AllOrdinary(s, ts);
      if s.rows[j].status.Running? {
        StaysRunning(s, ts[..|ts| - 1], j, s.rows[j].worker.value);
      } else if s.rows[j].status.Queued? {
        NoneRegisters(ts, "");
        LostForGood(s, ts, j);
      } else {
        StaysDone(s, ts, j);
      }
    }
  }

  /** In every world that any run reaches, late writes included: an untouched job can be
      claimed by ordinary steps exactly if it is PENDING, RETRYING, QUEUED without an
      owner or in a polled list, or RUNNING on a listed worker that is silent. */
  lemma ClaimableIff(s: World, ts: seq<Step>, j: JobId, w: WorkerId)
    requires Init(s) && Runs(s, ts) && Untouched(After(s, ts), j)
    ensures (exists more :: EndsInClaim(After(s, ts), more, j, w)) <==> Claimable(After(s, ts), j)
  {
    hide EndsInClaim, Runs, After, Untouched, Claimable;
    var u := After(s, ts);
    if Claimable(u, j) {
      var more := NeverWedged(s, ts, j, w);
    } else {
      forall more
        ensures !EndsInClaim(u, more, j, w)
      {
        NeverClaimed(u, more, j, w);
      }
    }
  }
}
