/** The entries of the six lists over whole runs: where they come from, where they go,
    and that a job is always pushed to the list of the priority it was submitted with. */
module Entries {
  import opened Jobs
  import opened RedisLists
  import opened Protocol
  import opened Fencing

  // ----- priorities -----

  /** No write changes a priority. */
  lemma PriorityKept(s: World, t: Step, j: JobId)
    requires Enabled(s, t) && j in s.rows
    ensures j in Apply(s, t).rows && Apply(s, t).rows[j].priority == s.rows[j].priority
  {
    hide WorkerApply, CallApply, AdvanceApply, IsPage, Current, WorkerWrites, CallWrites, Matches, Subject;
    match t
    case ByWorker(a, w) => WorkerRows(s, a, w);
    case ByCall(c, k) => CallRows(s, c, k);
    case BySweep(x, p) => if p.Advance? { AdvanceRows(s, x, s.sweeps[x]); }
    case _ =>
  }

  lemma InsertStores(s: World, c: nat, j: JobId, p: Priority)
    requires Enabled(s, ByCall(c, InsertJob(j, p)))
    ensures var s' := Apply(s, ByCall(c, InsertJob(j, p))); j in s'.rows && s'.rows[j].priority == p
  {
    hide Enqueue;
  }

  /** A job has the priority it was submitted with at every later moment. */
  lemma {:induction false} SubmittedPriority(s: World, ts: seq<Step>, i: nat, k: nat, c: nat, j: JobId, p: Priority)
    requires Runs(s, ts) && i < k <= |ts| && ts[i] == ByCall(c, InsertJob(j, p))
    ensures Runs(s, ts[..k]) && j in After(s, ts[..k]).rows && After(s, ts[..k]).rows[j].priority == p
    decreases k
  {
    hide Apply, Enabled;
    PrefixRuns(s, ts, k);
    PrefixRuns(s, ts, k - 1);
    if i == k - 1 {
      InsertStores(After(s, ts[..i]), c, j, p);
    } else {
      SubmittedPriority(s, ts, i, k - 1, c, j, p);
      PriorityKept(After(s, ts[..k - 1]), ts[k - 1], j);
    }
  }

  /** The step is an LPUSH of `j`, by a request or a sweep. */
  ghost predicate Pushes(s: World, t: Step, j: JobId) {
    || (t.ByCall? && t.c.PushJob? && t.call in s.calls && s.calls[t.call].job == j)
    || (t.BySweep? && t.p.Advance? && t.sweep in s.sweeps && Moves(s.sweeps[t.sweep]) &&
        IsPush(s.sweeps[t.sweep]) && Subject(s.sweeps[t.sweep]).job == j)
  }

  lemma PushEffect(s: World, t: Step, j: JobId)
    requires Enabled(s, t) && Pushes(s, t, j)
    ensures Apply(s, t).queues == Enqueue(s.queues, PriorityOf(s, j), j)
  {
    hide Enqueue, AdvanceApply, NextCall;
    if t.BySweep? {
      AdvanceRest(s, t.sweep, s.sweeps[t.sweep]);
    }
  }

  /** Every push of a job, by the request that submitted it or by any sweep, puts one
      entry at the head of the list of the priority it was submitted with. */
  lemma PushedByPriority(s: World, ts: seq<Step>, i: nat, k: nat, c: nat, j: JobId, p: Priority)
    requires Runs(s, ts) && i < k < |ts| && ts[i] == ByCall(c, InsertJob(j, p))
    requires Runs(s, ts[..k]) && Pushes(After(s, ts[..k]), ts[k], j)
    ensures Runs(s, ts[..k + 1])
    ensures var q, q' := After(s, ts[..k]).queues, After(s, ts[..k + 1]).queues;
            && q'[Level(p)] == [j] + q[Level(p)]
            && forall l :: 0 <= l <= PROCESSING && l != Level(p) ==> q'[l] == q[l]
  {
    hide Apply, Enabled, Pushes;
    PrefixRuns(s, ts, k);
    SubmittedPriority(s, ts, i, k, c, j, p);
    PushEffect(After(s, ts[..k]), ts[k], j);
  }

  // ----- accounts of the lists -----

  /** The step is an RPOPLPUSH of `j` from list `l`. */
  predicate PopsFrom(s: World, t: Step, l: nat, j: JobId) {
    && t.ByWorker? && t.w.PopJob? && t.w.list == l && l <= MAIN
    && s.queues[l] != [] && s.queues[l][|s.queues[l]| - 1] == j
  }

  /** The step is an LREM of `j`. */
  predicate Removes(s: World, t: Step, j: JobId) {
    || (t.ByWorker? && t.w.CleanUp? && t.attempt in s.attempts && s.attempts[t.attempt].job == j)
    || (t.BySweep? && t.p.Advance? && t.sweep in s.sweeps &&
        (s.sweeps[t.sweep].ScanRemoving? || s.sweeps[t.sweep].RecoverRemoving?) && s.sweeps[t.sweep].job == j)
  }

  /** Entries of `j` that the step adds to list `l`. */
  ghost function Added(s: World, t: Step, l: nat, j: JobId): nat {
    if l == PROCESSING then One(exists k :: PopsFrom(s, t, k, j))
    else One(Pushes(s, t, j) && l == Level(PriorityOf(s, j)))
  }

  /** Entries of `j` that it takes from the list. */
  ghost function Taken(s: World, t: Step, l: nat, j: JobId): nat
    requires l <= PROCESSING
  {
    if l == PROCESSING then One(Removes(s, t, j) && j in s.queues[PROCESSING]) else One(PopsFrom(s, t, l, j))
  }

  function Count(q: Queues, l: nat, j: JobId): nat
    requires l <= PROCESSING
  {
    multiset(q[l])[j]
  }

  lemma EnqueueEntries(q: Queues, p: Priority, k: JobId, l: nat, j: JobId)
    requires l <= PROCESSING
    ensures Count(Enqueue(q, p, k), l, j) == Count(q, l, j) + One(k == j && l == Level(p))
  {
  }

  lemma ForgetEntries(q: Queues, k: JobId, l: nat, j: JobId)
    requires l <= PROCESSING
    ensures Count(Forget(q, k), l, j) == Count(q, l, j) - One(l == PROCESSING && k == j && j in q[PROCESSING])
  {
    RemoveFirstMultiset(q[PROCESSING], k);
  }

  lemma PopEntries(q: Queues, i: nat, l: nat, j: JobId)
    requires l <= PROCESSING && i <= MAIN && q[i] != []
    ensures var last := q[i][|q[i]| - 1];
            Count(Pop(q, i), l, j) ==
            Count(q, l, j) + One(l == PROCESSING && last == j) - One(l == i && last == j)
  {
    assert q[i] == q[i][..|q[i]| - 1] + [q[i][|q[i]| - 1]];
  }

  /** What each step does to the entries of each job in each list. */
  lemma StepEntries(s: World, t: Step, l: nat, j: JobId)
    requires Enabled(s, t) && l <= PROCESSING
    ensures Count(Apply(s, t).queues, l, j) == Count(s.queues, l, j) + Added(s, t, l, j) - Taken(s, t, l, j)
  {
    hide Count;
    match t
    case ByWorker(a, w) => WorkerEntries(s, a, w, l, j);
    case ByCall(c, k) => CallEntries(s, c, k, l, j);
    case BySweep(x, p) => SweepEntries(s, x, p, l, j);
    case _ =>
  }

  lemma WorkerEntries(s: World, a: nat, w: WorkerStep, l: nat, j: JobId)
    requires WorkerEnabled(s, a, w) && l <= PROCESSING
    ensures var t := ByWorker(a, w);
            Count(WorkerApply(s, a, w).queues, l, j) ==
            Count(s.queues, l, j) + Added(s, t, l, j) - Taken(s, t, l, j)
  {
    hide Count, Pop, Forget, NextPc, WorkerGuard, WorkerRow, WorkerTally;
    if w.PopJob? {
      PopEntries(s.queues, w.list, l, j);
      assert PopsFrom(s, ByWorker(a, w), w.list, s.queues[w.list][|s.queues[w.list]| - 1]);
    } else if w.CleanUp? {
      ForgetEntries(s.queues, s.attempts[a].job, l, j);
    }
  }

  lemma CallEntries(s: World, c: nat, k: CallStep, l: nat, j: JobId)
    requires CallEnabled(s, c, k) && l <= PROCESSING
    ensures var t := ByCall(c, k);
            Count(CallApply(s, c, k).queues, l, j) ==
            Count(s.queues, l, j) + Added(s, t, l, j) - Taken(s, t, l, j)
  {
    hide Count, Enqueue, NextCall, CallRow, CallTally;
    if k.PushJob? {
      EnqueueEntries(s.queues, PriorityOf(s, s.calls[c].job), s.calls[c].job, l, j);
    }
  }

  lemma SweepEntries(s: World, x: nat, p: SweepStep, l: nat, j: JobId)
    requires SweepEnabled(s, x, p) && l <= PROCESSING
    ensures var t := BySweep(x, p);
            Count(SweepApply(s, x, p).queues, l, j) ==
            Count(s.queues, l, j) + Added(s, t, l, j) - Taken(s, t, l, j)
  {
    hide Count, Enqueue, Forget, AdvanceApply, IsPage, Current;
    if p.Advance? {
      var at := s.sweeps[x];
      AdvanceRest(s, x, at);
      if IsPush(at) {
        EnqueueEntries(s.queues, PriorityOf(s, Subject(at).job), Subject(at).job, l, j);
      } else if at.ScanRemoving? || at.RecoverRemoving? {
        ForgetEntries(s.queues, at.job, l, j);
      }
    }
  }

  ghost function AllAdded(s: World, ts: seq<Step>, l: nat, j: JobId): nat
    requires Runs(s, ts)
  {
    if ts == [] then 0
    else
      var front := ts[..|ts| - 1];
      AllAdded(s, front, l, j) + Added(After(s, front), ts[|ts| - 1], l, j)
  }

  ghost function AllTaken(s: World, ts: seq<Step>, l: nat, j: JobId): nat
    requires Runs(s, ts) && l <= PROCESSING
  {
    if ts == [] then 0
    else
      var front := ts[..|ts| - 1];
      AllTaken(s, front, l, j) + Taken(After(s, front), ts[|ts| - 1], l, j)
  }

  /** In every run and for every job, the entries of a polled list are those from before
      plus the pushes at its priority minus the pops; those of `processing-queue` are
      those from before plus the pops minus the removals. */
  lemma {:induction false} EntriesBalance(s: World, ts: seq<Step>, l: nat, j: JobId)
    requires Runs(s, ts) && l <= PROCESSING
    ensures Count(After(s, ts).queues, l, j) + AllTaken(s, ts, l, j) ==
            Count(s.queues, l, j) + AllAdded(s, ts, l, j)
    decreases |ts|
  {
    hide Apply, Enabled, Added, Taken, Count;
    if ts != [] {
      var front := ts[..|ts| - 1];
      EntriesBalance(s, front, l, j);
      StepEntries(After(s, front), ts[|ts| - 1], l, j);
    }
  }
}
