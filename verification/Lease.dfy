/** The leader lease: one Redis key with a lifetime, taken with SET NX EX and then
    extended or deleted only by a script that first compares the owner. */
module Lease {
  import opened Wrappers
  import opened Jobs

  const LEASE_TTL: Time := 15_000

  type SchedulerId = nat

  datatype Key = Absent | Held(owner: SchedulerId, expires: Time)

  /** What GET returns. */
  function Holder(key: Key, now: Time): Option<SchedulerId> {
    if key.Held? && now < key.expires then Some(key.owner) else None
  }

  function AfterAcquire(key: Key, me: SchedulerId, now: Time): Key {
    if Holder(key, now).None? then Held(me, now + LEASE_TTL) else key
  }

  function AfterRenew(key: Key, me: SchedulerId, now: Time): Key {
    if Holder(key, now) == Some(me) then Held(me, now + LEASE_TTL) else key
  }

  function AfterRelease(key: Key, me: SchedulerId, now: Time): Key {
    if Holder(key, now) == Some(me) then Absent else key
  }

  /** The key and Redis's clock. */
  class LeaderKey {
    var key: Key
    var now: Time

    constructor ()
      ensures key == Absent && now == 0
    {
      key, now := Absent, 0;
    }

    /** SET key me EX 15 NX */
    method SetNx(me: SchedulerId) returns (ok: bool)
      modifies this`key
      ensures ok <==> Holder(old(key), now).None?
      ensures key == AfterAcquire(old(key), me, now)
    {
      if key.Held? && now < key.expires {
        ok := false;
      } else {
        key, ok := Held(me, now + LEASE_TTL), true;
      }
    }

    method Get() returns (owner: Option<SchedulerId>)
      ensures owner == Holder(key, now)
    {
      owner := if key.Held? && now < key.expires then Some(key.owner) else None;
    }

    method Expire()
      requires Holder(key, now).Some?
      modifies this`key
      ensures key == Held(old(key).owner, now + LEASE_TTL)
    {
      key := Held(key.owner, now + LEASE_TTL);
    }

    method Del()
      modifies this`key
      ensures key == Absent
    {
      key := Absent;
    }
  }

  class LeaderService {
    const schedulerId: SchedulerId
    const redis: LeaderKey

    constructor (schedulerId: SchedulerId, redis: LeaderKey)
      ensures this.schedulerId == schedulerId && this.redis == redis
    {
      this.schedulerId, this.redis := schedulerId, redis;
    }

    method AcquireLeadership() returns (acquired: bool)
      modifies redis`key
      ensures acquired <==> Holder(old(redis.key), redis.now).None?
      ensures acquired ==> redis.key == Held(schedulerId, redis.now + 15_000)
      ensures !acquired ==> redis.key == old(redis.key)
      ensures redis.key == AfterAcquire(old(redis.key), schedulerId, redis.now)
    {
      acquired := redis.SetNx(schedulerId);
    }

    method IsLeader() returns (leader: bool)
      ensures leader <==> Holder(redis.key, redis.now) == Some(schedulerId)
    {
      var owner := redis.Get();
      leader := owner == Some(schedulerId);
    }

    /** A scheduler that is not the holder changes nothing. */
    method RenewLeadership() returns (renewed: bool)
      modifies redis`key
      ensures renewed <==> Holder(old(redis.key), redis.now) == Some(schedulerId)
      ensures renewed ==> redis.key == Held(schedulerId, redis.now + 15_000)
      ensures !renewed ==> redis.key == old(redis.key)
      ensures redis.key == AfterRenew(old(redis.key), schedulerId, redis.now)
    {
      var owner := redis.Get();
      renewed := owner == Some(schedulerId);
      if renewed {
        redis.Expire();
      }
    }

    method ReleaseLeadership()
      modifies redis`key
      ensures Holder(old(redis.key), redis.now) == Some(schedulerId) ==> redis.key == Absent
      ensures Holder(old(redis.key), redis.now) != Some(schedulerId) ==> redis.key == old(redis.key)
      ensures redis.key == AfterRelease(old(redis.key), schedulerId, redis.now)
    {
      var owner := redis.Get();
      if owner == Some(schedulerId) {
        redis.Del();
      }
    }
  }

  // ----- any number of schedulers -----

  /** Where one scheduler's loop stands.  A pass begins with its renewal. */
  datatype Phase = Idle | Candidate | Leading | Sweeping(since: Time)

  datatype Election = Election(key: Key, now: Time, phases: map<SchedulerId, Phase>)

  /** `Stop` ends a pass, or is an exception, a crash or a restart. */
  datatype Step =
    | Check(i: SchedulerId)
    | Acquire(i: SchedulerId)
    | Renew(i: SchedulerId)
    | Stop(i: SchedulerId)
    | Release(i: SchedulerId)
    | Tick(dt: Time)

  function PhaseOf(s: Election, i: SchedulerId): Phase {
    if i in s.phases then s.phases[i] else Idle
  }

  ghost predicate Enabled(s: Election, e: Step) {
    match e
    case Check(i) => PhaseOf(s, i).Idle?
    case Acquire(i) => PhaseOf(s, i).Candidate?
    case Renew(i) => PhaseOf(s, i).Leading?
    case Stop(i) => true
    case Release(i) => PhaseOf(s, i).Idle?  // shutdown waits for the loop to end
    case Tick(_) => true
  }

  function Apply(s: Election, e: Step): Election {
    match e
    case Check(i) =>
      s.(phases := s.phases[i := if Holder(s.key, s.now) == Some(i) then Leading else Candidate])
    case Acquire(i) =>
      s.(key := AfterAcquire(s.key, i, s.now),
         phases := s.phases[i := if Holder(s.key, s.now).None? then Leading else Idle])
    case Renew(i) =>
      s.(key := AfterRenew(s.key, i, s.now),
         phases := s.phases[i := if Holder(s.key, s.now) == Some(i) then Sweeping(s.now) else Idle])
    case Stop(i) => s.(phases := s.phases[i := Idle])
    case Release(i) => s.(key := AfterRelease(s.key, i, s.now))
    case Tick(dt) => s.(now := s.now + dt)
  }

  /** No pass is still running 15 s after its own renewal. */
  ghost predicate Prompt(s: Election) {
    forall i: SchedulerId :: PhaseOf(s, i).Sweeping? ==> s.now < PhaseOf(s, i).since + 15_000
  }

  function After(s: Election, es: seq<Step>): Election {
    if es == [] then s else Apply(After(s, es[..|es| - 1]), es[|es| - 1])
  }

  /** Each step is possible where it is taken. */
  ghost predicate Runs(s: Election, es: seq<Step>) {
    es == [] || (Runs(s, es[..|es| - 1]) && Enabled(After(s, es[..|es| - 1]), es[|es| - 1]))
  }

  /** The same, and every pass is prompt throughout. */
  ghost predicate PromptRun(s: Election, es: seq<Step>) {
    && Runs(s, es)
    && forall k :: 0 <= k <= |es| ==> Prompt(After(s, es[..k]))
  }

  ghost predicate Quiet(s: Election) {
    forall i: SchedulerId :: !PhaseOf(s, i).Sweeping?
  }

  /** Some scheduler other than `i` cannot end or take over the live lease of `i`. */
  lemma LeaseOnlyEndsByItsHolder(s: Election, e: Step, i: SchedulerId)
    requires Holder(s.key, s.now) == Some(i) && Enabled(s, e)
    requires e != Renew(i) && e != Release(i)
    ensures Apply(s, e).key == s.key
  {
    match e
    case Acquire(j) => assert Holder(s.key, s.now).Some?;
    case _ =>
  }

  ghost predicate SweepersHold(s: Election) {
    forall i: SchedulerId :: PhaseOf(s, i).Sweeping? ==> s.key == Held(i, PhaseOf(s, i).since + LEASE_TTL)
  }

  lemma StepKeepsHold(s: Election, e: Step)
    requires SweepersHold(s) && Prompt(s) && Enabled(s, e)
    ensures SweepersHold(Apply(s, e))
  {
    var u := Apply(s, e);
    forall i: SchedulerId | PhaseOf(u, i).Sweeping?
      ensures u.key == Held(i, PhaseOf(u, i).since + LEASE_TTL)
    {
      if e != Renew(i) {
        assert PhaseOf(s, i).Sweeping? && Holder(s.key, s.now) == Some(i);
        if e != Release(i) {
          LeaseOnlyEndsByItsHolder(s, e, i);
        }
      }
    }
  }

  /** A running prompt pass holds the lease it renewed. */
  lemma {:induction false} SweeperHoldsLease(s: Election, es: seq<Step>)
    requires Quiet(s) && PromptRun(s, es)
    ensures SweepersHold(After(s, es))
  {
    if es != [] {
      var front := es[..|es| - 1];
      forall k | 0 <= k <= |front|
        ensures Prompt(After(s, front[..k]))
      {
        assert front[..k] == es[..k];
      }
      SweeperHoldsLease(s, front);
      StepKeepsHold(After(s, front), es[|es| - 1]);
    }
  }

  /** If every pass ends within 15 s of its renewal, sweeps never overlap. */
  lemma SweepsNeverOverlap(s: Election, es: seq<Step>, i: SchedulerId, j: SchedulerId)
    requires Quiet(s) && PromptRun(s, es)
    requires PhaseOf(After(s, es), i).Sweeping? && PhaseOf(After(s, es), j).Sweeping?
    ensures i == j
  {
    SweeperHoldsLease(s, es);
    var u := After(s, es);
    assert u.key.Held? && u.key.owner == i;
  }

  /** And only then: once a pass outlives its 15 s, any idle scheduler can start
      sweeping beside it. */
  lemma OverrunOverlaps(s: Election, es: seq<Step>, i: SchedulerId, j: SchedulerId, dt: Time)
    requires Quiet(s) && PromptRun(s, es) && i != j
    requires var u := After(s, es);
             && PhaseOf(u, i).Sweeping? && PhaseOf(u, j).Idle?
             && u.now + dt >= PhaseOf(u, i).since + 15_000
    ensures var more := es + [Tick(dt), Check(j), Acquire(j), Renew(j)];
            && Runs(s, more)
            && PhaseOf(After(s, more), i).Sweeping? && PhaseOf(After(s, more), j).Sweeping?
  {
    SweeperHoldsLease(s, es);
    var a := es + [Tick(dt)];
    var b := a + [Check(j)];
    var c := b + [Acquire(j)];
    var d := c + [Renew(j)];
    assert d == es + [Tick(dt), Check(j), Acquire(j), Renew(j)];
    OneMore(s, es, Tick(dt));
    OneMore(s, a, Check(j));
    OneMore(s, b, Acquire(j));
    OneMore(s, c, Renew(j));
  }

  lemma OneMore(s: Election, es: seq<Step>, e: Step)
    ensures After(s, es + [e]) == Apply(After(s, es), e)
    ensures Runs(s, es + [e]) <==> Runs(s, es) && Enabled(After(s, es), e)
  {
    assert (es + [e])[..|es + [e]| - 1] == es;
  }
}
