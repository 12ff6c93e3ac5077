/** The scheduler's strike counter, and how long a worker must have been silent
    before its jobs are taken away. */
module WorkerMonitor {
  import opened Jobs

  const MISS_THRESHOLD: nat := 3
  const HEARTBEAT_TTL: Time := 30_000  // worker key expires this long after a refresh
  const POLL_INTERVAL: Time := 5_000

  // ----- the loop of monitorWorkers -----

  function Strikes(missed: map<WorkerId, nat>, w: WorkerId): nat {
    if w in missed then missed[w] else 0
  }

  /** One look at one worker: the new counter, and whether it is declared dead. */
  function Look(strikes: nat, alive: bool): (nat, bool) {
    if alive then (0, false)
    else if strikes + 1 >= MISS_THRESHOLD then (0, true)
    else (strikes + 1, false)
  }

  class Monitor {
    var missed: map<WorkerId, nat>

    constructor ()
      ensures missed == map[]
    {
      missed := map[];
    }

    /** One look at one worker.  `dead` says that it is declared dead. */
    method LookAt(w: WorkerId, alive: bool) returns (dead: bool)
      modifies this
      ensures (Strikes(missed, w), dead) == Look(Strikes(old(missed), w), alive)
      ensures forall v :: v != w ==> Strikes(missed, v) == Strikes(old(missed), v)
    {
      if alive {
        missed := missed[w := 0];
        return false;
      }
      var misses := (if w in missed then missed[w] else 0) + 1;
      missed := missed[w := misses];
      if misses >= MISS_THRESHOLD {
        missed := missed - {w};
        return true;
      }
      dead := false;
    }
  }

  // ----- one worker over time -----

  /** The worker rewrites its key, or the scheduler looks at it. */
  datatype Event = Refresh(at: Time) | Observe(at: Time)

  /** When the key was last refreshed, and the scheduler's counter. */
  datatype Watch = Watch(refreshed: Time, strikes: nat)

  predicate Alive(s: Watch, now: Time) {
    now < s.refreshed + HEARTBEAT_TTL
  }

  function After(s: Watch, e: Event): Watch {
    match e
    case Refresh(at) => s.(refreshed := at)
    case Observe(at) => s.(strikes := Look(s.strikes, Alive(s, at)).0)
  }

  /** The event is a look that declares the worker dead. */
  predicate Fires(s: Watch, e: Event) {
    e.Observe? && Look(s.strikes, Alive(s, e.at)).1
  }

  function History(s: Watch, es: seq<Event>): Watch {
    if es == [] then s else After(History(s, es[..|es| - 1]), es[|es| - 1])
  }

  /** The index of the last look, if any. */
  function LastLook(es: seq<Event>): (i: int)
    ensures -1 <= i < |es|
    ensures i >= 0 ==> es[i].Observe? && forall m :: i < m < |es| ==> es[m].Refresh?
    ensures i < 0 ==> forall m :: 0 <= m < |es| ==> es[m].Refresh?
  {
    if es == [] then -1
    else if es[|es| - 1].Observe? then |es| - 1
    else LastLook(es[..|es| - 1])
  }

  /** Time does not run backwards, and of any two successive looks the second
      comes at least one poll interval but less than the key's lifetime later. */
  ghost predicate Regular(es: seq<Event>) {
    es == [] ||
    var front, e := es[..|es| - 1], es[|es| - 1];
    var i := LastLook(front);
    && Regular(front)
    && (front != [] ==> front[|front| - 1].at <= e.at)
    && (i >= 0 ==> front[i].at <= e.at)
    && (i >= 0 && e.Observe? ==> POLL_INTERVAL <= e.at - front[i].at < HEARTBEAT_TTL)
  }

  /** With `n` strikes standing, either the key has been refreshed since the last
      look, or it had been dead for `n` looks in a row. */
  lemma {:induction false} Standing(s: Watch, es: seq<Event>)
    requires Regular(es) && s.strikes == 0
    ensures var u := History(s, es);
            var i := LastLook(es);
            && u.strikes < MISS_THRESHOLD
            && (i < 0 ==> u.strikes == 0)
            && (i >= 0 && u.strikes > 0 ==>
                  || es[i].at <= u.refreshed
                  || u.refreshed <= es[i].at - HEARTBEAT_TTL - POLL_INTERVAL * (u.strikes - 1))
  {
    if es != [] {
      Standing(s, es[..|es| - 1]);
    }
  }

  lemma {:induction false} RegularPrefix(es: seq<Event>, k: nat)
    requires Regular(es) && k <= |es|
    ensures Regular(es[..k])
  {
    if k == |es| {
      assert es[..k] == es;
    } else {
      RegularPrefix(es[..|es| - 1], k);
      assert es[..|es| - 1][..k] == es[..k];
    }
  }

  /** If looks come at least 5 s and less than 30 s apart, a worker is declared dead
      only when its key was last refreshed at least 40 s before. */
  lemma DeadForFortySeconds(s: Watch, es: seq<Event>, k: nat)
    requires Regular(es) && s.strikes == 0 && k < |es| && Fires(History(s, es[..k]), es[k])
    ensures History(s, es[..k]).refreshed + 40_000 <= es[k].at
  {
    RegularPrefix(es, k + 1);
    assert es[..k + 1][..k] == es[..k];
    Standing(s, es[..k]);
  }

  /** A worker whose key stays away is declared dead at one of three looks. */
  lemma ThreeLooksSuffice(s: Watch, a: Time, b: Time, c: Time)
    requires s.refreshed + HEARTBEAT_TTL <= a <= b <= c
    ensures || Fires(s, Observe(a))
            || Fires(History(s, [Observe(a)]), Observe(b))
            || Fires(History(s, [Observe(a), Observe(b)]), Observe(c))
  {
    var one, two := [Observe(a)], [Observe(a), Observe(b)];
    assert one[..|one| - 1] == [] && two[..|two| - 1] == one;
    assert History(s, one) == After(s, Observe(a));
    assert History(s, two) == After(History(s, one), Observe(b));
  }

  /** The bound is met exactly by the quickest detection. */
  lemma FortySecondsIsTight()
    ensures var es := [Observe(30_000), Observe(35_000), Observe(40_000)];
            Regular(es) && Fires(History(Watch(0, 0), es[..2]), es[2])
  {
    var es := [Observe(30_000), Observe(35_000), Observe(40_000)];
    var none: seq<Event>, one, two := [], es[..1], es[..2];
    assert one[..|one| - 1] == none && two[..|two| - 1] == one && es[..|es| - 1] == two;
    assert LastLook(none) == -1 && LastLook(one) == 0 && LastLook(two) == 1;
    assert Regular(none) && Regular(one) && Regular(two);
    var start := Watch(0, 0);
    assert History(start, none) == start;
    assert History(start, one) == After(start, es[0]);
    assert History(start, two) == After(Watch(0, 1), es[1]);
  }
}
