/** The five polled Redis lists refine one priority queue. */
module Dispatch {
  import opened Wrappers
  import opened Jobs
  import opened RedisLists

  /** One waiting ID; level 4 is the legacy `main-queue`. */
  datatype Entry = Entry(level: nat, job: JobId)

  /** The IDs of one level, newest first, as LPUSH leaves them. */
  function AtLevel(es: seq<Entry>, level: nat): seq<JobId> {
    if es == [] then []
    else
      var rest := AtLevel(es[..|es| - 1], level);
      var e := es[|es| - 1];
      if e.level == level then [e.job] + rest else rest
  }

  /** `i` is the oldest entry of the highest non-empty level. */
  ghost predicate IsNext(es: seq<Entry>, i: nat) {
    && i < |es|
    && (forall k :: 0 <= k < |es| ==> es[i].level <= es[k].level)
    && (forall k :: 0 <= k < i ==> es[i].level < es[k].level)
  }

  function Without(es: seq<Entry>, i: nat): seq<Entry>
    requires i < |es|
  {
    es[..i] + es[i + 1..]
  }

  function AllJobs(q: Queues): multiset<JobId> {
    multiset(q[0]) + multiset(q[1]) + multiset(q[2]) + multiset(q[3]) + multiset(q[4]) + multiset(q[5])
  }

  /** The arrivals that leave `main-queue` like this. */
  function Arrived(ids: seq<JobId>): seq<Entry> {
    if ids == [] then [] else Arrived(ids[1..]) + [Entry(MAIN, ids[0])]
  }

  lemma {:induction false} ArrivedAtMain(ids: seq<JobId>)
    ensures |Arrived(ids)| == |ids| && forall e :: e in Arrived(ids) ==> e.level == MAIN
    ensures forall level: nat :: AtLevel(Arrived(ids), level) == if level == MAIN then ids else []
  {
    if ids != [] {
      ArrivedAtMain(ids[1..]);
      forall level: nat
        ensures AtLevel(Arrived(ids), level) == if level == MAIN then ids else []
      {
        Arrives(Arrived(ids[1..]), Entry(MAIN, ids[0]), level);
      }
    }
  }

  lemma Arrives(es: seq<Entry>, e: Entry, level: nat)
    ensures AtLevel(es + [e], level) == (if e.level == level then [e.job] else []) + AtLevel(es, level)
  {
    assert (es + [e])[..|es|] == es;
  }

  class DispatchLists {
    var lists: Queues
    ghost var arrivals: seq<Entry>  // what waits, oldest first

    ghost predicate Valid()
      reads this
    {
      Represents(lists, arrivals)
    }

    /** Empty but for what an older version may have left in `main-queue`. */
    constructor (legacy: seq<JobId>)
      ensures Valid() && lists == [[], [], [], [], legacy, []] && |arrivals| == |legacy|
    {
      lists := [[], [], [], [], legacy, []];
      arrivals := Arrived(legacy);
      ArrivedAtMain(legacy);
    }

    /** LPUSH by `QueueService.enqueue` or `enqueueJob`. */
    method PushJob(j: JobId, p: Priority)
      requires Valid()
      modifies this
      ensures Valid() && arrivals == old(arrivals) + [Entry(Level(p), j)]
      ensures lists[PROCESSING] == old(lists)[PROCESSING]
    {
      lists := Enqueue(lists, p, j);
      arrivals := arrivals + [Entry(Level(p), j)];
      assert arrivals[..|arrivals| - 1] == old(arrivals);
    }

    /** One uninterrupted round of `waitForJob`: RPOPLPUSH on each list in turn.
        It takes the oldest entry of the highest non-empty level, number `at`. */
    method Scan() returns (popped: Option<JobId>, ghost at: nat)
      requires Valid()
      modifies this
      ensures Valid() && AllJobs(lists) == AllJobs(old(lists))
      ensures popped.None? <==> old(arrivals) == []
      ensures popped.None? ==> arrivals == old(arrivals) && lists == old(lists)
      ensures popped.Some? ==>
                && IsNext(old(arrivals), at) && popped.value == old(arrivals)[at].job
                && arrivals == Without(old(arrivals), at)
                && lists[PROCESSING] == [popped.value] + old(lists)[PROCESSING]
    {
      hide AllJobs, AtLevel, Pop, Without, IsNext;
      var level := 0;
      while level <= MAIN
        invariant level <= MAIN + 1
        invariant forall k :: 0 <= k < level ==> lists[k] == []
        invariant lists == old(lists) && arrivals == old(arrivals)
      {
        if lists[level] != [] {
          at := NextEntry(lists, arrivals, level);
          popped := Some(lists[level][|lists[level]| - 1]);
          lists := Pop(lists, level);
          arrivals := Without(arrivals, at);
          return;
        }
        level := level + 1;
      }
      if arrivals != [] {
        EntryListed(arrivals, 0);
      }
      popped, at := None, 0;
    }
  }

  ghost predicate Represents(q: Queues, es: seq<Entry>) {
    && (forall e :: e in es ==> e.level <= MAIN)
    && (forall level :: 0 <= level <= MAIN ==> q[level] == AtLevel(es, level))
  }

  /** The entry that a pop from the first non-empty list removes. */
  lemma NextEntry(q: Queues, es: seq<Entry>, level: nat) returns (i: nat)
    requires Represents(q, es) && level <= MAIN && q[level] != []
    requires forall k :: 0 <= k < level ==> q[k] == []
    ensures i < |es| && IsNext(es, i) && es[i].job == q[level][|q[level]| - 1]
    ensures Represents(Pop(q, level), Without(es, i)) && AllJobs(Pop(q, level)) == AllJobs(q)
    ensures Pop(q, level)[PROCESSING] == [es[i].job] + q[PROCESSING]
  {
    hide AllJobs, AtLevel;
    i := OldestAt(es, level);
    forall k: nat | k <= MAIN
      ensures Pop(q, level)[k] == AtLevel(Without(es, i), k)
    {
      RemovedAt(es, i, k);
    }
    NoneHigher(es, level);
    PopConserves(q, level);
  }

  lemma {:induction false} EntryListed(es: seq<Entry>, i: nat)
    requires i < |es|
    ensures es[i].job in AtLevel(es, es[i].level)
  {
    if i < |es| - 1 {
      EntryListed(es[..|es| - 1], i);
    }
  }

  /** Levels with an empty list have no entries. */
  lemma NoneHigher(es: seq<Entry>, level: nat)
    requires forall k :: 0 <= k < level ==> AtLevel(es, k) == []
    ensures forall i :: 0 <= i < |es| ==> level <= es[i].level
  {
    forall i | 0 <= i < |es|
      ensures level <= es[i].level
    {
      EntryListed(es, i);
    }
  }

  /** The last ID of a list is the first entry of its level. */
  lemma {:induction false} OldestAt(es: seq<Entry>, level: nat) returns (i: nat)
    requires AtLevel(es, level) != []
    ensures i < |es| && es[i].level == level && es[i].job == AtLevel(es, level)[|AtLevel(es, level)| - 1]
    ensures forall k :: 0 <= k < i ==> es[k].level != level
  {
    var front := es[..|es| - 1];
    if AtLevel(front, level) == [] {
      i := |es| - 1;
      forall k | 0 <= k < i
        ensures es[k].level != level
      {
        if es[k].level == level {
          EntryListed(front, k);
        }
      }
    } else {
      i := OldestAt(front, level);
    }
  }

  /** Taking out the first entry of its level drops the last ID of that list only. */
  lemma {:induction false} RemovedAt(es: seq<Entry>, i: nat, level: nat)
    requires i < |es| && forall k :: 0 <= k < i ==> es[k].level != es[i].level
    ensures level == es[i].level ==> AtLevel(es, level) != []
    ensures AtLevel(Without(es, i), level) ==
              if level == es[i].level then AtLevel(es, level)[..|AtLevel(es, level)| - 1] else AtLevel(es, level)
  {
    var n := |es| - 1;
    var front := es[..n];
    if i == n {
      assert Without(es, i) == front;
      if level == es[i].level && AtLevel(front, level) != [] {
        var k := OldestAt(front, level);
        assert false;
      }
    } else {
      RemovedAt(front, i, level);
      assert Without(es, i)[..n - 1] == Without(front, i);
      assert Without(es, i)[n - 1] == es[n];
    }
  }

  lemma PopConserves(q: Queues, i: nat)
    requires i <= MAIN && q[i] != []
    ensures AllJobs(Pop(q, i)) == AllJobs(q)
  {
    var j := q[i][|q[i]| - 1];
    assert q[i] == q[i][..|q[i]| - 1] + [j];
    var p := Pop(q, i);
    assert multiset(p[PROCESSING]) == multiset{j} + multiset(q[PROCESSING]);
    assert multiset(q[i]) == multiset(p[i]) + multiset{j};
    assert forall k :: 0 <= k <= MAIN && k != i ==> p[k] == q[k];
    hide Pop;
  }
}
