/** The six Redis lists.  Indices follow the order in which workers poll them
    and in which `isJobInAnyQueue` looks through them. */
module RedisLists {
  import opened Jobs

  const MAIN: nat := 4
  const PROCESSING: nat := 5

  /** critical, high, medium, low, main-queue, processing-queue */
  type Queues = q: seq<seq<JobId>> | |q| == 6 witness [[], [], [], [], [], []]

  /** The order of `PRIORITY_QUEUES`. */
  const URGENCY: seq<Priority> := [Critical, High, Medium, Low]

  /** `getQueueForPriority`: the list that is polled for this priority. */
  function Level(p: Priority): (level: nat)
    ensures level < MAIN == |URGENCY| && URGENCY[level] == p
  {
    match p
    case Critical => 0
    case High => 1
    case Medium => 2
    case Low => 3
  }

  /** LPUSH onto the list of the given priority. */
  function Enqueue(q: Queues, p: Priority, j: JobId): Queues {
    q[Level(p) := [j] + q[Level(p)]]
  }

  /** RPOPLPUSH from list `i` to `processing-queue`. */
  function Pop(q: Queues, i: nat): Queues
    requires i <= MAIN && q[i] != []
  {
    var j := q[i][|q[i]| - 1];
    q[i := q[i][..|q[i]| - 1]][PROCESSING := [j] + q[PROCESSING]]
  }

  /** LREM key 1 j: removes the occurrence nearest the head. */
  function RemoveFirst(l: seq<JobId>, j: JobId): seq<JobId> {
    if l == [] then [] else if l[0] == j then l[1..] else [l[0]] + RemoveFirst(l[1..], j)
  }

  function Forget(q: Queues, j: JobId): Queues {
    q[PROCESSING := RemoveFirst(q[PROCESSING], j)]
  }

  /** `j` waits in a list that workers poll. */
  ghost predicate Waiting(q: Queues, j: JobId) {
    exists i :: 0 <= i <= MAIN && j in q[i]
  }

  ghost predicate InAnyList(q: Queues, j: JobId) {
    exists i :: 0 <= i <= PROCESSING && j in q[i]
  }

  lemma EnqueueWaits(q: Queues, p: Priority, j: JobId)
    ensures Waiting(Enqueue(q, p, j), j)
    ensures forall k :: Waiting(q, k) ==> Waiting(Enqueue(q, p, j), k)
    ensures forall k :: Waiting(Enqueue(q, p, j), k) ==> Waiting(q, k) || k == j
    ensures Enqueue(q, p, j)[PROCESSING] == q[PROCESSING]
  {
    var e := Enqueue(q, p, j);
    assert e[Level(p)][0] == j;
    forall k | Waiting(q, k)
      ensures Waiting(e, k)
    {
      var i :| 0 <= i <= MAIN && k in q[i];
      assert k in e[i];
    }
  }

  lemma RemoveFirstMultiset(l: seq<JobId>, j: JobId)
    ensures multiset(RemoveFirst(l, j)) == multiset(l) - multiset{j}
  {
    if l != [] {
      assert l == [l[0]] + l[1..];
      if l[0] != j {
        RemoveFirstMultiset(l[1..], j);
      }
    }
  }

  /** LREM takes the entry nearest the head. */
  lemma {:induction false} RemovesFirst(a: seq<JobId>, j: JobId, b: seq<JobId>)
    requires j !in a
    ensures RemoveFirst(a + ([j] + b), j) == a + b
  {
    if a == [] {
      assert a + ([j] + b) == [j] + b && a + b == b && ([j] + b)[1..] == b;
    } else {
      var l, rest := a + ([j] + b), a[1..];
      assert a == [a[0]] + rest && l == [a[0]] + (rest + ([j] + b));
      RemovesFirst(rest, j, b);
      assert l[1..] == rest + ([j] + b) && l[0] == a[0];
      assert [a[0]] + (rest + b) == a + b;
    }
  }

  lemma ForgetKeepsWaiting(q: Queues, k: JobId)
    ensures forall j :: Waiting(Forget(q, k), j) <==> Waiting(q, j)
  {
    assert forall i :: 0 <= i <= MAIN ==> Forget(q, k)[i] == q[i];
  }
}
