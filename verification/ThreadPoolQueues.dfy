// The worker-local queues of the dynamic pool, and the bag of jobs they hold together.

module ThreadPoolQueues {
  import opened PoolSpec

  datatype WorkerQueue = WorkerQueue(index: Id, jobs: seq<Job>)

  /** All jobs in the local queues, in no particular order. */
  ghost function LocalBag(queues: seq<WorkerQueue>): multiset<Job> {
    if queues == [] then multiset{} else multiset(queues[0].jobs) + LocalBag(queues[1..])
  }

  ghost function Indices(queues: seq<WorkerQueue>): set<Id> {
    set i | 0 <= i < |queues| :: queues[i].index
  }

  ghost predicate Distinct(queues: seq<WorkerQueue>) {
    forall i, j :: 0 <= i < j < |queues| ==> queues[i].index != queues[j].index
  }

  ghost predicate AllEmpty(queues: seq<WorkerQueue>) {
    forall i :: 0 <= i < |queues| ==> queues[i].jobs == []
  }

  /** `job` was the front of queue `i`, and taking it is the only change. */
  ghost predicate FrontTaken(queues: seq<WorkerQueue>, i: int, job: Job, queues': seq<WorkerQueue>) {
    && 0 <= i < |queues| && queues[i].jobs != [] && queues[i].jobs[0] == job
    && queues' == queues[i := queues[i].(jobs := queues[i].jobs[1..])]
  }

  /** `j` is added at the back of queue `i`, and nothing else changes. */
  ghost predicate AtBack(queues: seq<WorkerQueue>, i: int, j: Job, queues': seq<WorkerQueue>) {
    0 <= i < |queues| && queues' == queues[i := queues[i].(jobs := queues[i].jobs + [j])]
  }

  /** Queue `i` belongs to worker `w`, and removing it is the only change. */
  ghost predicate RemovedAt(queues: seq<WorkerQueue>, i: int, w: Id, queues': seq<WorkerQueue>) {
    0 <= i < |queues| && queues[i].index == w && queues' == queues[..i] + queues[i + 1..]
  }

  ghost predicate Emptied(queues: seq<WorkerQueue>, queues': seq<WorkerQueue>) {
    |queues'| == |queues| && forall i :: 0 <= i < |queues| ==> queues'[i] == WorkerQueue(queues[i].index, [])
  }

  /** `jobs` are all the jobs of the queues, which are empty afterwards. */
  ghost predicate DrainedOf(jobs: seq<Job>, queues: seq<WorkerQueue>, queues': seq<WorkerQueue>) {
    multiset(jobs) == LocalBag(queues) && Emptied(queues, queues')
  }

  /** A thief takes the oldest job of its victim; that is also the newest one exactly when there is no other. */
  lemma StealsNewestExactlyWhen(queues: seq<WorkerQueue>, i: int, job: Job, queues': seq<WorkerQueue>)
    requires FrontTaken(queues, i, job, queues')
    requires forall j, k :: 0 <= j < k < |queues[i].jobs| ==> queues[i].jobs[j] != queues[i].jobs[k]
    ensures job == queues[i].jobs[|queues[i].jobs| - 1] <==> |queues[i].jobs| == 1
    ensures |queues[i].jobs| > 1 ==> queues[i].jobs[|queues[i].jobs| - 1] in queues'[i].jobs
  {
    var jobs := queues[i].jobs;
    if |jobs| > 1 {
      assert jobs[1..][|jobs| - 2] == jobs[|jobs| - 1];
    }
  }

  /** It does: with jobs 1 and 2 queued in this order, job 1 is taken. */
  lemma StealsOldest() returns (queues: seq<WorkerQueue>, queues': seq<WorkerQueue>)
    ensures queues == [WorkerQueue(0, [1, 2])] && FrontTaken(queues, 0, 1, queues')
    ensures queues' == [WorkerQueue(0, [2])]
  {
    queues := [WorkerQueue(0, [1, 2])];
    queues' := [WorkerQueue(0, [2])];
    assert [1, 2][1..] == [2];
  }

  /** The worker took the front of its own queue or, that one being empty, of another one. */
  ghost predicate TookLocally(queues: seq<WorkerQueue>, worker: Id, job: Job, queues': seq<WorkerQueue>) {
    exists i :: FrontTaken(queues, i, job, queues') && (queues[i].index == worker || OwnEmpty(queues, worker))
  }

  /** The job was at the front of the global queue. */
  ghost predicate GlobalFront(queue: seq<Job>, job: Job, queue': seq<Job>) {
    queue == [job] + queue'
  }

  /** The job came off a local queue, or off the front of the global queue when no local queue held any. */
  ghost predicate TookNext(queue: seq<Job>, queues: seq<WorkerQueue>, worker: Id, job: Job,
                           queue': seq<Job>, queues': seq<WorkerQueue>) {
    || (queue' == queue && TookLocally(queues, worker, job, queues'))
    || (GlobalFront(queue, job, queue') && queues' == queues && LocalBag(queues) == multiset{})
  }

  /** The job came off the front of the worker's own queue; or, that being empty, off the first other queue that had
      one in wrap-around order from the cursor; or, no local queue having any, off the front of the global queue. */
  ghost predicate TookInOrder(queue: seq<Job>, queues: seq<WorkerQueue>, worker: Id, cursor: int, job: Job,
                              queue': seq<Job>, queues': seq<WorkerQueue>) {
    || (queue' == queue && TookOwn(queues, worker, job, queues'))
    || (queue' == queue && OwnEmpty(queues, worker) && Stole(queues, worker, cursor, job, queues'))
    || (GlobalFront(queue, job, queue') && queues' == queues && LocalBag(queues) == multiset{})
  }

  ghost predicate TookOwn(queues: seq<WorkerQueue>, worker: Id, job: Job, queues': seq<WorkerQueue>) {
    exists i :: FrontTaken(queues, i, job, queues') && queues[i].index == worker
  }

  ghost predicate Stole(queues: seq<WorkerQueue>, worker: Id, cursor: int, job: Job, queues': seq<WorkerQueue>) {
    exists k :: StolenAt(queues, worker, cursor, k, job, queues')
  }

  lemma InOrderIsNext(queue: seq<Job>, queues: seq<WorkerQueue>, worker: Id, cursor: int, job: Job,
                      queue': seq<Job>, queues': seq<WorkerQueue>)
    requires TookInOrder(queue, queues, worker, cursor, job, queue', queues')
    ensures TookNext(queue, queues, worker, job, queue', queues')
  {
    hide LocalBag, GlobalFront, OwnEmpty;
    if queue' == queue && OwnEmpty(queues, worker) && Stole(queues, worker, cursor, job, queues') {
      var k :| StolenAt(queues, worker, cursor, k, job, queues');
      assert FrontTaken(queues, Probe(cursor % |queues|, k, |queues|), job, queues');
    }
  }

  lemma LocalOrGlobal(queue: seq<Job>, queues: seq<WorkerQueue>, worker: Id, job: Job,
                      queue': seq<Job>, queues': seq<WorkerQueue>)
    requires || (queue' == queue && TookLocally(queues, worker, job, queues'))
             || (GlobalFront(queue, job, queue') && queues' == queues && LocalBag(queues) == multiset{})
    ensures TookNext(queue, queues, worker, job, queue', queues')
  {
  }

  ghost predicate OwnEmpty(queues: seq<WorkerQueue>, worker: Id) {
    forall k :: 0 <= k < |queues| && queues[k].index == worker ==> queues[k].jobs == []
  }

  lemma {:induction false} BagOfConcat(a: seq<WorkerQueue>, b: seq<WorkerQueue>)
    ensures LocalBag(a + b) == LocalBag(a) + LocalBag(b)
  {
    if a == [] {
      assert a + b == b;
    } else {
      assert (a + b)[1..] == a[1..] + b;
      BagOfConcat(a[1..], b);
    }
  }

  lemma BagOfOne(q: WorkerQueue)
    ensures LocalBag([q]) == multiset(q.jobs)
  {
    assert [q][1..] == [];
  }

  /** The bag around one queue: everything before it, the queue itself, everything after it. */
  lemma BagAround(queues: seq<WorkerQueue>, i: int)
    requires 0 <= i < |queues|
    ensures LocalBag(queues) == LocalBag(queues[..i]) + multiset(queues[i].jobs) + LocalBag(queues[i + 1..])
  {
    hide LocalBag;
    assert queues == queues[..i] + ([queues[i]] + queues[i + 1..]);
    BagOfConcat(queues[..i], [queues[i]] + queues[i + 1..]);
    BagOfConcat([queues[i]], queues[i + 1..]);
    BagOfOne(queues[i]);
  }

  /** Replacing the jobs of one queue changes the bag by those jobs only, and no registration. */
  lemma BagOfUpdate(queues: seq<WorkerQueue>, i: int, jobs: seq<Job>)
    requires 0 <= i < |queues|
    ensures var queues' := queues[i := queues[i].(jobs := jobs)];
      && LocalBag(queues') == LocalBag(queues) - multiset(queues[i].jobs) + multiset(jobs)
      && multiset(queues[i].jobs) <= LocalBag(queues)
      && Indices(queues') == Indices(queues)
      && (Distinct(queues) ==> Distinct(queues'))
  {
    hide LocalBag;
    var queues' := queues[i := queues[i].(jobs := jobs)];
    BagAround(queues, i);
    BagAround(queues', i);
    assert queues'[..i] == queues[..i] && queues'[i + 1..] == queues[i + 1..];
    assert forall k :: 0 <= k < |queues| ==> queues'[k].index == queues[k].index;
    assert Indices(queues') == Indices(queues);
  }

  /** Removing one queue removes exactly its jobs and its registration. */
  lemma BagOfRemove(queues: seq<WorkerQueue>, i: int)
    requires 0 <= i < |queues| && Distinct(queues)
    ensures var queues' := queues[..i] + queues[i + 1..];
      && LocalBag(queues) == LocalBag(queues') + multiset(queues[i].jobs)
      && Indices(queues') == Indices(queues) - {queues[i].index}
      && Distinct(queues')
  {
    hide LocalBag, Indices, Distinct;
    BagAround(queues, i);
    BagOfConcat(queues[..i], queues[i + 1..]);
    IndicesOfRemove(queues, i);
  }

  lemma IndicesOfRemove(queues: seq<WorkerQueue>, i: int)
    requires 0 <= i < |queues| && Distinct(queues)
    ensures var queues' := queues[..i] + queues[i + 1..];
      Indices(queues') == Indices(queues) - {queues[i].index} && Distinct(queues')
  {
    var queues' := queues[..i] + queues[i + 1..];
    assert forall k :: 0 <= k < |queues'| ==> queues'[k] == queues[if k < i then k else k + 1];
    forall x | x in Indices(queues) - {queues[i].index}
      ensures x in Indices(queues')
    {
      var k :| 0 <= k < |queues| && queues[k].index == x;
      assert queues'[if k < i then k else k - 1].index == x;
    }
  }

  /** Registering an empty queue under a new index changes no job. */
  lemma BagOfAppend(queues: seq<WorkerQueue>, index: Id)
    requires Distinct(queues) && index !in Indices(queues)
    ensures var queues' := queues + [WorkerQueue(index, [])];
      && LocalBag(queues') == LocalBag(queues)
      && Indices(queues') == Indices(queues) + {index}
      && Distinct(queues')
  {
    var queues' := queues + [WorkerQueue(index, [])];
    BagOfConcat(queues, [WorkerQueue(index, [])]);
    BagOfOne(WorkerQueue(index, []));
    assert queues'[|queues|].index == index;
    assert forall k :: 0 <= k < |queues| ==> queues'[k] == queues[k] && queues[k].index in Indices(queues);
    forall x | x in Indices(queues)
      ensures x in Indices(queues')
    {
      var k :| 0 <= k < |queues| && queues[k].index == x;
      assert queues'[k].index == x;
    }
  }

  lemma {:induction false} BagEmpty(queues: seq<WorkerQueue>)
    ensures LocalBag(queues) == multiset{} <==> AllEmpty(queues)
  {
    if queues != [] {
      BagEmpty(queues[1..]);
      assert queues[0].jobs != [] ==> queues[0].jobs[0] in multiset(queues[0].jobs);
      assert forall k :: 1 <= k < |queues| ==> queues[k] == queues[1..][k - 1];
    }
  }

  /** The queue probed at one offset of a scan that wraps around. */
  function Probe(start: int, offset: int, count: int): (v: int)
    requires 0 <= start < count && 0 <= offset < count
    ensures v == if start + offset < count then start + offset else start + offset - count
  {
    (start + offset) % count
  }

  /** The front job of the first other queue that has one, in wrap-around order from the cursor. */
  ghost predicate StolenAt(queues: seq<WorkerQueue>, worker: Id, cursor: int, k: int, job: Job,
      queues': seq<WorkerQueue>) {
    && 0 <= k < |queues|
    && var start := cursor % |queues|;
    && queues[Probe(start, k, |queues|)].index != worker
    && FrontTaken(queues, Probe(start, k, |queues|), job, queues')
    && forall m :: 0 <= m < k ==> Passed(queues, worker, start, m)
  }

  ghost predicate Passed(queues: seq<WorkerQueue>, worker: Id, start: int, offset: int)
    requires 0 <= start < |queues| && 0 <= offset < |queues|
  {
    var q := queues[Probe(start, offset, |queues|)];
    q.index == worker || q.jobs == []
  }

  lemma FrontOf(jobs: seq<Job>)
    requires jobs != []
    ensures multiset(jobs) == multiset{jobs[0]} + multiset(jobs[1..])
  {
    assert jobs == [jobs[0]] + jobs[1..];
  }

  /** A scan over all offsets, from any start, visits every queue. */
  lemma ScanCovers(queues: seq<WorkerQueue>, worker: Id, start: int)
    requires 0 <= start < |queues|
    requires forall k :: 0 <= k < |queues| ==> Passed(queues, worker, start, k)
    ensures forall i :: 0 <= i < |queues| && queues[i].index != worker ==> queues[i].jobs == []
  {
    forall i | 0 <= i < |queues| && queues[i].index != worker
      ensures queues[i].jobs == []
    {
      var k := if i >= start then i - start else i - start + |queues|;
      assert Passed(queues, worker, start, k);
    }
  }

  lemma SameIndices(queues: seq<WorkerQueue>, queues': seq<WorkerQueue>)
    requires Emptied(queues, queues')
    ensures Indices(queues') == Indices(queues) && AllEmpty(queues') && (Distinct(queues) ==> Distinct(queues'))
  {
    assert forall i :: 0 <= i < |queues| ==> queues'[i].index == queues[i].index;
  }
}
