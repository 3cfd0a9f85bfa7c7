/**
 * The job queue of `pipeliner-worker`: jobs with a priority, a status and
 * a retry budget; a pending priority heap of job entries; and the
 * processing, completed and cancelled job maps.
 *
 * The queue's state is also a value (`Queue`) with one function per
 * operation; the `JobQueue` object's methods are proved to perform those
 * functions. The pending heap is a sequence of entries and `dequeue` takes
 * an entry that no other entry orders before. UUIDs and clock readings
 * are inputs.
 */
module WorkerQueue {
  import opened Wrappers
  import opened Assoc
  import CorePipeline

  /** A UUID, compared only for equality. */
  type Uuid = nat

  datatype JobPriority = Critical | High | Normal | Low | Background

  /** The priority's discriminant, by which priorities are ordered. */
  function Rank(p: JobPriority): (r: nat)
    ensures r <= 4
  {
    match p
    case Critical => 0
    case High => 1
    case Normal => 2
    case Low => 3
    case Background => 4
  }

  /** Critical < High < Normal < Low < Background, and the rank tells the priority. */
  lemma PriorityOrder(p: JobPriority, q: JobPriority)
    ensures Rank(Critical) < Rank(High) < Rank(Normal) < Rank(Low) < Rank(Background)
    ensures Rank(p) == Rank(q) ==> p == q
  {
  }

  datatype JobStatus = Pending | Running | Completed | Failed | Cancelled

  datatype Job = Job(
    id: Uuid,
    pipeline: Option<CorePipeline.Pipeline>,
    priority: JobPriority,
    status: JobStatus,
    createdAt: int,
    startedAt: Option<int>,
    completedAt: Option<int>,
    error: Option<string>,
    retries: nat,
    maxRetries: nat,
    metadata: Entries<string>)

  /** `Job::default()`, given the fresh identifier and the clock reading. */
  function DefaultJob(id: Uuid, now: int): (j: Job)
    ensures j.id == id && j.createdAt == now && j.pipeline.None?
    ensures j.priority == Normal && j.status == Pending && j.retries == 0 && j.maxRetries == 3
    ensures j.startedAt.None? && j.completedAt.None? && j.error.None? && j.metadata == []
  {
    Job(id, None, Normal, Pending, now, None, None, None, 0, 3, [])
  }

  /** `Job::from_pipeline`: a default job carrying the pipeline. */
  function FromPipeline(id: Uuid, now: int, p: CorePipeline.Pipeline): (j: Job)
    ensures j == DefaultJob(id, now).(pipeline := Some(p))
  {
    Job(id, Some(p), Normal, Pending, now, None, None, None, 0, 3, [])
  }

  function WithPriority(j: Job, p: JobPriority): Job {
    j.(priority := p)
  }

  function WithMaxRetries(j: Job, max: nat): Job {
    j.(maxRetries := max)
  }

  function Start(j: Job, now: int): Job {
    j.(status := Running, startedAt := Some(now))
  }

  function Complete(j: Job, now: int): Job {
    j.(status := Completed, completedAt := Some(now))
  }

  function Fail(j: Job, error: string, now: int): Job {
    j.(status := Failed, error := Some(error), completedAt := Some(now))
  }

  function Cancel(j: Job, now: int): Job {
    j.(status := Cancelled, completedAt := Some(now))
  }

  /**
   * Each transition sets its status; `fail` also keeps the error; all but
   * `start` stamp the completion time; nothing else changes.
   */
  lemma JobTransitions(j: Job, now: int, error: string)
    ensures Start(j, now).status == Running && Start(j, now).startedAt == Some(now)
    ensures Start(j, now).(status := j.status, startedAt := j.startedAt) == j
    ensures Complete(j, now).status == Completed && Complete(j, now).completedAt == Some(now)
    ensures Complete(j, now).(status := j.status, completedAt := j.completedAt) == j
    ensures Fail(j, error, now).status == Failed && Fail(j, error, now).error == Some(error)
    ensures Fail(j, error, now).completedAt == Some(now)
    ensures Fail(j, error, now).(status := j.status, error := j.error, completedAt := j.completedAt) == j
    ensures Cancel(j, now).status == Cancelled && Cancel(j, now).completedAt == Some(now)
    ensures Cancel(j, now).(status := j.status, completedAt := j.completedAt) == j
  {
  }

  /** `Job::retry`: refused once the budget is spent, otherwise one more retry. */
  function Retry(j: Job): (r: (bool, Job))
    ensures r.0 <==> j.retries < j.maxRetries
    ensures r.0 ==> r.1 == j.(retries := j.retries + 1)
    ensures !r.0 ==> r.1 == j
  {
    if j.retries >= j.maxRetries then (false, j) else (true, j.(retries := j.retries + 1))
  }

  /** `n` calls of `retry` in a row. */
  function RetryTimes(j: Job, n: nat): Job
    decreases n
  {
    if n == 0 then j else RetryTimes(Retry(j).1, n - 1)
  }

  function Min(a: nat, b: nat): nat {
    if a <= b then a else b
  }

  /** Retrying `n` times from within the budget reaches `retries + n` or the budget, whichever is smaller. */
  lemma {:induction false} RetryTimesCount(j: Job, n: nat)
    requires j.retries <= j.maxRetries
    ensures RetryTimes(j, n).retries == Min(j.retries + n, j.maxRetries)
    ensures RetryTimes(j, n).(retries := j.retries) == j
    decreases n
  {
    if n > 0 {
      RetryTimesCount(Retry(j).1, n - 1);
    }
  }

  // ---------------------------------------------------------------------
  // Heap entries
  // ---------------------------------------------------------------------

  datatype JobEntry = JobEntry(priority: JobPriority, id: Uuid, createdAt: int)

  function EntryOf(j: Job): JobEntry {
    JobEntry(j.priority, j.id, j.createdAt)
  }

  /** Whether the heap pops `a` before `b`: a lower priority number, or the same priority and created earlier. */
  predicate Before(a: JobEntry, b: JobEntry) {
    Rank(a.priority) < Rank(b.priority) || (a.priority == b.priority && a.createdAt < b.createdAt)
  }

  /** `Before` is a strict order, and two entries neither of which comes first tie on priority and creation time. */
  lemma BeforeOrder(a: JobEntry, b: JobEntry, c: JobEntry)
    ensures !Before(a, a)
    ensures Before(a, b) ==> !Before(b, a)
    ensures Before(a, b) && Before(b, c) ==> Before(a, c)
    ensures !Before(a, b) && !Before(b, a) ==> a.priority == b.priority && a.createdAt == b.createdAt
  {
    PriorityOrder(a.priority, b.priority);
  }

  /** Whether entry `i` may be popped: no entry comes before it. */
  predicate IsFirst(s: seq<JobEntry>, i: nat) {
    i < |s| && forall j :: 0 <= j < |s| ==> !Before(s[j], s[i])
  }

  /** The heap's pop: the index of an entry that nothing comes before (the earliest such among ties). */
  method FirstIndex(s: seq<JobEntry>) returns (best: nat)
    requires |s| > 0
    ensures IsFirst(s, best)
  {
    best := 0;
    var k := 1;
    while k < |s|
      invariant best < k <= |s|
      invariant forall j :: 0 <= j < k ==> !Before(s[j], s[best])
    {
      if Before(s[k], s[best]) {
        forall j | 0 <= j < k
          ensures !Before(s[j], s[k])
        {
          BeforeOrder(s[j], s[k], s[best]);
        }
        best := k;
      }
      k := k + 1;
    }
  }

  // ---------------------------------------------------------------------
  // The queue
  // ---------------------------------------------------------------------

  datatype Queue = Queue(pending: seq<JobEntry>, processing: map<Uuid, Job>, completed: map<Uuid, Job>, cancelled: map<Uuid, Job>)

  function EmptyQueue(): Queue {
    Queue([], map[], map[], map[])
  }

  function Enqueued(q: Queue, job: Job): Queue {
    q.(pending := q.pending + [EntryOf(job)])
  }

  function RemoveAt(s: seq<JobEntry>, i: nat): (r: seq<JobEntry>)
    requires i < |s|
    ensures |r| == |s| - 1
  {
    s[..i] + s[i + 1..]
  }

  /** `dequeue` once entry `i` is popped: a fresh default job is filed in processing under the popped id. */
  function Dequeued(q: Queue, i: nat, filed: Job): Queue
    requires i < |q.pending|
  {
    q.(pending := RemoveAt(q.pending, i), processing := q.processing[q.pending[i].id := filed])
  }

  /** `complete`: a job in processing moves to completed, filed under its own id; otherwise nothing happens. */
  function CompletedOf(q: Queue, id: Uuid): Queue {
    if id in q.processing then
      var job := q.processing[id];
      q.(processing := q.processing - {id}, completed := q.completed[job.id := job])
    else q
  }

  /** `cancel`: as `complete`, into cancelled. */
  function CancelledOf(q: Queue, id: Uuid): Queue {
    if id in q.processing then
      var job := q.processing[id];
      q.(processing := q.processing - {id}, cancelled := q.cancelled[job.id := job])
    else q
  }

  /** `get`: processing first, then completed, then cancelled. */
  function GetOf(q: Queue, id: Uuid): (r: Option<Job>)
    ensures r.Some? <==> id in q.processing || id in q.completed || id in q.cancelled
  {
    if id in q.processing then Some(q.processing[id])
    else if id in q.completed then Some(q.completed[id])
    else if id in q.cancelled then Some(q.cancelled[id])
    else None
  }

  /** `enqueue` adds exactly the job's entry to pending, so `len` grows by one. */
  lemma EnqueueGrows(q: Queue, job: Job)
    ensures |Enqueued(q, job).pending| == |q.pending| + 1
    ensures multiset(Enqueued(q, job).pending) == multiset(q.pending) + multiset{EntryOf(job)}
  {
  }

  /** `dequeue` removes exactly the popped entry and makes the fresh job gettable under the popped id. */
  lemma DequeueTakesOne(q: Queue, i: nat, filed: Job)
    requires i < |q.pending|
    ensures multiset(Dequeued(q, i, filed).pending) + multiset{q.pending[i]} == multiset(q.pending)
    ensures GetOf(Dequeued(q, i, filed), q.pending[i].id) == Some(filed)
  {
    assert q.pending == q.pending[..i] + [q.pending[i]] + q.pending[i + 1..];
  }

  /**
   * `complete` of a job in processing takes it out of processing and files
   * it in completed under the job's own id; of any other id it changes
   * nothing. `cancel` is the same with cancelled.
   */
  lemma CompleteMoves(q: Queue, id: Uuid)
    ensures id !in q.processing ==> CompletedOf(q, id) == q && CancelledOf(q, id) == q
    ensures id in q.processing ==>
      var job := q.processing[id];
      && id !in CompletedOf(q, id).processing
      && CompletedOf(q, id).completed[job.id] == job
      && CompletedOf(q, id).pending == q.pending
      && id !in CancelledOf(q, id).processing
      && CancelledOf(q, id).cancelled[job.id] == job
  {
  }

  /**
   * The job `dequeue` files is a fresh one with its own id; completing the
   * popped id files it under that fresh id, so the popped id is no longer
   * found when it was not filed anywhere else.
   */
  lemma CompletedUnderFreshId(q: Queue, i: nat, filed: Job)
    requires i < |q.pending|
    requires filed.id != q.pending[i].id
    requires q.pending[i].id !in q.completed && q.pending[i].id !in q.cancelled
    ensures var popped := q.pending[i].id;
      var q2 := CompletedOf(Dequeued(q, i, filed), popped);
      GetOf(q2, popped).None? && q2.completed[filed.id] == filed
  {
  }

  /** `JobQueue`. */
  class JobQueue {
    var pending: seq<JobEntry>
    var processing: map<Uuid, Job>
    var completed: map<Uuid, Job>
    var cancelled: map<Uuid, Job>

    function State(): Queue
      reads this
    {
      Queue(pending, processing, completed, cancelled)
    }

    constructor ()
      ensures State() == EmptyQueue()
    {
      pending := [];
      processing := map[];
      completed := map[];
      cancelled := map[];
    }

    method Enqueue(job: Job)
      modifies this
      ensures State() == Enqueued(old(State()), job)
    {
      pending := pending + [EntryOf(job)];
    }

    /**
     * `dequeue`, given the fresh identifier and clock reading of the
     * default job it files: none on an empty queue, and the state
     * unchanged; otherwise an entry nothing comes before is popped.
     */
    method Dequeue(freshId: Uuid, now: int) returns (r: Option<Job>)
      modifies this
      ensures old(|pending|) == 0 ==> r.None? && State() == old(State())
      ensures old(|pending|) > 0 ==>
        exists i :: IsFirst(old(pending), i) && State() == Dequeued(old(State()), i, DefaultJob(freshId, now))
      ensures old(|pending|) > 0 ==> r == Some(DefaultJob(freshId, now))
    {
      if |pending| == 0 {
        return None;
      }
      var i := FirstIndex(pending);
      var job := DefaultJob(freshId, now);
      ghost var q := State();
      processing := processing[pending[i].id := job];
      pending := RemoveAt(pending, i);
      assert State() == Dequeued(q, i, job);
      r := Some(job);
    }

    function Get(id: Uuid): (r: Option<Job>)
      reads this
      ensures r == GetOf(State(), id)
    {
      if id in processing then Some(processing[id])
      else if id in completed then Some(completed[id])
      else if id in cancelled then Some(cancelled[id])
      else None
    }

    method CompleteJob(id: Uuid)
      modifies this
      ensures State() == CompletedOf(old(State()), id)
    {
      if id in processing {
        var job := processing[id];
        processing := processing - {id};
        completed := completed[job.id := job];
      }
    }

    method CancelJob(id: Uuid)
      modifies this
      ensures State() == CancelledOf(old(State()), id)
    {
      if id in processing {
        var job := processing[id];
        processing := processing - {id};
        cancelled := cancelled[job.id := job];
      }
    }

    function Len(): (n: nat)
      reads this
      ensures n == |State().pending|
    {
      |pending|
    }

    predicate IsEmpty()
      reads this
      ensures IsEmpty() <==> State().pending == []
    {
      Len() == 0
    }

    function ProcessingCount(): nat
      reads this
    {
      |processing|
    }

    function CompletedCount(): nat
      reads this
    {
      |completed|
    }
  }
}
