/**
 * The execution state of `pipeliner-worker`: the jobs by id, the active,
 * completed and failed id maps (each id with the instant it was marked),
 * the processed and failed counters and the last job id.
 *
 * As for the queue, the state is also a value (`WState`) with one function
 * per operation, and the `ExecutionState` object's methods are proved to
 * perform them. Instants are inputs.
 */
module WorkerState {
  import opened Wrappers
  import opened WorkerQueue

  datatype WState = WState(
    jobs: map<Uuid, Job>,
    active: map<Uuid, int>,
    completed: map<Uuid, int>,
    failed: map<Uuid, int>,
    totalProcessed: nat,
    totalFailed: nat,
    lastJobId: Option<Uuid>)

  function NewState(): WState {
    WState(map[], map[], map[], map[], 0, 0, None)
  }

  function AddJobOf(s: WState, job: Job): WState {
    s.(jobs := s.jobs[job.id := job], lastJobId := Some(job.id))
  }

  function MarkActiveOf(s: WState, id: Uuid, now: int): WState {
    s.(active := s.active[id := now])
  }

  function MarkCompletedOf(s: WState, id: Uuid, now: int): WState {
    s.(active := s.active - {id}, completed := s.completed[id := now], totalProcessed := s.totalProcessed + 1)
  }

  function MarkFailedOf(s: WState, id: Uuid, now: int): WState {
    s.(active := s.active - {id}, failed := s.failed[id := now], totalFailed := s.totalFailed + 1)
  }

  datatype StateStats = StateStats(active: nat, completed: nat, failed: nat, totalProcessed: nat, totalFailed: nat)

  /** `stats()`: the five counters, the first three the sizes of the id maps. */
  function StatsOf(s: WState): (r: StateStats)
    ensures r.active == |s.active.Keys| && r.completed == |s.completed.Keys| && r.failed == |s.failed.Keys|
    ensures r.totalProcessed == s.totalProcessed && r.totalFailed == s.totalFailed
  {
    StateStats(|s.active|, |s.completed|, |s.failed|, s.totalProcessed, s.totalFailed)
  }

  /** `StateStats::default()`: all zero, as the stats of a new state. */
  lemma DefaultStats()
    ensures StatsOf(NewState()) == StateStats(0, 0, 0, 0, 0)
  {
  }

  /** `add_job` makes the job gettable under its id and records it as the last job. */
  lemma AddJobThenGet(s: WState, job: Job, other: Uuid)
    ensures var t := AddJobOf(s, job);
      && job.id in t.jobs && t.jobs[job.id] == job && t.lastJobId == Some(job.id)
      && (other != job.id ==> (other in t.jobs <==> other in s.jobs))
  {
  }

  /**
   * Marking a job completed (failed) takes it out of active, puts it in
   * completed (failed) and counts one more, whether or not it was active;
   * marking it active puts it in active.
   */
  lemma MarkEffects(s: WState, id: Uuid, now: int)
    ensures id in MarkActiveOf(s, id, now).active
    ensures var t := MarkCompletedOf(s, id, now);
      id !in t.active && id in t.completed && t.totalProcessed == s.totalProcessed + 1 && t.failed == s.failed
    ensures var t := MarkFailedOf(s, id, now);
      id !in t.active && id in t.failed
      && t.totalFailed == s.totalFailed + 1 && t.completed == s.completed
  {
  }

  /** The state after marking completed each id of a list in turn. */
  function CompleteAll(s: WState, ids: seq<Uuid>, now: int): WState
    decreases |ids|
  {
    if ids == [] then s else CompleteAll(MarkCompletedOf(s, ids[0], now), ids[1..], now)
  }

  /**
   * The processed counter counts calls while the completed count counts
   * distinct ids: completing a list of ids adds its length to the counter
   * and exactly its distinct ids to the completed map.
   */
  lemma {:induction false} CompleteAllCounts(s: WState, ids: seq<Uuid>, now: int)
    ensures CompleteAll(s, ids, now).totalProcessed == s.totalProcessed + |ids|
    ensures CompleteAll(s, ids, now).completed.Keys == s.completed.Keys + set i | i in ids
    decreases |ids|
  {
    if ids != [] {
      CompleteAllCounts(MarkCompletedOf(s, ids[0], now), ids[1..], now);
      assert (set i | i in ids) == {ids[0]} + (set i | i in ids[1..]) by {
        assert forall i :: i in ids <==> i == ids[0] || i in ids[1..];
      }
    }
  }

  /** Completing the same id twice counts two processed jobs and one completed id. */
  lemma CompletedTwice(id: Uuid, now: int)
    ensures var t := CompleteAll(NewState(), [id, id], now);
      t.totalProcessed == 2 && |t.completed.Keys| == 1
  {
    CompleteAllCounts(NewState(), [id, id], now);
    assert (set i | i in [id, id]) == {id};
    assert NewState().completed.Keys == {};
    assert CompleteAll(NewState(), [id, id], now).completed.Keys == {id};
  }

  /** `ExecutionState`. */
  class ExecutionState {
    var jobs: map<Uuid, Job>
    var active: map<Uuid, int>
    var completed: map<Uuid, int>
    var failed: map<Uuid, int>
    var totalProcessed: nat
    var totalFailed: nat
    var lastJobId: Option<Uuid>

    function State(): WState
      reads this
    {
      WState(jobs, active, completed, failed, totalProcessed, totalFailed, lastJobId)
    }

    constructor ()
      ensures State() == NewState()
    {
      jobs := map[];
      active := map[];
      completed := map[];
      failed := map[];
      totalProcessed := 0;
      totalFailed := 0;
      lastJobId := None;
    }

    method AddJob(job: Job)
      modifies this
      ensures State() == AddJobOf(old(State()), job)
    {
      jobs := jobs[job.id := job];
      lastJobId := Some(job.id);
    }

    function GetJob(id: Uuid): (r: Option<Job>)
      reads this
      ensures r.Some? <==> id in State().jobs
    {
      if id in jobs then Some(jobs[id]) else None
    }

    method MarkActive(id: Uuid, now: int)
      modifies this
      ensures State() == MarkActiveOf(old(State()), id, now)
    {
      active := active[id := now];
    }

    method MarkCompleted(id: Uuid, now: int)
      modifies this
      ensures State() == MarkCompletedOf(old(State()), id, now)
    {
      active := active - {id};
      completed := completed[id := now];
      totalProcessed := totalProcessed + 1;
    }

    method MarkFailed(id: Uuid, now: int)
      modifies this
      ensures State() == MarkFailedOf(old(State()), id, now)
    {
      active := active - {id};
      failed := failed[id := now];
      totalFailed := totalFailed + 1;
    }

    function Stats(): (r: StateStats)
      reads this
      ensures r == StatsOf(State())
    {
      StateStats(|active|, |completed|, |failed|, totalProcessed, totalFailed)
    }

    /** `active_jobs`: every active id once, in the map's own (unspecified) order. */
    method ActiveJobs() returns (ids: seq<Uuid>)
      ensures |ids| == |active.Keys|
      ensures forall i, j :: 0 <= i < j < |ids| ==> ids[i] != ids[j]
      ensures forall id :: id in ids <==> id in active
    {
      ids := [];
      var left := active.Keys;
      while left != {}
        invariant left <= active.Keys
        invariant forall id :: id in ids <==> id in active.Keys - left
        invariant forall i, j :: 0 <= i < j < |ids| ==> ids[i] != ids[j]
        invariant |ids| + |left| == |active.Keys|
        decreases |left|
      {
        var id :| id in left;
        assert id !in ids;
        assert forall i :: 0 <= i < |ids| ==> (ids + [id])[i] == ids[i] != id;
        ids := ids + [id];
        left := left - {id};
      }
    }
  }
}
