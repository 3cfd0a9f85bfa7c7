/**
 * The event types of `pipeliner-events`: event metadata, the pipeline,
 * worker and infrastructure event enumerations with their type names, and
 * the `AnyEvent` wrapper with its aggregate identifier.
 *
 * Identifiers (UUIDs) and timestamps come from a random source and the
 * clock; here they are opaque inputs.
 */
module EventTypes {
  import opened Wrappers
  import opened Strings

  /** A UUID, compared only for equality. */
  type Uuid = nat

  datatype EventMetadata = EventMetadata(
    eventId: Uuid, timestamp: int, correlationId: Option<Uuid>, causationId: Option<Uuid>, source: string)

  /** `EventMetadata::default()`, given the fresh identifier and the clock reading. */
  function DefaultMetadata(eventId: Uuid, timestamp: int): (m: EventMetadata)
    ensures m.source == "pipeliner" && m.correlationId.None? && m.causationId.None?
  {
    EventMetadata(eventId, timestamp, None, None, "pipeliner")
  }

  /** `EventMetadata::new(source)`, given the fresh identifier and the clock reading. */
  function NewMetadata(eventId: Uuid, timestamp: int, source: string): (m: EventMetadata)
    ensures m.source == source && m.correlationId.None? && m.causationId.None?
    ensures m.eventId == eventId && m.timestamp == timestamp
  {
    EventMetadata(eventId, timestamp, None, None, source)
  }

  function WithCorrelation(m: EventMetadata, id: Uuid): EventMetadata {
    m.(correlationId := Some(id))
  }

  function WithCausation(m: EventMetadata, id: Uuid): EventMetadata {
    m.(causationId := Some(id))
  }

  /** Each builder sets its own field and no other, so the two commute. */
  lemma MetadataBuilders(m: EventMetadata, c: Uuid, k: Uuid)
    ensures WithCorrelation(m, c).correlationId == Some(c)
    ensures WithCorrelation(m, c).(correlationId := m.correlationId) == m
    ensures WithCausation(m, k).causationId == Some(k)
    ensures WithCausation(m, k).(causationId := m.causationId) == m
    ensures WithCausation(WithCorrelation(m, c), k) == WithCorrelation(WithCausation(m, k), c)
  {
  }

  datatype PipelineEvent =
    | Created(pipelineId: Uuid, name: string)
    | Started(pipelineId: Uuid, executionId: Uuid, stage: string)
    | StageStarted(pipelineId: Uuid, executionId: Uuid, stageName: string)
    | StageCompleted(pipelineId: Uuid, executionId: Uuid, stageName: string, result: string)
    | StepStarted(pipelineId: Uuid, executionId: Uuid, stageName: string, stepName: string)
    | StepCompleted(pipelineId: Uuid, executionId: Uuid, stageName: string, stepName: string, output: Option<string>)
    | Completed(pipelineId: Uuid, executionId: Uuid, result: string)
    | Failed(pipelineId: Uuid, executionId: Uuid, error: string)
    | Cancelled(pipelineId: Uuid, executionId: Uuid, reason: string)

  /** Whether the event is about the pipeline as a whole rather than one stage or step. */
  predicate IsLifecycle(e: PipelineEvent) {
    e.Created? || e.Started? || e.Completed? || e.Failed? || e.Cancelled?
  }

  function PipelineEventType(e: PipelineEvent): string {
    match e
    case Created(_, _) => "PipelineCreated"
    case Started(_, _, _) => "PipelineStarted"
    case StageStarted(_, _, _) => "StageStarted"
    case StageCompleted(_, _, _, _) => "StageCompleted"
    case StepStarted(_, _, _, _) => "StepStarted"
    case StepCompleted(_, _, _, _, _) => "StepCompleted"
    case Completed(_, _, _) => "PipelineCompleted"
    case Failed(_, _, _) => "PipelineFailed"
    case Cancelled(_, _, _) => "PipelineCancelled"
  }

  /** The aggregate a pipeline event belongs to: its pipeline, whatever the variant. */
  function PipelineAggregateId(e: PipelineEvent): (id: Uuid)
    ensures id == e.pipelineId
  {
    match e
    case Created(id, _) => id
    case Started(id, _, _) => id
    case StageStarted(id, _, _) => id
    case StageCompleted(id, _, _, _) => id
    case StepStarted(id, _, _, _) => id
    case StepCompleted(id, _, _, _, _) => id
    case Completed(id, _, _) => id
    case Failed(id, _, _) => id
    case Cancelled(id, _, _) => id
  }

  /** Lifecycle events are named "Pipeline…"; stage and step events keep their own names. */
  lemma PipelineEventTypePrefix(e: PipelineEvent)
    ensures StartsWith(PipelineEventType(e), "Pipeline") <==> IsLifecycle(e)
  {
    var t := PipelineEventType(e);
    if !IsLifecycle(e) {
      assert t[..8] != "Pipeline" by { assert t[0] == 'S'; }
    }
  }

  /** Two pipeline events have the same type name iff they are the same variant. */
  lemma PipelineEventTypeInjective(a: PipelineEvent, b: PipelineEvent)
    requires PipelineEventType(a) == PipelineEventType(b)
    ensures a.Created? == b.Created? && a.Started? == b.Started? && a.StageStarted? == b.StageStarted?
    ensures a.StageCompleted? == b.StageCompleted? && a.StepStarted? == b.StepStarted?
    ensures a.StepCompleted? == b.StepCompleted? && a.Completed? == b.Completed?
    ensures a.Failed? == b.Failed? && a.Cancelled? == b.Cancelled?
  {
  }

  datatype WorkerEvent =
    | WorkerStarted(workerId: string)
    | WorkerStopped(workerId: string, reason: string)
    | JobAssigned(workerId: string, jobId: Uuid)
    | JobStarted(workerId: string, jobId: Uuid)
    | JobCompleted(workerId: string, jobId: Uuid, result: string)
    | JobFailed(workerId: string, jobId: Uuid, error: string)
    | Heartbeat(workerId: string)

  function WorkerEventType(e: WorkerEvent): string {
    match e
    case WorkerStarted(_) => "WorkerStarted"
    case WorkerStopped(_, _) => "WorkerStopped"
    case JobAssigned(_, _) => "JobAssigned"
    case JobStarted(_, _) => "JobStarted"
    case JobCompleted(_, _, _) => "JobCompleted"
    case JobFailed(_, _, _) => "JobFailed"
    case Heartbeat(_) => "WorkerHeartbeat"
  }

  /** Two worker events have the same type name iff they are the same variant. */
  lemma WorkerEventTypeInjective(a: WorkerEvent, b: WorkerEvent)
    requires WorkerEventType(a) == WorkerEventType(b)
    ensures a.WorkerStarted? == b.WorkerStarted? && a.WorkerStopped? == b.WorkerStopped?
    ensures a.JobAssigned? == b.JobAssigned? && a.JobStarted? == b.JobStarted?
    ensures a.JobCompleted? == b.JobCompleted? && a.JobFailed? == b.JobFailed? && a.Heartbeat? == b.Heartbeat?
  {
  }

  datatype InfrastructureEvent =
    | ContainerCreated(containerId: string, image: string)
    | ContainerStarted(containerId: string)
    | ContainerStopped(containerId: string, exitCode: int)
    | ContainerFailed(containerId: string, error: string)
    | NetworkCreated(networkId: string)
    | NetworkRemoved(networkId: string)
    | ImagePulled(image: string)

  function InfrastructureEventType(e: InfrastructureEvent): string {
    match e
    case ContainerCreated(_, _) => "ContainerCreated"
    case ContainerStarted(_) => "ContainerStarted"
    case ContainerStopped(_, _) => "ContainerStopped"
    case ContainerFailed(_, _) => "ContainerFailed"
    case NetworkCreated(_) => "NetworkCreated"
    case NetworkRemoved(_) => "NetworkRemoved"
    case ImagePulled(_) => "ImagePulled"
  }

  datatype AnyEvent =
    | Pipeline(pipeline: PipelineEvent)
    | Worker(worker: WorkerEvent)
    | Infrastructure(infrastructure: InfrastructureEvent)

  /** `AnyEvent::event_type`: the inner event's type name. */
  function EventType(e: AnyEvent): (t: string)
    ensures e.Pipeline? ==> t == PipelineEventType(e.pipeline)
    ensures e.Worker? ==> t == WorkerEventType(e.worker)
    ensures e.Infrastructure? ==> t == InfrastructureEventType(e.infrastructure)
  {
    match e
    case Pipeline(p) => PipelineEventType(p)
    case Worker(w) => WorkerEventType(w)
    case Infrastructure(i) => InfrastructureEventType(i)
  }

  /** `AnyEvent::aggregate_id`: only pipeline events belong to an aggregate, their pipeline. */
  function AggregateId(e: AnyEvent): (r: Option<Uuid>)
    ensures r.Some? <==> e.Pipeline?
    ensures r.Some? ==> r.value == e.pipeline.pipelineId
  {
    match e
    case Pipeline(p) => Some(PipelineAggregateId(p))
    case Worker(_) => None
    case Infrastructure(_) => None
  }

  /** No two kinds of event share a type name: the name tells the kind. */
  lemma EventTypeTellsKind(a: AnyEvent, b: AnyEvent)
    requires EventType(a) == EventType(b)
    ensures a.Pipeline? == b.Pipeline? && a.Worker? == b.Worker?
  {
    TypeInitial(a);
    TypeInitial(b);
  }

  /** Pipeline type names begin with 'P' or 'S', worker ones with 'W' or 'J', infrastructure ones with 'C', 'N' or 'I'. */
  lemma TypeInitial(e: AnyEvent)
    ensures |EventType(e)| > 0
    ensures var c := EventType(e)[0];
      && (e.Pipeline? ==> c == 'P' || c == 'S')
      && (e.Worker? ==> c == 'W' || c == 'J')
      && (e.Infrastructure? ==> c == 'C' || c == 'N' || c == 'I')
  {
  }

  datatype EventEnvelope = EventEnvelope(event: AnyEvent, metadata: EventMetadata)
}
