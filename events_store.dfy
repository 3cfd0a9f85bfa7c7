/**
 * The in-memory event store and snapshot store of `pipeliner-events`.
 *
 * The store's state is a map from aggregate identifier to the events
 * appended under it; `Append` and `Save` are functions on that map, the
 * store objects' methods are proved to perform them, and the history
 * properties (what a sequence of appends leaves behind) are lemmas about
 * the functions.
 */
module EventStore {
  import opened Wrappers
  import opened JsonValues
  import opened EventTypes

  type Events = map<Uuid, seq<EventEnvelope>>

  /** `get_events` on a map: the events of the aggregate, or none when it was never appended to. */
  function EventsOf(m: Events, id: Uuid): seq<EventEnvelope> {
    if id in m then m[id] else []
  }

  /** `append`: the aggregate's entry, created empty when missing, extended by the new events. */
  function Append(m: Events, id: Uuid, events: seq<EventEnvelope>): (r: Events)
    ensures r.Keys == m.Keys + {id}
  {
    m[id := EventsOf(m, id) + events]
  }

  /** Appending adds the new events after the aggregate's earlier ones and leaves every other aggregate alone. */
  lemma AppendThenGet(m: Events, id: Uuid, events: seq<EventEnvelope>, other: Uuid)
    ensures EventsOf(Append(m, id, events), id) == EventsOf(m, id) + events
    ensures other != id ==> EventsOf(Append(m, id, events), other) == EventsOf(m, other)
  {
  }

  /** A store after a history of appends, each an aggregate and the events appended. */
  function Replay(history: seq<(Uuid, seq<EventEnvelope>)>): Events {
    if history == [] then map[]
    else
      var last := history[|history| - 1];
      Append(Replay(history[..|history| - 1]), last.0, last.1)
  }

  /** The events appended under `id` in a history, in order. */
  function AppendedTo(history: seq<(Uuid, seq<EventEnvelope>)>, id: Uuid): seq<EventEnvelope> {
    if history == [] then []
    else
      var last := history[|history| - 1];
      AppendedTo(history[..|history| - 1], id) + (if last.0 == id then last.1 else [])
  }

  /**
   * After any history of appends, an aggregate's events are everything
   * appended under it, in order; an aggregate is listed iff it was
   * appended to, even with no events.
   */
  lemma {:induction false} ReplayEvents(history: seq<(Uuid, seq<EventEnvelope>)>, id: Uuid)
    ensures EventsOf(Replay(history), id) == AppendedTo(history, id)
    ensures id in Replay(history) <==> exists i :: 0 <= i < |history| && history[i].0 == id
  {
    if history != [] {
      var init := history[..|history| - 1];
      ReplayEvents(init, id);
      if exists i :: 0 <= i < |init| && init[i].0 == id {
        var i :| 0 <= i < |init| && init[i].0 == id;
        assert history[i] == init[i];
      }
      if exists i :: 0 <= i < |history| && history[i].0 == id {
        var i :| 0 <= i < |history| && history[i].0 == id;
        if i < |init| {
          assert init[i] == history[i];
        }
      }
    }
  }

  /** `InMemoryEventStore`. */
  class InMemoryEventStore {
    var events: Events

    constructor ()
      ensures events == map[]
    {
      events := map[];
    }

    method AppendEvents(id: Uuid, newEvents: seq<EventEnvelope>)
      modifies this
      ensures events == Append(old(events), id, newEvents)
    {
      var existing := if id in events then events[id] else [];
      events := events[id := existing + newEvents];
    }

    method GetEvents(id: Uuid) returns (r: seq<EventEnvelope>)
      ensures r == EventsOf(events, id)
    {
      if id in events {
        r := events[id];
      } else {
        r := [];
      }
    }

    /** `list_aggregates`: every identifier in the map once, in the map's own (unspecified) order. */
    method ListAggregates() returns (ids: seq<Uuid>)
      ensures |ids| == |events.Keys|
      ensures forall i, j :: 0 <= i < j < |ids| ==> ids[i] != ids[j]
      ensures forall id :: id in ids <==> id in events
    {
      ids := [];
      var left := events.Keys;
      while left != {}
        invariant left <= events.Keys
        invariant forall id :: id in ids <==> id in events.Keys - left
        invariant forall i, j :: 0 <= i < j < |ids| ==> ids[i] != ids[j]
        invariant |ids| + |left| == |events.Keys|
        decreases |left|
      {
        var id :| id in left;
        assert id !in ids;
        assert forall i :: 0 <= i < |ids| ==> (ids + [id])[i] == ids[i] != id;
        ids := ids + [id];
        left := left - {id};
      }
    }
  }

  datatype Snapshot = Snapshot(aggregateId: Uuid, aggregateType: string, version: nat, state: Json, createdAt: int)

  type Snapshots = map<Uuid, Snapshot>

  /** `save`: the snapshot replaces any earlier one of its aggregate. */
  function Save(m: Snapshots, s: Snapshot): Snapshots {
    m[s.aggregateId := s]
  }

  /** `load`: the aggregate's snapshot, or none. */
  function Load(m: Snapshots, id: Uuid): (r: Option<Snapshot>)
    ensures r.Some? <==> id in m
  {
    if id in m then Some(m[id]) else None
  }

  /** Loading right after a save gives that snapshot, and a later save of the same aggregate wins. */
  lemma SaveThenLoad(m: Snapshots, s: Snapshot, t: Snapshot, other: Uuid)
    ensures Load(Save(m, s), s.aggregateId) == Some(s)
    ensures other != s.aggregateId ==> Load(Save(m, s), other) == Load(m, other)
    ensures t.aggregateId == s.aggregateId ==> Load(Save(Save(m, s), t), s.aggregateId) == Some(t)
  {
  }

  /** An empty store loads nothing. */
  lemma LoadUnknown(id: Uuid)
    ensures Load(map[], id) == None
  {
  }

  /** `InMemorySnapshotStore`. */
  class InMemorySnapshotStore {
    var snapshots: Snapshots

    constructor ()
      ensures snapshots == map[]
    {
      snapshots := map[];
    }

    method SaveSnapshot(s: Snapshot)
      modifies this
      ensures snapshots == Save(old(snapshots), s)
    {
      snapshots := snapshots[s.aggregateId := s];
    }

    method LoadSnapshot(id: Uuid) returns (r: Option<Snapshot>)
      ensures r == Load(snapshots, id)
    {
      if id in snapshots {
        r := Some(snapshots[id]);
      } else {
        r := None;
      }
    }
  }
}
