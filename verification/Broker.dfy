/**
 * The Redis stream with its consumer group (packages/messaging/eventmesh_messaging/broker.py): an append-only log, the
 * position up to which the group has read, and the entries that were handed out and not acknowledged.
 */
module Broker {
  import opened Common
  import opened Tables

  /** Ids grow along the stream; entries below `cursor` have been handed to some consumer of the group. */
  datatype Stream = Stream(entries: map<Id, Message>, cursor: Id, pending: map<Id, Time>)

  const EmptyStream := Stream(map[], 0, map[])

  ghost predicate WellFormed(q: Stream) {
    forall id | id in q.pending :: id in q.entries && id < q.cursor
  }

  function XAdd(q: Stream, id: Id, m: Message): Stream {
    q.(entries := q.entries[id := m])
  }

  /** The entry that XREADGROUP hands out next. */
  ghost predicate IsNext(q: Stream, id: Id) {
    id in q.entries && q.cursor <= id && forall other | other in q.entries && q.cursor <= other :: id <= other
  }

  function XReadGroup(q: Stream, id: Id, now: Time): Stream {
    q.(cursor := id + 1, pending := q.pending[id := now])
  }

  /** XAUTOCLAIM of one entry: it stays pending and its idle time starts again. */
  function XClaim(q: Stream, id: Id, now: Time): Stream {
    q.(pending := q.pending[id := now])
  }

  function XAck(q: Stream, id: Id): Stream {
    q.(pending := q.pending - {id})
  }

  /** The group still owes this entry a completed handling: not yet read, or read and pending. */
  predicate Unacked(q: Stream, id: Id) {
    id in q.entries && (q.cursor <= id || id in q.pending)
  }

  datatype StreamMessage = StreamMessage(id: Id, fields: Message)

  /**
   * The messages are the entries between the two cursors, each once and in order; they are pending since `now`, and
   * otherwise the pending list, and all that is owed, is as before.
   */
  ghost predicate HandedOut(before: Stream, after: Stream, messages: seq<StreamMessage>, now: Time) {
    && after.entries == before.entries && before.cursor <= after.cursor
    && (forall i, j | 0 <= i < j < |messages| :: messages[i].id < messages[j].id)
    && (forall i | 0 <= i < |messages| :: IsHanded(before, after, messages[i], now))
    && (forall id | id in after.entries && before.cursor <= id < after.cursor ::
          StreamMessage(id, after.entries[id]) in messages)
    && (forall id | id in after.pending && id < before.cursor :: id in before.pending && after.pending[id] == before.pending[id])
    && (forall id :: Unacked(after, id) <==> Unacked(before, id))
  }

  ghost predicate IsHanded(before: Stream, after: Stream, m: StreamMessage, now: Time) {
    && m.id in after.entries && m.fields == after.entries[m.id]
    && before.cursor <= m.id < after.cursor
    && m.id in after.pending && after.pending[m.id] == now
  }

  lemma HandOutNext(before: Stream, q: Stream, messages: seq<StreamMessage>, now: Time)
    requires WellFormed(q) && HandedOut(before, q, messages, now)
    ensures q.cursor in q.entries ==>
              && WellFormed(XReadGroup(q, q.cursor, now))
              && HandedOut(before, XReadGroup(q, q.cursor, now), messages + [StreamMessage(q.cursor, q.entries[q.cursor])], now)
    ensures q.cursor !in q.entries ==>
              WellFormed(q.(cursor := q.cursor + 1)) && HandedOut(before, q.(cursor := q.cursor + 1), messages, now)
  {
    if q.cursor in q.entries {
      var after, handed := XReadGroup(q, q.cursor, now), messages + [StreamMessage(q.cursor, q.entries[q.cursor])];
      forall i | 0 <= i < |handed| ensures IsHanded(before, after, handed[i], now) {
        assert i < |messages| ==> IsHanded(before, q, messages[i], now);
      }
    }
  }

  /** Pending for at least the idle time. */
  ghost predicate Stale(q: Stream, id: Id, minIdle: Time, now: Time) {
    id in q.pending && now - q.pending[id] >= minIdle
  }

  /**
   * The messages are exactly the stale entries below `upTo`, each once and in order; their idle time starts again, and
   * nothing else about the stream changes.
   */
  ghost predicate TakenOver(before: Stream, after: Stream, messages: seq<StreamMessage>, minIdle: Time, now: Time, upTo: Id) {
    && after == before.(pending := after.pending) && after.pending.Keys == before.pending.Keys
    && (forall i, j | 0 <= i < j < |messages| :: messages[i].id < messages[j].id)
    && (forall i | 0 <= i < |messages| ::
          && Stale(before, messages[i].id, minIdle, now) && messages[i].id < upTo
          && messages[i].id in before.entries && messages[i].fields == before.entries[messages[i].id])
    && (forall id: Id | Stale(before, id, minIdle, now) && id < upTo ::
          id in before.entries && StreamMessage(id, before.entries[id]) in messages)
    && (forall id: Id | id in before.pending ::
          after.pending[id] == if id < upTo && Stale(before, id, minIdle, now) then now else before.pending[id])
  }

  lemma TakeOverNext(before: Stream, q: Stream, messages: seq<StreamMessage>, minIdle: Time, now: Time, next: Id)
    requires WellFormed(before) && TakenOver(before, q, messages, minIdle, now, next)
    ensures next in q.pending <==> next in before.pending
    ensures next in q.pending ==> next in q.entries && q.pending[next] == before.pending[next]
    ensures if Stale(before, next, minIdle, now)
            then TakenOver(before, XClaim(q, next, now), messages + [StreamMessage(next, q.entries[next])], minIdle, now, next + 1)
            else TakenOver(before, q, messages, minIdle, now, next + 1)
  {
    if Stale(before, next, minIdle, now) {
      var after := XClaim(q, next, now);
      assert after.pending.Keys == before.pending.Keys;
    }
  }

  /** The broker client; `top` bounds the ids in use, as Redis's last generated id does. */
  class RedisStreamsBroker {
    var stream: Stream
    var top: Id

    ghost predicate Valid()
      reads this
    {
      WellFormed(stream) && stream.cursor <= top && forall id | id in stream.entries :: id < top
    }

    constructor ()
      ensures Valid() && stream == EmptyStream
    {
      stream, top := EmptyStream, 0;
    }

    method Publish(fields: Message) returns (id: Id)
      requires Valid()
      modifies this
      ensures Valid() && id !in old(stream).entries && stream == XAdd(old(stream), id, fields)
      ensures stream == Stream(old(stream).entries[id := fields], old(stream).cursor, old(stream).pending)
      ensures Unacked(stream, id) && forall other | other in old(stream).entries :: other < id
    {
      id := top;
      stream := XAdd(stream, id, fields);
      top := top + 1;
    }

    /** Hands out up to `count` entries nobody in the group has read, oldest first; each becomes pending. */
    method Consume(count: nat, now: Time) returns (messages: seq<StreamMessage>)
      requires Valid()
      modifies this
      ensures Valid() && stream.entries == old(stream).entries && |messages| <= count
      ensures HandedOut(old(stream), stream, messages, now)
      ensures |messages| < count ==> forall id | id in stream.entries :: id < stream.cursor
    {
      messages := [];
      var next := stream.cursor;
      while next < top && |messages| < count
        invariant Valid() && stream.entries == old(stream).entries && |messages| <= count
        invariant stream.cursor == next <= top == old(top)
        invariant HandedOut(old(stream), stream, messages, now)
      {
        HandOutNext(old(stream), stream, messages, now);
        if next in stream.entries {
          messages := messages + [StreamMessage(next, stream.entries[next])];
          stream := XReadGroup(stream, next, now);
        } else {
          stream := stream.(cursor := next + 1);
        }
        next := next + 1;
      }
    }

    method Acknowledge(id: Id)
      requires Valid()
      modifies this
      ensures Valid() && stream == XAck(old(stream), id)
      ensures stream == Stream(old(stream).entries, old(stream).cursor, old(stream).pending - {id})
      ensures forall other :: Unacked(stream, other) <==> Unacked(old(stream), other) && (other != id || id >= stream.cursor)
    {
      stream := XAck(stream, id);
    }

    /**
     * Takes over up to `count` entries that have been pending for at least `minIdle`, from the oldest on. One call
     * examines no more than ten pending entries for each one asked for, and always starts over from the oldest.
     */
    method ClaimStale(minIdle: Time, count: nat, now: Time) returns (messages: seq<StreamMessage>, ghost upTo: Id)
      requires Valid()
      modifies this
      ensures Valid() && |messages| <= count
      ensures TakenOver(old(stream), stream, messages, minIdle, now, upTo)
      ensures || |messages| == count
              || |PendingBelow(stream, upTo)| == 10 * count
              || forall id | id in stream.pending :: id < upTo
    {
      hide TakenOver;
      messages := [];
      var next: Id, examined := 0, 0;
      TakenOverNothing(stream, minIdle, now);
      while next < top && |messages| < count && examined < SCAN_FACTOR * count
        invariant Valid() && top == old(top) && next <= top && |messages| <= count && examined <= SCAN_FACTOR * count
        invariant TakenOver(old(stream), stream, messages, minIdle, now, next)
        invariant examined == |PendingBelow(stream, next)|
      {
        TakeOverNext(old(stream), stream, messages, minIdle, now, next);
        OneMoreExamined(stream, next);
        if next in stream.pending {
          examined := examined + 1;
          if now - stream.pending[next] >= minIdle {
            messages := messages + [StreamMessage(next, stream.entries[next])];
            SamePending(stream, XClaim(stream, next, now), next + 1);
            stream := XClaim(stream, next, now);
          }
        }
        next := next + 1;
      }
      upTo := next;
    }
  }

  const SCAN_FACTOR := 10

  function PendingBelow(q: Stream, bound: Id): set<Id> {
    set id | id in q.pending && id < bound
  }

  lemma OneMoreExamined(q: Stream, next: Id)
    ensures |PendingBelow(q, next + 1)| == |PendingBelow(q, next)| + if next in q.pending then 1 else 0
  {
    if next in q.pending {
      assert PendingBelow(q, next + 1) == PendingBelow(q, next) + {next};
    } else {
      assert PendingBelow(q, next + 1) == PendingBelow(q, next);
    }
  }

  lemma SamePending(q: Stream, q': Stream, bound: Id)
    requires q.pending.Keys == q'.pending.Keys
    ensures PendingBelow(q, bound) == PendingBelow(q', bound)
  {
    assert forall id :: id in q.pending <==> id in q.pending.Keys;
    assert forall id :: id in q'.pending <==> id in q'.pending.Keys;
  }

  lemma TakenOverNothing(q: Stream, minIdle: Time, now: Time)
    ensures TakenOver(q, q, [], minIdle, now, 0)
  {
  }
}
