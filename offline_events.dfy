/**
 * The database transaction that starts a new "offline" period (the loop is
 * suspended, disconnected, ...): the offline event running at the new event's
 * timestamp is cut off there, then the new event is stored.
 */
module OfflineEvents {
  import opened Wrappers

  /** A stored offline event; `end` is derived as `timestamp + duration`. */
  datatype OfflineEvent = OfflineEvent(
    id: int,
    timestamp: int,
    duration: int,
    isValid: bool,
    reason: string)

  function End(e: OfflineEvent): int
  {
    e.timestamp + e.duration
  }

  /** The `end` setter: moves the end by rewriting the duration. */
  function WithEnd(e: OfflineEvent, end: int): (r: OfflineEvent)
    ensures End(r) == end
    ensures r.timestamp == e.timestamp && r.id == e.id && r.isValid == e.isValid && r.reason == e.reason
  {
    e.(duration := end - e.timestamp)
  }

  /** A valid event whose interval [timestamp, end) contains `t`. */
  predicate ActiveAt(e: OfflineEvent, t: int)
  {
    e.isValid && e.timestamp <= t < End(e)
  }

  /** What the transaction reports back: the lists it filled. */
  datatype TransactionResult = TransactionResult(inserted: seq<OfflineEvent>, updated: seq<OfflineEvent>)

  /** The offline-event table, in storage order. */
  class OfflineEventStore {
    var events: seq<OfflineEvent>

    constructor ()
      ensures events == []
    {
      events := [];
    }

    /**
     * The DAO query for the event active at `t`: among the events active at
     * `t` the one that started last (the first such in storage order on a tie).
     */
    method ActiveAtLegacy(t: int) returns (found: Option<nat>)
      ensures found.None? <==> forall k :: 0 <= k < |events| ==> !ActiveAt(events[k], t)
      ensures found.Some? ==> found.value < |events| && ActiveAt(events[found.value], t)
      ensures found.Some? ==> forall k :: 0 <= k < |events| && ActiveAt(events[k], t) ==>
                                events[k].timestamp <= events[found.value].timestamp
      ensures found.Some? ==> forall k :: 0 <= k < found.value && ActiveAt(events[k], t) ==>
                                events[k].timestamp < events[found.value].timestamp
    {
      found := None;
      var i := 0;
      while i < |events|
        invariant 0 <= i <= |events|
        invariant found.None? <==> forall k :: 0 <= k < i ==> !ActiveAt(events[k], t)
        invariant found.Some? ==> found.value < i && ActiveAt(events[found.value], t)
        invariant found.Some? ==> forall k :: 0 <= k < i && ActiveAt(events[k], t) ==>
                                    events[k].timestamp <= events[found.value].timestamp
        invariant found.Some? ==> forall k :: 0 <= k < found.value && ActiveAt(events[k], t) ==>
                                    events[k].timestamp < events[found.value].timestamp
      {
        if ActiveAt(events[i], t) && (found.None? || events[found.value].timestamp < events[i].timestamp) {
          found := Some(i);
        }
        i := i + 1;
      }
    }

    /**
     * `InsertAndCancelCurrentOfflineEventTransaction.run`: the event active at
     * the new event's timestamp (if any; the one that started last, the first
     * such on a tie) gets its end set to that timestamp and is updated in
     * place, then the new event is appended.
     */
    method InsertAndCancelCurrent(offlineEvent: OfflineEvent) returns (result: TransactionResult)
      modifies this
      ensures |events| == |old(events)| + 1
      ensures events[|old(events)|] == offlineEvent
      ensures result.inserted == [offlineEvent]
      ensures |result.updated| <= 1
      ensures result.updated == [] <==>
                forall k :: 0 <= k < |old(events)| ==> !ActiveAt(old(events)[k], offlineEvent.timestamp)
      ensures result.updated == [] ==> events[..|old(events)|] == old(events)
      ensures result.updated != [] ==>
                exists k :: 0 <= k < |old(events)| && ActiveAt(old(events)[k], offlineEvent.timestamp) &&
                  (forall j :: 0 <= j < |old(events)| && ActiveAt(old(events)[j], offlineEvent.timestamp) ==>
                     old(events)[j].timestamp <= old(events)[k].timestamp) &&
                  (forall j :: 0 <= j < k && ActiveAt(old(events)[j], offlineEvent.timestamp) ==>
                     old(events)[j].timestamp < old(events)[k].timestamp) &&
                  result.updated == [WithEnd(old(events)[k], offlineEvent.timestamp)] &&
                  events[..|old(events)|] == old(events)[k := WithEnd(old(events)[k], offlineEvent.timestamp)]
    {
      var updated: seq<OfflineEvent> := [];
      var current := ActiveAtLegacy(offlineEvent.timestamp);
      if current.Some? {
        var k := current.value;
        var cancelled := WithEnd(events[k], offlineEvent.timestamp);
        events := events[k := cancelled];
        updated := updated + [cancelled];
      }
      events := events + [offlineEvent];
      result := TransactionResult([offlineEvent], updated);
    }
  }

  /** The cancelled event ends exactly where the new one starts, so it is no longer active there. */
  lemma CancelledEndsAtNewStart(e: OfflineEvent, t: int)
    requires ActiveAt(e, t)
    ensures End(WithEnd(e, t)) == t && !ActiveAt(WithEnd(e, t), t)
    ensures forall u :: e.timestamp <= u < t ==> ActiveAt(WithEnd(e, t), u) && ActiveAt(e, u)
  {
  }
}
