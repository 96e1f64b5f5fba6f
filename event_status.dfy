/**
 * `fpl/eventStatus.ts`: the current gameweek, read from the event-status response when it names
 * one, otherwise derived from the deadlines: the gameweek whose deadline passed last.
 */
module EventStatus {
  import opened Wrappers
  import opened Fpl
  import Sorting

  /**
   * The parsed event-status response: `status` when it is an array, as the `event` of each row
   * (`None` for a row without one), and `current_event` when it is a number.
   */
  datatype StatusResponse = StatusResponse(status: Option<seq<Option<int>>>, currentEvent: Option<int>)

  /**
   * `fromArray ?? fromField`, kept only when truthy: the first status row's event when the array
   * is non-empty and that row has one (even a falsy 0, which then rejects the whole answer), else
   * `current_event`.
   */
  function StatusEventId(s: StatusResponse): (id: Option<int>)
    ensures id.Some? ==> id.value != 0
    ensures s.status.Some? && |s.status.value| > 0 && s.status.value[0].Some? ==>
      id == (if s.status.value[0].value == 0 then None else s.status.value[0])
    ensures (s.status.None? || |s.status.value| == 0 || s.status.value[0].None?) ==>
      id == (if s.currentEvent == Some(0) then None else s.currentEvent)
  {
    var fromArray := if s.status.Some? && |s.status.value| > 0 then s.status.value[0] else None;
    var chosen := if fromArray.Some? then fromArray else s.currentEvent;
    if chosen.Some? && chosen.value != 0 then chosen else None
  }

  function Deadline(e: Event): int { e.deadline }

  /** The events by ascending deadline; events with equal deadlines keep their catalogue order. */
  function ByDeadline(events: seq<Event>): (sorted: seq<Event>)
    ensures |sorted| == |events| && multiset(sorted) == multiset(events)
    ensures forall i, j :: 0 <= i < j < |sorted| ==> sorted[i].deadline <= sorted[j].deadline
  {
    Sorting.SortByPermutes(events, Deadline);
    Sorting.SortBySorted(events, Deadline);
    Sorting.SortBy(events, Deadline)
  }

  /** `dl > now`: the deadline is still to come. */
  function AfterNow(now: int): Event -> bool { (e: Event) => e.deadline > now }

  /**
   * The deadline fallback: the event just before the first one whose deadline is after `now`;
   * the first event when even that one is still to come; the last when every deadline has
   * passed. With no events at all it throws, modelled as `None`.
   */
  function Fallback(events: seq<Event>, now: int): (r: Option<Event>)
    ensures r.None? <==> events == []
  {
    var sorted := ByDeadline(events);
    if events == [] then None
    else
      match Sorting.FindFirst(sorted, AfterNow(now))
      case None => Some(sorted[|sorted| - 1])
      case Some(i) => Some(if i > 0 then sorted[i - 1] else sorted[0])
  }

  /** The fallback loop over the sorted events, with its `break`. */
  method DeadlineFallback(events: seq<Event>, now: int) returns (r: Option<Event>)
    ensures r == Fallback(events, now)
  {
    var sorted := ByDeadline(events);
    if |sorted| == 0 {
      return None;
    }
    var current := sorted[0];
    var i := 0;
    while i < |sorted|
      invariant 0 <= i <= |sorted|
      invariant forall k :: 0 <= k < i ==> sorted[k].deadline <= now
      invariant current == if i == |sorted| then sorted[|sorted| - 1] else sorted[0]
    {
      var ev := sorted[i];
      if ev.deadline > now {
        current := if i > 0 then sorted[i - 1] else sorted[0];
        assert AfterNow(now)(sorted[i]);
        FirstAfter(sorted, now, i);
        return Some(current);
      }
      if i == |sorted| - 1 {
        current := ev;
      }
      i := i + 1;
    }
    assert forall k :: 0 <= k < |sorted| ==> !AfterNow(now)(sorted[k]);
    r := Some(current);
  }

  /** The first event whose deadline is to come is the one the search finds. */
  lemma FirstAfter(sorted: seq<Event>, now: int, i: nat)
    requires i < |sorted| && sorted[i].deadline > now
    requires forall k :: 0 <= k < i ==> sorted[k].deadline <= now
    ensures Sorting.FindFirst(sorted, AfterNow(now)) == Some(i)
  {
    assert AfterNow(now)(sorted[i]);
    assert forall k :: 0 <= k < i ==> !AfterNow(now)(sorted[k]);
  }

  /** `resolveCurrentEventId`: the status response's id when it gives a truthy one, else the fallback's. */
  function ResolvedId(status: Option<StatusResponse>, events: seq<Event>, now: int): Option<int> {
    var fromStatus := if status.Some? then StatusEventId(status.value) else None;
    if fromStatus.Some? then fromStatus
    else
      match Fallback(events, now)
      case None => None
      case Some(e) => Some(e.id)
  }

  /** `resolveCurrentEventId(bootstrap)`, with the status fetch (`None` when it failed) and the clock as inputs. */
  method ResolveCurrentEventId(status: Option<StatusResponse>, events: seq<Event>, now: int) returns (id: Option<int>)
    ensures id == ResolvedId(status, events, now)
  {
    if status.Some? {
      var fromStatus := StatusEventId(status.value);
      if fromStatus.Some? {
        return fromStatus;
      }
    }
    var current := DeadlineFallback(events, now);
    id := if current.Some? then Some(current.value.id) else None;
  }

  // Properties of the fallback

  /**
   * Where the fallback sits in the sorted events: every later event's deadline is still to come,
   * and its own deadline has passed unless every deadline is to come and it is the first.
   */
  lemma FallbackPosition(events: seq<Event>, now: int) returns (k: nat)
    requires events != []
    ensures k < |events| && Fallback(events, now) == Some(ByDeadline(events)[k])
    ensures forall j :: k < j < |events| ==> ByDeadline(events)[j].deadline > now
    ensures ByDeadline(events)[k].deadline <= now || (k == 0 && ByDeadline(events)[0].deadline > now)
  {
    var sorted := ByDeadline(events);
    var f := Sorting.FindFirst(sorted, AfterNow(now));
    if f.None? {
      k := |sorted| - 1;
      assert !AfterNow(now)(sorted[k]);
    } else {
      var i := f.value;
      assert AfterNow(now)(sorted[i]);
      k := if i > 0 then i - 1 else 0;
      if i > 0 {
        assert !AfterNow(now)(sorted[i - 1]);
      }
      forall j | k < j < |sorted| ensures sorted[j].deadline > now {
        if j > i { assert sorted[i].deadline <= sorted[j].deadline; }
      }
    }
  }

  /**
   * When some deadline has passed, the fallback is an event whose deadline has passed and no
   * event's passed deadline is later.
   */
  lemma FallbackLatestStarted(events: seq<Event>, now: int)
    requires exists e :: e in events && e.deadline <= now
    ensures Fallback(events, now).Some?
    ensures var r := Fallback(events, now).value;
      && r in events
      && r.deadline <= now
      && forall e :: e in events && e.deadline <= now ==> e.deadline <= r.deadline
  {
    var sorted := ByDeadline(events);
    var k := FallbackPosition(events, now);
    var r := sorted[k];
    assert r in multiset(events);
    var e0 :| e0 in events && e0.deadline <= now;
    var j0 := PositionInSorted(events, e0);
    assert sorted[0].deadline <= sorted[j0].deadline;
    assert r.deadline <= now;
    forall e | e in events && e.deadline <= now ensures e.deadline <= r.deadline {
      var j := PositionInSorted(events, e);
      assert j <= k;
      if j < k { assert sorted[j].deadline <= sorted[k].deadline; }
    }
  }

  /** Every event has a position in the events sorted by deadline. */
  lemma PositionInSorted(events: seq<Event>, e: Event) returns (j: nat)
    requires e in events
    ensures j < |events| && ByDeadline(events)[j] == e
  {
    var sorted := ByDeadline(events);
    assert e in multiset(sorted);
    j :| 0 <= j < |sorted| && sorted[j] == e;
  }

  /** When every deadline is still to come, the fallback is the event with the earliest deadline. */
  lemma FallbackAllFuture(events: seq<Event>, now: int)
    requires events != []
    requires forall e :: e in events ==> e.deadline > now
    ensures Fallback(events, now) == Some(ByDeadline(events)[0])
    ensures var r := Fallback(events, now).value;
      r in events && forall e :: e in events ==> r.deadline <= e.deadline
  {
    var sorted := ByDeadline(events);
    assert sorted[0] in multiset(events);
    assert AfterNow(now)(sorted[0]);
    forall e | e in events ensures sorted[0].deadline <= e.deadline {
      assert e in multiset(sorted);
      var k :| 0 <= k < |sorted| && sorted[k] == e;
      if k > 0 { assert Deadline(sorted[0]) <= Deadline(sorted[k]); }
    }
  }

  /** When every deadline has passed, the fallback is the last event by deadline, whose deadline is the latest. */
  lemma FallbackAllPast(events: seq<Event>, now: int)
    requires events != []
    requires forall e :: e in events ==> e.deadline <= now
    ensures Fallback(events, now) == Some(ByDeadline(events)[|events| - 1])
    ensures var r := Fallback(events, now).value;
      r in events && forall e :: e in events ==> e.deadline <= r.deadline
  {
    var sorted := ByDeadline(events);
    forall k | 0 <= k < |sorted| ensures sorted[k].deadline <= now {
      assert sorted[k] in multiset(events);
    }
    assert events[0] in events;
    var k := FallbackPosition(events, now);
    FallbackLatestStarted(events, now);
  }

  /**
   * A truthy status id wins over the deadlines; without one the id is that of a catalogue event,
   * and there is none only when the catalogue has no events.
   */
  lemma ResolvedIdSource(status: Option<StatusResponse>, events: seq<Event>, now: int)
    ensures var r := ResolvedId(status, events, now);
      var fromStatus := status.Some? && StatusEventId(status.value).Some?;
      && (fromStatus ==> r == StatusEventId(status.value))
      && (!fromStatus ==> (r.None? <==> events == []))
      && (!fromStatus && r.Some? ==> exists e :: e in events && e.id == r.value)
  {
    if events != [] {
      assert Fallback(events, now).value in multiset(ByDeadline(events));
    }
  }
}
