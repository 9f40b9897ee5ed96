/** Paired observations: each call is announced once before it runs and reported once after. */
module Observations {
  datatype Event<O> = Before(id: string, observation: O) | After(id: string, observation: O)

  datatype Progress<O> = Open(first: O) | Done(first: O, last: O)

  /** What was said about one call, in order. */
  function Trace<O>(events: seq<Event<O>>, id: string): seq<Event<O>> {
    if events == [] then []
    else
      var last := events[|events| - 1];
      Trace(events[..|events| - 1], id) + (if last.id == id then [last] else [])
  }

  function Story<O>(calls: map<string, Progress<O>>, id: string): seq<Event<O>> {
    if id !in calls then []
    else match calls[id]
      case Open(first) => [Before(id, first)]
      case Done(first, last) => [Before(id, first), After(id, last)]
  }

  /** Nothing was said of unknown calls, one "before" of open ones, a "before" and then an "after" of finished ones. */
  ghost predicate Tells<O>(events: seq<Event<O>>, calls: map<string, Progress<O>>) {
    forall id :: Trace(events, id) == Story(calls, id)
  }

  lemma TraceSnoc<O>(events: seq<Event<O>>, e: Event<O>, id: string)
    ensures Trace(events + [e], id) == Trace(events, id) + (if e.id == id then [e] else [])
  {
    assert (events + [e])[..|events|] == events;
  }

  lemma BeforeTells<O>(events: seq<Event<O>>, calls: map<string, Progress<O>>, id: string, o: O)
    requires Tells(events, calls) && id !in calls
    ensures Tells(events + [Before(id, o)], calls[id := Open(o)])
  {
    var calls' := calls[id := Open(o)];
    forall x ensures Trace(events + [Before(id, o)], x) == Story(calls', x) {
      TraceSnoc(events, Before(id, o), x);
      assert Trace(events, x) == Story(calls, x);
    }
  }

  lemma AfterTells<O>(events: seq<Event<O>>, calls: map<string, Progress<O>>, id: string, o: O)
    requires Tells(events, calls) && id in calls && calls[id].Open?
    ensures Tells(events + [After(id, o)], calls[id := Done(calls[id].first, o)])
  {
    var calls' := calls[id := Done(calls[id].first, o)];
    forall x ensures Trace(events + [After(id, o)], x) == Story(calls', x) {
      TraceSnoc(events, After(id, o), x);
      assert Trace(events, x) == Story(calls, x);
    }
  }

  function Count<O>(events: seq<Event<O>>, id: string, before: bool): nat {
    if events == [] then 0
    else
      var last := events[|events| - 1];
      Count(events[..|events| - 1], id, before) + (if last.id == id && last.Before? == before then 1 else 0)
  }

  /** The events of one kind for a call can be counted in its trace. */
  lemma {:induction false} CountTrace<O>(events: seq<Event<O>>, id: string, before: bool)
    ensures Count(events, id, before) == Count(Trace(events, id), id, before)
  {
    if events != [] {
      var front, last := events[..|events| - 1], events[|events| - 1];
      CountTrace(front, id, before);
      if last.id == id {
        assert (Trace(front, id) + [last])[..|Trace(front, id)|] == Trace(front, id);
      } else {
        assert Trace(front, id) + [] == Trace(front, id);
      }
    }
  }

  /** Every known call has exactly one "before", and one "after" exactly when it is finished. */
  lemma TellsOnce<O>(events: seq<Event<O>>, calls: map<string, Progress<O>>, id: string)
    requires Tells(events, calls)
    ensures Count(events, id, true) == if id in calls then 1 else 0
    ensures Count(events, id, false) == if id in calls && calls[id].Done? then 1 else 0
  {
    CountTrace(events, id, true);
    CountTrace(events, id, false);
    assert Trace(events, id) == Story(calls, id);
    if id in calls {
      var first := Before(id, calls[id].first);
      assert Count([first], id, true) == 1 && Count([first], id, false) == 0;
      if calls[id].Done? {
        var last := After(id, calls[id].last);
        assert [first, last][..1] == [first];
      }
    }
  }

  /** A known call whose announcement, or whose report, was never made. */
  predicate Missing<O>(events: seq<Event<O>>, calls: map<string, Progress<O>>, id: string) {
    id in calls && (Count(events, id, true) == 0 || (calls[id].Done? && Count(events, id, false) == 0))
  }

  lemma MissingIsNotTold<O>(events: seq<Event<O>>, calls: map<string, Progress<O>>, id: string)
    requires Missing(events, calls, id)
    ensures !Tells(events, calls)
  {
    if Tells(events, calls) {
      TellsOnce(events, calls, id);
    }
  }

  /** When events are dropped after calls have moved on, some call goes missing. */
  lemma DroppingLoses<O>(events: seq<Event<O>>, calls: map<string, Progress<O>>,
                         more: seq<Event<O>>, calls': map<string, Progress<O>>) returns (id: string)
    requires Tells(events, calls) && Tells(events + more, calls') && more != []
    ensures Missing(events, calls', id)
  {
    id := more[0].id;
    assert events + more == (events + [more[0]]) + more[1..];
    TraceSnoc(events, more[0], id);
    TracePrefix(events + [more[0]], more[1..], id);
    assert Trace(events + more, id) == Story(calls', id);
    assert Trace(events, id) == Story(calls, id);
    CountTrace(events, id, true);
    CountTrace(events, id, false);
    var trace := Trace(events, id);
    assert |trace| < |Story(calls', id)|;
    if trace != [] {
      assert trace == [Before(id, calls[id].first)];
    }
  }

  lemma {:induction false} TracePrefix<O>(events: seq<Event<O>>, more: seq<Event<O>>, id: string)
    ensures Trace(events, id) <= Trace(events + more, id)
  {
    if more == [] {
      assert events + more == events;
    } else {
      assert (events + more)[..|events + more| - 1] == events + more[..|more| - 1];
      TracePrefix(events, more[..|more| - 1], id);
    }
  }
}
