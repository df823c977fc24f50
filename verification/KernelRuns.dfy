/** Runs of the kernel, put together and taken apart. */
module KernelRuns {
  import opened Wrappers
  import opened Kernel

  /** Is this an event of request `id`? */
  predicate By(e: Event, id: Id) {
    !e.RaiseTier? && e.actor == id
  }

  predicate NoneBy(events: seq<Event>, id: Id) {
    forall e :: e in events ==> !By(e, id)
  }

  lemma RunSnoc(s: State, events: seq<Event>, e: Event)
    ensures Run(s, events + [e]) == Step(Run(s, events), e)
  {
    assert (events + [e])[..|events|] == events;
  }

  lemma {:induction false} RunConcat(s: State, first: seq<Event>, later: seq<Event>)
    ensures Run(s, first + later) == Run(Run(s, first), later)
  {
    if later == [] {
      assert first + later == first;
    } else {
      var init := later[..|later| - 1];
      RunConcat(s, first, init);
      assert first + later == (first + init) + [later[|later| - 1]];
      RunSnoc(s, first + init, later[|later| - 1]);
    }
  }

  lemma StepLeavesAlone(s: State, e: Event, id: Id)
    requires !By(e, id)
    ensures id in s.actors <==> id in Step(s, e).actors
    ensures id in s.actors ==> Step(s, e).actors[id] == s.actors[id]
  {
    if e.Advance? && e.actor in s.actors {
      PerformKeepsActors(s, Decide(s, s.actors[e.actor], e.reply).0);
    }
  }

  lemma PerformKeepsActors(s: State, e: Effect)
    ensures Perform(s, e).actors == s.actors
  {
  }

  lemma {:induction false} RunLeavesAlone(s: State, events: seq<Event>, id: Id)
    requires NoneBy(events, id)
    ensures id in s.actors <==> id in Run(s, events).actors
    ensures id in s.actors ==> Run(s, events).actors[id] == s.actors[id]
  {
    if events != [] {
      RunLeavesAlone(s, events[..|events| - 1], id);
      StepLeavesAlone(Run(s, events[..|events| - 1]), events[|events| - 1], id);
    }
  }
}
