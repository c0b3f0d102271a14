/** `AggregateRoot<TKey>`: an append-only log of domain events, drained by read-and-clear. */
module AggregateRoots {
  import opened Outcomes

  /** `AddDomainEvent(domainEvent)`: appends at the end; a null event is rejected and the
      log is left as it was. */
  function AddDomainEvent<E>(events: seq<E>, domainEvent: Option<E>): (r: Result<seq<E>>)
    ensures domainEvent.None? ==> r.Err? && r.error == ArgumentNull("domainEvent")
    ensures domainEvent.Some? ==> r.Ok? && |r.value| == |events| + 1
                                  && r.value[..|events|] == events
                                  && r.value[|events|] == domainEvent.value
  {
    if domainEvent.None? then Err(ArgumentNull("domainEvent"))
    else Ok(events + [domainEvent.value])
  }

  /** `ClearDomainEvents()`. */
  function ClearDomainEvents<E>(events: seq<E>): (r: seq<E>)
    ensures |r| == 0
  {
    []
  }

  /** `PopDomainEvents()`: returns a copy of the log and leaves it cleared. */
  function PopDomainEvents<E>(events: seq<E>): (r: (seq<E>, seq<E>))
    ensures r.0 == events
    ensures r.1 == ClearDomainEvents(events)
  {
    (events, ClearDomainEvents(events))
  }

  /** Raising each of `added` in turn through `AddDomainEvent`. */
  function AddAll<E>(events: seq<E>, added: seq<E>): seq<E>
    decreases |added|
  {
    if |added| == 0 then events
    else AddAll(AddDomainEvent(events, Some(added[0])).value, added[1..])
  }

  /** Raising events one at a time keeps every earlier event, in order, and appends the
      new ones in the order they were raised. */
  lemma {:induction false} AddAllAppends<E>(events: seq<E>, added: seq<E>)
    ensures AddAll(events, added) == events + added
    decreases |added|
  {
    if |added| != 0 {
      var next := AddDomainEvent(events, Some(added[0])).value;
      assert next == events + [added[0]];
      AddAllAppends(next, added[1..]);
      assert events + [added[0]] + added[1..] == events + added;
    }
  }

  /** A pop returns exactly the events raised since the previous pop, and a second pop
      with nothing raised in between returns nothing. */
  lemma PopReturnsEventsSinceLastPop<E>(events: seq<E>, added: seq<E>)
    ensures var first := PopDomainEvents(AddAll(PopDomainEvents(events).1, added));
            first.0 == added && first.1 == [] && PopDomainEvents(first.1).0 == []
  {
    AddAllAppends(PopDomainEvents(events).1, added);
  }
}
