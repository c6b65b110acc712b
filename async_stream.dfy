/**
 * The asynchronous event stream: a buffer of at most 100 events in front of a
 * downstream stream, drained in order by one worker that converts every
 * failure of the downstream call, panics included, into a logged error.
 *
 * The channel is the sequence `queue`; a send on a full channel blocks, so
 * publishing is enabled only while the queue has room, and the worker takes
 * an event only when there is one. The downstream stream is not called from
 * here: each worker step is told what the downstream call did (an `Outcome`).
 */
module AsyncStream {
  import opened Wrappers
  import opened Events
  import opened Streams

  /** The channel's buffer size in `AsyncEvents`. */
  const Capacity: nat := 100

  /** What one downstream `PublishEvent` call did: returned nil, returned an error, or panicked. */
  datatype Outcome =
    | Ok
    | Err(err: Error)
    | PanicErr(err: Error)       // panicked with a value that is an `error`
    | PanicOther(shown: string)  // panicked with any other value; `shown` is its `%v` rendering

  /**
   * The error `publishEvent` returns for a downstream outcome: nil only when
   * the downstream call returned nil, the downstream's own error unchanged
   * when it returned one or panicked with one, "panic: " and the value otherwise.
   */
  function Recovered(outcome: Outcome): (err: Option<Error>)
    ensures err == None <==> outcome == Ok
    ensures outcome.Err? || outcome.PanicErr? ==> err == Some(outcome.err)
    ensures outcome.PanicOther? ==> err == Some(Error("panic: " + outcome.shown))
  {
    match outcome
    case Ok => None
    case Err(e) => Some(e)
    case PanicErr(e) => Some(e)
    case PanicOther(shown) => Some(Error("panic: " + shown))
  }

  /** One attempted delivery, with the error it ended in. */
  datatype Delivery = Delivery(event: Event, result: Option<Error>)

  /** The events of a delivery log, in order. */
  function Attempted(log: seq<Delivery>): (events: seq<Event>)
    ensures |events| == |log|
    ensures forall i :: 0 <= i < |log| ==> events[i] == log[i].event
  {
    if log == [] then [] else [log[0].event] + Attempted(log[1..])
  }

  /** The errors of a delivery log, in order: the lines the worker writes with `log.Printf`. */
  function Failures(log: seq<Delivery>): (errs: seq<Error>)
    ensures |errs| <= |log|
  {
    if log == [] then []
    else (if log[0].result.Some? then [log[0].result.value] else []) + Failures(log[1..])
  }

  lemma {:induction false} FailuresAppend(log: seq<Delivery>, d: Delivery)
    ensures Failures(log + [d]) == Failures(log) + (if d.result.Some? then [d.result.value] else [])
  {
    if log != [] {
      assert (log + [d])[1..] == log[1..] + [d];
      FailuresAppend(log[1..], d);
    }
  }

  /** The worker's log for events `events` whose downstream calls did `outcomes`. */
  function Deliveries(events: seq<Event>, outcomes: seq<Outcome>): (log: seq<Delivery>)
    requires |events| == |outcomes|
    ensures |log| == |events|
  {
    if events == [] then []
    else [Delivery(events[0], Recovered(outcomes[0]))] + Deliveries(events[1..], outcomes[1..])
  }

  /**
   * Fault isolation: the k-th delivery is the k-th event with the error of its
   * own downstream call, whatever the calls before it did.
   */
  lemma {:induction false} DeliveriesAt(events: seq<Event>, outcomes: seq<Outcome>, k: nat)
    requires |events| == |outcomes| && k < |events|
    ensures Deliveries(events, outcomes)[k] == Delivery(events[k], Recovered(outcomes[k]))
  {
    if k > 0 {
      DeliveriesAt(events[1..], outcomes[1..], k - 1);
    }
  }

  /** Every event is attempted exactly once and in order, whatever the downstream does. */
  lemma DeliveriesAttemptEach(events: seq<Event>, outcomes: seq<Outcome>)
    requires |events| == |outcomes|
    ensures Attempted(Deliveries(events, outcomes)) == events
  {
    forall k | 0 <= k < |events|
      ensures Attempted(Deliveries(events, outcomes))[k] == events[k]
    {
      DeliveriesAt(events, outcomes, k);
    }
  }

  lemma DeliveriesAppend(events: seq<Event>, outcomes: seq<Outcome>, e: Event, o: Outcome)
    requires |events| == |outcomes|
    ensures Deliveries(events + [e], outcomes + [o]) == Deliveries(events, outcomes) + [Delivery(e, Recovered(o))]
  {
    var long := Deliveries(events + [e], outcomes + [o]);
    var short := Deliveries(events, outcomes) + [Delivery(e, Recovered(o))];
    forall k | 0 <= k < |long|
      ensures long[k] == short[k]
    {
      DeliveriesAt(events + [e], outcomes + [o], k);
      if k < |events| {
        DeliveriesAt(events, outcomes, k);
      }
    }
  }

  /** `AsyncEventStream`: the buffered channel and, as ghost state, what the worker has done. */
  class AsyncEventStream {
    /** The events in the channel, oldest first. */
    var queue: seq<Event>
    /** Every event `PublishEvent` has accepted, in order. */
    ghost var accepted: seq<Event>
    /** Every delivery the worker has attempted, in order, with its error. */
    ghost var log: seq<Delivery>
    /** The errors the worker has written to the log. */
    ghost var errorLog: seq<Error>

    /** The buffer is bounded, and every accepted event is either attempted or still queued, in order. */
    ghost predicate Valid()
      reads this
    {
      && |queue| <= Capacity
      && Attempted(log) + queue == accepted
      && errorLog == Failures(log)
    }

    /** `AsyncEvents`: an empty buffer with its worker started. */
    constructor ()
      ensures Valid()
      ensures queue == [] && accepted == [] && log == [] && errorLog == []
    {
      queue := [];
      accepted := [];
      log := [];
      errorLog := [];
    }

    /** `PublishEvent`: enqueue and return nil; enabled only while the buffer has room. */
    method PublishEvent(event: Event) returns (err: Option<Error>)
      requires Valid() && |queue| < Capacity
      modifies this
      ensures Valid()
      ensures err == None
      ensures queue == old(queue) + [event] && accepted == old(accepted) + [event]
      ensures log == old(log) && errorLog == old(errorLog)
    {
      queue := queue + [event];
      accepted := accepted + [event];
      err := None;
    }

    /**
     * `publishEvent`: the downstream call under a deferred recover. `err` is
     * set by the call when it returns; when it panics, the recovered value is
     * taken as the error if it is one and is wrapped as "panic: <value>" if not.
     */
    method PublishGuarded(event: Event, outcome: Outcome) returns (err: Option<Error>)
      ensures err == Recovered(outcome)
    {
      err := None;
      var panicked := outcome.PanicErr? || outcome.PanicOther?;
      if !panicked {
        err := if outcome.Err? then Some(outcome.err) else None;
      }
      if panicked {
        match outcome {
          case PanicErr(e) =>
            err := Some(e);
          case PanicOther(shown) =>
            err := Some(Error("panic: " + shown));
        }
      }
    }

    /** One turn of the worker loop in `start`: take the oldest event, deliver it, log a failure. */
    method WorkerStep(outcome: Outcome) returns (event: Event, err: Option<Error>)
      requires Valid() && queue != []
      modifies this
      ensures Valid()
      ensures event == old(queue)[0] && err == Recovered(outcome)
      ensures queue == old(queue)[1..] && accepted == old(accepted)
      ensures log == old(log) + [Delivery(event, err)]
      ensures errorLog == old(errorLog) + (if err.Some? then [err.value] else [])
    {
      event := queue[0];
      assert queue == [event] + queue[1..];
      queue := queue[1..];
      err := PublishGuarded(event, outcome);
      FailuresAppend(log, Delivery(event, err));
      ghost var before := Attempted(log);
      log := log + [Delivery(event, err)];
      assert Attempted(log) == before + [event];
      if err != None {
        errorLog := errorLog + [err.value];
      }
    }

    /**
     * The worker loop of `start`, run for as many turns as there are outcomes;
     * the worker waits on an empty channel, so there must be that many events.
     */
    method Start(outcomes: seq<Outcome>)
      requires Valid() && |outcomes| <= |queue|
      modifies this
      ensures Valid()
      ensures queue == old(queue)[|outcomes|..] && accepted == old(accepted)
      ensures log == old(log) + Deliveries(old(queue)[..|outcomes|], outcomes)
    {
      var i := 0;
      while i < |outcomes|
        invariant 0 <= i <= |outcomes|
        invariant Valid()
        invariant queue == old(queue)[i..] && accepted == old(accepted)
        invariant log == old(log) + Deliveries(old(queue)[..i], outcomes[..i])
      {
        var event, err := WorkerStep(outcomes[i]);
        DeliveriesAppend(old(queue)[..i], outcomes[..i], event, outcomes[i]);
        assert old(queue)[..i + 1] == old(queue)[..i] + [event];
        assert outcomes[..i + 1] == outcomes[..i] + [outcomes[i]];
        i := i + 1;
      }
      assert outcomes[..i] == outcomes;
    }
  }

  /**
   * Five events, the third of which makes the downstream panic: all five are
   * attempted in order, only the third fails, and a sixth is still accepted.
   */
  method FaultOnThirdOfFive(a: Event, b: Event, c: Event, d: Event, e: Event, f: Event)
  {
    var s := new AsyncEventStream();
    var r := s.PublishEvent(a);
    r := s.PublishEvent(b);
    r := s.PublishEvent(c);
    r := s.PublishEvent(d);
    r := s.PublishEvent(e);
    var outcomes := [Ok, Ok, PanicOther("boom"), Ok, Ok];
    s.Start(outcomes);
    DeliveriesAttemptEach([a, b, c, d, e], outcomes);
    assert Attempted(s.log) == [a, b, c, d, e];
    DeliveriesAt([a, b, c, d, e], outcomes, 2);
    DeliveriesAt([a, b, c, d, e], outcomes, 3);
    assert s.log == Deliveries([a, b, c, d, e], outcomes);
    assert "panic: " + "boom" == "panic: boom";
    assert s.log[2].result == Some(Error("panic: boom"));
    assert s.log[3].result == None;
    r := s.PublishEvent(f);
    assert r == None && s.queue == [f];
  }
}
