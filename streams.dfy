/**
 * Event streams: anything that accepts one event and reports nil or an error.
 */
module Streams {
  import opened Wrappers
  import opened Events

  /** A Go `error` value, identified by its message. */
  datatype Error = Error(message: string)

  /** `EventStreamFunc`: a stream given by a function; `None` is a nil error. */
  type EventStreamFunc = Event -> Option<Error>

  /** `EventStreamFunc.PublishEvent`: hands the event to the function and returns its answer. */
  function PublishEvent(stream: EventStreamFunc, event: Event): Option<Error> {
    stream(event)
  }

  /** `NullEventStream`: discards every event. */
  const NullEventStream: EventStreamFunc := (event: Event) => None

  /** Publishing to the null stream succeeds for every event. */
  lemma NullEventStreamAcceptsAll(event: Event)
    ensures PublishEvent(NullEventStream, event) == None
  {
  }
}
