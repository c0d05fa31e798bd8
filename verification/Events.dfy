/** The event frames that travel from a Pi process to the daemon's log. */
module Events {
  import opened Wrappers

  datatype Uuid = Uuid(text: string)

  /** An event body.  `Gap` is the outbox's own marker for lost events; every other body is
      `Body`, whose optional `text` is the only field the outbox looks into. */
  datatype Event = Gap(expectedSequence: int) | Body(kind: string, text: Option<string>, rest: string)

  /** An `event.publish` frame.  Frames are kept in canonical form, so that the daemon's
      comparison of canonical texts is equality here. */
  datatype Publish = Publish(eventId: Uuid, processId: Uuid, instanceId: Uuid, sequence: int,
                             occurredAt: int, event: Event)

  /** The producer of a stream of events: one instance of one process. */
  datatype Producer = Producer(processId: Uuid, instanceId: Uuid)

  /** What `randomUUID` and the clock return when a frame is made. */
  datatype Stamp = Stamp(eventId: Uuid, occurredAt: int)

  function Owner(v: Publish): Producer {
    Producer(v.processId, v.instanceId)
  }
}
