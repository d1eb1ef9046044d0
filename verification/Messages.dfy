/** The texts of an event, as a notification row has them and as the payload carries them. */
module Messages {
  import opened Wrappers
  import opened Uuids

  /** The JSON document built once per notification, stored in event_outbox and published to Redis. */
  datatype Payload = Payload(
    notification: Uuid,
    chamado: string,
    title: string,
    body: string,
    createdAt: int,
    statusAnterior: Option<string>,
    statusNovo: Option<string>,
    eventType: Option<string>,
    sourceTimestamp: Option<int>)

  /** What the subscriber receives. */
  datatype Message = Message(channel: string, payload: Payload)

  /** The columns of a notification that come from the payload; empty texts are stored as NULL. */
  datatype Content = Content(
    chamado: string,
    title: string,
    body: string,
    statusAnterior: Option<string>,
    statusNovo: Option<string>,
    eventType: Option<string>,
    sourceTimestamp: Option<int>)
}
