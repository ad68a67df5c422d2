/** The rows of the PostgreSQL tables (packages/database/eventmesh_database/models.py) and the stream messages. */
module Tables {
  import opened Common
  import opened Breaker
  import Classify

  datatype EventStatus = Received | InStream | Processing | Completed

  datatype OutboxStatus = Pending | Published | Failed

  datatype DeliveryStatus = Queued | Delivering | Delivered | Retrying | Dlq

  datatype EndpointStatus = Active | Disabled | Suspended

  datatype Event = Event(tenant: Id, etype: string, status: EventStatus, createdAt: Time)

  /** What travels from an outbox row through the stream to the delivery engine. */
  datatype Payload = Payload(event: Id, tenant: Id, etype: string, target: Option<Id>)

  datatype OutboxRow = OutboxRow(event: Id, payload: Payload, status: OutboxStatus, attempts: nat, createdAt: Time)

  /** Why an attempt did not succeed, as recorded in error_message. */
  datatype DeliveryError = NoError | UrlRejected | Unsuccessful(reason: Classify.Reason)

  datatype Delivery = Delivery(
    event: Id, endpoint: Id, attempt: nat, status: DeliveryStatus,
    httpStatus: Option<int>, error: DeliveryError, nextRetryAt: Option<Time>, createdAt: Time)

  datatype IdempotencyKey = IdempotencyKey(event: Id, expiresAt: Time)

  datatype Endpoint = Endpoint(tenant: Id, status: EndpointStatus, subscriptions: set<string>, circuit: CircuitState)

  datatype Database = Database(
    events: map<Id, Event>,
    outbox: map<Id, OutboxRow>,
    deliveries: map<Id, Delivery>,
    keys: map<(Id, string), IdempotencyKey>,
    endpoints: map<Id, Endpoint>)

  /** Which row a message was published for; `FromRetry` is an outbox_id of the form "retry-<delivery id>". */
  datatype Source = FromOutbox(row: Id) | FromRetry(delivery: Id)

  datatype Message = Message(source: Source, payload: Payload)

  predicate Terminal(status: DeliveryStatus) { status == Delivered || status == Dlq }
}
