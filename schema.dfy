/**
 * The three webhook tables, held in memory: endpoints by id, subscription rows, and the
 * append-only delivery log; and the row and payload types stored in them.
 */
module Schema {
  import opened Wrappers
  import opened Sequences
  import opened Constants

  /** A row id (a UUID in the source). */
  type Id = string

  /** A point in time, as the clock gives it. */
  type Instant = int

  /** An endpoints row, without its id (the id is the key of the table). */
  datatype Endpoint = Endpoint(
    name: string,
    targetUrl: string,
    secret: string,
    isActive: bool,
    createdAt: Instant,
    updatedAt: Instant)

  /** A subscriptions row: one endpoint subscribed to one (objectType, action) pair. */
  datatype SubscriptionRow = SubscriptionRow(endpointId: Id, objectType: ObjectType, eventType: Action)

  /** An entity snapshot: field name to its value, carried and never inspected. */
  type Snapshot = map<string, string>

  /**
   * The `data` member of an event envelope; an absent field is an absent key. The field `obj`
   * is the key "object" (a reserved word here).
   */
  datatype EventData = EventData(
    obj: Option<Snapshot>,
    previous: Option<Snapshot>,
    changedFields: Option<seq<string>>)

  /** The keys present in a `data` member. */
  function DataKeys(d: EventData): set<string> {
    (if d.obj.Some? then {"object"} else {})
    + (if d.previous.Some? then {"previous"} else {})
    + (if d.changedFields.Some? then {"changedFields"} else {})
  }

  /** The event envelope sent to every target and stored with every delivery. */
  datatype Payload = Payload(
    eventId: Id,
    eventType: string,
    objectType: ObjectType,
    objectId: string,
    occurredAt: string,
    data: EventData)

  datatype DeliveryStatus = Success | Failed

  /** A deliveries row: one attempt to send one event to one endpoint. */
  datatype Delivery = Delivery(
    endpointId: Id,
    eventId: Id,
    eventType: string,
    objectType: ObjectType,
    objectId: string,
    payload: Payload,
    status: DeliveryStatus,
    statusCode: Option<nat>,
    error: Option<string>,
    attemptCount: nat,
    deliveredAt: Instant)

  /** The webhook tables of the database. */
  class Database {
    var endpoints: map<Id, Endpoint>
    var subscriptions: seq<SubscriptionRow>
    var deliveries: seq<Delivery>

    /** Empty tables. */
    constructor ()
      ensures endpoints == map[] && subscriptions == [] && deliveries == []
      ensures Valid()
    {
      endpoints, subscriptions, deliveries := map[], [], [];
    }

    /** The operations never store the same subscription row twice. */
    ghost predicate Valid()
      reads this
    {
      Distinct(subscriptions)
    }
  }
}
