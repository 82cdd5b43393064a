/**
 * Event fan-out: the event envelope, the choice of target endpoints, and the per-target
 * sign / send / classify / record step that appends one delivery row per target.
 *
 * The outside world is a parameter (Environment): the clock, the event id, whether the
 * target lookup query fails, JSON serialization, the HMAC signature, the HTTP exchange,
 * whether a delivery insert fails, and the delivery timestamps.
 */
module Delivery {
  import opened Wrappers
  import opened Sequences
  import opened Strings
  import opened Constants
  import opened Schema

  // ---------------------------------------------------------------------------------------
  // The outside world

  /** What a failed fetch threw: an Error object with its message, or any other value. */
  datatype Thrown = ErrorInstance(message: string) | NonErrorValue

  /** The result of one fetch: a response with its HTTP status, or a thrown value. */
  datatype FetchOutcome = Response(status: nat) | Threw(error: Thrown)

  /** An outgoing HTTP request. */
  datatype Request = Request(url: string, httpMethod: string, headers: map<string, string>, body: string)

  const ContentTypeHeader: string := "Content-Type"
  const EventHeader: string := "X-Contranym-Event"
  const EventIdHeader: string := "X-Contranym-Event-Id"
  const SignatureHeader: string := "X-Contranym-Signature"
  const SignaturePrefix: string := "sha256="
  const FailurePrefix: string := "Webhook returned "

  /**
   * The oracles of one emitWebhookEvent call. Each target is known by its position `k` in
   * the target list: `fetch(k, request)` is what sending it returns, `insertFails(k)` whether
   * logging its delivery throws, and `deliveredAt(k)` the clock when the row is built.
   * `sign(secret, body)` is the hex HMAC-SHA256 digest of `body` under `secret`.
   */
  datatype Environment = Environment(
    occurredAt: string,
    eventId: Id,
    lookupFails: bool,
    serialize: Payload -> string,
    sign: (string, string) -> string,
    fetch: (nat, Request) -> FetchOutcome,
    insertFails: nat -> bool,
    deliveredAt: nat -> Instant)

  /** The input of emitWebhookEvent; an absent or null snapshot is None. */
  datatype EmitWebhookEventInput = EmitWebhookEventInput(
    objectType: ObjectType,
    action: Action,
    objectId: string,
    current: Option<Snapshot>,
    previous: Option<Snapshot>,
    changedFields: Option<seq<string>>)

  /** One row of the target lookup. */
  datatype Target = Target(endpointId: Id, targetUrl: string, secret: string)

  // ---------------------------------------------------------------------------------------
  // Outcome classification

  /** getErrorMessage: the message of an Error, and a fixed text for anything else thrown. */
  function ErrorMessage(error: Thrown): (m: string)
    ensures error.ErrorInstance? ==> m == error.message
    ensures error.NonErrorValue? ==> m == "Unknown error"
  {
    match error
    case ErrorInstance(message) => message
    case NonErrorValue => "Unknown error"
  }

  /** Response.ok: the status is in the range 200 to 299. */
  predicate IsOkStatus(status: nat) {
    200 <= status <= 299
  }

  /** The status, statusCode and error columns of one delivery row. */
  datatype Classification = Classification(status: DeliveryStatus, statusCode: Option<nat>, error: Option<string>)

  /**
   * What one fetch outcome is recorded as: success exactly for an ok response; the status code
   * exactly when there was a response; an error text exactly when the delivery failed.
   */
  function Classify(outcome: FetchOutcome): (c: Classification)
    ensures c.status == Success <==> outcome.Response? && IsOkStatus(outcome.status)
    ensures c.statusCode == if outcome.Response? then Some(outcome.status) else None
    ensures c.error.None? <==> c.status == Success
    ensures outcome.Response? && !IsOkStatus(outcome.status) ==>
              c.error == Some(FailurePrefix + DecimalString(outcome.status))
    ensures outcome.Threw? ==> c.error == Some(ErrorMessage(outcome.error))
  {
    match outcome
    case Response(status) =>
      if IsOkStatus(status) then Classification(Success, Some(status), None)
      else Classification(Failed, Some(status), Some(FailurePrefix + DecimalString(status)))
    case Threw(error) => Classification(Failed, None, Some(ErrorMessage(error)))
  }

  /** The error text of a non-ok response names its status: the digits after the prefix read back as it. */
  lemma FailureNamesStatus(status: nat)
    requires !IsOkStatus(status)
    ensures var e := Classify(Response(status)).error.value;
            && |FailurePrefix| <= |e|
            && e[..|FailurePrefix|] == FailurePrefix
            && DecimalValue(e[|FailurePrefix|..]) == status
  {
    var e := FailurePrefix + DecimalString(status);
    assert e[|FailurePrefix|..] == DecimalString(status);
    DecimalRoundTrip(status);
  }

  // ---------------------------------------------------------------------------------------
  // The envelope

  /**
   * The `data` member: "object" and "previous" present exactly when the snapshot was given,
   * "changedFields" exactly when a non-empty list was given, and no other key.
   */
  function EventDataOf(input: EmitWebhookEventInput): (d: EventData)
    ensures "object" in DataKeys(d) <==> input.current.Some?
    ensures "previous" in DataKeys(d) <==> input.previous.Some?
    ensures "changedFields" in DataKeys(d) <==> input.changedFields.Some? && |input.changedFields.value| > 0
    ensures DataKeys(d) <= {"object", "previous", "changedFields"}
    ensures d.obj == input.current && d.previous == input.previous
    ensures d.changedFields.Some? ==> d.changedFields == input.changedFields
  {
    EventData(
      input.current,
      input.previous,
      if input.changedFields.Some? && |input.changedFields.value| > 0 then input.changedFields else None)
  }

  /**
   * The envelope of one event. Its eventType is "<objectType>.<action>" and reads back as that
   * pair.
   */
  function PayloadOf(input: EmitWebhookEventInput, env: Environment): (p: Payload)
    ensures p.eventId == env.eventId && p.occurredAt == env.occurredAt
    ensures p.objectType == input.objectType && p.objectId == input.objectId
    ensures p.data == EventDataOf(input)
    ensures p.eventType == ObjectTypeName(input.objectType) + "." + ActionName(input.action)
    ensures ParseWebhookEventType(p.eventType) == Some((input.objectType, input.action))
  {
    FormatParseRoundTrip(input.objectType, input.action);
    Payload(
      env.eventId,
      FormatWebhookEventType(input.objectType, input.action),
      input.objectType,
      input.objectId,
      env.occurredAt,
      EventDataOf(input))
  }

  // ---------------------------------------------------------------------------------------
  // Target selection

  /** The endpoint exists, is active and has a subscription row for exactly this pair. */
  ghost predicate Subscribed(endpoints: map<Id, Endpoint>, rows: seq<SubscriptionRow>, t: ObjectType, a: Action, id: Id) {
    id in endpoints && endpoints[id].isActive && SubscriptionRow(id, t, a) in rows
  }

  /** The selected columns of an endpoint. */
  function TargetOf(endpoints: map<Id, Endpoint>, id: Id): Target
    requires id in endpoints
  {
    Target(id, endpoints[id].targetUrl, endpoints[id].secret)
  }

  /**
   * The target lookup: the subscription rows for (t, a) joined with their endpoint, keeping
   * the active ones, in subscription table order. Every target is subscribed and active, and
   * every subscribed active endpoint is a target.
   */
  function SelectTargets(endpoints: map<Id, Endpoint>, rows: seq<SubscriptionRow>, t: ObjectType, a: Action)
    : (targets: seq<Target>)
    ensures |targets| <= |rows|
    ensures forall k :: 0 <= k < |targets| ==>
              && Subscribed(endpoints, rows, t, a, targets[k].endpointId)
              && targets[k] == TargetOf(endpoints, targets[k].endpointId)
    ensures forall id :: Subscribed(endpoints, rows, t, a, id) ==> TargetOf(endpoints, id) in targets
  {
    if rows == [] then []
    else
      var row := rows[0];
      var rest := SelectTargets(endpoints, rows[1..], t, a);
      assert rows == [row] + rows[1..];
      assert forall id :: Subscribed(endpoints, rows[1..], t, a, id) ==> Subscribed(endpoints, rows, t, a, id);
      if row.objectType == t && row.eventType == a && row.endpointId in endpoints && endpoints[row.endpointId].isActive
      then [TargetOf(endpoints, row.endpointId)] + rest
      else rest
  }

  /** No endpoint appears twice in a target list. */
  ghost predicate DistinctEndpoints(targets: seq<Target>) {
    forall i, j :: 0 <= i < j < |targets| ==> targets[i].endpointId != targets[j].endpointId
  }

  /** In a list without repeated endpoints, no other position has the endpoint of position k. */
  lemma DistinctEndpointsAt(targets: seq<Target>, k: nat)
    requires DistinctEndpoints(targets) && k < |targets|
    ensures forall m :: 0 <= m < |targets| && m != k ==> targets[m].endpointId != targets[k].endpointId
  {
    forall m | 0 <= m < |targets| && m != k ensures targets[m].endpointId != targets[k].endpointId {
      if m < k {
        assert targets[m].endpointId != targets[k].endpointId;
      } else {
        assert targets[k].endpointId != targets[m].endpointId;
      }
    }
  }

  /**
   * With no repeated subscription row, a subscribed first row's endpoint is not among the
   * targets the remaining rows select.
   */
  lemma HeadNotSelectedAgain(endpoints: map<Id, Endpoint>, rows: seq<SubscriptionRow>, t: ObjectType, a: Action)
    requires Distinct(rows) && rows != []
    requires rows[0].objectType == t && rows[0].eventType == a
    ensures forall j :: 0 <= j < |SelectTargets(endpoints, rows[1..], t, a)| ==>
              SelectTargets(endpoints, rows[1..], t, a)[j].endpointId != rows[0].endpointId
  {
    var rest := SelectTargets(endpoints, rows[1..], t, a);
    forall m | 0 <= m < |rows[1..]| ensures rows[1..][m] != rows[0] {
      assert rows[1..][m] == rows[m + 1];
    }
    forall j | 0 <= j < |rest| ensures rest[j].endpointId != rows[0].endpointId {
      assert Subscribed(endpoints, rows[1..], t, a, rest[j].endpointId);
    }
  }

  /** Putting in front a target whose endpoint the list lacks keeps the endpoints distinct. */
  lemma DistinctEndpointsCons(first: Target, rest: seq<Target>)
    requires DistinctEndpoints(rest)
    requires forall j :: 0 <= j < |rest| ==> rest[j].endpointId != first.endpointId
    ensures DistinctEndpoints([first] + rest)
  {
    var targets := [first] + rest;
    forall i, j | 0 <= i < j < |targets| ensures targets[i].endpointId != targets[j].endpointId {
      if i == 0 {
        assert targets[j] == rest[j - 1];
      } else {
        assert targets[i] == rest[i - 1] && targets[j] == rest[j - 1];
      }
    }
  }

  /** With no repeated subscription row, the lookup lists each endpoint at most once. */
  lemma {:induction false} SelectTargetsDistinct(endpoints: map<Id, Endpoint>, rows: seq<SubscriptionRow>, t: ObjectType, a: Action)
    requires Distinct(rows)
    ensures DistinctEndpoints(SelectTargets(endpoints, rows, t, a))
  {
    if rows != [] {
      var row := rows[0];
      var rest := SelectTargets(endpoints, rows[1..], t, a);
      assert Distinct(rows[1..]);
      SelectTargetsDistinct(endpoints, rows[1..], t, a);
      if row.objectType == t && row.eventType == a && row.endpointId in endpoints && endpoints[row.endpointId].isActive {
        HeadNotSelectedAgain(endpoints, rows, t, a);
        DistinctEndpointsCons(TargetOf(endpoints, row.endpointId), rest);
      }
    }
  }

  // ---------------------------------------------------------------------------------------
  // Dispatch

  /** The POST sent to one target: the shared body, signed with the target's own secret. */
  function RequestFor(target: Target, payload: Payload, body: string, env: Environment): Request {
    Request(
      target.targetUrl,
      "POST",
      map[ContentTypeHeader := "application/json",
          EventHeader := payload.eventType,
          EventIdHeader := payload.eventId,
          SignatureHeader := SignaturePrefix + env.sign(target.secret, body)],
      body)
  }

  /** The delivery row logged for the target at position k. */
  function DeliveryFor(k: nat, target: Target, payload: Payload, body: string, env: Environment): Delivery {
    var c := Classify(env.fetch(k, RequestFor(target, payload, body, env)));
    Delivery(
      target.endpointId,
      payload.eventId,
      payload.eventType,
      payload.objectType,
      payload.objectId,
      payload,
      c.status,
      c.statusCode,
      c.error,
      1,
      env.deliveredAt(k))
  }

  /** The requests sent to the first n targets: one per target, in target order. */
  function DispatchRequests(targets: seq<Target>, payload: Payload, body: string, env: Environment, n: nat)
    : (sent: seq<Request>)
    requires n <= |targets|
    ensures |sent| == n
    ensures forall k :: 0 <= k < n ==> sent[k] == RequestFor(targets[k], payload, body, env)
  {
    if n == 0 then []
    else DispatchRequests(targets, payload, body, env, n - 1) + [RequestFor(targets[n - 1], payload, body, env)]
  }

  /** The delivery rows logged for the first n targets, in target order, skipping failed inserts. */
  function DispatchRows(targets: seq<Target>, payload: Payload, body: string, env: Environment, n: nat)
    : (rows: seq<Delivery>)
    requires n <= |targets|
    ensures |rows| <= n
  {
    if n == 0 then []
    else
      var prefix := DispatchRows(targets, payload, body, env, n - 1);
      var row := DeliveryFor(n - 1, targets[n - 1], payload, body, env);
      prefix + (if env.insertFails(n - 1) then [] else [row])
  }

  /** A delivery row carries the event's id, type, object and payload, with a single attempt. */
  predicate SharesEvent(d: Delivery, payload: Payload) {
    && d.eventId == payload.eventId
    && d.eventType == payload.eventType
    && d.objectType == payload.objectType
    && d.objectId == payload.objectId
    && d.payload == payload
    && d.attemptCount == 1
  }

  /** Each row logged for the first n targets is the row of one of them whose insert did not fail. */
  lemma {:induction false} DispatchRowsFromTargets(targets: seq<Target>, payload: Payload, body: string, env: Environment,
                                                   n: nat)
    requires n <= |targets|
    ensures forall j :: 0 <= j < |DispatchRows(targets, payload, body, env, n)| ==>
              exists k :: 0 <= k < n && !env.insertFails(k)
                          && DispatchRows(targets, payload, body, env, n)[j] == DeliveryFor(k, targets[k], payload, body, env)
  {
    if n > 0 {
      DispatchRowsFromTargets(targets, payload, body, env, n - 1);
      var prefix := DispatchRows(targets, payload, body, env, n - 1);
      var row := DeliveryFor(n - 1, targets[n - 1], payload, body, env);
      var last := if env.insertFails(n - 1) then [] else [row];
      var rows := DispatchRows(targets, payload, body, env, n);
      assert rows == prefix + last;
      forall j | 0 <= j < |rows|
        ensures exists k :: 0 <= k < n && !env.insertFails(k) && rows[j] == DeliveryFor(k, targets[k], payload, body, env)
      {
        if j < |prefix| {
          var k :| 0 <= k < n - 1 && !env.insertFails(k) && prefix[j] == DeliveryFor(k, targets[k], payload, body, env);
          assert rows[j] == DeliveryFor(k, targets[k], payload, body, env);
        } else {
          assert !env.insertFails(n - 1) && rows[j] == row;
        }
      }
    } else {
      assert DispatchRows(targets, payload, body, env, n) == [];
    }
  }

  /** Every row logged for the first n targets carries the event's id, type, object and payload, with a single attempt. */
  lemma {:induction false} DispatchRowsShareEvent(targets: seq<Target>, payload: Payload, body: string, env: Environment,
                                                  n: nat)
    requires n <= |targets|
    ensures forall j :: 0 <= j < |DispatchRows(targets, payload, body, env, n)| ==>
              SharesEvent(DispatchRows(targets, payload, body, env, n)[j], payload)
  {
    if n > 0 {
      DispatchRowsShareEvent(targets, payload, body, env, n - 1);
      var prefix := DispatchRows(targets, payload, body, env, n - 1);
      var row := DeliveryFor(n - 1, targets[n - 1], payload, body, env);
      var last := if env.insertFails(n - 1) then [] else [row];
      var rows := DispatchRows(targets, payload, body, env, n);
      assert rows == prefix + last;
      assert SharesEvent(row, payload);
      forall j | 0 <= j < |rows| ensures SharesEvent(rows[j], payload) {
        if j < |prefix| {
          assert rows[j] == prefix[j];
        } else {
          assert rows[j] == row;
        }
      }
    } else {
      assert DispatchRows(targets, payload, body, env, n) == [];
    }
  }

  /** When no insert fails, the first n targets get exactly n rows, the k-th one the k-th target's. */
  lemma {:induction false} DispatchRowsWithoutFailures(targets: seq<Target>, payload: Payload, body: string,
                                                       env: Environment, n: nat)
    requires n <= |targets|
    requires forall k :: 0 <= k < n ==> !env.insertFails(k)
    ensures |DispatchRows(targets, payload, body, env, n)| == n
    ensures forall k :: 0 <= k < n ==>
              DispatchRows(targets, payload, body, env, n)[k] == DeliveryFor(k, targets[k], payload, body, env)
  {
    if n > 0 {
      DispatchRowsWithoutFailures(targets, payload, body, env, n - 1);
      var prefix := DispatchRows(targets, payload, body, env, n - 1);
      var row := DeliveryFor(n - 1, targets[n - 1], payload, body, env);
      assert !env.insertFails(n - 1);
      assert DispatchRows(targets, payload, body, env, n) == prefix + [row];
    }
  }

  /** The delivery rows of one endpoint, in log order. */
  function RowsOf(deliveries: seq<Delivery>, id: Id): (mine: seq<Delivery>)
    ensures |mine| <= |deliveries|
  {
    if deliveries == [] then []
    else (if deliveries[0].endpointId == id then [deliveries[0]] else []) + RowsOf(deliveries[1..], id)
  }

  /** The rows of an endpoint are exactly the logged rows that name it. */
  lemma {:induction false} RowsOfMembers(deliveries: seq<Delivery>, id: Id)
    ensures forall d :: d in RowsOf(deliveries, id) <==> d in deliveries && d.endpointId == id
  {
    if deliveries != [] {
      assert deliveries == [deliveries[0]] + deliveries[1..];
      RowsOfMembers(deliveries[1..], id);
    }
  }

  lemma {:induction false} RowsOfAppend(a: seq<Delivery>, b: seq<Delivery>, id: Id)
    ensures RowsOf(a + b, id) == RowsOf(a, id) + RowsOf(b, id)
  {
    if a == [] {
      assert a + b == b;
    } else {
      var ab := a + b;
      assert ab[0] == a[0] && ab[1..] == a[1..] + b;
      RowsOfAppend(a[1..], b, id);
      var head := if a[0].endpointId == id then [a[0]] else [];
      assert RowsOf(ab, id) == head + RowsOf(ab[1..], id);
      assert RowsOf(a, id) == head + RowsOf(a[1..], id);
    }
  }

  /** The rows of an endpoint in a one-row log: that row if it names the endpoint. */
  lemma RowsOfSingle(row: Delivery, id: Id)
    ensures RowsOf([row], id) == if row.endpointId == id then [row] else []
  {
    assert [row][1..] == [];
  }

  /** The rows of the first n targets hold nothing for an endpoint that is not among them. */
  lemma {:induction false} DispatchRowsOfOther(targets: seq<Target>, payload: Payload, body: string, env: Environment,
                                               n: nat, id: Id)
    requires n <= |targets|
    requires forall k :: 0 <= k < n ==> targets[k].endpointId != id
    ensures RowsOf(DispatchRows(targets, payload, body, env, n), id) == []
  {
    if n > 0 {
      DispatchRowsOfOther(targets, payload, body, env, n - 1, id);
      var row := DeliveryFor(n - 1, targets[n - 1], payload, body, env);
      var last := if env.insertFails(n - 1) then [] else [row];
      RowsOfAppend(DispatchRows(targets, payload, body, env, n - 1), last, id);
      RowsOfSingle(row, id);
    }
  }

  /** The rows of the first n targets split into those of the first n - 1 and the last one's. */
  lemma DispatchRowsOfLastStep(targets: seq<Target>, payload: Payload, body: string, env: Environment,
                               n: nat, id: Id)
    requires 0 < n <= |targets|
    ensures RowsOf(DispatchRows(targets, payload, body, env, n), id)
            == RowsOf(DispatchRows(targets, payload, body, env, n - 1), id)
               + (if env.insertFails(n - 1) || targets[n - 1].endpointId != id then []
                  else [DeliveryFor(n - 1, targets[n - 1], payload, body, env)])
  {
    var row := DeliveryFor(n - 1, targets[n - 1], payload, body, env);
    var last := if env.insertFails(n - 1) then [] else [row];
    RowsOfAppend(DispatchRows(targets, payload, body, env, n - 1), last, id);
    RowsOfSingle(row, id);
  }

  /**
   * When no earlier target has the endpoint of the last of the first n targets, the rows of
   * the first n targets hold for it its own row unless its own insert failed.
   */
  lemma DispatchRowsOfLastTarget(targets: seq<Target>, payload: Payload, body: string, env: Environment, n: nat)
    requires 0 < n <= |targets|
    requires forall m :: 0 <= m < n - 1 ==> targets[m].endpointId != targets[n - 1].endpointId
    ensures RowsOf(DispatchRows(targets, payload, body, env, n), targets[n - 1].endpointId)
            == if env.insertFails(n - 1) then [] else [DeliveryFor(n - 1, targets[n - 1], payload, body, env)]
  {
    var id := targets[n - 1].endpointId;
    DispatchRowsOfOther(targets, payload, body, env, n - 1, id);
    DispatchRowsOfLastStep(targets, payload, body, env, n, id);
  }

  /**
   * When no other of the first n targets has the endpoint of target k, the rows of the first n
   * targets hold for it its own row unless its own insert failed; the other targets' inserts do
   * not matter.
   */
  lemma {:induction false} DispatchRowsOfTarget(targets: seq<Target>, payload: Payload, body: string, env: Environment,
                                                n: nat, k: nat)
    requires k < n <= |targets|
    requires forall m :: 0 <= m < n && m != k ==> targets[m].endpointId != targets[k].endpointId
    ensures RowsOf(DispatchRows(targets, payload, body, env, n), targets[k].endpointId)
            == if env.insertFails(k) then [] else [DeliveryFor(k, targets[k], payload, body, env)]
  {
    if k == n - 1 {
      DispatchRowsOfLastTarget(targets, payload, body, env, n);
    } else {
      assert targets[n - 1].endpointId != targets[k].endpointId;
      DispatchRowsOfTarget(targets, payload, body, env, n - 1, k);
      DispatchRowsOfLastStep(targets, payload, body, env, n, targets[k].endpointId);
    }
  }

  // ---------------------------------------------------------------------------------------
  // One emitWebhookEvent call, as values

  /** The targets dispatched to: none when the lookup fails. */
  function EmittedTargets(endpoints: map<Id, Endpoint>, rows: seq<SubscriptionRow>, input: EmitWebhookEventInput,
                          env: Environment): (targets: seq<Target>)
    ensures forall k :: 0 <= k < |targets| ==>
              !env.lookupFails && Subscribed(endpoints, rows, input.objectType, input.action, targets[k].endpointId)
    ensures !env.lookupFails ==>
              forall id :: Subscribed(endpoints, rows, input.objectType, input.action, id) ==>
                TargetOf(endpoints, id) in targets
  {
    if env.lookupFails then [] else SelectTargets(endpoints, rows, input.objectType, input.action)
  }

  /** The requests one event sends. */
  function EmittedRequests(endpoints: map<Id, Endpoint>, rows: seq<SubscriptionRow>, input: EmitWebhookEventInput,
                           env: Environment): seq<Request>
  {
    var targets := EmittedTargets(endpoints, rows, input, env);
    var payload := PayloadOf(input, env);
    DispatchRequests(targets, payload, env.serialize(payload), env, |targets|)
  }

  /** The delivery rows one event appends. */
  function EmittedRows(endpoints: map<Id, Endpoint>, rows: seq<SubscriptionRow>, input: EmitWebhookEventInput,
                       env: Environment): seq<Delivery>
  {
    var targets := EmittedTargets(endpoints, rows, input, env);
    var payload := PayloadOf(input, env);
    DispatchRows(targets, payload, env.serialize(payload), env, |targets|)
  }

  /** A failed lookup, or one with no result, sends nothing and logs nothing. */
  lemma NothingWithoutTargets(endpoints: map<Id, Endpoint>, rows: seq<SubscriptionRow>, input: EmitWebhookEventInput,
                              env: Environment)
    requires env.lookupFails || SelectTargets(endpoints, rows, input.objectType, input.action) == []
    ensures EmittedRequests(endpoints, rows, input, env) == []
    ensures EmittedRows(endpoints, rows, input, env) == []
  {
  }

  /** When the lookup succeeds and no insert fails, one event logs exactly one row per target. */
  lemma EmittedRowsWithoutFailures(endpoints: map<Id, Endpoint>, rows: seq<SubscriptionRow>,
                                   input: EmitWebhookEventInput, env: Environment)
    requires !env.lookupFails
    requires forall k :: 0 <= k < |SelectTargets(endpoints, rows, input.objectType, input.action)| ==>
               !env.insertFails(k)
    ensures var targets := SelectTargets(endpoints, rows, input.objectType, input.action);
            var payload := PayloadOf(input, env);
            && |EmittedRows(endpoints, rows, input, env)| == |targets|
            && forall k :: 0 <= k < |targets| ==>
                 EmittedRows(endpoints, rows, input, env)[k] == DeliveryFor(k, targets[k], payload, env.serialize(payload), env)
  {
    var targets := SelectTargets(endpoints, rows, input.objectType, input.action);
    var payload := PayloadOf(input, env);
    DispatchRowsWithoutFailures(targets, payload, env.serialize(payload), env, |targets|);
  }

  /** The request for a target: a JSON POST to its URL, with the event headers and the body's signature. */
  lemma RequestForShape(target: Target, payload: Payload, body: string, env: Environment)
    ensures var request := RequestFor(target, payload, body, env);
            && request.url == target.targetUrl
            && request.httpMethod == "POST"
            && request.body == body
            && request.headers.Keys == {ContentTypeHeader, EventHeader, EventIdHeader, SignatureHeader}
            && request.headers[ContentTypeHeader] == "application/json"
            && request.headers[EventHeader] == payload.eventType
            && request.headers[EventIdHeader] == payload.eventId
            && request.headers[SignatureHeader] == SignaturePrefix + env.sign(target.secret, body)
  {
  }

  /**
   * An event sends one request per target, in target order. The request to the target at
   * position k goes to that target's URL and carries the one serialized body, the event type
   * "<objectType>.<action>", the event id, and the body's signature under that target's secret.
   */
  lemma EmittedRequestAt(endpoints: map<Id, Endpoint>, rows: seq<SubscriptionRow>, input: EmitWebhookEventInput,
                         env: Environment, k: nat)
    requires k < |EmittedTargets(endpoints, rows, input, env)|
    ensures |EmittedRequests(endpoints, rows, input, env)| == |EmittedTargets(endpoints, rows, input, env)|
    ensures var target := EmittedTargets(endpoints, rows, input, env)[k];
            var request := EmittedRequests(endpoints, rows, input, env)[k];
            var body := env.serialize(PayloadOf(input, env));
            && request.url == target.targetUrl
            && request.httpMethod == "POST"
            && request.body == body
            && request.headers[EventHeader] == FormatWebhookEventType(input.objectType, input.action)
            && request.headers[EventIdHeader] == env.eventId
            && request.headers[SignatureHeader] == SignaturePrefix + env.sign(target.secret, body)
  {
    var targets := EmittedTargets(endpoints, rows, input, env);
    var payload := PayloadOf(input, env);
    RequestForShape(targets[k], payload, env.serialize(payload), env);
  }

  /**
   * Every logged row carries the one event id, the event type "<objectType>.<action>", the
   * object, the shared payload and a single attempt, and belongs to an active endpoint
   * subscribed to exactly this (objectType, action).
   */
  lemma EmittedRowsShared(endpoints: map<Id, Endpoint>, rows: seq<SubscriptionRow>, input: EmitWebhookEventInput,
                          env: Environment)
    ensures var logged := EmittedRows(endpoints, rows, input, env);
            forall j :: 0 <= j < |logged| ==>
              && logged[j].eventId == env.eventId
              && logged[j].eventType == FormatWebhookEventType(input.objectType, input.action)
              && logged[j].objectType == input.objectType
              && logged[j].objectId == input.objectId
              && logged[j].payload == PayloadOf(input, env)
              && logged[j].attemptCount == 1
              && Subscribed(endpoints, rows, input.objectType, input.action, logged[j].endpointId)
  {
    var targets := EmittedTargets(endpoints, rows, input, env);
    var payload := PayloadOf(input, env);
    var logged := DispatchRows(targets, payload, env.serialize(payload), env, |targets|);
    DispatchRowsFromTargets(targets, payload, env.serialize(payload), env, |targets|);
    DispatchRowsShareEvent(targets, payload, env.serialize(payload), env, |targets|);
    forall j | 0 <= j < |logged|
      ensures Subscribed(endpoints, rows, input.objectType, input.action, logged[j].endpointId)
    {
      var k :| 0 <= k < |targets| && !env.insertFails(k)
               && logged[j] == DeliveryFor(k, targets[k], payload, env.serialize(payload), env);
      assert logged[j].endpointId == targets[k].endpointId;
    }
  }

  /**
   * With no repeated subscription row, an endpoint that is not active or not subscribed to
   * this pair gets no row, and the target at position k gets exactly its own row (the
   * classification of its own fetch) unless its insert failed.
   */
  lemma EmittedRowsPerEndpoint(endpoints: map<Id, Endpoint>, rows: seq<SubscriptionRow>, input: EmitWebhookEventInput,
                               env: Environment, id: Id)
    requires Distinct(rows)
    ensures !Subscribed(endpoints, rows, input.objectType, input.action, id) ==>
              RowsOf(EmittedRows(endpoints, rows, input, env), id) == []
    ensures var targets := EmittedTargets(endpoints, rows, input, env);
            var payload := PayloadOf(input, env);
            forall k :: 0 <= k < |targets| && targets[k].endpointId == id ==>
              RowsOf(EmittedRows(endpoints, rows, input, env), id)
              == if env.insertFails(k) then [] else [DeliveryFor(k, targets[k], payload, env.serialize(payload), env)]
  {
    var targets := EmittedTargets(endpoints, rows, input, env);
    var payload := PayloadOf(input, env);
    if !env.lookupFails {
      SelectTargetsDistinct(endpoints, rows, input.objectType, input.action);
    }
    if !Subscribed(endpoints, rows, input.objectType, input.action, id) {
      DispatchRowsOfOther(targets, payload, env.serialize(payload), env, |targets|, id);
    }
    forall k | 0 <= k < |targets| && targets[k].endpointId == id
      ensures RowsOf(DispatchRows(targets, payload, env.serialize(payload), env, |targets|), id)
              == if env.insertFails(k) then [] else [DeliveryFor(k, targets[k], payload, env.serialize(payload), env)]
    {
      DistinctEndpointsAt(targets, k);
      DispatchRowsOfTarget(targets, payload, env.serialize(payload), env, |targets|, k);
    }
  }

  /** The requests an event sends do not depend on whether the delivery inserts fail. */
  lemma RequestsIgnoreInsertOutcomes(endpoints: map<Id, Endpoint>, rows: seq<SubscriptionRow>,
                                     input: EmitWebhookEventInput, env: Environment, insertFails: nat -> bool)
    ensures EmittedRequests(endpoints, rows, input, env.(insertFails := insertFails))
            == EmittedRequests(endpoints, rows, input, env)
  {
    var other := env.(insertFails := insertFails);
    var targets := EmittedTargets(endpoints, rows, input, env);
    var payload := PayloadOf(input, env);
    var body := env.serialize(payload);
    assert EmittedTargets(endpoints, rows, input, other) == targets;
    assert PayloadOf(input, other) == payload;
    var sent := DispatchRequests(targets, payload, body, env, |targets|);
    var sentOther := DispatchRequests(targets, payload, body, other, |targets|);
    forall j | 0 <= j < |targets| ensures sentOther[j] == sent[j] {
      assert RequestFor(targets[j], payload, body, other) == RequestFor(targets[j], payload, body, env);
    }
  }

  /**
   * A failing delivery insert is contained: with the other targets' insert outcomes changed
   * arbitrarily, the target at position k has the same rows as before.
   */
  lemma InsertFailureContained(endpoints: map<Id, Endpoint>, rows: seq<SubscriptionRow>, input: EmitWebhookEventInput,
                               env: Environment, insertFails: nat -> bool, k: nat)
    requires Distinct(rows)
    requires k < |EmittedTargets(endpoints, rows, input, env)|
    requires insertFails(k) == env.insertFails(k)
    ensures var id := EmittedTargets(endpoints, rows, input, env)[k].endpointId;
            RowsOf(EmittedRows(endpoints, rows, input, env.(insertFails := insertFails)), id)
            == RowsOf(EmittedRows(endpoints, rows, input, env), id)
  {
    var other := env.(insertFails := insertFails);
    var targets := EmittedTargets(endpoints, rows, input, env);
    var payload := PayloadOf(input, env);
    var body := env.serialize(payload);
    assert !env.lookupFails;
    assert EmittedTargets(endpoints, rows, input, other) == targets;
    assert PayloadOf(input, other) == payload;
    SelectTargetsDistinct(endpoints, rows, input.objectType, input.action);
    DistinctEndpointsAt(targets, k);
    DispatchRowsOfTarget(targets, payload, body, env, |targets|, k);
    DispatchRowsOfTarget(targets, payload, body, other, |targets|, k);
    assert RequestFor(targets[k], payload, body, other) == RequestFor(targets[k], payload, body, env);
  }

  // ---------------------------------------------------------------------------------------
  // The imperative operation

  /**
   * Signs the shared body for one target, sends it, classifies the outcome and logs the
   * delivery; a failing insert is swallowed. Returns the request that was sent.
   */
  method DeliverToTarget(db: Database, k: nat, target: Target, payload: Payload, payloadBody: string, env: Environment)
    returns (request: Request)
    modifies db
    ensures request == RequestFor(target, payload, payloadBody, env)
    ensures db.deliveries == old(db.deliveries)
                             + if env.insertFails(k) then [] else [DeliveryFor(k, target, payload, payloadBody, env)]
    ensures db.endpoints == old(db.endpoints) && db.subscriptions == old(db.subscriptions)
  {
    var signature := env.sign(target.secret, payloadBody);

    var status := Failed;
    var statusCode: Option<nat> := None;
    var errorMessage: Option<string> := None;

    request := Request(
      target.targetUrl,
      "POST",
      map[ContentTypeHeader := "application/json",
          EventHeader := payload.eventType,
          EventIdHeader := payload.eventId,
          SignatureHeader := SignaturePrefix + signature],
      payloadBody);
    var outcome := env.fetch(k, request);
    match outcome {
      case Response(code) =>
        statusCode := Some(code);
        if IsOkStatus(code) {
          status := Success;
        } else {
          errorMessage := Some(FailurePrefix + DecimalString(code));
        }
      case Threw(error) =>
        errorMessage := Some(ErrorMessage(error));
    }
    assert Classification(status, statusCode, errorMessage) == Classify(outcome);

    if !env.insertFails(k) {
      db.deliveries := db.deliveries + [Delivery(
        target.endpointId,
        payload.eventId,
        payload.eventType,
        payload.objectType,
        payload.objectId,
        payload,
        status,
        statusCode,
        errorMessage,
        1,
        env.deliveredAt(k))];
    }
  }

  /** The envelope, with `data` filled in field by field. */
  method BuildPayload(input: EmitWebhookEventInput, env: Environment) returns (payload: Payload)
    ensures payload == PayloadOf(input, env)
  {
    var eventType := FormatWebhookEventType(input.objectType, input.action);

    var data := EventData(None, None, None);
    if input.current.Some? {
      data := data.(obj := input.current);
    }
    if input.previous.Some? {
      data := data.(previous := input.previous);
    }
    if input.changedFields.Some? && |input.changedFields.value| > 0 {
      data := data.(changedFields := input.changedFields);
    }

    payload := Payload(env.eventId, eventType, input.objectType, input.objectId, env.occurredAt, data);
  }

  /**
   * emitWebhookEvent: builds the envelope, looks up the targets and delivers to each in turn.
   * The requests sent and the rows appended are those of EmittedRequests and EmittedRows for
   * the tables as they were; the endpoint and subscription tables are not touched.
   */
  method EmitWebhookEvent(db: Database, input: EmitWebhookEventInput, env: Environment) returns (sent: seq<Request>)
    modifies db
    ensures sent == EmittedRequests(old(db.endpoints), old(db.subscriptions), input, env)
    ensures db.deliveries == old(db.deliveries) + EmittedRows(old(db.endpoints), old(db.subscriptions), input, env)
    ensures db.endpoints == old(db.endpoints) && db.subscriptions == old(db.subscriptions)
  {
    var payload := BuildPayload(input, env);

    if env.lookupFails {
      NothingWithoutTargets(db.endpoints, db.subscriptions, input, env);
      return [];
    }
    var targets := SelectTargets(db.endpoints, db.subscriptions, input.objectType, input.action);
    if |targets| == 0 {
      NothingWithoutTargets(db.endpoints, db.subscriptions, input, env);
      return [];
    }

    var payloadBody := env.serialize(payload);
    sent := DeliverToAll(db, targets, payload, payloadBody, env);
  }

  /** One more target dispatched: its request is sent, and its row logged unless the insert fails. */
  lemma DispatchStep(logged: seq<Delivery>, targets: seq<Target>, payload: Payload, body: string, env: Environment, i: nat)
    requires i < |targets|
    ensures logged + DispatchRows(targets, payload, body, env, i + 1)
            == (logged + DispatchRows(targets, payload, body, env, i))
               + if env.insertFails(i) then [] else [DeliveryFor(i, targets[i], payload, body, env)]
    ensures DispatchRequests(targets, payload, body, env, i + 1)
            == DispatchRequests(targets, payload, body, env, i) + [RequestFor(targets[i], payload, body, env)]
  {
    AppendAssociative(logged, DispatchRows(targets, payload, body, env, i),
                      if env.insertFails(i) then [] else [DeliveryFor(i, targets[i], payload, body, env)]);
  }

  /**
   * The Promise.all over the targets, run one target after another: delivers the shared body
   * to each target in order, appending their rows and returning the requests sent.
   */
  method DeliverToAll(db: Database, targets: seq<Target>, payload: Payload, payloadBody: string, env: Environment)
    returns (sent: seq<Request>)
    modifies db
    ensures sent == DispatchRequests(targets, payload, payloadBody, env, |targets|)
    ensures db.deliveries == old(db.deliveries) + DispatchRows(targets, payload, payloadBody, env, |targets|)
    ensures db.endpoints == old(db.endpoints) && db.subscriptions == old(db.subscriptions)
  {
    sent := [];
    assert DispatchRows(targets, payload, payloadBody, env, 0) == [];
    for i := 0 to |targets|
      invariant db.endpoints == old(db.endpoints) && db.subscriptions == old(db.subscriptions)
      invariant sent == DispatchRequests(targets, payload, payloadBody, env, i)
      invariant db.deliveries == old(db.deliveries) + DispatchRows(targets, payload, payloadBody, env, i)
    {
      DispatchStep(old(db.deliveries), targets, payload, payloadBody, env, i);
      var request := DeliverToTarget(db, i, targets[i], payload, payloadBody, env);
      sent := sent + [request];
    }
  }
}
