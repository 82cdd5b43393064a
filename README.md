# Webhooks of the Contranym CRM API, modelled in Dafny

Contranym's API lets operators register webhook endpoints. Each endpoint is a target URL, a
signing secret and an active flag, plus a list of subscriptions: which object type and which
action should reach it. Whenever an account, contact, deal, activity, task or note is
created, updated or deleted, the API emits an event. The vocabulary also lists tags, but the
tag operations (`modules/tags/service.ts`) emit nothing. For each event the API builds one
JSON envelope and selects the active endpoints subscribed to that event. It then signs the
serialized envelope with each endpoint's own secret, POSTs it, classifies the outcome, and
appends one row to the delivery log.

This project models that subsystem over an in-memory store with three tables, the fields of
the class `Schema.Database`:

- `endpoints`: a map from id to an endpoint row;
- `subscriptions`: a sequence of (endpointId, objectType, eventType) rows;
- `deliveries`: an append-only sequence of delivery rows.

Modules:

- `Constants` (constants.ts) holds the seven object types and three actions, as datatypes
  with their names, and the event type "objectType.action".
- `Model` (model.ts) holds the request schemas, as validity predicates and parse functions
  on the raw bodies.
- `Service` (service.ts) covers subscription normalization, the read queries, and the
  create, update, rotate-secret and delete operations:
  - normalization is a method over a sequence, with a loop over an insertion-ordered map,
    proved equal to the function `Sequences.FirstOccurrences`;
  - the read queries `GetWebhookWithSubscriptions` and `GetWebhooks` are functions of the
    table values;
  - create, update, rotate-secret and delete are methods over the `Database`. Their contracts
    give the new tables in terms of functions on the old table values.
- `Delivery` (delivery.ts) covers `emitWebhookEvent`:
  - the envelope, built field by field;
  - the target lookup;
  - the per-target sign, send, classify and record step;
  - the loop over all targets.
  The methods are proved equal to `EmittedRequests` and `EmittedRows`, and the lemmas there
  state what those produce.
- `Wrappers`, `Sequences` and `Strings` are helpers: `Option`, first-occurrence
  deduplication, hexadecimal and decimal text.

The outside world is a parameter:

- `Delivery.Environment` supplies:
  - the event id and the ISO timestamp;
  - whether the lookup query throws;
  - JSON serialization and the HMAC-SHA256 hex digest, as uninterpreted functions;
  - the HTTP outcome of the k-th target's request;
  - whether the k-th delivery insert throws;
  - the k-th delivery timestamp.
- `randomBytes(24)` is a `random: seq<byte>` parameter of 24 bytes.
- `new Date()` is a `now` parameter.
- The id the database assigns to a new endpoint is a `newId` parameter, required to be unused.

## Model

| member | source | states |
|---|---|---|
| Constants.ParseObjectType | apps/api/src/modules/webhooks/constants.ts:1-9 | accepts exactly the seven listed object-type names and returns the type whose name it read |
| Constants.ParseAction | apps/api/src/modules/webhooks/constants.ts:11 | accepts exactly the three listed action names and returns the action whose name it read |
| Constants.ObjectTypeName | apps/api/src/modules/webhooks/constants.ts:1-9 | the literal name of each object type; ObjectTypeNameRoundTrip shows each is listed and parses back, VocabularySizes that none is repeated |
| Constants.ActionName | apps/api/src/modules/webhooks/constants.ts:11 | the literal name of each action; ActionNameRoundTrip shows each is listed and parses back, VocabularySizes that none is repeated |
| Constants.ObjectTypeNameRoundTrip | apps/api/src/modules/webhooks/constants.ts:1-13 | every object type's name is in the list, and parsing the name gives the type back |
| Constants.ActionNameRoundTrip | apps/api/src/modules/webhooks/constants.ts:11-14 | every action's name is in the list, and parsing the name gives the action back |
| Constants.VocabularySizes | apps/api/src/modules/webhooks/constants.ts:1-11 | there are exactly 7 object types and 3 actions, none listed twice, and a string is listed iff it parses |
| Constants.NamesHaveNoSeparators | apps/api/src/modules/webhooks/constants.ts:1-11 | no name contains "." or ":" |
| Constants.FormatWebhookEventType | apps/api/src/modules/webhooks/constants.ts:17-20 | the event type "objectType.action"; the round-trip, injectivity and shape lemmas below state what it produces |
| Constants.FormatParseRoundTrip | apps/api/src/modules/webhooks/constants.ts:15-20 | splitting a formatted event type at its first "." gives back the (objectType, action) pair |
| Constants.ParseFormatRoundTrip | apps/api/src/modules/webhooks/constants.ts:15-20 | whatever parses as an event type is the formatted form of the pair it parses to |
| Constants.FormatWebhookEventTypeInjective | apps/api/src/modules/webhooks/constants.ts:1-20 | distinct (objectType, action) pairs give distinct event types |
| Constants.FormatWebhookEventTypeShape | apps/api/src/modules/webhooks/constants.ts:15 | every event type is a listed object type, ".", and a listed action |
| Model.ValidSubscription | apps/api/src/modules/webhooks/model.ts:7-10 | both fields are members of their enumerations; ParseSubscription accepts exactly these |
| Model.ValidCreateBody | apps/api/src/modules/webhooks/model.ts:12-18 | the five create rules; ParseCreateWebhook accepts exactly the bodies meeting them |
| Model.ValidUpdateBody | apps/api/src/modules/webhooks/model.ts:20-26 | the update rules, each only for a supplied field; ParseUpdateWebhook accepts exactly the bodies meeting them |
| Model.ParseSubscription | apps/api/src/modules/webhooks/model.ts:4-10 | a subscription is accepted iff both fields are enumeration members, and the parsed values keep both names |
| Model.ParseSubscriptions | apps/api/src/modules/webhooks/model.ts:7-10 | a list is accepted iff every element is valid, and the parsed list matches it element by element |
| Model.ParseCreateWebhook | apps/api/src/modules/webhooks/model.ts:12-18 | a create body is accepted iff its name is non-empty, its URL passes, a supplied secret has at least 12 characters and it has at least one subscription, all valid; the input keeps every field |
| Model.ParseUpdateWebhook | apps/api/src/modules/webhooks/model.ts:20-26 | an update body is accepted iff each supplied field meets its rule; nothing is required; the input keeps every field |
| Model.EmptyUpdatesAreValid | apps/api/src/modules/webhooks/model.ts:20-26 | an update body with no fields, or with only an empty subscription list, is accepted |
| Model.CreateRejections | apps/api/src/modules/webhooks/model.ts:13-17 | a create body with no subscriptions, an empty name or a secret shorter than 12 is rejected |
| Service.GenerateWebhookSecret | apps/api/src/modules/webhooks/service.ts:29 | the generated secret is 48 lower-case hex digits that decode back to the 24 random bytes |
| Strings.HexRoundTrip | apps/api/src/modules/webhooks/service.ts:29 | hex encoding loses nothing: decoding it gives the bytes back |
| Service.SubscriptionKey | apps/api/src/modules/webhooks/service.ts:35 | the Map key "objectType:eventType"; SubscriptionKeyInjective shows it determines the subscription |
| Service.SubscriptionKeyInjective | apps/api/src/modules/webhooks/service.ts:35 | two subscriptions with the same "objectType:eventType" key are the same subscription |
| Service.NormalizeSubscriptions | apps/api/src/modules/webhooks/service.ts:31-40 | the Map loop returns the input's first occurrences, in first-occurrence order |
| Sequences.FirstOccurrences | apps/api/src/modules/webhooks/service.ts:31-40 | every input element is kept, nothing else appears, no element is repeated, and the result is no longer than the input |
| Sequences.FirstOccurrencesOfDistinct | apps/api/src/modules/webhooks/service.ts:31-40 | a list without repetitions is left as it is |
| Sequences.FirstOccurrencesIdempotent | apps/api/src/modules/webhooks/service.ts:31-40 | normalizing twice gives what normalizing once gave |
| Sequences.FirstOccurrencesOrder | apps/api/src/modules/webhooks/service.ts:34-39 | the kept elements appear in the order of their first index in the input |
| Service.SubscriptionsOf | apps/api/src/modules/webhooks/service.ts:54-60 | the subscriptions of the rows naming an id, in table order; SubscriptionsOfMembers, SubscriptionsOfAppend and SubscriptionsOfRemoved state its membership and how it distributes |
| Service.RowsFor | apps/api/src/modules/webhooks/service.ts:97-103 | one row per subscription, each naming the endpoint and keeping both fields, in order |
| Service.RemoveRowsOf | apps/api/src/modules/webhooks/service.ts:145-147 | keeps exactly the rows naming other endpoints |
| Schema.Database.Valid | apps/api/src/modules/webhooks/service.ts:94-104 | no subscription row is stored twice; CreateWebhook and UpdateWebhook, each run as one step, preserve it |
| Service.GetWebhookWithSubscriptions | apps/api/src/modules/webhooks/service.ts:42-66 | None iff the id has no endpoint row; otherwise that row, with exactly the subscriptions whose rows name the id |
| Service.SubscriptionsOfMembers | apps/api/src/modules/webhooks/service.ts:54-60 | the subscriptions read for an id are exactly those with a row naming that id |
| Service.GetWebhooks | apps/api/src/modules/webhooks/service.ts:68-77 | every hook returned is a listed id's lookup; every listed id that resolves is returned; when every listed id resolves, all are returned, in order |
| Service.GetWebhooksListsEveryEndpoint | apps/api/src/modules/webhooks/service.ts:68-77 | when the first select lists every endpoint id once, every endpoint is returned exactly once, with its row and its subscriptions |
| Service.NewEndpoint | apps/api/src/modules/webhooks/service.ts:83-92 | the new row keeps name and URL; the secret is the supplied one, or else 48 hex digits of the random bytes; isActive is true unless false was supplied |
| Service.CreateWebhook | apps/api/src/modules/webhooks/service.ts:83-107 | adds exactly the new endpoint, appends one row per normalized subscription, keeps a table without repeated rows so, and returns the new endpoint with exactly those subscriptions |
| Service.InsertForNewEndpoint | apps/api/src/modules/webhooks/service.ts:94-106 | appending the rows of a fresh id keeps a repeat-free table repeat-free for a repeat-free list, and that id's subscriptions read back as inserted |
| Service.BuildUpdateData | apps/api/src/modules/webhooks/service.ts:110-123 | the key-by-key filling of updateData gives exactly the supplied scalar fields, and it has a key iff some scalar field was supplied |
| Service.UpdatePatch | apps/api/src/modules/webhooks/service.ts:110-126 | the supplied scalar fields, plus updatedAt = now when any was supplied; UpdatedEndpoint states the row it produces |
| Service.ApplyPatch | apps/api/src/modules/webhooks/service.ts:128-132 | the `.set` of the present keys on the stored row; UpdatedEndpoint states its result field by field |
| Service.PatchKeys | apps/api/src/modules/webhooks/service.ts:125 | `Object.keys(updateData)`: the names of the present fields; PatchKeysEmpty states when it is empty |
| Service.PatchKeysEmpty | apps/api/src/modules/webhooks/service.ts:110-125 | the patch has no keys iff none of name, targetUrl, secret and isActive was supplied |
| Service.UpdatedEndpoint | apps/api/src/modules/webhooks/service.ts:110-132 | each supplied field replaces the stored one, createdAt stays, and updatedAt moves to now only when some scalar field was supplied |
| Service.UpdateEndpointRow | apps/api/src/modules/webhooks/service.ts:110-142 | reports whether the id exists; if it does, writes the updated row; changes nothing else |
| Service.ReplaceSubscriptions | apps/api/src/modules/webhooks/service.ts:144-160 | removes every row of the endpoint and appends the rows of its normalized list |
| Service.ReplaceForEndpoint | apps/api/src/modules/webhooks/service.ts:144-160 | a repeat-free table stays repeat-free for a repeat-free list; the endpoint reads back the new list, and every other endpoint reads back what it had |
| Service.SubscriptionsOfRemoved | apps/api/src/modules/webhooks/service.ts:145-147 | after removing an endpoint's rows it has no subscriptions, and every other endpoint keeps its own |
| Service.UpdateWebhook | apps/api/src/modules/webhooks/service.ts:109-163 | unknown id: None, nothing changes; known id: the updated row, the endpoint's subscriptions replaced only if supplied, other endpoints' subscriptions unchanged, and the returned view of the new state |
| Service.RotateWebhookSecret | apps/api/src/modules/webhooks/service.ts:165-179 | a known id gets a freshly generated secret and updatedAt = now, and the id and new secret are returned; an unknown id gives None and changes nothing |
| Service.DeleteWebhook | apps/api/src/modules/webhooks/service.ts:181-188 | returns the removed row, or None for an unknown id; removes only that endpoint row |
| Delivery.ErrorMessage | apps/api/src/modules/webhooks/delivery.ts:30-35 | an Error gives its message; anything else thrown gives "Unknown error" |
| Delivery.IsOkStatus | apps/api/src/modules/webhooks/delivery.ts:130 | the Fetch Standard's ok status, 200 to 299; Classify reports success exactly for these |
| Delivery.Classify | apps/api/src/modules/webhooks/delivery.ts:113-137 | success iff an ok (200-299) response; statusCode is the status of any response and null when fetch threw; no error iff success; a non-ok response gives "Webhook returned <status>"; a throw gives its message |
| Delivery.FailureNamesStatus | apps/api/src/modules/webhooks/delivery.ts:133 | the failure text is "Webhook returned " followed by a decimal that reads back as the status |
| Strings.DecimalRoundTrip | apps/api/src/modules/webhooks/delivery.ts:133 | the decimal rendering of a status reads back as that status |
| Delivery.EventDataOf | apps/api/src/modules/webhooks/delivery.ts:49-58 | "object" is present iff current is given, "previous" iff previous is given, "changedFields" iff a non-empty list is given, and no other key appears |
| Delivery.PayloadOf | apps/api/src/modules/webhooks/delivery.ts:45-67 | the envelope carries the event id, the timestamp text, the object, the data above, and an event type that is "objectType.action" and parses back to the pair |
| Delivery.BuildPayload | apps/api/src/modules/webhooks/delivery.ts:45-67 | building the envelope field by field gives PayloadOf |
| Delivery.SelectTargets | apps/api/src/modules/webhooks/delivery.ts:78-95 | every target is an active endpoint with a row for exactly this objectType and action, with its URL and secret; every such endpoint is a target |
| Delivery.TargetOf | apps/api/src/modules/webhooks/delivery.ts:79-83 | the three selected columns of an endpoint: its id, URL and secret; SelectTargets states each target is one |
| Delivery.SelectTargetsDistinct | apps/api/src/modules/webhooks/delivery.ts:78-95 | with no repeated subscription row, no endpoint is a target twice |
| Delivery.EmittedTargets | apps/api/src/modules/webhooks/delivery.ts:77-103 | every target is an active endpoint subscribed to the pair, and only when the lookup did not throw; a lookup that does not throw yields every such endpoint |
| Delivery.EmittedRequests | apps/api/src/modules/webhooks/delivery.ts:96-127 | the requests of one call; NothingWithoutTargets, EmittedRequestAt and RequestsIgnoreInsertOutcomes state what they are |
| Delivery.EmittedRows | apps/api/src/modules/webhooks/delivery.ts:96-157 | the rows one call logs; NothingWithoutTargets, EmittedRowsShared, EmittedRowsPerEndpoint and InsertFailureContained state what they are |
| Delivery.NothingWithoutTargets | apps/api/src/modules/webhooks/delivery.ts:96-103 | when the lookup throws or finds nothing, no request is sent and no row is logged |
| Delivery.RequestFor | apps/api/src/modules/webhooks/delivery.ts:109-127 | the POST to one target; RequestForShape states its URL, method, body and headers |
| Delivery.DeliveryFor | apps/api/src/modules/webhooks/delivery.ts:139-152 | the row for one target, from its classified outcome; DispatchRowsShareEvent and EmittedRowsShared state its shared fields |
| Delivery.RequestForShape | apps/api/src/modules/webhooks/delivery.ts:105-127 | the request is a POST of the shared body to the target's URL, with Content-Type, the event type, the event id and "sha256=" + sign(secret, body) as its only headers |
| Delivery.EmittedRequestAt | apps/api/src/modules/webhooks/delivery.ts:105-127 | one request per target, in target order; the k-th is sent to the k-th target and signed with its secret over the one serialized body; its event header is "objectType.action" |
| Delivery.DispatchRequests | apps/api/src/modules/webhooks/delivery.ts:107-127 | n requests for the first n targets, the k-th built for the k-th target |
| Delivery.DispatchRows | apps/api/src/modules/webhooks/delivery.ts:107-155 | the rows the task list appends, at most one per target; DispatchRowsFromTargets, DispatchRowsShareEvent, DispatchRowsOfTarget and DispatchRowsWithoutFailures state their content |
| Delivery.DispatchRowsWithoutFailures | apps/api/src/modules/webhooks/delivery.ts:139-155 | when no insert fails, n targets give exactly n rows, the k-th the k-th target's row |
| Delivery.DispatchRowsFromTargets | apps/api/src/modules/webhooks/delivery.ts:139-155 | every logged row is the row of some target whose insert did not fail |
| Delivery.DispatchRowsShareEvent | apps/api/src/modules/webhooks/delivery.ts:140-151 | every logged row carries the event's id, type, object, payload and attemptCount 1 |
| Delivery.EmittedRowsShared | apps/api/src/modules/webhooks/delivery.ts:46-151 | every row logged for an event has its eventId, its "objectType.action" type, its objectType, objectId and payload, attemptCount 1, and an endpoint that is subscribed and active |
| Delivery.EmittedRowsPerEndpoint | apps/api/src/modules/webhooks/delivery.ts:78-155 | an endpoint that is not an active subscriber gets no row; a target gets exactly its own row, or none when its own insert failed |
| Delivery.EmittedRowsWithoutFailures | apps/api/src/modules/webhooks/delivery.ts:77-157 | when the lookup succeeds and no insert fails, one event logs exactly one row per target, the k-th being the k-th target's row |
| Delivery.RowsOfMembers | apps/api/src/modules/webhooks/delivery.ts:141 | an endpoint's rows are exactly the logged rows that name it |
| Delivery.DispatchRowsOfTarget | apps/api/src/modules/webhooks/delivery.ts:139-155 | a target with its own endpoint gets its own row unless its own insert fails, whatever the other inserts do |
| Delivery.RequestsIgnoreInsertOutcomes | apps/api/src/modules/webhooks/delivery.ts:139-155 | the requests sent do not depend on which inserts fail |
| Delivery.InsertFailureContained | apps/api/src/modules/webhooks/delivery.ts:139-155 | changing which other targets' inserts fail does not change the rows logged for a target |
| Delivery.DeliverToTarget | apps/api/src/modules/webhooks/delivery.ts:108-155 | the target's request is RequestFor; its row, built from the classified outcome, is appended unless its insert fails; the other tables are unchanged |
| Delivery.DeliverToAll | apps/api/src/modules/webhooks/delivery.ts:107-157 | the loop sends the targets' requests in order and appends DispatchRows |
| Delivery.EmitWebhookEvent | apps/api/src/modules/webhooks/delivery.ts:37-158 | the requests sent are EmittedRequests, the log grows by exactly EmittedRows, and endpoints and subscriptions are unchanged |

## Left out

- Outbound HTTP is the outcome `Environment.fetch(k, request)`: a response status or a thrown
  value. Timeouts, DNS and response bodies are not modelled.
- HMAC-SHA256 is the uninterpreted `Environment.sign(secret, body)`; the hash is not
  implemented.
- `JSON.stringify` is the uninterpreted `Environment.serialize(payload)`. It is applied once
  and shared by all targets.
- `randomUUID`, `randomBytes`, `new Date()` and `toISOString` are parameters: `eventId`,
  `random`, `now`, `occurredAt` and `deliveredAt(k)`.
- `Promise.all` is sequential, in target order. Each task appends only its own row, and
  its failures are caught inside the task, so no interleaving is modelled. The order of rows
  in the real log may differ from target order.
- The `console.error` calls on a failed lookup or insert are not modelled. Nothing else
  observes them.
- Drizzle and Postgres are replaced by the three in-memory tables. None of the selects has an
  ORDER BY, so SQL guarantees no order; the model fixes one:
  - the lookup's rows (delivery.ts:78-95) come in subscription table order;
  - the subscriptions of one endpoint (service.ts:54-60), as returned by `GetWebhookWithSubscriptions`,
    `CreateWebhook` and `UpdateWebhook`, come in subscription table order;
  - the hooks listed by `getWebhooks` (service.ts:69) come in the order of `hookIds`.
- Each service operation runs as one step. In the source, `updateWebhook` deletes the
  endpoint's subscription rows (service.ts:145-147) and inserts the new ones (service.ts:151-158)
  as two separate statements, outside any transaction. Two concurrent updates of one endpoint
  can run delete, delete, insert, insert and store every row twice. Interleaved service calls
  are not modelled.
- Cascades are not modelled, because no cascade is visible. Deleting an endpoint leaves its
  subscription and delivery rows. The lookup's inner join then drops those orphaned
  subscription rows.
- The database-generated values (ids, createdAt, the delivery row id) are not computed:
  - a new endpoint's id is a parameter that must be unused;
  - createdAt and updatedAt are set to `now` on insert;
  - delivery rows have no id and no createdAt.
- Service.CreateWebhook: requires the new id to be unused by any endpoint or subscription
  row. The code does not check this. A freshly generated UUID is assumed to be unused, since
  nothing in the schema ties subscription rows to live endpoint ids.
- Service.GetWebhooks: the ids returned by the first select (`db.select().from(webhookEndpoints)`)
  are an input, `hookIds`, because SQL gives their order and the map of endpoints has none.
  `Service.GetWebhooksListsEveryEndpoint` states the result when `hookIds` lists every
  endpoint id once.
- isActive is a `bool`. The column may hold null, but no operation here writes null.
- zod's URL check is the parameter `isUrl`.
- Lengths are counted in characters of `string` rather than UTF-16 code units.
- `getWebhookById` is not a separate member: it returns what `getWebhookWithSubscriptions`
  returns (`Service.GetWebhookWithSubscriptions`).
- The callers that emit events (the entity services) are not part of this model, and neither
  is the fire-and-forget `void` that drops the emitted promise.
- A database-level uniqueness constraint on subscription rows is not assumed. Instead, the
  invariant `Schema.Database.Valid` (no repeated subscription row) is shown to be preserved
  by `CreateWebhook` and `UpdateWebhook` when each runs as one step. The other operations leave
  the subscription table as it is.
- Delivery.EmittedRowsPerEndpoint and Delivery.InsertFailureContained: stated under no
  repeated subscription row, as kept by the operations here when they do not interleave. With
  repeated rows one endpoint
  could be a target more than once, and the insert outcome at its other position would change
  its rows.

Normalization uses `Map.set` (service.ts:34-37). It overwrites the value stored under a key
but keeps the key at the position where it first occurred. The key "objectType:eventType"
determines the whole subscription, so the overwritten value and the new one are equal. The
result is therefore the input's first-occurrence list (`Service.NormalizeSubscriptions`,
`Service.SubscriptionKeyInjective`).
