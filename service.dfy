/**
 * Webhook administration: registering, reading, updating, re-keying and deleting endpoints
 * together with their subscriptions.
 */
module Service {
  import opened Wrappers
  import opened Sequences
  import opened Strings
  import opened Constants
  import opened Model
  import opened Schema

  /** An endpoint together with its resolved subscriptions, as the read operations return it. */
  datatype WebhookWithSubscriptions = WebhookWithSubscriptions(
    id: Id,
    endpoint: Endpoint,
    subscriptions: seq<Subscription>)

  /** What rotateWebhookSecret returns. */
  datatype RotatedSecret = RotatedSecret(id: Id, secret: string)

  /** The removed row, as deleteWebhook returns it. */
  datatype DeletedWebhook = DeletedWebhook(id: Id, endpoint: Endpoint)

  /** A generated secret is this many random bytes, hex-encoded. */
  const SecretByteCount: nat := 24

  /** A fresh secret from the bytes `randomBytes(24)` gave: their lower-case hex encoding. */
  function GenerateWebhookSecret(random: seq<byte>): (secret: string)
    requires |random| == SecretByteCount
    ensures |secret| == 48 && |secret| >= MinSecretLength
    ensures forall i :: 0 <= i < |secret| ==> IsLowerHexDigit(secret[i])
    ensures HexDecode(secret) == random
  {
    HexRoundTrip(random);
    HexEncode(random)
  }

  // ---------------------------------------------------------------------------------------
  // normalizeSubscriptions

  /** The key under which normalization stores a subscription: "<objectType>:<eventType>". */
  function SubscriptionKey(s: Subscription): string {
    ObjectTypeName(s.objectType) + ":" + ActionName(s.eventType)
  }

  /** Two subscriptions share a key only if they are the same subscription. */
  lemma SubscriptionKeyInjective(s1: Subscription, s2: Subscription)
    requires SubscriptionKey(s1) == SubscriptionKey(s2)
    ensures s1 == s2
  {
    NamesHaveNoSeparators(s1.objectType, s1.eventType);
    NamesHaveNoSeparators(s2.objectType, s2.eventType);
    var n1, n2 := ObjectTypeName(s1.objectType), ObjectTypeName(s2.objectType);
    assert SubscriptionKey(s1) == n1 + [':'] + ActionName(s1.eventType);
    assert SubscriptionKey(s2) == n2 + [':'] + ActionName(s2.eventType);
    SplitAtSeparator(n1, ActionName(s1.eventType), n2, ActionName(s2.eventType), ':');
    ObjectTypeNameRoundTrip(s1.objectType);
    ObjectTypeNameRoundTrip(s2.objectType);
    ActionNameRoundTrip(s1.eventType);
    ActionNameRoundTrip(s2.eventType);
  }

  /**
   * The state of normalization's Map after a prefix of the input whose first occurrences are
   * `seen`: its keys in insertion order are the keys of `seen`, and the value under each key is
   * the subscription with that key.
   */
  ghost predicate MapHolds(keys: seq<string>, deduped: map<string, Subscription>, seen: seq<Subscription>) {
    && |keys| == |seen|
    && (forall j :: 0 <= j < |keys| ==> keys[j] == SubscriptionKey(seen[j]))
    && (forall j :: 0 <= j < |keys| ==> keys[j] in deduped && deduped[keys[j]] == seen[j])
    && (forall k :: k in deduped ==> k in keys)
  }

  /** One `deduped.set(key, subscription)`: the key is new exactly when the subscription is. */
  lemma MapSetStep(keys: seq<string>, deduped: map<string, Subscription>, seen: seq<Subscription>, s: Subscription)
    requires MapHolds(keys, deduped, seen)
    ensures SubscriptionKey(s) in deduped <==> s in seen
    ensures MapHolds(if SubscriptionKey(s) in deduped then keys else keys + [SubscriptionKey(s)],
                     deduped[SubscriptionKey(s) := s],
                     if s in seen then seen else seen + [s])
  {
    var key := SubscriptionKey(s);
    if key in deduped {
      var j := IndexOf(keys, key);
      SubscriptionKeyInjective(seen[j], s);
    }
    if s in seen {
      var j := IndexOf(seen, s);
      assert keys[j] == key;
    }
  }

  /**
   * Collapses repeated (objectType, eventType) pairs through an insertion-ordered map keyed
   * by SubscriptionKey: a repeat overwrites the stored value but keeps the key's first
   * position, so the result is the first-occurrence list of the input.
   */
  method NormalizeSubscriptions(subscriptions: seq<Subscription>) returns (normalized: seq<Subscription>)
    ensures normalized == FirstOccurrences(subscriptions)
  {
    // the source's Map: its keys in insertion order, and the value stored under each key
    var keys: seq<string> := [];
    var deduped: map<string, Subscription> := map[];
    ghost var seen: seq<Subscription> := [];
    for i := 0 to |subscriptions|
      invariant seen == FirstOccurrences(subscriptions[..i])
      invariant MapHolds(keys, deduped, seen)
    {
      var subscription := subscriptions[i];
      var key := SubscriptionKey(subscription);
      MapSetStep(keys, deduped, seen, subscription);
      FirstOccurrencesStep(subscriptions, i);
      if key !in deduped {
        keys := keys + [key];
      }
      deduped := deduped[key := subscription];
      seen := if subscription in seen then seen else seen + [subscription];
    }
    assert subscriptions[..|subscriptions|] == subscriptions;
    MapValuesInOrder(keys, deduped, seen);
    normalized := seq(|keys|, j requires 0 <= j < |keys| && keys[j] in deduped => deduped[keys[j]]);
  }

  /** Reading the Map's values in key order gives back the first occurrences. */
  lemma MapValuesInOrder(keys: seq<string>, deduped: map<string, Subscription>, seen: seq<Subscription>)
    requires MapHolds(keys, deduped, seen)
    ensures forall j :: 0 <= j < |keys| ==> keys[j] in deduped
    ensures seq(|keys|, j requires 0 <= j < |keys| && keys[j] in deduped => deduped[keys[j]]) == seen
  {
  }

  // ---------------------------------------------------------------------------------------
  // Subscription rows

  /** The subscriptions of one endpoint, in table order. */
  function SubscriptionsOf(rows: seq<SubscriptionRow>, id: Id): (subs: seq<Subscription>)
    ensures |subs| <= |rows|
  {
    if rows == [] then []
    else
      (if rows[0].endpointId == id then [Subscription(rows[0].objectType, rows[0].eventType)] else [])
      + SubscriptionsOf(rows[1..], id)
  }

  /** An endpoint's subscriptions are exactly the pairs of the rows that name it. */
  lemma {:induction false} SubscriptionsOfMembers(rows: seq<SubscriptionRow>, id: Id)
    ensures forall s :: s in SubscriptionsOf(rows, id) <==> SubscriptionRow(id, s.objectType, s.eventType) in rows
  {
    if rows != [] {
      assert rows == [rows[0]] + rows[1..];
      SubscriptionsOfMembers(rows[1..], id);
    }
  }

  /** The rows inserted for one endpoint's subscriptions, in the order given. */
  function RowsFor(id: Id, subs: seq<Subscription>): (rows: seq<SubscriptionRow>)
    ensures |rows| == |subs|
    ensures forall k :: 0 <= k < |rows| ==> rows[k] == SubscriptionRow(id, subs[k].objectType, subs[k].eventType)
  {
    if subs == [] then []
    else [SubscriptionRow(id, subs[0].objectType, subs[0].eventType)] + RowsFor(id, subs[1..])
  }

  /** The table after deleting every row of one endpoint; the other rows keep their order. */
  function RemoveRowsOf(rows: seq<SubscriptionRow>, id: Id): (kept: seq<SubscriptionRow>)
    ensures forall r :: r in kept <==> r in rows && r.endpointId != id
    ensures |kept| <= |rows|
  {
    if rows == [] then []
    else
      assert rows == [rows[0]] + rows[1..];
      (if rows[0].endpointId != id then [rows[0]] else []) + RemoveRowsOf(rows[1..], id)
  }

  lemma {:induction false} SubscriptionsOfAppend(a: seq<SubscriptionRow>, b: seq<SubscriptionRow>, id: Id)
    ensures SubscriptionsOf(a + b, id) == SubscriptionsOf(a, id) + SubscriptionsOf(b, id)
  {
    if a == [] {
      assert a + b == b;
    } else {
      var ab := a + b;
      assert ab[0] == a[0] && ab[1..] == a[1..] + b;
      SubscriptionsOfAppend(a[1..], b, id);
      var head := if a[0].endpointId == id then [Subscription(a[0].objectType, a[0].eventType)] else [];
      assert SubscriptionsOf(ab, id) == head + SubscriptionsOf(ab[1..], id);
      assert SubscriptionsOf(a, id) == head + SubscriptionsOf(a[1..], id);
    }
  }

  lemma {:induction false} SubscriptionsOfRowsFor(id: Id, subs: seq<Subscription>, other: Id)
    ensures SubscriptionsOf(RowsFor(id, subs), other) == if other == id then subs else []
  {
    if subs != [] {
      assert RowsFor(id, subs)[1..] == RowsFor(id, subs[1..]);
      SubscriptionsOfRowsFor(id, subs[1..], other);
      assert subs == [subs[0]] + subs[1..];
    }
  }

  lemma {:induction false} SubscriptionsOfRemoved(rows: seq<SubscriptionRow>, id: Id, other: Id)
    ensures SubscriptionsOf(RemoveRowsOf(rows, id), other) == if other == id then [] else SubscriptionsOf(rows, other)
  {
    if rows != [] {
      var head := if rows[0].endpointId != id then [rows[0]] else [];
      SubscriptionsOfAppend(head, RemoveRowsOf(rows[1..], id), other);
      SubscriptionsOfRemoved(rows[1..], id, other);
    }
  }

  /** An endpoint no row refers to has no subscriptions. */
  lemma {:induction false} SubscriptionsOfUnreferenced(rows: seq<SubscriptionRow>, id: Id)
    requires forall r :: r in rows ==> r.endpointId != id
    ensures SubscriptionsOf(rows, id) == []
  {
    if rows != [] {
      assert rows[0] in rows;
      assert forall r :: r in rows[1..] ==> r in rows;
      SubscriptionsOfUnreferenced(rows[1..], id);
    }
  }

  /**
   * Replacing an endpoint's subscription rows (delete all of them, insert the new list) leaves
   * that endpoint with exactly the new list and every other endpoint with what it had.
   */
  lemma ReplaceSubscriptionsFrame(rows: seq<SubscriptionRow>, id: Id, subs: seq<Subscription>, other: Id)
    ensures SubscriptionsOf(RemoveRowsOf(rows, id) + RowsFor(id, subs), other)
            == if other == id then subs else SubscriptionsOf(rows, other)
  {
    SubscriptionsOfAppend(RemoveRowsOf(rows, id), RowsFor(id, subs), other);
    SubscriptionsOfRemoved(rows, id, other);
    SubscriptionsOfRowsFor(id, subs, other);
  }

  /**
   * Replacing an endpoint's rows by those of a list gives the endpoint exactly that list and
   * leaves every other endpoint as it was; a table and a list free of repeats give a table
   * free of repeats.
   */
  lemma ReplaceForEndpoint(rows: seq<SubscriptionRow>, id: Id, subs: seq<Subscription>)
    ensures Distinct(rows) && Distinct(subs) ==> Distinct(RemoveRowsOf(rows, id) + RowsFor(id, subs))
    ensures forall other :: SubscriptionsOf(RemoveRowsOf(rows, id) + RowsFor(id, subs), other)
                            == if other == id then subs else SubscriptionsOf(rows, other)
  {
    if Distinct(rows) && Distinct(subs) {
      RemoveRowsOfDistinct(rows, id);
      InsertKeepsRowsDistinct(RemoveRowsOf(rows, id), id, subs);
    }
    forall other ensures SubscriptionsOf(RemoveRowsOf(rows, id) + RowsFor(id, subs), other)
                         == if other == id then subs else SubscriptionsOf(rows, other) {
      ReplaceSubscriptionsFrame(rows, id, subs, other);
    }
  }

  lemma {:induction false} RemoveRowsOfDistinct(rows: seq<SubscriptionRow>, id: Id)
    requires Distinct(rows)
    ensures Distinct(RemoveRowsOf(rows, id))
  {
    if rows != [] {
      assert rows == [rows[0]] + rows[1..];
      assert Distinct(rows[1..]);
      RemoveRowsOfDistinct(rows[1..], id);
      var head := if rows[0].endpointId != id then [rows[0]] else [];
      var rest := RemoveRowsOf(rows[1..], id);
      forall i, j | 0 <= i < |head| && 0 <= j < |rest| ensures head[i] != rest[j] {
        assert rest[j] in rows[1..];
      }
      DistinctConcat(head, rest);
    }
  }

  /**
   * Inserting the rows of one distinct subscription list for an endpoint that no remaining
   * row refers to keeps the table free of repeated rows.
   */
  lemma InsertKeepsRowsDistinct(rows: seq<SubscriptionRow>, id: Id, subs: seq<Subscription>)
    requires Distinct(rows) && Distinct(subs)
    requires forall r :: r in rows ==> r.endpointId != id
    ensures Distinct(rows + RowsFor(id, subs))
  {
    var added := RowsFor(id, subs);
    forall i, j | 0 <= i < |rows| && 0 <= j < |added| ensures rows[i] != added[j] {
      assert rows[i] in rows;
    }
    DistinctConcat(rows, added);
  }

  // ---------------------------------------------------------------------------------------
  // Reads

  /** getWebhookWithSubscriptions: the endpoint and its subscriptions, or None for an unknown id. */
  function GetWebhookWithSubscriptions(endpoints: map<Id, Endpoint>, rows: seq<SubscriptionRow>, id: Id)
    : (r: Option<WebhookWithSubscriptions>)
    ensures r.Some? <==> id in endpoints
    ensures r.Some? ==> r.value.id == id && r.value.endpoint == endpoints[id]
    ensures r.Some? ==>
              forall s :: s in r.value.subscriptions <==> SubscriptionRow(id, s.objectType, s.eventType) in rows
  {
    SubscriptionsOfMembers(rows, id);
    if id !in endpoints then None
    else Some(WebhookWithSubscriptions(id, endpoints[id], SubscriptionsOf(rows, id)))
  }

  /**
   * getWebhooks: every endpoint the first select listed (`hookIds`, in the order it gave them)
   * with its subscriptions; an id that no longer resolves is filtered out.
   */
  function GetWebhooks(endpoints: map<Id, Endpoint>, rows: seq<SubscriptionRow>, hookIds: seq<Id>)
    : (hooks: seq<WebhookWithSubscriptions>)
    ensures |hooks| <= |hookIds|
    ensures forall h :: h in hooks ==>
              h.id in hookIds && GetWebhookWithSubscriptions(endpoints, rows, h.id) == Some(h)
    ensures (forall k :: 0 <= k < |hookIds| ==> hookIds[k] in endpoints) ==>
              && |hooks| == |hookIds|
              && forall k :: 0 <= k < |hooks| ==> hooks[k].id == hookIds[k]
    ensures forall id :: id in hookIds && id in endpoints ==> exists h :: h in hooks && h.id == id
  {
    if hookIds == [] then []
    else
      var first := GetWebhookWithSubscriptions(endpoints, rows, hookIds[0]);
      var rest := GetWebhooks(endpoints, rows, hookIds[1..]);
      assert forall h :: h in rest ==> h.id in hookIds[1..];
      (if first.Some? then [first.value] else []) + rest
  }

  /** A list holding every key of a map once has one entry per key. */
  lemma ListedOnce(endpoints: map<Id, Endpoint>, hookIds: seq<Id>)
    requires forall id :: id in endpoints <==> id in hookIds
    requires Distinct(hookIds)
    ensures |hookIds| == |endpoints|
    ensures forall k :: 0 <= k < |hookIds| ==> hookIds[k] in endpoints
  {
    forall k | 0 <= k < |hookIds| ensures hookIds[k] in endpoints {
      assert hookIds[k] in hookIds;
    }
    DistinctCardinality(hookIds);
    assert endpoints.Keys == set k | 0 <= k < |hookIds| :: hookIds[k];
  }

  /**
   * When the first select lists every endpoint id once, getWebhooks returns every endpoint
   * exactly once, each with its row and its subscriptions.
   */
  lemma GetWebhooksListsEveryEndpoint(endpoints: map<Id, Endpoint>, rows: seq<SubscriptionRow>, hookIds: seq<Id>)
    requires forall id :: id in endpoints <==> id in hookIds
    requires Distinct(hookIds)
    ensures var hooks := GetWebhooks(endpoints, rows, hookIds);
            && |hooks| == |endpoints|
            && (forall id :: id in endpoints <==> exists k :: 0 <= k < |hooks| && hooks[k].id == id)
            && (forall i, j :: 0 <= i < j < |hooks| ==> hooks[i].id != hooks[j].id)
            && (forall k :: 0 <= k < |hooks| ==>
                  && hooks[k].endpoint == endpoints[hooks[k].id]
                  && hooks[k].subscriptions == SubscriptionsOf(rows, hooks[k].id))
  {
    var hooks := GetWebhooks(endpoints, rows, hookIds);
    ListedOnce(endpoints, hookIds);
    forall id | id in endpoints ensures exists k :: 0 <= k < |hooks| && hooks[k].id == id {
      var k := IndexOf(hookIds, id);
      assert hooks[k].id == id;
    }
    forall k | 0 <= k < |hooks|
      ensures hooks[k].endpoint == endpoints[hooks[k].id]
      ensures hooks[k].subscriptions == SubscriptionsOf(rows, hooks[k].id)
    {
      assert hooks[k] in hooks;
    }
  }

  // ---------------------------------------------------------------------------------------
  // Create

  /** The row createWebhook inserts: the supplied secret or a generated one, active unless told otherwise. */
  function NewEndpoint(data: CreateWebhookInput, random: seq<byte>, now: Instant): (e: Endpoint)
    requires |random| == SecretByteCount
    ensures e.name == data.name && e.targetUrl == data.targetUrl
    ensures data.secret.Some? ==> e.secret == data.secret.value
    ensures data.secret.None? ==> |e.secret| == 48 && HexDecode(e.secret) == random
    ensures data.secret.None? ==> forall i :: 0 <= i < |e.secret| ==> IsLowerHexDigit(e.secret[i])
    ensures e.isActive <==> data.isActive != Some(false)
    ensures e.createdAt == now && e.updatedAt == now
  {
    var secret := if data.secret.Some? then data.secret.value else GenerateWebhookSecret(random);
    Endpoint(data.name, data.targetUrl, secret, data.isActive.GetOr(true), now, now)
  }

  /**
   * Inserts the endpoint under the fresh id `newId` and one row per normalized subscription,
   * and returns the new endpoint with its subscriptions.
   */
  method CreateWebhook(db: Database, data: CreateWebhookInput, newId: Id, random: seq<byte>, now: Instant)
    returns (r: Option<WebhookWithSubscriptions>)
    requires newId !in db.endpoints
    requires forall row :: row in db.subscriptions ==> row.endpointId != newId
    requires |random| == SecretByteCount
    modifies db
    ensures old(db.Valid()) ==> db.Valid()
    ensures db.endpoints == old(db.endpoints)[newId := NewEndpoint(data, random, now)]
    ensures db.subscriptions == old(db.subscriptions) + RowsFor(newId, FirstOccurrences(data.subscriptions))
    ensures db.deliveries == old(db.deliveries)
    ensures r == GetWebhookWithSubscriptions(db.endpoints, db.subscriptions, newId)
    ensures r.Some? && r.value.endpoint == NewEndpoint(data, random, now)
    ensures r.Some? && r.value.subscriptions == FirstOccurrences(data.subscriptions)
  {
    ghost var before := db.subscriptions;
    db.endpoints := db.endpoints[newId := NewEndpoint(data, random, now)];

    var subscriptions := NormalizeSubscriptions(data.subscriptions);
    if |subscriptions| > 0 {
      db.subscriptions := db.subscriptions + RowsFor(newId, subscriptions);
    } else {
      assert before + RowsFor(newId, subscriptions) == before;
    }
    InsertForNewEndpoint(before, newId, subscriptions);
    r := GetWebhookWithSubscriptions(db.endpoints, db.subscriptions, newId);
  }

  /**
   * Inserting the rows of a subscription list for an endpoint that no row refers to gives that
   * endpoint exactly the list, and keeps a table free of repeats so when the list is.
   */
  lemma InsertForNewEndpoint(rows: seq<SubscriptionRow>, id: Id, subs: seq<Subscription>)
    requires forall r :: r in rows ==> r.endpointId != id
    ensures Distinct(rows) && Distinct(subs) ==> Distinct(rows + RowsFor(id, subs))
    ensures SubscriptionsOf(rows + RowsFor(id, subs), id) == subs
  {
    if Distinct(rows) && Distinct(subs) {
      InsertKeepsRowsDistinct(rows, id, subs);
    }
    SubscriptionsOfAppend(rows, RowsFor(id, subs), id);
    SubscriptionsOfUnreferenced(rows, id);
    SubscriptionsOfRowsFor(id, subs, id);
  }

  // ---------------------------------------------------------------------------------------
  // Update

  /** The column values of an endpoints update; a key is present exactly when it is Some. */
  datatype EndpointPatch = EndpointPatch(
    name: Option<string>,
    targetUrl: Option<string>,
    secret: Option<string>,
    isActive: Option<bool>,
    updatedAt: Option<Instant>)

  /** The keys of a patch, as Object.keys lists them. */
  function PatchKeys(p: EndpointPatch): set<string> {
    (if p.name.Some? then {"name"} else {})
    + (if p.targetUrl.Some? then {"targetUrl"} else {})
    + (if p.secret.Some? then {"secret"} else {})
    + (if p.isActive.Some? then {"isActive"} else {})
    + (if p.updatedAt.Some? then {"updatedAt"} else {})
  }

  /** A patch has no keys exactly when none of its fields is present. */
  lemma PatchKeysEmpty(p: EndpointPatch)
    ensures |PatchKeys(p)| == 0 <==>
              p.name.None? && p.targetUrl.None? && p.secret.None? && p.isActive.None? && p.updatedAt.None?
  {
    if p.name.Some? { assert "name" in PatchKeys(p); }
    if p.targetUrl.Some? { assert "targetUrl" in PatchKeys(p); }
    if p.secret.Some? { assert "secret" in PatchKeys(p); }
    if p.isActive.Some? { assert "isActive" in PatchKeys(p); }
    if p.updatedAt.Some? { assert "updatedAt" in PatchKeys(p); }
  }

  /** What an update writes into a row: each present key replaces its column. */
  function ApplyPatch(e: Endpoint, p: EndpointPatch): Endpoint {
    Endpoint(
      p.name.GetOr(e.name),
      p.targetUrl.GetOr(e.targetUrl),
      p.secret.GetOr(e.secret),
      p.isActive.GetOr(e.isActive),
      e.createdAt,
      p.updatedAt.GetOr(e.updatedAt))
  }

  /** The patch updateWebhook builds: the supplied scalar fields, plus updatedAt when there is any. */
  function UpdatePatch(data: UpdateWebhookInput, now: Instant): EndpointPatch {
    var p := EndpointPatch(data.name, data.targetUrl, data.secret, data.isActive, None);
    if |PatchKeys(p)| > 0 then p.(updatedAt := Some(now)) else p
  }

  /** At least one of name, targetUrl, secret, isActive is supplied. */
  predicate SuppliesEndpointFields(data: UpdateWebhookInput) {
    data.name.Some? || data.targetUrl.Some? || data.secret.Some? || data.isActive.Some?
  }

  /**
   * The endpoint row after updateWebhook: each supplied scalar field replaced and no other;
   * updatedAt moves to `now` exactly when some scalar field was supplied, so an update of
   * subscriptions alone leaves the row as it was.
   */
  function UpdatedEndpoint(e: Endpoint, data: UpdateWebhookInput, now: Instant): (u: Endpoint)
    ensures u.name == data.name.GetOr(e.name)
    ensures u.targetUrl == data.targetUrl.GetOr(e.targetUrl)
    ensures u.secret == data.secret.GetOr(e.secret)
    ensures u.isActive == data.isActive.GetOr(e.isActive)
    ensures u.createdAt == e.createdAt
    ensures u.updatedAt == if SuppliesEndpointFields(data) then now else e.updatedAt
    ensures !SuppliesEndpointFields(data) ==> u == e
  {
    PatchKeysEmpty(EndpointPatch(data.name, data.targetUrl, data.secret, data.isActive, None));
    ApplyPatch(e, UpdatePatch(data, now))
  }

  /**
   * Applies a partial update. Returns None, changing nothing, for an unknown id. Otherwise the
   * row becomes UpdatedEndpoint of the old row; when a subscription list is supplied (even an
   * empty one) it replaces the endpoint's subscriptions after normalization, and the other
   * endpoints' subscriptions are untouched.
   */
  method UpdateWebhook(db: Database, id: Id, data: UpdateWebhookInput, now: Instant)
    returns (r: Option<WebhookWithSubscriptions>)
    modifies db
    ensures old(db.Valid()) ==> db.Valid()
    ensures db.deliveries == old(db.deliveries)
    ensures id !in old(db.endpoints) ==>
              && r.None?
              && db.endpoints == old(db.endpoints)
              && db.subscriptions == old(db.subscriptions)
    ensures id in old(db.endpoints) ==>
              && db.endpoints == old(db.endpoints)[id := UpdatedEndpoint(old(db.endpoints)[id], data, now)]
              && db.subscriptions == (if data.subscriptions.Some?
                                      then RemoveRowsOf(old(db.subscriptions), id)
                                           + RowsFor(id, FirstOccurrences(data.subscriptions.value))
                                      else old(db.subscriptions))
              && r == GetWebhookWithSubscriptions(db.endpoints, db.subscriptions, id)
              && r.Some?
              && r.value.subscriptions == (if data.subscriptions.Some?
                                           then FirstOccurrences(data.subscriptions.value)
                                           else SubscriptionsOf(old(db.subscriptions), id))
    ensures forall other :: other != id ==>
              SubscriptionsOf(db.subscriptions, other) == SubscriptionsOf(old(db.subscriptions), other)
  {
    ghost var before := db.subscriptions;
    var found := UpdateEndpointRow(db, id, data, now);
    if !found {
      r := None;
      return;
    }
    if data.subscriptions.Some? {
      ReplaceSubscriptions(db, id, data.subscriptions.value);
      ReplaceForEndpoint(before, id, FirstOccurrences(data.subscriptions.value));
    }
    r := GetWebhookWithSubscriptions(db.endpoints, db.subscriptions, id);
  }

  /**
   * The `updateData` object of updateWebhook, filled key by key: exactly the supplied scalar
   * fields, and no updatedAt yet.
   */
  method BuildUpdateData(data: UpdateWebhookInput) returns (updateData: EndpointPatch)
    ensures updateData == EndpointPatch(data.name, data.targetUrl, data.secret, data.isActive, None)
    ensures |PatchKeys(updateData)| > 0 <==> SuppliesEndpointFields(data)
  {
    updateData := EndpointPatch(None, None, None, None, None);
    if data.name.Some? {
      updateData := updateData.(name := data.name);
    }
    if data.targetUrl.Some? {
      updateData := updateData.(targetUrl := data.targetUrl);
    }
    if data.secret.Some? {
      updateData := updateData.(secret := data.secret);
    }
    if data.isActive.Some? {
      updateData := updateData.(isActive := data.isActive);
    }
    PatchKeysEmpty(updateData);
  }

  /**
   * The first half of updateWebhook: writes the supplied scalar fields (and updatedAt) into the
   * endpoint row when there is any, and otherwise only checks that the endpoint exists. Reports
   * whether it does.
   */
  method UpdateEndpointRow(db: Database, id: Id, data: UpdateWebhookInput, now: Instant)
    returns (found: bool)
    modifies db
    ensures found <==> id in old(db.endpoints)
    ensures db.endpoints == if found then old(db.endpoints)[id := UpdatedEndpoint(old(db.endpoints)[id], data, now)]
                            else old(db.endpoints)
    ensures db.subscriptions == old(db.subscriptions) && db.deliveries == old(db.deliveries)
  {
    var updateData := BuildUpdateData(data);
    PatchKeysEmpty(updateData);

    if |PatchKeys(updateData)| > 0 {
      updateData := updateData.(updatedAt := Some(now));
      if id !in db.endpoints {
        return false;
      }
      assert updateData == UpdatePatch(data, now);
      assert ApplyPatch(db.endpoints[id], updateData) == UpdatedEndpoint(db.endpoints[id], data, now);
      db.endpoints := db.endpoints[id := ApplyPatch(db.endpoints[id], updateData)];
    } else {
      var existing := GetWebhookWithSubscriptions(db.endpoints, db.subscriptions, id);
      if existing.None? {
        return false;
      }
      assert UpdatedEndpoint(db.endpoints[id], data, now) == db.endpoints[id];
      assert db.endpoints == old(db.endpoints)[id := db.endpoints[id]];
    }
    found := true;
  }

  /**
   * The second half of updateWebhook: deletes every subscription row of the endpoint and
   * inserts one row per normalized subscription of the new list.
   */
  method ReplaceSubscriptions(db: Database, id: Id, subscriptionList: seq<Subscription>)
    modifies db
    ensures db.subscriptions == RemoveRowsOf(old(db.subscriptions), id) + RowsFor(id, FirstOccurrences(subscriptionList))
    ensures db.endpoints == old(db.endpoints) && db.deliveries == old(db.deliveries)
  {
    db.subscriptions := RemoveRowsOf(db.subscriptions, id);
    var subscriptions := NormalizeSubscriptions(subscriptionList);
    if |subscriptions| > 0 {
      db.subscriptions := db.subscriptions + RowsFor(id, subscriptions);
    } else {
      assert db.subscriptions + RowsFor(id, subscriptions) == db.subscriptions;
    }
  }

  // ---------------------------------------------------------------------------------------
  // Rotate and delete

  /**
   * Replaces the secret with a freshly generated one and bumps updatedAt; returns the id and the
   * new secret. For an unknown id it returns None and changes nothing.
   */
  method RotateWebhookSecret(db: Database, id: Id, random: seq<byte>, now: Instant)
    returns (r: Option<RotatedSecret>)
    requires |random| == SecretByteCount
    modifies db
    ensures db.subscriptions == old(db.subscriptions) && db.deliveries == old(db.deliveries)
    ensures id in old(db.endpoints) ==>
              && r == Some(RotatedSecret(id, GenerateWebhookSecret(random)))
              && db.endpoints == old(db.endpoints)[id := old(db.endpoints)[id].(
                                   secret := GenerateWebhookSecret(random), updatedAt := now)]
    ensures id !in old(db.endpoints) ==> r.None? && db.endpoints == old(db.endpoints)
  {
    var secret := GenerateWebhookSecret(random);
    if id !in db.endpoints {
      r := None;
      return;
    }
    db.endpoints := db.endpoints[id := db.endpoints[id].(secret := secret, updatedAt := now)];
    r := Some(RotatedSecret(id, secret));
  }

  /**
   * Removes the endpoint row and returns it, or None for an unknown id. Subscription and
   * delivery rows are left in place.
   */
  method DeleteWebhook(db: Database, id: Id) returns (r: Option<DeletedWebhook>)
    modifies db
    ensures r == if id in old(db.endpoints) then Some(DeletedWebhook(id, old(db.endpoints)[id])) else None
    ensures db.endpoints == old(db.endpoints) - {id}
    ensures db.subscriptions == old(db.subscriptions) && db.deliveries == old(db.deliveries)
  {
    if id in db.endpoints {
      r := Some(DeletedWebhook(id, db.endpoints[id]));
    } else {
      r := None;
    }
    db.endpoints := db.endpoints - {id};
  }
}
