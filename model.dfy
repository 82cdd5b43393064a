/**
 * The request schemas of webhook administration: what a create or update body must satisfy,
 * and the typed input the service receives once a body passes.
 */
module Model {
  import opened Wrappers
  import opened Constants

  /** A subscription as it arrives in a request body. */
  datatype SubscriptionInput = SubscriptionInput(objectType: string, eventType: string)

  /** A subscription after validation: one object type and one action. */
  datatype Subscription = Subscription(objectType: ObjectType, eventType: Action)

  /** A create body as it arrives. */
  datatype CreateWebhookBody = CreateWebhookBody(
    name: string,
    targetUrl: string,
    secret: Option<string>,
    isActive: Option<bool>,
    subscriptions: seq<SubscriptionInput>)

  /** An update body as it arrives; every field may be omitted. */
  datatype UpdateWebhookBody = UpdateWebhookBody(
    name: Option<string>,
    targetUrl: Option<string>,
    secret: Option<string>,
    isActive: Option<bool>,
    subscriptions: Option<seq<SubscriptionInput>>)

  /** The validated create input. */
  datatype CreateWebhookInput = CreateWebhookInput(
    name: string,
    targetUrl: string,
    secret: Option<string>,
    isActive: Option<bool>,
    subscriptions: seq<Subscription>)

  /** The validated update input. */
  datatype UpdateWebhookInput = UpdateWebhookInput(
    name: Option<string>,
    targetUrl: Option<string>,
    secret: Option<string>,
    isActive: Option<bool>,
    subscriptions: Option<seq<Subscription>>)

  /** The least length of a supplied secret. */
  const MinSecretLength: nat := 12

  /** webhookSubscriptionSchema: both fields are members of their enumerations. */
  predicate ValidSubscription(s: SubscriptionInput) {
    s.objectType in WebhookObjectTypes && s.eventType in WebhookActions
  }

  predicate ValidSecret(secret: Option<string>) {
    secret.Some? ==> |secret.value| >= MinSecretLength
  }

  /**
   * createWebhookSchema: a non-empty name, a URL (the URL check is the parameter isUrl),
   * an optional secret of at least twelve characters, and at least one valid subscription.
   */
  predicate ValidCreateBody(body: CreateWebhookBody, isUrl: string -> bool) {
    && |body.name| >= 1
    && isUrl(body.targetUrl)
    && ValidSecret(body.secret)
    && |body.subscriptions| >= 1
    && forall i :: 0 <= i < |body.subscriptions| ==> ValidSubscription(body.subscriptions[i])
  }

  /**
   * updateWebhookSchema: the same field rules where a field is supplied; nothing is required,
   * and an empty subscription list is allowed.
   */
  predicate ValidUpdateBody(body: UpdateWebhookBody, isUrl: string -> bool) {
    && (body.name.Some? ==> |body.name.value| >= 1)
    && (body.targetUrl.Some? ==> isUrl(body.targetUrl.value))
    && ValidSecret(body.secret)
    && (body.subscriptions.Some? ==>
          forall i :: 0 <= i < |body.subscriptions.value| ==> ValidSubscription(body.subscriptions.value[i]))
  }

  /** Parses one subscription; it succeeds exactly on a valid one and keeps its two names. */
  function ParseSubscription(s: SubscriptionInput): (r: Option<Subscription>)
    ensures r.Some? <==> ValidSubscription(s)
    ensures r.Some? ==>
              && ObjectTypeName(r.value.objectType) == s.objectType
              && ActionName(r.value.eventType) == s.eventType
  {
    match (ParseObjectType(s.objectType), ParseAction(s.eventType))
    case (Some(t), Some(a)) => Some(Subscription(t, a))
    case _ => None
  }

  /** Parses a list: all of it, element by element and in order, or nothing. */
  function ParseSubscriptions(ss: seq<SubscriptionInput>): (r: Option<seq<Subscription>>)
    ensures r.Some? <==> forall i :: 0 <= i < |ss| ==> ValidSubscription(ss[i])
    ensures r.Some? ==>
              && |r.value| == |ss|
              && forall i :: 0 <= i < |ss| ==> ParseSubscription(ss[i]) == Some(r.value[i])
  {
    if ss == [] then Some([])
    else
      match (ParseSubscription(ss[0]), ParseSubscriptions(ss[1..]))
      case (Some(s), Some(rest)) => Some([s] + rest)
      case _ => None
  }

  /** createWebhookSchema.parse: the typed input when the body is valid, otherwise a rejection. */
  function ParseCreateWebhook(body: CreateWebhookBody, isUrl: string -> bool): (r: Option<CreateWebhookInput>)
    ensures r.Some? <==> ValidCreateBody(body, isUrl)
    ensures r.Some? ==>
              && r.value.name == body.name && |r.value.name| >= 1
              && r.value.targetUrl == body.targetUrl && isUrl(r.value.targetUrl)
              && r.value.secret == body.secret && ValidSecret(r.value.secret)
              && r.value.isActive == body.isActive
              && |r.value.subscriptions| == |body.subscriptions| >= 1
              && forall i :: 0 <= i < |body.subscriptions| ==>
                   ParseSubscription(body.subscriptions[i]) == Some(r.value.subscriptions[i])
  {
    if !ValidCreateBody(body, isUrl) then None
    else
      var subscriptions := ParseSubscriptions(body.subscriptions);
      Some(CreateWebhookInput(body.name, body.targetUrl, body.secret, body.isActive, subscriptions.value))
  }

  /** updateWebhookSchema.parse: the typed input when the body is valid, otherwise a rejection. */
  function ParseUpdateWebhook(body: UpdateWebhookBody, isUrl: string -> bool): (r: Option<UpdateWebhookInput>)
    ensures r.Some? <==> ValidUpdateBody(body, isUrl)
    ensures r.Some? ==>
              && r.value.name == body.name && (r.value.name.Some? ==> |r.value.name.value| >= 1)
              && r.value.targetUrl == body.targetUrl
              && r.value.secret == body.secret && ValidSecret(r.value.secret)
              && r.value.isActive == body.isActive
              && r.value.subscriptions.Some? == body.subscriptions.Some?
              && (body.subscriptions.Some? ==>
                    && |r.value.subscriptions.value| == |body.subscriptions.value|
                    && forall i :: 0 <= i < |body.subscriptions.value| ==>
                         ParseSubscription(body.subscriptions.value[i]) == Some(r.value.subscriptions.value[i]))
  {
    if !ValidUpdateBody(body, isUrl) then None
    else
      var subscriptions :=
        if body.subscriptions.Some? then Some(ParseSubscriptions(body.subscriptions.value).value) else None;
      Some(UpdateWebhookInput(body.name, body.targetUrl, body.secret, body.isActive, subscriptions))
  }

  /** An update may supply nothing at all, or only an empty subscription list. */
  lemma EmptyUpdatesAreValid(isUrl: string -> bool)
    ensures ParseUpdateWebhook(UpdateWebhookBody(None, None, None, None, None), isUrl)
            == Some(UpdateWebhookInput(None, None, None, None, None))
    ensures ParseUpdateWebhook(UpdateWebhookBody(None, None, None, None, Some([])), isUrl)
            == Some(UpdateWebhookInput(None, None, None, None, Some([])))
  {
  }

  /** A create body with no subscriptions, with an empty name, or with a short secret is rejected. */
  lemma CreateRejections(body: CreateWebhookBody, isUrl: string -> bool)
    requires body.subscriptions == [] || body.name == "" ||
             (body.secret.Some? && |body.secret.value| < MinSecretLength)
    ensures ParseCreateWebhook(body, isUrl).None?
  {
  }
}
