/**
 * The webhook event vocabulary: seven object types, three actions, and event types written
 * "<objectType>.<action>".
 */
module Constants {
  import opened Wrappers
  import opened Sequences
  import opened Strings

  /** The literal list of object types the subsystem emits events for. */
  const WebhookObjectTypes: seq<string> :=
    ["accounts", "contacts", "deals", "activities", "tasks", "notes", "tags"]

  /** The literal list of actions. */
  const WebhookActions: seq<string> := ["created", "updated", "deleted"]

  /** The union type drawn from WebhookObjectTypes. */
  datatype ObjectType = Accounts | Contacts | Deals | Activities | Tasks | Notes | Tags

  /** The union type drawn from WebhookActions. */
  datatype Action = Created | Updated | Deleted

  function ObjectTypeName(t: ObjectType): string {
    match t
    case Accounts => "accounts"
    case Contacts => "contacts"
    case Deals => "deals"
    case Activities => "activities"
    case Tasks => "tasks"
    case Notes => "notes"
    case Tags => "tags"
  }

  function ActionName(a: Action): string {
    match a
    case Created => "created"
    case Updated => "updated"
    case Deleted => "deleted"
  }

  /** The enum check on an object type string: accepts exactly the listed names. */
  function ParseObjectType(s: string): (r: Option<ObjectType>)
    ensures r.Some? <==> s in WebhookObjectTypes
    ensures r.Some? ==> ObjectTypeName(r.value) == s
  {
    if s == "accounts" then Some(Accounts)
    else if s == "contacts" then Some(Contacts)
    else if s == "deals" then Some(Deals)
    else if s == "activities" then Some(Activities)
    else if s == "tasks" then Some(Tasks)
    else if s == "notes" then Some(Notes)
    else if s == "tags" then Some(Tags)
    else None
  }

  /** The enum check on an action string: accepts exactly the listed names. */
  function ParseAction(s: string): (r: Option<Action>)
    ensures r.Some? <==> s in WebhookActions
    ensures r.Some? ==> ActionName(r.value) == s
  {
    if s == "created" then Some(Created)
    else if s == "updated" then Some(Updated)
    else if s == "deleted" then Some(Deleted)
    else None
  }

  /** Every object type's name is listed, and parsing the name gives the type back. */
  lemma ObjectTypeNameRoundTrip(t: ObjectType)
    ensures ObjectTypeName(t) in WebhookObjectTypes
    ensures ParseObjectType(ObjectTypeName(t)) == Some(t)
  {
    match t
    case Accounts =>
    case Contacts =>
    case Deals =>
    case Activities =>
    case Tasks =>
    case Notes =>
    case Tags =>
  }

  /** Every action's name is listed, and parsing the name gives the action back. */
  lemma ActionNameRoundTrip(a: Action)
    ensures ActionName(a) in WebhookActions
    ensures ParseAction(ActionName(a)) == Some(a)
  {
    match a
    case Created =>
    case Updated =>
    case Deleted =>
  }

  /** There are exactly seven object types and three actions, each listed once. */
  lemma VocabularySizes()
    ensures |WebhookObjectTypes| == 7 && Distinct(WebhookObjectTypes)
    ensures |WebhookActions| == 3 && Distinct(WebhookActions)
    ensures forall s :: s in WebhookObjectTypes <==> ParseObjectType(s).Some?
    ensures forall s :: s in WebhookActions <==> ParseAction(s).Some?
  {
  }

  /** Neither separator used by the subsystem occurs in a name. */
  lemma NamesHaveNoSeparators(t: ObjectType, a: Action)
    ensures '.' !in ObjectTypeName(t) && ':' !in ObjectTypeName(t)
    ensures '.' !in ActionName(a) && ':' !in ActionName(a)
  {
    match t
    case Accounts =>
    case Contacts =>
    case Deals =>
    case Activities =>
    case Tasks =>
    case Notes =>
    case Tags =>
  }

  /** The event type of an (objectType, action) pair. */
  function FormatWebhookEventType(t: ObjectType, a: Action): string {
    ObjectTypeName(t) + "." + ActionName(a)
  }

  /** Reads an event type back: the text before the first "." and the text after it. */
  function ParseWebhookEventType(s: string): (r: Option<(ObjectType, Action)>) {
    var k := IndexOf(s, '.');
    if k == |s| then None
    else
      match (ParseObjectType(s[..k]), ParseAction(s[k + 1..]))
      case (Some(t), Some(a)) => Some((t, a))
      case _ => None
  }

  /** Parsing a formatted event type gives back the pair it was formatted from. */
  lemma FormatParseRoundTrip(t: ObjectType, a: Action)
    ensures ParseWebhookEventType(FormatWebhookEventType(t, a)) == Some((t, a))
  {
    var name := ObjectTypeName(t);
    var s := FormatWebhookEventType(t, a);
    NamesHaveNoSeparators(t, a);
    assert s == name + ['.'] + ActionName(a);
    IndexOfSeparator(name, ActionName(a), '.');
    JoinParts(name, ActionName(a), '.');
    ObjectTypeNameRoundTrip(t);
    ActionNameRoundTrip(a);
  }

  /** Whatever parses as an event type is the formatted form of the pair it parses to. */
  lemma ParseFormatRoundTrip(s: string)
    requires ParseWebhookEventType(s).Some?
    ensures FormatWebhookEventType(ParseWebhookEventType(s).value.0, ParseWebhookEventType(s).value.1) == s
  {
    var k := IndexOf(s, '.');
    assert s == s[..k] + "." + s[k + 1..];
  }

  /** Formatting is injective: distinct pairs give distinct event types. */
  lemma FormatWebhookEventTypeInjective(t1: ObjectType, a1: Action, t2: ObjectType, a2: Action)
    requires FormatWebhookEventType(t1, a1) == FormatWebhookEventType(t2, a2)
    ensures t1 == t2 && a1 == a2
  {
    FormatParseRoundTrip(t1, a1);
    FormatParseRoundTrip(t2, a2);
  }

  /**
   * Every event type is a listed object type, a ".", and a listed action: it starts with one
   * of the seven object types and ends with ".created", ".updated" or ".deleted".
   */
  lemma FormatWebhookEventTypeShape(t: ObjectType, a: Action)
    ensures exists i, j ::
              && 0 <= i < |WebhookObjectTypes| && 0 <= j < |WebhookActions|
              && FormatWebhookEventType(t, a) == WebhookObjectTypes[i] + "." + WebhookActions[j]
  {
    ObjectTypeNameRoundTrip(t);
    ActionNameRoundTrip(a);
    var i := IndexOf(WebhookObjectTypes, ObjectTypeName(t));
    var j := IndexOf(WebhookActions, ActionName(a));
    assert FormatWebhookEventType(t, a) == WebhookObjectTypes[i] + "." + WebhookActions[j];
  }
}
