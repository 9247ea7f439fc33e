/** The payload a notification request is turned into before it is posted to
    Gotify. The payload is a JSON object built in a fixed sequence of steps, each
    one a dict assignment along a key path, exactly as the service writes it. */
module Notify {
  import opened Wrappers
  import opened Json

  /** The host platform's default notification title. */
  const DefaultTitle: string := "Home Assistant"

  /** Priority used when the request does not give one. */
  const DefaultPriority: Value := Number(5)

  /** The content type the payload starts with, and the one that triggers the
      markdown image reference in the message text. */
  const Markdown: string := "text/markdown"

  /** The recognised keys of the request's attribute bag; `Some` means the key is
      present. `priority` and `extras` are passed through uncoerced. */
  datatype Attributes = Attributes(
    priority: Option<Value>,
    contentType: Option<string>,
    image: Option<string>,
    clickUrl: Option<string>,
    androidIntentUrl: Option<string>,
    extras: Option<Value>)

  /** The empty attribute bag. */
  const NoAttributes: Attributes := Attributes(None, None, None, None, None, None)

  const MessagePath: Path := ["message"]
  const ExtrasPath: Path := ["extras"]
  const ContentTypePath: Path := ["extras", "client::display", "contentType"]
  const BigImageUrlPath: Path := ["extras", "client::notification", "bigImageUrl"]
  const ClickPath: Path := ["extras", "client::notification", "click"]
  const OnReceivePath: Path := ["extras", "android::action", "onReceive"]

  /** The top-level payload object. */
  function Envelope(title: string, message: string, priority: Value, extras: Value): Value {
    Object(map[
      "title" := String(title),
      "message" := String(message),
      "priority" := priority,
      "extras" := extras])
  }

  /** The derived extras object with its three sections. */
  function Sections(display: map<string, Value>, notification: map<string, Value>,
                    action: map<string, Value>): Value
  {
    Object(map[
      "client::display" := Object(display),
      "client::notification" := Object(notification),
      "android::action" := Object(action)])
  }

  /** A payload whose extras are the derived three-section object. */
  function Layout(title: string, message: string, priority: Value,
                  display: map<string, Value>, notification: map<string, Value>,
                  action: map<string, Value>): Value
  {
    Envelope(title, message, priority, Sections(display, notification, action))
  }

  /** The message text with a markdown reference to an image appended. */
  function WithImageReference(message: string, image: string): string {
    message + " ![](" + image + ")"
  }

  /** The title argument, or the platform default when none is passed. */
  function ResolveTitle(title: Option<string>): string {
    title.GetOr(DefaultTitle)
  }

  /** A missing attribute bag is treated as an empty one. */
  function ResolveData(data: Option<Attributes>): Attributes {
    data.GetOr(NoAttributes)
  }

  /** The payload literal before any optional attribute is applied. */
  function InitialPayload(title: string, message: string, a: Attributes): Value {
    Layout(title, message, a.priority.GetOr(DefaultPriority),
           map["contentType" := String(Markdown)], map[], map[])
  }

  /** `content_type` overwrites the display content type. */
  function ApplyContentType(p: Value, a: Attributes): Option<Value> {
    if a.contentType.Some? then Assign(p, ContentTypePath, String(a.contentType.value))
    else Some(p)
  }

  /** `image` sets the big image URL, and, when the content type in the payload is
      markdown at this point, replaces the message with the original text plus a
      markdown image reference. */
  function ApplyImage(p: Value, message: string, a: Attributes): Option<Value> {
    if a.image.Some? then
      var withImage :- Assign(p, BigImageUrlPath, String(a.image.value));
      var contentType :- Lookup(withImage, ContentTypePath);
      if contentType == String(Markdown) then
        Assign(withImage, MessagePath, String(WithImageReference(message, a.image.value)))
      else
        Some(withImage)
    else Some(p)
  }

  /** `click_url` stores a fresh `{url}` object as the notification's click target. */
  function ApplyClickUrl(p: Value, a: Attributes): Option<Value> {
    if a.clickUrl.Some? then Assign(p, ClickPath, Object(map["url" := String(a.clickUrl.value)]))
    else Some(p)
  }

  /** `android_intentUrl` stores a fresh `{intentUrl}` object as the action's onReceive. */
  function ApplyIntentUrl(p: Value, a: Attributes): Option<Value> {
    if a.androidIntentUrl.Some? then
      Assign(p, OnReceivePath, Object(map["intentUrl" := String(a.androidIntentUrl.value)]))
    else Some(p)
  }

  /** `extras` replaces the whole extras entry, whatever the earlier steps put there. */
  function ApplyExtrasOverride(p: Value, a: Attributes): Option<Value> {
    if a.extras.Some? then Assign(p, ExtrasPath, a.extras.value)
    else Some(p)
  }

  /** The payload sent for `message` with the optional `title` and attribute bag.
      None would mean the construction raised; it never does
      (see NotifyProperties.BuildPayloadMatchesReference). */
  function BuildPayload(message: string, title: Option<string>, data: Option<Attributes>): Option<Value> {
    var a := ResolveData(data);
    var initial := InitialPayload(ResolveTitle(title), message, a);
    var p1 :- ApplyContentType(initial, a);
    var p2 :- ApplyImage(p1, message, a);
    var p3 :- ApplyClickUrl(p2, a);
    var p4 :- ApplyIntentUrl(p3, a);
    ApplyExtrasOverride(p4, a)
  }

  // ---------------------------------------------------------------------------
  // The effect of each step on a payload of the derived shape. Each lemma says
  // which single entry the step writes; every other argument of Layout (and so
  // every other entry of the payload) is left as it was.

  /** Replacing the extras entry of a payload object. */
  lemma ReplaceExtras(title: string, message: string, priority: Value, extras: Value, extras': Value)
    ensures Envelope(title, message, priority, extras).fields["extras" := extras']
         == Envelope(title, message, priority, extras').fields
  {
  }

  /** Replacing the message entry of a payload object. */
  lemma ReplaceMessage(title: string, message: string, priority: Value, extras: Value, message': string)
    ensures Envelope(title, message, priority, extras).fields["message" := String(message')]
         == Envelope(title, message', priority, extras).fields
  {
  }

  /** Replacing one section of the derived extras object. */
  lemma ReplaceDisplay(display: map<string, Value>, notification: map<string, Value>,
                       action: map<string, Value>, display': map<string, Value>)
    ensures Sections(display, notification, action).fields["client::display" := Object(display')]
         == Sections(display', notification, action).fields
  {
  }

  lemma ReplaceNotification(display: map<string, Value>, notification: map<string, Value>,
                            action: map<string, Value>, notification': map<string, Value>)
    ensures Sections(display, notification, action).fields["client::notification" := Object(notification')]
         == Sections(display, notification', action).fields
  {
  }

  lemma ReplaceAction(display: map<string, Value>, notification: map<string, Value>,
                      action: map<string, Value>, action': map<string, Value>)
    ensures Sections(display, notification, action).fields["android::action" := Object(action')]
         == Sections(display, notification, action').fields
  {
  }

  /** Writing one key of the display section of a derived payload. */
  lemma AssignIntoDisplay(title: string, message: string, priority: Value,
                          display: map<string, Value>, notification: map<string, Value>,
                          action: map<string, Value>, key: string, v: Value)
    ensures Assign(Layout(title, message, priority, display, notification, action),
                   ["extras", "client::display", key], v)
         == Some(Layout(title, message, priority, display[key := v], notification, action))
  {
    var p := Layout(title, message, priority, display, notification, action);
    AssignThreeDeep(p.fields, "extras", "client::display", key, v);
    ReplaceDisplay(display, notification, action, display[key := v]);
    ReplaceExtras(title, message, priority, Sections(display, notification, action),
                  Sections(display[key := v], notification, action));
  }

  /** Writing one key of the notification section of a derived payload. */
  lemma AssignIntoNotification(title: string, message: string, priority: Value,
                               display: map<string, Value>, notification: map<string, Value>,
                               action: map<string, Value>, key: string, v: Value)
    ensures Assign(Layout(title, message, priority, display, notification, action),
                   ["extras", "client::notification", key], v)
         == Some(Layout(title, message, priority, display, notification[key := v], action))
  {
    var p := Layout(title, message, priority, display, notification, action);
    AssignThreeDeep(p.fields, "extras", "client::notification", key, v);
    ReplaceNotification(display, notification, action, notification[key := v]);
    ReplaceExtras(title, message, priority, Sections(display, notification, action),
                  Sections(display, notification[key := v], action));
  }

  /** Writing one key of the Android action section of a derived payload. */
  lemma AssignIntoAction(title: string, message: string, priority: Value,
                         display: map<string, Value>, notification: map<string, Value>,
                         action: map<string, Value>, key: string, v: Value)
    ensures Assign(Layout(title, message, priority, display, notification, action),
                   ["extras", "android::action", key], v)
         == Some(Layout(title, message, priority, display, notification, action[key := v]))
  {
    var p := Layout(title, message, priority, display, notification, action);
    AssignThreeDeep(p.fields, "extras", "android::action", key, v);
    ReplaceAction(display, notification, action, action[key := v]);
    ReplaceExtras(title, message, priority, Sections(display, notification, action),
                  Sections(display, notification, action[key := v]));
  }

  lemma ContentTypeStep(title: string, message: string, priority: Value,
                        display: map<string, Value>, notification: map<string, Value>,
                        action: map<string, Value>, a: Attributes)
    ensures ApplyContentType(Layout(title, message, priority, display, notification, action), a)
         == Some(Layout(title, message, priority,
                        if a.contentType.Some? then display["contentType" := String(a.contentType.value)]
                        else display,
                        notification, action))
  {
    if a.contentType.Some? {
      AssignIntoDisplay(title, message, priority, display, notification, action,
                        "contentType", String(a.contentType.value));
    }
  }

  lemma ImageStep(title: string, original: string, message: string, priority: Value,
                  display: map<string, Value>, notification: map<string, Value>,
                  action: map<string, Value>, a: Attributes)
    requires "contentType" in display
    ensures ApplyImage(Layout(title, message, priority, display, notification, action), original, a)
         == Some(
              if a.image.None? then Layout(title, message, priority, display, notification, action)
              else Layout(title,
                          if display["contentType"] == String(Markdown)
                          then WithImageReference(original, a.image.value) else message,
                          priority, display,
                          notification["bigImageUrl" := String(a.image.value)], action))
  {
    if a.image.Some? {
      var img := String(a.image.value);
      AssignIntoNotification(title, message, priority, display, notification, action, "bigImageUrl", img);
      var p := Layout(title, message, priority, display, notification["bigImageUrl" := img], action);
      assert Lookup(p, ContentTypePath) == Some(display["contentType"]);
      var text := WithImageReference(original, a.image.value);
      AssignTop(p.fields, "message", String(text));
      ReplaceMessage(title, message, priority, Sections(display, notification["bigImageUrl" := img], action), text);
    }
  }

  lemma ClickUrlStep(title: string, message: string, priority: Value,
                     display: map<string, Value>, notification: map<string, Value>,
                     action: map<string, Value>, a: Attributes)
    ensures ApplyClickUrl(Layout(title, message, priority, display, notification, action), a)
         == Some(Layout(title, message, priority, display,
                        if a.clickUrl.Some?
                        then notification["click" := Object(map["url" := String(a.clickUrl.value)])]
                        else notification,
                        action))
  {
    if a.clickUrl.Some? {
      AssignIntoNotification(title, message, priority, display, notification, action,
                             "click", Object(map["url" := String(a.clickUrl.value)]));
    }
  }

  lemma IntentUrlStep(title: string, message: string, priority: Value,
                      display: map<string, Value>, notification: map<string, Value>,
                      action: map<string, Value>, a: Attributes)
    ensures ApplyIntentUrl(Layout(title, message, priority, display, notification, action), a)
         == Some(Layout(title, message, priority, display, notification,
                        if a.androidIntentUrl.Some?
                        then action["onReceive" := Object(map["intentUrl" := String(a.androidIntentUrl.value)])]
                        else action))
  {
    if a.androidIntentUrl.Some? {
      AssignIntoAction(title, message, priority, display, notification, action,
                       "onReceive", Object(map["intentUrl" := String(a.androidIntentUrl.value)]));
    }
  }

  lemma ExtrasOverrideStep(title: string, message: string, priority: Value, extras: Value, a: Attributes)
    ensures ApplyExtrasOverride(Envelope(title, message, priority, extras), a)
         == Some(Envelope(title, message, priority, a.extras.GetOr(extras)))
  {
    if a.extras.Some? {
      var p := Envelope(title, message, priority, extras);
      AssignTop(p.fields, "extras", a.extras.value);
      ReplaceExtras(title, message, priority, extras, a.extras.value);
    }
  }
}
