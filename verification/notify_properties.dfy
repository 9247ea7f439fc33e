/** A declarative description of the payload the service sends, written without
    reference to the order of assignments, and the properties of the built
    payload that follow from it. */
module NotifyProperties {
  import opened Wrappers
  import opened Json
  import opened Notify

  /** The content type the image step sees: the caller's `content_type` if given,
      otherwise markdown. */
  function EffectiveContentType(a: Attributes): string {
    a.contentType.GetOr(Markdown)
  }

  /** The message text sent: the image reference is appended exactly when an image
      is given and the effective content type is markdown, whatever `extras` says. */
  function ExpectedMessage(message: string, a: Attributes): string {
    if a.image.Some? && EffectiveContentType(a) == Markdown
    then message + " ![](" + a.image.value + ")"
    else message
  }

  /** The notification section derived from `image` and `click_url`. */
  function ExpectedNotification(a: Attributes): map<string, Value> {
    (if a.image.Some? then map["bigImageUrl" := String(a.image.value)] else map[])
    + (if a.clickUrl.Some? then map["click" := Object(map["url" := String(a.clickUrl.value)])] else map[])
  }

  /** The Android action section derived from `android_intentUrl`. */
  function ExpectedAction(a: Attributes): map<string, Value> {
    if a.androidIntentUrl.Some?
    then map["onReceive" := Object(map["intentUrl" := String(a.androidIntentUrl.value)])]
    else map[]
  }

  /** The extras sent: the caller's `extras` verbatim if given, otherwise the
      three derived sections. */
  function ExpectedExtras(a: Attributes): Value {
    if a.extras.Some? then a.extras.value
    else Object(map[
      "client::display" := Object(ExpectedDisplay(a)),
      "client::notification" := Object(ExpectedNotification(a)),
      "android::action" := Object(ExpectedAction(a))])
  }

  /** The whole payload, field by field. */
  function ExpectedPayload(message: string, title: Option<string>, data: Option<Attributes>): Value {
    var a := if data.Some? then data.value else NoAttributes;
    Object(map[
      "title" := String(if title.Some? then title.value else DefaultTitle),
      "message" := String(ExpectedMessage(message, a)),
      "priority" := (if a.priority.Some? then a.priority.value else Number(5)),
      "extras" := ExpectedExtras(a)])
  }

  /** The display section sent when no `extras` override is given. */
  function ExpectedDisplay(a: Attributes): map<string, Value> {
    map["contentType" := String(EffectiveContentType(a))]
  }

  /** The `content_type` and `image` steps, from the initial payload. */
  lemma DisplayAndImageSteps(message: string, t: string, a: Attributes)
    ensures var priority := a.priority.GetOr(DefaultPriority);
      && ApplyContentType(InitialPayload(t, message, a), a)
           == Some(Layout(t, message, priority, ExpectedDisplay(a), map[], map[]))
      && ApplyImage(Layout(t, message, priority, ExpectedDisplay(a), map[], map[]), message, a)
           == Some(Layout(t, ExpectedMessage(message, a), priority, ExpectedDisplay(a),
                          if a.image.Some? then map["bigImageUrl" := String(a.image.value)] else map[],
                          map[]))
  {
    var priority := a.priority.GetOr(DefaultPriority);
    var d0: map<string, Value> := map["contentType" := String(Markdown)];
    ContentTypeStep(t, message, priority, d0, map[], map[], a);
    var d1 := if a.contentType.Some? then d0["contentType" := String(a.contentType.value)] else d0;
    assert d1 == ExpectedDisplay(a);
    ImageStep(t, message, message, priority, ExpectedDisplay(a), map[], map[], a);
  }

  /** The `click_url` and `android_intentUrl` steps complete the two derived
      sections that depend on them. */
  lemma ClickAndIntentSteps(message: string, t: string, a: Attributes)
    ensures var priority := a.priority.GetOr(DefaultPriority);
      var n2: map<string, Value> := if a.image.Some? then map["bigImageUrl" := String(a.image.value)] else map[];
      var p3 := Layout(t, message, priority, ExpectedDisplay(a), ExpectedNotification(a), map[]);
      && ApplyClickUrl(Layout(t, message, priority, ExpectedDisplay(a), n2, map[]), a) == Some(p3)
      && ApplyIntentUrl(p3, a)
           == Some(Layout(t, message, priority, ExpectedDisplay(a), ExpectedNotification(a), ExpectedAction(a)))
  {
    var priority := a.priority.GetOr(DefaultPriority);
    var n2: map<string, Value> := if a.image.Some? then map["bigImageUrl" := String(a.image.value)] else map[];
    ClickUrlStep(t, message, priority, ExpectedDisplay(a), n2, map[], a);
    var n3 := if a.clickUrl.Some? then n2["click" := Object(map["url" := String(a.clickUrl.value)])] else n2;
    assert n3 == ExpectedNotification(a);
    IntentUrlStep(t, message, priority, ExpectedDisplay(a), ExpectedNotification(a), map[], a);
  }

  /** The four steps before the `extras` override produce the derived sections of
      the declarative payload. */
  lemma DerivedSectionsBeforeOverride(message: string, title: Option<string>, data: Option<Attributes>)
    ensures var a := ResolveData(data);
      BuildPayload(message, title, data)
        == ApplyExtrasOverride(Layout(ResolveTitle(title), ExpectedMessage(message, a),
                                      a.priority.GetOr(DefaultPriority), ExpectedDisplay(a),
                                      ExpectedNotification(a), ExpectedAction(a)), a)
  {
    var a := ResolveData(data);
    var t := ResolveTitle(title);
    DisplayAndImageSteps(message, t, a);
    ClickAndIntentSteps(ExpectedMessage(message, a), t, a);
  }

  /** Building the payload never fails, and the step-by-step construction yields
      exactly the declarative payload. */
  lemma BuildPayloadMatchesReference(message: string, title: Option<string>, data: Option<Attributes>)
    ensures BuildPayload(message, title, data) == Some(ExpectedPayload(message, title, data))
  {
    DerivedSectionsBeforeOverride(message, title, data);
    var a := ResolveData(data);
    var t := ResolveTitle(title);
    var m := ExpectedMessage(message, a);
    var priority := a.priority.GetOr(DefaultPriority);
    var derived := Object(map[
      "client::display" := Object(ExpectedDisplay(a)),
      "client::notification" := Object(ExpectedNotification(a)),
      "android::action" := Object(ExpectedAction(a))]);
    assert Layout(t, m, priority, ExpectedDisplay(a), ExpectedNotification(a), ExpectedAction(a))
        == Envelope(t, m, priority, derived);
    ExtrasOverrideStep(t, m, priority, derived, a);
    assert a.extras.GetOr(derived) == ExpectedExtras(a);
    assert Envelope(t, m, priority, ExpectedExtras(a)) == ExpectedPayload(message, title, data);
  }

  /** The payload title is the title argument when one is passed, otherwise the
      platform default; the attribute bag has no say. */
  lemma TitleIsGivenOrDefault(message: string, title: Option<string>, data: Option<Attributes>)
    ensures BuildPayload(message, title, data).Some?
    ensures title.Some? ==> Lookup(BuildPayload(message, title, data).value, ["title"]) == Some(String(title.value))
    ensures title.None? ==> Lookup(BuildPayload(message, title, data).value, ["title"]) == Some(String(DefaultTitle))
  {
    BuildPayloadMatchesReference(message, title, data);
  }

  /** The payload priority is the `priority` attribute verbatim when present, and 5
      otherwise (also when no attribute bag is passed). */
  lemma PriorityIsGivenOrFive(message: string, title: Option<string>, data: Option<Attributes>)
    ensures BuildPayload(message, title, data).Some?
    ensures data.Some? && data.value.priority.Some? ==>
      Lookup(BuildPayload(message, title, data).value, ["priority"]) == Some(data.value.priority.value)
    ensures data.None? || data.value.priority.None? ==>
      Lookup(BuildPayload(message, title, data).value, ["priority"]) == Some(Number(5))
  {
    BuildPayloadMatchesReference(message, title, data);
  }

  /** No key other than `priority` affects the payload priority: two requests whose
      bags agree on it get the same priority, whatever their message, title or
      other keys. */
  lemma PriorityIgnoresOtherKeys(m1: string, t1: Option<string>, a1: Attributes,
                                 m2: string, t2: Option<string>, a2: Attributes)
    requires a1.priority == a2.priority
    ensures BuildPayload(m1, t1, Some(a1)).Some? && BuildPayload(m2, t2, Some(a2)).Some?
    ensures Lookup(BuildPayload(m1, t1, Some(a1)).value, ["priority"])
         == Lookup(BuildPayload(m2, t2, Some(a2)).value, ["priority"])
  {
    PriorityIsGivenOrFive(m1, t1, Some(a1));
    PriorityIsGivenOrFive(m2, t2, Some(a2));
  }

  /** With no attribute bag, or an empty one, the message is sent unchanged with
      priority 5, markdown content type and empty notification and action sections. */
  lemma EmptyDataGivesDefaults(message: string, title: Option<string>, data: Option<Attributes>)
    requires data.None? || data == Some(NoAttributes)
    ensures BuildPayload(message, title, data) == Some(Object(map[
      "title" := String(if title.Some? then title.value else DefaultTitle),
      "message" := String(message),
      "priority" := Number(5),
      "extras" := Object(map[
        "client::display" := Object(map["contentType" := String("text/markdown")]),
        "client::notification" := Object(map[]),
        "android::action" := Object(map[])])]))
  {
    BuildPayloadMatchesReference(message, title, data);
    var a := if data.Some? then data.value else NoAttributes;
    assert a == NoAttributes;
    assert ExpectedNotification(a) == map[];
  }

  /** Unless the caller's `extras` replaces them, the display content type is the
      `content_type` attribute when present, and markdown otherwise. */
  lemma ContentTypeOverridesMarkdown(message: string, title: Option<string>, a: Attributes)
    requires a.extras.None?
    ensures BuildPayload(message, title, Some(a)).Some?
    ensures a.contentType.Some? ==>
      Lookup(BuildPayload(message, title, Some(a)).value, ContentTypePath) == Some(String(a.contentType.value))
    ensures a.contentType.None? ==>
      Lookup(BuildPayload(message, title, Some(a)).value, ContentTypePath) == Some(String(Markdown))
  {
    BuildPayloadMatchesReference(message, title, Some(a));
    var r := ExpectedPayload(message, title, Some(a));
    assert r.fields["extras"].fields["client::display"] == Object(ExpectedDisplay(a));
    LookupThreeDeep(r.fields, "extras", "client::display", "contentType");
  }

  /** With an image, the message gets the markdown image reference exactly when the
      content type in force after the `content_type` step is markdown, and is
      unchanged otherwise; this holds even when `extras` is given. Without an
      `extras` override the image is also the notification's big image URL. */
  lemma ImageSetsUrlAndMarkdownText(message: string, title: Option<string>, a: Attributes)
    requires a.image.Some?
    ensures BuildPayload(message, title, Some(a)).Some?
    ensures EffectiveContentType(a) == Markdown ==>
      Lookup(BuildPayload(message, title, Some(a)).value, ["message"])
        == Some(String(message + " ![](" + a.image.value + ")"))
    ensures EffectiveContentType(a) != Markdown ==>
      Lookup(BuildPayload(message, title, Some(a)).value, ["message"]) == Some(String(message))
    ensures a.extras.None? ==>
      Lookup(BuildPayload(message, title, Some(a)).value, BigImageUrlPath) == Some(String(a.image.value))
  {
    BuildPayloadMatchesReference(message, title, Some(a));
    var r := ExpectedPayload(message, title, Some(a));
    assert r.fields["message"] == String(ExpectedMessage(message, a));
    if a.extras.None? {
      assert r.fields["extras"].fields["client::notification"] == Object(ExpectedNotification(a));
      assert ExpectedNotification(a)["bigImageUrl"] == String(a.image.value);
      LookupThreeDeep(r.fields, "extras", "client::notification", "bigImageUrl");
    }
  }

  /** When the caller gives `extras`, the payload's extras are exactly that value,
      whatever `content_type`, `image`, `click_url` or `android_intentUrl` say. */
  lemma ExtrasOverrideIsVerbatim(message: string, title: Option<string>, a: Attributes)
    requires a.extras.Some?
    ensures BuildPayload(message, title, Some(a)).Some?
    ensures Lookup(BuildPayload(message, title, Some(a)).value, ["extras"]) == Some(a.extras.value)
  {
    BuildPayloadMatchesReference(message, title, Some(a));
  }

  /** Without an `extras` override the declarative payload has the derived shape. */
  lemma ReferenceIsLayout(message: string, title: Option<string>, a: Attributes)
    requires a.extras.None?
    ensures ExpectedPayload(message, title, Some(a))
         == Layout(ResolveTitle(title), ExpectedMessage(message, a), a.priority.GetOr(DefaultPriority),
                   ExpectedDisplay(a), ExpectedNotification(a), ExpectedAction(a))
  {
    assert ExpectedExtras(a) == Sections(ExpectedDisplay(a), ExpectedNotification(a), ExpectedAction(a));
  }

  /** Adding `click_url` to a request changes exactly one entry of its payload:
      the notification's click target, and only when no `extras` override is
      given. Every path that diverges from the click target reads the same. */
  lemma ClickUrlSetsOnlyClickTarget(message: string, title: Option<string>, a: Attributes, url: string)
    ensures BuildPayload(message, title, Some(a.(clickUrl := Some(url)))).Some?
    ensures BuildPayload(message, title, Some(a.(clickUrl := None))).Some?
    ensures a.extras.None? ==>
      Assign(BuildPayload(message, title, Some(a.(clickUrl := None))).value,
             ClickPath, Object(map["url" := String(url)]))
        == BuildPayload(message, title, Some(a.(clickUrl := Some(url))))
    ensures a.extras.Some? ==>
      BuildPayload(message, title, Some(a.(clickUrl := Some(url))))
        == BuildPayload(message, title, Some(a.(clickUrl := None)))
    ensures forall q :: Diverge(ClickPath, q) ==>
      Lookup(BuildPayload(message, title, Some(a.(clickUrl := Some(url)))).value, q)
        == Lookup(BuildPayload(message, title, Some(a.(clickUrl := None))).value, q)
  {
    var with := a.(clickUrl := Some(url));
    var without := a.(clickUrl := None);
    BuildPayloadMatchesReference(message, title, Some(with));
    BuildPayloadMatchesReference(message, title, Some(without));
    var target := Object(map["url" := String(url)]);
    var p0 := ExpectedPayload(message, title, Some(without));
    var p1 := ExpectedPayload(message, title, Some(with));
    if a.extras.None? {
      ReferenceIsLayout(message, title, with);
      ReferenceIsLayout(message, title, without);
      var images: map<string, Value> := if a.image.Some? then map["bigImageUrl" := String(a.image.value)] else map[];
      assert ExpectedNotification(without) == images;
      assert ExpectedNotification(with) == images["click" := target];
      AssignIntoNotification(ResolveTitle(title), ExpectedMessage(message, a),
                             a.priority.GetOr(DefaultPriority), ExpectedDisplay(a),
                             ExpectedNotification(without), ExpectedAction(a), "click", target);
      assert Assign(p0, ClickPath, target) == Some(p1);
      forall q | Diverge(ClickPath, q)
        ensures Lookup(p1, q) == Lookup(p0, q)
      {
        AssignLeavesOtherPaths(p0, ClickPath, target, q);
      }
    } else {
      assert p1 == p0;
    }
  }

  /** Adding `android_intentUrl` to a request changes exactly one entry of its
      payload: the Android action's onReceive, and only when no `extras` override
      is given. Every path that diverges from it reads the same. */
  lemma IntentUrlSetsOnlyOnReceive(message: string, title: Option<string>, a: Attributes, url: string)
    ensures BuildPayload(message, title, Some(a.(androidIntentUrl := Some(url)))).Some?
    ensures BuildPayload(message, title, Some(a.(androidIntentUrl := None))).Some?
    ensures a.extras.None? ==>
      Assign(BuildPayload(message, title, Some(a.(androidIntentUrl := None))).value,
             OnReceivePath, Object(map["intentUrl" := String(url)]))
        == BuildPayload(message, title, Some(a.(androidIntentUrl := Some(url))))
    ensures a.extras.Some? ==>
      BuildPayload(message, title, Some(a.(androidIntentUrl := Some(url))))
        == BuildPayload(message, title, Some(a.(androidIntentUrl := None)))
    ensures forall q :: Diverge(OnReceivePath, q) ==>
      Lookup(BuildPayload(message, title, Some(a.(androidIntentUrl := Some(url)))).value, q)
        == Lookup(BuildPayload(message, title, Some(a.(androidIntentUrl := None))).value, q)
  {
    var with := a.(androidIntentUrl := Some(url));
    var without := a.(androidIntentUrl := None);
    BuildPayloadMatchesReference(message, title, Some(with));
    BuildPayloadMatchesReference(message, title, Some(without));
    var target := Object(map["intentUrl" := String(url)]);
    var p0 := ExpectedPayload(message, title, Some(without));
    var p1 := ExpectedPayload(message, title, Some(with));
    if a.extras.None? {
      ReferenceIsLayout(message, title, with);
      ReferenceIsLayout(message, title, without);
      assert ExpectedAction(with) == ExpectedAction(without)["onReceive" := target];
      AssignIntoAction(ResolveTitle(title), ExpectedMessage(message, a),
                       a.priority.GetOr(DefaultPriority), ExpectedDisplay(a),
                       ExpectedNotification(a), ExpectedAction(without), "onReceive", target);
      assert Assign(p0, OnReceivePath, target) == Some(p1);
      forall q | Diverge(OnReceivePath, q)
        ensures Lookup(p1, q) == Lookup(p0, q)
      {
        AssignLeavesOtherPaths(p0, OnReceivePath, target, q);
      }
    } else {
      assert p1 == p0;
    }
  }
}
