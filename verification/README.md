# Gotify notification service — Dafny model

This project models the two pieces of logic in the Home Assistant Gotify
notification service (`HassAgentNotificationService`):

* **Endpoint normalisation.** The configured Gotify base URL gets a `/` appended
  when it does not already end with one, then the literal segment `message`
  (module `Endpoint`).
* **Payload construction.** A notification request (message text, optional
  title, optional attribute bag with the keys `priority`, `content_type`,
  `image`, `click_url`, `android_intentUrl`, `extras`) is turned into the Gotify
  message payload: `title`, `message`, `priority` and a nested `extras` object
  with the sections `client::display`, `client::notification` and
  `android::action` (module `Notify`).

The payload is modelled as a JSON value (module `Json`), and each step of the
service is modelled as the dict assignment it performs: `Json.Assign` is
`d[k1]...[kn] = v`, returning `None` where Python would raise because a container
on the way is missing or is not a dict. The steps run in the service's order and
are chained with `:-`, so `Notify.BuildPayload` would return `None` if any step
raised. The order matters in three ways:

* the image step reads the content type as the `content_type` step left it;
* a caller-supplied `extras` replaces the whole derived extras object, with no merge;
* that replacement does not undo the image reference already appended to the message.

Module `NotifyProperties` gives an independent, declarative description of the
payload, field by field (`ExpectedPayload`). `BuildPayloadMatchesReference`
proves that the step-by-step construction never fails and always yields exactly
that payload. The remaining properties are proved from it.

The attribute bag is a record of `Option` fields, where `Some` means the key is
present. `priority` and `extras` are arbitrary JSON values passed through
unchanged. The other four keys are strings. The platform default title is the
constant `Notify.DefaultTitle`.

The code passes `priority` through verbatim, with no coercion to an integer,
and the model does the same.

## Model

| member | source | states |
|---|---|---|
| Endpoint.MessageEndpoint | custom_components/gotify/notify.py:36-38 | the endpoint ends with `/message`, starts with the configured URL verbatim, and is 7 characters longer than the URL when it already ends with `/`, 8 otherwise: exactly one slash joins base and segment |
| Endpoint.BaseOfEndpoint | custom_components/gotify/notify.py:36-38 | stripping `message` from the endpoint gives back the configured URL, with a `/` added exactly when it had none |
| Endpoint.EndpointOfBase | custom_components/gotify/notify.py:36-38 | every string ending in `/message` is the endpoint of its own base: normalising the base recovers the string |
| Endpoint.RenormalisingAppendsAgain | custom_components/gotify/notify.py:36-38 | normalising a string that already ends in `/message` appends a second `/message`: the normalisation is not idempotent |
| Endpoint.SlashIsNotDoubled | custom_components/gotify/notify.py:36-38 | a URL with or without one trailing slash gives the same endpoint, so the slash is never doubled |
| Endpoint.Configure | custom_components/gotify/notify.py:31-38 | the constructed service keeps the token and stores an endpoint that ends with `/message`, starts with the configured URL and is 7 characters longer than the URL when it ends with `/`, 8 otherwise: exactly the URL plus `message` or `/message` |
| Json.Assign | custom_components/gotify/notify.py:63-81 | a nested dict assignment succeeds exactly when every enclosing container exists and is an object; after it, reading the assigned path yields the assigned value |
| Json.AssignLeavesOtherPaths | custom_components/gotify/notify.py:63-81 | a nested assignment changes nothing reachable along a path that diverges from the assigned one |
| Notify.ContentTypeStep | custom_components/gotify/notify.py:62-63 | `content_type`, when present, overwrites the display content type; no other entry of the payload changes, and without the key nothing changes |
| Notify.ImageStep | custom_components/gotify/notify.py:65-68 | `image` sets the big image URL, and the message becomes the original text plus ` ![](image)` exactly when the content type then in the payload is `text/markdown`; nothing else changes |
| Notify.ClickUrlStep | custom_components/gotify/notify.py:70-73 | `click_url` stores `{url}` as the notification's click target; nothing else changes |
| Notify.IntentUrlStep | custom_components/gotify/notify.py:75-78 | `android_intentUrl` stores `{intentUrl}` as the action's onReceive; nothing else changes |
| Notify.ExtrasOverrideStep | custom_components/gotify/notify.py:80-81 | `extras` replaces the whole extras entry; title, message and priority are kept |
| NotifyProperties.DerivedSectionsBeforeOverride | custom_components/gotify/notify.py:49-78 | the initial payload and the four attribute steps produce the derived display, notification and action sections and the final message text |
| NotifyProperties.BuildPayloadMatchesReference | custom_components/gotify/notify.py:43-81 | payload construction never fails, for any combination of attributes, and equals the declarative payload field by field |
| NotifyProperties.TitleIsGivenOrDefault | custom_components/gotify/notify.py:44 | the payload title is the title argument when given, otherwise the platform default |
| NotifyProperties.PriorityIsGivenOrFive | custom_components/gotify/notify.py:45-52 | the payload priority is the `priority` attribute verbatim when present, otherwise 5, also when no attribute bag is passed |
| NotifyProperties.PriorityIgnoresOtherKeys | custom_components/gotify/notify.py:52 | two requests whose bags agree on `priority` get the same payload priority, whatever their message, title and other keys |
| NotifyProperties.EmptyDataGivesDefaults | custom_components/gotify/notify.py:45-60 | with no or an empty attribute bag, the message is unchanged, the priority is 5, the content type is `text/markdown` and the notification and action sections are empty |
| NotifyProperties.ContentTypeOverridesMarkdown | custom_components/gotify/notify.py:53-63 | without an `extras` override, the display content type is `content_type` when present and `text/markdown` otherwise |
| NotifyProperties.ImageSetsUrlAndMarkdownText | custom_components/gotify/notify.py:65-68 | with an image, the message gets the markdown image reference if and only if the effective content type is `text/markdown`, also when `extras` is given; without `extras` the big image URL is the image |
| NotifyProperties.ClickUrlSetsOnlyClickTarget | custom_components/gotify/notify.py:70-73 | adding `click_url` to a request changes only the notification's click target (title, message and priority, like every other diverging path, read the same), and changes nothing at all when `extras` is given |
| NotifyProperties.IntentUrlSetsOnlyOnReceive | custom_components/gotify/notify.py:75-78 | adding `android_intentUrl` to a request changes only the action's onReceive (title, message and priority, like every other diverging path, read the same), and changes nothing at all when `extras` is given |
| NotifyProperties.ExtrasOverrideIsVerbatim | custom_components/gotify/notify.py:80-81 | when `extras` is given, the payload's extras are exactly that value, whatever `content_type`, `image`, `click_url` or `android_intentUrl` say |

## Left out

- The HTTP POST, the `X-Gotify-Key` header and the 10-second timeout (notify.py:40-41). This is network I/O.
- Executor dispatch, `raise_for_status` and the catch-and-log error handling (notify.py:85-89). This is threading and logging, with no result the caller can observe.
- Debug logging of the payload (notify.py:83).
- Configuration schema validation of `url` and `token` (notify.py:18), `get_service` (notify.py:21-27) and the host's base notification class. These are calls into the host platform.
- Values of the wrong type in the attribute bag. `content_type`, `image`, `click_url` and `android_intentUrl` are strings here. In Python, a non-string `image` with a markdown content type raises a TypeError at notify.py:68; this is not modelled.
- A `title`, `content_type`, `image`, `click_url` or `android_intentUrl` key that is present with the value `None`. These five are strings or absent in the model, so an explicit `None` cannot be expressed. The visible consequence: with `content_type: None`, Python compares `None == 'text/markdown'` at notify.py:67, which is false, so no image text is appended; a request that omits the key instead gets the image text. `priority` and `extras` are JSON values, so an explicit `None` is `Some(Null)` and passes through as `null`, as at notify.py:52 and notify.py:81.
- `Notify.DefaultTitle` is the host platform's default title ("Home Assistant"). Its value comes from outside this repository, and no property depends on it.
- Key order inside JSON objects. Objects are maps, so only the order of the serialised text is lost. JSON numbers are integers only.
- `Json.Assign` reports a failed subscript as `None`; it does not distinguish a KeyError from a TypeError.
