# Plex webhooks for Home Assistant — a verified model of the webhook handler

The integration receives webhook calls from a Plex media server. `handle_webhook`
takes the JSON payload from the request. It reads the first multipart part whose
`Content-Type` is exactly `application/json`, and falls back to decoding the
whole body when reading multipart fails. A falsy payload ends the call silently.
Otherwise the handler writes a normalised `status` (`PLAYING`, `STOPPED`, `NEW`,
or the raw event name), a `type` copied from `Metadata.type` and, for playback
events, a `playerUuid` copied from `Player.uuid` into the payload. It then fires
the payload once on the Home Assistant event bus.

The model has four modules:

- `JsonValue` (`json_value.dfy`): decoded JSON values, Python truthiness,
  `value[key]` subscripting, and the exceptions the handler lets escape
  (`KeyError`, `TypeError`, a failing whole-body decode).
- `Multipart` (`multipart.dfy`): a request is its multipart view plus the
  outcome of decoding its whole body. The multipart view is either "multipart
  reading raises" or a sequence of parts, each a header map plus the outcome of
  decoding that part. `ScanParts`/`Extract` specify the extraction.
  `ReadPayload` is the imperative loop with its early `break`/`continue`, and
  it is proved equal to them.
- `Normalize` (`normalize.dfy`): `Normalized` specifies lines 58-83.
  `NormalizeInPlace` performs the handler's step-by-step dictionary writes and
  is proved equal to it. The lemmas state the classification rules, the error
  conditions and what stays unchanged.
- `Webhook` (`webhook.dfy`): the event bus is a class whose `fired` field logs
  every event fired on it. `Handle` specifies one call of the handler.
  `HandleWebhook` runs it against a bus and fires exactly one event when it
  publishes, and none otherwise.

Decisions:

- `library.new` gives `status == "NEW"`, as the code says. An older variant of
  the integration used `GRABBED`; it is not modelled.
- Missing keys are not guarded, as in the code. A missing `event`,
  `Metadata` or `Metadata.type` is an escaping fault. So is a missing `Player`
  or `Player.uuid` for the four playback events.
- A string subscript of a non-dictionary raises `TypeError`. This covers a
  truthy payload that is a list, string, number or `true`, and a `Metadata` or
  `Player` that is not a dictionary.
- The whole-body `request.json()` sits outside the `try`. When it fails, the
  fault escapes the handler (`BodyDecodeError`). It is not turned into a "bad
  request" answer.
- When the multipart reader ends without a JSON part, `data` keeps its initial
  None (`JNull`). A JSON part that decodes to null, `{}` or another falsy value
  likewise ends the call without firing.

## Model

| member | source | states |
|---|---|---|
| `Multipart.ReadPayload` | custom_components/plex_webhooks/__init__.py:20-51 | the multipart loop with its skips, early exit and whole-body fallback computes exactly the extraction `Extract` |
| `Multipart.ScanFirstJsonPart` | custom_components/plex_webhooks/__init__.py:26-45 | the scan result is decided by the first part whose `Content-Type` is exactly `application/json`: its decoded body is found, or its failing decode raises |
| `Multipart.ScanNoJsonPart` | custom_components/plex_webhooks/__init__.py:26-45 | when no part is a JSON part, every part is skipped and the scan ends as the reader does: exhausted on None, raised if `next()` raises |
| `Multipart.ScanIgnoresLaterParts` | custom_components/plex_webhooks/__init__.py:40-43 | parts after the first JSON part, and how the reader would have ended, never change the result |
| `Multipart.ScanFoundOnlyFromJsonPart` | custom_components/plex_webhooks/__init__.py:34-43 | a payload found by the scan is the decoded body of the first part declaring `application/json` |
| `Multipart.FallbackToWholeBody` | custom_components/plex_webhooks/__init__.py:22-49 | a non-multipart request, a failing decode of the first JSON part, or a reader that raises before any JSON part makes the payload the whole-body decode, and a failing whole-body decode escapes |
| `Multipart.FirstJsonPartIsPayload` | custom_components/plex_webhooks/__init__.py:26-45 | on a multipart request the payload is the decoded body of the first JSON part |
| `Multipart.NoJsonPartLeavesNone` | custom_components/plex_webhooks/__init__.py:20-45 | a multipart request that ends cleanly without a JSON part leaves the payload at None |
| `Normalize.NormalizeInPlace` | custom_components/plex_webhooks/__init__.py:58-83 | the handler's in-place writes (`status` set to the event, then overwritten; `type`; `playerUuid`) and its lookups give exactly `Normalized` |
| `Normalize.NormalizedOkIff` | custom_components/plex_webhooks/__init__.py:58-80 | normalisation succeeds if and only if `event` is present, `Metadata` is a dictionary with `type`, and for playback events `Player` is a dictionary with `uuid` |
| `Normalize.MissingEventFaults` | custom_components/plex_webhooks/__init__.py:58 | a payload without `event` raises `KeyError('event')` |
| `Normalize.MissingMetadataTypeFaults` | custom_components/plex_webhooks/__init__.py:71 | a missing `Metadata` raises `KeyError('Metadata')`; a non-dictionary `Metadata` raises `TypeError`; a `Metadata` without `type` raises `KeyError('type')` |
| `Normalize.MissingPlayerFaultsOnlyForPlayback` | custom_components/plex_webhooks/__init__.py:73-83 | without `Player.uuid`, normalisation fails exactly for the four playback events |
| `Normalize.PlayingEventsArePlaying` | custom_components/plex_webhooks/__init__.py:63-76 | `media.play` and `media.resume` give `status == "PLAYING"` and `playerUuid == Player.uuid` |
| `Normalize.StoppedEventsAreStopped` | custom_components/plex_webhooks/__init__.py:64-80 | `media.pause` and `media.stop` give `status == "STOPPED"` and `playerUuid == Player.uuid` |
| `Normalize.LibraryNewIsNew` | custom_components/plex_webhooks/__init__.py:65-83 | `library.new` gives `status == "NEW"` and leaves `playerUuid` absent or as it was |
| `Normalize.UnrecognisedEventEchoed` | custom_components/plex_webhooks/__init__.py:58-61 | any other event gives `status` equal to the raw `event` value, and `playerUuid` is not written |
| `Normalize.NormalizedFrame` | custom_components/plex_webhooks/__init__.py:58-83 | on success `type == Metadata.type`; the keys become the old keys plus `status`, `type` and, for playback, `playerUuid`; every other key keeps its value |
| `Normalize.PlayExample` | custom_components/plex_webhooks/__init__.py:58-85 | a `media.play` of a movie with player `abc-123` is normalised to the documented dictionary |
| `Webhook.EventBus.AsyncFire` | custom_components/plex_webhooks/__init__.py:85 | firing appends exactly one event, with its type and data, to the bus log |
| `Webhook.HandleWebhook` | custom_components/plex_webhooks/__init__.py:16-85 | the handler's outcome is `Handle(req)`; the bus gains exactly the published event when it publishes, and nothing on no data or on a fault |
| `Webhook.NoDataIffFalsyPayload` | custom_components/plex_webhooks/__init__.py:53-56 | the handler ends silently if and only if the extracted payload is falsy |
| `Webhook.PublishedIff` | custom_components/plex_webhooks/__init__.py:53-85 | the handler publishes if and only if the payload is a non-empty dictionary accepted by normalisation, and it publishes the normalised dictionary |
| `Webhook.NoJsonPartFiresNothing` | custom_components/plex_webhooks/__init__.py:20-56 | a multipart request without any JSON part whose reader ends cleanly fires nothing |
| `Webhook.EmptyJsonPartFiresNothing` | custom_components/plex_webhooks/__init__.py:40-56 | a first JSON part holding `{}` fires nothing, whatever follows it |
| `Webhook.MultipartPlaybackPublished` | custom_components/plex_webhooks/__init__.py:40-80 | a playback event in the first JSON part is published as PLAYING or STOPPED carrying the player's uuid |
| `Webhook.PlainJsonBodyNormalized` | custom_components/plex_webhooks/__init__.py:46-85 | a non-multipart request with a non-empty JSON object body is normalised by the same rules |

## Left out

- `async_setup_entry` (`__init__.py:87-93`) and `config_flow.py`: webhook registration and the configuration form. They are glue over Home Assistant APIs with no logic of their own.
- Multipart parsing and JSON decoding are aiohttp and `json` library calls. They are modelled by their outcomes: a list of parts, each with a header map and a decode result, and a decode result for the whole body. These outcomes are independent inputs, so the model does not capture that the fallback decode reads whatever of the body stream multipart reading left unread.
- Header lookup is case-insensitive in aiohttp. The model's header maps are keyed by the canonical name `Content-Type`.
- JSON numbers are modelled as mathematical reals. The non-standard `NaN` and `Infinity` literals that Python's decoder accepts are not modelled.
- `const.py` is not part of this model. The bus event type `EVENT` is passed in as the `eventType` parameter, and the unused `webhook_id` argument is dropped.
- `async`/`await` and the event bus internals. The bus is an append-only log of fired events.
- Logging calls only produce diagnostics and are not modelled. So are the unused `requests`, `json` and `cv` imports.
- Exceptions are not distinguished beyond `KeyError`, `TypeError` and a failing whole-body decode. A failing whole-body decode escapes the handler as in the code; the handler has no "bad request" answer.
