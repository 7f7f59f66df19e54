# NotiCast message dispatch, modelled in Dafny

This project models the message Lambda of NotiCast (`lambda_function.py`). An
HTTP request names a target identifier (an `arn`) and a text. The handler:

- resolves the target to a device or to a group of devices;
- has the text synthesized to speech and stores the MP3 under a fresh key;
- presigns a link to that key;
- publishes `{message, uri}` to the broadcast topic `noticast-messages` and
  then to every resolved device's own topic;
- returns the payload extended with the device identifiers and the `is_group`
  flag.

Modules:

- `Wrappers` (`wrappers.dfy`): the `Option` type.
- `Endpoints` (`endpoints.dfy`): the device directory, as two sequences in
  the store's native order. `FirstMatch` stands for `query(...).filter_by(arn=...).first()`.
  `Resolve` is the resolution rule, and lemmas state its cases.
- `Dispatch` (`dispatch.dfy`): `send_message`, as class `Dispatcher`.
  - Its state is `trace`, the ordered list of side effects: object writes
    (`Put`) and publish calls (`Publish`).
  - `SendMessage` is split along the source's three folded blocks: resolution,
    the store, and the publish loop.
  - Each part is proved against a specification function. `SendEffects` is
    the effects of one call, and `SendResponse` is its result.
  - Lemmas state what those two functions promise.
- `Handler` (`handler.dfy`): `lambda_handler` and `http_error_from_exception`.
  - `Route` is the pure decision the handler takes before any side effect.
  - `LambdaHandler` carries that decision out on a `Dispatcher`.

Outside collaborators are parameters:

- `synthesize: SpeechRequest -> Option<Bytes>` stands for Polly. `None`
  means the response has no `AudioStream`.
- `presign: PresignRequest -> string` stands for `generate_presigned_url`.
- `uuid: string` stands for `str(uuid.uuid4())`.
- `parse: string -> Parsed` stands for `json.loads`.
- The bucket name and the directory contents are constructor arguments of
  `Dispatcher`.

Behaviour of the code that the model keeps:

- A target is compared with the stored identifiers for equality (see
  `Endpoints.FirstMatch` under "Left out" for the database collation).
- An unknown target is not an error. It resolves to no devices, and the
  message is still published once, to the broadcast topic.
- Every call publishes. The returned payload carries `message`, `uri`,
  `devices` and `is_group`, and nothing else.
- When several records share an identifier, the first in the store's order
  wins, as `.first()` does.

## Model

| member | source | states |
|---|---|---|
| `Endpoints.FirstMatch` | lambda_function.py:72 | the result is the position of the first record whose `arn` equals the identifier exactly, and there is none exactly when no record matches |
| `Endpoints.FirstMatchUnique` | lambda_function.py:72 | any position that is the first exact match is the one `.first()` returns |
| `Endpoints.ResolveDevice` | lambda_function.py:71-75 | if a device has exactly the identifier, the resolution is that first device alone, with `is_group` false |
| `Endpoints.ResolveIgnoresGroups` | lambda_function.py:72-78 | when a device matches, the group table does not affect the resolution |
| `Endpoints.ResolveGroup` | lambda_function.py:76-81 | with no device match and a group match, the resolution is the group's full member list in order, with `is_group` true |
| `Endpoints.ResolveUnknown` | lambda_function.py:68-81 | with no device and no group match, there is no error: no devices and `is_group` false |
| `Endpoints.ResolveIsGroupIff` | lambda_function.py:71-81 | `is_group` holds exactly when no device but some group carries the identifier |
| `Endpoints.ResolveNotGroup` | lambda_function.py:68-81 | a non-group resolution has at most one device, has one exactly when a device matches, and every device in it carries the identifier |
| `Dispatch.Arns` | lambda_function.py:119 | `[d.arn for d in devices]`: same length, and the i-th identifier is the i-th device's |
| `Dispatch.ObjectKeyInjective` | lambda_function.py:90 | distinct UUIDs give distinct `<uuid>.mp3` keys, so a fresh UUID names an object no earlier call wrote |
| `Dispatch.DevicePublishes` | lambda_function.py:114-116 | one publish per device, in order, with topic = that device's arn, the shared payload and qos 1 |
| `Dispatch.DevicePublishesSnoc` | lambda_function.py:114-116 | each loop iteration adds exactly the publish for the next device |
| `Dispatch.DevicePublishesTopics` | lambda_function.py:114-116 | the per-device publishes go to exactly the device arns in resolution order and write no object |
| `Dispatch.FanOutShape` | lambda_function.py:107-116 | exactly `1 + \|devices\|` publishes; the first to `noticast-messages`, then each device's arn in order; all with the same payload and qos 1; no object written |
| `Dispatch.SendEffectsStore` | lambda_function.py:85-106 | an object is written under `<uuid>.mp3` exactly when synthesis produced audio, before any publish; every published `uri` is the presigned link for that key, written or not |
| `Dispatch.SendEffectsPayload` | lambda_function.py:100-116 | every publish of one call carries the same payload, the text with the presigned link for `<uuid>.mp3`, at qos 1 |
| `Dispatch.SendEffectsTopics` | lambda_function.py:68-81 | the publishes of one call go to `noticast-messages` and then to the resolved devices' arns, in order |
| `Dispatch.UnknownTargetBroadcastOnly` | lambda_function.py:68-81 | an unknown target raises no error: exactly one publish, to `noticast-messages`; the response lists no devices and `is_group` is false |
| `Dispatch.DeviceTargetPublishes` | lambda_function.py:72-75 | a device target gives two publishes, to the broadcast topic and then to the device; the response lists just that device |
| `Dispatch.GroupTargetPublishes` | lambda_function.py:77-81 | a group target gives `1 + \|members\|` publishes, broadcast first and then the members in order; the response lists the members and sets `is_group` |
| `Dispatch.SendResponseTarget` | lambda_function.py:100-121 | the result carries the text and the presigned link for `<uuid>.mp3`; unless the target named a group, it lists exactly the target when a device carries that identifier and nothing otherwise |
| `Dispatch.Dispatcher.ResolveTarget` | lambda_function.py:68-82 | the `devices` list and `is_group` flag built with `append`/`extend` are the resolution of the target |
| `Dispatch.Dispatcher.PublishNotification` | lambda_function.py:107-116 | the trace grows by the broadcast publish and then one publish per device, with only the topic changing between calls |
| `Dispatch.Dispatcher.SendMessage` | lambda_function.py:67-121 | the trace grows by exactly the effects of one call: the optional store write, then the fan-out. The returned value is the extended payload |
| `Handler.HttpErrorInjective` | lambda_function.py:34-36 | different caught exceptions give different error responses |
| `Handler.Route` | lambda_function.py:44-64 | `send_message` is called exactly when the body is a string that decodes to an object with string `target` and `message` (and a string `voice_id` if present). The handler returns nothing exactly when the event has no `"body"` key. Every response it returns without sending has status 400 |
| `Handler.RouteNullBody` | lambda_function.py:45-47 | a `"body"` key holding `null` makes `json.loads` raise a `TypeError` that the handler does not catch |
| `Handler.RouteNonObject` | lambda_function.py:47-48 | a body that decodes to JSON other than an object raises an uncaught `TypeError` when it is indexed by key |
| `Handler.RouteDecodeError` | lambda_function.py:47-57 | a body that is not valid JSON gives 400 with the decoder's message and type `JSONDecodeError` |
| `Handler.RouteMissingKey` | lambda_function.py:48-59 | a missing `target` gives 400 `KeyError('target')`. A present `target` with a missing `message` gives 400 `KeyError('message')` |
| `Handler.RouteSend` | lambda_function.py:48-54 | a well-formed request is sent with its `target` and `message`, and `voice_id` defaults to `"Salli"` |
| `Handler.LambdaHandler` | lambda_function.py:44-64 | a sent request returns 200 wrapping the `send_message` result and appends exactly that call's effects. A decode error, a missing key, a body that cannot be decoded or indexed, or an event without a body leaves the trace unchanged, so nothing is stored or published |

## Left out

- The boto3 clients (Polly, S3 `put` and `generate_presigned_url`, IoT `publish`) are foreign network calls. They are parameters or entries in the effect trace. Their failures (exceptions raised by the AWS SDK, which the handler does not catch) are not modelled.
- Endpoints.FirstMatch: identifiers are compared with string equality. The database compares them with `=` under the column's collation, which in MySQL's defaults ignores case and may ignore trailing spaces; that comparison is not modelled.
- The SQLAlchemy engine, session and `rds_models` schema are external database plumbing. `rds_models` is not part of this model; the tables are sequences in native order.
- Environment-variable configuration and `uuid.uuid4()`: the bucket name and the UUID are inputs.
- JSON encoding and decoding: the published payload and the response bodies are datatypes standing for their `json.dumps` text. Decoding is the `parse` parameter.
- Handler.Route: a decoded object whose `target`, `message` or `voice_id` is present but is not a string ends in `OutsideModel`. The source passes such values on to the database query and to Polly, whose reaction is not modelled.
- Handler.LambdaHandler: for a request ending in `OutsideModel` the model stores and publishes nothing. In the source a non-string `target` (for example `null`, which the query renders as `arn IS NULL` and so matches nothing) still goes through `send_message`: synthesis, the store write when audio comes back, the broadcast publish and a 200 response.
- Handler.Route: a `"body"` value that is neither a string nor `null` (a dict passed by a direct invocation, say) makes `json.loads` raise an uncaught `TypeError`; `BodyValue` cannot represent such a body.
- Failures of the SQLAlchemy queries (connection loss, for example) are uncaught exceptions in the source and are not modelled.
- The `"Records"` mail path, `mail_error` and the `print` calls only print or return nothing. The model returns `ReturnedNone` for them.
- Concurrency: one invocation is sequential. Concurrent changes to the directory during a dispatch are not modelled.
