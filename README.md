# trytond-async, modelled in Dafny

trytond-async lets a Tryton model method run later on a Celery worker.

- **Deferring a call.** A method decorated with `task` is deferred when it is called with `_defer_=True`. `Async.apply_async` defers any model method the same way.
- **Building the payload.** `Async.build_payload` builds a payload from the call:
  - the model name;
  - the active record, if any;
  - the method name;
  - the positional and keyword arguments;
  - a copy of the transaction context.
- **Sending it.** The payload is serialised to JSON by an encoder whose `default` writes non-JSON values as dicts tagged with `__class__`. These values are:
  - datetimes, dates, times and timedeltas;
  - bytearrays, written as base64 (a Python 2 `str` is written by `json` itself, as text);
  - Decimals, written as their text;
  - records, written as their `repr`.

  The payload is then sent as an `execute` task, together with the transaction's database and user.
- **On the worker.** `execute` does the following:
  1. It initialises the database's pool the first time it sees that database, and cleans its cache.
  2. It deserialises the payload. The JSON object hook turns tagged dicts back into values.
  3. It runs the method under the payload's context.
  4. It ends the transaction:
     - commit when the method returns;
     - rollback and retry when the method raises `RetryWithDelay`, after the delay that exception carries;
     - rollback and retry when the method raises `DatabaseOperationalError`, after the default delay of `execute`;
     - rollback and re-raise for any other exception.
- **Test mode.** In test mode, nothing is sent. The call is made at once, and its value is wrapped in a `MockResult`.

## Modules

| File | Module | Contents |
|---|---|---|
| `wrappers.dfy` | `Wrappers` | `Option` and `Result`. A Python exception is a `Failure`. |
| `values.dfy` | `Values` | Python values, JSON values, the protocol's exceptions, truthiness, hashability, and dicts as association lists. |
| `digits.dfy` | `Digits` | The digit text of integers. |
| `temporal.dfy` | `Temporal` | The naive `datetime` types, with their constructors' range checks. |
| `base64.dfy` | `Base64` | `encodestring`, and `decodestring` as `binascii.a2b_base64` reads it. |
| `decimal_text.dfy` | `DecimalText` | `str(Decimal)` and `Decimal(text)`. |
| `codecs.dfy` | `Codecs` | The built-in encoder and decoder lambdas. |
| `serialization.dfy` | `Serialization` | The two registries as classes, `register`, the object hook, `default`, `json.dumps` and `json.loads`. |
| `round_trip.dfy` | `RoundTrip` | The round trip of a payload value through JSON. |
| `mock_result.dfy` | `MockResults` | `MockResult`. |
| `async.dfy` | `Async` | `build_payload`, `execute_payload`, `serialize_payload`, `deserialize_payload`, `apply_async` against a `Broker` class, and `task.__call__`. |
| `tasks.dfy` | `Tasks` | `RetryWithDelay`, the `try` statement of `execute`, and the worker as a `Worker` class. |

Outside world:

- **The model code** is an abstract `Invoker`: a function from the call made to its result and its database writes.
- **The Celery broker** is a queue of messages.
- **Test mode, the transaction and the mock's uuid text** are parameters.

## Model

| member | source | states |
|---|---|---|
| Serialization.DecoderRegistry.Register | serialization.py:23-26 | Registering a tag that is already registered fails with `AssertionError` and leaves the registry unchanged. Otherwise the decoder is added under the tag. |
| Serialization.EncoderRegistry.Register | serialization.py:77-80 | Registering a type that is already registered fails with `AssertionError` and leaves the registry unchanged. Otherwise the encoder is added under the type. |
| Serialization.RegisterBuiltinDecoders | serialization.py:33-65 | The module's seven decoder registrations, made in order, each succeed. Together they give the registry of built-in decoders. |
| Serialization.DecodersInRegistrationOrder | serialization.py:33-65 | The registry built in registration order equals the one keyed by tag. |
| Serialization.BuiltinDecoderOfTag | serialization.py:33-65 | Every codec's decoder is registered under the tag its encoder writes. |
| Serialization.RegisterBuiltinEncoders | serialization.py:93-145 | The module's eight encoder registrations, made in order, each succeed. `bytes` and `bytearray` share one encoder. |
| Serialization.EncodersInRegistrationOrder | serialization.py:93-145 | The encoder registry built in registration order equals the one keyed by type. |
| Serialization.BuiltinEncoderOfType | serialization.py:93-145 | Every built-in type maps to its codec's encoder. |
| Serialization.CodecOfTag | serialization.py:33-65 | The codec registered under a tag writes that same tag. |
| Serialization.Hook | serialization.py:28-31 | `JSONDecoder.__call__`. An unhashable `__class__` value raises `TypeError`, since the membership test hashes it. A dict whose `__class__` is a registered tag goes to that tag's decoder. Any other dict is returned unchanged. |
| Serialization.HookCases | serialization.py:28-31 | Every dict is passed through, decoded, or refused as unhashable. A passed-through dict is never tagged, and a tagged one has a hashable tag. |
| Serialization.HookRejectsListTag | serialization.py:29 | `{"__class__": []}` raises `TypeError` in the hook. |
| Serialization.HookPassthrough | serialization.py:28-31 | A dict with no `__class__` key, or with a string tag that is not registered, comes back unchanged. |
| Serialization.Default | serialization.py:82-90 | Every record goes to the `Model` encoder, raising `KeyError` when none is registered. Any other value goes to the encoder of its exact type. An unregistered type raises `TypeError`. |
| Serialization.RecordsUseModelEncoder | serialization.py:83-84 | A record uses the `Model` encoder even when its own class has an encoder. |
| Serialization.UnregisteredClassRefused | serialization.py:86-90 | An instance of an unregistered class is refused with `TypeError`. |
| Serialization.DecimalDefault | serialization.py:72-75 | With `use_decimal` off, `default` hands a Decimal to the Decimal codec. |
| Serialization.DecimalUsesCodec | serialization.py:72-75 | A Decimal is written as the dict its codec makes, not as a JSON number. |
| Serialization.DumpsViaDefault | serialization.py:82-90 | A value JSON has no form for is written as what `default` returns for it. A Python 2 `str` is native, so it never reaches `default`. |
| Serialization.Dumps | serialization.py:68-90 | `json.dumps(v, cls=JSONEncoder)`. A value JSON has no form for fails when `default` may not be called. A Python 2 `str` is written natively, as `DumpsByteString` says. |
| Serialization.DumpsByteString | serialization.py:132 | A Python 2 `str` is written as a JSON string of the same length exactly when it is ASCII. The `bytes` encoder is never reached. |
| Serialization.DumpsArrayShape | serialization.py:68-90 | A list or tuple is written as a JSON array with one item per element. |
| Serialization.DumpsObjectKeys | serialization.py:68-90 | A dict is written as a JSON object with the same keys, in the same order. |
| Serialization.Loads | serialization.py:28-31 | `json.loads(j, object_hook=JSONDecoder())`. A JSON string is read back as that text. An array is read as a list of the same length. Only an array or an object is read back as a list or a dict. |
| Codecs.DecodeDateTime | serialization.py:33-39 | Whatever it accepts becomes a datetime that passes the constructor's range checks. |
| Codecs.EncodeDateTime | serialization.py:93-104 | The datetime encoder applies exactly to datetimes, and writes the tag `datetime`. |
| Codecs.DecodeDate | serialization.py:40-43 | Whatever it accepts becomes a valid date. |
| Codecs.EncodeDate | serialization.py:105-112 | The date encoder applies exactly to dates, and writes the tag `date`. |
| Codecs.DecodeTime | serialization.py:44-49 | Whatever it accepts becomes a valid time. |
| Codecs.EncodeTime | serialization.py:113-121 | The time encoder applies exactly to times, and writes the tag `time`. |
| Codecs.DecodeTimedelta | serialization.py:50-53 | Whatever it accepts becomes a timedelta within the range of days. |
| Codecs.EncodeTimedelta | serialization.py:122-127 | The timedelta encoder applies exactly to timedeltas. It writes the tag `timedelta` and `total_seconds()` under `seconds`. |
| Codecs.DecodeBytes | serialization.py:56-59 | Whatever it accepts becomes a `bytearray`, the cast Python 2 selects. |
| Codecs.EncodeBytes | serialization.py:128-133 | The bytes encoder applies exactly to byte strings and bytearrays. It writes the tag `bytes` and the `encodestring` text under `base64`. |
| Codecs.DecodeDecimal | serialization.py:60-62 | Whatever it accepts becomes a Decimal. |
| Codecs.EncodeDecimal | serialization.py:134-139 | The Decimal encoder applies exactly to Decimals. It writes the tag `Decimal` and `str(o)` under `decimal`. |
| Codecs.ParseRecordRepr | serialization.py:63-65 | A model name read out of a repr text has no quote in it. |
| Codecs.DecodeModel | serialization.py:63-65 | Whatever it accepts becomes a record whose model name has no quote. |
| Codecs.EncodeModel | serialization.py:140-145 | The Model encoder applies exactly to records. It writes the tag `Model` and the record's `repr` under `repr`. |
| Codecs.DateTimeRoundTrip | serialization.py:33-104 | The datetime encoder followed by its decoder gives back every valid naive datetime exactly. |
| Codecs.DateRoundTrip | serialization.py:40-112 | The date codec gives back every valid date. |
| Codecs.TimeRoundTrip | serialization.py:44-121 | The time codec gives back every valid naive time. |
| Codecs.TimedeltaRoundTrip | serialization.py:50-127 | `total_seconds` followed by `timedelta(seconds=...)` gives back every timedelta. |
| Codecs.BytesRoundTrip | serialization.py:56-133 | Both bytes and a bytearray come back as a bytearray with the same content. |
| Codecs.DecimalRoundTrip | serialization.py:60-139 | A Decimal comes back with the same sign, coefficient and exponent. |
| Codecs.RecordReprRoundTrip | serialization.py:63-145 | Parsing a record's repr gives back its model and id, for model names without quotes. |
| Codecs.ModelRoundTrip | serialization.py:63-145 | A record written by the `Model` encoder is fetched again by the `Model` decoder. |
| Codecs.CodecKeysDistinct | serialization.py:93-145 | Each encoder writes distinct field keys, none of them `__class__`. |
| Base64.DecodeEncodeLines | serialization.py:56-131 | `decodestring(encodestring(b)) == b`. |
| Base64.LineShape | serialization.py:128-131 | `encodestring` writes lines of at most 76 characters, all but the last exactly 76, each ending in a newline. |
| Base64.A2bEncode | serialization.py:56-58 | From any point in its input, `a2b_base64` reads the plain encoding of some bytes back as those bytes, after what it has already written. |
| Base64.TrailingPadSkipped | serialization.py:56-58 | A stray `=` after whole groups is skipped, so the text still decodes to the same bytes. |
| Base64.PadSequenceEnds | serialization.py:56-58 | A pad sequence ends the input: whatever follows the encoding of one byte is ignored. |
| Base64.EncodeLines | serialization.py:128-131 | `encodestring` gives the empty text exactly for no bytes. Otherwise its text ends in a newline. |
| Base64.Decode | serialization.py:56-58 | `decodestring`. Every four characters kept give at most three bytes. A text without base64 characters decodes to no bytes. |
| Base64.FilterEncodeLines | serialization.py:56-58 | Dropping the line breaks of `encodestring`'s output leaves the plain encoding. |
| DecimalText.ParseToText | serialization.py:60-139 | `Decimal(str(d))` has the same sign, coefficient and exponent as `d`, for every Decimal, including infinities and NaNs. (This is structural equality, not Python `==`, under which a NaN is never equal to itself.) |
| DecimalText.ParseFiniteText | serialization.py:60-139 | Each of the plain and scientific forms `str` writes reads back as the same finite Decimal. |
| DecimalText.ToText | serialization.py:134-139 | `str(d)` starts with a minus sign exactly when `d` is negative. After the sign comes a digit exactly when `d` is finite. |
| DecimalText.Parse | serialization.py:60-62 | `Decimal(text)` is negative exactly when the text starts with `-`. The empty text is refused. |
| Temporal.TotalSecondsRoundTrip | serialization.py:50-127 | `timedelta(seconds=td.total_seconds()) == td`, with the seconds carried exactly. |
| Temporal.TimedeltaFromSeconds | serialization.py:50-53 | `timedelta(seconds=x)` exists exactly when `x` rounds to microseconds within the range of days. Its microseconds lie within half a microsecond of `x`. |
| Temporal.CheckDate | serialization.py:40-43 | The range checks of `date()`: the result exists exactly when the date is valid, and its fields are the arguments. The year is checked first, then the month, then the day, each with its own `ValueError`. |
| Temporal.CheckTime | serialization.py:44-49 | The range checks of `time()`: the result exists exactly when the time is valid, and its fields are the arguments. The hour is checked first, then the minute, the second and the microsecond, each with its own `ValueError`. |
| Temporal.CheckDateTime | serialization.py:33-39 | The date fields are checked first, then the time fields. |
| Digits.NatStringRoundTrip | serialization.py:134-139 | The digit text of a natural number reads back as that number. |
| RoundTrip.EncoderWritesDecoderFields | serialization.py:33-145 | Each built-in encoder writes exactly the tag, plus the fields its tag's decoder reads, as JSON scalars. |
| RoundTrip.DefaultUsesCodec | serialization.py:82-90 | `default` hands each encodable value to its type's codec. |
| RoundTrip.DecoderReadsOnlyItsFields | serialization.py:33-65 | A decoder's result depends only on its own fields. |
| RoundTrip.DecoderNeedsEachField | serialization.py:33-65 | A decoder raises a `KeyError` when any one of its fields is missing. |
| RoundTrip.TaggedRoundTrip | serialization.py:28-90 | With any registries: a value that `default` turns into a flat tagged dict comes back as that tag's decoder's result. A `str` is native, so it is never such a value. |
| RoundTrip.BuiltinCodecRoundTrip | serialization.py:33-145 | Every transportable value that `default` hands to a built-in codec comes back as its decoded form. A `str` is not among them. |
| RoundTrip.DictOfRoundTrips | serialization.py:28-31 | With any registries: a dict whose values each come back, and which the hook passes through once decoded, comes back as the dict of those values. |
| RoundTrip.PayloadRoundTrip | serialization.py:28-145 | `loads(dumps(v)) == Decoded(v)` for every transportable value. Tuples come back as lists, and a `str` as its text. A dict whose `__class__` value is unhashable or a registered tag is not transportable. |
| RoundTrip.ByteStringRoundTrip | async.py:195-218 | With any registries: an ASCII `str` is written as a JSON string and read back as the same text. It never reaches `default` or the hook. |
| RoundTrip.DecodedIdentity | serialization.py:28-145 | A value without tuples or `str` values comes back exactly. |
| MockResults.NewMockResult | mock_result.py:9-11 | The new mock carries the given uuid text. |
| MockResults.GetReturnsStored | mock_result.py:9-16 | `get` and `wait` return the value the mock was built with. |
| MockResults.GetIgnoresArguments | mock_result.py:13-16 | `get` ignores its arguments, and `wait` is the same method. |
| MockResults.Get | mock_result.py:13-14 | `get` returns the stored result, whatever its arguments. |
| MockResults.Wait | mock_result.py:16 | `wait` is `get`: it returns the stored result. |
| Async.ModelNameOf | async.py:114-122 | An active record's model wins over the `model` argument. A class gives its name. Without either, the model name is `None`. |
| Async.ArgsOrEmpty | async.py:124 | A false `args` becomes `[]`. A true one is kept. |
| Async.KwargsOrEmpty | async.py:125 | A false `kwargs` becomes `{}`. A true one is kept. |
| Async.BuildPayload | async.py:95-145 | In test mode, the call is made at once: its failure is raised, and its value is returned in a `MockResult`. Outside test mode, without a transaction, it fails. Otherwise the result is the six-key payload, holding the model name, instance, method name, defaulted arguments and context. |
| Async.PayloadDict | async.py:138-145 | The payload has exactly the six keys, each distinct and none `__class__`, each holding its value. |
| Async.Item | async.py:84-90 | A missing key raises `KeyError`, and a non-dict payload raises `TypeError`. |
| Async.ReadPayload | async.py:84-90 | The five entries are read in order. The read succeeds exactly when every lookup succeeds. Otherwise it fails with a `KeyError` or a `TypeError`. |
| Async.ExecutePayload | async.py:77-93 | A payload that is not a dict raises `TypeError`, and one without `model_name` raises `KeyError`. A payload that cannot be read fails without writes. |
| Async.SerializePayload | async.py:194-199 | A payload that serialises is written as a JSON object with the payload's keys, in order. |
| Async.DeserializePayload | async.py:213-218 | Only a JSON object is read back as a dict. A JSON string is read back as its text. |
| Async.ExecutesPayloadDict | async.py:77-93 | Executing a payload dict calls the named method with its arguments: on the instance when that is true, on the model otherwise. |
| Async.ExecuteBuiltPayload | async.py:77-145 | A payload built outside test mode, executed as it is, makes the call that test mode makes at once. |
| Async.DecodedCallIdentity | async.py:91-93 | A call whose parts decode to themselves is made unchanged after the trip. A tuple of arguments becomes a list, which unpacks the same way. |
| Async.PayloadDictTransportable | async.py:138-145 | The payload dict can travel when everything it carries can. |
| Async.PayloadDictArrives | async.py:194-218 | `deserialize_payload(serialize_payload(p))` is the payload dict of the decoded values. |
| Async.DeferredPayloadArrives | async.py:95-218 | A payload built from transportable arguments arrives as the payload of the decoded call. |
| Async.Broker.Enqueue | async.py:175-184 | The message is appended to the queue, and its position is returned. |
| Async.Decide | async.py:169-184 | A mock result is returned only in test mode. Outside test mode, without a transaction, it raises `AttributeError`. With one, the payload is serialised and sent with the database, the user and the options, or the serialisation error is raised. In test mode, a build failure is raised. |
| Async.DecideSends | async.py:169-184 | A built payload that serialises is sent as exactly one message, holding the database, the user and that payload's JSON. |
| Async.ApplyAsync | async.py:147-184 | Exactly the messages the decision sends are appended to the queue. The result is the mock, the queued task's position, or the failure. |
| Async.TaskCall | async.py:43-68 | Without `_defer_`, or with it set to `False`, the method is called now and nothing is queued. A deferred call on an unbound function fails with `AttributeError`. Otherwise the call goes to `apply_async`, with the bound model's name and the active record, and with `_defer_` removed. |
| Tasks.NewRetryWithDelay | tasks.py:32-34 | The delay given, or 5 seconds by default. |
| Tasks.Route | tasks.py:61-81 | The run commits exactly when the method returns, keeping its writes. Otherwise it rolls back with no writes and does not return. It never ends without an explicit commit or rollback. |
| Tasks.RunMessage | tasks.py:52-81 | The run ends without a commit or a rollback exactly when the message does not decode, and then raises that error. It commits only when the message decodes and its context is set. Writes persist only on a commit. |
| Tasks.PayloadContext | tasks.py:62 | A missing context or a non-dict payload raises. `None` leaves the context empty. A dict becomes the context. |
| Tasks.Worker.Prepare | tasks.py:43-50 | A database's pool is initialised only the first time that database is seen. Its cache is cleaned every time. |
| Tasks.Worker.Execute | tasks.py:38-81 | The worker performs the preparation, runs the message, and logs the commit or rollback. Only a commit's writes persist, tagged with the database. |
| Tasks.OneCommitOrRollback | tasks.py:61-81 | Once the message decodes, the run ends in exactly one commit or rollback, and it commits exactly when the method returns. |
| Tasks.WritesPersistOnlyOnReturn | tasks.py:76-81 | Writes persist only when the method returns. |
| Tasks.UndecodableMessageRaises | tasks.py:59 | A message that does not decode raises its error, with neither a commit nor a rollback. |
| Tasks.RetryWithDelayRetries | tasks.py:64-69 | `RetryWithDelay` is retried after its own delay (5 seconds by default), and its writes are dropped. |
| Tasks.OperationalErrorRetries | tasks.py:70-75 | `DatabaseOperationalError` is retried after the default delay of `execute` of 2 seconds. |
| Tasks.OtherErrorsRaise | tasks.py:76-78 | Any other exception is rolled back and raised again. |
| Tasks.MissingContextRaises | tasks.py:62 | A payload without a context is rolled back and raised. |
| Tasks.RunArrivedPayload | tasks.py:59-81 | A message that arrives as a payload dict runs the call it names, under its context. |
| Tasks.DeferredCallIsSent | async.py:147-184 | A transportable call made outside test mode, in a transaction, is sent as one message with the database and user. |
| Tasks.DeferredCallRunsInWorker | tasks.py:37-81 | The message `apply_async` sends makes the worker run the decoded planned call, under the decoded context, and route its outcome. |
| Tasks.DeferredCallMatchesTestMode | async.py:127-136 | For a call whose parts decode to themselves, the worker returns `v` exactly when test mode returns a mock holding `v`. It retries or raises exactly when test mode raises. |

## Left out

- **Model code.** Attribute lookup, `Pool().get` of a model and argument unpacking all happen inside the abstract `Invoker`. Calling an unknown model or method is whatever the `Invoker` returns.
- **`MethodArg` and `ModelArg`.** These carry a name. A method or model object without `__name__`, and its `AttributeError`, are not modelled.
- **The Celery broker, kombu and the worker loop.** These are a message queue. `max_retries`, Celery options and `ignore_result` are not modelled. A retry is its countdown and cause.
- **`simplejson`** (serialization.py:10-13). The module imports `simplejson` first and falls back to the standard `json` only on `ImportError`. The model follows the standard `json`, which reads every JSON string back as text (`VStr`). Under simplejson, an ASCII-only JSON string in a `str` document comes back as a `str` instead. Python 2's `==` does not tell the two apart, but `Loads`, `DeserializePayload`, `Decoded` and `PayloadRoundTrip` state the standard `json`'s result.
- **`register_serializer`** (serialization.py:148-162). It registers the same `dumps` and `loads` with kombu. The two registries are parameters of `Dumps` and `Loads`.
- **Overriding `get_json_encoder` and `get_json_decoder`.** The registries are parameters instead.
- **`uuid4`.** The mock's id text is a parameter.
- **The `TEST_MODE` setting, the transaction's database, user and context.** These are parameters (`Env`). A context outside a transaction is taken as empty.
- **Transaction and Pool internals.** The worker keeps only the actions it logs and the writes that persist.
- **`Codecs.DecodeModel`.** It evaluates only the texts a record's repr writes. `eval` of any other text is refused rather than evaluated.
- **Floats.** They are exact reals. Binary rounding, and the 2^53 limit on `total_seconds`, are not modelled.
- **`Decimal(text)`.** Whitespace stripping, underscores, NaN payloads and sNaN are not modelled. A Decimal built from a float or a tuple is reported as `NotModelled`.
- **`decodestring`.** The pad rules of `binascii.a2b_base64` are modelled. Characters outside the alphabet are dropped, non-ASCII ones included: `.encode('utf-8')` turns them into bytes above 127, which `a2b_base64` skips. Its one error, "Incorrect padding", is `Base64Error`, without the message text.
- **The `bytes` encoder** (serialization.py:132). In Python 2 `bytes` is `str`, which `json` writes as text, so `default` never reaches this registration. It is registered, and `Codecs.BytesRoundTrip` states its codec, but `Dumps` never uses it.
- Serialization.Dumps: a `str` holding non-ASCII bytes is reported as `NotModelled`. `json` would decode it as UTF-8, or raise `UnicodeDecodeError`.
- **Unsaved records.** A record is modelled only as a saved one: `VRecord` carries its model name and database id. A record without an id, its `repr` and the `eval` of that `repr` are not modelled, although the `Model` encoder and `build_payload` accept one.
- **Time zones.** Only naive datetimes and times are modelled. A `tzinfo` is never written by the encoders either.
- **Encoder output.** What a custom encoder returns is written without calling `default` again.
- **Dicts.** They are association lists with string keys, in writing order. Non-string keys, and Python 2's unordered dicts, are not modelled, since no property depends on the order.
- **`assert` under `python -O`.** This is not modelled: `register` always checks.
- **`Tasks.PayloadContext`.** A context that is neither `None` nor a dict is reported as `NotModelled`, not as what `set_context` does with it. Its `dict.update` raises a `TypeError` or `ValueError` for most such values, but applies an iterable of key-value pairs as an update.
- Codecs.DecodeDateTime, Codecs.DecodeDate, Codecs.DecodeTime, Codecs.DecodeTimedelta, Codecs.DecodeBytes, Codecs.DecodeDecimal: these contracts state only the kind and validity of what a decoder accepts. Exactly what comes back is stated by the round-trip lemmas, and the `KeyError` for a missing field by `RoundTrip.DecoderNeedsEachField`.
- Codecs.DecodeModel: this contract states only the kind of what it accepts. What comes back is stated by `Codecs.ModelRoundTrip`.
