/** `trytond_async.async`: the `task` decorator that defers a model method
    call, and the `async.async` helper that builds the payload of a deferred
    call, serialises it, sends it to the broker and executes it again in the
    worker. */
module Async {
  import opened Wrappers
  import opened Values
  import opened Serialization
  import opened MockResults
  import opened RoundTrip
  import Codecs

  // ---------------------------------------------------------------------------
  // Calls of model methods
  // ---------------------------------------------------------------------------

  /** What a method is looked up on: a record (or any value given as
      `instance`), the class `Pool().get(model)` returns for a model name (any
      value, as read from a payload), or a plain function bound to nothing. */
  datatype Target = OnInstance(instance: Value) | OnModel(model: Value) | OnFunction

  /** One call `getattr(target, method)(*args, **kwargs)`, under a transaction
      context. */
  datatype Call = Call(context: Dict, target: Target, attribute: Value, args: Value, kwargs: Value)

  /** What a call does: its return value or exception, and the writes it makes
      in the transaction it runs in. */
  datatype Effect = Effect(result: Result<Value, Exception>, writes: seq<Value>)

  /** The model code being called, attribute lookup and argument unpacking
      included. It is outside this model. */
  type Invoker = Call -> Effect

  /** Python unpacks `*args` the same way from a list and from a tuple. */
  ghost predicate UnpacksSequences(invoke: Invoker) {
    forall context, target, attribute, items, kwargs ::
      invoke(Call(context, target, attribute, VTuple(items), kwargs)) ==
      invoke(Call(context, target, attribute, VList(items), kwargs))
  }

  /** The open transaction: its database name, its user and its context. */
  datatype Session = Session(database: string, user: nat, context: Dict)

  /** The caller's side: whether the Celery configuration sets `TEST_MODE`,
      the current transaction, if one was started, and the model code. */
  datatype Env = Env(testMode: bool, session: Option<Session>, invoke: Invoker)

  /** The context a call made now runs under; outside a transaction it is
      taken to be empty. */
  function CurrentContext(session: Option<Session>): Dict {
    if session.Some? then session.value.context else []
  }

  // ---------------------------------------------------------------------------
  // Async.build_payload
  // ---------------------------------------------------------------------------

  /** The `method` argument: a method name, or a method object named by its
      `__name__`. Either way only the name is used. */
  datatype MethodArg = MethodName(name: string) | MethodObject(name: string)

  /** The `model` argument: a model name, a model class named by its
      `__name__`, or a false value such as the default `None`. */
  datatype ModelArg = ModelName(name: string) | ModelClass(name: string) | NoModel

  /** The `model_name` of a payload: an active record's own model wins over
      the `model` argument; without either it is `None`. */
  function ModelNameOf(model: ModelArg, instance: Value): (r: Value)
    ensures r.VStr? || r.VNone?
    ensures instance.VRecord? ==> r == VStr(instance.model)
    ensures !instance.VRecord? && !model.NoModel? ==> r == VStr(model.name)
    ensures r.VNone? <==> !instance.VRecord? && model.NoModel?
  {
    if instance.VRecord? then VStr(instance.model)
    else
      match model
      case ModelName(name) => VStr(name)
      case ModelClass(name) => VStr(name)
      case NoModel => VNone
  }

  /** `args or []`: a false `args` (the default `None`, an empty tuple) becomes
      an empty list; any other value is kept. */
  function ArgsOrEmpty(args: Value): (r: Value)
    ensures Truthy(args) ==> r == args
    ensures !Truthy(args) ==> r == VList([])
  {
    if Truthy(args) then args else VList([])
  }

  /** `kwargs or {}`. */
  function KwargsOrEmpty(kwargs: Value): (r: Value)
    ensures Truthy(kwargs) ==> r == kwargs
    ensures !Truthy(kwargs) ==> r == VDict([])
  {
    if Truthy(kwargs) then kwargs else VDict([])
  }

  /** Where a call described by the build arguments goes: to the instance when
      it is true, else to the model registered under the model name. */
  function TargetOf(model: ModelArg, instance: Value): Target {
    if Truthy(instance) then OnInstance(instance) else OnModel(ModelNameOf(model, instance))
  }

  /** The call that `build_payload`'s arguments describe, made now. */
  function PlannedCall(env: Env, callee: MethodArg, model: ModelArg, instance: Value, args: Value, kwargs: Value): Call {
    Call(CurrentContext(env.session), TargetOf(model, instance), VStr(callee.name), ArgsOrEmpty(args), KwargsOrEmpty(kwargs))
  }

  /** The result of `build_payload`: a mock result in test mode, else the payload dict. */
  datatype Built = Mock(mock: MockResult) | Payload(entries: Dict)

  const PayloadKeys: seq<string> := ["model_name", "instance", "method_name", "args", "kwargs", "context"]

  /** `Async.build_payload`. In test mode the call is made at once and its
      return value wrapped in a `MockResult` (whose uuid text is `mockId`);
      otherwise the payload holds the names, the instance, the arguments and a
      copy of the transaction context, which needs a started transaction. */
  function BuildPayload(env: Env, mockId: string, callee: MethodArg, model: ModelArg, instance: Value, args: Value, kwargs: Value): (r: Result<Built, Exception>)
    ensures env.testMode ==>
              var effect := env.invoke(PlannedCall(env, callee, model, instance, args, kwargs));
              (effect.result.Failure? ==> r == Failure(effect.result.error)) &&
              (effect.result.Success? ==> r == Success(Mock(MockResult(mockId, effect.result.value))))
    ensures !env.testMode && env.session.None? ==> r.Failure? && r.error.AttributeError?
    ensures !env.testMode && env.session.Some? ==>
              r == Success(Payload(PayloadDict(ModelNameOf(model, instance), instance, VStr(callee.name), ArgsOrEmpty(args),
                                               KwargsOrEmpty(kwargs), VDict(env.session.value.context))))
    ensures r.Success? && r.value.Payload? ==> !env.testMode && env.session.Some?
  {
    var methodName := callee.name;
    var modelName := ModelNameOf(model, instance);
    var args' := ArgsOrEmpty(args);
    var kwargs' := KwargsOrEmpty(kwargs);
    if env.testMode then
      var target := if Truthy(instance) then OnInstance(instance) else OnModel(modelName);
      var result :- env.invoke(Call(CurrentContext(env.session), target, VStr(methodName), args', kwargs')).result;
      Success(Mock(NewMockResult(mockId, result)))
    else if env.session.None? then
      Failure(AttributeError("'NoneType' object has no attribute 'copy'"))
    else
      Success(Payload(PayloadDict(modelName, instance, VStr(methodName), args', kwargs', VDict(env.session.value.context))))
  }

  lemma PayloadKeysDistinct()
    ensures Codecs.DistinctStrings(PayloadKeys) && Codecs.ClassKey !in PayloadKeys
  {
  }

  /** The dict with the given keys and values, in that order. */
  function Entries(keys: seq<string>, vs: seq<Value>): (d: Dict)
    requires |keys| == |vs|
    ensures |d| == |keys| && forall i :: 0 <= i < |d| ==> d[i] == (keys[i], vs[i])
  {
    seq(|keys|, i requires 0 <= i < |keys| => (keys[i], vs[i]))
  }

  /** The payload dict literal, with its six keys in the order they are written. */
  function PayloadDict(modelName: Value, instance: Value, methodName: Value, args: Value, kwargs: Value, context: Value): (d: Dict)
    ensures Keys(d) == PayloadKeys && DistinctKeys(d) && Codecs.ClassKey !in Keys(d)
    ensures Lookup(d, "model_name") == Some(modelName) && Lookup(d, "instance") == Some(instance)
    ensures Lookup(d, "method_name") == Some(methodName) && Lookup(d, "args") == Some(args)
    ensures Lookup(d, "kwargs") == Some(kwargs) && Lookup(d, "context") == Some(context)
  {
    var d := Entries(PayloadKeys, [modelName, instance, methodName, args, kwargs, context]);
    KeysOfPairs(d, PayloadKeys);
    PayloadKeysDistinct();
    DistinctByIndex(d);
    LookupAt(d, 0, "model_name");
    LookupAt(d, 1, "instance");
    LookupAt(d, 2, "method_name");
    LookupAt(d, 3, "args");
    LookupAt(d, 4, "kwargs");
    LookupAt(d, 5, "context");
    d
  }

  // ---------------------------------------------------------------------------
  // Async.execute_payload
  // ---------------------------------------------------------------------------

  /** `payload[key]` on a value read from a message: a dict without the key
      raises `KeyError`, anything but a dict `TypeError`. */
  function Item(payload: Value, key: string): (r: Result<Value, Exception>)
    ensures payload.VDict? && Lookup(payload.entries, key).Some? ==> r == Success(Lookup(payload.entries, key).value)
    ensures payload.VDict? && Lookup(payload.entries, key).None? ==> r == Failure(KeyError(key))
    ensures !payload.VDict? ==> r.Failure? && r.error.TypeError?
  {
    if !payload.VDict? then Failure(TypeError("indices must be integers"))
    else
      match Lookup(payload.entries, key)
      case Some(v) => Success(v)
      case None => Failure(KeyError(key))
  }

  /** `Async.execute_payload` under `context`: the five entries are read in
      the order `model_name`, `method_name`, `instance`, `args`, `kwargs`, and
      the method is called on the instance when it is true, else on the model. */
  function ExecutePayload(payload: Value, context: Dict, invoke: Invoker): (r: Effect)
    ensures !payload.VDict? ==> r.result.Failure? && r.result.error.TypeError? && r.writes == []
    ensures payload.VDict? && "model_name" !in Keys(payload.entries) ==> r == Effect(Failure(KeyError("model_name")), [])
    ensures ReadPayload(payload).Failure? ==> r.result.Failure? && r.writes == []
  {
    var read := ReadPayload(payload);
    if read.Failure? then Effect(Failure(read.error), [])
    else
      var vs := read.value;
      var target := if Truthy(vs[2]) then OnInstance(vs[2]) else OnModel(vs[0]);
      invoke(Call(context, target, vs[1], vs[3], vs[4]))
  }

  /** The order `execute_payload` reads the payload in. */
  const ReadOrder: seq<string> := ["model_name", "method_name", "instance", "args", "kwargs"]

  /** The five entries of a payload in `ReadOrder`, or the first lookup that fails. */
  function ReadPayload(payload: Value): (r: Result<seq<Value>, Exception>)
    ensures r.Success? <==>
              Item(payload, "model_name").Success? && Item(payload, "method_name").Success? &&
              Item(payload, "instance").Success? && Item(payload, "args").Success? && Item(payload, "kwargs").Success?
    ensures r.Success? ==>
              r.value == [Item(payload, "model_name").value, Item(payload, "method_name").value,
                          Item(payload, "instance").value, Item(payload, "args").value, Item(payload, "kwargs").value]
    ensures r.Failure? ==> r.error.KeyError? || r.error.TypeError?
  {
    var model :- Item(payload, ReadOrder[0]);
    var attribute :- Item(payload, ReadOrder[1]);
    var instance :- Item(payload, ReadOrder[2]);
    var args :- Item(payload, ReadOrder[3]);
    var kwargs :- Item(payload, ReadOrder[4]);
    Success([model, attribute, instance, args, kwargs])
  }

  // ---------------------------------------------------------------------------
  // Async.serialize_payload / Async.deserialize_payload
  // ---------------------------------------------------------------------------

  /** `json.dumps(payload, cls=JSONEncoder)` with the encoder registry in force. */
  function SerializePayload(encoders: map<PyType, EncoderFn>, payload: Dict): (r: Result<Json, Exception>)
    ensures r.Success? ==> r.value.JObject? && Keys(r.value.members) == Keys(payload)
  {
    var written := Dumps(encoders, VDict(payload), true);
    if written.Success? then DumpsObjectKeys(encoders, VDict(payload), true); written else written
  }

  /** `json.loads(message, object_hook=JSONDecoder())` with the decoder registry in force. */
  function DeserializePayload(decoders: map<string, DecoderFn>, message: Json): (r: Result<Value, Exception>)
    ensures r.Success? && r.value.VDict? ==> message.JObject?
    ensures message.JString? ==> r == Success(VStr(message.s))
  {
    Loads(decoders, message)
  }

  // ---------------------------------------------------------------------------
  // What the worker receives
  // ---------------------------------------------------------------------------

  /** Executing the payload dict calls the method named in it with its
      arguments, on the instance when that is true, else on the model. */
  lemma ExecutesPayloadDict(modelName: Value, instance: Value, methodName: Value, args: Value, kwargs: Value,
                            context: Value, ctx: Dict, invoke: Invoker)
    ensures ExecutePayload(VDict(PayloadDict(modelName, instance, methodName, args, kwargs, context)), ctx, invoke) ==
            invoke(Call(ctx, if Truthy(instance) then OnInstance(instance) else OnModel(modelName), methodName, args, kwargs))
  {
    var payload := VDict(PayloadDict(modelName, instance, methodName, args, kwargs, context));
    assert ReadPayload(payload) == Success([modelName, methodName, instance, args, kwargs]);
  }

  /** A payload built outside test mode, executed as it is, makes the call that
      test mode makes at once. */
  lemma ExecuteBuiltPayload(env: Env, mockId: string, callee: MethodArg, model: ModelArg, instance: Value,
                            args: Value, kwargs: Value, invoke: Invoker)
    requires !env.testMode && env.session.Some?
    ensures var call := PlannedCall(env, callee, model, instance, args, kwargs);
      ExecutePayload(VDict(BuildPayload(env, mockId, callee, model, instance, args, kwargs).value.entries), call.context, invoke) ==
      invoke(call)
  {
    ExecutesPayloadDict(ModelNameOf(model, instance), instance, VStr(callee.name), ArgsOrEmpty(args), KwargsOrEmpty(kwargs),
                        VDict(env.session.value.context), CurrentContext(env.session), invoke);
  }

  /** Decoding keeps a value true or false: a tuple becomes a list of the same
      length, a byte string the text of the same length. */
  lemma TruthyDecoded(v: Value)
    ensures Truthy(Decoded(v)) == Truthy(v)
  {
  }

  /** A dict decodes value by value. */
  lemma DecodedEntriesOf(keys: seq<string>, vs: seq<Value>, ws: seq<Value>)
    requires |keys| == |vs| == |ws| && forall i :: 0 <= i < |vs| ==> ws[i] == Decoded(vs[i])
    ensures DecodedEntries(Entries(keys, vs)) == Entries(keys, ws)
  {
  }

  /** The payload dict decodes entry by entry. */
  lemma DecodedPayloadDict(modelName: Value, instance: Value, methodName: Value, args: Value, kwargs: Value, context: Value)
    ensures Decoded(VDict(PayloadDict(modelName, instance, methodName, args, kwargs, context))) ==
            VDict(PayloadDict(Decoded(modelName), Decoded(instance), Decoded(methodName), Decoded(args), Decoded(kwargs), Decoded(context)))
  {
    DecodedEntriesOf(PayloadKeys, [modelName, instance, methodName, args, kwargs, context],
                     [Decoded(modelName), Decoded(instance), Decoded(methodName), Decoded(args), Decoded(kwargs), Decoded(context)]);
  }

  /** A dict of transportable values under distinct keys other than the tag is transportable. */
  lemma EntriesTransportable(keys: seq<string>, vs: seq<Value>)
    requires |keys| == |vs| && Codecs.DistinctStrings(keys) && Codecs.ClassKey !in keys
    requires forall i :: 0 <= i < |vs| ==> Transportable(vs[i])
    ensures Transportable(VDict(Entries(keys, vs)))
  {
    var d := Entries(keys, vs);
    KeysOfPairs(d, keys);
    DistinctByIndex(d);
    DecodedKeys(d, DecodedEntries(d));
  }

  /** The payload dict is transportable when what it carries is. */
  lemma PayloadDictTransportable(modelName: Value, instance: Value, methodName: Value, args: Value, kwargs: Value, context: Value)
    requires Transportable(modelName) && Transportable(instance) && Transportable(methodName)
    requires Transportable(args) && Transportable(kwargs) && Transportable(context)
    ensures Transportable(VDict(PayloadDict(modelName, instance, methodName, args, kwargs, context)))
  {
    var vs := [modelName, instance, methodName, args, kwargs, context];
    assert forall i :: 0 <= i < |vs| ==> Transportable(vs[i]);
    PayloadKeysDistinct();
    EntriesTransportable(PayloadKeys, vs);
  }

  /** The call a deferred call makes in the worker: everything it carries
      comes back decoded. */
  function DecodedCall(call: Call): Call {
    var target :=
      match call.target
      case OnInstance(instance) => OnInstance(Decoded(instance))
      case OnModel(model) => OnModel(Decoded(model))
      case OnFunction => OnFunction;
    Call(DecodedEntries(call.context), target, Decoded(call.attribute), Decoded(call.args), Decoded(call.kwargs))
  }

  /** Positional arguments that come back as the same call arguments: values
      that decode to themselves, or a tuple of them (which comes back as a
      list, unpacked the same way). */
  predicate ExactArgs(args: Value) {
    ExactlyDecoded(args) || (args.VTuple? && forall i :: 0 <= i < |args.items| ==> ExactlyDecoded(args.items[i]))
  }

  /** A call whose context, instance, method name and arguments decode to
      themselves is made again unchanged in the worker. */
  lemma DecodedCallIdentity(call: Call, invoke: Invoker)
    requires UnpacksSequences(invoke)
    requires ExactlyDecoded(VDict(call.context)) && ExactlyDecoded(call.attribute) && ExactlyDecoded(call.kwargs)
    requires ExactArgs(call.args)
    requires call.target.OnInstance? ==> ExactlyDecoded(call.target.instance)
    requires call.target.OnModel? ==> ExactlyDecoded(call.target.model)
    ensures invoke(DecodedCall(call)) == invoke(call)
  {
    DecodedIdentity(VDict(call.context));
    assert DecodedEntries(call.context) == call.context;
    DecodedIdentity(call.attribute);
    DecodedIdentity(call.kwargs);
    match call.target {
      case OnInstance(instance) => DecodedIdentity(instance);
      case OnModel(model) => DecodedIdentity(model);
      case OnFunction =>
    }
    var decoded := DecodedCall(call);
    if ExactlyDecoded(call.args) {
      DecodedIdentity(call.args);
      assert decoded == call;
    } else {
      var items := call.args.items;
      DecodedIdentity(VList(items));
      assert Decoded(call.args) == Decoded(VList(items));
      assert decoded == Call(call.context, call.target, call.attribute, VList(items), call.kwargs);
    }
  }

  /** A call made outside test mode, inside a transaction, whose instance,
      arguments and context can travel in a payload. */
  predicate Deferrable(env: Env, instance: Value, args: Value, kwargs: Value) {
    !env.testMode && env.session.Some? &&
    Transportable(instance) && Transportable(ArgsOrEmpty(args)) && Transportable(KwargsOrEmpty(kwargs)) &&
    Transportable(VDict(env.session.value.context))
  }

  /** A payload dict of transportable values, serialised and deserialised
      with the built-in registries, reads back as the dict of the decoded values. */
  lemma PayloadDictArrives(modelName: Value, instance: Value, methodName: Value, args: Value, kwargs: Value, context: Value)
    requires Transportable(modelName) && Transportable(instance) && Transportable(methodName)
    requires Transportable(args) && Transportable(kwargs) && Transportable(context)
    ensures var message := SerializePayload(BuiltinEncoders(), PayloadDict(modelName, instance, methodName, args, kwargs, context));
      message.Success? &&
      DeserializePayload(BuiltinDecoders(), message.value) ==
        Success(VDict(PayloadDict(Decoded(modelName), Decoded(instance), Decoded(methodName), Decoded(args), Decoded(kwargs), Decoded(context))))
  {
    PayloadDictTransportable(modelName, instance, methodName, args, kwargs, context);
    PayloadRoundTrip(VDict(PayloadDict(modelName, instance, methodName, args, kwargs, context)));
    DecodedPayloadDict(modelName, instance, methodName, args, kwargs, context);
  }

  /** What a payload built from transportable arguments reads back as, after
      `serialize_payload` and `deserialize_payload` with the built-in
      registries: the payload dict of the decoded call. */
  lemma DeferredPayloadArrives(env: Env, mockId: string, callee: MethodArg, model: ModelArg, instance: Value,
                               args: Value, kwargs: Value)
    requires Deferrable(env, instance, args, kwargs)
    ensures var message := SerializePayload(BuiltinEncoders(), BuildPayload(env, mockId, callee, model, instance, args, kwargs).value.entries);
      var call := DecodedCall(PlannedCall(env, callee, model, instance, args, kwargs));
      message.Success? &&
      DeserializePayload(BuiltinDecoders(), message.value) ==
        Success(VDict(PayloadDict(ModelNameOf(model, instance), Decoded(instance), call.attribute, call.args, call.kwargs,
                                  VDict(call.context))))
  {
    PayloadDictArrives(ModelNameOf(model, instance), instance, VStr(callee.name), ArgsOrEmpty(args), KwargsOrEmpty(kwargs),
                       VDict(env.session.value.context));
  }

  // ---------------------------------------------------------------------------
  // Async.apply_async
  // ---------------------------------------------------------------------------

  /** The arguments of one `execute` task as the broker holds them: the
      database name, the user id, the serialised payload, and the Celery
      options passed through. */
  datatype Message = Message(database: string, user: nat, payload: Json, options: Dict)

  /** What `apply_async` returns: the mock result in test mode, or the
      broker's handle on the enqueued task, its position in the queue. */
  datatype Dispatch = Immediate(mock: MockResult) | Enqueued(position: nat)

  /** The broker: the queue of `execute` tasks waiting for a worker. */
  class Broker {
    var queue: seq<Message>

    constructor ()
      ensures queue == []
    {
      queue := [];
    }

    /** `execute.apply_async(...)`: the message goes to the back of the queue. */
    method Enqueue(message: Message) returns (position: nat)
      modifies this
      ensures queue == old(queue) + [message]
      ensures position == |old(queue)| && queue[position] == message
    {
      position := |queue|;
      queue := queue + [message];
    }
  }

  /** What `apply_async` decides before touching the broker. */
  datatype Decision = ReturnMock(mock: MockResult) | Send(message: Message)

  /** The decision of `apply_async`: a mock result is returned as it is; a
      payload is serialised and sent with the transaction's database and user;
      a failure to build or to serialise the payload is raised. */
  function Decide(env: Env, encoders: map<PyType, EncoderFn>, mockId: string, callee: MethodArg, model: ModelArg,
                  instance: Value, args: Value, kwargs: Value, options: Dict): (r: Result<Decision, Exception>)
    ensures r.Success? && r.value.Send? ==>
              !env.testMode && env.session.Some? &&
              r.value.message.database == env.session.value.database && r.value.message.user == env.session.value.user &&
              r.value.message.options == options &&
              SerializePayload(encoders, BuildPayload(env, mockId, callee, model, instance, args, kwargs).value.entries) ==
                Success(r.value.message.payload)
    ensures env.testMode ==>
              (r.Success? ==> r.value.ReturnMock?) &&
              r == (match BuildPayload(env, mockId, callee, model, instance, args, kwargs)
                    case Success(built) => Success(ReturnMock(built.mock))
                    case Failure(e) => Failure(e))
    ensures r.Success? && r.value.ReturnMock? ==> env.testMode
    ensures !env.testMode && env.session.None? ==> r.Failure? && r.error.AttributeError?
    ensures !env.testMode && env.session.Some? ==>
              var payload := BuildPayload(env, mockId, callee, model, instance, args, kwargs).value.entries;
              var serialized := SerializePayload(encoders, payload);
              r == (match serialized
                    case Success(message) =>
                      Success(Send(Message(env.session.value.database, env.session.value.user, message, options)))
                    case Failure(e) => Failure(e))
  {
    var built :- BuildPayload(env, mockId, callee, model, instance, args, kwargs);
    match built
    case Mock(m) => Success(ReturnMock(m))
    case Payload(entries) =>
      var session := env.session.value;
      var message :- SerializePayload(encoders, entries);
      Success(Send(Message(session.database, session.user, message, options)))
  }

  /** A built payload that serialises is sent as one message. */
  lemma DecideSends(env: Env, encoders: map<PyType, EncoderFn>, mockId: string, callee: MethodArg, model: ModelArg,
                    instance: Value, args: Value, kwargs: Value, options: Dict, entries: Dict, message: Json)
    requires BuildPayload(env, mockId, callee, model, instance, args, kwargs) == Success(Payload(entries))
    requires SerializePayload(encoders, entries) == Success(message)
    ensures env.session.Some? &&
            Decide(env, encoders, mockId, callee, model, instance, args, kwargs, options) ==
              Success(Send(Message(env.session.value.database, env.session.value.user, message, options)))
  {
  }

  /** The messages a decision sends. */
  function Sent(d: Result<Decision, Exception>): seq<Message> {
    if d.Success? && d.value.Send? then [d.value.message] else []
  }

  /** What `apply_async` returns for a decision, given the queue length before it. */
  function DispatchOf(d: Result<Decision, Exception>, position: nat): Result<Dispatch, Exception> {
    match d
    case Failure(e) => Failure(e)
    case Success(ReturnMock(m)) => Success(Immediate(m))
    case Success(Send(_)) => Success(Enqueued(position))
  }

  /** `Async.apply_async`: builds the payload and either returns the mock
      result or enqueues one `execute` task; a failure enqueues nothing. */
  method ApplyAsync(broker: Broker, env: Env, encoders: map<PyType, EncoderFn>, mockId: string, callee: MethodArg,
                    model: ModelArg, instance: Value, args: Value, kwargs: Value, options: Dict)
    returns (r: Result<Dispatch, Exception>)
    modifies broker
    ensures var d := Decide(env, encoders, mockId, callee, model, instance, args, kwargs, options);
      broker.queue == old(broker.queue) + Sent(d) && r == DispatchOf(d, |old(broker.queue)|)
  {
    var decision := Decide(env, encoders, mockId, callee, model, instance, args, kwargs, options);
    if decision.Success? && decision.value.Send? {
      var position := broker.Enqueue(decision.value.message);
      r := Success(Enqueued(position));
    } else {
      r := DispatchOf(decision, |broker.queue|);
    }
  }

  // ---------------------------------------------------------------------------
  // The `task` decorator
  // ---------------------------------------------------------------------------

  /** What a decorated method is bound to when it is called: a record, a
      model class (for a class method), or nothing (a plain function). */
  datatype Bound = RecordBound(model: string, id: nat) | ClassBound(model: string) | Unbound

  const DeferKey := "_defer_"

  /** `kwargs.pop('_defer_', False) is not False`: only the `False` object
      itself, given or defaulted, keeps the call immediate; `0`, `None` or an
      empty string defer it. */
  predicate Deferred(kwargs: Dict) {
    var flag := Lookup(kwargs, DeferKey);
    flag.Some? && flag.value != VBool(false)
  }

  /** Where the wrapped method runs when called now. */
  function BoundTarget(bound: Bound): Target {
    match bound
    case RecordBound(model, id) => OnInstance(VRecord(model, id))
    case ClassBound(model) => OnModel(VStr(model))
    case Unbound => OnFunction
  }

  /** `isinstance(instance, Model)`: the record the call is deferred on, if any. */
  function ActiveRecord(bound: Bound): Value {
    if bound.RecordBound? then VRecord(bound.model, bound.id) else VNone
  }

  /** What a decorated call returns: the method's value, or what `apply_async` returns. */
  datatype Outcome = Returned(value: Value) | Dispatched(dispatch: Dispatch)

  /** The decorated method called now, with `_defer_` removed from its keyword arguments. */
  function CallNow(env: Env, name: string, bound: Bound, args: seq<Value>, kwargs: Dict): Result<Outcome, Exception> {
    var result :- env.invoke(Call(CurrentContext(env.session), BoundTarget(bound), VStr(name), VTuple(args), VDict(Remove(kwargs, DeferKey)))).result;
    Success(Returned(result))
  }

  /** The decision of a deferred decorated call: `apply_async` with the bound
      object's model name, the method's name, the active record and the
      arguments, `_defer_` removed. */
  function DecideDeferred(env: Env, encoders: map<PyType, EncoderFn>, mockId: string, name: string, bound: Bound,
                          args: seq<Value>, kwargs: Dict, options: Dict): Result<Decision, Exception>
    requires !bound.Unbound?
  {
    Decide(env, encoders, mockId, MethodName(name), ModelName(bound.model), ActiveRecord(bound),
           VTuple(args), VDict(Remove(kwargs, DeferKey)), options)
  }

  /** `task.__call__` for the method `name` bound to `bound`. `wrapt` calls
      the wrapper with only the wrapped method, the instance and the
      arguments, so its `**celery_options` are always empty: `apply_async`
      is called with no options. */
  method TaskCall(broker: Broker, env: Env, encoders: map<PyType, EncoderFn>, mockId: string, name: string, bound: Bound,
                  args: seq<Value>, kwargs: Dict)
    returns (r: Result<Outcome, Exception>)
    modifies broker
    ensures !Deferred(kwargs) ==> r == CallNow(env, name, bound, args, kwargs) && broker.queue == old(broker.queue)
    ensures Deferred(kwargs) && bound.Unbound? ==> r.Failure? && r.error.AttributeError? && broker.queue == old(broker.queue)
    ensures Deferred(kwargs) && !bound.Unbound? ==>
              var d := DecideDeferred(env, encoders, mockId, name, bound, args, kwargs, []);
              broker.queue == old(broker.queue) + Sent(d) &&
              r == (match DispatchOf(d, |old(broker.queue)|)
                    case Success(dispatch) => Success(Dispatched(dispatch))
                    case Failure(e) => Failure(e))
  {
    var rest := Remove(kwargs, DeferKey);
    if !Deferred(kwargs) {
      return CallNow(env, name, bound, args, kwargs);
    }
    if bound.Unbound? {
      return Failure(AttributeError("'NoneType' object has no attribute '__name__'"));
    }
    var dispatch := ApplyAsync(broker, env, encoders, mockId, MethodName(name), ModelName(bound.model),
                               ActiveRecord(bound), VTuple(args), VDict(rest), []);
    r := if dispatch.Success? then Success(Dispatched(dispatch.value)) else Failure(dispatch.error);
  }
}
