/** `trytond_async.tasks`: the `execute` task a worker runs for each message,
    and the `RetryWithDelay` exception model code raises to ask for a retry. */
module Tasks {
  import opened Wrappers
  import opened Values
  import opened Serialization
  import opened RoundTrip
  import opened Async
  import opened MockResults

  /** `default_retry_delay=2` of the `execute` task, in seconds. */
  const DefaultRetryDelay := 2

  /** The default `delay` of `RetryWithDelay`, in seconds. */
  const DefaultDelay := 5

  /** `RetryWithDelay(delay=5)`: the delay given, or five seconds. */
  function NewRetryWithDelay(delay: Option<Value>): (e: Exception)
    ensures e.RetryWithDelay?
    ensures delay.Some? ==> e.delay == delay.value
    ensures delay.None? ==> e.delay == VInt(DefaultDelay)
  {
    RetryWithDelay(if delay.Some? then delay.value else VInt(DefaultDelay))
  }

  /** How a run of `execute` ends for Celery: it returns the method's value,
      raises `Retry` to run again after `countdown` seconds, or raises. */
  datatype TaskResult = Return(value: Value) | Retry(countdown: Value, cause: Exception) | Raise(error: Exception)

  /** How the user transaction ends: committed, rolled back explicitly, or left
      by an exception raised before the `try` block, with neither. */
  datatype Ending = Committed | RolledBack | Closed

  /** One run of `execute` after the preparation steps: its result, how its
      transaction ends and the writes that persist. */
  datatype Attempt = Attempt(result: TaskResult, ending: Ending, persisted: seq<Value>)

  /** The `try` statement around `execute_payload`: success commits; a
      `RetryWithDelay` (matched first) rolls back and retries after its delay;
      the backend's `DatabaseOperationalError` rolls back and retries after the
      default delay; any other exception rolls back and is raised again. */
  function Route(effect: Effect): (a: Attempt)
    ensures a.ending != Closed
    ensures a.ending == Committed <==> effect.result.Success?
    ensures a.ending == Committed ==> a.result == Return(effect.result.value) && a.persisted == effect.writes
    ensures a.ending == RolledBack ==> a.persisted == [] && !a.result.Return?
  {
    match effect.result
    case Success(v) => Attempt(Return(v), Committed, effect.writes)
    case Failure(RetryWithDelay(delay)) => Attempt(Retry(delay, RetryWithDelay(delay)), RolledBack, [])
    case Failure(DatabaseOperationalError) => Attempt(Retry(VInt(DefaultRetryDelay), DatabaseOperationalError), RolledBack, [])
    case Failure(e) => Attempt(Raise(e), RolledBack, [])
  }

  /** `Transaction().set_context(payload['context'])` in a fresh transaction,
      whose context is empty: `None` leaves it empty, a dict becomes it. */
  function PayloadContext(payload: Value): (r: Result<Dict, Exception>)
    ensures var item := Item(payload, "context");
      (item.Failure? ==> r == Failure(item.error)) &&
      (item == Success(VNone) ==> r == Success([])) &&
      (forall entries :: item == Success(VDict(entries)) ==> r == Success(entries))
  {
    var context :- Item(payload, "context");
    match context
    case VNone => Success([])
    case VDict(entries) => Success(entries)
    case _ => Failure(NotModelled("set_context with a context that is neither None nor a dict"))
  }

  /** The user transaction of `execute`: the message is deserialised before
      the `try` statement, so a message that does not decode raises without
      the explicit rollback; everything after is routed by `Route`. */
  function RunMessage(decoders: map<string, DecoderFn>, invoke: Invoker, message: Json): (a: Attempt)
    ensures a.ending == Closed <==> DeserializePayload(decoders, message).Failure?
    ensures a.ending == Closed ==> a.result == Raise(DeserializePayload(decoders, message).error) && a.persisted == []
    ensures a.ending == Committed ==>
              DeserializePayload(decoders, message).Success? &&
              PayloadContext(DeserializePayload(decoders, message).value).Success?
    ensures a.ending != Committed ==> a.persisted == []
  {
    match DeserializePayload(decoders, message)
    case Failure(e) => Attempt(Raise(e), Closed, [])
    case Success(payload) =>
      match PayloadContext(payload)
      case Failure(e) => Route(Effect(Failure(e), []))
      case Success(context) => Route(ExecutePayload(payload, context, invoke))
  }

  /** The transaction-level actions a worker takes. */
  datatype Action =
    | InitPool(database: string)
    | CleanCache(database: string)
    | Commit(database: string, user: nat)
    | Rollback(database: string, user: nat)

  /** The actions before the user transaction: the pool of a database not yet
      seen is initialised, then the cache of the database is cleaned. */
  function Preparation(database: string, known: set<string>): seq<Action> {
    (if database in known then [] else [InitPool(database)]) + [CleanCache(database)]
  }

  /** The explicit end of the user transaction, if any. */
  function Closing(ending: Ending, database: string, user: nat): seq<Action> {
    match ending
    case Committed => [Commit(database, user)]
    case RolledBack => [Rollback(database, user)]
    case Closed => []
  }

  /** The writes of one run, tagged with their database. */
  function InDatabase(database: string, writes: seq<Value>): (r: seq<(string, Value)>)
    ensures |r| == |writes| && forall i :: 0 <= i < |r| ==> r[i] == (database, writes[i])
  {
    seq(|writes|, i requires 0 <= i < |writes| => (database, writes[i]))
  }

  /** A Celery worker process: the databases whose pool it has initialised,
      the transaction-level actions it has taken, and the writes its commits
      made durable. */
  class Worker {
    var databases: set<string>
    var log: seq<Action>
    var persisted: seq<(string, Value)>

    constructor ()
      ensures databases == {} && log == [] && persisted == []
    {
      databases := {};
      log := [];
      persisted := [];
    }

    /** The two transactions of user 0 before the user's own: the first use
        of a database initialises its pool, then its cache is cleaned. */
    method Prepare(database: string)
      modifies this
      ensures databases == old(databases) + {database}
      ensures log == old(log) + Preparation(database, old(databases))
      ensures persisted == old(persisted)
    {
      if database !in databases {
        log := log + [InitPool(database)];
        databases := databases + {database};
      }
      log := log + [CleanCache(database)];
    }

    /** `execute(database, user, payload_json)`. */
    method Execute(database: string, user: nat, message: Json, decoders: map<string, DecoderFn>, invoke: Invoker)
      returns (r: TaskResult)
      modifies this
      ensures databases == old(databases) + {database}
      ensures var a := RunMessage(decoders, invoke, message);
        r == a.result &&
        log == old(log) + Preparation(database, old(databases)) + Closing(a.ending, database, user) &&
        persisted == old(persisted) + InDatabase(database, a.persisted)
    {
      Prepare(database);
      // The user transaction: deserialisation, the call and its routing.
      var attempt := RunMessage(decoders, invoke, message);
      persisted := persisted + InDatabase(database, attempt.persisted);
      log := log + Closing(attempt.ending, database, user);
      r := attempt.result;
    }
  }

  // ---------------------------------------------------------------------------
  // Properties of one run
  // ---------------------------------------------------------------------------

  /** Once the message decodes, the user transaction ends in exactly one
      explicit commit or rollback, and it commits exactly when the method returns. */
  lemma OneCommitOrRollback(decoders: map<string, DecoderFn>, invoke: Invoker, message: Json)
    requires DeserializePayload(decoders, message).Success?
    ensures |Closing(RunMessage(decoders, invoke, message).ending, "", 0)| == 1
    ensures RunMessage(decoders, invoke, message).ending == Committed <==> RunMessage(decoders, invoke, message).result.Return?
  {
  }

  /** Writes persist only when the method returns. */
  lemma WritesPersistOnlyOnReturn(decoders: map<string, DecoderFn>, invoke: Invoker, message: Json)
    ensures RunMessage(decoders, invoke, message).persisted != [] ==> RunMessage(decoders, invoke, message).result.Return?
  {
  }

  /** A message that does not decode raises the decoding error, before the
      `try` statement: neither commit nor rollback. */
  lemma UndecodableMessageRaises(decoders: map<string, DecoderFn>, invoke: Invoker, message: Json)
    requires DeserializePayload(decoders, message).Failure?
    ensures RunMessage(decoders, invoke, message) == Attempt(Raise(DeserializePayload(decoders, message).error), Closed, [])
  {
  }

  /** `RetryWithDelay` retries after its own delay, five seconds by default,
      and keeps none of the writes. */
  lemma RetryWithDelayRetries(delay: Option<Value>, writes: seq<Value>)
    ensures var e := NewRetryWithDelay(delay);
      Route(Effect(Failure(e), writes)) == Attempt(Retry(e.delay, e), RolledBack, [])
    ensures delay.None? ==> Route(Effect(Failure(NewRetryWithDelay(delay)), writes)).result.countdown == VInt(5)
  {
  }

  /** `DatabaseOperationalError` retries after the default delay of `execute` of two seconds. */
  lemma OperationalErrorRetries(writes: seq<Value>)
    ensures Route(Effect(Failure(DatabaseOperationalError), writes)) ==
            Attempt(Retry(VInt(2), DatabaseOperationalError), RolledBack, [])
  {
  }

  /** Any other exception is raised again after a rollback. */
  lemma OtherErrorsRaise(e: Exception, writes: seq<Value>)
    requires !e.RetryWithDelay? && e != DatabaseOperationalError
    ensures Route(Effect(Failure(e), writes)) == Attempt(Raise(e), RolledBack, [])
  {
  }

  /** A payload that is not a dict, or has no context, is rolled back and raised. */
  lemma MissingContextRaises(decoders: map<string, DecoderFn>, invoke: Invoker, message: Json)
    requires DeserializePayload(decoders, message).Success?
    requires Item(DeserializePayload(decoders, message).value, "context").Failure?
    ensures var e := Item(DeserializePayload(decoders, message).value, "context").error;
      RunMessage(decoders, invoke, message) == Attempt(Raise(e), RolledBack, []) && (e.KeyError? || e.TypeError?)
  {
  }

  // ---------------------------------------------------------------------------
  // From the caller to the worker
  // ---------------------------------------------------------------------------

  /** A message that deserialises to a payload dict runs the call it names
      under its context. */
  lemma RunArrivedPayload(decoders: map<string, DecoderFn>, invoke: Invoker, message: Json, modelName: Value,
                          instance: Value, methodName: Value, args: Value, kwargs: Value, context: Dict)
    requires DeserializePayload(decoders, message) == Success(VDict(PayloadDict(modelName, instance, methodName, args, kwargs, VDict(context))))
    ensures RunMessage(decoders, invoke, message) ==
            Route(invoke(Call(context, if Truthy(instance) then OnInstance(instance) else OnModel(modelName), methodName, args, kwargs)))
  {
    var payload := VDict(PayloadDict(modelName, instance, methodName, args, kwargs, VDict(context)));
    assert PayloadContext(payload) == Success(context);
    ExecutesPayloadDict(modelName, instance, methodName, args, kwargs, VDict(context), context, invoke);
  }

  /** Outside test mode, with a transaction, a call of transportable values
      is sent as one message with the transaction's database and user. */
  lemma DeferredCallIsSent(env: Env, mockId: string, callee: MethodArg, model: ModelArg, instance: Value,
                           args: Value, kwargs: Value, options: Dict)
    requires Deferrable(env, instance, args, kwargs)
    ensures var d := Decide(env, BuiltinEncoders(), mockId, callee, model, instance, args, kwargs, options);
      var message := SerializePayload(BuiltinEncoders(), BuildPayload(env, mockId, callee, model, instance, args, kwargs).value.entries);
      message.Success? &&
      d == Success(Send(Message(env.session.value.database, env.session.value.user, message.value, options)))
  {
    DeferredPayloadArrives(env, mockId, callee, model, instance, args, kwargs);
    var entries := BuildPayload(env, mockId, callee, model, instance, args, kwargs).value.entries;
    DecideSends(env, BuiltinEncoders(), mockId, callee, model, instance, args, kwargs, options, entries,
                SerializePayload(BuiltinEncoders(), entries).value);
  }

  /** The end-to-end property of a deferred call: the message `apply_async`
      sends makes the worker run the call the caller described, with its
      context, instance and arguments as they come back decoded, and commit,
      retry or raise as that call's outcome says. */
  lemma DeferredCallRunsInWorker(env: Env, mockId: string, callee: MethodArg, model: ModelArg, instance: Value,
                                 args: Value, kwargs: Value, options: Dict)
    requires Deferrable(env, instance, args, kwargs)
    ensures var d := Decide(env, BuiltinEncoders(), mockId, callee, model, instance, args, kwargs, options);
      d.Success? && d.value.Send? &&
      RunMessage(BuiltinDecoders(), env.invoke, d.value.message.payload) ==
        Route(env.invoke(DecodedCall(PlannedCall(env, callee, model, instance, args, kwargs))))
  {
    DeferredCallIsSent(env, mockId, callee, model, instance, args, kwargs, options);
    DeferredPayloadArrives(env, mockId, callee, model, instance, args, kwargs);
    var message := Decide(env, BuiltinEncoders(), mockId, callee, model, instance, args, kwargs, options).value.message.payload;
    var call := DecodedCall(PlannedCall(env, callee, model, instance, args, kwargs));
    var modelName := ModelNameOf(model, instance);
    RunArrivedPayload(BuiltinDecoders(), env.invoke, message, modelName, Decoded(instance), call.attribute, call.args,
                      call.kwargs, call.context);
    TruthyDecoded(instance);
  }

  /** Deferred and test-mode calls agree: when what the call carries decodes
      to itself, the worker returns a value exactly when test mode wraps that
      same value in its mock result, and otherwise retries or raises on the
      exception test mode raises. */
  lemma DeferredCallMatchesTestMode(env: Env, mockId: string, callee: MethodArg, model: ModelArg, instance: Value,
                                    args: Value, kwargs: Value, options: Dict)
    requires Deferrable(env, instance, args, kwargs) && UnpacksSequences(env.invoke)
    requires ExactlyDecoded(instance) && ExactArgs(ArgsOrEmpty(args)) && ExactlyDecoded(KwargsOrEmpty(kwargs))
    requires ExactlyDecoded(VDict(env.session.value.context))
    ensures var d := Decide(env, BuiltinEncoders(), mockId, callee, model, instance, args, kwargs, options);
      var now := BuildPayload(env.(testMode := true), mockId, callee, model, instance, args, kwargs);
      d.Success? && d.value.Send? &&
      var run := RunMessage(BuiltinDecoders(), env.invoke, d.value.message.payload);
      (forall v :: run.result == Return(v) <==> now == Success(Mock(MockResult(mockId, v)))) &&
      (run.result.Retry? || run.result.Raise? <==> now.Failure?)
  {
    DeferredCallRunsInWorker(env, mockId, callee, model, instance, args, kwargs, options);
    PlannedCallExact(env, callee, model, instance, args, kwargs);
    var d := Decide(env, BuiltinEncoders(), mockId, callee, model, instance, args, kwargs, options);
    var testing := env.(testMode := true);
    var call := PlannedCall(testing, callee, model, instance, args, kwargs);
    var effect := env.invoke(call);
    assert RunMessage(BuiltinDecoders(), env.invoke, d.value.message.payload) == Route(effect);
    RouteAgreesWithMock(effect, BuildPayload(testing, mockId, callee, model, instance, args, kwargs), mockId);
  }

  /** A planned call of values that decode to themselves comes back unchanged,
      in or out of test mode. */
  lemma PlannedCallExact(env: Env, callee: MethodArg, model: ModelArg, instance: Value, args: Value, kwargs: Value)
    requires UnpacksSequences(env.invoke)
    requires ExactlyDecoded(instance) && ExactArgs(ArgsOrEmpty(args)) && ExactlyDecoded(KwargsOrEmpty(kwargs))
    requires env.session.Some? ==> ExactlyDecoded(VDict(env.session.value.context))
    ensures var call := PlannedCall(env, callee, model, instance, args, kwargs);
      env.invoke(DecodedCall(call)) == env.invoke(call) &&
      call == PlannedCall(env.(testMode := true), callee, model, instance, args, kwargs)
  {
    var call := PlannedCall(env, callee, model, instance, args, kwargs);
    DecodedCallIdentity(call, env.invoke);
  }

  /** The routing of a call's effect agrees with the mock result test mode
      builds from the same effect. */
  lemma RouteAgreesWithMock(effect: Effect, now: Result<Built, Exception>, mockId: string)
    requires effect.result.Failure? ==> now == Failure(effect.result.error)
    requires effect.result.Success? ==> now == Success(Mock(MockResult(mockId, effect.result.value)))
    ensures forall v :: Route(effect).result == Return(v) <==> now == Success(Mock(MockResult(mockId, v)))
    ensures Route(effect).result.Retry? || Route(effect).result.Raise? <==> now.Failure?
  {
  }
}
