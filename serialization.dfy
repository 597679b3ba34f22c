/** `JSONDecoder` and `JSONEncoder`: the registries of codecs, the object hook
    that decodes tagged dicts, the `default` method that encodes the values
    JSON has no form for, and `json.dumps`/`json.loads` over JSON values. */
module Serialization {
  import opened Wrappers
  import opened Values
  import opened Temporal
  import opened Codecs
  import Base64
  import DecimalText

  // ---------------------------------------------------------------------------
  // The registries
  // ---------------------------------------------------------------------------

  /** A registered decoder: one of the module's own codecs, or any function
      that user code registers. */
  datatype DecoderFn = BuiltinDecoder(codec: Codec) | CustomDecoder(decode: Decoder)

  /** A registered encoder, likewise. */
  datatype EncoderFn = BuiltinEncoder(codec: Codec) | CustomEncoder(encode: Encoder)

  /** Calling a registered decoder on a dict. */
  function RunDecoder(f: DecoderFn, d: Dict): Result<Value, Exception> {
    match f
    case BuiltinDecoder(c) => DecodeWith(c, d)
    case CustomDecoder(decode) => decode(d)
  }

  /** Calling a registered encoder on a value. */
  function RunEncoder(f: EncoderFn, v: Value): Result<Value, Exception> {
    match f
    case BuiltinEncoder(c) => EncodeWith(c, v)
    case CustomEncoder(encode) => encode(v)
  }

  /** `JSONDecoder.decoders`: tag to decoder. */
  class DecoderRegistry {
    var decoders: map<string, DecoderFn>

    constructor ()
      ensures decoders == map[]
    {
      decoders := map[];
    }

    /** `JSONDecoder.register(klass, decoder)`: the `assert` refuses a tag
        that is already registered. */
    method Register(klass: string, decoder: DecoderFn) returns (r: Result<(), Exception>)
      modifies this
      ensures klass in old(decoders) ==> r == Failure(AssertionError) && decoders == old(decoders)
      ensures klass !in old(decoders) ==> r == Success(()) && decoders == old(decoders)[klass := decoder]
    {
      if klass in decoders {
        return Failure(AssertionError);
      }
      decoders := decoders[klass := decoder];
      return Success(());
    }
  }

  /** `JSONEncoder.serializers`: exact type to encoder. */
  class EncoderRegistry {
    var serializers: map<PyType, EncoderFn>

    constructor ()
      ensures serializers == map[]
    {
      serializers := map[];
    }

    /** `JSONEncoder.register(klass, encoder)`. */
    method Register(klass: PyType, encoder: EncoderFn) returns (r: Result<(), Exception>)
      modifies this
      ensures klass in old(serializers) ==> r == Failure(AssertionError) && serializers == old(serializers)
      ensures klass !in old(serializers) ==> r == Success(()) && serializers == old(serializers)[klass := encoder]
    {
      if klass in serializers {
        return Failure(AssertionError);
      }
      serializers := serializers[klass := encoder];
      return Success(());
    }
  }

  /** The codec the module registers under a tag. */
  function CodecOfTag(tag: string): (c: Codec)
    requires tag in BuiltinTagSet()
    ensures CodecTag(c) == tag
  {
    if tag == "datetime" then DateTimeCodec
    else if tag == "date" then DateCodec
    else if tag == "time" then TimeCodec
    else if tag == "timedelta" then TimedeltaCodec
    else if tag == "bytes" then BytesCodec
    else if tag == "Decimal" then DecimalCodec
    else ModelCodec
  }

  /** The codec the module registers for a type: `bytes` and `bytearray` share
      the bytes codec, and the `Model` codec serves every record. */
  function CodecOfType(t: PyType): Codec
    requires t in BuiltinTypeSet()
  {
    match t
    case TDateTime => DateTimeCodec
    case TDate => DateCodec
    case TTime => TimeCodec
    case TTimedelta => TimedeltaCodec
    case TDecimal => DecimalCodec
    case TModel => ModelCodec
    case _ => BytesCodec
  }

  function BuiltinTagSet(): set<string> {
    {"datetime", "date", "time", "timedelta", "bytes", "Decimal", "Model"}
  }

  function BuiltinTypeSet(): set<PyType> {
    {TDateTime, TDate, TTime, TTimedelta, TBytes, TByteArray, TDecimal, TModel}
  }

  /** The decoder registry once the module is imported. */
  function BuiltinDecoders(): map<string, DecoderFn> {
    map tag | tag in BuiltinTagSet() :: BuiltinDecoder(CodecOfTag(tag))
  }

  /** The encoder registry once the module is imported. */
  function BuiltinEncoders(): map<PyType, EncoderFn> {
    map t | t in BuiltinTypeSet() :: BuiltinEncoder(CodecOfType(t))
  }

  /** Every codec's decoder is registered under its tag. */
  lemma BuiltinDecoderOfTag(c: Codec)
    ensures CodecTag(c) in BuiltinDecoders() && BuiltinDecoders()[CodecTag(c)] == BuiltinDecoder(c)
  {
  }

  /** Every built-in type's encoder is its codec's. */
  lemma BuiltinEncoderOfType(t: PyType)
    requires t in BuiltinTypeSet()
    ensures t in BuiltinEncoders() && BuiltinEncoders()[t] == BuiltinEncoder(CodecOfType(t))
  {
  }

  /** The registrations the module makes when it is imported, in order: each
      succeeds, and together they fill the decoder registry with the built-ins. */
  method RegisterBuiltinDecoders() returns (reg: DecoderRegistry)
    ensures fresh(reg) && reg.decoders == BuiltinDecoders()
  {
    reg := new DecoderRegistry();
    RegisterTemporalDecoders(reg);
    RegisterOtherDecoders(reg);
    DecodersInRegistrationOrder();
  }

  /** The first four registrations: datetime, date, time and timedelta. */
  method RegisterTemporalDecoders(reg: DecoderRegistry)
    requires reg.decoders == map[]
    modifies reg
    ensures reg.decoders == map["datetime" := BuiltinDecoder(DateTimeCodec)]["date" := BuiltinDecoder(DateCodec)]
      ["time" := BuiltinDecoder(TimeCodec)]["timedelta" := BuiltinDecoder(TimedeltaCodec)]
  {
    var r;
    r := reg.Register("datetime", BuiltinDecoder(DateTimeCodec));
    r := reg.Register("date", BuiltinDecoder(DateCodec));
    r := reg.Register("time", BuiltinDecoder(TimeCodec));
    r := reg.Register("timedelta", BuiltinDecoder(TimedeltaCodec));
  }

  /** The last three registrations: bytes, Decimal and Model. */
  method RegisterOtherDecoders(reg: DecoderRegistry)
    requires reg.decoders == map["datetime" := BuiltinDecoder(DateTimeCodec)]["date" := BuiltinDecoder(DateCodec)]
      ["time" := BuiltinDecoder(TimeCodec)]["timedelta" := BuiltinDecoder(TimedeltaCodec)]
    modifies reg
    ensures reg.decoders == old(reg.decoders)["bytes" := BuiltinDecoder(BytesCodec)]
      ["Decimal" := BuiltinDecoder(DecimalCodec)]["Model" := BuiltinDecoder(ModelCodec)]
  {
    var r;
    r := reg.Register("bytes", BuiltinDecoder(BytesCodec));
    r := reg.Register("Decimal", BuiltinDecoder(DecimalCodec));
    r := reg.Register("Model", BuiltinDecoder(ModelCodec));
  }

  lemma DecodersInRegistrationOrder()
    ensures map["datetime" := BuiltinDecoder(DateTimeCodec)]["date" := BuiltinDecoder(DateCodec)]
      ["time" := BuiltinDecoder(TimeCodec)]["timedelta" := BuiltinDecoder(TimedeltaCodec)]
      ["bytes" := BuiltinDecoder(BytesCodec)]["Decimal" := BuiltinDecoder(DecimalCodec)]
      ["Model" := BuiltinDecoder(ModelCodec)] == BuiltinDecoders()
  {
    var m := map["datetime" := BuiltinDecoder(DateTimeCodec)]["date" := BuiltinDecoder(DateCodec)]
      ["time" := BuiltinDecoder(TimeCodec)]["timedelta" := BuiltinDecoder(TimedeltaCodec)]
      ["bytes" := BuiltinDecoder(BytesCodec)]["Decimal" := BuiltinDecoder(DecimalCodec)]
      ["Model" := BuiltinDecoder(ModelCodec)];
    assert m.Keys == BuiltinTagSet();
    forall tag | tag in m ensures m[tag] == BuiltinDecoder(CodecOfTag(tag)) {
    }
  }

  method RegisterBuiltinEncoders() returns (reg: EncoderRegistry)
    ensures fresh(reg) && reg.serializers == BuiltinEncoders()
  {
    reg := new EncoderRegistry();
    RegisterTemporalEncoders(reg);
    RegisterOtherEncoders(reg);
    EncodersInRegistrationOrder();
  }

  /** The first four registrations: datetime, date, time and timedelta. */
  method RegisterTemporalEncoders(reg: EncoderRegistry)
    requires reg.serializers == map[]
    modifies reg
    ensures reg.serializers == map[TDateTime := BuiltinEncoder(DateTimeCodec)][TDate := BuiltinEncoder(DateCodec)]
      [TTime := BuiltinEncoder(TimeCodec)][TTimedelta := BuiltinEncoder(TimedeltaCodec)]
  {
    var r;
    r := reg.Register(TDateTime, BuiltinEncoder(DateTimeCodec));
    r := reg.Register(TDate, BuiltinEncoder(DateCodec));
    r := reg.Register(TTime, BuiltinEncoder(TimeCodec));
    r := reg.Register(TTimedelta, BuiltinEncoder(TimedeltaCodec));
  }

  /** The last four registrations: bytes, bytearray, Decimal and Model. */
  method RegisterOtherEncoders(reg: EncoderRegistry)
    requires reg.serializers == map[TDateTime := BuiltinEncoder(DateTimeCodec)][TDate := BuiltinEncoder(DateCodec)]
      [TTime := BuiltinEncoder(TimeCodec)][TTimedelta := BuiltinEncoder(TimedeltaCodec)]
    modifies reg
    ensures reg.serializers == old(reg.serializers)[TBytes := BuiltinEncoder(BytesCodec)]
      [TByteArray := BuiltinEncoder(BytesCodec)][TDecimal := BuiltinEncoder(DecimalCodec)]
      [TModel := BuiltinEncoder(ModelCodec)]
  {
    var r;
    r := reg.Register(TBytes, BuiltinEncoder(BytesCodec));
    r := reg.Register(TByteArray, BuiltinEncoder(BytesCodec));
    r := reg.Register(TDecimal, BuiltinEncoder(DecimalCodec));
    r := reg.Register(TModel, BuiltinEncoder(ModelCodec));
  }

  lemma EncodersInRegistrationOrder()
    ensures map[TDateTime := BuiltinEncoder(DateTimeCodec)][TDate := BuiltinEncoder(DateCodec)]
      [TTime := BuiltinEncoder(TimeCodec)][TTimedelta := BuiltinEncoder(TimedeltaCodec)]
      [TBytes := BuiltinEncoder(BytesCodec)][TByteArray := BuiltinEncoder(BytesCodec)]
      [TDecimal := BuiltinEncoder(DecimalCodec)][TModel := BuiltinEncoder(ModelCodec)] == BuiltinEncoders()
  {
    var m := map[TDateTime := BuiltinEncoder(DateTimeCodec)][TDate := BuiltinEncoder(DateCodec)]
      [TTime := BuiltinEncoder(TimeCodec)][TTimedelta := BuiltinEncoder(TimedeltaCodec)]
      [TBytes := BuiltinEncoder(BytesCodec)][TByteArray := BuiltinEncoder(BytesCodec)]
      [TDecimal := BuiltinEncoder(DecimalCodec)][TModel := BuiltinEncoder(ModelCodec)];
    assert m.Keys == BuiltinTypeSet();
    forall t | t in m ensures m[t] == BuiltinEncoder(CodecOfType(t)) {
    }
  }

  // ---------------------------------------------------------------------------
  // The decoder hook
  // ---------------------------------------------------------------------------

  /** A dict whose `__class__` is the string of a registered tag. */
  predicate IsTagged(decoders: map<string, DecoderFn>, d: Dict) {
    var tag := Lookup(d, ClassKey);
    tag.Some? && tag.value.VStr? && tag.value.s in decoders
  }

  /** The dicts the hook returns unchanged: those with no `__class__` key,
      and those whose `__class__` value is hashable but not a registered tag. */
  predicate PassesThrough(decoders: map<string, DecoderFn>, d: Dict) {
    var tag := Lookup(d, ClassKey);
    tag.None? || (Hashable(tag.value) && !IsTagged(decoders, d))
  }

  /** `JSONDecoder.__call__`: `dct.get('__class__') in self.decoders` hashes
      the tag value first, so a list, dict or bytearray tag raises `TypeError`;
      a dict tagged with a registered tag goes to that tag's decoder; any
      other dict is returned unchanged. */
  function Hook(decoders: map<string, DecoderFn>, d: Dict): (r: Result<Value, Exception>)
    ensures Lookup(d, ClassKey).Some? && !Hashable(Lookup(d, ClassKey).value) ==> r.Failure? && r.error.TypeError?
    ensures IsTagged(decoders, d) ==> r == RunDecoder(decoders[Lookup(d, ClassKey).value.s], d)
    ensures PassesThrough(decoders, d) ==> r == Success(VDict(d))
  {
    var tag := Lookup(d, ClassKey);
    if tag.Some? && !Hashable(tag.value) then Failure(TypeError("unhashable type"))
    else if tag.Some? && tag.value.VStr? && tag.value.s in decoders then RunDecoder(decoders[tag.value.s], d)
    else Success(VDict(d))
  }

  /** The three cases of the hook cover every dict, and exactly one applies. */
  lemma HookCases(decoders: map<string, DecoderFn>, d: Dict)
    ensures PassesThrough(decoders, d) || IsTagged(decoders, d) ||
      (Lookup(d, ClassKey).Some? && !Hashable(Lookup(d, ClassKey).value))
    ensures !(PassesThrough(decoders, d) && IsTagged(decoders, d))
    ensures IsTagged(decoders, d) ==> Hashable(Lookup(d, ClassKey).value)
  {
  }

  /** Passthrough: a dict with no `__class__` key, or whose `__class__` is a
      string that is not a registered tag, comes back unchanged. */
  lemma HookPassthrough(decoders: map<string, DecoderFn>, d: Dict)
    requires ClassKey !in Keys(d) || (Lookup(d, ClassKey).value.VStr? && Lookup(d, ClassKey).value.s !in decoders)
    ensures Hook(decoders, d) == Success(VDict(d))
  {
  }

  /** `{"__class__": []}` makes the hook raise `TypeError`: the membership
      test hashes the list before any tag is compared. */
  lemma HookRejectsListTag(decoders: map<string, DecoderFn>)
    ensures Hook(decoders, [(ClassKey, VList([]))]) == Failure(TypeError("unhashable type"))
  {
  }

  // ---------------------------------------------------------------------------
  // The encoder's default
  // ---------------------------------------------------------------------------

  /** `JSONEncoder.default`: every record goes to the `Model` encoder (a
      `KeyError` when none is registered); any other value is looked up by
      its exact type; an unregistered type is refused. */
  function Default(encoders: map<PyType, EncoderFn>, v: Value): (r: Result<Value, Exception>)
    ensures v.VRecord? && TModel in encoders ==> r == RunEncoder(encoders[TModel], v)
    ensures v.VRecord? && TModel !in encoders ==> r == Failure(KeyError("Model"))
    ensures !v.VRecord? && TypeOf(v) in encoders ==> r == RunEncoder(encoders[TypeOf(v)], v)
    ensures !v.VRecord? && TypeOf(v) !in encoders ==> r.Failure? && r.error.TypeError?
  {
    if v.VRecord? then
      if TModel in encoders then RunEncoder(encoders[TModel], v) else Failure(KeyError("Model"))
    else if TypeOf(v) in encoders then RunEncoder(encoders[TypeOf(v)], v)
    else Failure(TypeError("is not JSON serializable"))
  }

  /** A record uses the `Model` encoder even when its own class has an encoder. */
  lemma RecordsUseModelEncoder(encoders: map<PyType, EncoderFn>, model: string, id: nat)
    requires TModel in encoders && TRecordClass(model) in encoders
    ensures Default(encoders, VRecord(model, id)) == RunEncoder(encoders[TModel], VRecord(model, id))
  {
  }

  /** An instance of an unregistered class is refused even when a class it
      might derive from is registered: the lookup is by exact type. */
  lemma UnregisteredClassRefused(encoders: map<PyType, EncoderFn>, cls: string)
    requires TClass(cls) !in encoders
    ensures Default(encoders, VObject(cls)).Failure?
    ensures Default(encoders, VObject(cls)).error.TypeError?
  {
  }

  // ---------------------------------------------------------------------------
  // json.dumps and json.loads
  // ---------------------------------------------------------------------------

  function WithKeys<A, B>(pairs: seq<(string, A)>, vs: seq<B>): (r: seq<(string, B)>)
    requires |pairs| == |vs|
    ensures |r| == |pairs| && forall i :: 0 <= i < |r| ==> r[i] == (pairs[i].0, vs[i])
  {
    seq(|vs|, i requires 0 <= i < |vs| => (pairs[i].0, vs[i]))
  }

  /** Pairing values with the keys of `pairs` keeps those keys, in order. */
  lemma WithKeysKeys<A, B>(pairs: seq<(string, A)>, vs: seq<B>)
    requires |pairs| == |vs|
    ensures Keys(WithKeys(pairs, vs)) == Keys(pairs)
  {
    var ks := seq(|pairs|, i requires 0 <= i < |pairs| => pairs[i].0);
    KeysOfPairs(pairs, ks);
    KeysOfPairs(WithKeys(pairs, vs), ks);
  }

  /** A Python 2 `str` is native to `json`: it is written as a JSON string,
      its bytes read as UTF-8. Only ASCII is modelled; other bytes fail. */
  function DumpsByteString(data: seq<Base64.byte>): (r: Result<Json, Exception>)
    ensures r.Success? <==> IsAscii(data)
    ensures r.Success? ==> r.value.JString? && |r.value.s| == |data|
  {
    if IsAscii(data) then Success(JString(AsciiText(data)))
    else Failure(NotModelled("a byte string that is not ASCII"))
  }

  /** `json.dumps(v, cls=JSONEncoder)`. Native values are written directly;
      any other value goes through `default`, and what `default` returns is
      written in turn. `use_decimal` is off, so a Decimal is not native. */
  function Dumps(encoders: map<PyType, EncoderFn>, v: Value, allowDefault: bool): (r: Result<Json, Exception>)
    ensures !IsNative(v) && !allowDefault ==> r.Failure?
    ensures v.VBytes? && !v.mutable ==> r == DumpsByteString(v.data)
    decreases allowDefault, v
  {
    match v
    case VNone => Success(JNull)
    case VBool(b) => Success(JBool(b))
    case VInt(i) => Success(JInt(i))
    case VFloat(x) => Success(JFloat(x))
    case VStr(s) => Success(JString(s))
    case VBytes(data, false) => DumpsByteString(data)
    case VList(_) | VTuple(_) =>
      var js :- AllSuccess(seq(|v.items|, i requires 0 <= i < |v.items| => Dumps(encoders, v.items[i], allowDefault)));
      Success(JArray(js))
    case VDict(entries) =>
      var js :- AllSuccess(seq(|entries|, i requires 0 <= i < |entries| => Dumps(encoders, entries[i].1, allowDefault)));
      Success(JObject(WithKeys(entries, js)))
    case _ =>
      if allowDefault then
        var out :- Default(encoders, v);
        Dumps(encoders, out, false)
      else Failure(TypeError("is not JSON serializable"))
  }

  /** A list or tuple is written as a JSON array with one item per element. */
  lemma DumpsArrayShape(encoders: map<PyType, EncoderFn>, v: Value, allowDefault: bool)
    requires v.VList? || v.VTuple?
    requires Dumps(encoders, v, allowDefault).Success?
    ensures Dumps(encoders, v, allowDefault).value.JArray?
    ensures |Dumps(encoders, v, allowDefault).value.items| == |v.items|
  {
  }

  /** A dict is written as a JSON object with the same keys, in order. */
  lemma DumpsObjectKeys(encoders: map<PyType, EncoderFn>, v: Value, allowDefault: bool)
    requires v.VDict?
    requires Dumps(encoders, v, allowDefault).Success?
    ensures Dumps(encoders, v, allowDefault).value.JObject?
    ensures Keys(Dumps(encoders, v, allowDefault).value.members) == Keys(v.entries)
  {
    var js := AllSuccess(seq(|v.entries|, i requires 0 <= i < |v.entries| => Dumps(encoders, v.entries[i].1, allowDefault))).value;
    WithKeysKeys(v.entries, js);
  }

  /** `json.loads(j, object_hook=JSONDecoder())`: each object is built from
      its decoded members, later duplicate keys winning, and then handed to
      the hook. */
  function Loads(decoders: map<string, DecoderFn>, j: Json): (r: Result<Value, Exception>)
    ensures j.JString? ==> r == Success(VStr(j.s))
    ensures r.Success? && j.JArray? ==> r.value.VList? && |r.value.items| == |j.items|
    ensures r.Success? && (r.value.VList? || r.value.VDict?) ==> j.JArray? || j.JObject?
  {
    match j
    case JNull => Success(VNone)
    case JBool(b) => Success(VBool(b))
    case JInt(i) => Success(VInt(i))
    case JFloat(x) => Success(VFloat(x))
    case JString(s) => Success(VStr(s))
    case JArray(items) =>
      var vs :- AllSuccess(seq(|items|, i requires 0 <= i < |items| => Loads(decoders, items[i])));
      Success(VList(vs))
    case JObject(members) =>
      var vs :- AllSuccess(seq(|members|, i requires 0 <= i < |members| => Loads(decoders, members[i].1)));
      Hook(decoders, FromPairs(WithKeys(members, vs)))
  }

  /** `use_decimal` being off, a Decimal is written by its codec, as its text. */
  lemma DecimalUsesCodec(x: DecimalText.Decimal)
    ensures Dumps(BuiltinEncoders(), VDecimal(x), true) == Dumps(BuiltinEncoders(), VDict(DecimalFields(x)), false)
  {
    DecimalDefault(x);
    DumpsViaDefault(BuiltinEncoders(), VDecimal(x), VDict(DecimalFields(x)));
  }

  /** `default` hands a Decimal to the Decimal codec. */
  lemma DecimalDefault(x: DecimalText.Decimal)
    ensures Default(BuiltinEncoders(), VDecimal(x)) == Success(VDict(DecimalFields(x)))
  {
    BuiltinEncoderOfType(TDecimal);
  }

  /** A value JSON has no form for is written as what `default` makes of it. */
  lemma DumpsViaDefault(encoders: map<PyType, EncoderFn>, v: Value, out: Value)
    requires !IsNative(v) && Default(encoders, v) == Success(out)
    ensures Dumps(encoders, v, true) == Dumps(encoders, out, false)
  {
  }
}
