/** What `json.loads(json.dumps(v, cls=JSONEncoder), object_hook=JSONDecoder())`
    gives back with the built-in codecs, and the agreement between each
    encoder and its decoder. */
module RoundTrip {
  import opened Wrappers
  import opened Values
  import opened Temporal
  import opened Codecs
  import opened Serialization
  import Base64
  import DecimalText

  // ---------------------------------------------------------------------------
  // Encoders and decoders agree on tags and fields
  // ---------------------------------------------------------------------------

  /** The values `json.dumps` hands to a built-in encoder. A Python 2 `str`
      is native to `json`, so only a `bytearray` reaches the bytes encoder. */
  predicate BuiltinEncodable(v: Value) {
    v.VDateTime? || v.VDate? || v.VTime? || v.VTimedelta? || (v.VBytes? && v.mutable) || v.VDecimal? || v.VRecord?
  }

  /** The codec `default` picks for `v`. */
  function CodecOf(v: Value): Codec
    requires BuiltinEncodable(v)
  {
    match v
    case VDateTime(_) => DateTimeCodec
    case VDate(_) => DateCodec
    case VTime(_) => TimeCodec
    case VTimedelta(_) => TimedeltaCodec
    case VBytes(_, _) => BytesCodec
    case VDecimal(_) => DecimalCodec
    case VRecord(_, _) => ModelCodec
  }

  /** The field values the encoder of `v` writes, in the order of `CodecKeys`. */
  function FieldValues(v: Value): (vs: seq<Value>)
    requires BuiltinEncodable(v)
    ensures |vs| == |CodecKeys(CodecOf(v))|
  {
    match v
    case VDateTime(dt) => IntValues(DateTimeInts(dt))
    case VDate(date) => IntValues(DateInts(date))
    case VTime(t) => IntValues(TimeInts(t))
    case VTimedelta(td) => [VFloat(TotalSeconds(td))]
    case VBytes(data, _) => [VStr(Base64.EncodeLines(data))]
    case VDecimal(x) => [VStr(DecimalText.ToText(x))]
    case VRecord(model, id) => [VStr(RecordRepr(model, id))]
  }

  predicate Scalar(v: Value) {
    v.VNone? || v.VBool? || v.VInt? || v.VFloat? || v.VStr?
  }

  /** The dict written for `v`. */
  function Written(v: Value): Dict
    requires BuiltinEncodable(v)
  {
    Tagged(CodecTag(CodecOf(v)), CodecKeys(CodecOf(v)), FieldValues(v))
  }

  lemma {:induction false} KeysOfTagged(tag: string, keys: seq<string>, values: seq<Value>)
    requires |keys| == |values|
    ensures Keys(Tagged(tag, keys, values)) == [ClassKey] + keys
  {
    var d := Tagged(tag, keys, values);
    KeysOfPairs(d[1..], keys);
  }

  /** Every value a built-in encoder handles is written as a dict holding
      exactly the tag and the fields the decoder registered under that tag
      reads, each a JSON scalar. */
  lemma EncoderWritesDecoderFields(v: Value)
    requires BuiltinEncodable(v)
    ensures Default(BuiltinEncoders(), v) == Success(VDict(Written(v)))
    ensures CodecTag(CodecOf(v)) in BuiltinDecoders() && BuiltinDecoders()[CodecTag(CodecOf(v))] == BuiltinDecoder(CodecOf(v))
    ensures Keys(Written(v)) == [ClassKey] + CodecKeys(CodecOf(v))
    ensures forall x :: x in FieldValues(v) ==> Scalar(x)
  {
    DefaultUsesCodec(v);
    EncodesAsWritten(v);
    FieldsAreScalars(v);
    BuiltinDecoderOfTag(CodecOf(v));
    KeysOfTagged(CodecTag(CodecOf(v)), CodecKeys(CodecOf(v)), FieldValues(v));
  }

  /** JSON has no form of its own for an encodable value. */
  lemma EncodableIsNotNative(v: Value)
    requires BuiltinEncodable(v)
    ensures !IsNative(v)
  {
    match v
    case VDateTime(_) =>
    case VDate(_) =>
    case VTime(_) =>
    case VTimedelta(_) =>
    case VBytes(_, _) =>
    case VDecimal(_) =>
    case VRecord(_, _) =>
  }

  /** `default` hands every encodable value to the codec of its type. */
  lemma DefaultUsesCodec(v: Value)
    requires BuiltinEncodable(v)
    ensures Default(BuiltinEncoders(), v) == EncodeWith(CodecOf(v), v)
  {
    var t := EncoderType(v);
    EncoderTypeIsBuiltin(v);
    BuiltinEncoderOfType(t);
  }

  /** The type under which `default` looks up the encoder of `v`. */
  function EncoderType(v: Value): PyType {
    if v.VRecord? then TModel else TypeOf(v)
  }

  lemma EncoderTypeIsBuiltin(v: Value)
    requires BuiltinEncodable(v)
    ensures EncoderType(v) in BuiltinTypeSet() && CodecOfType(EncoderType(v)) == CodecOf(v)
  {
    match v
    case VBytes(_, mutable) =>
    case _ =>
  }

  lemma EncodesAsWritten(v: Value)
    requires BuiltinEncodable(v)
    ensures EncodeWith(CodecOf(v), v) == Success(VDict(Written(v)))
  {
    match v
    case VDateTime(dt) =>
    case VDate(date) =>
    case VTime(t) =>
    case VTimedelta(td) =>
    case VBytes(data, _) =>
    case VDecimal(x) =>
    case VRecord(model, id) =>
  }

  lemma FieldsAreScalars(v: Value)
    requires BuiltinEncodable(v)
    ensures forall x :: x in FieldValues(v) ==> Scalar(x)
  {
  }

  /** A decoder reads nothing but its own fields. */
  lemma DecoderReadsOnlyItsFields(c: Codec, d1: Dict, d2: Dict)
    requires forall k :: k in CodecKeys(c) ==> Lookup(d1, k) == Lookup(d2, k)
    ensures DecodeWith(c, d1) == DecodeWith(c, d2)
  {
    var keys := CodecKeys(c);
    assert Fields(d1, keys) == Fields(d2, keys) by {
      var r1 := seq(|keys|, i requires 0 <= i < |keys| => Field(d1, keys[i]));
      var r2 := seq(|keys|, i requires 0 <= i < |keys| => Field(d2, keys[i]));
      assert r1 == r2;
    }
    if |keys| == 1 {
      assert keys[0] in keys;
      assert Field(d1, keys[0]) == Field(d2, keys[0]);
    }
  }

  /** A decoder needs each of its fields: without one, it raises the
      `KeyError` of one of its fields. */
  lemma DecoderNeedsEachField(c: Codec, d: Dict, k: string)
    requires k in CodecKeys(c) && k !in Keys(d)
    ensures DecodeWith(c, d).Failure?
    ensures DecodeWith(c, d).error.KeyError? && DecodeWith(c, d).error.key in CodecKeys(c)
  {
    var keys := CodecKeys(c);
    var i :| 0 <= i < |keys| && keys[i] == k;
    assert Fields(d, keys).Failure?;
    if |keys| == 1 {
      assert Field(d, keys[0]).Failure?;
    }
  }

  // ---------------------------------------------------------------------------
  // The round trip
  // ---------------------------------------------------------------------------

  /** The value `json.loads` gives back for `v`: tuples come back as lists,
      a byte string (`str`) as the text it spells, and a bytearray as a
      bytearray; everything else is unchanged. */
  function Decoded(v: Value): Value {
    match v
    case VList(items) => VList(seq(|items|, i requires 0 <= i < |items| => Decoded(items[i])))
    case VTuple(items) => VList(seq(|items|, i requires 0 <= i < |items| => Decoded(items[i])))
    case VDict(entries) => VDict(seq(|entries|, i requires 0 <= i < |entries| => (entries[i].0, Decoded(entries[i].1))))
    case VBytes(data, mutable) => if mutable then v else VStr(AsciiText(data))
    case _ => v
  }

  /** The values the payload round trip carries: valid temporal values,
      records whose model name has no quote, byte strings of ASCII text, no
      instance of an unregistered class, and no plain dict that, once read
      back, the hook would not return unchanged (a registered tag, or an
      unhashable `__class__` value). */
  predicate Transportable(v: Value) {
    match v
    case VList(items) => forall i :: 0 <= i < |items| ==> Transportable(items[i])
    case VTuple(items) => forall i :: 0 <= i < |items| ==> Transportable(items[i])
    case VDict(entries) =>
      DistinctKeys(entries) && PassesThrough(BuiltinDecoders(), DecodedEntries(entries)) &&
      forall i :: 0 <= i < |entries| ==> Transportable(entries[i].1)
    case VDateTime(dt) => ValidDateTime(dt)
    case VDate(date) => ValidDate(date)
    case VTime(t) => ValidTime(t)
    case VTimedelta(td) => ValidTimedelta(td)
    case VRecord(model, _) => QuoteFree(model)
    case VBytes(data, mutable) => mutable || IsAscii(data)
    case VObject(_) => false
    case _ => true
  }

  predicate RoundTrips(v: Value) {
    RoundTripsWith(BuiltinEncoders(), BuiltinDecoders(), v)
  }

  /** `v` written with `encoders` and read back with `decoders` comes back as `Decoded(v)`. */
  predicate RoundTripsWith(encoders: map<PyType, EncoderFn>, decoders: map<string, DecoderFn>, v: Value) {
    Dumps(encoders, v, true).Success? &&
    Loads(decoders, Dumps(encoders, v, true).value) == Success(Decoded(v))
  }

  function ScalarJson(v: Value): Json
    requires Scalar(v)
  {
    match v
    case VNone => JNull
    case VBool(b) => JBool(b)
    case VInt(i) => JInt(i)
    case VFloat(x) => JFloat(x)
    case VStr(s) => JString(s)
  }

  lemma ScalarRoundTrip(encoders: map<PyType, EncoderFn>, decoders: map<string, DecoderFn>, v: Value, b: bool)
    requires Scalar(v)
    ensures Dumps(encoders, v, b) == Success(ScalarJson(v))
    ensures Loads(decoders, ScalarJson(v)) == Success(v)
  {
    ScalarDumps(encoders, v, b);
    ScalarLoads(decoders, v);
  }

  lemma ScalarDumps(encoders: map<PyType, EncoderFn>, v: Value, b: bool)
    requires Scalar(v)
    ensures Dumps(encoders, v, b) == Success(ScalarJson(v))
  {
  }

  lemma ScalarLoads(decoders: map<string, DecoderFn>, v: Value)
    requires Scalar(v)
    ensures Loads(decoders, ScalarJson(v)) == Success(v)
  {
  }

  lemma AllSuccessOf<T, E>(rs: seq<Result<T, E>>, vs: seq<T>)
    requires |rs| == |vs| && forall i :: 0 <= i < |rs| ==> rs[i] == Success(vs[i])
    ensures AllSuccess(rs) == Success(vs)
  {
    assert AllSuccess(rs).value == vs;
  }

  /** A dict is written as the object of its members' texts. */
  lemma DumpsDictOf(encoders: map<PyType, EncoderFn>, entries: Dict, b: bool, js: seq<Json>)
    requires |js| == |entries| && forall i :: 0 <= i < |entries| ==> Dumps(encoders, entries[i].1, b) == Success(js[i])
    ensures Dumps(encoders, VDict(entries), b) == Success(JObject(WithKeys(entries, js)))
  {
    AllSuccessOf(seq(|entries|, i requires 0 <= i < |entries| => Dumps(encoders, entries[i].1, b)), js);
  }

  /** A list or tuple is written as the array of its items' texts. */
  lemma DumpsItemsOf(encoders: map<PyType, EncoderFn>, v: Value, items: seq<Value>, b: bool, js: seq<Json>)
    requires v == VList(items) || v == VTuple(items)
    requires |js| == |items| && forall i :: 0 <= i < |items| ==> Dumps(encoders, items[i], b) == Success(js[i])
    ensures Dumps(encoders, v, b) == Success(JArray(js))
  {
    AllSuccessOf(seq(|items|, i requires 0 <= i < |items| => Dumps(encoders, items[i], b)), js);
  }

  /** An object is read member by member, then handed to the hook. */
  lemma LoadsObjectOf(decoders: map<string, DecoderFn>, members: seq<(string, Json)>, vs: seq<Value>)
    requires |vs| == |members| && forall i :: 0 <= i < |members| ==> Loads(decoders, members[i].1) == Success(vs[i])
    ensures Loads(decoders, JObject(members)) == Hook(decoders, FromPairs(WithKeys(members, vs)))
  {
    AllSuccessOf(seq(|members|, i requires 0 <= i < |members| => Loads(decoders, members[i].1)), vs);
  }

  lemma LoadsArrayOf(decoders: map<string, DecoderFn>, items: seq<Json>, vs: seq<Value>)
    requires |vs| == |items| && forall i :: 0 <= i < |items| ==> Loads(decoders, items[i]) == Success(vs[i])
    ensures Loads(decoders, JArray(items)) == Success(VList(vs))
  {
    AllSuccessOf(seq(|items|, i requires 0 <= i < |items| => Loads(decoders, items[i])), vs);
  }

  /** A dict of scalars is written member by member and read back into the
      same dict, which the hook then receives. */
  lemma FlatDictRoundTrip(encoders: map<PyType, EncoderFn>, decoders: map<string, DecoderFn>, d: Dict, b: bool)
    requires forall i :: 0 <= i < |d| ==> Scalar(d[i].1)
    requires DistinctKeys(d)
    ensures Dumps(encoders, VDict(d), b).Success?
    ensures Loads(decoders, Dumps(encoders, VDict(d), b).value) == Hook(decoders, d)
  {
    FlatDictDumps(encoders, d, b);
    FlatDictLoads(decoders, d);
  }

  /** The JSON members a dict of scalars is written as. */
  function ScalarMembers(d: Dict): (members: seq<(string, Json)>)
    requires forall i :: 0 <= i < |d| ==> Scalar(d[i].1)
    ensures |members| == |d| && forall i :: 0 <= i < |d| ==> members[i] == (d[i].0, ScalarJson(d[i].1))
  {
    seq(|d|, i requires 0 <= i < |d| => (d[i].0, ScalarJson(d[i].1)))
  }

  lemma FlatDictDumps(encoders: map<PyType, EncoderFn>, d: Dict, b: bool)
    requires forall i :: 0 <= i < |d| ==> Scalar(d[i].1)
    ensures Dumps(encoders, VDict(d), b) == Success(JObject(ScalarMembers(d)))
  {
    var js := seq(|d|, i requires 0 <= i < |d| => ScalarJson(d[i].1));
    forall i | 0 <= i < |d| ensures Dumps(encoders, d[i].1, b) == Success(js[i]) {
      ScalarDumps(encoders, d[i].1, b);
    }
    DumpsDictOf(encoders, d, b, js);
    assert WithKeys(d, js) == ScalarMembers(d);
  }

  lemma FlatDictLoads(decoders: map<string, DecoderFn>, d: Dict)
    requires forall i :: 0 <= i < |d| ==> Scalar(d[i].1)
    requires DistinctKeys(d)
    ensures Loads(decoders, JObject(ScalarMembers(d))) == Hook(decoders, d)
  {
    var members := ScalarMembers(d);
    var vs := seq(|d|, i requires 0 <= i < |d| => d[i].1);
    forall i | 0 <= i < |d| ensures Loads(decoders, members[i].1) == Success(vs[i]) {
      ScalarLoads(decoders, d[i].1);
    }
    LoadsObjectOf(decoders, members, vs);
    assert WithKeys(members, vs) == d;
    FromPairsDistinct(d);
  }

  /** With any registries: a value that `default` turns into a dict of
      scalars tagged with a registered tag comes back as what that tag's
      decoder makes of the dict. */
  lemma TaggedRoundTrip(encoders: map<PyType, EncoderFn>, decoders: map<string, DecoderFn>, v: Value, d: Dict, tag: string)
    requires !IsNative(v) && Default(encoders, v) == Success(VDict(d))
    requires forall i :: 0 <= i < |d| ==> Scalar(d[i].1)
    requires DistinctKeys(d) && Lookup(d, ClassKey) == Some(VStr(tag)) && tag in decoders
    ensures Dumps(encoders, v, true).Success?
    ensures Loads(decoders, Dumps(encoders, v, true).value) == RunDecoder(decoders[tag], d)
  {
    DumpsViaDefault(encoders, v, VDict(d));
    FlatDictRoundTrip(encoders, decoders, d, false);
  }


  /** A value handled by a built-in codec round-trips when its decoder gives
      back what `Decoded` says of the dict its encoder writes. */
  lemma CodecRoundTrip(v: Value)
    requires BuiltinEncodable(v) && DecodeWith(CodecOf(v), Written(v)) == Success(Decoded(v))
    ensures RoundTrips(v)
  {
    EncodableIsNotNative(v);
    EncoderWritesDecoderFields(v);
    WrittenIsFlat(v);
    TaggedRoundTrip(BuiltinEncoders(), BuiltinDecoders(), v, Written(v), CodecTag(CodecOf(v)));
  }

  /** The dict written for `v` has distinct keys, its tag under `__class__`,
      and only scalars as values. */
  lemma WrittenIsFlat(v: Value)
    requires BuiltinEncodable(v)
    ensures DistinctKeys(Written(v))
    ensures Lookup(Written(v), ClassKey) == Some(VStr(CodecTag(CodecOf(v))))
    ensures forall i :: 0 <= i < |Written(v)| ==> Scalar(Written(v)[i].1)
  {
    var c := CodecOf(v);
    var d := Written(v);
    FieldsAreScalars(v);
    CodecKeysDistinct(c);
    TaggedDistinct(CodecTag(c), CodecKeys(c), FieldValues(v));
    LookupAt(d, 0, ClassKey);
    forall i | 0 < i < |d| ensures Scalar(d[i].1) {
      assert d[i].1 == FieldValues(v)[i - 1];
      assert FieldValues(v)[i - 1] in FieldValues(v);
    }
  }

  /** The codec of each transportable encodable value gives it back. */
  lemma BuiltinCodecRoundTrip(v: Value)
    requires BuiltinEncodable(v) && Transportable(v)
    ensures RoundTrips(v)
  {
    BuiltinDecodes(v);
    CodecRoundTrip(v);
  }

  /** The decoder of each built-in codec reads back, from the dict its
      encoder writes, what `Decoded` says. */
  lemma BuiltinDecodes(v: Value)
    requires BuiltinEncodable(v) && Transportable(v)
    ensures DecodeWith(CodecOf(v), Written(v)) == Success(Decoded(v))
  {
    match v {
      case VDateTime(dt) => DateTimeDecodes(dt);
      case VDate(date) => DateDecodes(date);
      case VTime(t) => TimeDecodes(t);
      case VTimedelta(td) => TimedeltaDecodes(td);
      case VBytes(data, _) => BytesDecodes(data);
      case VDecimal(x) => DecimalDecodes(x);
      case VRecord(model, id) => RecordDecodes(model, id);
    }
  }

  lemma DateTimeDecodes(dt: DateTime)
    requires ValidDateTime(dt)
    ensures DecodeWith(DateTimeCodec, Written(VDateTime(dt))) == Success(VDateTime(dt))
  {
    DateTimeRoundTrip(dt);
    WrittenAs(VDateTime(dt), DateTimeFields(dt));
  }

  lemma DateDecodes(date: Date)
    requires ValidDate(date)
    ensures DecodeWith(DateCodec, Written(VDate(date))) == Success(VDate(date))
  {
    DateRoundTrip(date);
    WrittenAs(VDate(date), DateFields(date));
  }

  lemma TimeDecodes(t: Time)
    requires ValidTime(t)
    ensures DecodeWith(TimeCodec, Written(VTime(t))) == Success(VTime(t))
  {
    TimeRoundTrip(t);
    WrittenAs(VTime(t), TimeFields(t));
  }

  lemma TimedeltaDecodes(td: Timedelta)
    requires ValidTimedelta(td)
    ensures DecodeWith(TimedeltaCodec, Written(VTimedelta(td))) == Success(VTimedelta(td))
  {
    TimedeltaRoundTrip(td);
    WrittenAs(VTimedelta(td), TimedeltaFields(td));
  }

  /** A bytearray comes back as a bytearray. */
  lemma BytesDecodes(data: seq<Base64.byte>)
    ensures DecodeWith(BytesCodec, Written(VBytes(data, true))) == Success(VBytes(data, true))
  {
    BytesRoundTrip(data, true);
    WrittenAs(VBytes(data, true), BytesFields(data));
  }

  lemma DecimalDecodes(x: DecimalText.Decimal)
    ensures DecodeWith(DecimalCodec, Written(VDecimal(x))) == Success(VDecimal(x))
  {
    DecimalRoundTrip(x);
    WrittenAs(VDecimal(x), DecimalFields(x));
  }

  lemma RecordDecodes(model: string, id: nat)
    requires QuoteFree(model)
    ensures DecodeWith(ModelCodec, Written(VRecord(model, id))) == Success(VRecord(model, id))
  {
    ModelRoundTrip(model, id);
    WrittenAs(VRecord(model, id), ModelFields(model, id));
  }

  /** The dict written for `v` is `fields`. */
  lemma WrittenAs(v: Value, fields: Dict)
    requires BuiltinEncodable(v) && EncodeWith(CodecOf(v), v) == Success(VDict(fields))
    ensures Written(v) == fields
  {
    EncodesAsWritten(v);
  }

  /** Every transportable value comes back as `Decoded(v)`: a payload of
      natives, temporal values, bytes, Decimals and records survives the
      trip through JSON. */
  lemma {:induction false} PayloadRoundTrip(v: Value)
    requires Transportable(v)
    ensures RoundTrips(v)
    decreases v
  {
    if v.VList? || v.VTuple? {
      forall i | 0 <= i < |v.items| ensures RoundTrips(v.items[i]) {
        PayloadRoundTrip(v.items[i]);
      }
      ItemsRoundTrip(v, v.items);
    } else if v.VDict? {
      forall i | 0 <= i < |v.entries| ensures RoundTrips(v.entries[i].1) {
        PayloadRoundTrip(v.entries[i].1);
      }
      EntriesRoundTrip(v, v.entries);
    } else {
      LeafRoundTrip(v);
    }
  }

  /** A value that is neither a list, a tuple nor a dict comes back on its own. */
  lemma LeafRoundTrip(v: Value)
    requires Transportable(v) && !v.VList? && !v.VTuple? && !v.VDict?
    ensures RoundTrips(v)
  {
    if Scalar(v) {
      ScalarRoundTrip(BuiltinEncoders(), BuiltinDecoders(), v, true);
    } else if v.VBytes? && !v.mutable {
      ByteStringRoundTrip(BuiltinEncoders(), BuiltinDecoders(), v.data);
    } else {
      BuiltinCodecRoundTrip(v);
    }
  }

  /** With any registries: a byte string of ASCII text is written as a JSON
      string and read back as the text it spells, never reaching `default`. */
  lemma ByteStringRoundTrip(encoders: map<PyType, EncoderFn>, decoders: map<string, DecoderFn>, data: seq<Base64.byte>)
    requires IsAscii(data)
    ensures Dumps(encoders, VBytes(data, false), true) == Success(JString(AsciiText(data)))
    ensures Loads(decoders, Dumps(encoders, VBytes(data, false), true).value) == Success(VStr(AsciiText(data)))
  {
  }

  /** A list or tuple whose items each come back comes back as the list of
      what they come back as. */
  lemma ItemsRoundTrip(v: Value, items: seq<Value>)
    requires v == VList(items) || v == VTuple(items)
    requires forall i :: 0 <= i < |items| ==> RoundTrips(items[i])
    ensures RoundTrips(v)
  {
    ItemsRoundTripWith(BuiltinEncoders(), BuiltinDecoders(), v, items);
  }

  lemma ItemsRoundTripWith(encoders: map<PyType, EncoderFn>, decoders: map<string, DecoderFn>, v: Value, items: seq<Value>)
    requires v == VList(items) || v == VTuple(items)
    requires forall i :: 0 <= i < |items| ==> RoundTripsWith(encoders, decoders, items[i])
    ensures RoundTripsWith(encoders, decoders, v)
  {
    var js := seq(|items|, i requires 0 <= i < |items| => Dumps(encoders, items[i], true).value);
    var vs := seq(|items|, i requires 0 <= i < |items| => Decoded(items[i]));
    DumpsItemsOf(encoders, v, items, true, js);
    LoadsArrayOf(decoders, js, vs);
    DecodedItems(v, items, vs);
  }

  lemma DecodedItems(v: Value, items: seq<Value>, vs: seq<Value>)
    requires v == VList(items) || v == VTuple(items)
    requires |vs| == |items| && forall i :: 0 <= i < |items| ==> vs[i] == Decoded(items[i])
    ensures Decoded(v) == VList(vs)
  {
    assert Decoded(v).items == vs;
  }

  /** An untagged dict whose values each come back comes back under the
      same keys. */
  lemma EntriesRoundTrip(v: Value, entries: Dict)
    requires v == VDict(entries)
    requires DistinctKeys(entries) && PassesThrough(BuiltinDecoders(), DecodedEntries(entries))
    requires forall i :: 0 <= i < |entries| ==> RoundTrips(entries[i].1)
    ensures RoundTrips(v)
  {
    EntriesRoundTripWith(BuiltinEncoders(), BuiltinDecoders(), v, entries);
  }

  lemma EntriesRoundTripWith(encoders: map<PyType, EncoderFn>, decoders: map<string, DecoderFn>, v: Value, entries: Dict)
    requires v == VDict(entries)
    requires DistinctKeys(entries) && PassesThrough(decoders, DecodedEntries(entries))
    requires forall i :: 0 <= i < |entries| ==> RoundTripsWith(encoders, decoders, entries[i].1)
    ensures RoundTripsWith(encoders, decoders, v)
  {
    DecodedKeys(entries, DecodedEntries(entries));
    DictOfRoundTrips(encoders, decoders, entries);
  }

  /** The entries of a decoded dict: the same keys, each value decoded. */
  function DecodedEntries(entries: Dict): (out: Dict)
    ensures Decoded(VDict(entries)) == VDict(out)
    ensures |out| == |entries| && forall i :: 0 <= i < |out| ==> out[i] == (entries[i].0, Decoded(entries[i].1))
  {
    Decoded(VDict(entries)).entries
  }

  /** With any registries: a dict whose values each come back comes back
      as the dict of what they come back as, when the hook passes that dict
      through. */
  lemma DictOfRoundTrips(encoders: map<PyType, EncoderFn>, decoders: map<string, DecoderFn>, entries: Dict)
    requires forall i :: 0 <= i < |entries| ==> RoundTripsWith(encoders, decoders, entries[i].1)
    requires DistinctKeys(DecodedEntries(entries)) && PassesThrough(decoders, DecodedEntries(entries))
    ensures RoundTripsWith(encoders, decoders, VDict(entries))
  {
    var js := seq(|entries|, i requires 0 <= i < |entries| => Dumps(encoders, entries[i].1, true).value);
    DumpsDictOf(encoders, entries, true, js);
    LoadsDecodedMembers(decoders, entries, js);
  }

  /** The members written for a dict, each read back as its decoded value,
      give back the decoded dict when the hook passes it through. */
  lemma LoadsDecodedMembers(decoders: map<string, DecoderFn>, entries: Dict, js: seq<Json>)
    requires |js| == |entries| && forall i :: 0 <= i < |entries| ==> Loads(decoders, js[i]) == Success(Decoded(entries[i].1))
    requires DistinctKeys(DecodedEntries(entries)) && PassesThrough(decoders, DecodedEntries(entries))
    ensures Loads(decoders, JObject(WithKeys(entries, js))) == Success(VDict(DecodedEntries(entries)))
  {
    var out := DecodedEntries(entries);
    var vs := seq(|entries|, i requires 0 <= i < |entries| => out[i].1);
    var members := WithKeys(entries, js);
    LoadsObjectOf(decoders, members, vs);
    assert WithKeys(members, vs) == out;
    FromPairsDistinct(out);
  }

  /** Decoding keeps the keys of a dict, and so their distinctness. */
  lemma {:induction false} DecodedKeys(a: Dict, b: Dict)
    requires |a| == |b| && forall i :: 0 <= i < |a| ==> b[i] == (a[i].0, Decoded(a[i].1))
    requires DistinctKeys(a)
    ensures Keys(a) == Keys(b) && DistinctKeys(b)
  {
    if a != [] {
      DecodedKeys(a[1..], b[1..]);
    }
  }

  /** Without tuples and byte strings (`str`), a value comes back exactly. */
  predicate ExactlyDecoded(v: Value) {
    match v
    case VList(items) => forall i :: 0 <= i < |items| ==> ExactlyDecoded(items[i])
    case VTuple(_) => false
    case VDict(entries) => forall i :: 0 <= i < |entries| ==> ExactlyDecoded(entries[i].1)
    case VBytes(_, mutable) => mutable
    case _ => true
  }

  lemma {:induction false} DecodedIdentity(v: Value)
    requires ExactlyDecoded(v)
    ensures Decoded(v) == v
    decreases v
  {
    match v
    case VList(items) =>
      forall i | 0 <= i < |items| ensures Decoded(items[i]) == items[i] {
        DecodedIdentity(items[i]);
      }
      assert Decoded(v).items == items;
    case VDict(entries) =>
      forall i | 0 <= i < |entries| ensures Decoded(entries[i].1) == entries[i].1 {
        DecodedIdentity(entries[i].1);
      }
      assert Decoded(v).entries == entries;
    case _ =>
  }
}
