/** The built-in codecs: for each tag, the encoder that turns a value into a
    tagged dict of JSON-native fields and the decoder that reads those fields
    back. */
module Codecs {
  import opened Wrappers
  import opened Values
  import opened Temporal
  import opened Digits
  import Base64
  import DecimalText

  type Decoder = Dict -> Result<Value, Exception>
  type Encoder = Value -> Result<Value, Exception>

  const ClassKey := "__class__"

  // ---------------------------------------------------------------------------
  // Argument handling shared by the decoders
  // ---------------------------------------------------------------------------

  /** `dct[key]`. */
  function Field(d: Dict, key: string): (r: Result<Value, Exception>)
    ensures r.Success? <==> Lookup(d, key).Some?
    ensures r.Success? ==> r.value == Lookup(d, key).value
    ensures r.Failure? ==> r.error == KeyError(key)
  {
    match Lookup(d, key)
    case Some(v) => Success(v)
    case None => Failure(KeyError(key))
  }

  const MinCInt := -0x8000_0000
  const MaxCInt := 0x7FFF_FFFF

  /** The conversion of one argument of the `date`, `time` and `datetime`
      constructors to a C `int`: a bool counts as an int, a float is refused,
      and an int beyond the C range overflows. */
  function IntArg(v: Value): (r: Result<int, Exception>)
    ensures v.VInt? && MinCInt <= v.i <= MaxCInt ==> r == Success(v.i)
    ensures r.Success? ==> MinCInt <= r.value <= MaxCInt
    ensures r.Failure? && v.VInt? ==> r.error.OverflowError?
    ensures (v.VStr? || v.VNone? || v.VFloat? || v.VList? || v.VDict?) ==> r.Failure? && r.error.TypeError?
  {
    match v
    case VInt(i) =>
      if i > MaxCInt then Failure(OverflowError("signed integer is greater than maximum"))
      else if i < MinCInt then Failure(OverflowError("signed integer is less than minimum"))
      else Success(i)
    case VBool(b) => Success(if b then 1 else 0)
    case VFloat(_) => Failure(TypeError("integer argument expected, got float"))
    case VDecimal(_) => Failure(NotModelled("integer conversion of a Decimal"))
    case _ => Failure(TypeError("an integer is required"))
  }

  /** A constructor's range error, raised as `ValueError`. */
  function AsValueError<T>(r: Result<T, RangeError>): (r': Result<T, Exception>)
    ensures r.Success? <==> r'.Success?
    ensures r.Success? ==> r'.value == r.value
    ensures r.Failure? ==> r'.error == ValueError(r.error.message)
  {
    match r
    case Success(x) => Success(x)
    case Failure(e) => Failure(ValueError(e.message))
  }

  function AsOverflow(r: Option<Timedelta>): (r': Result<Value, Exception>)
    ensures r.Some? <==> r'.Success?
    ensures r.Some? ==> r'.value == VTimedelta(r.value)
  {
    match r
    case Some(td) => Success(VTimedelta(td))
    case None => Failure(OverflowError("days must have magnitude <= 999999999"))
  }

  /** What a built-in encoder does with a value of a type it is never
      dispatched for. */
  function WrongType(): Result<Value, Exception> {
    Failure(NotModelled("built-in encoder applied to a value of another type"))
  }

  // ---------------------------------------------------------------------------
  // Tagged dicts
  // ---------------------------------------------------------------------------

  predicate DistinctStrings(keys: seq<string>) {
    forall i, j :: 0 <= i < j < |keys| ==> keys[i] != keys[j]
  }

  /** The dict an encoder writes: the `__class__` tag, then one entry per field. */
  function Tagged(tag: string, keys: seq<string>, values: seq<Value>): (d: Dict)
    requires |keys| == |values|
    ensures |d| == |keys| + 1 && d[0] == (ClassKey, VStr(tag))
    ensures forall i :: 0 <= i < |keys| ==> d[i + 1] == (keys[i], values[i])
  {
    [(ClassKey, VStr(tag))] + seq(|keys|, i requires 0 <= i < |keys| => (keys[i], values[i]))
  }

  /** `dct[k]` for each of `keys` in turn: their values, or the `KeyError` of
      the first one missing. */
  function Fields(d: Dict, keys: seq<string>): (r: Result<seq<Value>, Exception>)
    ensures r.Success? <==> forall i :: 0 <= i < |keys| ==> keys[i] in Keys(d)
    ensures r.Success? ==> |r.value| == |keys| && forall i :: 0 <= i < |keys| ==> Lookup(d, keys[i]) == Some(r.value[i])
    ensures r.Failure? ==> exists i :: 0 <= i < |keys| && keys[i] !in Keys(d) && r.error == KeyError(keys[i])
  {
    var rs := seq(|keys|, i requires 0 <= i < |keys| => Field(d, keys[i]));
    assert forall i :: 0 <= i < |keys| ==> (rs[i].Success? <==> keys[i] in Keys(d));
    AllSuccess(rs)
  }

  /** The conversion of each constructor argument in turn. */
  function IntArgs(vs: seq<Value>): (r: Result<seq<int>, Exception>)
    ensures r.Success? ==> |r.value| == |vs| && forall i :: 0 <= i < |vs| ==> IntArg(vs[i]) == Success(r.value[i])
  {
    AllSuccess(seq(|vs|, i requires 0 <= i < |vs| => IntArg(vs[i])))
  }

  /** A decoder finds each field of a tagged dict where the encoder wrote it. */
  lemma FieldsOfTagged(tag: string, keys: seq<string>, values: seq<Value>)
    requires |keys| == |values| && DistinctStrings(keys) && ClassKey !in keys
    ensures Fields(Tagged(tag, keys, values), keys) == Success(values)
  {
    var d := Tagged(tag, keys, values);
    forall i | 0 <= i < |keys| ensures Field(d, keys[i]) == Success(values[i]) {
      LookupAt(d, i + 1, keys[i]);
    }
    var r := Fields(d, keys);
    assert r.Success?;
    assert r.value == values;
  }

  /** Ints in the C range convert to themselves. */
  lemma IntArgsOfInts(vs: seq<Value>, ns: seq<int>)
    requires |vs| == |ns| && forall i :: 0 <= i < |vs| ==> vs[i] == VInt(ns[i]) && MinCInt <= ns[i] <= MaxCInt
    ensures IntArgs(vs) == Success(ns)
  {
    var rs := seq(|vs|, i requires 0 <= i < |vs| => IntArg(vs[i]));
    assert forall i :: 0 <= i < |vs| ==> rs[i] == Success(ns[i]);
    assert AllSuccess(rs).value == ns;
  }

  /** The one text field of a tagged dict is found under its key. */
  lemma TextField(tag: string, key: string, text: string)
    requires key != ClassKey
    ensures Field(Tagged(tag, [key], [VStr(text)]), key) == Success(VStr(text))
  {
    LookupAt(Tagged(tag, [key], [VStr(text)]), 1, key);
  }

  /** The tagged dict of a codec has no key twice. */
  lemma TaggedDistinct(tag: string, keys: seq<string>, values: seq<Value>)
    requires |keys| == |values| && DistinctStrings(keys) && ClassKey !in keys
    ensures DistinctKeys(Tagged(tag, keys, values))
  {
    DistinctByIndex(Tagged(tag, keys, values));
  }

  // ---------------------------------------------------------------------------
  // datetime, date, time
  // ---------------------------------------------------------------------------

  const DateTimeKeys: seq<string> := ["year", "month", "day", "hour", "minute", "second", "microsecond"]
  const DateKeys: seq<string> := ["year", "month", "day"]
  const TimeKeys: seq<string> := ["hour", "minute", "second", "microsecond"]

  lemma DateTimeKeysDistinct()
    ensures DistinctStrings(DateTimeKeys) && ClassKey !in DateTimeKeys
    ensures DistinctStrings(DateKeys) && ClassKey !in DateKeys
    ensures DistinctStrings(TimeKeys) && ClassKey !in TimeKeys
  {
  }

  /** The integers written for the fields of a codec, each as a JSON number. */
  function IntValues(ns: seq<int>): (vs: seq<Value>)
    ensures |vs| == |ns| && forall i :: 0 <= i < |ns| ==> vs[i] == VInt(ns[i])
  {
    seq(|ns|, i requires 0 <= i < |ns| => VInt(ns[i]))
  }

  function DateTimeInts(dt: DateTime): seq<int> {
    [dt.date.year, dt.date.month, dt.date.day, dt.time.hour, dt.time.minute, dt.time.second, dt.time.microsecond]
  }

  function DateTimeFields(dt: DateTime): Dict {
    Tagged("datetime", DateTimeKeys, IntValues(DateTimeInts(dt)))
  }

  function EncodeDateTime(o: Value): (r: Result<Value, Exception>)
    ensures r.Success? <==> o.VDateTime?
    ensures r.Success? ==> r.value.VDict? && Lookup(r.value.entries, ClassKey) == Some(VStr("datetime"))
  {
    if o.VDateTime? then Success(VDict(DateTimeFields(o.dateTime))) else WrongType()
  }

  /** `datetime.datetime(dct['year'], ..., dct['microsecond'])`: every field is
      looked up first, then converted, then range-checked. */
  function DecodeDateTime(d: Dict): (r: Result<Value, Exception>)
    ensures r.Success? ==> r.value.VDateTime? && ValidDateTime(r.value.dateTime)
  {
    var vs :- Fields(d, DateTimeKeys);
    var ns :- IntArgs(vs);
    var dt :- AsValueError(CheckDateTime(ns[0], ns[1], ns[2], ns[3], ns[4], ns[5], ns[6]));
    Success(VDateTime(dt))
  }

  function DateInts(date: Date): seq<int> {
    [date.year, date.month, date.day]
  }

  function DateFields(date: Date): Dict {
    Tagged("date", DateKeys, IntValues(DateInts(date)))
  }

  function EncodeDate(o: Value): (r: Result<Value, Exception>)
    ensures r.Success? <==> o.VDate?
    ensures r.Success? ==> r.value.VDict? && Lookup(r.value.entries, ClassKey) == Some(VStr("date"))
  {
    if o.VDate? then Success(VDict(DateFields(o.date))) else WrongType()
  }

  function DecodeDate(d: Dict): (r: Result<Value, Exception>)
    ensures r.Success? ==> r.value.VDate? && ValidDate(r.value.date)
  {
    var vs :- Fields(d, DateKeys);
    var ns :- IntArgs(vs);
    var date :- AsValueError(CheckDate(ns[0], ns[1], ns[2]));
    Success(VDate(date))
  }

  function TimeInts(t: Time): seq<int> {
    [t.hour, t.minute, t.second, t.microsecond]
  }

  function TimeFields(t: Time): Dict {
    Tagged("time", TimeKeys, IntValues(TimeInts(t)))
  }

  function EncodeTime(o: Value): (r: Result<Value, Exception>)
    ensures r.Success? <==> o.VTime?
    ensures r.Success? ==> r.value.VDict? && Lookup(r.value.entries, ClassKey) == Some(VStr("time"))
  {
    if o.VTime? then Success(VDict(TimeFields(o.time))) else WrongType()
  }

  function DecodeTime(d: Dict): (r: Result<Value, Exception>)
    ensures r.Success? ==> r.value.VTime? && ValidTime(r.value.time)
  {
    var vs :- Fields(d, TimeKeys);
    var ns :- IntArgs(vs);
    var t :- AsValueError(CheckTime(ns[0], ns[1], ns[2], ns[3]));
    Success(VTime(t))
  }

  // ---------------------------------------------------------------------------
  // timedelta
  // ---------------------------------------------------------------------------

  function TimedeltaFields(td: Timedelta): Dict {
    Tagged("timedelta", ["seconds"], [VFloat(TotalSeconds(td))])
  }

  function EncodeTimedelta(o: Value): (r: Result<Value, Exception>)
    ensures r.Success? <==> o.VTimedelta?
    ensures r.Success? ==> r.value.VDict? && Lookup(r.value.entries, ClassKey) == Some(VStr("timedelta"))
    ensures r.Success? ==> Lookup(r.value.entries, "seconds") == Some(VFloat(TotalSeconds(o.delta)))
  {
    if o.VTimedelta? then Success(VDict(TimedeltaFields(o.delta))) else WrongType()
  }

  /** `datetime.timedelta(seconds=dct['seconds'])`: ints (and bools) are exact,
      floats are rounded to the microsecond. */
  function DecodeTimedelta(d: Dict): (r: Result<Value, Exception>)
    ensures r.Success? ==> r.value.VTimedelta? && ValidTimedelta(r.value.delta)
  {
    var seconds :- Field(d, "seconds");
    match seconds
    case VInt(n) => AsOverflow(TimedeltaFromWholeSeconds(n))
    case VBool(b) => AsOverflow(TimedeltaFromWholeSeconds(if b then 1 else 0))
    case VFloat(x) => AsOverflow(TimedeltaFromSeconds(x))
    case _ => Failure(TypeError("unsupported type for timedelta seconds component"))
  }

  // ---------------------------------------------------------------------------
  // bytes and bytearray
  // ---------------------------------------------------------------------------

  function BytesFields(data: seq<Base64.byte>): Dict {
    Tagged("bytes", ["base64"], [VStr(Base64.EncodeLines(data))])
  }

  /** `_bytes_encoder`, shared by `bytes` and `bytearray`. */
  function EncodeBytes(o: Value): (r: Result<Value, Exception>)
    ensures r.Success? <==> o.VBytes?
    ensures r.Success? ==> r.value.VDict? && Lookup(r.value.entries, ClassKey) == Some(VStr("bytes"))
    ensures r.Success? ==> Lookup(r.value.entries, "base64") == Some(VStr(Base64.EncodeLines(o.data)))
  {
    if o.VBytes? then Success(VDict(BytesFields(o.data))) else WrongType()
  }

  /** `_bytes_decoder`: the text must be a string; its base64 content comes
      back as a `bytearray`, the cast Python 2 selects. */
  function DecodeBytes(d: Dict): (r: Result<Value, Exception>)
    ensures r.Success? ==> r.value.VBytes? && r.value.mutable
  {
    var text :- Field(d, "base64");
    if !text.VStr? then Failure(AttributeError("object has no attribute 'encode'"))
    else
      match Base64.Decode(text.s)
      case Some(data) => Success(VBytes(data, true))
      case None => Failure(Base64Error)
  }

  // ---------------------------------------------------------------------------
  // Decimal
  // ---------------------------------------------------------------------------

  function DecimalFields(x: DecimalText.Decimal): Dict {
    Tagged("Decimal", ["decimal"], [VStr(DecimalText.ToText(x))])
  }

  function EncodeDecimal(o: Value): (r: Result<Value, Exception>)
    ensures r.Success? <==> o.VDecimal?
    ensures r.Success? ==> r.value.VDict? && Lookup(r.value.entries, ClassKey) == Some(VStr("Decimal"))
    ensures r.Success? ==> Lookup(r.value.entries, "decimal") == Some(VStr(DecimalText.ToText(o.decimal)))
  {
    if o.VDecimal? then Success(VDict(DecimalFields(o.decimal))) else WrongType()
  }

  /** `Decimal(dct['decimal'])`: a text is parsed exactly, an int is taken as
      it is, a Decimal is copied; other values are refused. */
  function DecodeDecimal(d: Dict): (r: Result<Value, Exception>)
    ensures r.Success? ==> r.value.VDecimal?
  {
    var v :- Field(d, "decimal");
    match v
    case VStr(s) =>
      (match DecimalText.Parse(s)
       case Some(x) => Success(VDecimal(x))
       case None => Failure(InvalidOperation(s)))
    case VInt(i) => Success(VDecimal(DecimalText.Finite(i < 0, if i < 0 then -i else i, 0)))
    case VBool(b) => Success(VDecimal(DecimalText.Finite(false, if b then 1 else 0, 0)))
    case VDecimal(x) => Success(VDecimal(x))
    case VFloat(_) => Failure(NotModelled("Decimal from a binary float"))
    case VList(_) => Failure(NotModelled("Decimal from a sign-digits-exponent sequence"))
    case VTuple(_) => Failure(NotModelled("Decimal from a sign-digits-exponent sequence"))
    case _ => Failure(TypeError("Cannot convert to Decimal"))
  }

  // ---------------------------------------------------------------------------
  // Model
  // ---------------------------------------------------------------------------

  const ReprHead := "Pool().get('"
  const ReprMiddle := "')("

  predicate QuoteFree(s: string) {
    forall i :: 0 <= i < |s| ==> s[i] != '\''
  }

  /** The part of the repr after the model name. */
  function ReprTail(id: nat): string {
    ReprMiddle + NatToString(id) + ")"
  }

  /** `repr(record)` of a saved record: the expression that fetches it again. */
  function RecordRepr(model: string, id: nat): string {
    ReprHead + model + ReprTail(id)
  }

  /** `s` cut at its first quote. */
  function SplitAtQuote(s: string): (r: (string, string))
    ensures r.0 + r.1 == s && QuoteFree(r.0)
    ensures r.1 != [] ==> r.1[0] == '\''
  {
    if s == [] then ([], [])
    else if s[0] == '\'' then ([], s)
    else
      var (a, b) := SplitAtQuote(s[1..]);
      ([s[0]] + a, b)
  }

  /** `eval(text, {'Pool': Pool})` for the texts `RecordRepr` writes: the model
      name and id of the record it fetches. */
  function ParseRecordRepr(s: string): (r: Option<(string, nat)>)
    ensures r.Some? ==> QuoteFree(r.value.0)
  {
    if |s| >= |ReprHead| && s[..|ReprHead|] == ReprHead then
      var (model, tail) := SplitAtQuote(s[|ReprHead|..]);
      if |tail| >= 5 && tail[..3] == ReprMiddle && tail[|tail| - 1] == ')' then
        var digits := tail[3..|tail| - 1];
        if AllDigits(digits) && (|digits| == 1 || digits[0] != '0') then Some((model, StringToNat(digits)))
        else None
      else None
    else None
  }

  function ModelFields(model: string, id: nat): Dict {
    Tagged("Model", ["repr"], [VStr(RecordRepr(model, id))])
  }

  function EncodeModel(o: Value): (r: Result<Value, Exception>)
    ensures r.Success? <==> o.VRecord?
    ensures r.Success? ==> r.value.VDict? && Lookup(r.value.entries, ClassKey) == Some(VStr("Model"))
    ensures r.Success? ==> Lookup(r.value.entries, "repr") == Some(VStr(RecordRepr(o.model, o.id)))
  {
    if o.VRecord? then Success(VDict(ModelFields(o.model, o.id))) else WrongType()
  }

  /** `eval(dct['repr'], {'Pool': Pool})`: a record repr fetches the record;
      a value that is not a string cannot be evaluated. */
  function DecodeModel(d: Dict): (r: Result<Value, Exception>)
    ensures r.Success? ==> r.value.VRecord? && QuoteFree(r.value.model)
  {
    var text :- Field(d, "repr");
    if !text.VStr? then Failure(TypeError("eval() arg 1 must be a string or code object"))
    else
      match ParseRecordRepr(text.s)
      case Some((model, id)) => Success(VRecord(model, id))
      case None => Failure(NotModelled("eval of an arbitrary expression"))
  }

  // ---------------------------------------------------------------------------
  // Round trips, one per codec
  // ---------------------------------------------------------------------------

  /** A dict of C-sized integers, written under distinct keys, is read back
      as the same integers. */
  lemma IntFieldsRoundTrip(tag: string, keys: seq<string>, ns: seq<int>)
    requires |keys| == |ns| && DistinctStrings(keys) && ClassKey !in keys
    requires forall i :: 0 <= i < |ns| ==> MinCInt <= ns[i] <= MaxCInt
    ensures Fields(Tagged(tag, keys, IntValues(ns)), keys) == Success(IntValues(ns))
    ensures IntArgs(IntValues(ns)) == Success(ns)
  {
    FieldsOfTagged(tag, keys, IntValues(ns));
    IntArgsOfInts(IntValues(ns), ns);
  }

  lemma DateInCInts(date: Date)
    requires ValidDate(date)
    ensures forall i :: 0 <= i < |DateInts(date)| ==> MinCInt <= DateInts(date)[i] <= MaxCInt
  {
  }

  lemma TimeInCInts(t: Time)
    requires ValidTime(t)
    ensures forall i :: 0 <= i < |TimeInts(t)| ==> MinCInt <= TimeInts(t)[i] <= MaxCInt
  {
  }

  lemma DateTimeInCInts(dt: DateTime)
    requires ValidDateTime(dt)
    ensures forall i :: 0 <= i < |DateTimeInts(dt)| ==> MinCInt <= DateTimeInts(dt)[i] <= MaxCInt
  {
    DateInCInts(dt.date);
    TimeInCInts(dt.time);
    assert DateTimeInts(dt) == DateInts(dt.date) + TimeInts(dt.time);
  }

  /** Naive datetimes come back exactly. */
  lemma DateTimeRoundTrip(dt: DateTime)
    requires ValidDateTime(dt)
    ensures EncodeWith(DateTimeCodec, VDateTime(dt)) == Success(VDict(DateTimeFields(dt)))
    ensures DecodeWith(DateTimeCodec, DateTimeFields(dt)) == Success(VDateTime(dt))
  {
    DateTimeKeysDistinct();
    DateTimeInCInts(dt);
    IntFieldsRoundTrip("datetime", DateTimeKeys, DateTimeInts(dt));
  }

  lemma DateRoundTrip(date: Date)
    requires ValidDate(date)
    ensures EncodeWith(DateCodec, VDate(date)) == Success(VDict(DateFields(date)))
    ensures DecodeWith(DateCodec, DateFields(date)) == Success(VDate(date))
  {
    DateTimeKeysDistinct();
    DateInCInts(date);
    IntFieldsRoundTrip("date", DateKeys, DateInts(date));
  }

  lemma TimeRoundTrip(t: Time)
    requires ValidTime(t)
    ensures EncodeWith(TimeCodec, VTime(t)) == Success(VDict(TimeFields(t)))
    ensures DecodeWith(TimeCodec, TimeFields(t)) == Success(VTime(t))
  {
    DateTimeKeysDistinct();
    TimeInCInts(t);
    IntFieldsRoundTrip("time", TimeKeys, TimeInts(t));
  }

  /** A timedelta comes back exactly, the seconds being carried exactly. */
  lemma TimedeltaRoundTrip(td: Timedelta)
    requires ValidTimedelta(td)
    ensures EncodeWith(TimedeltaCodec, VTimedelta(td)) == Success(VDict(TimedeltaFields(td)))
    ensures DecodeWith(TimedeltaCodec, TimedeltaFields(td)) == Success(VTimedelta(td))
  {
    TimedeltaSecondsDecode(td);
    TimedeltaCodecDecodes(TimedeltaFields(td), VTimedelta(td));
  }

  lemma TimedeltaSecondsDecode(td: Timedelta)
    requires ValidTimedelta(td)
    ensures DecodeTimedelta(TimedeltaFields(td)) == Success(VTimedelta(td))
  {
    LookupAt(TimedeltaFields(td), 1, "seconds");
    TotalSecondsRoundTrip(td);
  }

  lemma TimedeltaCodecDecodes(d: Dict, out: Value)
    requires DecodeTimedelta(d) == Success(out)
    ensures DecodeWith(TimedeltaCodec, d) == Success(out)
  {
  }

  /** bytes and bytearray both come back as a bytearray with the same content. */
  lemma BytesRoundTrip(data: seq<Base64.byte>, mutable: bool)
    ensures EncodeWith(BytesCodec, VBytes(data, mutable)) == Success(VDict(BytesFields(data)))
    ensures DecodeWith(BytesCodec, BytesFields(data)) == Success(VBytes(data, true))
  {
    BytesFieldsDecode(data);
    BytesEncodes(data, mutable);
  }

  lemma BytesEncodes(data: seq<Base64.byte>, mutable: bool)
    ensures EncodeWith(BytesCodec, VBytes(data, mutable)) == Success(VDict(BytesFields(data)))
  {
  }

  lemma BytesFieldsDecode(data: seq<Base64.byte>)
    ensures DecodeWith(BytesCodec, BytesFields(data)) == Success(VBytes(data, true))
  {
    EncodedLinesDecode(data);
  }

  lemma EncodedLinesDecode(data: seq<Base64.byte>)
    ensures DecodeBytes(Tagged("bytes", ["base64"], [VStr(Base64.EncodeLines(data))])) == Success(VBytes(data, true))
  {
    Base64.DecodeEncodeLines(data);
    BytesTextDecode(Base64.EncodeLines(data), data);
  }

  /** A base64 text that decodes to `data` is read back as `data`. */
  lemma BytesTextDecode(text: string, data: seq<Base64.byte>)
    requires Base64.Decode(text) == Some(data)
    ensures DecodeBytes(Tagged("bytes", ["base64"], [VStr(text)])) == Success(VBytes(data, true))
  {
    TextField("bytes", "base64", text);
  }

  /** A Decimal comes back with the same sign, coefficient and exponent. */
  lemma DecimalRoundTrip(x: DecimalText.Decimal)
    ensures EncodeWith(DecimalCodec, VDecimal(x)) == Success(VDict(DecimalFields(x)))
    ensures DecodeWith(DecimalCodec, DecimalFields(x)) == Success(VDecimal(x))
  {
    DecimalFieldsDecode(x);
    DecimalEncodes(x);
  }

  lemma DecimalEncodes(x: DecimalText.Decimal)
    ensures EncodeWith(DecimalCodec, VDecimal(x)) == Success(VDict(DecimalFields(x)))
  {
  }

  lemma DecimalFieldsDecode(x: DecimalText.Decimal)
    ensures DecodeWith(DecimalCodec, DecimalFields(x)) == Success(VDecimal(x))
  {
    DecimalToTextDecode(x);
    DecimalCodecDecodes(DecimalFields(x), VDecimal(x));
  }

  lemma DecimalCodecDecodes(d: Dict, out: Value)
    requires DecodeDecimal(d) == Success(out)
    ensures DecodeWith(DecimalCodec, d) == Success(out)
  {
  }

  lemma DecimalToTextDecode(x: DecimalText.Decimal)
    ensures DecodeDecimal(Tagged("Decimal", ["decimal"], [VStr(DecimalText.ToText(x))])) == Success(VDecimal(x))
  {
    DecimalText.ParseToText(x);
    DecimalTextDecode(DecimalText.ToText(x), x);
  }

  /** A text that parses as `x` is read back as `x`. */
  lemma DecimalTextDecode(text: string, x: DecimalText.Decimal)
    requires DecimalText.Parse(text) == Some(x)
    ensures DecodeDecimal(Tagged("Decimal", ["decimal"], [VStr(text)])) == Success(VDecimal(x))
  {
    TextField("Decimal", "decimal", text);
  }

  lemma {:induction false} SplitAfterQuoteFree(model: string, rest: string)
    requires QuoteFree(model) && rest != [] && rest[0] == '\''
    ensures SplitAtQuote(model + rest) == (model, rest)
  {
    if model != [] {
      assert (model + rest)[0] == model[0];
      assert (model + rest)[1..] == model[1..] + rest;
      SplitAfterQuoteFree(model[1..], rest);
      assert [model[0]] + model[1..] == model;
    } else {
      assert model + rest == rest;
    }
  }

  /** Evaluating a record's repr fetches that record. */
  lemma RecordReprRoundTrip(model: string, id: nat)
    requires QuoteFree(model)
    ensures ParseRecordRepr(RecordRepr(model, id)) == Some((model, id))
  {
    var s := RecordRepr(model, id);
    var digits := NatToString(id);
    var tail := ReprTail(id);
    assert s[..|ReprHead|] == ReprHead;
    assert s[|ReprHead|..] == model + tail;
    assert tail[0] == '\'';
    SplitAfterQuoteFree(model, tail);
    assert tail[..3] == ReprMiddle;
    assert tail[3..|tail| - 1] == digits;
    NatStringRoundTrip(id);
  }

  lemma ModelRoundTrip(model: string, id: nat)
    requires QuoteFree(model)
    ensures EncodeWith(ModelCodec, VRecord(model, id)) == Success(VDict(ModelFields(model, id)))
    ensures DecodeWith(ModelCodec, ModelFields(model, id)) == Success(VRecord(model, id))
  {
    ModelFieldsDecode(model, id);
    ModelEncodes(model, id);
  }

  lemma ModelEncodes(model: string, id: nat)
    ensures EncodeWith(ModelCodec, VRecord(model, id)) == Success(VDict(ModelFields(model, id)))
  {
  }

  lemma ModelFieldsDecode(model: string, id: nat)
    requires QuoteFree(model)
    ensures DecodeWith(ModelCodec, ModelFields(model, id)) == Success(VRecord(model, id))
  {
    RecordReprDecode(model, id);
  }

  lemma RecordReprDecode(model: string, id: nat)
    requires QuoteFree(model)
    ensures DecodeModel(Tagged("Model", ["repr"], [VStr(RecordRepr(model, id))])) == Success(VRecord(model, id))
  {
    RecordReprRoundTrip(model, id);
    ModelTextDecode(RecordRepr(model, id), model, id);
  }

  /** A text that reads as the repr of record `id` of `model` fetches that record. */
  lemma ModelTextDecode(text: string, model: string, id: nat)
    requires ParseRecordRepr(text) == Some((model, id))
    ensures DecodeModel(Tagged("Model", ["repr"], [VStr(text)])) == Success(VRecord(model, id))
  {
    TextField("Model", "repr", text);
  }

  // ---------------------------------------------------------------------------
  // The codecs by name
  // ---------------------------------------------------------------------------

  /** The module's own codecs, one per tag. */
  datatype Codec = DateTimeCodec | DateCodec | TimeCodec | TimedeltaCodec | BytesCodec | DecimalCodec | ModelCodec

  /** The tag the codec's encoder writes and its decoder is registered under. */
  function CodecTag(c: Codec): string {
    match c
    case DateTimeCodec => "datetime"
    case DateCodec => "date"
    case TimeCodec => "time"
    case TimedeltaCodec => "timedelta"
    case BytesCodec => "bytes"
    case DecimalCodec => "Decimal"
    case ModelCodec => "Model"
  }

  /** The fields the codec's decoder reads, in order. */
  function CodecKeys(c: Codec): seq<string> {
    match c
    case DateTimeCodec => DateTimeKeys
    case DateCodec => DateKeys
    case TimeCodec => TimeKeys
    case TimedeltaCodec => ["seconds"]
    case BytesCodec => ["base64"]
    case DecimalCodec => ["decimal"]
    case ModelCodec => ["repr"]
  }

  function EncodeWith(c: Codec, v: Value): Result<Value, Exception> {
    match c
    case DateTimeCodec => EncodeDateTime(v)
    case DateCodec => EncodeDate(v)
    case TimeCodec => EncodeTime(v)
    case TimedeltaCodec => EncodeTimedelta(v)
    case BytesCodec => EncodeBytes(v)
    case DecimalCodec => EncodeDecimal(v)
    case ModelCodec => EncodeModel(v)
  }

  function DecodeWith(c: Codec, d: Dict): Result<Value, Exception> {
    match c
    case DateTimeCodec => DecodeDateTime(d)
    case DateCodec => DecodeDate(d)
    case TimeCodec => DecodeTime(d)
    case TimedeltaCodec => DecodeTimedelta(d)
    case BytesCodec => DecodeBytes(d)
    case DecimalCodec => DecodeDecimal(d)
    case ModelCodec => DecodeModel(d)
  }

  /** Each codec reads distinct fields, none of them the tag. */
  lemma CodecKeysDistinct(c: Codec)
    ensures DistinctStrings(CodecKeys(c)) && ClassKey !in CodecKeys(c)
  {
    DateTimeKeysDistinct();
  }
}
