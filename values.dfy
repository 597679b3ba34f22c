/** The Python values that travel in a payload, the JSON values they are
    written as, and the exceptions the deferred-call protocol raises. */
module Values {
  import opened Wrappers
  import Temporal
  import Base64
  import DecimalText

  /** A Python value. A dict is an association list with string keys; its
      order is the order the encoder writes and the decoder reads. */
  datatype Value =
    | VNone
    | VBool(b: bool)
    | VInt(i: int)
    | VFloat(r: real)
    | VStr(s: string)
    | VList(items: seq<Value>)
    | VTuple(items: seq<Value>)
    | VDict(entries: seq<(string, Value)>)
    | VDateTime(dateTime: Temporal.DateTime)
    | VDate(date: Temporal.Date)
    | VTime(time: Temporal.Time)
    | VTimedelta(delta: Temporal.Timedelta)
      /** A `bytes` (`mutable == false`) or a `bytearray` (`mutable == true`). */
    | VBytes(data: seq<Base64.byte>, mutable: bool)
    | VDecimal(decimal: DecimalText.Decimal)
      /** An active record: an instance of the `Model` named `model` with id `id`. */
    | VRecord(model: string, id: nat)
      /** An instance of any other class, named by its class. */
    | VObject(cls: string)

  type Dict = seq<(string, Value)>

  /** A JSON value. Numbers keep Python's distinction between an int and a float. */
  datatype Json =
    | JNull
    | JBool(b: bool)
    | JInt(i: int)
    | JFloat(r: real)
    | JString(s: string)
    | JArray(items: seq<Json>)
    | JObject(members: seq<(string, Json)>)

  /** The exact runtime type of a value, the key of the encoder registry. */
  datatype PyType =
    | TNone | TBool | TInt | TFloat | TStr | TList | TTuple | TDict
    | TDateTime | TDate | TTime | TTimedelta | TBytes | TByteArray | TDecimal
      /** The `Model` base class itself. */
    | TModel
      /** The class of the records of one model. */
    | TRecordClass(model: string)
    | TClass(name: string)

  /** The Python exceptions of the protocol. Messages are informative only. */
  datatype Exception =
    | KeyError(key: string)
    | TypeError(message: string)
    | ValueError(message: string)
    | OverflowError(message: string)
    | AttributeError(message: string)
    | AssertionError
      /** `decimal.InvalidOperation` for a text that is not a decimal literal. */
    | InvalidOperation(text: string)
      /** `binascii.Error` for base64 text with incorrect padding. */
    | Base64Error
      /** `RetryWithDelay(delay)`, raised by model code to ask for a retry. */
    | RetryWithDelay(delay: Value)
      /** The backend's `DatabaseOperationalError`. */
    | DatabaseOperationalError
      /** Any other exception raised by the invoked model method. */
    | OtherError(name: string)
      /** A case the model does not describe; see the README. */
    | NotModelled(what: string)

  function TypeOf(v: Value): PyType {
    match v
    case VNone => TNone
    case VBool(_) => TBool
    case VInt(_) => TInt
    case VFloat(_) => TFloat
    case VStr(_) => TStr
    case VList(_) => TList
    case VTuple(_) => TTuple
    case VDict(_) => TDict
    case VDateTime(_) => TDateTime
    case VDate(_) => TDate
    case VTime(_) => TTime
    case VTimedelta(_) => TTimedelta
    case VBytes(_, mutable) => if mutable then TByteArray else TBytes
    case VDecimal(_) => TDecimal
    case VRecord(model, _) => TRecordClass(model)
    case VObject(cls) => TClass(cls)
  }

  /** The types `json.dumps` writes without calling `default`. Under Python 2
      a byte string is a `str`, which is written as text. */
  predicate IsNative(v: Value) {
    v.VNone? || v.VBool? || v.VInt? || v.VFloat? || v.VStr? || v.VList? || v.VTuple? || v.VDict? ||
    (v.VBytes? && !v.mutable)
  }

  /** A byte string of ASCII characters only. */
  predicate IsAscii(data: seq<Base64.byte>) {
    forall i :: 0 <= i < |data| ==> data[i] < 128
  }

  /** The characters whose codes are the bytes: the text of an ASCII byte string. */
  function AsciiText(data: seq<Base64.byte>): (s: string)
    ensures |s| == |data| && forall i :: 0 <= i < |data| ==> s[i] as int == data[i]
  {
    seq(|data|, i requires 0 <= i < |data| => data[i] as char)
  }

  /** Python truthiness (`if instance:`). Under Python 2 a `time` is false at
      midnight; records and other objects are true. */
  predicate Truthy(v: Value) {
    match v
    case VNone => false
    case VBool(b) => b
    case VInt(i) => i != 0
    case VFloat(r) => r != 0.0
    case VStr(s) => s != []
    case VList(items) => items != []
    case VTuple(items) => items != []
    case VDict(entries) => entries != []
    case VTime(t) => t != Temporal.Time(0, 0, 0, 0)
    case VTimedelta(td) => td.micros != 0
    case VBytes(data, _) => data != []
    case VDecimal(d) => !(d.Finite? && d.coefficient == 0)
    case _ => true
  }

  /** Whether a value can be a dict key or be looked up in one. */
  predicate Hashable(v: Value) {
    match v
    case VList(_) => false
    case VDict(_) => false
    case VBytes(_, mutable) => !mutable
    case VTuple(items) => forall i | 0 <= i < |items| :: Hashable(items[i])
    case _ => true
  }

  // ---------------------------------------------------------------------------
  // Dicts as association lists
  // ---------------------------------------------------------------------------

  function Keys<V>(d: seq<(string, V)>): (ks: seq<string>)
    ensures |ks| == |d|
  {
    if d == [] then [] else [d[0].0] + Keys(d[1..])
  }

  /** No key occurs twice, as in every Python dict. */
  predicate DistinctKeys<V>(d: seq<(string, V)>) {
    d == [] || (d[0].0 !in Keys(d[1..]) && DistinctKeys(d[1..]))
  }

  /** `d.get(key)`: the value stored under `key`, if any. */
  function Lookup<V>(d: seq<(string, V)>, key: string): (r: Option<V>)
    ensures r.None? <==> key !in Keys(d)
  {
    if d == [] then None
    else if d[0].0 == key then Some(d[0].1)
    else Lookup(d[1..], key)
  }

  /** `d.pop(key, None)` without its result: the dict without that key. */
  function Remove<V>(d: seq<(string, V)>, key: string): (r: seq<(string, V)>)
    ensures key !in Keys(r)
    ensures forall k :: k != key ==> Lookup(r, k) == Lookup(d, k)
  {
    if d == [] then []
    else if d[0].0 == key then Remove(d[1..], key)
    else [d[0]] + Remove(d[1..], key)
  }

  /** `dict(pairs)`: a key that occurs more than once keeps its last value. */
  function FromPairs<V>(pairs: seq<(string, V)>): (d: seq<(string, V)>)
    ensures DistinctKeys(d)
    ensures forall k :: k in Keys(d) <==> k in Keys(pairs)
    ensures forall k :: Lookup(d, k) == LastValue(pairs, k)
  {
    if pairs == [] then []
    else
      var rest := FromPairs(pairs[1..]);
      if pairs[0].0 in Keys(pairs[1..]) then rest else [pairs[0]] + rest
  }

  /** The value of the last entry with key `k`. */
  function LastValue<V>(pairs: seq<(string, V)>, k: string): Option<V> {
    if pairs == [] then None
    else if k in Keys(pairs[1..]) then LastValue(pairs[1..], k)
    else if pairs[0].0 == k then Some(pairs[0].1)
    else None
  }

  /** A dict with distinct keys is the dict built from its own entries. */
  lemma {:induction false} FromPairsDistinct<V>(d: seq<(string, V)>)
    requires DistinctKeys(d)
    ensures FromPairs(d) == d
  {
    if d != [] {
      FromPairsDistinct(d[1..]);
    }
  }

  /** The value of the first entry with a key is what `Lookup` finds. */
  lemma {:induction false} LookupAt<V>(d: seq<(string, V)>, i: nat, key: string)
    requires i < |d| && d[i].0 == key
    requires forall j :: 0 <= j < i ==> d[j].0 != key
    ensures Lookup(d, key) == Some(d[i].1)
  {
    if i > 0 {
      LookupAt(d[1..], i - 1, key);
    }
  }

  /** What `Lookup` finds is stored in an entry under the key. */
  lemma {:induction false} LookupSome<V>(d: seq<(string, V)>, key: string)
    requires Lookup(d, key).Some?
    ensures exists i :: 0 <= i < |d| && d[i] == (key, Lookup(d, key).value)
  {
    if d[0].0 != key {
      LookupSome(d[1..], key);
      var i :| 0 <= i < |d[1..]| && d[1..][i] == (key, Lookup(d[1..], key).value);
      assert d[i + 1] == d[1..][i];
    }
  }

  /** The keys of a dict are the first components of its entries. */
  lemma {:induction false} KeysOfPairs<V>(d: seq<(string, V)>, keys: seq<string>)
    requires |d| == |keys| && forall i :: 0 <= i < |d| ==> d[i].0 == keys[i]
    ensures Keys(d) == keys
  {
    if d != [] {
      KeysOfPairs(d[1..], keys[1..]);
    }
  }

  lemma {:induction false} KeysAt<V>(d: seq<(string, V)>, key: string)
    requires key in Keys(d)
    ensures exists i :: 0 <= i < |d| && d[i].0 == key
  {
    if d[0].0 != key {
      KeysAt(d[1..], key);
      var i :| 0 <= i < |d[1..]| && d[1..][i].0 == key;
      assert d[i + 1].0 == key;
    }
  }

  /** Keys that differ pairwise are distinct keys. */
  lemma {:induction false} DistinctByIndex<V>(d: seq<(string, V)>)
    requires forall i, j :: 0 <= i < j < |d| ==> d[i].0 != d[j].0
    ensures DistinctKeys(d)
  {
    if d != [] {
      DistinctByIndex(d[1..]);
      if d[0].0 in Keys(d[1..]) {
        KeysAt(d[1..], d[0].0);
        assert false;
      }
    }
  }
}
