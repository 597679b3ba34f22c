/** Base64 as `base64.encodestring`/`base64.decodestring` use it for the `bytes`
    codec: the standard alphabet and padding of section 4 of RFC 4648, with the
    encoded text broken into lines of at most 76 characters, each ending in a
    newline, as section 6.8 of RFC 2045 prescribes. */
module Base64 {
  import opened Wrappers

  type byte = x: int | 0 <= x < 256
  type sextet = x: int | 0 <= x < 64

  const Pad: char := '='

  /** Bytes per encoded line: 57 bytes give 76 characters. */
  const LineBytes: nat := 57

  predicate InAlphabet(c: char) {
    ('A' <= c <= 'Z') || ('a' <= c <= 'z') || ('0' <= c <= '9') || c == '+' || c == '/'
  }

  function SextetChar(v: sextet): (c: char)
    ensures InAlphabet(c)
  {
    if v < 26 then ('A' as int + v) as char
    else if v < 52 then ('a' as int + (v - 26)) as char
    else if v < 62 then ('0' as int + (v - 52)) as char
    else if v == 62 then '+'
    else '/'
  }

  function CharSextet(c: char): (v: sextet)
    requires InAlphabet(c)
  {
    if 'A' <= c <= 'Z' then c as int - 'A' as int
    else if 'a' <= c <= 'z' then c as int - 'a' as int + 26
    else if '0' <= c <= '9' then c as int - '0' as int + 52
    else if c == '+' then 62
    else 63
  }

  lemma CharRoundTrip(c: char)
    requires InAlphabet(c)
    ensures SextetChar(CharSextet(c)) == c
  {
  }

  lemma SextetRoundTrip(v: sextet)
    ensures CharSextet(SextetChar(v)) == v
  {
  }

  /** Three bytes as four characters. */
  function EncodeGroup(a: byte, b: byte, c: byte): (s: string)
    ensures |s| == 4
  {
    [SextetChar(a / 4), SextetChar((a % 4) * 16 + b / 16),
     SextetChar((b % 16) * 4 + c / 64), SextetChar(c % 64)]
  }

  /** The last one or two bytes, padded to four characters. */
  function EncodeTail(t: seq<byte>): (s: string)
    requires 1 <= |t| <= 2
    ensures |s| == 4
  {
    if |t| == 1 then [SextetChar(t[0] / 4), SextetChar((t[0] % 4) * 16), Pad, Pad]
    else [SextetChar(t[0] / 4), SextetChar((t[0] % 4) * 16 + t[1] / 16), SextetChar((t[1] % 16) * 4), Pad]
  }

  /** Base64 encoding of section 4 of RFC 4648, without line breaks. */
  function Encode(data: seq<byte>): (s: string)
    ensures |s| == (|data| + 2) / 3 * 4
    decreases |data|
  {
    if |data| == 0 then []
    else if |data| < 3 then EncodeTail(data)
    else EncodeGroup(data[0], data[1], data[2]) + Encode(data[3..])
  }

  /** `base64.encodestring`: the input in chunks of 57 bytes, each encoded and
      followed by a newline; the empty input gives the empty text. */
  function EncodeLines(data: seq<byte>): (s: string)
    ensures |s| == 0 <==> |data| == 0
    ensures |s| > 0 ==> s[|s| - 1] == '\n'
    decreases |data|
  {
    if |data| == 0 then []
    else
      var n := if |data| < LineBytes then |data| else LineBytes;
      Encode(data[..n]) + "\n" + EncodeLines(data[n..])
  }

  /** The characters a decoder keeps: the alphabet and the pad character.
      Line breaks and every other character are discarded. */
  function Filter(s: string): (t: string)
    ensures forall i :: 0 <= i < |t| ==> InAlphabet(t[i]) || t[i] == Pad
  {
    if s == [] then []
    else (if InAlphabet(s[0]) || s[0] == Pad then [s[0]] else []) + Filter(s[1..])
  }

  function Pow2(n: nat): (r: nat)
    ensures r > 0
  {
    if n == 0 then 1 else 2 * Pow2(n - 1)
  }

  /** The state of `binascii.a2b_base64` between two characters: the position
      in the current quad, the bits not yet written (`bits` of them, in `acc`)
      and the bytes written so far. */
  datatype A2bState = A2bState(quadPos: nat, acc: nat, bits: nat, out: seq<byte>)

  const Start := A2bState(0, 0, 0, [])

  /** One data character: its six bits join the pending ones, and a whole
      byte among them is written out. */
  function Shift(st: A2bState, v: sextet): (r: A2bState)
    ensures 8 * |r.out| + r.bits == 8 * |st.out| + st.bits + 6
    ensures r.quadPos == (st.quadPos + 1) % 4
  {
    var acc, bits, q := st.acc * 64 + v, st.bits + 6, (st.quadPos + 1) % 4;
    if bits >= 8 then
      var k := Pow2(bits - 8);
      A2bState(q, acc % k, bits - 8, st.out + [(acc / k) % 256])
    else A2bState(q, acc, bits, st.out)
  }

  /** `binascii.a2b_base64` on filtered text, from position `i` on. A pad
      before the third character of a quad, or a lone pad as its third, is
      skipped; any other pad ends the input. `None` stands for the "Incorrect
      padding" error: input that ends with bits left over. */
  function A2b(st: A2bState, t: string, i: nat): (r: Option<seq<byte>>)
    requires i <= |t|
    ensures r.Some? ==> 8 * |r.value| <= 8 * |st.out| + st.bits + 6 * (|t| - i)
    decreases |t| - i
  {
    if i == |t| then (if st.bits != 0 then None else Some(st.out))
    else if t[i] == Pad then
      if st.quadPos < 2 || (st.quadPos == 2 && (i + 1 == |t| || t[i + 1] != Pad)) then A2b(st, t, i + 1)
      else Some(st.out)
    else if InAlphabet(t[i]) then A2b(Shift(st, CharSextet(t[i])), t, i + 1)
    else A2b(st, t, i + 1)
  }

  /** `base64.decodestring`: the characters outside the alphabet are dropped
      and the rest decoded. Every four characters give at most three bytes. */
  function Decode(s: string): (r: Option<seq<byte>>)
    ensures r.Some? ==> 4 * |r.value| <= 3 * |Filter(s)|
    ensures Filter(s) == [] ==> r == Some([])
  {
    A2b(Start, Filter(s), 0)
  }

  /** The sextets of three bytes put back together give the bytes. */
  lemma GroupArithmetic(a: byte, b: byte, c: byte)
    ensures var x, y := (a % 4) * 16 + b / 16, (b % 16) * 4 + c / 64;
      (a / 4) * 4 + x / 16 == a && (x % 16) * 16 + y / 4 == b && (y % 4) * 64 + c % 64 == c
  {
    DivModSum(a % 4, b / 16, 16);
    DivModSum(b % 16, c / 64, 4);
  }

  lemma DivModSum(hi: nat, lo: nat, k: nat)
    requires 0 <= lo < k
    ensures (hi * k + lo) / k == hi && (hi * k + lo) % k == lo
  {
    var n := hi * k + lo;
    assert n == hi * k + lo;
    DivModUnique(n, k, hi, lo);
  }

  lemma DivModUnique(n: int, k: int, q: int, r: int)
    requires k > 0 && 0 <= r < k && n == q * k + r
    ensures n / k == q && n % k == r
  {
    var q', r' := n / k, n % k;
    MulSign(q' - q, k);
    assert (q' - q) * k == r - r';
  }

  lemma MulSign(d: int, k: int)
    requires k > 0
    ensures d >= 1 ==> d * k >= k
    ensures d <= -1 ==> d * k <= -k
  {
  }

  /** The four steps of a quad: the bits pending after each data character,
      and the byte the second, third and fourth write. */
  lemma StepOne(out: seq<byte>, w: sextet)
    ensures Shift(A2bState(0, 0, 0, out), w) == A2bState(1, w, 6, out)
  {
  }

  lemma StepTwo(out: seq<byte>, w: sextet, x: sextet)
    ensures Shift(A2bState(1, w, 6, out), x) == A2bState(2, x % 16, 4, out + [w * 4 + x / 16])
  {
    Pow2Small();
    DivModUnique(w * 64 + x, 16, w * 4 + x / 16, x % 16);
  }

  lemma StepThree(out: seq<byte>, b1: byte, r: nat, y: sextet)
    requires r < 16
    ensures Shift(A2bState(2, r, 4, out + [b1]), y) == A2bState(3, y % 4, 2, out + [b1, r * 16 + y / 4])
  {
    Pow2Small();
    DivModUnique(r * 64 + y, 4, r * 16 + y / 4, y % 4);
    assert out + [b1] + [r * 16 + y / 4] == out + [b1, r * 16 + y / 4];
  }

  lemma StepFour(out: seq<byte>, b1: byte, b2: byte, r: nat, z: sextet)
    requires r < 4
    ensures Shift(A2bState(3, r, 2, out + [b1, b2]), z) == A2bState(0, 0, 0, out + [b1, b2, r * 64 + z])
  {
    Pow2Small();
    assert out + [b1, b2] + [r * 64 + z] == out + [b1, b2, r * 64 + z];
  }

  lemma Pow2Small()
    ensures Pow2(0) == 1 && Pow2(2) == 4 && Pow2(4) == 16
  {
    assert Pow2(1) == 2;
    assert Pow2(3) == 8;
  }

  /** A data character is shifted in; the rest of the text follows. */
  lemma A2bData(st: A2bState, t: string, i: nat)
    requires i < |t| && InAlphabet(t[i])
    ensures A2b(st, t, i) == A2b(Shift(st, CharSextet(t[i])), t, i + 1)
  {
    assert t[i] != Pad;
  }

  /** A pad that is followed by a pad, past the second character of a quad, ends the input. */
  lemma A2bStop(st: A2bState, t: string, i: nat)
    requires i + 1 < |t| && t[i] == Pad && t[i + 1] == Pad && st.quadPos == 2
    ensures A2b(st, t, i) == Some(st.out)
  {
  }

  /** A pad as the fourth character of a quad ends the input. */
  lemma A2bStopLast(st: A2bState, t: string, i: nat)
    requires i < |t| && t[i] == Pad && st.quadPos == 3
    ensures A2b(st, t, i) == Some(st.out)
  {
  }

  /** The first two characters of a quad write one byte and leave four bits. */
  lemma A2bFirstTwo(out: seq<byte>, t: string, i: nat, w: sextet, x: sextet, b1: byte)
    requires i + 2 <= |t| && InAlphabet(t[i]) && InAlphabet(t[i + 1])
    requires CharSextet(t[i]) == w && CharSextet(t[i + 1]) == x && b1 == w * 4 + x / 16
    ensures A2b(A2bState(0, 0, 0, out), t, i) == A2b(A2bState(2, x % 16, 4, out + [b1]), t, i + 2)
  {
    A2bData(A2bState(0, 0, 0, out), t, i);
    StepOne(out, w);
    A2bData(A2bState(1, w, 6, out), t, i + 1);
    StepTwo(out, w, x);
  }

  /** The last two characters of a quad write two bytes and leave none. */
  lemma A2bLastTwo(out: seq<byte>, b1: byte, r: nat, t: string, i: nat, y: sextet, z: sextet, b2: byte, b3: byte)
    requires r < 16 && i + 2 <= |t| && InAlphabet(t[i]) && InAlphabet(t[i + 1])
    requires CharSextet(t[i]) == y && CharSextet(t[i + 1]) == z
    requires b2 == r * 16 + y / 4 && b3 == (y % 4) * 64 + z
    ensures A2b(A2bState(2, r, 4, out + [b1]), t, i) == A2b(A2bState(0, 0, 0, out + [b1, b2, b3]), t, i + 2)
  {
    A2bData(A2bState(2, r, 4, out + [b1]), t, i);
    StepThree(out, b1, r, y);
    A2bData(A2bState(3, y % 4, 2, out + [b1, b2]), t, i + 1);
    StepFour(out, b1, b2, y % 4, z);
  }

  /** A final quad of one byte and two pads writes the byte and stops at the
      second pad. */
  lemma TailOneRoundTrip(out: seq<byte>, a: byte, t: string, i: nat)
    requires i + 4 <= |t| && t[i..i + 4] == EncodeTail([a])
    ensures A2b(A2bState(0, 0, 0, out), t, i) == Some(out + [a])
  {
    var q := EncodeTail([a]);
    var w, x := a / 4, (a % 4) * 16;
    SextetRoundTrip(w); SextetRoundTrip(x);
    DivModSum(a % 4, 0, 16);
    assert t[i] == q[0] && t[i + 1] == q[1] && t[i + 2] == q[2] && t[i + 3] == q[3];
    A2bFirstTwo(out, t, i, w, x, a);
    A2bStop(A2bState(2, x % 16, 4, out + [a]), t, i + 2);
  }

  /** A final quad of two bytes and a pad writes the bytes and stops at the pad. */
  lemma TailTwoRoundTrip(out: seq<byte>, a: byte, b: byte, t: string, i: nat)
    requires i + 4 <= |t| && t[i..i + 4] == EncodeTail([a, b])
    ensures A2b(A2bState(0, 0, 0, out), t, i) == Some(out + [a, b])
  {
    var q := EncodeTail([a, b]);
    var w, x, y := a / 4, (a % 4) * 16 + b / 16, (b % 16) * 4;
    SextetRoundTrip(w); SextetRoundTrip(x); SextetRoundTrip(y);
    GroupArithmetic(a, b, 0);
    assert t[i] == q[0] && t[i + 1] == q[1] && t[i + 2] == q[2] && t[i + 3] == q[3];
    A2bFirstTwo(out, t, i, w, x, a);
    A2bData(A2bState(2, x % 16, 4, out + [a]), t, i + 2);
    StepThree(out, a, x % 16, y);
    A2bStopLast(A2bState(3, y % 4, 2, out + [a, b]), t, i + 3);
  }

  /** The encoding of three bytes decodes to them, whatever follows. */
  lemma A2bGroup(out: seq<byte>, a: byte, b: byte, c: byte, t: string, i: nat)
    requires i + 4 <= |t| && t[i..i + 4] == EncodeGroup(a, b, c)
    ensures A2b(A2bState(0, 0, 0, out), t, i) == A2b(A2bState(0, 0, 0, out + [a, b, c]), t, i + 4)
  {
    var g := EncodeGroup(a, b, c);
    var w, x, y, z := a / 4, (a % 4) * 16 + b / 16, (b % 16) * 4 + c / 64, c % 64;
    SextetRoundTrip(w); SextetRoundTrip(x); SextetRoundTrip(y); SextetRoundTrip(z);
    assert t[i] == g[0] && t[i + 1] == g[1] && t[i + 2] == g[2] && t[i + 3] == g[3];
    GroupArithmetic(a, b, c);
    A2bFirstTwo(out, t, i, w, x, a);
    A2bLastTwo(out, a, x % 16, t, i + 2, y, z, b, c);
  }

  /** `a2b_base64` inverts encoding: after the bytes already written, the
      encoding of `data` adds exactly `data`. */
  lemma {:induction false} A2bEncode(out: seq<byte>, data: seq<byte>, t: string, i: nat)
    requires i <= |t| && t[i..] == Encode(data)
    ensures A2b(A2bState(0, 0, 0, out), t, i) == Some(out + data)
    decreases |data|
  {
    if |data| == 0 {
      assert out + data == out;
    } else if |data| == 1 {
      assert data == [data[0]] && t[i..i + 4] == t[i..];
      TailOneRoundTrip(out, data[0], t, i);
    } else if |data| == 2 {
      assert data == [data[0], data[1]] && t[i..i + 4] == t[i..];
      TailTwoRoundTrip(out, data[0], data[1], t, i);
    } else {
      var a, b, c := data[0], data[1], data[2];
      EncodeCons(data);
      SplitAt(t, i, EncodeGroup(a, b, c), Encode(data[3..]));
      A2bGroup(out, a, b, c, t, i);
      A2bEncode(out + [a, b, c], data[3..], t, i + 4);
      ConsGroup(out, data);
    }
  }

  lemma SplitAt(t: string, i: nat, g: string, rest: string)
    requires i <= |t| && t[i..] == g + rest && |g| == 4
    ensures i + 4 <= |t| && t[i..i + 4] == g && t[i + 4..] == rest
  {
    assert t[i..][..4] == g && t[i..][4..] == rest;
  }

  lemma ConsGroup(out: seq<byte>, data: seq<byte>)
    requires |data| >= 3
    ensures out + [data[0], data[1], data[2]] + data[3..] == out + data
  {
    assert [data[0], data[1], data[2]] + data[3..] == data;
  }

  lemma EncodeCons(data: seq<byte>)
    requires |data| >= 3
    ensures Encode(data) == EncodeGroup(data[0], data[1], data[2]) + Encode(data[3..])
  {
  }

  /** Encoding a prefix of whole groups and the rest separately is encoding the whole. */
  lemma {:induction false} EncodeConcat(a: seq<byte>, b: seq<byte>)
    requires |a| % 3 == 0
    ensures Encode(a + b) == Encode(a) + Encode(b)
    decreases |a|
  {
    if |a| == 0 {
      assert a + b == b;
    } else {
      assert (a + b)[3..] == a[3..] + b;
      EncodeConcat(a[3..], b);
    }
  }

  lemma {:induction false} FilterConcat(s: string, t: string)
    ensures Filter(s + t) == Filter(s) + Filter(t)
    decreases |s|
  {
    if s == [] {
      assert s + t == t;
    } else {
      assert (s + t)[1..] == s[1..] + t;
      FilterConcat(s[1..], t);
    }
  }

  lemma {:induction false} FilterKeeps(s: string)
    requires forall i :: 0 <= i < |s| ==> InAlphabet(s[i]) || s[i] == Pad
    ensures Filter(s) == s
    decreases |s|
  {
    if s != [] {
      FilterKeeps(s[1..]);
    }
  }

  lemma EncodeChars(data: seq<byte>)
    ensures forall i :: 0 <= i < |Encode(data)| ==> InAlphabet(Encode(data)[i]) || Encode(data)[i] == Pad
    decreases |data|
  {
    if |data| >= 3 {
      EncodeChars(data[3..]);
    }
  }

  /** The filter drops a line break and keeps an encoded line. */
  lemma FilterLine(head: string, tail: string)
    requires forall i :: 0 <= i < |head| ==> InAlphabet(head[i]) || head[i] == Pad
    ensures Filter(head + "\n" + tail) == head + Filter(tail)
  {
    var line := head + "\n";
    FilterConcat(line, tail);
    FilterConcat(head, "\n");
    FilterNewline();
    FilterKeeps(head);
    assert Filter(line) == head;
  }

  lemma FilterNewline()
    ensures Filter("\n") == []
  {
    assert !InAlphabet('\n') && '\n' != Pad;
    assert "\n"[1..] == [];
  }

  /** Dropping the line breaks of `encodestring`'s output leaves the plain encoding. */
  lemma {:induction false} FilterEncodeLines(data: seq<byte>)
    ensures Filter(EncodeLines(data)) == Encode(data)
    decreases |data|
  {
    if |data| > 0 {
      var n := if |data| < LineBytes then |data| else LineBytes;
      var head := Encode(data[..n]);
      assert EncodeLines(data) == head + "\n" + EncodeLines(data[n..]);
      EncodeChars(data[..n]);
      FilterLine(head, EncodeLines(data[n..]));
      FilterEncodeLines(data[n..]);
      assert data[..n] + data[n..] == data;
      if n == LineBytes {
        EncodeConcat(data[..n], data[n..]);
      } else {
        assert data[n..] == [] && data[..n] == data;
      }
    }
  }

  /** The `bytes` codec's text round-trips: `decodestring(encodestring(b)) == b`. */
  lemma DecodeEncodeLines(data: seq<byte>)
    ensures Decode(EncodeLines(data)) == Some(data)
  {
    FilterEncodeLines(data);
    A2bEncode([], data, Encode(data), 0);
    assert Start == A2bState(0, 0, 0, []) && [] + data == data;
  }

  /** A pad after whole quads is skipped: "QUJD=" decodes to "ABC". */
  lemma TrailingPadSkipped(data: seq<byte>)
    requires |data| % 3 == 0
    ensures Decode(EncodeLines(data) + [Pad]) == Some(data)
  {
    FilterPadded(data);
    A2bPadded(data);
  }

  lemma FilterPadded(data: seq<byte>)
    ensures Filter(EncodeLines(data) + [Pad]) == Encode(data) + [Pad]
  {
    FilterConcat(EncodeLines(data), [Pad]);
    FilterEncodeLines(data);
    FilterKeeps([Pad]);
  }

  lemma A2bPadded(data: seq<byte>)
    requires |data| % 3 == 0
    ensures A2b(Start, Encode(data) + [Pad], 0) == Some(data)
  {
    var t := Encode(data) + [Pad];
    assert t[0..] == t;
    var n := GroupCount(|data|);
    A2bGroupsPad([], data, n, t, 0);
    assert [] + data == data;
  }

  /** A pad before the third character of a quad is skipped. */
  lemma A2bSkipPad(st: A2bState, t: string, i: nat)
    requires i < |t| && t[i] == Pad && st.quadPos < 2
    ensures A2b(st, t, i) == A2b(st, t, i + 1)
  {
  }

  /** A pad sequence ends the input: after the quad of a single byte, whatever
      follows is never read. "QQ==QUJD" decodes to "A". */
  lemma PadSequenceEnds(a: byte, rest: string)
    ensures Decode(EncodeLines([a]) + rest) == Some([a])
  {
    var e := Encode([a]);
    var t := e + Filter(rest);
    FilterConcat(EncodeLines([a]), rest);
    FilterEncodeLines([a]);
    assert t[0..4] == e;
    TailOneRoundTrip([], a, t, 0);
    assert Start == A2bState(0, 0, 0, []) && [] + [a] == [a];
  }

  /** Whole groups decode to their bytes, whatever follows them. */
  lemma {:induction false} A2bGroupsPad(out: seq<byte>, data: seq<byte>, n: nat, t: string, i: nat)
    requires |data| == 3 * n && i <= |t| && t[i..] == Encode(data) + [Pad]
    ensures A2b(A2bState(0, 0, 0, out), t, i) == Some(out + data)
    decreases n
  {
    if n == 0 {
      assert out + data == out && t[i..] == [Pad];
      A2bSkipPad(A2bState(0, 0, 0, out), t, i);
    } else {
      var a, b, c := data[0], data[1], data[2];
      EncodeCons(data);
      SplitAt(t, i, EncodeGroup(a, b, c), Encode(data[3..]) + [Pad]);
      A2bGroup(out, a, b, c, t, i);
      A2bGroupsPad(out + [a, b, c], data[3..], n - 1, t, i + 4);
      ConsGroup(out, data);
    }
  }

  /** A multiple of three is three times a whole number of groups. */
  lemma GroupCount(k: nat) returns (n: nat)
    requires k % 3 == 0
    ensures k == 3 * n
  {
    n := k / 3;
    DivModUnique(k, 3, n, 0);
  }

  /** Every line of `encodestring`'s output but the last is 76 characters long
      and the last at most 76; every line ends in a newline. */
  lemma {:induction false} LineShape(data: seq<byte>)
    requires |data| > 0
    ensures var n := if |data| < LineBytes then |data| else LineBytes;
      var line := Encode(data[..n]);
      && |line| <= 76
      && (|data| > LineBytes ==> |line| == 76)
      && EncodeLines(data) == line + "\n" + EncodeLines(data[n..])
  {
  }
}
