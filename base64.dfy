/**
 * The server's BinaryConverter (server/app/utils/base64_converter.py): Base64
 * encoding of the MIDI and MusicXML artifacts with the standard alphabet and
 * '=' padding of section 4 of RFC 4648.
 */
module Base64 {
  import opened Wrappers

  /** One octet of binary data. */
  newtype byte = x: int | 0 <= x < 256

  /** A 6-bit group, the unit that one Base64 character carries. */
  type sextet = x: int | 0 <= x < 64

  /** The 64 characters of the Base64 alphabet (Table 1 in section 4 of RFC 4648). */
  predicate InAlphabet(c: char) {
    'A' <= c <= 'Z' || 'a' <= c <= 'z' || '0' <= c <= '9' || c == '+' || c == '/'
  }

  const Pad: char := '='

  /** The character that encodes `v` (Table 1). */
  function SextetChar(v: sextet): (c: char)
    ensures InAlphabet(c)
  {
    if v < 26 then (v + 'A' as int) as char
    else if v < 52 then (v - 26 + 'a' as int) as char
    else if v < 62 then (v - 52 + '0' as int) as char
    else if v == 62 then '+'
    else '/'
  }

  /** The value a character encodes, or None for a character outside the alphabet. */
  function CharSextet(c: char): (r: Option<sextet>)
    ensures r.Some? <==> InAlphabet(c)
    ensures r.Some? ==> SextetChar(r.value) == c
  {
    if 'A' <= c <= 'Z' then Some(c as int - 'A' as int)
    else if 'a' <= c <= 'z' then Some(c as int - 'a' as int + 26)
    else if '0' <= c <= '9' then Some(c as int - '0' as int + 52)
    else if c == '+' then Some(62)
    else if c == '/' then Some(63)
    else None
  }

  lemma SextetCharRoundTrip(v: sextet)
    ensures CharSextet(SextetChar(v)) == Some(v)
  {
  }

  /** Three octets, as one 24-bit group split into four sextets (section 4, RFC 4648). */
  function EncodeGroup(a: byte, b: byte, c: byte): (q: string)
    ensures |q| == 4
  {
    var a, b, c := a as int, b as int, c as int;
    [SextetChar(a / 4), SextetChar((a % 4) * 16 + b / 16),
     SextetChar((b % 16) * 4 + c / 64), SextetChar(c % 64)]
  }

  /**
   * `encode_binary`: the full groups, then a final quantum of one octet
   * ("xx==") or two octets ("xxx="), padded with '='.
   */
  function Encode(data: seq<byte>): (e: string)
    ensures |e| == 4 * ((|data| + 2) / 3)
    decreases |data|
  {
    if |data| == 0 then ""
    else if |data| == 1 then
      var a := data[0] as int;
      [SextetChar(a / 4), SextetChar((a % 4) * 16), Pad, Pad]
    else if |data| == 2 then
      var a, b := data[0] as int, data[1] as int;
      [SextetChar(a / 4), SextetChar((a % 4) * 16 + b / 16), SextetChar((b % 16) * 4), Pad]
    else
      EncodeGroup(data[0], data[1], data[2]) + Encode(data[3..])
  }

  /** The three octets carried by four sextets; the low bits of a partial quantum are dropped. */
  function DecodeGroup(s0: sextet, s1: sextet, s2: sextet, s3: sextet): (r: seq<byte>)
    ensures |r| == 3
  {
    [(s0 * 4 + s1 / 16) as byte, ((s1 % 16) * 16 + s2 / 4) as byte, ((s2 % 4) * 64 + s3) as byte]
  }

  /**
   * One four-character quantum. Padding is accepted only in the last quantum
   * (`last`): "xx==" gives one octet, "xxx=" two, "xxxx" three.
   */
  function DecodeQuantum(q: string, last: bool): (r: Option<seq<byte>>)
    requires |q| == 4
    ensures r.Some? ==> 1 <= |r.value| <= 3
    ensures r.Some? && !last ==> |r.value| == 3
  {
    var c0, c1, c2, c3 := CharSextet(q[0]), CharSextet(q[1]), CharSextet(q[2]), CharSextet(q[3]);
    if c0.None? || c1.None? then None
    else if c2.Some? && c3.Some? then
      Some(DecodeGroup(c0.value, c1.value, c2.value, c3.value))
    else if !last || q[3] != Pad then None
    else if c2.Some? then
      Some(DecodeGroup(c0.value, c1.value, c2.value, 0)[..2])
    else if q[2] == Pad then
      Some(DecodeGroup(c0.value, c1.value, 0, 0)[..1])
    else None
  }

  /**
   * `decode_binary` on canonical input: a whole number of quanta over the
   * alphabet, '=' only at the end. Anything else is None (Python raises).
   */
  function Decode(s: string): (r: Option<seq<byte>>)
    ensures r.Some? && |s| > 0 ==> |s| % 4 == 0 && 3 * (|s| / 4) - 2 <= |r.value| <= 3 * (|s| / 4)
    decreases |s|
  {
    if |s| == 0 then Some([])
    else if |s| < 4 then None
    else
      match DecodeQuantum(s[..4], |s| == 4)
      case None => None
      case Some(head) =>
        if |s| == 4 then Some(head)
        else
          match Decode(s[4..])
          case None => None
          case Some(tail) => Some(head + tail)
  }

  /** The number of '=' characters RFC 4648 appends for `n` octets. */
  function PadCount(n: nat): (k: nat)
    ensures k <= 2
    ensures (n + k) % 3 == 0
  {
    (3 - n % 3) % 3
  }

  lemma {:induction false} GroupRoundTrip(a: byte, b: byte, c: byte)
    ensures var q := EncodeGroup(a, b, c);
      DecodeQuantum(q, true) == DecodeQuantum(q, false) == Some([a, b, c])
  {
    var a', b', c' := a as int, b as int, c as int;
    var s0, s1, s2, s3 := a' / 4, (a' % 4) * 16 + b' / 16, (b' % 16) * 4 + c' / 64, c' % 64;
    assert s1 / 16 == a' % 4 && s1 % 16 == b' / 16;
    assert s2 / 4 == b' % 16 && s2 % 4 == c' / 64;
    SextetCharRoundTrip(s0);
    SextetCharRoundTrip(s1);
    SextetCharRoundTrip(s2);
    SextetCharRoundTrip(s3);
  }

  /** Reassembling the octets from the sextets of a one- or two-octet quantum. */
  lemma PartialQuantumArithmetic(a: int, b: int)
    requires 0 <= a < 256 && 0 <= b < 256
    ensures (a / 4) * 4 + ((a % 4) * 16) / 16 == a
    ensures (a / 4) * 4 + ((a % 4) * 16 + b / 16) / 16 == a
    ensures (((a % 4) * 16 + b / 16) % 16) * 16 + ((b % 16) * 4) / 4 == b
  {
  }

  lemma OneOctetRoundTrip(a: byte)
    ensures DecodeQuantum(Encode([a]), true) == Some([a])
  {
    var e, a' := Encode([a]), a as int;
    var s0, s1 := a' / 4, (a' % 4) * 16;
    SextetCharRoundTrip(s0);
    SextetCharRoundTrip(s1);
    PartialQuantumArithmetic(a', 0);
    assert e == [SextetChar(s0), SextetChar(s1), Pad, Pad];
    assert CharSextet(e[0]) == Some(s0);
    assert CharSextet(e[1]) == Some(s1);
    assert CharSextet(e[2]).None? && e[3] == Pad && e[2] == Pad;
    var g := DecodeGroup(s0, s1, 0, 0);
    assert g[0] == a;
    assert g[..1] == [a];
  }

  lemma TwoOctetRoundTrip(a: byte, b: byte)
    ensures DecodeQuantum(Encode([a, b]), true) == Some([a, b])
  {
    var e, a', b' := Encode([a, b]), a as int, b as int;
    var s0, s1, s2 := a' / 4, (a' % 4) * 16 + b' / 16, (b' % 16) * 4;
    SextetCharRoundTrip(s0);
    SextetCharRoundTrip(s1);
    SextetCharRoundTrip(s2);
    PartialQuantumArithmetic(a', b');
    assert e == [SextetChar(s0), SextetChar(s1), SextetChar(s2), Pad];
    assert CharSextet(e[0]) == Some(s0);
    assert CharSextet(e[1]) == Some(s1);
    assert CharSextet(e[2]) == Some(s2);
    assert CharSextet(e[3]).None? && e[3] == Pad;
    var g := DecodeGroup(s0, s1, s2, 0);
    assert g[0] == a && g[1] == b;
    assert g[..2] == [a, b];
  }

  /** Decoding distributes over a full leading quantum. */
  lemma DecodeCons(q: string, rest: string)
    requires |q| == 4 && |rest| > 0
    requires DecodeQuantum(q, false).Some? && Decode(rest).Some?
    ensures Decode(q + rest) == Some(DecodeQuantum(q, false).value + Decode(rest).value)
  {
    var s := q + rest;
    assert s[..4] == q && s[4..] == rest;
  }

  lemma SplitGroup(data: seq<byte>)
    requires |data| >= 3
    ensures data == [data[0], data[1], data[2]] + data[3..]
  {
  }

  /** `decode_binary(encode_binary(b)) == b` for every byte string. */
  lemma {:induction false} DecodeEncode(data: seq<byte>)
    ensures Decode(Encode(data)) == Some(data)
    decreases |data|
  {
    if |data| == 1 {
      OneOctetRoundTrip(data[0]);
      assert [data[0]] == data;
      assert Encode(data)[..4] == Encode(data);
    } else if |data| == 2 {
      TwoOctetRoundTrip(data[0], data[1]);
      assert [data[0], data[1]] == data;
      assert Encode(data)[..4] == Encode(data);
    } else if |data| == 3 {
      GroupRoundTrip(data[0], data[1], data[2]);
      assert [data[0], data[1], data[2]] == data;
      assert Encode(data) == EncodeGroup(data[0], data[1], data[2]);
      assert Encode(data)[..4] == Encode(data);
    } else if |data| > 3 {
      var q, rest := EncodeGroup(data[0], data[1], data[2]), data[3..];
      GroupRoundTrip(data[0], data[1], data[2]);
      DecodeEncode(rest);
      DecodeCons(q, Encode(rest));
      SplitGroup(data);
    }
  }

  /**
   * The encoding is the alphabet followed by exactly PadCount(|data|) '='
   * characters: at most two, and only at the end.
   */
  lemma {:induction false} EncodeAlphabet(data: seq<byte>)
    ensures var e := Encode(data); var k := PadCount(|data|);
      k <= |e| &&
      (forall i :: 0 <= i < |e| - k ==> InAlphabet(e[i])) &&
      (forall i :: |e| - k <= i < |e| ==> e[i] == Pad)
    decreases |data|
  {
    if |data| > 2 {
      EncodeAlphabet(data[3..]);
      var e, q, rest := Encode(data), EncodeGroup(data[0], data[1], data[2]), Encode(data[3..]);
      assert PadCount(|data|) == PadCount(|data[3..]|);
      assert forall i :: 4 <= i < |e| ==> e[i] == rest[i - 4];
    }
  }

  /** The empty byte string encodes to the empty text, and only it does. */
  lemma EncodeEmpty(data: seq<byte>)
    ensures Encode(data) == "" <==> data == []
  {
  }

  /** The payload of a one-octet file: "QQ==" is the octet 65 ('A'). */
  lemma OneOctetExample()
    ensures Encode([65]) == "QQ=="
    ensures Decode("QQ==") == Some([65])
  {
    OneOctetRoundTrip(65);
  }
}
