/** Base 64 encoding with the standard alphabet and '=' padding, as defined in
    section 4 of RFC 4648; `base64.b64encode` in `publish`. The decoder is
    the encoding's partner: decoding an encoding gives back the bytes. */
module Base64 {
  import opened Wrappers

  newtype byte = x: int | 0 <= x < 256

  /** The character of a 6-bit value (Table 1 of RFC 4648). */
  function CharOf(d: int): (c: char)
    requires 0 <= d < 64
    ensures c != '='
  {
    if d < 26 then ('A' as int + d) as char
    else if d < 52 then ('a' as int + d - 26) as char
    else if d < 62 then ('0' as int + d - 52) as char
    else if d == 62 then '+'
    else '/'
  }

  /** The 6-bit value of an alphabet character; padding and anything outside
      the alphabet have none. */
  function ValueOf(c: char): (r: Option<int>)
    ensures r.Some? ==> 0 <= r.value < 64
  {
    if 'A' <= c <= 'Z' then Some(c as int - 'A' as int)
    else if 'a' <= c <= 'z' then Some(c as int - 'a' as int + 26)
    else if '0' <= c <= '9' then Some(c as int - '0' as int + 52)
    else if c == '+' then Some(62)
    else if c == '/' then Some(63)
    else None
  }

  lemma ValueOfCharOf(d: int)
    requires 0 <= d < 64
    ensures ValueOf(CharOf(d)) == Some(d)
  {
  }

  /** Three bytes as four characters. */
  function EncodeGroup(b0: byte, b1: byte, b2: byte): string
  {
    [CharOf(b0 as int / 4), CharOf((b0 as int % 4) * 16 + b1 as int / 16),
     CharOf((b1 as int % 16) * 4 + b2 as int / 64), CharOf(b2 as int % 64)]
  }

  function Encode(b: seq<byte>): (r: string)
    ensures |r| == 4 * ((|b| + 2) / 3)
    decreases |b|
  {
    if |b| >= 3 then EncodeGroup(b[0], b[1], b[2]) + Encode(b[3..])
    else if |b| == 2 then
      [CharOf(b[0] as int / 4), CharOf((b[0] as int % 4) * 16 + b[1] as int / 16), CharOf((b[1] as int % 16) * 4), '=']
    else if |b| == 1 then
      [CharOf(b[0] as int / 4), CharOf((b[0] as int % 4) * 16), '=', '=']
    else []
  }

  /** Four alphabet characters as three bytes. */
  function DecodeGroup(s: string): Option<seq<byte>>
    requires |s| == 4
  {
    var c0 :- ValueOf(s[0]);
    var c1 :- ValueOf(s[1]);
    var c2 :- ValueOf(s[2]);
    var c3 :- ValueOf(s[3]);
    Some([(c0 * 4 + c1 / 16) as byte, ((c1 % 16) * 16 + c2 / 4) as byte, ((c2 % 4) * 64 + c3) as byte])
  }

  /** The last group, which may end in one or two '='. */
  function DecodeLast(s: string): Option<seq<byte>>
    requires |s| == 4
  {
    if s[2] == '=' && s[3] == '=' then
      var c0 :- ValueOf(s[0]);
      var c1 :- ValueOf(s[1]);
      Some([(c0 * 4 + c1 / 16) as byte])
    else if s[3] == '=' then
      var c0 :- ValueOf(s[0]);
      var c1 :- ValueOf(s[1]);
      var c2 :- ValueOf(s[2]);
      Some([(c0 * 4 + c1 / 16) as byte, ((c1 % 16) * 16 + c2 / 4) as byte])
    else DecodeGroup(s)
  }

  function Decode(s: string): Option<seq<byte>>
    decreases |s|
  {
    if |s| == 0 then Some([])
    else if |s| < 4 || |s| % 4 != 0 then None
    else if |s| == 4 then DecodeLast(s)
    else
      var head :- DecodeGroup(s[..4]);
      var tail :- Decode(s[4..]);
      Some(head + tail)
  }

  lemma GroupRoundTrip(b0: byte, b1: byte, b2: byte)
    ensures DecodeGroup(EncodeGroup(b0, b1, b2)) == Some([b0, b1, b2])
  {
    var x0, x1, x2 := b0 as int, b1 as int, b2 as int;
    var c0, c1, c2, c3 := x0 / 4, (x0 % 4) * 16 + x1 / 16, (x1 % 16) * 4 + x2 / 64, x2 % 64;
    ValueOfCharOf(c0);
    ValueOfCharOf(c1);
    ValueOfCharOf(c2);
    ValueOfCharOf(c3);
    assert c1 / 16 == x0 % 4 && c1 % 16 == x1 / 16;
    assert c2 / 4 == x1 % 16 && c2 % 4 == x2 / 64;
  }

  lemma PairRoundTrip(b0: byte, b1: byte)
    ensures Decode(Encode([b0, b1])) == Some([b0, b1])
  {
    var x0, x1 := b0 as int, b1 as int;
    var c0, c1, c2 := x0 / 4, (x0 % 4) * 16 + x1 / 16, (x1 % 16) * 4;
    ValueOfCharOf(c0);
    ValueOfCharOf(c1);
    ValueOfCharOf(c2);
    assert c1 / 16 == x0 % 4 && c1 % 16 == x1 / 16 && c2 / 4 == x1 % 16;
    var s := Encode([b0, b1]);
    assert s == [CharOf(c0), CharOf(c1), CharOf(c2), '='];
    assert s[2] != '=';
  }

  lemma SingleRoundTrip(b0: byte)
    ensures Decode(Encode([b0])) == Some([b0])
  {
    var x0 := b0 as int;
    ValueOfCharOf(x0 / 4);
    ValueOfCharOf((x0 % 4) * 16);
    assert Encode([b0]) == [CharOf(x0 / 4), CharOf((x0 % 4) * 16), '=', '='];
  }

  lemma TripleRoundTrip(b0: byte, b1: byte, b2: byte)
    ensures Decode(Encode([b0, b1, b2])) == Some([b0, b1, b2])
  {
    GroupRoundTrip(b0, b1, b2);
    var g := EncodeGroup(b0, b1, b2);
    assert [b0, b1, b2][3..] == [];
    assert Encode([b0, b1, b2]) == g + [] == g;
    assert g[2] != '=' && g[3] != '=';
  }

  /** A full group followed by more groups decodes group by group. */
  lemma DecodeSplit(head: string, tail: string)
    requires |head| == 4 && |tail| >= 4 && |tail| % 4 == 0
    ensures Decode(head + tail) ==
              match DecodeGroup(head)
              case None => None
              case Some(h) => match Decode(tail) case None => None case Some(t) => Some(h + t)
  {
    var s := head + tail;
    assert |s| == 4 + |tail|;
    assert |s| % 4 == 0 by {
      assert |s| == 4 * (1 + |tail| / 4);
    }
    assert s[..4] == head && s[4..] == tail;
  }

  /** Decoding an encoding gives back the bytes. */
  lemma {:induction false} DecodeEncode(b: seq<byte>)
    ensures Decode(Encode(b)) == Some(b)
    decreases |b|
  {
    if |b| > 3 {
      GroupRoundTrip(b[0], b[1], b[2]);
      DecodeEncode(b[3..]);
      DecodeSplit(EncodeGroup(b[0], b[1], b[2]), Encode(b[3..]));
      assert b == [b[0], b[1], b[2]] + b[3..];
    } else if |b| == 3 {
      TripleRoundTrip(b[0], b[1], b[2]);
      assert b == [b[0], b[1], b[2]];
    } else if |b| == 2 {
      PairRoundTrip(b[0], b[1]);
      assert b == [b[0], b[1]];
    } else if |b| == 1 {
      SingleRoundTrip(b[0]);
      assert b == [b[0]];
    }
  }

  /** The bytes of a Python 2 `str`, one per character. */
  predicate IsByteString(s: string) {
    forall i :: 0 <= i < |s| ==> s[i] as int < 256
  }

  function BytesOf(s: string): (r: seq<byte>)
    requires IsByteString(s)
    ensures |r| == |s|
  {
    seq(|s|, i requires 0 <= i < |s| => s[i] as int as byte)
  }

  function TextOf(b: seq<byte>): (r: string)
    ensures IsByteString(r)
  {
    seq(|b|, i requires 0 <= i < |b| => b[i] as int as char)
  }

  lemma TextOfBytesOf(s: string)
    requires IsByteString(s)
    ensures TextOf(BytesOf(s)) == s
  {
  }

  /** `base64.b64decode(base64.b64encode(s)) == s`. */
  lemma DecodeEncodeText(s: string)
    requires IsByteString(s)
    ensures Decode(Encode(BytesOf(s))).Some?
    ensures TextOf(Decode(Encode(BytesOf(s))).value) == s
  {
    DecodeEncode(BytesOf(s));
    TextOfBytesOf(s);
  }
}
