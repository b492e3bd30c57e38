/**
 * Standard padded base64 (section 4 of RFC 4648) as Go's
 * `base64.StdEncoding.DecodeString` reads it: carriage returns and line feeds
 * are skipped, the input is read in quanta of four characters, only the last
 * quantum may end in one or two `=`, and, the decoder not being strict, the
 * unused low bits of a padded quantum are ignored.
 */
module Base64 {
  import opened Types

  /** The 6-bit value of a character of the base64 alphabet (Table 1 of RFC 4648). */
  function SextetOf(c: char): (r: Option<nat>)
    ensures r.Some? ==> r.value < 64
  {
    if 'A' <= c <= 'Z' then Some(c as int - 'A' as int)
    else if 'a' <= c <= 'z' then Some(c as int - 'a' as int + 26)
    else if '0' <= c <= '9' then Some(c as int - '0' as int + 52)
    else if c == '+' then Some(62)
    else if c == '/' then Some(63)
    else None
  }

  /** The alphabet character for a 6-bit value; reading it back gives the value. */
  function CharOf(v: nat): (c: char)
    requires v < 64
    ensures SextetOf(c) == Some(v)
    ensures c != '=' && c != '\r' && c != '\n'
  {
    if v < 26 then ('A' as int + v) as char
    else if v < 52 then ('a' as int + v - 26) as char
    else if v < 62 then ('0' as int + v - 52) as char
    else if v == 62 then '+'
    else '/'
  }

  predicate IsNewline(c: char) { c == '\r' || c == '\n' }

  /** The input with every carriage return and line feed removed. */
  function StripNewlines(s: string): (r: string)
    ensures forall i :: 0 <= i < |r| ==> !IsNewline(r[i])
    ensures (forall i :: 0 <= i < |s| ==> !IsNewline(s[i])) ==> r == s
    ensures |s| == 1 ==> r == if IsNewline(s[0]) then [] else s
  {
    if s == [] then []
    else if IsNewline(s[0]) then StripNewlines(s[1..])
    else [s[0]] + StripNewlines(s[1..])
  }

  /** Stripping works piece by piece: the other characters are kept, in order. */
  lemma {:induction false} StripNewlinesAppend(a: string, b: string)
    ensures StripNewlines(a + b) == StripNewlines(a) + StripNewlines(b)
    decreases |a|
  {
    if a == [] {
      assert a + b == b;
    } else {
      assert (a + b)[1..] == a[1..] + b;
      StripNewlinesAppend(a[1..], b);
    }
  }

  /** A quantum of four alphabet characters: three bytes. */
  function DecodeFull(c0: char, c1: char, c2: char, c3: char): Option<seq<byte>>
  {
    match (SextetOf(c0), SextetOf(c1), SextetOf(c2), SextetOf(c3))
    case (Some(d0), Some(d1), Some(d2), Some(d3)) =>
      Some([d0 * 4 + d1 / 16, (d1 % 16) * 16 + d2 / 4, (d2 % 4) * 64 + d3])
    case _ => None
  }

  /** The last quantum: four alphabet characters, or three and `=`, or two and `==`. */
  function DecodeLast(c0: char, c1: char, c2: char, c3: char): Option<seq<byte>>
  {
    if c3 != '=' then DecodeFull(c0, c1, c2, c3)
    else
      match (SextetOf(c0), SextetOf(c1), SextetOf(c2))
      case (Some(d0), Some(d1), Some(d2)) =>
        Some([d0 * 4 + d1 / 16, (d1 % 16) * 16 + d2 / 4])
      case (Some(d0), Some(d1), None) =>
        if c2 == '=' then Some([d0 * 4 + d1 / 16]) else None
      case _ => None
  }

  /** Decodes newline-free input quantum by quantum; an incomplete quantum is an error. */
  function DecodeQuanta(s: string): Option<seq<byte>>
    decreases |s|
  {
    if |s| == 0 then Some([])
    else if |s| < 4 then None
    else if |s| == 4 then DecodeLast(s[0], s[1], s[2], s[3])
    else
      match DecodeFull(s[0], s[1], s[2], s[3])
      case None => None
      case Some(head) =>
        match DecodeQuanta(s[4..])
        case None => None
        case Some(tail) => Some(head + tail)
  }

  /** `base64.StdEncoding.DecodeString(s)`: `None` stands for a non-nil error. */
  function Decode(s: string): Option<seq<byte>>
  {
    DecodeQuanta(StripNewlines(s))
  }

  /** Padded standard encoding (`base64.StdEncoding.EncodeToString`). */
  function Encode(b: seq<byte>): (r: string)
    ensures |r| == (|b| + 2) / 3 * 4
    ensures forall i :: 0 <= i < |r| ==> !IsNewline(r[i])
    decreases |b|
  {
    if |b| == 0 then []
    else if |b| == 1 then
      [CharOf(b[0] / 4), CharOf((b[0] % 4) * 16), '=', '=']
    else if |b| == 2 then
      [CharOf(b[0] / 4), CharOf((b[0] % 4) * 16 + b[1] / 16), CharOf((b[1] % 16) * 4), '=']
    else
      [CharOf(b[0] / 4), CharOf((b[0] % 4) * 16 + b[1] / 16),
       CharOf((b[1] % 16) * 4 + b[2] / 64), CharOf(b[2] % 64)] + Encode(b[3..])
  }

  /** Joining a high part and a low part of `k` bits and splitting again gives them back. */
  lemma SplitJoin(hi: nat, lo: nat, k: nat)
    requires k == 4 || k == 16
    requires lo < k && hi < 64
    ensures (hi * k + lo) / k == hi && (hi * k + lo) % k == lo
  {
  }

  lemma FullQuantum(b0: byte, b1: byte, b2: byte)
    ensures DecodeFull(CharOf(b0 / 4), CharOf((b0 % 4) * 16 + b1 / 16),
                       CharOf((b1 % 16) * 4 + b2 / 64), CharOf(b2 % 64)) == Some([b0, b1, b2])
  {
    SplitJoin(b0 % 4, b1 / 16, 16);
    SplitJoin(b1 % 16, b2 / 64, 4);
  }

  lemma TwoByteQuantum(b0: byte, b1: byte)
    ensures DecodeLast(CharOf(b0 / 4), CharOf((b0 % 4) * 16 + b1 / 16),
                       CharOf((b1 % 16) * 4), '=') == Some([b0, b1])
  {
    SplitJoin(b0 % 4, b1 / 16, 16);
    SplitJoin(b1 % 16, 0, 4);
  }

  lemma OneByteQuantum(b0: byte)
    ensures DecodeLast(CharOf(b0 / 4), CharOf((b0 % 4) * 16), '=', '=') == Some([b0])
  {
    SplitJoin(b0 % 4, 0, 16);
  }

  lemma {:induction false} DecodeQuantaEncode(b: seq<byte>)
    ensures DecodeQuanta(Encode(b)) == Some(b)
    decreases |b|
  {
    if |b| == 1 {
      OneByteQuantum(b[0]);
      assert [b[0]] == b;
    } else if |b| == 2 {
      TwoByteQuantum(b[0], b[1]);
      assert [b[0], b[1]] == b;
    } else if |b| >= 3 {
      var s := Encode(b);
      var rest := Encode(b[3..]);
      assert s[4..] == rest;
      FullQuantum(b[0], b[1], b[2]);
      assert [b[0], b[1], b[2]] == b[..3];
      if |b| == 3 {
        assert b[..3] == b;
      } else {
        DecodeQuantaEncode(b[3..]);
        assert b[..3] + b[3..] == b;
      }
    }
  }

  /** Decoding undoes encoding. */
  lemma DecodeEncode(b: seq<byte>)
    ensures Decode(Encode(b)) == Some(b)
  {
    DecodeQuantaEncode(b);
  }
}
