/** The standard base64 encoding of section 4 of RFC 4648, as Go's
    `base64.StdEncoding.DecodeString` accepts it: carriage returns and line feeds are
    skipped wherever they occur, the text must come in padded quanta of four
    characters, `=` may only end the last quantum (as `xx==` or `xxx=`), and the unused
    low bits of a padded quantum are not required to be zero. */
module Base64 {
  import opened Types

  type Byte = b: int | 0 <= b < 256

  /** A value of one base64 character. */
  type Sextet = d: int | 0 <= d < 64

  const Pad: char := '='

  /** The character for a value, per the alphabet of RFC 4648 (Table 1). */
  function SextetChar(d: Sextet): char
  {
    if d < 26 then ('A' as int + d) as char
    else if d < 52 then ('a' as int + (d - 26)) as char
    else if d < 62 then ('0' as int + (d - 52)) as char
    else if d == 62 then '+'
    else '/'
  }

  /** The value of an alphabet character; `None` for every other character,
      the pad character included. */
  function CharSextet(c: char): (r: Option<Sextet>)
    ensures r.Some? ==> SextetChar(r.value) == c && c != Pad
  {
    if 'A' <= c <= 'Z' then Some(c as int - 'A' as int)
    else if 'a' <= c <= 'z' then Some(c as int - 'a' as int + 26)
    else if '0' <= c <= '9' then Some(c as int - '0' as int + 52)
    else if c == '+' then Some(62)
    else if c == '/' then Some(63)
    else None
  }

  lemma CharOfSextet(d: Sextet)
    ensures CharSextet(SextetChar(d)) == Some(d)
  {
  }

  /** Drops the carriage returns and line feeds the decoder skips. */
  function StripLineBreaks(s: string): (r: string)
    ensures '\n' !in r && '\r' !in r
    ensures |r| <= |s|
    decreases |s|
  {
    if |s| == 0 then ""
    else if s[0] == '\n' || s[0] == '\r' then StripLineBreaks(s[1..])
    else [s[0]] + StripLineBreaks(s[1..])
  }

  /** One quantum of four characters; `last` says whether padding may end it. */
  function DecodeQuantum(c0: char, c1: char, c2: char, c3: char, last: bool): Option<seq<Byte>>
  {
    match (CharSextet(c0), CharSextet(c1), CharSextet(c2), CharSextet(c3))
    case (Some(d0), Some(d1), Some(d2), Some(d3)) =>
      Some([d0 * 4 + d1 / 16, (d1 % 16) * 16 + d2 / 4, (d2 % 4) * 64 + d3])
    case (Some(d0), Some(d1), Some(d2), None) =>
      if last && c3 == Pad then Some([d0 * 4 + d1 / 16, (d1 % 16) * 16 + d2 / 4]) else None
    case (Some(d0), Some(d1), None, None) =>
      if last && c2 == Pad && c3 == Pad then Some([d0 * 4 + d1 / 16]) else None
    case _ => None
  }

  /** Decodes text already free of line breaks, quantum by quantum. Only a text whose
      length is a multiple of four decodes, to at most three bytes per quantum. */
  function DecodeQuanta(s: string): (r: Option<seq<Byte>>)
    ensures r.Some? ==> |s| % 4 == 0 && |r.value| <= |s| / 4 * 3
    decreases |s|
  {
    if |s| == 0 then Some([])
    else if |s| < 4 then None
    else if |s| == 4 then DecodeQuantum(s[0], s[1], s[2], s[3], true)
    else
      match DecodeQuantum(s[0], s[1], s[2], s[3], false)
      case None => None
      case Some(q) =>
        match DecodeQuanta(s[4..])
        case None => None
        case Some(rest) => Some(q + rest)
  }

  /** `base64.StdEncoding.DecodeString`: `None` is the decoder's error. */
  function Decode(s: string): (r: Option<seq<Byte>>)
    ensures r.Some? ==> |r.value| <= |s| / 4 * 3
  {
    DecodeQuanta(StripLineBreaks(s))
  }

  /** `base64.StdEncoding.EncodeToString`, three bytes to four characters, the last
      quantum padded. */
  function Encode(bytes: seq<Byte>): (s: string)
    ensures |s| % 4 == 0
    ensures '\n' !in s && '\r' !in s
    decreases |bytes|
  {
    if |bytes| == 0 then ""
    else if |bytes| == 1 then
      [SextetChar(bytes[0] / 4), SextetChar((bytes[0] % 4) * 16), Pad, Pad]
    else if |bytes| == 2 then
      [SextetChar(bytes[0] / 4), SextetChar((bytes[0] % 4) * 16 + bytes[1] / 16),
       SextetChar((bytes[1] % 16) * 4), Pad]
    else
      EncodeQuantum(bytes[0], bytes[1], bytes[2]) + Encode(bytes[3..])
  }

  function EncodeQuantum(b0: Byte, b1: Byte, b2: Byte): string
  {
    [SextetChar(b0 / 4), SextetChar((b0 % 4) * 16 + b1 / 16),
     SextetChar((b1 % 16) * 4 + b2 / 64), SextetChar(b2 % 64)]
  }

  lemma {:induction false} StripWithoutLineBreaks(s: string)
    requires '\n' !in s && '\r' !in s
    ensures StripLineBreaks(s) == s
    decreases |s|
  {
    if |s| > 0 {
      StripWithoutLineBreaks(s[1..]);
      assert [s[0]] + s[1..] == s;
    }
  }

  /** The bit shuffling of a full quantum is undone by decoding it. */
  lemma QuantumRoundTrip(b0: Byte, b1: Byte, b2: Byte, last: bool)
    ensures var q := EncodeQuantum(b0, b1, b2);
            DecodeQuantum(q[0], q[1], q[2], q[3], last) == Some([b0, b1, b2])
  {
    CharOfSextet(b0 / 4);
    CharOfSextet((b0 % 4) * 16 + b1 / 16);
    CharOfSextet((b1 % 16) * 4 + b2 / 64);
    CharOfSextet(b2 % 64);
  }

  /** Round trip of the two padded final quanta. */
  lemma OnePaddedRoundTrip(b0: Byte)
    ensures var q := Encode([b0]);
            DecodeQuantum(q[0], q[1], q[2], q[3], true) == Some([b0])
  {
    CharOfSextet(b0 / 4);
    CharOfSextet((b0 % 4) * 16);
  }

  lemma TwoPaddedRoundTrip(b0: Byte, b1: Byte)
    ensures var q := Encode([b0, b1]);
            DecodeQuantum(q[0], q[1], q[2], q[3], true) == Some([b0, b1])
  {
    CharOfSextet(b0 / 4);
    CharOfSextet((b0 % 4) * 16 + b1 / 16);
    CharOfSextet((b1 % 16) * 4);
  }

  /** A quantum followed by more text is decoded as a non-final quantum. */
  lemma DecodeQuantaStep(q: string, rest: string)
    requires |q| == 4 && |rest| > 0
    ensures DecodeQuanta(q + rest) ==
      match DecodeQuantum(q[0], q[1], q[2], q[3], false)
      case None => None
      case Some(h) =>
        match DecodeQuanta(rest)
        case None => None
        case Some(t) => Some(h + t)
  {
    var s := q + rest;
    assert s[0] == q[0] && s[1] == q[1] && s[2] == q[2] && s[3] == q[3];
    assert s[4..] == rest;
  }

  /** Decoding what was encoded gives the bytes back (no line breaks involved). */
  lemma {:induction false} DecodeQuantaEncode(bytes: seq<Byte>)
    ensures DecodeQuanta(Encode(bytes)) == Some(bytes)
    decreases |bytes|
  {
    if |bytes| == 1 {
      assert bytes == [bytes[0]];
      OnePaddedRoundTrip(bytes[0]);
    } else if |bytes| == 2 {
      assert bytes == [bytes[0], bytes[1]];
      TwoPaddedRoundTrip(bytes[0], bytes[1]);
    } else if |bytes| >= 3 {
      var q := EncodeQuantum(bytes[0], bytes[1], bytes[2]);
      var rest := Encode(bytes[3..]);
      assert Encode(bytes) == q + rest;
      DecodeQuantaEncode(bytes[3..]);
      if |rest| == 0 {
        QuantumRoundTrip(bytes[0], bytes[1], bytes[2], true);
        assert q + rest == q;
        assert |q| == 4;
        assert DecodeQuanta(q) == DecodeQuantum(q[0], q[1], q[2], q[3], true);
        assert |bytes[3..]| == 0;
        assert bytes == [bytes[0], bytes[1], bytes[2]];
      } else {
        QuantumRoundTrip(bytes[0], bytes[1], bytes[2], false);
        DecodeQuantaStep(q, rest);
        assert DecodeQuanta(q + rest) == Some([bytes[0], bytes[1], bytes[2]] + bytes[3..]);
      }
      assert [bytes[0], bytes[1], bytes[2]] + bytes[3..] == bytes;
    }
  }

  /** Round trip: the decoder accepts everything the encoder produces and returns the
      original bytes. */
  lemma DecodeEncode(bytes: seq<Byte>)
    ensures Decode(Encode(bytes)) == Some(bytes)
  {
    StripWithoutLineBreaks(Encode(bytes));
    DecodeQuantaEncode(bytes);
  }

  /** Line breaks anywhere in the input are ignored. */
  lemma DecodeIgnoresLineBreak(a: string, b: string)
    ensures Decode(a + "\n" + b) == Decode(a + b)
    ensures Decode(a + "\r" + b) == Decode(a + b)
  {
    assert a + "\n" + b == a + ("\n" + b);
    assert a + "\r" + b == a + ("\r" + b);
    StripSplit(a, "\n" + b);
    StripSplit(a, "\r" + b);
    StripSplit(a, b);
    assert ("\n" + b)[1..] == b;
    assert ("\r" + b)[1..] == b;
    assert StripLineBreaks("\n" + b) == StripLineBreaks(b);
    assert StripLineBreaks("\r" + b) == StripLineBreaks(b);
  }

  lemma {:induction false} StripSplit(a: string, b: string)
    ensures StripLineBreaks(a + b) == StripLineBreaks(a) + StripLineBreaks(b)
    decreases |a|
  {
    if |a| > 0 {
      assert (a + b)[1..] == a[1..] + b;
      StripSplit(a[1..], b);
    } else {
      assert a + b == b;
    }
  }
}
