/** Bytes, the UTF-8 form of a string (what Go's `[]byte(s)` holds), and
    the standard base64 encoding with padding of section 4 of RFC 4648 (what
    Go's `base64.StdEncoding.EncodeToString` returns). */
module Base64 {
  import opened Wrappers

  newtype byte = x: int | 0 <= x < 256

  /** A six-bit group: the index of one base64 letter. */
  type Sextet = x: int | 0 <= x < 64

  // ---------------------------------------------------------------------------
  // UTF-8 (RFC 3629)

  /** The one to four bytes of one Unicode scalar value. */
  function CharBytes(c: char): (bs: seq<byte>)
    ensures 1 <= |bs| <= 4
    ensures (c as int) < 128 <==> |bs| == 1
    ensures (c as int) < 128 ==> bs == [c as int as byte]
    ensures forall k :: 0 < k < |bs| ==> 128 <= bs[k] < 192
  {
    var n := c as int;
    if n < 0x80 then [n as byte]
    else if n < 0x800 then [(0xC0 + n / 64) as byte, (0x80 + n % 64) as byte]
    else if n < 0x1_0000 then [(0xE0 + n / 4096) as byte, (0x80 + n / 64 % 64) as byte, (0x80 + n % 64) as byte]
    else [(0xF0 + n / 262144) as byte, (0x80 + n / 4096 % 64) as byte, (0x80 + n / 64 % 64) as byte, (0x80 + n % 64) as byte]
  }

  /** The UTF-8 bytes of a string, character after character. */
  function Utf8(s: string): (bs: seq<byte>)
    ensures |bs| >= |s|
  {
    if s == [] then [] else CharBytes(s[0]) + Utf8(s[1..])
  }

  /** The bytes of two strings side by side are the two strings' bytes. */
  lemma {:induction false} Utf8Append(a: string, b: string)
    ensures Utf8(a + b) == Utf8(a) + Utf8(b)
    decreases |a|
  {
    if a == [] {
      assert a + b == b;
    } else {
      assert (a + b)[1..] == a[1..] + b;
      Utf8Append(a[1..], b);
    }
  }

  /** An ASCII string is its own bytes, one per character. */
  lemma {:induction false} Utf8Ascii(s: string)
    requires forall i :: 0 <= i < |s| ==> (s[i] as int) < 128
    ensures |Utf8(s)| == |s|
    ensures forall i :: 0 <= i < |s| ==> Utf8(s)[i] == s[i] as int as byte
    decreases |s|
  {
    if s != [] {
      Utf8Ascii(s[1..]);
    }
  }

  // ---------------------------------------------------------------------------
  // The base64 alphabet

  /** The letter of a sextet: 'A'-'Z', 'a'-'z', '0'-'9', '+', '/'. */
  function Letter(n: Sextet): char
  {
    if n < 26 then ('A' as int + n) as char
    else if n < 52 then ('a' as int + (n - 26)) as char
    else if n < 62 then ('0' as int + (n - 52)) as char
    else if n == 62 then '+'
    else '/'
  }

  /** The sextet of a letter; None for the pad '=' and every other character. */
  function Index(c: char): Option<Sextet>
  {
    if 'A' <= c <= 'Z' then Some((c as int - 'A' as int) as Sextet)
    else if 'a' <= c <= 'z' then Some((c as int - 'a' as int + 26) as Sextet)
    else if '0' <= c <= '9' then Some((c as int - '0' as int + 52) as Sextet)
    else if c == '+' then Some(62)
    else if c == '/' then Some(63)
    else None
  }

  /** Letter and Index are inverse: each sextet has one letter, each letter
      one sextet. */
  lemma LetterIndex(n: Sextet, c: char)
    ensures Index(Letter(n)) == Some(n)
    ensures Index(c).Some? ==> Letter(Index(c).value) == c
    ensures Index('=') == None
  {
  }

  // ---------------------------------------------------------------------------
  // Splitting three bytes into four sextets and back

  /** The high six bits of the first byte. */
  function High0(b0: byte): Sextet { b0 as int / 4 }
  /** The low two bits of the first byte and the high four of the second. */
  function High1(b0: byte, b1: byte): Sextet { b0 as int % 4 * 16 + b1 as int / 16 }
  /** The low four bits of the second byte and the high two of the third. */
  function High2(b1: byte, b2: byte): Sextet { b1 as int % 16 * 4 + b2 as int / 64 }
  /** The low six bits of the third byte. */
  function Low3(b2: byte): Sextet { b2 as int % 64 }

  /** The first byte of four sextets. */
  function Join0(n0: Sextet, n1: Sextet): byte { (n0 as int * 4 + n1 as int / 16) as byte }
  /** The second byte of four sextets. */
  function Join1(n1: Sextet, n2: Sextet): byte { (n1 as int % 16 * 16 + n2 as int / 4) as byte }
  /** The third byte of four sextets. */
  function Join2(n2: Sextet, n3: Sextet): byte { (n2 as int % 4 * 64 + n3 as int) as byte }

  /** Joining the sextets of three bytes gives back the bytes. */
  lemma SplitJoin0(b0: byte, b1: byte)
    ensures Join0(High0(b0), High1(b0, b1)) == b0
  {
  }

  lemma SplitJoin1(b0: byte, b1: byte, b2: byte)
    ensures Join1(High1(b0, b1), High2(b1, b2)) == b1
  {
    var h, l := b1 as int / 16, b1 as int % 16;
    var n1, n2 := High1(b0, b1), High2(b1, b2);
    assert n1 == b0 as int % 4 * 16 + h;
    assert n1 % 16 == h;
    assert n2 == l * 4 + b2 as int / 64;
    assert n2 / 4 == l;
  }

  lemma SplitJoin2(b1: byte, b2: byte)
    ensures Join2(High2(b1, b2), Low3(b2)) == b2
  {
  }

  /** Splitting the bytes of four sextets gives back the sextets. */
  lemma JoinSplit(n0: Sextet, n1: Sextet, n2: Sextet, n3: Sextet)
    ensures High0(Join0(n0, n1)) == n0
    ensures High1(Join0(n0, n1), Join1(n1, n2)) == n1
    ensures High2(Join1(n1, n2), Join2(n2, n3)) == n2
    ensures Low3(Join2(n2, n3)) == n3
  {
  }

  /** A padded final quad: the unused low bits of its last letter are zero. */
  lemma JoinSplitPadded(n0: Sextet, n1: Sextet, n2: Sextet)
    ensures n1 % 16 == 0 ==> High1(Join0(n0, n1), 0) == n1
    ensures n2 % 4 == 0 ==> High2(Join1(n1, n2), 0) == n2
  {
  }

  /** Padding leaves the low bits of the last letter zero. */
  lemma PaddedBitsZero(b0: byte, b1: byte)
    ensures High1(b0, 0) % 16 == 0 && High2(b1, 0) % 4 == 0
  {
    var k, l := b0 as int % 4, b1 as int % 16;
    assert High1(b0, 0) == k * 16 && High2(b1, 0) == l * 4;
  }

  // ---------------------------------------------------------------------------
  // Encoding

  /** The four letters of three bytes. */
  function Quad(b0: byte, b1: byte, b2: byte): (q: string)
    ensures |q| == 4
  {
    [Letter(High0(b0)), Letter(High1(b0, b1)), Letter(High2(b1, b2)), Letter(Low3(b2))]
  }

  /** The final quad of one byte: two letters, then "==". */
  function PadTwo(b0: byte): (q: string)
    ensures |q| == 4
  {
    [Letter(High0(b0)), Letter(High1(b0, 0)), '=', '=']
  }

  /** The final quad of two bytes: three letters, then "=". */
  function PadOne(b0: byte, b1: byte): (q: string)
    ensures |q| == 4
  {
    [Letter(High0(b0)), Letter(High1(b0, b1)), Letter(High2(b1, 0)), '=']
  }

  /** `base64.StdEncoding.EncodeToString`: four letters per three bytes, the
      last one or two bytes padded with '=' to a full quad (the missing
      bytes count as zero). */
  function Encode(bs: seq<byte>): (s: string)
    ensures |bs| > 0 <==> |s| > 0
    decreases |bs|
  {
    if |bs| == 0 then ""
    else if |bs| == 1 then PadTwo(bs[0])
    else if |bs| == 2 then PadOne(bs[0], bs[1])
    else Quad(bs[0], bs[1], bs[2]) + Encode(bs[3..])
  }

  // ---------------------------------------------------------------------------
  // Decoding (the partner of Encode; the plugin itself only encodes)

  /** Reads one quad of four letters. */
  function DecodeQuad(q: string): (r: Option<seq<byte>>)
    requires |q| == 4
  {
    match (Index(q[0]), Index(q[1]), Index(q[2]), Index(q[3]))
    case (Some(n0), Some(n1), Some(n2), Some(n3)) => Some([Join0(n0, n1), Join1(n1, n2), Join2(n2, n3)])
    case _ => None
  }

  /** Reads the final quad: "==" after two letters, "=" after three, or four
      letters; the bits the padding leaves unused must be zero. */
  function DecodeFinal(q: string): (r: Option<seq<byte>>)
    requires |q| == 4
  {
    if q[2] == '=' && q[3] == '=' then
      match (Index(q[0]), Index(q[1]))
      case (Some(n0), Some(n1)) => if n1 % 16 == 0 then Some([Join0(n0, n1)]) else None
      case _ => None
    else if q[3] == '=' then
      match (Index(q[0]), Index(q[1]), Index(q[2]))
      case (Some(n0), Some(n1), Some(n2)) => if n2 % 4 == 0 then Some([Join0(n0, n1), Join1(n1, n2)]) else None
      case _ => None
    else DecodeQuad(q)
  }

  /** Reads canonical padded base64 back into bytes. */
  function Decode(s: string): (r: Option<seq<byte>>)
    decreases |s|
  {
    if |s| == 0 then Some([])
    else if |s| < 4 then None
    else if |s| == 4 then DecodeFinal(s)
    else match (DecodeQuad(s[..4]), Decode(s[4..]))
      case (Some(head), Some(rest)) => Some(head + rest)
      case _ => None
  }

  /** The letters of a quad are read back as its sextets. */
  lemma QuadIndices(b0: byte, b1: byte, b2: byte)
    ensures var q := Quad(b0, b1, b2);
      && Index(q[0]) == Some(High0(b0)) && Index(q[1]) == Some(High1(b0, b1))
      && Index(q[2]) == Some(High2(b1, b2)) && Index(q[3]) == Some(Low3(b2))
  {
    LetterIndex(High0(b0), 'A');
    LetterIndex(High1(b0, b1), 'A');
    LetterIndex(High2(b1, b2), 'A');
    LetterIndex(Low3(b2), 'A');
  }

  lemma QuadRoundTrip(b0: byte, b1: byte, b2: byte)
    ensures DecodeQuad(Quad(b0, b1, b2)) == Some([b0, b1, b2])
    ensures DecodeFinal(Quad(b0, b1, b2)) == Some([b0, b1, b2])
  {
    QuadIndices(b0, b1, b2);
    SplitJoin0(b0, b1);
    SplitJoin1(b0, b1, b2);
    SplitJoin2(b1, b2);
  }

  lemma PadTwoRoundTrip(b0: byte)
    ensures DecodeFinal(PadTwo(b0)) == Some([b0])
  {
    QuadIndices(b0, 0, 0);
    SplitJoin0(b0, 0);
    PaddedBitsZero(b0, 0);
  }

  lemma PadOneRoundTrip(b0: byte, b1: byte)
    ensures DecodeFinal(PadOne(b0, b1)) == Some([b0, b1])
  {
    QuadIndices(b0, b1, 0);
    SplitJoin0(b0, b1);
    SplitJoin1(b0, b1, 0);
    PaddedBitsZero(b0, b1);
  }

  /** The final one, two or three bytes are read back from their quad. */
  lemma OneByteRoundTrip(bs: seq<byte>)
    requires |bs| == 1
    ensures Decode(Encode(bs)) == Some(bs)
  {
    PadTwoRoundTrip(bs[0]);
    assert [bs[0]] == bs;
  }

  lemma TwoBytesRoundTrip(bs: seq<byte>)
    requires |bs| == 2
    ensures Decode(Encode(bs)) == Some(bs)
  {
    PadOneRoundTrip(bs[0], bs[1]);
    assert [bs[0], bs[1]] == bs;
  }

  lemma ThreeBytesRoundTrip(bs: seq<byte>)
    requires |bs| == 3
    ensures Decode(Encode(bs)) == Some(bs)
  {
    QuadRoundTrip(bs[0], bs[1], bs[2]);
    assert Encode(bs[3..]) == "";
    assert Encode(bs) == Quad(bs[0], bs[1], bs[2]);
    assert [bs[0], bs[1], bs[2]] == bs;
  }

  /** A full quad in front of a non-empty encoding is read first. */
  lemma DecodeCons(q: string, rest: string)
    requires |q| == 4 && |rest| > 0
    ensures Decode(q + rest) == match (DecodeQuad(q), Decode(rest))
      case (Some(head), Some(tail)) => Some(head + tail)
      case _ => None
  {
    assert (q + rest)[..4] == q && (q + rest)[4..] == rest;
  }

  lemma {:induction false} EncodeRoundTrip(bs: seq<byte>)
    ensures Decode(Encode(bs)) == Some(bs)
    decreases |bs|
  {
    if |bs| == 1 {
      OneByteRoundTrip(bs);
    } else if |bs| == 2 {
      TwoBytesRoundTrip(bs);
    } else if |bs| == 3 {
      ThreeBytesRoundTrip(bs);
    } else if |bs| > 3 {
      var q, rest := Quad(bs[0], bs[1], bs[2]), Encode(bs[3..]);
      QuadRoundTrip(bs[0], bs[1], bs[2]);
      EncodeRoundTrip(bs[3..]);
      DecodeCons(q, rest);
      assert bs == [bs[0], bs[1], bs[2]] + bs[3..];
    }
  }

  /** Four letters for every three bytes or fewer. */
  lemma {:induction false} EncodeLength(bs: seq<byte>)
    ensures |Encode(bs)| == (|bs| + 2) / 3 * 4
    decreases |bs|
  {
    if |bs| > 3 {
      EncodeLength(bs[3..]);
      assert (|bs| + 2) / 3 == (|bs[3..]| + 2) / 3 + 1;
    }
  }

  lemma {:induction false} QuadCanonical(q: string)
    requires |q| == 4 && DecodeQuad(q).Some?
    ensures var bs := DecodeQuad(q).value; Quad(bs[0], bs[1], bs[2]) == q
  {
    var n0, n1, n2, n3 := Index(q[0]).value, Index(q[1]).value, Index(q[2]).value, Index(q[3]).value;
    LetterIndex(0, q[0]);
    LetterIndex(0, q[1]);
    LetterIndex(0, q[2]);
    LetterIndex(0, q[3]);
    JoinSplit(n0, n1, n2, n3);
  }

  lemma {:induction false} FinalCanonical(q: string)
    requires |q| == 4 && DecodeFinal(q).Some?
    ensures Encode(DecodeFinal(q).value) == q
  {
    if q[2] == '=' && q[3] == '=' {
      var n0, n1 := Index(q[0]).value, Index(q[1]).value;
      LetterIndex(0, q[0]);
      LetterIndex(0, q[1]);
      JoinSplit(n0, n1, 0, 0);
      JoinSplitPadded(n0, n1, 0);
    } else if q[3] == '=' {
      var n0, n1, n2 := Index(q[0]).value, Index(q[1]).value, Index(q[2]).value;
      LetterIndex(0, q[0]);
      LetterIndex(0, q[1]);
      LetterIndex(0, q[2]);
      JoinSplit(n0, n1, n2, 0);
      JoinSplitPadded(n0, n1, n2);
    } else {
      QuadCanonical(q);
      var bs := DecodeQuad(q).value;
      assert Encode(bs) == Quad(bs[0], bs[1], bs[2]) + Encode(bs[3..]);
    }
  }

  /** Decoding succeeds only on an encoding: every string that decodes is
      the encoding of what it decodes to. */
  lemma {:induction false} DecodeCanonical(s: string)
    requires Decode(s).Some?
    ensures Encode(Decode(s).value) == s
    decreases |s|
  {
    if |s| == 4 {
      FinalCanonical(s);
    } else if |s| > 4 {
      var head, rest := DecodeQuad(s[..4]).value, Decode(s[4..]).value;
      QuadCanonical(s[..4]);
      DecodeCanonical(s[4..]);
      assert (head + rest)[3..] == rest;
      assert s == s[..4] + s[4..];
    }
  }
}
