/** The standard base64 encoding with padding (section 4 of RFC 4648), as
    Go's `base64.StdEncoding.EncodeToString` produces it, and the decoder
    that inverts it. */
module Base64 {
  import opened Wrappers
  import opened Dynamic

  /** The 6-bit value `i` as a character of the alphabet in Table 1 of
      RFC 4648: `A`-`Z`, `a`-`z`, `0`-`9`, `+`, `/`. */
  function Char(i: nat): char
    requires i < 64
  {
    if i < 26 then ('A' as int + i) as char
    else if i < 52 then ('a' as int + i - 26) as char
    else if i < 62 then ('0' as int + i - 52) as char
    else if i == 62 then '+'
    else '/'
  }

  /** The 6-bit value a character stands for, if it is in the alphabet. */
  function Index(c: char): Option<nat> {
    if 'A' <= c <= 'Z' then Some(c as int - 'A' as int)
    else if 'a' <= c <= 'z' then Some(c as int - 'a' as int + 26)
    else if '0' <= c <= '9' then Some(c as int - '0' as int + 52)
    else if c == '+' then Some(62)
    else if c == '/' then Some(63)
    else None
  }

  predicate InAlphabet(c: char) {
    Index(c).Some?
  }

  lemma IndexOfChar(i: nat)
    requires i < 64
    ensures Index(Char(i)) == Some(i)
  {
  }

  lemma IndexBelow64(c: char)
    ensures Index(c).Some? ==> Index(c).value < 64
  {
  }

  /** Three bytes as four characters. */
  function EncodeBlock(b0: byte, b1: byte, b2: byte): string {
    [Char(b0 / 4), Char(b0 % 4 * 16 + b1 / 16), Char(b1 % 16 * 4 + b2 / 64), Char(b2 % 64)]
  }

  /** The encoding of `bytes`, one block of three at a time; a final block
      of one or two bytes is padded with `=`. */
  function Encode(bytes: seq<byte>): string
    decreases |bytes|
  {
    if |bytes| == 0 then ""
    else if |bytes| == 1 then [Char(bytes[0] / 4), Char(bytes[0] % 4 * 16), '=', '=']
    else if |bytes| == 2 then [Char(bytes[0] / 4), Char(bytes[0] % 4 * 16 + bytes[1] / 16), Char(bytes[1] % 16 * 4), '=']
    else EncodeBlock(bytes[0], bytes[1], bytes[2]) + Encode(bytes[3..])
  }

  /** Four characters, the last two possibly `=`, as one to three bytes. */
  function DecodeBlock(q: string): Option<seq<byte>>
    requires |q| == 4
  {
    var i0, i1, i2, i3 := Index(q[0]), Index(q[1]), Index(q[2]), Index(q[3]);
    if i0.None? || i1.None? || i0.value >= 64 || i1.value >= 64 then None
    else if q[2] == '=' && q[3] == '=' then
      Some([i0.value * 4 + i1.value / 16])
    else if i2.None? || i2.value >= 64 then None
    else if q[3] == '=' then
      Some([i0.value * 4 + i1.value / 16, i1.value % 16 * 16 + i2.value / 4])
    else if i3.None? || i3.value >= 64 then None
    else
      Some([i0.value * 4 + i1.value / 16, i1.value % 16 * 16 + i2.value / 4, i2.value % 4 * 64 + i3.value])
  }

  /** Decodes a padded base64 string; padding may occur only in the last
      block. */
  function Decode(s: string): Option<seq<byte>>
    decreases |s|
  {
    if |s| == 0 then Some([])
    else if |s| < 4 then None
    else if |s| == 4 then DecodeBlock(s)
    else if s[3] == '=' then None
    else match DecodeBlock(s[..4])
      case None => None
      case Some(head) =>
        match Decode(s[4..])
        case None => None
        case Some(tail) => Some(head + tail)
  }

  /** The output has four characters for every started block of three bytes. */
  lemma {:induction false} EncodeLength(bytes: seq<byte>)
    ensures |Encode(bytes)| == 4 * ((|bytes| + 2) / 3)
    decreases |bytes|
  {
    if |bytes| >= 3 {
      EncodeLength(bytes[3..]);
    }
  }

  /** Every character is from the alphabet or is `=`, and `=` occurs only in
      the last two positions. */
  lemma {:induction false} EncodeCharacters(bytes: seq<byte>)
    ensures forall i :: 0 <= i < |Encode(bytes)| ==>
      InAlphabet(Encode(bytes)[i]) || (Encode(bytes)[i] == '=' && i >= |Encode(bytes)| - 2)
    decreases |bytes|
  {
    EncodeLength(bytes);
    if |bytes| >= 3 {
      EncodeCharacters(bytes[3..]);
      EncodeLength(bytes[3..]);
      var head, tail := EncodeBlock(bytes[0], bytes[1], bytes[2]), Encode(bytes[3..]);
      forall i | 0 <= i < |head + tail|
        ensures InAlphabet((head + tail)[i]) || ((head + tail)[i] == '=' && i >= |head + tail| - 2)
      {
        if i >= 4 {
          assert (head + tail)[i] == tail[i - 4];
        }
      }
    }
  }

  lemma DecodeEncodeBlock(b0: byte, b1: byte, b2: byte)
    ensures DecodeBlock(EncodeBlock(b0, b1, b2)) == Some([b0, b1, b2])
  {
    IndexOfChar(b0 / 4);
    IndexOfChar(b0 % 4 * 16 + b1 / 16);
    IndexOfChar(b1 % 16 * 4 + b2 / 64);
    IndexOfChar(b2 % 64);
    assert (b0 % 4 * 16 + b1 / 16) / 16 == b0 % 4;
    assert (b0 % 4 * 16 + b1 / 16) % 16 == b1 / 16;
    assert (b1 % 16 * 4 + b2 / 64) / 4 == b1 % 16;
    assert (b1 % 16 * 4 + b2 / 64) % 4 == b2 / 64;
  }

  lemma DecodeEncodeOne(b0: byte)
    ensures Decode(Encode([b0])) == Some([b0])
  {
    IndexOfChar(b0 / 4);
    IndexOfChar(b0 % 4 * 16);
  }

  lemma DecodeEncodeTwo(b0: byte, b1: byte)
    ensures Decode(Encode([b0, b1])) == Some([b0, b1])
  {
    IndexOfChar(b0 / 4);
    IndexOfChar(b0 % 4 * 16 + b1 / 16);
    IndexOfChar(b1 % 16 * 4);
    assert (b0 % 4 * 16 + b1 / 16) / 16 == b0 % 4;
    assert (b0 % 4 * 16 + b1 / 16) % 16 == b1 / 16;
    assert b1 % 16 * 4 / 4 == b1 % 16;
  }

  /** Decoding an encoding gives back the original bytes. */
  lemma {:induction false} DecodeEncode(bytes: seq<byte>)
    ensures Decode(Encode(bytes)) == Some(bytes)
    decreases |bytes|
  {
    if |bytes| == 1 {
      DecodeEncodeOne(bytes[0]);
      assert bytes == [bytes[0]];
    } else if |bytes| == 2 {
      DecodeEncodeTwo(bytes[0], bytes[1]);
      assert bytes == [bytes[0], bytes[1]];
    } else if |bytes| >= 3 {
      var head, tail := EncodeBlock(bytes[0], bytes[1], bytes[2]), Encode(bytes[3..]);
      DecodeEncodeBlock(bytes[0], bytes[1], bytes[2]);
      DecodeEncode(bytes[3..]);
      EncodeLength(bytes[3..]);
      assert Encode(bytes) == head + tail;
      assert (head + tail)[..4] == head;
      assert (head + tail)[4..] == tail;
      assert bytes == [bytes[0], bytes[1], bytes[2]] + bytes[3..];
      if |tail| == 0 {
        assert head + tail == head;
        assert bytes == [bytes[0], bytes[1], bytes[2]];
      } else {
        assert InAlphabet(head[3]) by { IndexOfChar(bytes[2] % 64); }
      }
    }
  }

  const JpegDataUrlPrefix: string := "data:image/jpeg;base64,"

  /** The image as a `data:` URL with a JPEG media type. */
  function DataUrl(bytes: seq<byte>): string {
    JpegDataUrlPrefix + Encode(bytes)
  }

  /** The bytes are recoverable from the data URL: strip the prefix and
      decode. */
  lemma DataUrlRoundTrip(bytes: seq<byte>)
    ensures DataUrl(bytes)[..|JpegDataUrlPrefix|] == JpegDataUrlPrefix
    ensures Decode(DataUrl(bytes)[|JpegDataUrlPrefix|..]) == Some(bytes)
  {
    assert DataUrl(bytes)[|JpegDataUrlPrefix|..] == Encode(bytes);
    DecodeEncode(bytes);
  }

  /** Test vectors from section 10 of RFC 4648: "f", "fo" and "foo". */
  lemma EncodeTestVectors()
    ensures Encode([102]) == "Zg=="
    ensures Encode([102, 111]) == "Zm8="
    ensures Encode([102, 111, 111]) == "Zm9v"
  {
  }
}
