/** The source header of a copy: bucket, a slash, and the percent-encoded key. */
module CopySource {
  import opened Basics
  import opened Sessions

  const PERCENT: byte := 37
  const SLASH: byte := 47

  /** Control characters, the listed ASCII characters, and everything outside ASCII. */
  predicate Encoded(b: byte) {
    || b < 0x20 || b >= 0x7F
    || b in {32, 34, 35, PERCENT, 38, 43, 63, 92, 94, 96, 123, 124, 125}
  }

  /** An upper-case hexadecimal digit. */
  function Digit(value: byte): byte
    requires value < 16
  {
    if value < 10 then 48 + value else 55 + value
  }

  /** Either case is understood, as section 2.1 of RFC 3986 asks. */
  function DigitValue(b: byte): Option<byte> {
    if 48 <= b <= 57 then Some(b - 48)
    else if 65 <= b <= 70 then Some(b - 55)
    else if 97 <= b <= 102 then Some(b - 87)
    else None
  }

  function EncodeByte(b: byte): Bytes {
    if Encoded(b) then [PERCENT, Digit(b / 16), Digit(b % 16)] else [b]
  }

  function Encode(key: Bytes): Bytes {
    if key == [] then [] else EncodeByte(key[0]) + Encode(key[1..])
  }

  /** A percent sign with two digits is a byte; anything else stands for itself. */
  function Decode(s: Bytes): Bytes {
    if s == [] then []
    else if |s| >= 3 && s[0] == PERCENT && DigitValue(s[1]).Some? && DigitValue(s[2]).Some? then
      assert DigitValue(s[1]).value < 16 && DigitValue(s[2]).value < 16;
      [DigitValue(s[1]).value * 16 + DigitValue(s[2]).value] + Decode(s[3..])
    else [s[0]] + Decode(s[1..])
  }

  function Source(bucket: Bytes, key: Bytes): Bytes {
    bucket + [SLASH] + Encode(key)
  }

  /** What the store reads: everything before the first slash, and the rest decoded. */
  function Parse(source: Bytes): Option<(Bytes, Bytes)> {
    if source == [] then None
    else if source[0] == SLASH then Some(([], Decode(source[1..])))
    else
      match Parse(source[1..])
      case None => None
      case Some((bucket, key)) => Some(([source[0]] + bucket, key))
  }

  /** Two digits stand for their byte. */
  lemma {:induction false} DigitsReadBack(b: byte)
    ensures DigitValue(Digit(b / 16)) == Some(b / 16) && DigitValue(Digit(b % 16)) == Some(b % 16)
    ensures b / 16 * 16 + b % 16 == b
  {
  }

  lemma {:induction false} DecodeEncodes(key: Bytes)
    ensures Decode(Encode(key)) == key
  {
    if key != [] {
      var b, rest := key[0], Encode(key[1..]);
      DecodeEncodes(key[1..]);
      assert key == [b] + key[1..];
      DigitsReadBack(b);
      var whole := Encode(key);
      if Encoded(b) {
        assert whole[0] == PERCENT && whole[1] == Digit(b / 16) && whole[2] == Digit(b % 16) && whole[3..] == rest;
      } else {
        assert whole[0] == b && whole[1..] == rest;
      }
    }
  }

  lemma {:induction false} ParseSplits(bucket: Bytes, rest: Bytes)
    requires SLASH !in bucket
    ensures Parse(bucket + [SLASH] + rest) == Some((bucket, Decode(rest)))
  {
    var source := bucket + [SLASH] + rest;
    if bucket == [] {
      assert source[1..] == rest;
    } else {
      assert source[0] == bucket[0] && source[1..] == bucket[1..] + [SLASH] + rest;
      ParseSplits(bucket[1..], rest);
      assert [bucket[0]] + bucket[1..] == bucket;
    }
  }

  /** Splitting at the first slash and decoding gives back exactly the bucket and the key, for every
      valid bucket name and every key. */
  lemma {:induction false} SourceReadsBack(bucket: Bytes, key: Bytes)
    requires ValidBucket(bucket)
    ensures Parse(Source(bucket, key)) == Some((bucket, key))
  {
    assert SLASH !in bucket by {
      forall i | 0 <= i < |bucket| ensures bucket[i] != SLASH { assert BucketByte(bucket[i]); }
    }
    ParseSplits(bucket, Encode(key));
    DecodeEncodes(key);
  }

  /** Distinct sources never share a header. */
  lemma {:induction false} SourcesNeverCollide(bucket: Bytes, key: Bytes, otherBucket: Bytes, otherKey: Bytes)
    requires ValidBucket(bucket) && ValidBucket(otherBucket)
    ensures Source(bucket, key) == Source(otherBucket, otherKey) <==> bucket == otherBucket && key == otherKey
  {
    SourceReadsBack(bucket, key);
    SourceReadsBack(otherBucket, otherKey);
  }

  /** The characters that stay as they are: letters, digits and ! $ ' ( ) * , - . / : ; < = > @ [ ] _ ~ */
  predicate Literal(b: byte) {
    || 65 <= b <= 90 || 97 <= b <= 122 || 48 <= b <= 57
    || b in {33, 36, 39, 40, 41, 42, 44, 45, 46, 47, 58, 59, 60, 61, 62, 64, 91, 93, 95, 126}
  }

  /** The digits 0 to 9 and A to F. */
  const HEX: Bytes := [48, 49, 50, 51, 52, 53, 54, 55, 56, 57, 65, 66, 67, 68, 69, 70]

  /** A literal character of the key stays, every other byte becomes a percent sign and its two upper-case
      hexadecimal digits. */
  lemma {:induction false} EachByteIsEscaped(b: byte)
    ensures EncodeByte(b) == if Literal(b) then [b] else [PERCENT, HEX[b / 16], HEX[b % 16]]
  {
    DigitIsHex(b / 16);
    DigitIsHex(b % 16);
  }

  lemma {:induction false} DigitIsHex(value: byte)
    requires value < 16
    ensures Digit(value) == HEX[value]
  {
  }

  /** A reader understands the sixteen digits in either case, and nothing else as a digit. */
  lemma {:induction false} EitherCaseIsRead(b: byte)
    ensures DigitValue(b).Some? <==> 48 <= b <= 57 || 65 <= b <= 70 || 97 <= b <= 102
    ensures DigitValue(b).Some? ==> DigitValue(b).value < 16
    ensures DigitValue(b).Some? ==> HEX[DigitValue(b).value] == if b >= 97 then b - 32 else b
  {
  }

  /** The header consists of percent signs and literal characters, whatever bytes the key has. */
  lemma {:induction false} SourceIsSafe(bucket: Bytes, key: Bytes)
    requires ValidBucket(bucket)
    ensures forall i :: 0 <= i < |Source(bucket, key)| ==>
                          Source(bucket, key)[i] == PERCENT || Literal(Source(bucket, key)[i])
  {
    forall i | 0 <= i < |bucket| ensures Literal(bucket[i]) { assert BucketByte(bucket[i]); }
    EncodeIsSafe(key);
  }

  lemma {:induction false} EncodeIsSafe(key: Bytes)
    ensures forall i :: 0 <= i < |Encode(key)| ==> Encode(key)[i] == PERCENT || Literal(Encode(key)[i])
  {
    if key != [] {
      EachByteIsEscaped(key[0]);
      EncodeIsSafe(key[1..]);
    }
  }
}
