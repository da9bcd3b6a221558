/** The packed form of a side: facelet `i` is byte `7 - i` of a 64-bit word,
    so facelet 0 is the most significant byte. A word is the unsigned reading
    of the `long`'s 64 bits; a colour byte is the colour's own value. */
module SidePacking {
  import opened Outcomes
  import opened FaceColor
  import opened Sides
  import ArrayUtil

  const WORD_LIMIT: int := 0x1_0000_0000_0000_0000

  type Word = x: int | 0 <= x < WORD_LIMIT
  type Byte = b: int | 0 <= b < 256

  /** Eight bytes packed into one word, the first most significant. */
  function Pack(b0: Byte, b1: Byte, b2: Byte, b3: Byte, b4: Byte, b5: Byte, b6: Byte, b7: Byte): Word
  {
    ((((((b0 * 256 + b1) * 256 + b2) * 256 + b3) * 256 + b4) * 256 + b5) * 256 + b6) * 256 + b7
  }

  /** The byte holding facelet `i`. */
  function ByteAt(x: Word, i: nat): Byte
    requires i < 8
  {
    match i
    case 0 => x / 256 / 256 / 256 / 256 / 256 / 256 / 256
    case 1 => x / 256 / 256 / 256 / 256 / 256 / 256 % 256
    case 2 => x / 256 / 256 / 256 / 256 / 256 % 256
    case 3 => x / 256 / 256 / 256 / 256 % 256
    case 4 => x / 256 / 256 / 256 % 256
    case 5 => x / 256 / 256 % 256
    case 6 => x / 256 % 256
    case 7 => x % 256
  }

  /** `Long.rotateRight(x, 16)` on the unsigned reading of the word. */
  function RotateRight16(x: Word): Word
  {
    (x % 0x1_0000) * 0x1_0000_0000_0000 + x / 0x1_0000
  }

  /** `Long.rotateLeft(x, 16)` on the unsigned reading of the word. */
  function RotateLeft16(x: Word): Word
  {
    (x % 0x1_0000_0000_0000) * 0x1_0000 + x / 0x1_0000_0000_0000
  }

  /** The two rotations undo each other, and four right rotations restore the word. */
  lemma RotateLaws(x: Word)
    ensures RotateLeft16(RotateRight16(x)) == x
    ensures RotateRight16(RotateLeft16(x)) == x
    ensures RotateRight16(RotateRight16(RotateRight16(RotateRight16(x)))) == x
  {
    var p, q := x / 0x1_0000, x % 0x1_0000;
    ArrayUtil.ModUnique(RotateRight16(x), 0x1_0000_0000_0000, q, p);
    var a, b := x / 0x1_0000_0000_0000, x % 0x1_0000_0000_0000;
    ArrayUtil.ModUnique(RotateLeft16(x), 0x1_0000, b, a);
    RotateRightBytes(x);
  }

  lemma RotateRightBytes(x: Word)
    ensures RotateRight16(RotateRight16(RotateRight16(RotateRight16(x)))) == x
  {
    UnpackIsPack(x);
    var b0, b1, b2, b3 := ByteAt(x, 0), ByteAt(x, 1), ByteAt(x, 2), ByteAt(x, 3);
    var b4, b5, b6, b7 := ByteAt(x, 4), ByteAt(x, 5), ByteAt(x, 6), ByteAt(x, 7);
    PackRotateRight(b0, b1, b2, b3, b4, b5, b6, b7);
    PackRotateRight(b6, b7, b0, b1, b2, b3, b4, b5);
    PackRotateRight(b4, b5, b6, b7, b0, b1, b2, b3);
    PackRotateRight(b2, b3, b4, b5, b6, b7, b0, b1);
  }

  lemma PackRotateRight(b0: Byte, b1: Byte, b2: Byte, b3: Byte, b4: Byte, b5: Byte, b6: Byte, b7: Byte)
    ensures RotateRight16(Pack(b0, b1, b2, b3, b4, b5, b6, b7)) == Pack(b6, b7, b0, b1, b2, b3, b4, b5)
  {
    var hi := ((((b0 * 256 + b1) * 256 + b2) * 256 + b3) * 256 + b4) * 256 + b5;
    var lo := b6 * 256 + b7;
    ArrayUtil.ModUnique(Pack(b0, b1, b2, b3, b4, b5, b6, b7), 0x1_0000, hi, lo);
    assert Pack(b6, b7, b0, b1, b2, b3, b4, b5) == lo * 0x1_0000_0000_0000 + hi;
  }

  lemma PackRotateLeft(b0: Byte, b1: Byte, b2: Byte, b3: Byte, b4: Byte, b5: Byte, b6: Byte, b7: Byte)
    ensures RotateLeft16(Pack(b0, b1, b2, b3, b4, b5, b6, b7)) == Pack(b2, b3, b4, b5, b6, b7, b0, b1)
  {
    var hi := b0 * 256 + b1;
    var lo := ((((b2 * 256 + b3) * 256 + b4) * 256 + b5) * 256 + b6) * 256 + b7;
    ArrayUtil.ModUnique(Pack(b0, b1, b2, b3, b4, b5, b6, b7), 0x1_0000_0000_0000, hi, lo);
    assert Pack(b2, b3, b4, b5, b6, b7, b0, b1) == lo * 0x1_0000 + hi;
  }

  lemma UnpackPack(b0: Byte, b1: Byte, b2: Byte, b3: Byte, b4: Byte, b5: Byte, b6: Byte, b7: Byte)
    ensures var x := Pack(b0, b1, b2, b3, b4, b5, b6, b7);
      ByteAt(x, 0) == b0 && ByteAt(x, 1) == b1 && ByteAt(x, 2) == b2 && ByteAt(x, 3) == b3
      && ByteAt(x, 4) == b4 && ByteAt(x, 5) == b5 && ByteAt(x, 6) == b6 && ByteAt(x, 7) == b7
  {
  }

  lemma UnpackIsPack(x: Word)
    ensures Pack(ByteAt(x, 0), ByteAt(x, 1), ByteAt(x, 2), ByteAt(x, 3),
                 ByteAt(x, 4), ByteAt(x, 5), ByteAt(x, 6), ByteAt(x, 7)) == x
  {
  }

  /** `encoded()`. */
  function Encode(side: Side): Word
  {
    var c := side.colors;
    Pack(c[0], c[1], c[2], c[3], c[4], c[5], c[6], c[7])
  }

  /** Every byte of the word names a colour. */
  predicate IsColorWord(x: Word)
  {
    ByteAt(x, 0) < 6 && ByteAt(x, 1) < 6 && ByteAt(x, 2) < 6 && ByteAt(x, 3) < 6
    && ByteAt(x, 4) < 6 && ByteAt(x, 5) < 6 && ByteAt(x, 6) < 6 && ByteAt(x, 7) < 6
  }

  /** `new Side(long)` read back through `toColors()`: a byte that is not a
      colour is rejected, and an accepted word is the encoding of the result. */
  function Decode(x: Word): (r: Result<Side>)
    ensures r.Ok? <==> IsColorWord(x)
    ensures r.Ok? ==> Encode(r.value) == x
  {
    if !IsColorWord(x) then Err(IllegalArgument("invalid color byte"))
    else
      UnpackIsPack(x);
      Ok(Side([ByteAt(x, 0), ByteAt(x, 1), ByteAt(x, 2), ByteAt(x, 3),
               ByteAt(x, 4), ByteAt(x, 5), ByteAt(x, 6), ByteAt(x, 7)]))
  }

  /** `equals`: two sides are equal exactly when their words are. */
  lemma {:induction false} EqualIffSameEncoding(a: Side, b: Side)
    ensures a == b <==> Encode(a) == Encode(b)
  {
    if Encode(a) == Encode(b) {
      EncodeBytes(a);
      EncodeBytes(b);
      assert forall i :: 0 <= i < 8 ==> a.colors[i] == b.colors[i];
    }
  }

  /** Byte `i` of a side's word is its facelet `i`. */
  lemma EncodeBytes(side: Side)
    ensures forall i :: 0 <= i < 8 ==> ByteAt(Encode(side), i) == side.colors[i]
  {
    var c := side.colors;
    UnpackPack(c[0], c[1], c[2], c[3], c[4], c[5], c[6], c[7]);
  }

  /** Decoding an encoded side gives the side back. */
  lemma {:induction false} DecodeEncode(side: Side)
    ensures Decode(Encode(side)) == Ok(side)
  {
    var c := side.colors;
    UnpackPack(c[0], c[1], c[2], c[3], c[4], c[5], c[6], c[7]);
    assert IsColorWord(Encode(side));
    EqualIffSameEncoding(Decode(Encode(side)).value, side);
  }

  /** A clockwise quarter turn of the packed word is `Long.rotateRight(x, 16)`. */
  lemma {:induction false} EncodeClockwise(side: Side)
    ensures Encode(Side(RingClockwise(side.colors))) == RotateRight16(Encode(side))
  {
    var c := side.colors;
    PackRotateRight(c[0], c[1], c[2], c[3], c[4], c[5], c[6], c[7]);
  }

  /** A counter-clockwise quarter turn of the packed word is `Long.rotateLeft(x, 16)`. */
  lemma {:induction false} EncodeCounterClockwise(side: Side)
    ensures Encode(Side(RingCounterClockwise(side.colors))) == RotateLeft16(Encode(side))
  {
    var c := side.colors;
    PackRotateLeft(c[0], c[1], c[2], c[3], c[4], c[5], c[6], c[7]);
  }

  /** The side of SideTest, WHITE RED ORANGE YELLOW GREEN BLUE WHITE RED, packs to
      0x0001020304050001 and back, and the word one higher decodes to a different side. */
  lemma SampleEncoding()
    ensures Encode(Side([WHITE, RED, ORANGE, YELLOW, GREEN, BLUE, WHITE, RED])) == 0x0001020304050001
    ensures Decode(0x0001020304050001) == Ok(Side([WHITE, RED, ORANGE, YELLOW, GREEN, BLUE, WHITE, RED]))
    ensures Decode(0x0001020304050002) == Ok(Side([WHITE, RED, ORANGE, YELLOW, GREEN, BLUE, WHITE, ORANGE]))
  {
    DecodeEncode(Side([WHITE, RED, ORANGE, YELLOW, GREEN, BLUE, WHITE, RED]));
    DecodeEncode(Side([WHITE, RED, ORANGE, YELLOW, GREEN, BLUE, WHITE, ORANGE]));
  }

  /** `all(a)` packs to the byte `a` in every place, and `checker(a, b)` to
      `a` in the even places and `b` in the odd ones, counted from the most
      significant byte; both words decode back to the side. */
  lemma {:induction false} AllAndChecker(a: Color, b: Color)
    ensures Encode(All(a)) == a * 0x0101_0101_0101_0101
    ensures Encode(Checker(a, b)) == a * 0x0100_0100_0100_0100 + b * 0x0001_0001_0001_0001
    ensures Decode(a * 0x0101_0101_0101_0101) == Ok(All(a))
    ensures Decode(a * 0x0100_0100_0100_0100 + b * 0x0001_0001_0001_0001) == Ok(Checker(a, b))
  {
    DecodeEncode(All(a));
    DecodeEncode(Checker(a, b));
  }
}
