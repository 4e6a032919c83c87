/**
  The colour model of the 2x magnifier: a 32-bit RGBA pixel with an
  equality that treats every fully transparent colour as the same colour,
  and a channel distance built on that equality.

  The source stores a colour as a union of four bytes and one 32-bit word.
  Here the four bytes are the datatype and the word is computed by `Pack`,
  assuming little-endian packing (r in the low byte, a in the high byte).
 */
module Colors {

  /** One 8-bit channel. */
  type Byte = n: int | 0 <= n < 0x100

  /** An unsigned 32-bit word. */
  type Word = n: int | 0 <= n < 0x1_0000_0000

  datatype Color = Color(r: Byte, g: Byte, b: Byte, a: Byte)

  /** The 32-bit view of a colour under little-endian packing. */
  function Pack(c: Color): Word
  {
    c.r + 0x100 * (c.g + 0x100 * (c.b + 0x100 * c.a))
  }

  /** The colour whose 32-bit view is `n`. */
  function Unpack(n: Word): Color
  {
    Color(n % 0x100, (n / 0x100) % 0x100, (n / 0x1_0000) % 0x100, n / 0x100_0000)
  }

  lemma SplitLowByte(lo: int, hi: int)
    requires 0 <= lo < 0x100
    ensures (lo + 0x100 * hi) % 0x100 == lo
    ensures (lo + 0x100 * hi) / 0x100 == hi
  {
  }

  /** Packing then unpacking gives back the colour. */
  lemma {:induction false} UnpackPack(c: Color)
    ensures Unpack(Pack(c)) == c
  {
    var hiB := c.b + 0x100 * c.a;
    var hiG := c.g + 0x100 * hiB;
    SplitLowByte(c.r, hiG);
    SplitLowByte(c.g, hiB);
    SplitLowByte(c.b, c.a);
    var n := Pack(c);
    assert n / 0x100 == hiG;
    assert n / 0x1_0000 == (n / 0x100) / 0x100;
    assert n / 0x100_0000 == ((n / 0x100) / 0x100) / 0x100;
  }

  /** Unpacking then packing gives back the word. */
  lemma {:induction false} PackUnpack(n: Word)
    ensures Pack(Unpack(n)) == n
  {
    var q1 := n / 0x100;
    var q2 := q1 / 0x100;
    assert n / 0x1_0000 == q2;
    assert n / 0x100_0000 == q2 / 0x100;
    assert q2 == q2 % 0x100 + 0x100 * (q2 / 0x100);
    assert q1 == q1 % 0x100 + 0x100 * q2;
    assert n == n % 0x100 + 0x100 * q1;
  }

  /** Two colours with the same 32-bit view are the same colour. */
  lemma PackInjective(x: Color, y: Color)
    ensures Pack(x) == Pack(y) <==> x == y
  {
    if Pack(x) == Pack(y) {
      UnpackPack(x);
      UnpackPack(y);
    }
  }

  /** The colour of a default-constructed `MyColor`, whose 32-bit view is
      0xff000000: opaque black under little-endian packing. */
  function Default(): (c: Color)
    ensures Pack(c) == 0xff00_0000
    ensures Unpack(0xff00_0000) == c
  {
    Color(0, 0, 0, 0xff)
  }

  /** Both alpha bytes are zero; the source tests `(a | other.a) == 0`,
      and the bitwise or of two bytes is zero exactly when both are. */
  predicate BothTransparent(x: Color, y: Color)
  {
    x.a == 0 && y.a == 0
  }

  /** `operator ==`: the same colour, or both fully transparent. The
      source compares the 32-bit views; `EqualIsWordCompare` shows the two
      agree. */
  predicate Equal(x: Color, y: Color)
  {
    x == y || BothTransparent(x, y)
  }

  /** `operator !=`: different colours, not both fully transparent. */
  predicate NotEqual(x: Color, y: Color)
  {
    x != y && !BothTransparent(x, y)
  }

  /** Both operators say what the source's word comparisons say, and
      `operator !=` is the negation of `operator ==`. */
  lemma EqualIsWordCompare(x: Color, y: Color)
    ensures Equal(x, y) <==> Pack(x) == Pack(y) || BothTransparent(x, y)
    ensures NotEqual(x, y) <==> Pack(x) != Pack(y) && !BothTransparent(x, y)
    ensures NotEqual(x, y) <==> !Equal(x, y)
  {
    PackInjective(x, y);
  }

  /** Colour equality is an equivalence relation. */
  lemma EqualIsEquivalence(x: Color, y: Color, z: Color)
    ensures Equal(x, x)
    ensures Equal(x, y) ==> Equal(y, x)
    ensures Equal(x, y) && Equal(y, z) ==> Equal(x, z)
  {
  }

  function Abs(n: int): nat
  {
    if n < 0 then -n else n
  }

  /** The sum of the four absolute channel differences. */
  function ChannelDistance(x: Color, y: Color): nat
  {
    Abs(x.g - y.g) + Abs(x.b - y.b) + Abs(x.r - y.r) + Abs(x.a - y.a)
  }

  /** `operator -`: zero for equal colours, otherwise the channel distance. */
  function Distance(x: Color, y: Color): (d: nat)
    ensures d == 0 <==> Equal(x, y)
  {
    if Equal(x, y) || BothTransparent(x, y) then 0
    else ChannelDistance(x, y)
  }

  /** Between colours that are not equal the distance is the channel
      distance, which is then positive; no distance exceeds four full
      channel ranges. */
  lemma DistanceBounds(x: Color, y: Color)
    ensures !Equal(x, y) ==> Distance(x, y) == ChannelDistance(x, y) > 0
    ensures Distance(x, y) <= 4 * 0xff
  {
  }

  /** The distance does not depend on the order of its arguments. */
  lemma DistanceSymmetric(x: Color, y: Color)
    ensures Distance(x, y) == Distance(y, x)
  {
  }
}
