/**
 * The GPU instance record `Sprite` of include/sprite.h: its fields in declared
 * order, each a whole number of 4-byte floats, laid out back to back. Offsets
 * are computed as prefix sums of the declared sizes; the offsets written in the
 * header's comments are kept beside them so that the two can be compared.
 */
module SpriteLayout {

  datatype Vec2 = Vec2(x: real, y: real)

  /** One instance record, fields in the order the header declares them. */
  datatype Sprite = Sprite(
    uvStart: Vec2,
    uvEnd: Vec2,
    layerIndex: real,
    zIndex: real,
    position: Vec2,
    size: Vec2,
    rotation: real,
    parallaxFactorX: real,
    parallaxFactorY: real,
    padding2: real)

  /** The all-zero record, as memset leaves it. */
  const ZeroSprite := Sprite(Vec2(0.0, 0.0), Vec2(0.0, 0.0), 0.0, 0.0, Vec2(0.0, 0.0),
                             Vec2(0.0, 0.0), 0.0, 0.0, 0.0, 0.0)

  datatype Field =
    | UvStart | UvEnd | LayerIndex | ZIndex | Position
    | Size | Rotation | ParallaxFactorX | ParallaxFactorY | Padding2

  /** sizeof(float) */
  const FLOAT_BYTES: nat := 4

  /** The declared fields, in order. */
  const Fields: seq<Field> :=
    [UvStart, UvEnd, LayerIndex, ZIndex, Position, Size, Rotation, ParallaxFactorX, ParallaxFactorY, Padding2]

  /** How many floats a field holds: two for a vec2, one for a float. */
  function Floats(f: Field): nat
  {
    match f
    case UvStart | UvEnd | Position | Size => 2
    case _ => 1
  }

  function Bytes(f: Field): nat
  {
    Floats(f) * FLOAT_BYTES
  }

  /** Position of a field in the declaration. */
  function Index(f: Field): (i: nat)
    ensures i < |Fields| && Fields[i] == f
  {
    match f
    case UvStart => 0
    case UvEnd => 1
    case LayerIndex => 2
    case ZIndex => 3
    case Position => 4
    case Size => 5
    case Rotation => 6
    case ParallaxFactorX => 7
    case ParallaxFactorY => 8
    case Padding2 => 9
  }

  /** Byte offset of the i-th declared field: the sum of the sizes declared before it. */
  function OffsetAt(i: nat): nat
    requires i <= |Fields|
    decreases i
  {
    if i == 0 then 0 else OffsetAt(i - 1) + Bytes(Fields[i - 1])
  }

  function OffsetOf(f: Field): nat
  {
    OffsetAt(Index(f))
  }

  /** Byte size of the whole record: where the last field ends. */
  function RecordBytes(): nat
  {
    OffsetAt(|Fields|)
  }

  /** The offsets the header's comments state for each field. */
  function CommentedOffset(f: Field): nat
  {
    match f
    case UvStart => 0
    case UvEnd => 8
    case LayerIndex => 16
    case ZIndex => 20
    case Position => 24
    case Size => 32
    case Rotation => 36
    case ParallaxFactorX => 40
    case ParallaxFactorY => 44
    case Padding2 => 48
  }

  /** The record size the header's comment states. */
  const COMMENTED_TOTAL: nat := 52

  /** Every field is a whole number of floats, so every offset is float-aligned. */
  lemma {:induction false} OffsetAligned(i: nat)
    requires i <= |Fields|
    ensures OffsetAt(i) % FLOAT_BYTES == 0
    decreases i
  {
    if i > 0 {
      OffsetAligned(i - 1);
    }
  }

  /** A field declared before another ends no later than the other starts. */
  lemma {:induction false} OffsetsIncrease(i: nat, j: nat)
    requires i < j <= |Fields|
    ensures OffsetAt(i) + Bytes(Fields[i]) <= OffsetAt(j)
    decreases j
  {
    if i + 1 < j {
      OffsetsIncrease(i, j - 1);
    }
  }

  /** Every field starts at a float-aligned offset. */
  lemma FieldAligned(f: Field)
    ensures OffsetOf(f) % FLOAT_BYTES == 0
  {
    OffsetAligned(Index(f));
  }

  /** Each field starts exactly where the field declared before it ends: there is no implicit padding. */
  lemma FieldsAdjacent(f: Field, g: Field)
    requires Index(g) == Index(f) + 1
    ensures OffsetOf(g) == OffsetOf(f) + Bytes(f)
  {
    var i, j := Index(f), Index(g);
    assert OffsetAt(j) == OffsetAt(i) + Bytes(Fields[i]);
  }

  /** A field declared before another ends no later than the other starts, and every field ends inside the record. */
  lemma FieldsInOrder(f: Field, g: Field)
    ensures Index(f) < Index(g) ==> OffsetOf(f) + Bytes(f) <= OffsetOf(g)
    ensures OffsetOf(f) + Bytes(f) <= RecordBytes()
  {
    var i, j := Index(f), Index(g);
    if i < j {
      OffsetsIncrease(i, j);
    }
    OffsetsIncrease(i, |Fields|);
  }

  /** The offsets of all ten fields and the record size, computed from the declared sizes. */
  lemma ComputedOffsets()
    ensures OffsetAt(1) == 8 && OffsetAt(2) == 16 && OffsetAt(3) == 20 && OffsetAt(4) == 24
    ensures OffsetAt(5) == 32 && OffsetAt(6) == 40 && OffsetAt(7) == 44 && OffsetAt(8) == 48
    ensures OffsetAt(9) == 52 && RecordBytes() == 56
  {
    assert OffsetAt(1) == 8;
    assert OffsetAt(2) == 16;
    assert OffsetAt(3) == 20;
    assert OffsetAt(4) == 24;
    assert OffsetAt(5) == 32;
    assert OffsetAt(6) == 40;
    assert OffsetAt(7) == 44;
    assert OffsetAt(8) == 48;
    assert OffsetAt(9) == 52;
    assert OffsetAt(10) == 56;
  }

  /** The offsets the comments state for the first six fields are the computed ones. */
  lemma CommentAgreesUpToSize(f: Field)
    requires Index(f) <= Index(Size)
    ensures OffsetOf(f) == CommentedOffset(f)
  {
    ComputedOffsets();
  }

  /**
   * From `rotation` on, the comments are off by four bytes: `size` is an 8-byte
   * vec2 at offset 32, so `rotation` starts at 40, not 36, and the record is
   * 56 bytes (14 floats), not 52.
   */
  lemma CommentDisagreesFromRotation(f: Field)
    requires Index(Size) < Index(f)
    ensures OffsetOf(f) == CommentedOffset(f) + 4
    ensures RecordBytes() == COMMENTED_TOTAL + 4
  {
    ComputedOffsets();
  }

  /** The record as the 32-bit floats the GPU reads, in wire order. */
  function Flatten(s: Sprite): (w: seq<real>)
    ensures |w| == 14 && |w| * FLOAT_BYTES == RecordBytes()
  {
    ComputedOffsets();
    [s.uvStart.x, s.uvStart.y, s.uvEnd.x, s.uvEnd.y, s.layerIndex, s.zIndex,
     s.position.x, s.position.y, s.size.x, s.size.y, s.rotation,
     s.parallaxFactorX, s.parallaxFactorY, s.padding2]
  }

  /** Reads a record back from its floats. */
  function Unflatten(w: seq<real>): Sprite
    requires |w| == 14
  {
    Sprite(Vec2(w[0], w[1]), Vec2(w[2], w[3]), w[4], w[5], Vec2(w[6], w[7]),
           Vec2(w[8], w[9]), w[10], w[11], w[12], w[13])
  }

  /** Writing a record to the buffer and reading it back yields the same record. */
  lemma FlattenRoundTrip(s: Sprite, w: seq<real>)
    ensures |Flatten(s)| == 14 && Unflatten(Flatten(s)) == s
    ensures |w| == 14 ==> Flatten(Unflatten(w)) == w
  {
  }

  /** The float slot at which a field starts: its byte offset over the float size. */
  function Slot(f: Field): (k: nat)
    ensures k * FLOAT_BYTES == OffsetOf(f) && k < RecordBytes() / FLOAT_BYTES
  {
    FieldAligned(f);
    FieldsInOrder(f, f);
    OffsetAligned(|Fields|);
    OffsetOf(f) / FLOAT_BYTES
  }

  /** Each field's first float sits in the flattened record at the field's computed slot. */
  lemma FlattenMatchesOffsets(s: Sprite)
    ensures var w := Flatten(s);
      && w[Slot(UvStart)] == s.uvStart.x
      && w[Slot(UvEnd)] == s.uvEnd.x
      && w[Slot(LayerIndex)] == s.layerIndex
      && w[Slot(ZIndex)] == s.zIndex
      && w[Slot(Position)] == s.position.x
      && w[Slot(Size)] == s.size.x
      && w[Slot(Rotation)] == s.rotation
      && w[Slot(ParallaxFactorX)] == s.parallaxFactorX
      && w[Slot(ParallaxFactorY)] == s.parallaxFactorY
      && w[Slot(Padding2)] == s.padding2
  {
    ComputedOffsets();
  }
}
