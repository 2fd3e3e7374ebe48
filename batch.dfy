/**
 * The instance-count bookkeeping of the sprite batch renderer in the sketch of
 * src/main_old.c. Sprites are appended to a fixed-capacity instance buffer; a
 * full buffer is drawn (flushed) before the next sprite goes in. What each
 * instance holds and the GL draw itself are not modelled; `flushed` records
 * the size of every batch drawn.
 */
module Batch {

  class SpriteBatchRenderer {
    /** Instances the buffer holds. */
    var capacity: int
    /** Instances waiting to be drawn. */
    var count: int
    /** Sizes of the batches drawn so far, in order. */
    ghost var flushed: seq<int>

    ghost predicate Valid()
      reads this
    {
      0 <= count <= capacity
    }
  }

  /** beginBatch: the pending instances are discarded; nothing is drawn. */
  method BeginBatch(renderer: SpriteBatchRenderer)
    modifies renderer`count
    ensures renderer.count == 0
  {
    renderer.count := 0;
  }

  /** flushBatch: nothing when empty; otherwise the pending batch is drawn and the count returns to 0. */
  method FlushBatch(renderer: SpriteBatchRenderer)
    modifies renderer`count, renderer`flushed
    ensures old(renderer.count) == 0 ==> renderer.count == 0 && renderer.flushed == old(renderer.flushed)
    ensures old(renderer.count) != 0 ==>
      renderer.count == 0 && renderer.flushed == old(renderer.flushed) + [old(renderer.count)]
  {
    if renderer.count == 0 {
      return;
    }
    renderer.flushed := renderer.flushed + [renderer.count];
    renderer.count := 0;
  }

  /** The count after one addSpriteToBatch: a full buffer is flushed first, then one instance is added. */
  function AddStep(count: int, capacity: int): (r: int)
    ensures 0 <= count <= capacity && capacity >= 1 ==> 1 <= r <= capacity
    ensures count < capacity ==> r == count + 1
  {
    if count >= capacity then 1 else count + 1
  }

  /**
   * addSpriteToBatch: flushes when the buffer is full, then writes the next
   * instance slot. The buffer must hold at least one instance, since the
   * slot is written without a further check.
   */
  method AddSpriteToBatch(renderer: SpriteBatchRenderer)
    requires renderer.Valid() && renderer.capacity >= 1
    modifies renderer`count, renderer`flushed
    ensures renderer.Valid()
    ensures renderer.count == AddStep(old(renderer.count), renderer.capacity)
    ensures renderer.flushed == if old(renderer.count) >= renderer.capacity
                                then old(renderer.flushed) + [renderer.capacity]
                                else old(renderer.flushed)
  {
    if renderer.count >= renderer.capacity {
      FlushBatch(renderer);
    }
    renderer.count := renderer.count + 1;
  }

  /** The count after beginBatch and n sprites added. */
  function CountAfterAdds(n: nat, capacity: int): int
    decreases n
  {
    if n == 0 then 0 else AddStep(CountAfterAdds(n - 1, capacity), capacity)
  }

  /**
   * After beginBatch and n >= 1 additions the buffer holds (n - 1) mod
   * capacity + 1 instances: every full buffer of `capacity` was drawn.
   */
  lemma {:induction false} CountAfterAddsClosedForm(n: nat, capacity: int)
    requires capacity >= 1
    ensures n >= 1 ==> CountAfterAdds(n, capacity) == (n - 1) % capacity + 1
    ensures 0 <= CountAfterAdds(n, capacity) <= capacity
    decreases n
  {
    if n >= 2 {
      CountAfterAddsClosedForm(n - 1, capacity);
      ModNext(n - 2, capacity);
    }
  }

  /** Stepping past a multiple of c brings the remainder back to 0; otherwise it grows by one. */
  lemma ModNext(m: nat, c: int)
    requires c >= 1
    ensures (m + 1) % c == if m % c + 1 == c then 0 else m % c + 1
  {
    var q, r := m / c, m % c;
    assert m == q * c + r;
    if r + 1 == c {
      assert m + 1 == (q + 1) * c + 0;
      ModUnique(m + 1, c, q + 1, 0);
    } else {
      ModUnique(m + 1, c, q, r + 1);
    }
  }

  /** Quotient and remainder are unique. */
  lemma ModUnique(a: int, c: int, q: int, r: int)
    requires c > 0 && 0 <= r < c && a == q * c + r
    ensures a % c == r
  {
    var q', r' := a / c, a % c;
    assert a == q' * c + r';
    var d := q' - q;
    assert d * c == q' * c - q * c;
    assert d * c == r - r';
    if d >= 1 {
      MulAtLeast(d, c);
    } else if d <= -1 {
      MulAtLeast(-d, c);
    }
  }

  lemma MulAtLeast(d: int, c: int)
    requires d >= 1 && c > 0
    ensures d * c >= c
  {
    assert d * c == (d - 1) * c + c;
    assert (d - 1) * c >= 0;
  }
}
