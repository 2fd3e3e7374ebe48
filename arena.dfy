/**
 * The bump allocator of src/celeste_lib.h: one pre-allocated area, a cursor
 * `ptr` that only moves forward, and a reset that rewinds it. Addresses are
 * natural numbers with 0 standing for NULL; sizes are size_t values.
 */
module Arena {

  /** sizeof(void*) on the 64-bit targets the library is built for. */
  const WORD: nat := 8
  const SIZE_MAX: nat := 0xFFFF_FFFF_FFFF_FFFF
  const NULL: nat := 0

  type SizeT = n: nat | n <= SIZE_MAX

  /**
   * The rounding as written: (size + sizeof(void*) - 1) & ~(sizeof(void*) - 1)
   * in 64-bit unsigned arithmetic, where the addition wraps.
   */
  function AlignAsWritten(size: bv64): (r: bv64)
    ensures r & 7 == 0
  {
    (size + 7) & !7
  }

  /** Without wrap-around the mask yields a multiple of 8 no smaller than the request and less than 8 above it. */
  lemma AlignAsWrittenRoundsUp(size: bv64)
    requires size <= 0xFFFF_FFFF_FFFF_FFF8
    ensures AlignAsWritten(size) & 7 == 0
    ensures size <= AlignAsWritten(size) && AlignAsWritten(size) - size < 8
  {
  }

  /** For the last seven sizes the addition wraps and the rounded size is 0. */
  lemma AlignAsWrittenWraps(size: bv64)
    requires size > 0xFFFF_FFFF_FFFF_FFF8
    ensures AlignAsWritten(size) == 0
  {
  }

  /** The intended rounding: the least multiple of WORD that is at least `size`. */
  function AlignUp(size: nat): (r: nat)
    ensures r % WORD == 0 && size <= r < size + WORD
  {
    (size + WORD - 1) / WORD * WORD
  }

  /** The least such multiple: any multiple of WORD that covers the request covers the rounded size too. */
  lemma AlignUpIsLeast(size: nat, m: nat)
    requires m % WORD == 0 && size <= m
    ensures AlignUp(size) <= m
  {
  }

  /**
   * bump_allocator_alloc as written, on an allocator whose area starts at
   * `start` (not NULL) with cursor `ptr` and `areaSize` bytes: the address it
   * returns (NULL on refusal) and the new cursor.
   */
  function AllocAsWritten(start: nat, ptr: nat, areaSize: SizeT, size: bv64): (r: (nat, nat))
    ensures r.0 == NULL || r.0 == ptr
    ensures r.1 == ptr || (r.0 == ptr && r.1 == ptr + AlignAsWritten(size) as nat <= start + areaSize)
    ensures size == 0 ==> r == (NULL, ptr)
  {
    if size == 0 then (NULL, ptr)
    else
      var aligned := AlignAsWritten(size) as nat;
      if ptr + aligned > start + areaSize then (NULL, ptr) else (ptr, ptr + aligned)
  }

  /**
   * A request for SIZE_MAX bytes from any non-NULL area succeeds as written:
   * it returns the current cursor, a non-NULL address, without advancing it.
   * The next 8-byte allocation then returns the same address again.
   */
  lemma AllocAsWrittenGrantsOversizedRequest(start: nat, ptr: nat, areaSize: SizeT)
    requires start != NULL && start <= ptr && ptr + WORD <= start + areaSize
    ensures var (first, after) := AllocAsWritten(start, ptr, areaSize, 0xFFFF_FFFF_FFFF_FFFF);
      && first == ptr && first != NULL && after == ptr
      && AllocAsWritten(start, after, areaSize, 8).0 == first
  {
    AlignAsWrittenWraps(0xFFFF_FFFF_FFFF_FFFF);
    AlignAsWrittenRoundsUp(8);
  }

  /**
   * The corrected allocation (method Alloc) refuses every request whose
   * rounded size does not fit, so no two successful allocations share an
   * address: a request of SIZE_MAX bytes is refused.
   */
  lemma AlignUpRefusesOversizedRequest(start: nat, ptr: nat, areaSize: SizeT)
    requires start <= ptr <= start + areaSize
    ensures ptr + AlignUp(SIZE_MAX) > start + areaSize
  {
  }

  /** One allocation handed out since the last reset. */
  datatype Region = Region(addr: nat, len: nat)

  /**
   * `rs` tiles [from, to) in order: each region starts where the previous one
   * ended, and every length is a positive multiple of WORD.
   */
  predicate Tiles(rs: seq<Region>, from: nat, to: nat)
    decreases |rs|
  {
    if rs == [] then from == to
    else rs[0].addr == from && rs[0].len > 0 && rs[0].len % WORD == 0
         && Tiles(rs[1..], from + rs[0].len, to)
  }

  /** A fresh region at the end extends a tiling. */
  lemma {:induction false} TilesExtend(rs: seq<Region>, from: nat, to: nat, len: nat)
    requires Tiles(rs, from, to) && len > 0 && len % WORD == 0
    ensures Tiles(rs + [Region(to, len)], from, to + len)
    decreases |rs|
  {
    if rs == [] {
      assert [Region(to, len)][1..] == [];
    } else {
      assert (rs + [Region(to, len)])[1..] == rs[1..] + [Region(to, len)];
      TilesExtend(rs[1..], from + rs[0].len, to, len);
    }
  }

  /**
   * The regions of a tiling lie inside it, each at a WORD-multiple distance
   * from its start, in increasing order, and do not overlap.
   */
  lemma {:induction false} TilesDisjoint(rs: seq<Region>, from: nat, to: nat)
    requires Tiles(rs, from, to)
    ensures from <= to
    ensures forall i :: 0 <= i < |rs| ==>
      from <= rs[i].addr && rs[i].addr + rs[i].len <= to && (rs[i].addr - from) % WORD == 0
    ensures forall i, j :: 0 <= i < j < |rs| ==> rs[i].addr + rs[i].len <= rs[j].addr
    decreases |rs|
  {
    if rs != [] {
      var next := from + rs[0].len;
      TilesDisjoint(rs[1..], next, to);
      forall i | 0 <= i < |rs|
        ensures from <= rs[i].addr && rs[i].addr + rs[i].len <= to && (rs[i].addr - from) % WORD == 0
      {
        if i > 0 {
          assert rs[i] == rs[1..][i - 1];
          assert (rs[i].addr - from) == (rs[i].addr - next) + rs[0].len;
        }
      }
      forall i, j | 0 <= i < j < |rs|
        ensures rs[i].addr + rs[i].len <= rs[j].addr
      {
        assert rs[j] == rs[1..][j - 1];
        if i > 0 {
          assert rs[i] == rs[1..][i - 1];
        }
      }
    }
  }

  class BumpAllocator {
    /** Start of the area; NULL when there is none. */
    var start: nat
    /** Next free address. */
    var ptr: nat
    /** Bytes in the area. */
    var size: SizeT
    /** The allocations handed out since creation or the last reset, in order. */
    ghost var regions: seq<Region>

    /** start <= ptr <= start + size, with [start, ptr) exactly the regions handed out. */
    ghost predicate Valid()
      reads this
    {
      start <= ptr <= start + size && Tiles(regions, start, ptr)
    }

    constructor (area: nat, size: SizeT)
      ensures Valid() && start == area && ptr == area && this.size == size && regions == []
    {
      start, ptr, this.size := area, area, size;
      regions := [];
    }
  }

  /**
   * bump_allocator_create: both mallocs are inputs, `structOk` for the
   * allocator record and `area` (NULL on failure) for the area. Either failure
   * yields NULL; success yields an empty allocator over the area.
   */
  method Create(size: SizeT, structOk: bool, area: nat) returns (a: BumpAllocator?)
    ensures a != null <==> structOk && area != NULL
    ensures a != null ==> fresh(a) && a.Valid() && a.start == area && a.ptr == area && a.size == size
                          && a.regions == []
  {
    if !structOk {
      return null;
    }
    if area == NULL {
      return null;
    }
    a := new BumpAllocator(area, size);
  }

  /**
   * bump_allocator_alloc with the rounding done without wrap-around: NULL
   * and no change for a NULL allocator, a NULL area, a zero-byte request, or
   * a rounded request that does not fit in what is left; otherwise the old
   * cursor, which then advances by the rounded size.
   */
  method Alloc(a: BumpAllocator?, size: SizeT) returns (p: nat)
    requires a != null ==> a.Valid()
    modifies a
    ensures a != null ==> a.Valid() && a.start == old(a.start) && a.size == old(a.size)
    ensures a == null || a.start == NULL || size == 0 ==> p == NULL
    ensures a != null && a.start != NULL && size != 0 ==>
      if old(a.ptr) + AlignUp(size) > a.start + a.size then
        p == NULL && a.ptr == old(a.ptr) && a.regions == old(a.regions)
      else
        p == old(a.ptr) && p != NULL && a.ptr == p + AlignUp(size)
        && a.regions == old(a.regions) + [Region(p, AlignUp(size))]
    ensures a != null && p == NULL ==> a.ptr == old(a.ptr) && a.regions == old(a.regions)
  {
    if a == null || a.start == NULL || size == 0 {
      return NULL;
    }
    var aligned := AlignUp(size);
    if a.ptr + aligned > a.start + a.size {
      return NULL;
    }
    p := a.ptr;
    TilesExtend(a.regions, a.start, a.ptr, aligned);
    a.ptr := a.ptr + aligned;
    a.regions := a.regions + [Region(p, aligned)];
  }

  /** bump_allocator_reset: the cursor goes back to the start; NULL is left alone. */
  method Reset(a: BumpAllocator?)
    requires a != null ==> a.Valid()
    modifies a
    ensures a != null ==> a.Valid() && a.ptr == a.start && a.regions == []
                          && a.start == old(a.start) && a.size == old(a.size)
  {
    if a != null {
      a.ptr := a.start;
      a.regions := [];
    }
  }
}
