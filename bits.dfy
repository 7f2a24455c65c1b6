/**
 * Bit-field access on 32-bit hardware registers.
 *
 * A field is described by the position of its least significant bit (`lo`)
 * and by its right-aligned mask (`mask`, which is 2^width - 1).  Fields are
 * allocated LSB-first, as C bit-fields are on little-endian ARM, so a C
 * declaration `unsigned int x : n;` following fields of total width `lo`
 * becomes `Field(lo, 2^n - 1)`.
 */
module Bits {

  type Word = bv32

  datatype Field = Field(lo: bv32, mask: Word)

  /** The field's bits in their place inside the register word. */
  function Placed(f: Field): Word
    requires f.lo < 32
  {
    f.mask << f.lo
  }

  /** A usable field: a non-empty run of low ones that fits in 32 bits. */
  predicate WellFormed(f: Field)
  {
    && f.lo < 32
    && f.mask != 0
    && f.mask & (f.mask + 1) == 0
    && (f.mask << f.lo) >> f.lo == f.mask
  }

  /** Reads a field: the bits under the field, shifted down to bit 0. */
  function Get(w: Word, f: Field): Word
    requires f.lo < 32
  {
    (w >> f.lo) & f.mask
  }

  /**
   * Writes a field as a C bit-field assignment does: the value is truncated
   * to the field's width and every bit outside the field is kept.
   */
  function Set(w: Word, f: Field, v: Word): Word
    requires f.lo < 32
  {
    (w & !Placed(f)) | ((v & f.mask) << f.lo)
  }

  /** One field assignment of a read-modify-write register access. */
  datatype Update = Update(field: Field, value: Word)

  /**
   * Applies field assignments in order to one register word; an assignment
   * to a field that lies outside the word changes nothing.
   */
  function SetAll(w: Word, ups: seq<Update>): Word
    decreases |ups|
  {
    if ups == [] then w
    else
      var u := ups[0];
      SetAll(if u.field.lo < 32 then Set(w, u.field, u.value) else w, ups[1..])
  }

  predicate AllWellFormed(fs: seq<Field>)
  {
    forall i :: 0 <= i < |fs| ==> WellFormed(fs[i])
  }

  /** The bits of each field of the layout, in their place. */
  function Placements(fs: seq<Field>): (ws: seq<Word>)
    requires AllWellFormed(fs)
    ensures |ws| == |fs|
    ensures forall i :: 0 <= i < |fs| ==> ws[i] == Placed(fs[i])
  {
    seq(|fs|, i requires 0 <= i < |fs| => Placed(fs[i]))
  }

  /** The bits set in word `i` of `ws` or a later one. */
  function OrFrom(ws: seq<Word>, i: nat): Word
    decreases |ws| - i
  {
    if i >= |ws| then 0 else ws[i] | OrFrom(ws, i + 1)
  }

  /** Every word from `i` on shares no bit with the words after it. */
  predicate DisjointFrom(ws: seq<Word>, i: nat)
    decreases |ws| - i
  {
    i >= |ws| || (ws[i] & OrFrom(ws, i + 1) == 0 && DisjointFrom(ws, i + 1))
  }

  /** Every bit covered by some field of the layout. */
  function Union(fs: seq<Field>): Word
    requires AllWellFormed(fs)
  {
    OrFrom(Placements(fs), 0)
  }

  predicate PairwiseDisjoint(fs: seq<Field>)
    requires AllWellFormed(fs)
  {
    forall i, j :: 0 <= i < j < |fs| ==> Placed(fs[i]) & Placed(fs[j]) == 0
  }

  /**
   * A register layout whose fields tile the 32-bit word: every field is
   * well formed, no two fields share a bit (no overlap) and together they
   * cover every bit (no gap).
   */
  predicate Tiling(fs: seq<Field>)
  {
    AllWellFormed(fs) && PairwiseDisjoint(fs) && Union(fs) == 0xFFFF_FFFF
  }

  /** The bits of the words from `i` on include those of word `j`. */
  lemma {:induction false} OrFromCovers(ws: seq<Word>, i: nat, j: nat)
    requires i <= j < |ws|
    ensures ws[j] & OrFrom(ws, i) == ws[j]
    decreases j - i
  {
    if i < j {
      OrFromCovers(ws, i + 1, j);
    }
  }

  lemma {:induction false} DisjointFromAt(ws: seq<Word>, k: nat, i: nat)
    requires k <= i < |ws|
    requires DisjointFrom(ws, k)
    ensures ws[i] & OrFrom(ws, i + 1) == 0
    decreases i - k
  {
    if k < i {
      DisjointFromAt(ws, k + 1, i);
    }
  }

  /** Words each disjoint from all later ones are disjoint two by two. */
  lemma DisjointFromWords(ws: seq<Word>)
    requires DisjointFrom(ws, 0)
    ensures forall i, j :: 0 <= i < j < |ws| ==> ws[i] & ws[j] == 0
  {
    forall i, j | 0 <= i < j < |ws|
      ensures ws[i] & ws[j] == 0
    {
      DisjointFromAt(ws, 0, i);
      OrFromCovers(ws, i + 1, j);
    }
  }

  /**
   * A layout whose every field shares no bit with the fields after it has
   * no two fields sharing a bit.
   */
  lemma DisjointFromPairwise(fs: seq<Field>)
    requires AllWellFormed(fs)
    requires DisjointFrom(Placements(fs), 0)
    ensures PairwiseDisjoint(fs)
  {
    DisjointFromWords(Placements(fs));
  }

  /**
   * A layout tiles the word when its placed fields are words that are each
   * disjoint from the later ones and together set every bit.
   */
  lemma TilingOf(fs: seq<Field>, ws: seq<Word>)
    requires AllWellFormed(fs) && Placements(fs) == ws
    requires OrFrom(ws, 0) == 0xFFFF_FFFF && DisjointFrom(ws, 0)
    ensures Tiling(fs)
  {
    DisjointFromPairwise(fs);
  }
}
