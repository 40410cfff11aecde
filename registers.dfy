/**
 * A memory-mapped register region as seen through volatile 32-bit loads
 * and stores. Each register has a set of writable bits; the remaining bits
 * are wired to a fixed value, so a register reads back what was last
 * stored in its writable bits and its wired value elsewhere. The drivers'
 * capability probes (store a sentinel, load it back) observe exactly this.
 */
module Registers {

  /** The value a register reads back after `v` is stored in it. */
  function Readback(writable: bv32, tied: bv32, v: bv32): bv32
  {
    (v & writable) | (tied & !writable)
  }

  /** How a probe inspects a readback: the field at `shift` under `mask` equals `want`. */
  predicate FieldIs(v: bv32, shift: bv32, mask: bv32, want: bv32)
    requires shift < 32
  {
    (v >> shift) & mask == want
  }

  /** How a probe inspects a readback: some bit of `bits` is set. */
  predicate BitSet(v: bv32, bits: bv32)
  {
    v & bits != 0
  }

  /** A second store to a register hides the first. */
  lemma StoreTwice<R>(m: map<R, bv32>, r: R, a: bv32, b: bv32)
    ensures m[r := a][r := b] == m[r := b]
  {
  }

  class RegFile<R(==,!new)> {
    var regs: map<R, bv32>
    const writable: R -> bv32
    const tied: R -> bv32

    /** Every register of the region is mapped. */
    ghost predicate Valid()
      reads this
    {
      forall r :: r in regs
    }

    /** What register `r` reads back after `v` is stored in it. */
    function After(r: R, v: bv32): bv32
    {
      Readback(writable(r), tied(r), v)
    }

    constructor(init: map<R, bv32>, writable: R -> bv32, tied: R -> bv32)
      requires forall r :: r in init
      ensures Valid()
      ensures regs == init && this.writable == writable && this.tied == tied
    {
      regs := init;
      this.writable := writable;
      this.tied := tied;
    }

    method Load(r: R) returns (v: bv32)
      requires Valid()
      ensures v == regs[r]
    {
      v := regs[r];
    }

    method Store(r: R, v: bv32)
      requires Valid()
      modifies this
      ensures Valid()
      ensures regs == old(regs)[r := After(r, v)]
    {
      regs := regs[r := After(r, v)];
    }
  }
}
