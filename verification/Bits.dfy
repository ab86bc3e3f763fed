/** The machine word that indexes the run levels, as a natural number read bit by bit. */
module Bits {

  predicate Bit(b: nat, i: nat) {
    if i == 0 then b % 2 == 1 else Bit(b / 2, i - 1)
  }

  /** b | (1 << i) */
  function SetBit(b: nat, i: nat): nat {
    if i == 0 then b / 2 * 2 + 1 else SetBit(b / 2, i - 1) * 2 + b % 2
  }

  /** b & ~(1 << i) */
  function ClearBit(b: nat, i: nat): nat {
    if i == 0 then b / 2 * 2 else ClearBit(b / 2, i - 1) * 2 + b % 2
  }

  /** __builtin_ffs on a word of 32 bits: one more than the index of the lowest set bit, 0 if there is none. */
  function Ffs(b: nat): (r: nat)
    ensures r <= 32
    ensures r == 0 ==> forall i: nat :: i < 32 ==> !Bit(b, i)
    ensures r > 0 ==> Bit(b, r - 1) && forall i: nat :: i < r - 1 ==> !Bit(b, i)
  {
    FirstSet(b, 0)
  }

  function FirstSet(b: nat, from: nat): (r: nat)
    requires from <= 32
    ensures r == 0 || from < r <= 32
    ensures r == 0 ==> forall i: nat :: from <= i < 32 ==> !Bit(b, i)
    ensures r > 0 ==> Bit(b, r - 1) && forall i: nat :: from <= i < r - 1 ==> !Bit(b, i)
    decreases 32 - from
  {
    if from == 32 then 0 else if Bit(b, from) then from + 1 else FirstSet(b, from + 1)
  }

  /** Setting or clearing bit i changes bit i and no other. */
  lemma {:induction false} SetAndClear(b: nat, i: nat, j: nat)
    ensures Bit(SetBit(b, i), j) <==> i == j || Bit(b, j)
    ensures Bit(ClearBit(b, i), j) <==> i != j && Bit(b, j)
  {
    if i > 0 && j > 0 {
      SetAndClear(b / 2, i - 1, j - 1);
    }
  }

  /** A word with no bit set is 0. */
  lemma {:induction false} NoBits(i: nat)
    ensures !Bit(0, i)
  {
    if i > 0 {
      NoBits(i - 1);
    }
  }
}
