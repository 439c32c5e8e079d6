/** Bit sets of machine words, and how their set bits are found from the lowest one up. */
module Bitsets {

  type Cell = bv64

  const CELL_BITS := 64

  // ----- Words --------------------------------------------------------------

  function Up(x: Cell): Cell { x << 1 }
  function Down(x: Cell): Cell { x >> 1 }
  function Either(x: Cell, y: Cell): Cell { x | y }
  function Both(x: Cell, y: Cell): Cell { x & y }
  function Differ(x: Cell, y: Cell): Cell { x ^ y }
  function Lowest(x: Cell): Cell { x & -x }
  predicate Odd(x: Cell) { x & 1 == 1 }

  /** Whether bit `n` of a word is set. */
  predicate Bit(c: Cell, n: nat)
    decreases n
  {
    if n == 0 then Odd(c) else Bit(Down(c), n - 1)
  }

  /** One, shifted left `n` times. */
  function Mask(n: nat): Cell
    decreases n
  {
    if n == 0 then 1 else Up(Mask(n - 1))
  }

  /** The number of zero bits below the lowest bit that is set. */
  function TrailingZeros(c: Cell, limit: nat): nat
    decreases limit
  {
    if limit == 0 || Odd(c) then 0 else 1 + TrailingZeros(Down(c), limit - 1)
  }

  // ----- Masks --------------------------------------------------------------

  lemma SevenUp(x: Cell)
    ensures Up(Up(Up(Up(Up(Up(Up(x))))))) == x << 7
  {
  }

  lemma MaskUp(n: nat)
    ensures Mask(n + 1) == Up(Mask(n))
  {
  }

  lemma SevenFurther(n: nat)
    ensures Mask(n + 7) == Up(Up(Up(Up(Up(Up(Up(Mask(n))))))))
  {
    hide Up, Mask;
    MaskUp(n); MaskUp(n + 1); MaskUp(n + 2); MaskUp(n + 3); MaskUp(n + 4); MaskUp(n + 5); MaskUp(n + 6);
  }

  lemma FromOne()
    ensures ((((((((1 as Cell << 7) << 7) << 7) << 7) << 7) << 7) << 7) << 7) << 7 == 0x8000_0000_0000_0000
  {
  }

  lemma HighestMask()
    ensures Mask(63) == 0x8000_0000_0000_0000
  {
    hide Up;
    SevenFurther(0); SevenFurther(7); SevenFurther(14); SevenFurther(21); SevenFurther(28);
    SevenFurther(35); SevenFurther(42); SevenFurther(49); SevenFurther(56);
    SevenUp(Mask(0)); SevenUp(Mask(7)); SevenUp(Mask(14)); SevenUp(Mask(21)); SevenUp(Mask(28));
    SevenUp(Mask(35)); SevenUp(Mask(42)); SevenUp(Mask(49)); SevenUp(Mask(56));
    FromOne();
  }

  lemma {:induction false} ZeroStays(n: nat, m: nat)
    requires n <= m && Mask(n) == 0
    ensures Mask(m) == 0
    decreases m
  {
    if n < m { ZeroStays(n, m - 1); }
  }

  predicate OneBit(x: Cell) { x & (x - 1) == 0 }
  predicate AtTop(x: Cell) { x & 0x8000_0000_0000_0000 != 0 }

  lemma UpOneBit(x: Cell)
    requires OneBit(x)
    ensures OneBit(Up(x)) && !Odd(Up(x)) && (AtTop(x) ==> Up(x) == 0) && (!AtTop(x) ==> Down(Up(x)) == x)
  {
  }

  lemma {:induction false} MaskOneBit(n: nat)
    ensures OneBit(Mask(n))
    decreases n
  {
    if n > 0 {
      MaskOneBit(n - 1);
      UpOneBit(Mask(n - 1));
    }
  }

  /** No bit is lost on the way up to the highest one. */
  lemma MaskBack(n: nat)
    requires 0 < n < CELL_BITS
    ensures Down(Mask(n)) == Mask(n - 1) && !Odd(Mask(n))
  {
    hide Up, Down, OneBit, AtTop, Odd;
    MaskOneBit(n - 1);
    UpOneBit(Mask(n - 1));
    if AtTop(Mask(n - 1)) {
      ZeroStays(n, 63);
      HighestMask();
    }
  }

  // ----- One bit ------------------------------------------------------------

  lemma DownEither(c: Cell, m: Cell)
    ensures Down(Either(c, m)) == Either(Down(c), Down(m))
  {
  }

  lemma DownDiffer(c: Cell, m: Cell)
    ensures Down(Differ(c, m)) == Differ(Down(c), Down(m))
  {
  }

  lemma DownBoth(c: Cell, m: Cell)
    ensures Down(Both(c, m)) == Both(Down(c), Down(m))
  {
  }

  lemma DownOne(c: Cell)
    ensures Down(1) == 0 && Either(c, 0) == c && Differ(c, 0) == c
  {
  }

  lemma OddOne(c: Cell)
    ensures Odd(Either(c, 1)) && Odd(Differ(c, 1)) != Odd(c) && (Both(c, 1) != 0 <==> Odd(c))
  {
  }

  lemma OddOther(c: Cell, m: Cell)
    requires !Odd(m)
    ensures Odd(Either(c, m)) == Odd(c) && Odd(Differ(c, m)) == Odd(c)
  {
  }

  lemma BothOther(c: Cell, m: Cell)
    requires !Odd(m)
    ensures Both(c, m) != 0 <==> Down(Both(c, m)) != 0
  {
  }

  /** Setting and flipping bit `n` changes that one only. */
  lemma {:induction false} SetAndFlip(c: Cell, n: nat, m: nat)
    requires n < CELL_BITS
    ensures Bit(Either(c, Mask(n)), m) == (Bit(c, m) || m == n)
    ensures Bit(Differ(c, Mask(n)), m) == (Bit(c, m) != (m == n))
    decreases n
  {
    hide Up, Down, Either, Differ, Odd;
    if n == 0 {
      OddOne(c);
      DownEither(c, 1);
      DownDiffer(c, 1);
      DownOne(Down(c));
    } else {
      MaskBack(n);
      OddOther(c, Mask(n));
      DownEither(c, Mask(n));
      DownDiffer(c, Mask(n));
      if m > 0 { SetAndFlip(Down(c), n - 1, m - 1); }
    }
  }

  /** Testing bit `n`. */
  lemma {:induction false} BitByMask(c: Cell, n: nat)
    requires n < CELL_BITS
    ensures Both(c, Mask(n)) != 0 <==> Bit(c, n)
    decreases n
  {
    hide Up, Down, Both, Odd;
    if n == 0 {
      OddOne(c);
    } else {
      MaskBack(n);
      BothOther(c, Mask(n));
      DownBoth(c, Mask(n));
      BitByMask(Down(c), n - 1);
    }
  }

  // ----- The lowest bit -----------------------------------------------------

  lemma LowestDown(c: Cell)
    ensures Odd(c) ==> Lowest(c) == 1
    ensures !Odd(c) ==> Lowest(c) == Up(Lowest(Down(c)))
    ensures !Odd(c) && c != 0 ==> Down(c) != 0
  {
  }

  /** A word that is not zero below bit `n`, counted from the top. */
  predicate Fits(c: Cell, n: nat)
    decreases n
  {
    if n == 0 then c == 0 else Fits(Down(c), n - 1)
  }

  /** The two's complement trick: a word and its negative have exactly the lowest bit in common,
      and that is the one the number of trailing zeros tells. */
  lemma {:induction false} LowestBit(c: Cell, limit: nat)
    requires c != 0 && Fits(c, limit) && limit <= CELL_BITS
    ensures
      var n := TrailingZeros(c, limit);
      n < limit && Lowest(c) == Mask(n) && Bit(c, n) && forall m :: 0 <= m < n ==> !Bit(c, m)
    decreases limit
  {
    hide Up, Down, Lowest, Odd;
    LowestDown(c);
    if limit > 0 && !Odd(c) {
      LowestBit(Down(c), limit - 1);
      var n := TrailingZeros(c, limit);
      assert Mask(n) == Up(Mask(n - 1));
      forall m | 0 <= m < n ensures !Bit(c, m) {
        if m > 0 { assert !Bit(Down(c), m - 1); }
      }
    }
  }

  lemma SevenDown(x: Cell)
    ensures Down(Down(Down(Down(Down(Down(Down(x))))))) == x >> 7
  {
  }

  lemma {:induction false} FitsSeven(c: Cell, n: nat)
    ensures Fits(c, n + 7) == Fits(Down(Down(Down(Down(Down(Down(Down(c))))))), n)
  {
    hide Down, Fits;
    FitsNext(c, n + 6);
    FitsNext(Down(c), n + 5);
    FitsNext(Down(Down(c)), n + 4);
    FitsNext(Down(Down(Down(c))), n + 3);
    FitsNext(Down(Down(Down(Down(c)))), n + 2);
    FitsNext(Down(Down(Down(Down(Down(c))))), n + 1);
    FitsNext(Down(Down(Down(Down(Down(Down(c)))))), n);
  }

  lemma {:induction false} FitsNext(c: Cell, n: nat)
    ensures Fits(c, n + 1) == Fits(Down(c), n)
  {
  }

  function Down7(c: Cell): Cell { c >> 7 }

  lemma NoneLeft(c: Cell)
    ensures Down(Down7(Down7(Down7(Down7(Down7(Down7(Down7(Down7(Down7(c)))))))))) == 0
  {
  }

  lemma {:induction false} Seven(c: Cell, n: nat)
    ensures Fits(c, n + 7) == Fits(Down7(c), n)
  {
    FitsSeven(c, n);
    SevenDown(c);
  }

  /** All words fit 64 bits. */
  lemma {:induction false} AllFit(c: Cell)
    ensures Fits(c, 64)
  {
    hide Down, Down7;
    var c1 := Down7(c); var c2 := Down7(c1); var c3 := Down7(c2); var c4 := Down7(c3);
    var c5 := Down7(c4); var c6 := Down7(c5); var c7 := Down7(c6); var c8 := Down7(c7); var c9 := Down7(c8);
    Seven(c, 57); Seven(c1, 50); Seven(c2, 43); Seven(c3, 36); Seven(c4, 29); Seven(c5, 22); Seven(c6, 15); Seven(c7,
      8); Seven(c8, 1);
    NoneLeft(c);
    assert Fits(c9, 1) by { assert Fits(Down(c9), 0); }
  }

  lemma {:induction false} NoBitAbove(c: Cell, n: nat, m: nat)
    requires Fits(c, n) && n <= m
    ensures !Bit(c, m)
    decreases m
  {
    hide Down;
    if n == 0 {
      ZeroHasNoBit(m);
    } else {
      NoBitAbove(Down(c), n - 1, m - 1);
    }
  }

  lemma {:induction false} ZeroHasNoBit(m: nat)
    ensures !Bit(0, m)
    decreases m
  {
    if m > 0 { ZeroHasNoBit(m - 1); }
  }
}
