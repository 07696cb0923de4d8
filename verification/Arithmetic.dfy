/** Products and quotients of natural numbers. They are named so that a proof can hide them and work
    with the laws below. */
module Arithmetic {

  function Mul(a: nat, b: nat): nat { a * b }

  function Div(a: nat, b: nat): nat
    requires b > 0
  {
    a / b
  }

  function Mod(a: nat, b: nat): nat
    requires b > 0
  {
    a % b
  }

  lemma Distribute(k: nat, a: int, b: int)
    ensures k * (a + b) == k * a + k * b
  {}

  lemma MulStep(n: nat, k: nat)
    ensures Mul(1 + n, k) == k + Mul(n, k) && Mul(0, k) == 0
  {}

  lemma MulAdd(k: nat, a: nat, b: nat)
    ensures Mul(k, a + b) == Mul(k, a) + Mul(k, b)
  {}

  lemma AtLeast(b: int, k: int)
    requires k > 0 && b > 0
    ensures b * k >= b
  {}

  lemma ScaleBy(k: nat, a: nat, b: nat)
    requires a <= b
    ensures k * a <= k * b
  {
    Distribute(k, a, b - a);
  }

  lemma CancelMul(a: nat, b: nat, k: nat)
    requires k > 0 && Mul(a, k) <= Mul(b, k)
    ensures a <= b
  {
    if b < a {
      AtLeast(k, a - b);
      Distribute(k, b, a - b);
      assert false;
    }
  }

  lemma DivMod(a: nat, b: nat)
    requires b > 0
    ensures a == b * Div(a, b) + Mod(a, b) && Mod(a, b) < b
  {}

  lemma SmallMultiple(b: int, k: int)
    requires b > 0 && -b < b * k < b
    ensures k == 0
  {
    if k > 0 {
      AtLeast(b, k);
      assert false;
    }
    if k < 0 {
      AtLeast(b, -k);
      assert false;
    }
  }

  /** A quotient and a remainder are what they should be. */
  lemma ModIs(a: nat, b: nat, q: nat, r: nat)
    requires b > 0 && a == b * q + r && r < b
    ensures Mod(a, b) == r && Div(a, b) == q
  {
    DivMod(a, b);
    Distribute(b, q, Div(a, b) - q);
    SmallMultiple(b, Div(a, b) - q);
  }

  // ----- multiples

  lemma ZeroIsMultiple(b: nat)
    requires b > 0
    ensures Mod(0, b) == 0
  {
    ModIs(0, b, 0, 0);
  }

  lemma NextMultiple(a: nat, b: nat)
    requires b > 0 && Mod(a, b) == 0
    ensures Mod(a + b, b) == 0
  {
    DivMod(a, b);
    Distribute(b, Div(a, b), 1);
    ModIs(a + b, b, Div(a, b) + 1, 0);
  }

  /** The least multiple of b from a on, ALIGN(a, b). */
  function Aligned(a: nat, b: nat): (r: nat)
    requires b > 0
    ensures a <= r < a + b
  {
    DivMod(a, b);
    if Mod(a, b) == 0 then a else a + (b - Mod(a, b))
  }

  lemma AlignedIsMultiple(a: nat, b: nat)
    requires b > 0
    ensures Mod(Aligned(a, b), b) == 0
  {
    DivMod(a, b);
    Distribute(b, Div(a, b), 1);
    if Mod(a, b) != 0 { ModIs(Aligned(a, b), b, Div(a, b) + 1, 0); }
  }

  /** Multiples less than b apart are the same. */
  lemma NoMultipleBetween(x: nat, y: nat, b: nat)
    requires b > 0 && Mod(x, b) == 0 && Mod(y, b) == 0 && x <= y < x + b
    ensures x == y
  {
    DivMod(x, b);
    DivMod(y, b);
    Distribute(b, Div(x, b), Div(y, b) - Div(x, b));
    SmallMultiple(b, Div(y, b) - Div(x, b));
  }

  lemma AlignedGrows(a: nat, c: nat, b: nat)
    requires b > 0 && a <= c
    ensures Aligned(a, b) <= Aligned(c, b)
  {
    AlignedIsMultiple(a, b);
    AlignedIsMultiple(c, b);
    if Aligned(c, b) < Aligned(a, b) {
      NoMultipleBetween(Aligned(c, b), Aligned(a, b), b);
    }
  }
}
