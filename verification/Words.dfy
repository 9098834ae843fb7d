/** The machine's shift, or and mask on unsigned 64-bit words, bit by bit. */
module Words {
  const WORD := 0x1_0000_0000_0000_0000

  function Or(a: nat, b: nat): nat {
    if a == 0 && b == 0 then 0
    else 2 * Or(a / 2, b / 2) + if a % 2 == 1 || b % 2 == 1 then 1 else 0
  }

  function And(a: nat, b: nat): nat {
    if a == 0 || b == 0 then 0
    else 2 * And(a / 2, b / 2) + if a % 2 == 1 && b % 2 == 1 then 1 else 0
  }

  /** What is shifted out of the word is lost. */
  function ShiftLeft(a: nat, k: nat): nat {
    a * Pow2(k) % WORD
  }

  function ShiftRight(a: nat, k: nat): nat {
    if k == 0 then a else ShiftRight(a / 2, k - 1)
  }

  /** The reading of a word in two's complement, and back. */
  function Signed(w: int): int
    requires 0 <= w < WORD
  {
    if w < WORD / 2 then w else w - WORD
  }

  function Word(x: int): nat {
    x % WORD
  }

  function Pow2(k: nat): (p: nat)
    ensures p > 0
  {
    if k == 0 then 1 else 2 * Pow2(k - 1)
  }

  lemma {:induction false} Pow2Adds(j: nat, k: nat)
    ensures Pow2(j + k) == Pow2(j) * Pow2(k)
  {
    if j > 0 {
      Pow2Adds(j - 1, k);
    }
  }

  lemma PowersUsed()
    ensures Pow2(16) == 0x1_0000 && Pow2(48) == 0x1_0000_0000_0000 && Pow2(64) == WORD
  {
    assert Pow2(8) == 256;
    Pow2Adds(8, 8);
    Pow2Adds(16, 16);
    Pow2Adds(16, 32);
    Pow2Adds(16, 48);
  }

  predicate Bit(a: nat, k: nat) {
    ShiftRight(a, k) % 2 == 1
  }

  /** Bit by bit, the or and the and of the machine. */
  lemma {:induction false} BitOfOr(a: nat, b: nat, k: nat)
    ensures Bit(Or(a, b), k) <==> Bit(a, k) || Bit(b, k)
    decreases k
  {
    LowBitOfOr(a, b);
    if k > 0 {
      BitOfOr(a / 2, b / 2, k - 1);
    }
  }

  lemma LowBitOfOr(a: nat, b: nat)
    ensures Or(a, b) / 2 == Or(a / 2, b / 2)
    ensures Or(a, b) % 2 == 1 <==> a % 2 == 1 || b % 2 == 1
  {
  }

  lemma {:induction false} BitOfAnd(a: nat, b: nat, k: nat)
    ensures Bit(And(a, b), k) <==> Bit(a, k) && Bit(b, k)
    decreases k
  {
    if k > 0 {
      BitOfAnd(a / 2, b / 2, k - 1);
      assert And(a, b) / 2 == And(a / 2, b / 2);
    }
  }

  /** An or of bits that do not meet is a sum. */
  lemma {:induction false} OrOfDisjoint(high: nat, k: nat, low: nat)
    requires low < Pow2(k)
    ensures Or(high * Pow2(k), low) == high * Pow2(k) + low
  {
    if k == 0 {
      OrWithZero(high);
    } else {
      var half := high * Pow2(k - 1);
      assert high * Pow2(k) == 2 * half;
      OrOfDisjoint(high, k - 1, low / 2);
    }
  }

  lemma {:induction false} OrWithZero(a: nat)
    ensures Or(a, 0) == a
  {
    if a > 0 {
      OrWithZero(a / 2);
    }
  }

  /** The mask of the k low bits is a remainder. */
  lemma {:induction false} AndLow(a: nat, k: nat)
    ensures And(a, Pow2(k) - 1) == a % Pow2(k)
  {
    if k > 0 {
      AndLow(a / 2, k - 1);
      HalfOfRemainder(a, Pow2(k - 1));
    }
  }

  lemma HalfOfRemainder(a: nat, p: nat)
    requires p > 0
    ensures a % (2 * p) == 2 * (a / 2 % p) + a % 2
  {
    var q, r := a / 2 / p, a / 2 % p;
    assert a == (2 * p) * q + (2 * r + a % 2);
    RemainderIs(a, 2 * p, q, 2 * r + a % 2);
  }

  lemma RemainderIs(a: nat, n: nat, q: nat, r: nat)
    requires a == n * q + r && r < n
    ensures a % n == r && a / n == q
  {
    var gap := a / n - q;
    assert gap * n == r - a % n;
    assert gap >= 1 ==> gap * n >= n;
    assert gap <= -1 ==> gap * n <= -1 * n;
  }

  /** Masking and shifting right change places. */
  lemma {:induction false} AndThenShift(a: nat, b: nat, k: nat)
    ensures ShiftRight(And(a, b), k) == And(ShiftRight(a, k), ShiftRight(b, k))
  {
    if k > 0 {
      AndThenShift(a / 2, b / 2, k - 1);
      assert And(a, b) / 2 == And(a / 2, b / 2);
    }
  }

  lemma {:induction false} ShiftRightDivides(a: nat, k: nat)
    ensures ShiftRight(a, k) == a / Pow2(k)
  {
    if k > 0 {
      ShiftRightDivides(a / 2, k - 1);
      HalfThenRest(a, Pow2(k - 1));
    }
  }

  lemma HalfThenRest(a: nat, p: nat)
    requires p > 0
    ensures a / 2 / p == a / (2 * p)
  {
    var q, r := a / 2 / p, a / 2 % p;
    assert a == (2 * p) * q + (2 * r + a % 2);
    RemainderIs(a, 2 * p, q, 2 * r + a % 2);
  }

  /** A mask whose bits from the k-th on are j ones keeps what w has there. */
  lemma AndKeepsTop(w: nat, mask: nat, k: nat, j: nat)
    requires ShiftRight(mask, k) == Pow2(j) - 1 && ShiftRight(w, k) < Pow2(j)
    ensures ShiftRight(And(w, mask), k) == ShiftRight(w, k)
  {
    AndThenShift(w, mask, k);
    AndLow(ShiftRight(w, k), j);
    RemainderIs(ShiftRight(w, k), Pow2(j), 0, ShiftRight(w, k));
  }
}
