/** The packing of session IDs: a generation in the top 16 bits of a signed 64-bit number,
    the slot index in the low 16. */
module SessionIds {
  import opened Words

  const GENERATIONS := 65536
  const GENERATION_UNIT := 0x1_0000_0000_0000

  /** A signed 16-bit reading of a number below 2^16. */
  function Signed16(x: int): int
    requires 0 <= x < GENERATIONS
  {
    if x < 32768 then x else x - GENERATIONS
  }

  /** (number << 48) | index on Int64, for an index that fits in 16 bits. The shift keeps
      the low 16 bits of the number only. */
  function Pack(number: nat, index: nat): int
    requires index < GENERATIONS
  {
    Signed16(number % GENERATIONS) * GENERATION_UNIT + index
  }

  /** sessionID & 0xFFFF, in two's complement. */
  function GetIndex(id: int): (i: nat)
    ensures i < GENERATIONS
  {
    id % 65536
  }

  /** The upper mask and the arithmetic shift by 48. */
  function GetUniqueNumber(id: int): int {
    id / GENERATION_UNIT
  }

  /** Unpacking inverts packing, up to the 16 bits of generation that survive. */
  lemma UnpackInvertsPack(number: nat, index: nat)
    requires index < GENERATIONS
    ensures GetIndex(Pack(number, index)) == index
    ensures GetUniqueNumber(Pack(number, index)) == Signed16(number % GENERATIONS)
  {
  }

  lemma PackIsInjectiveModuloGenerations(m: nat, i: nat, n: nat, j: nat)
    requires i < GENERATIONS && j < GENERATIONS
    ensures Pack(m, i) == Pack(n, j) <==> i == j && m % GENERATIONS == n % GENERATIONS
  {
    UnpackInvertsPack(m, i);
    UnpackInvertsPack(n, j);
  }

  /** On the machine's words Pack is the shift and the or of the source, read as signed. */
  lemma PackOnWords(number: nat, index: nat)
    requires index < GENERATIONS
    ensures Or(ShiftLeft(number, 48), index) < WORD
    ensures Signed(Or(ShiftLeft(number, 48), index)) == Pack(number, index)
  {
    PowersUsed();
    var high := number % GENERATIONS;
    ShiftKeepsLow16(number);
    assert high * GENERATION_UNIT == high * 0x1_0000_0000 * Pow2(16);
    OrOfDisjoint(high * 0x1_0000_0000, 16, index);
  }

  lemma ShiftKeepsLow16(number: nat)
    ensures ShiftLeft(number, 48) == number % GENERATIONS * GENERATION_UNIT
  {
    PowersUsed();
    var high, above := number % GENERATIONS, number / GENERATIONS;
    assert number * GENERATION_UNIT == WORD * above + high * GENERATION_UNIT;
    RemainderIs(number * GENERATION_UNIT, WORD, above, high * GENERATION_UNIT);
  }

  /** GetIndex is the mask of the source on the word of the ID. */
  lemma IndexOnWords(id: int, mask: nat)
    requires mask == 0xFFFF
    ensures GetIndex(id) == And(Word(id), mask)
  {
    PowersUsed();
    AndLow(Word(id), 16);
    LowOfWord(id);
  }

  lemma LowOfWord(id: int)
    ensures Word(id) % GENERATIONS == id % GENERATIONS
  {
  }

  /** GetUniqueNumber is the mask of the source and the arithmetic shift. */
  lemma NumberOnWords(id: int, mask: nat)
    requires -(WORD / 2) <= id < WORD / 2 && mask == 0xFFFF_FFFF_FFFF_0000
    ensures And(Word(id), mask) < WORD
    ensures GetUniqueNumber(id) == Signed(And(Word(id), mask)) / GENERATION_UNIT
  {
    PowersUsed();
    var w := Word(id);
    var masked := And(w, mask);
    ShiftRightDivides(w, 48);
    ShiftRightDivides(mask, 48);
    ShiftRightDivides(masked, 48);
    AndKeepsTop(w, mask, 48, 16);
    SameTopSameSign(id, w, masked);
  }

  lemma SameTopSameSign(id: int, w: nat, masked: nat)
    requires -(WORD / 2) <= id < WORD / 2 && w == Word(id)
    requires masked / GENERATION_UNIT == w / GENERATION_UNIT
    ensures masked < WORD && Signed(masked) / GENERATION_UNIT == id / GENERATION_UNIT
  {
    assert id == if w < WORD / 2 then w else w - WORD;
  }

  lemma SameGenerationIff(m: nat, n: nat)
    requires m <= n
    ensures m % GENERATIONS == n % GENERATIONS <==> (n - m) % GENERATIONS == 0
  {
  }
}
