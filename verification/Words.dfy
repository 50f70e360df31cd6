/** 32-bit words and their bits. */
module Words {

  // uint32_t
  type Word = n: nat | n < 0x1_0000_0000

  function Power(n: nat): nat {
    if n == 0 then 1 else 2 * Power(n - 1)
  }

  predicate Bit(a: nat, i: nat) {
    if i == 0 then a % 2 == 1 else Bit(a / 2, i - 1)
  }

  function OrBits(a: nat, b: nat, width: nat): (r: nat)
    ensures r < Power(width)
  {
    if width == 0 then 0 else 2 * OrBits(a / 2, b / 2, width - 1) + if a % 2 == 1 || b % 2 == 1 then 1 else 0
  }

  function AndNotBits(a: nat, mask: nat, width: nat): (r: nat)
    ensures r < Power(width)
  {
    if width == 0 then 0
    else 2 * AndNotBits(a / 2, mask / 2, width - 1) + if a % 2 == 1 && mask % 2 == 0 then 1 else 0
  }

  lemma WordWidth()
    ensures Power(32) == 0x1_0000_0000
  {
    assert Power(4) == 16;
    assert Power(8) == 0x100;
    assert Power(12) == 0x1000;
    assert Power(16) == 0x1_0000;
    assert Power(20) == 0x10_0000;
    assert Power(24) == 0x100_0000;
    assert Power(28) == 0x1000_0000;
  }

  /** a | b */
  function Join(a: Word, b: Word): Word {
    WordWidth();
    OrBits(a, b, 32)
  }

  /** a & ~mask */
  function Clear(a: Word, mask: Word): Word {
    WordWidth();
    AndNotBits(a, mask, 32)
  }

  lemma Halves(half: nat, last: nat)
    requires last < 2
    ensures (2 * half + last) / 2 == half && (2 * half + last) % 2 == last
  {
  }

  lemma BitUnfolds(a: nat, i: nat)
    ensures Bit(a, i) <==> if i == 0 then a % 2 == 1 else Bit(a / 2, i - 1)
  {
  }

  lemma {:induction false} OrBitsAt(a: nat, b: nat, width: nat, i: nat)
    requires i < width
    ensures Bit(OrBits(a, b, width), i) <==> Bit(a, i) || Bit(b, i)
  {
    hide Bit;
    Halves(OrBits(a / 2, b / 2, width - 1), if a % 2 == 1 || b % 2 == 1 then 1 else 0);
    BitUnfolds(OrBits(a, b, width), i);
    BitUnfolds(a, i);
    BitUnfolds(b, i);
    if i > 0 {
      OrBitsAt(a / 2, b / 2, width - 1, i - 1);
    }
  }

  lemma {:induction false} AndNotBitsAt(a: nat, mask: nat, width: nat, i: nat)
    requires i < width
    ensures Bit(AndNotBits(a, mask, width), i) <==> Bit(a, i) && !Bit(mask, i)
  {
    hide Bit;
    Halves(AndNotBits(a / 2, mask / 2, width - 1), if a % 2 == 1 && mask % 2 == 0 then 1 else 0);
    BitUnfolds(AndNotBits(a, mask, width), i);
    BitUnfolds(a, i);
    BitUnfolds(mask, i);
    if i > 0 {
      AndNotBitsAt(a / 2, mask / 2, width - 1, i - 1);
    }
  }

  /** v has the bits of a and those of b. */
  ghost predicate Joined(v: Word, a: Word, b: Word) {
    forall i :: 0 <= i < 32 ==> (Bit(v, i) <==> Bit(a, i) || Bit(b, i))
  }

  /** v has the bits of a that are not in mask. */
  ghost predicate Cleared(v: Word, a: Word, mask: Word) {
    forall i :: 0 <= i < 32 ==> (Bit(v, i) <==> Bit(a, i) && !Bit(mask, i))
  }

  lemma JoinOfBits(a: Word, b: Word)
    ensures Joined(Join(a, b), a, b)
  {
    hide Bit, OrBits;
    forall i | 0 <= i < 32 ensures Bit(Join(a, b), i) <==> Bit(a, i) || Bit(b, i) {
      OrBitsAt(a, b, 32, i);
    }
  }

  lemma ClearOfBits(a: Word, mask: Word)
    ensures Cleared(Clear(a, mask), a, mask)
  {
    hide Bit, AndNotBits;
    forall i | 0 <= i < 32 ensures Bit(Clear(a, mask), i) <==> Bit(a, i) && !Bit(mask, i) {
      AndNotBitsAt(a, mask, 32, i);
    }
  }

  /** A word is determined by its bits. */
  lemma {:induction false} SameBits(a: nat, b: nat, width: nat)
    requires a < Power(width) && b < Power(width)
    requires forall i :: 0 <= i < width ==> (Bit(a, i) <==> Bit(b, i))
    ensures a == b
    decreases width
  {
    if width > 0 {
      assert Bit(a, 0) <==> Bit(b, 0);
      forall i | 0 <= i < width - 1 ensures Bit(a / 2, i) <==> Bit(b / 2, i) {
        assert Bit(a, i + 1) <==> Bit(b, i + 1);
      }
      SameBits(a / 2, b / 2, width - 1);
    }
  }
}
