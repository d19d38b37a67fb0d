/**
  The fingerprint of a module file as FNV-1a defines it: two of its published values, and that files of
  one length that differ in a single byte never share a fingerprint.
 */
module FingerprintLaws {
  import opened CaptureReview
  import opened ModuleImages
  import opened Numerals
  import opened PatternText

  /** The prime's inverse modulo two to the 64. */
  const FNV_INVERSE: nat := 14886173955864302971

  const WORD: nat := MAX64 + 1

  // ---- exclusive or ----

  function Power2(n: nat): nat {
    if n == 0 then 1 else 2 * Power2(n - 1)
  }

  lemma {:induction false} XorTwice(a: nat, b: nat, n: nat)
    requires a < Power2(n)
    ensures XorBits(a, b, n) < Power2(n) && XorBits(XorBits(a, b, n), b, n) == a
  {
    if n > 0 {
      XorTwice(a / 2, b / 2, n - 1);
      var x := XorBits(a / 2, b / 2, n - 1);
      var low := if a % 2 == b % 2 then 0 else 1;
      assert (low + 2 * x) / 2 == x && (low + 2 * x) % 2 == low;
    }
  }

  lemma {:induction false} XorOther(a: nat, b: nat, n: nat)
    requires a < Power2(n) && b < Power2(n)
    ensures XorBits(a, b, n) == XorBits(b, a, n)
  {
    if n > 0 {
      XorOther(a / 2, b / 2, n - 1);
    }
  }

  lemma EightBits()
    ensures Power2(8) == 256
  {
    assert Power2(4) == 16;
    assert Power2(6) == 64;
  }

  /** The exclusive or of a word with a byte gives either back from the other. */
  lemma XorInjective(g: nat, h: nat, b: Byte, c: Byte)
    requires Xor(g, b) == Xor(h, c)
    ensures b == c ==> g == h
    ensures g == h ==> b == c
  {
    EightBits();
    var x, y := g % 256, h % 256;
    XorTwice(x, b as nat, 8);
    XorTwice(y, c as nat, 8);
    XorOther(x, b as nat, 8);
    XorOther(y, c as nat, 8);
    XorTwice(b as nat, x, 8);
    XorTwice(c as nat, y, 8);
    assert g / 256 == h / 256 && XorBits(x, b as nat, 8) == XorBits(y, c as nat, 8);
  }

  lemma XorInWord(h: nat, b: Byte)
    requires h < WORD
    ensures Xor(h, b) < WORD
  {
    EightBits();
    XorTwice(h % 256, b as nat, 8);
    LowByte(h, XorBits(h % 256, b as nat, 8));
  }

  lemma LowByte(h: nat, low: nat)
    requires h < WORD && low < 256
    ensures h - h % 256 + low < WORD
  {
    assert h - h % 256 == h / 256 * 256 && h / 256 < 0x100_0000_0000_0000;
  }

  // ---- multiplying by the prime ----

  lemma InverseMultiplies()
    ensures FNV_PRIME * FNV_INVERSE % WORD == 1
  {
  }

  lemma Quotient(r: nat, q: int, x: nat)
    requires r == x + q * WORD && x < WORD
    ensures r % WORD == x
  {
  }

  /** Multiplying by the prime can be undone modulo two to the 64. */
  lemma PrimeUndone(x: nat)
    requires x < WORD
    ensures (x * FNV_PRIME % WORD) * FNV_INVERSE % WORD == x
  {
    InverseMultiplies();
    var product := x * FNV_PRIME;
    var c, q := FNV_PRIME * FNV_INVERSE / WORD, product / WORD;
    var r := product % WORD;
    assert FNV_PRIME * FNV_INVERSE == 1 + c * WORD;
    assert product == q * WORD + r;
    Expand(x, q, r, c);
    Quotient(r * FNV_INVERSE, x * c - q * FNV_INVERSE, x);
  }

  lemma Expand(x: int, q: int, r: int, c: int)
    requires x * FNV_PRIME == q * WORD + r && FNV_PRIME * FNV_INVERSE == 1 + c * WORD
    ensures r * FNV_INVERSE == x + (x * c - q * FNV_INVERSE) * WORD
  {
    assert r * FNV_INVERSE == (x * FNV_PRIME - q * WORD) * FNV_INVERSE;
    assert x * FNV_PRIME * FNV_INVERSE == x * (FNV_PRIME * FNV_INVERSE) == x + x * c * WORD;
  }

  // ---- the hash ----

  lemma HashInWord(bytes: Bytes, k: nat)
    requires k <= |bytes|
    ensures Hash(bytes, k) < WORD
  {
  }

  lemma StepInjective(g: nat, h: nat, b: Byte, c: Byte)
    requires g < WORD && h < WORD && HashStep(g, b) == HashStep(h, c)
    ensures b == c ==> g == h
    ensures g == h ==> b == c
  {
    XorInWord(g, b);
    XorInWord(h, c);
    PrimeUndone(Xor(g, b));
    PrimeUndone(Xor(h, c));
    XorInjective(g, h, b, c);
  }

  lemma {:induction false} SamePrefix(a: Bytes, b: Bytes, k: nat)
    requires k <= |a| && k <= |b| && a[..k] == b[..k]
    ensures Hash(a, k) == Hash(b, k)
  {
    if k > 0 {
      assert a[..k][..k - 1] == a[..k - 1] && b[..k][..k - 1] == b[..k - 1];
      assert a[..k][k - 1] == b[..k][k - 1];
      SamePrefix(a, b, k - 1);
    }
  }

  lemma {:induction false} DifferStays(a: Bytes, b: Bytes, i: nat, k: nat)
    requires i < k <= |a| && |a| == |b| && a[i] != b[i] && forall j :: 0 <= j < |a| && j != i ==> a[j] == b[j]
    ensures Hash(a, k) != Hash(b, k)
  {
    HashInWord(a, k - 1);
    HashInWord(b, k - 1);
    if k == i + 1 {
      SamePrefix(a, b, i);
    } else {
      DifferStays(a, b, i, k - 1);
    }
    if Hash(a, k) == Hash(b, k) {
      StepInjective(Hash(a, k - 1), Hash(b, k - 1), a[k - 1], b[k - 1]);
    }
  }

  /** Changing one byte of a file always changes its fingerprint. */
  lemma OneByteShows(a: Bytes, i: nat, b: Byte)
    requires i < |a| && a[i] != b
    ensures Hash(a[i := b], |a|) != Hash(a, |a|)
  {
    DifferStays(a, a[i := b], i, |a|);
  }

  lemma XorStep(a: nat, b: nat, n: nat, rest: nat)
    requires n > 0 && XorBits(a / 2, b / 2, n - 1) == rest
    ensures XorBits(a, b, n) == (if a % 2 == b % 2 then 0 else 1) + 2 * rest
  {
  }

  lemma LettersXor(a: nat, b: nat)
    requires a == 0x25 && b == 0x61
    ensures XorBits(a, b, 8) == 0x44
  {
    assert XorBits(a / 256, b / 256, 0) == 0;
    XorStep(a / 128, b / 128, 1, 0);
    XorStep(a / 64, b / 64, 2, 0);
    XorStep(a / 32, b / 32, 3, 1);
    XorStep(a / 16, b / 16, 4, 2);
    XorStep(a / 8, b / 8, 5, 4);
    XorStep(a / 4, b / 4, 6, 8);
    XorStep(a / 2, b / 2, 7, 17);
    XorStep(a, b, 8, 34);
  }

  lemma LetterHash(h: nat, b: Byte)
    requires h == FNV_OFFSET && b == 0x61
    ensures HashStep(h, b) == 0xaf63dc4c8601ec8c
  {
    LettersXor(h % 256, b as nat);
    assert h % 256 == 0x25;
    LetterProduct(Xor(h, b));
  }

  lemma LetterProduct(x: nat)
    requires x == FNV_OFFSET - 0x25 + 0x44
    ensures x * FNV_PRIME % WORD == 0xaf63dc4c8601ec8c
  {
    assert x * FNV_PRIME == 0xaf63dc4c8601ec8c + 875948729822 * WORD;
    Quotient(x * FNV_PRIME, 875948729822, 0xaf63dc4c8601ec8c);
  }

  /** The published values for no bytes and for the letter a. */
  lemma PublishedValues(bytes: Bytes)
    requires |bytes| == 1 && bytes[0] == 0x61
    ensures Hash(bytes, 0) == 0xcbf29ce484222325 && Hash(bytes, 1) == 0xaf63dc4c8601ec8c
  {
    LetterHash(Hash(bytes, 0), bytes[0]);
  }
}
