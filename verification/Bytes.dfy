/** Bytes, big-endian integers and byte-string concatenation. */
module Bytes {

  type byte = x: int | 0 <= x < 256

  type bytes = seq<byte>

  const U16_LIMIT: nat := 0x1_0000
  const U32_LIMIT: nat := 0x1_0000_0000

  /** `binary.BigEndian`: the number that a byte string spells. */
  function BigEndian(b: bytes): nat {
    if b == [] then 0 else 0x100 * BigEndian(b[..|b| - 1]) + b[|b| - 1]
  }

  /** The last `width` bytes of a number, big end first; higher ones are dropped. */
  function Spelled(n: nat, width: nat): (b: bytes)
    ensures |b| == width
    decreases width, n
  {
    if width == 0 then [] else Spelled(n / 0x100, width - 1) + [n % 0x100]
  }

  lemma TwoBytes(b: bytes)
    requires |b| == 2
    ensures BigEndian(b) == 0x100 * b[0] as int + b[1] as int
  {
    assert b[..1][..0] == [] && BigEndian([]) == 0;
    assert BigEndian(b[..1]) == b[0] as int;
  }

  lemma FourBytes(b: bytes)
    requires |b| == 4
    ensures BigEndian(b) == U16_LIMIT * BigEndian(b[..2]) + BigEndian(b[2..])
  {
    TwoBytes(b[2..]);
    assert b[..3][..2] == b[..2];
    assert BigEndian(b[..3]) == 0x100 * BigEndian(b[..2]) + b[2] as int;
  }

  lemma SpelledTwo(n: nat)
    ensures BigEndian(Spelled(n, 2)) == n % U16_LIMIT
  {
    var b := Spelled(n, 2);
    TwoBytes(b);
    assert Spelled(n / 0x100, 1) == [] + [n / 0x100 % 0x100];
    assert b == [n / 0x100 % 0x100, n % 0x100];
  }

  /** Spelling and reading back four bytes keeps a 32-bit number. */
  lemma SpelledFour(n: nat)
    ensures BigEndian(Spelled(n, 4)) == n % U32_LIMIT
  {
    var b := Spelled(n, 4);
    FourBytes(b);
    SpelledTwo(n);
    SpelledTwo(n / U16_LIMIT);
    SpelledSplit(n);
    DivMod(n);
  }

  lemma SpelledSplit(n: nat)
    ensures Spelled(n, 4)[..2] == Spelled(n / U16_LIMIT, 2) && Spelled(n, 4)[2..] == Spelled(n, 2)
  {
    assert n / 0x100 / 0x100 == n / U16_LIMIT;
    var b := Spelled(n / U16_LIMIT, 2);
    assert Spelled(n / 0x100, 3) == b + [n / 0x100 % 0x100];
    assert Spelled(n, 4) == b + [n / 0x100 % 0x100] + [n % 0x100];
    assert Spelled(n / 0x100, 1) == [] + [n / 0x100 % 0x100];
    assert Spelled(n, 2) == [n / 0x100 % 0x100] + [n % 0x100];
  }

  lemma DivMod(n: nat)
    ensures U16_LIMIT * (n / U16_LIMIT % U16_LIMIT) + n % U16_LIMIT == n % U32_LIMIT
  {
  }

  function Zeros(n: nat): (z: bytes)
    ensures |z| == n && forall i :: 0 <= i < n ==> z[i] == 0
  {
    seq(n, _ => 0)
  }

  /** The concatenation of a list of byte strings. */
  function Flatten(parts: seq<bytes>): bytes
  {
    if parts == [] then [] else parts[0] + Flatten(parts[1..])
  }

  lemma {:induction false} FlattenAppend(a: seq<bytes>, b: seq<bytes>)
    ensures Flatten(a + b) == Flatten(a) + Flatten(b)
  {
    if a == [] {
      assert a + b == b;
    } else {
      assert (a + b)[1..] == a[1..] + b;
      FlattenAppend(a[1..], b);
    }
  }
}
