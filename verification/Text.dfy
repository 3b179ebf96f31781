/** An optional value. */
module Options {
  datatype Option<+T> = None | Some(value: T)
}

/** Byte strings as text: splitting, joining, decimal numbers, and the `key=value` settings format. */
module Text {
  import opened Bytes
  import opened Options

  const NEWLINE: byte := 10
  const COMMA: byte := 44
  const MINUS: byte := 45
  const PLUS: byte := 43
  const ZERO: byte := 48
  const EQUALS: byte := 61

  const INT64_LIMIT: int := 0x8000_0000_0000_0000

  /** The bytes of an ASCII literal. */
  function Ascii(s: string): (b: bytes)
    requires forall i :: 0 <= i < |s| ==> s[i] < 128 as char
    ensures |b| == |s| && forall i :: 0 <= i < |s| ==> b[i] as int == s[i] as int
  {
    seq(|s|, i requires 0 <= i < |s| => s[i] as int)
  }

  /** `strings.Split` with a one-byte separator. */
  function Split(s: bytes, sep: byte): (parts: seq<bytes>)
    ensures |parts| > 0
  {
    if s == [] then [[]]
    else
      var rest := Split(s[1..], sep);
      if s[0] == sep then [[]] + rest else [[s[0]] + rest[0]] + rest[1..]
  }

  function Join(parts: seq<bytes>, sep: byte): bytes {
    if |parts| == 0 then []
    else if |parts| == 1 then parts[0]
    else parts[0] + [sep] + Join(parts[1..], sep)
  }

  lemma {:induction false} SplitOnce(a: bytes, sep: byte, b: bytes)
    requires sep !in a
    ensures Split(a + [sep] + b, sep) == [a] + Split(b, sep)
    ensures Split(a, sep) == [a]
  {
    if a == [] {
      assert (a + [sep] + b)[1..] == b;
    } else {
      assert (a + [sep] + b)[1..] == a[1..] + [sep] + b;
      SplitOnce(a[1..], sep, b);
      assert [a[0]] + a[1..] == a;
    }
  }

  lemma {:induction false} SplitOfJoin(parts: seq<bytes>, sep: byte)
    requires parts != [] && forall i :: 0 <= i < |parts| ==> sep !in parts[i]
    ensures Split(Join(parts, sep), sep) == parts
  {
    if |parts| == 1 {
      SplitOnce(parts[0], sep, []);
    } else {
      SplitOfJoin(parts[1..], sep);
      SplitOnce(parts[0], sep, Join(parts[1..], sep));
    }
  }

  lemma {:induction false} SplitParts(s: bytes, sep: byte)
    ensures forall i :: 0 <= i < |Split(s, sep)| ==> sep !in Split(s, sep)[i]
  {
    if s != [] {
      SplitParts(s[1..], sep);
    }
  }

  /** `strings.SplitN(line, "=", 2)`, when it yields two parts. */
  function Cut(line: bytes): Option<(bytes, bytes)> {
    if line == [] then None
    else if line[0] == EQUALS then Some(([], line[1..]))
    else match Cut(line[1..])
         case None => None
         case Some(kv) => Some(([line[0]] + kv.0, kv.1))
  }

  lemma {:induction false} CutLine(k: bytes, v: bytes)
    requires EQUALS !in k
    ensures Cut(k + [EQUALS] + v) == Some((k, v))
  {
    if k == [] {
      assert (k + [EQUALS] + v)[1..] == v;
    } else {
      assert (k + [EQUALS] + v)[1..] == k[1..] + [EQUALS] + v;
      CutLine(k[1..], v);
      assert [k[0]] + k[1..] == k;
    }
  }

  lemma {:induction false} CutParts(line: bytes)
    requires NEWLINE !in line && Cut(line).Some?
    ensures var kv := Cut(line).value;
            EQUALS !in kv.0 && NEWLINE !in kv.0 && NEWLINE !in kv.1
  {
    if line[0] != EQUALS {
      CutParts(line[1..]);
    }
  }

  type StringMap = map<bytes, bytes>

  /** The map a list of lines defines: lines without '=' are skipped, later lines win. */
  function FromLines(lines: seq<bytes>): StringMap {
    if lines == [] then map[]
    else
      var m := FromLines(lines[..|lines| - 1]);
      match Cut(lines[|lines| - 1])
      case None => m
      case Some(kv) => m[kv.0 := kv.1]
  }

  function FromBytes(b: bytes): StringMap {
    FromLines(Split(b, NEWLINE))
  }

  method StringMapFromBytes(b: bytes) returns (m: StringMap)
    ensures m == FromBytes(b)
  {
    m := map[];
    var lines := Split(b, NEWLINE);
    for i := 0 to |lines|
      invariant m == FromLines(lines[..i])
    {
      assert lines[..i + 1][..i] == lines[..i];
      match Cut(lines[i])
      case None =>
      case Some(kv) => m := m[kv.0 := kv.1];
    }
    assert lines[..|lines|] == lines;
  }

  /** `order` lists every key of `m` once: one of the orders Go's map iteration may take. */
  predicate Enumerates(order: seq<bytes>, m: StringMap) {
    && (forall i :: 0 <= i < |order| ==> order[i] in m)
    && (forall k :: k in m ==> k in order)
    && (forall i, j :: 0 <= i < j < |order| ==> order[i] != order[j])
  }

  function Lines(order: seq<bytes>, m: StringMap): (r: seq<bytes>)
    requires forall i :: 0 <= i < |order| ==> order[i] in m
    ensures |r| == |order|
  {
    seq(|order|, i requires 0 <= i < |order| => order[i] + [EQUALS] + m[order[i]])
  }

  /** The settings text, for one iteration order. */
  method ToBytes(m: StringMap) returns (b: bytes, ghost order: seq<bytes>)
    ensures Enumerates(order, m) && b == Join(Lines(order, m), NEWLINE)
  {
    var lines := [];
    order := [];
    var todo := m.Keys;
    while todo != {}
      invariant todo <= m.Keys
      invariant forall k :: k in m ==> (k in order <==> k !in todo)
      invariant forall i :: 0 <= i < |order| ==> order[i] in m
      invariant forall i, j :: 0 <= i < j < |order| ==> order[i] != order[j]
      invariant lines == Lines(order, m)
    {
      var k :| k in todo;
      lines := lines + [k + [EQUALS] + m[k]];
      order := order + [k];
      todo := todo - {k};
    }
    b := Join(lines, NEWLINE);
  }

  /** What the format can carry. */
  predicate Clean(m: StringMap) {
    forall k :: k in m ==> EQUALS !in k && NEWLINE !in k && NEWLINE !in m[k]
  }

  lemma {:induction false} FromLinesClean(lines: seq<bytes>)
    requires forall i :: 0 <= i < |lines| ==> NEWLINE !in lines[i]
    ensures Clean(FromLines(lines))
  {
    if lines != [] {
      FromLinesClean(lines[..|lines| - 1]);
      var last := lines[|lines| - 1];
      if Cut(last).Some? {
        CutParts(last);
      }
    }
  }

  lemma {:induction false} FromLinesOfLines(order: seq<bytes>, m: StringMap)
    requires Clean(m) && forall i :: 0 <= i < |order| ==> order[i] in m
    ensures FromLines(Lines(order, m)) == map k | k in order :: m[k]
  {
    if order != [] {
      var n := |order| - 1;
      var init, k := order[..n], order[n];
      assert Lines(order, m)[..n] == Lines(init, m);
      FromLinesOfLines(init, m);
      CutLine(k, m[k]);
      assert order == init + [k];
    }
  }

  /** The round trip holds for every iteration order, and exactly for the maps the format can carry:
      no '=' or newline in a key, no newline in a value. */
  lemma SettingsRoundTripIff(m: StringMap, order: seq<bytes>)
    requires Enumerates(order, m)
    ensures FromBytes(Join(Lines(order, m), NEWLINE)) == m <==> Clean(m)
  {
    var b := Join(Lines(order, m), NEWLINE);
    SplitParts(b, NEWLINE);
    FromLinesClean(Split(b, NEWLINE));
    if Clean(m) {
      var lines := Lines(order, m);
      FromLinesOfLines(order, m);
      assert (map k | k in order :: m[k]) == m;
      if lines == [] {
        assert Split(b, NEWLINE) == [[]];
        assert FromLines([[]]) == map[];
      } else {
        SplitOfJoin(lines, NEWLINE);
      }
    }
  }

  predicate IsDigit(c: byte) { ZERO <= c <= 57 }

  predicate AllDigits(s: bytes) { forall i :: 0 <= i < |s| ==> IsDigit(s[i]) }

  function Decimal(s: bytes): nat
    requires AllDigits(s)
  {
    if s == [] then 0 else 10 * Decimal(s[..|s| - 1]) + (s[|s| - 1] as int - ZERO as int)
  }

  /** `strconv.ParseInt(s, 10, 64)` and `strconv.Atoi`: an optional sign, digits, and a range check. */
  function ParseInt(s: bytes): (r: Option<int>)
    ensures r.Some? ==> -INT64_LIMIT <= r.value < INT64_LIMIT
  {
    if s == [] then None
    else
      var digits := if s[0] == PLUS || s[0] == MINUS then s[1..] else s;
      if digits == [] || !AllDigits(digits) then None
      else
        var v := if s[0] == MINUS then 0 - Decimal(digits) else Decimal(digits);
        if -INT64_LIMIT <= v < INT64_LIMIT then Some(v) else None
  }

  function Digits(n: nat): (s: bytes)
    ensures s != [] && AllDigits(s)
  {
    if n < 10 then [ZERO as int + n] else Digits(n / 10) + [ZERO as int + n % 10]
  }

  /** `strconv.Itoa`. */
  function Itoa(n: int): bytes {
    if n < 0 then [MINUS] + Digits(-n) else Digits(n)
  }

  lemma {:induction false} DecimalOfDigits(n: nat)
    ensures Decimal(Digits(n)) == n
  {
    if n < 10 {
      assert [ZERO as int + n][..0] == [];
    } else {
      DecimalOfDigits(n / 10);
      var s := Digits(n);
      assert s[..|s| - 1] == Digits(n / 10);
    }
  }

  /** Decimal printing and parsing are inverse on every 64-bit integer, and only there. */
  lemma ParseItoaIff(n: int)
    ensures ParseInt(Itoa(n)) == Some(n) <==> -INT64_LIMIT <= n < INT64_LIMIT
  {
    hide Decimal;
    hide Digits;
    if n < 0 {
      DecimalOfDigits(-n);
      assert Itoa(n)[1..] == Digits(-n);
    } else {
      DecimalOfDigits(n);
      assert IsDigit(Digits(n)[0]);
    }
  }

  function ZeroDigits(k: nat): (s: bytes)
    ensures |s| == k && AllDigits(s)
  {
    if k == 0 then [] else ZeroDigits(k - 1) + [ZERO]
  }

  lemma {:induction false} DecimalOfPadded(k: nat, n: nat)
    ensures Decimal(ZeroDigits(k) + Digits(n)) == n
  {
    var s := ZeroDigits(k) + Digits(n);
    if n < 10 {
      assert s[..|s| - 1] == ZeroDigits(k);
      DecimalOfZeros(k);
    } else {
      DecimalOfPadded(k, n / 10);
      assert s[..|s| - 1] == ZeroDigits(k) + Digits(n / 10);
    }
  }

  lemma {:induction false} DecimalOfZeros(k: nat)
    ensures Decimal(ZeroDigits(k)) == 0
  {
    if k > 0 {
      DecimalOfZeros(k - 1);
      assert ZeroDigits(k)[..k - 1] == ZeroDigits(k - 1);
    }
  }

  /** Digits are leading zeros and then a number as it is printed. */
  lemma {:induction false} LeadingZeros(s: bytes) returns (k: nat)
    requires s != [] && AllDigits(s)
    ensures s == ZeroDigits(k) + Digits(Decimal(s))
  {
    k := 0;
    var init, c := s[..|s| - 1], s[|s| - 1];
    if init != [] {
      k := LeadingZeros(init);
      if Decimal(init) == 0 {
        k := k + 1;
      }
    }
    assert s == init + [c];
  }

  /** An optional sign, any number of zeros, and the number as it is printed. */
  predicate Spells(s: bytes, sign: bytes, k: nat, n: nat) {
    (sign == [] || sign == [PLUS] || sign == [MINUS]) && s == sign + ZeroDigits(k) + Digits(n)
  }

  function Signed(sign: bytes, n: nat): int { if sign == [MINUS] then 0 - n else n }

  lemma {:induction false} ParsedIsSpelled(s: bytes, v: int)
    requires ParseInt(s) == Some(v)
    ensures exists sign, k, n :: Spells(s, sign, k, n) && v == Signed(sign, n)
  {
    hide Digits;
    hide ZeroDigits;
    hide Decimal;
    var signed := s[0] == PLUS || s[0] == MINUS;
    var digits := if signed then s[1..] else s;
    var k := LeadingZeros(digits);
    var sign: bytes := if signed then [s[0]] else [];
    assert s == sign + digits;
    assert sign + digits == sign + ZeroDigits(k) + Digits(Decimal(digits));
    assert Spells(s, sign, k, Decimal(digits));
  }

  lemma {:induction false} SpelledIsParsed(s: bytes, sign: bytes, k: nat, n: nat)
    requires Spells(s, sign, k, n) && -INT64_LIMIT <= Signed(sign, n) < INT64_LIMIT
    ensures ParseInt(s) == Some(Signed(sign, n))
  {
    hide Digits;
    hide ZeroDigits;
    hide Decimal;
    var digits := ZeroDigits(k) + Digits(n);
    DecimalOfPadded(k, n);
    assert s == sign + digits && AllDigits(digits);
    assert IsDigit(digits[0]);
    assert sign != [] ==> s[1..] == digits;
    assert sign == [] ==> s == digits;
  }

  /** Which texts parse, and as what: those, provided the number has 64 bits. */
  lemma {:induction false} ParseIntIff(s: bytes, v: int)
    ensures ParseInt(s) == Some(v) <==>
              -INT64_LIMIT <= v < INT64_LIMIT && exists sign, k, n :: Spells(s, sign, k, n) && v == Signed(sign, n)
  {
    if ParseInt(s) == Some(v) {
      ParsedIsSpelled(s, v);
    }
    hide ParseInt;
    hide Spells;
    if -INT64_LIMIT <= v < INT64_LIMIT {
      if sign, k, n :| Spells(s, sign, k, n) && v == Signed(sign, n) {
        SpelledIsParsed(s, sign, k, n);
      }
    }
  }
}
