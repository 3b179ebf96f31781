/** The padding scheme: its factory, and the record sizes it draws for one packet. */
module Scheme {
  import opened Bytes
  import opened Options
  import opened Text

  const CHECK_MARK: int := -1

  const MARK_LETTER: byte := 99

  datatype Factory = Factory(scheme: StringMap, raw: bytes, stop: nat, md5: bytes)

  function Lookup(m: StringMap, key: bytes): bytes {
    if key in m then m[key] else []
  }

  lemma EmptyText()
    ensures FromBytes([]) == map[]
  {
    var lines: seq<bytes> := [[]];
    assert Split([], NEWLINE) == lines && lines[..0] == [];
  }

  /** Parse a raw scheme. The `stop` field is stored as `uint32(stop)`. */
  function NewFactory(raw: bytes, md5: bytes -> bytes): (r: Option<Factory>)
    ensures r.Some? ==> r.value.raw == raw && r.value.md5 == md5(raw) && r.value.stop < U32_LIMIT && raw != []
  {
    var scheme := FromBytes(raw);
    if scheme == map[] then None
    else
      match ParseInt(Lookup(scheme, Ascii("stop")))
      case None => None
      case Some(stop) =>
        EmptyText();
        Some(Factory(scheme, raw, stop % U32_LIMIT, md5(raw)))
  }

  /** What `UpdatePaddingScheme` makes of the stored factory. */
  function Updated(f: Factory, raw: bytes, md5: bytes -> bytes): Factory {
    if NewFactory(raw, md5).Some? then NewFactory(raw, md5).value else f
  }

  /** The process-wide `DefaultPaddingFactory`. */
  class FactoryCell {
    var current: Factory

    constructor (f: Factory)
      ensures current == f
    {
      current := f;
    }

    /** `UpdatePaddingScheme`: an unparsable scheme leaves the stored factory alone. */
    method Update(raw: bytes, md5: bytes -> bytes) returns (ok: bool)
      modifies this
      ensures ok == NewFactory(raw, md5).Some?
      ensures current == Updated(old(current), raw, md5)
    {
      var p := NewFactory(raw, md5);
      ok := p.Some?;
      if ok {
        current := p.value;
      }
    }
  }

  /** One comma-separated item of a rule. */
  datatype Item = Malformed | Mark | Range(lo: int, hi: int)

  function ParseItem(s: bytes): (r: Item)
    ensures r.Range? ==> 0 < r.lo <= r.hi < INT64_LIMIT
  {
    var parts := Split(s, MINUS);
    if |parts| == 2 then
      match (ParseInt(parts[0]), ParseInt(parts[1]))
      case (Some(a), Some(b)) =>
        var lo, hi := if a <= b then a else b, if a <= b then b else a;
        if lo <= 0 || hi <= 0 then Malformed else Range(lo, hi)
      case _ => Malformed
    else if s == [MARK_LETTER] then Mark
    else Malformed
  }

  /** The items of a rule that produce a size, in rule order. */
  function Kept(items: seq<bytes>): (r: seq<Item>)
    ensures forall i :: 0 <= i < |r| ==> r[i].Mark? || (r[i].Range? && 0 < r[i].lo <= r[i].hi)
  {
    if items == [] then []
    else
      var last := ParseItem(items[|items| - 1]);
      Kept(items[..|items| - 1]) + if last.Malformed? then [] else [last]
  }

  /** The size an item may draw: `rand.Int` is uniform below `hi - lo`. */
  predicate Draws(item: Item, size: int) {
    match item
    case Malformed => false
    case Mark => size == CHECK_MARK
    case Range(lo, hi) => if lo == hi then size == lo else lo <= size < hi
  }

  /** `sizes` is one of the outcomes the rule allows. */
  predicate Generated(items: seq<bytes>, sizes: seq<int>) {
    && |sizes| == |Kept(items)|
    && forall i :: 0 <= i < |sizes| ==> Draws(Kept(items)[i], sizes[i])
  }

  /** The rule of packet `pkt`; a packet without one has no items. */
  function Items(f: Factory, pkt: nat): seq<bytes> {
    if Itoa(pkt) in f.scheme then Split(f.scheme[Itoa(pkt)], COMMA) else []
  }

  method GenerateRecordPayloadSizes(f: Factory, pkt: nat) returns (sizes: seq<int>)
    ensures Generated(Items(f, pkt), sizes)
  {
    hide Itoa;
    hide Split;
    hide ParseItem;
    sizes := [];
    if Itoa(pkt) in f.scheme {
      var ranges := Split(f.scheme[Itoa(pkt)], COMMA);
      for i := 0 to |ranges|
        invariant Generated(ranges[..i], sizes)
      {
        assert ranges[..i + 1][..i] == ranges[..i];
        match ParseItem(ranges[i])
        case Malformed =>
        case Mark => sizes := sizes + [CHECK_MARK];
        case Range(lo, hi) =>
          if lo == hi {
            sizes := sizes + [lo];
          } else {
            var i :| 0 <= i < hi - lo;
            sizes := sizes + [i + lo];
          }
      }
      assert ranges[..|ranges|] == ranges;
    }
  }

  predicate ValidSizes(sizes: seq<int>) {
    forall i :: 0 <= i < |sizes| ==> sizes[i] == CHECK_MARK || sizes[i] > 0
  }

  /** The padder never sees a zero or a negative size other than the check mark. */
  lemma GeneratedAreValid(items: seq<bytes>, sizes: seq<int>)
    requires Generated(items, sizes)
    ensures ValidSizes(sizes)
  {
    forall i | 0 <= i < |sizes| ensures sizes[i] == CHECK_MARK || sizes[i] > 0 {
      assert Draws(Kept(items)[i], sizes[i]);
    }
  }

  predicate FitU16(sizes: seq<int>) {
    forall i :: 0 <= i < |sizes| ==> sizes[i] < U16_LIMIT
  }

  function Largest(item: Item): int
    requires !item.Malformed?
  {
    match item
    case Mark => CHECK_MARK
    case Range(lo, hi) => if lo == hi then lo else hi - 1
  }

  /** Whatever is drawn fits a 16-bit length field exactly when each item's largest draw does. */
  lemma AllDrawsFitIff(items: seq<bytes>)
    ensures (forall sizes :: Generated(items, sizes) ==> FitU16(sizes))
       <==> (forall i :: 0 <= i < |Kept(items)| ==> Largest(Kept(items)[i]) < U16_LIMIT)
  {
    var kept := Kept(items);
    var worst := seq(|kept|, i requires 0 <= i < |kept| => Largest(kept[i]));
    assert Generated(items, worst);
    if forall sizes :: Generated(items, sizes) ==> FitU16(sizes) {
      assert FitU16(worst);
      forall i | 0 <= i < |kept| ensures Largest(kept[i]) < U16_LIMIT {
        assert worst[i] < U16_LIMIT;
      }
    }
    if forall i :: 0 <= i < |kept| ==> Largest(kept[i]) < U16_LIMIT {
      forall sizes, i | Generated(items, sizes) && 0 <= i < |sizes| ensures sizes[i] < U16_LIMIT {
        assert Draws(kept[i], sizes[i]);
      }
    }
  }

  // ---- Reading a scheme text ----

  /** A text is a scheme exactly when its `stop` is a number; the factory then has its low 32 bits. */
  lemma FactoryIff(raw: bytes, md5: bytes -> bytes)
    ensures var stop := ParseInt(Lookup(FromBytes(raw), Ascii("stop")));
            && (NewFactory(raw, md5).Some? <==> stop.Some?)
            && (stop.Some? ==> NewFactory(raw, md5).value == Factory(FromBytes(raw), raw, stop.value % U32_LIMIT, md5(raw)))
  {
    hide FromBytes;
    hide Ascii;
    hide ParseInt;
    NoNumber();
  }

  lemma NoNumber()
    ensures ParseInt([]) == None
  {
  }

  lemma DigitsAreClean(n: nat, c: byte)
    requires !IsDigit(c)
    ensures c !in Itoa(n)
  {
    hide Digits;
    assert AllDigits(Digits(n));
  }

  lemma {:induction false} SplitInTwo(s: bytes, sep: byte)
    requires |Split(s, sep)| == 2
    ensures s == Split(s, sep)[0] + [sep] + Split(s, sep)[1]
  {
    if s[0] == sep {
      SplitWhole(s[1..], sep);
    } else {
      SplitInTwo(s[1..], sep);
    }
  }

  lemma {:induction false} SplitWhole(s: bytes, sep: byte)
    requires |Split(s, sep)| == 1
    ensures Split(s, sep)[0] == s
  {
    if s != [] {
      SplitWhole(s[1..], sep);
    }
  }

  /** `s` is two positive numbers with one minus sign between them. */
  predicate TwoNumbers(s: bytes, x: bytes, y: bytes) {
    && MINUS !in x && MINUS !in y && s == x + [MINUS] + y
    && ParseInt(x).Some? && ParseInt(y).Some? && ParseInt(x).value > 0 && ParseInt(y).value > 0
  }

  /** Which items are check marks, which are ranges; all others are skipped. */
  lemma ItemIff(s: bytes)
    ensures ParseItem(s) == Mark <==> s == [MARK_LETTER]
    ensures ParseItem(s).Range? <==> exists x, y :: TwoNumbers(s, x, y)
  {
    hide ParseInt;
    hide Split;
    SplitOnce([MARK_LETTER], MINUS, []);
    var parts := Split(s, MINUS);
    if ParseItem(s).Range? {
      SplitInTwo(s, MINUS);
      SplitParts(s, MINUS);
      assert TwoNumbers(s, parts[0], parts[1]);
    }
    if x, y :| TwoNumbers(s, x, y) {
      SplitOnce(x, MINUS, y);
      SplitOnce(y, MINUS, []);
      assert parts == [x, y];
    }
  }

  /** A rule item printed from two positive numbers reads back as their range. */
  lemma {:induction false} RangeReadsBack(a: int, b: int)
    requires 0 < a < INT64_LIMIT && 0 < b < INT64_LIMIT
    ensures ParseItem(Itoa(a) + [MINUS] + Itoa(b)) == Range(if a <= b then a else b, if a <= b then b else a)
  {
    hide Itoa;
    hide ParseInt;
    hide Split;
    DigitsAreClean(a, MINUS);
    DigitsAreClean(b, MINUS);
    SplitOnce(Itoa(a), MINUS, Itoa(b));
    SplitOnce(Itoa(b), MINUS, []);
    ParseItoaIff(a);
    ParseItoaIff(b);
    assert Split(Itoa(a) + [MINUS] + Itoa(b), MINUS) == [Itoa(a), Itoa(b)];
  }

  /** The scheme with one rule, of one size: "stop=8", newline, "1=70000-70000". */
  function OneRule(stop: nat, pkt: nat, l: nat): bytes {
    Join([Ascii("stop") + [EQUALS] + Itoa(stop), Itoa(pkt) + [EQUALS] + Rule(l)], NEWLINE)
  }

  function Rule(l: nat): bytes { Itoa(l) + [MINUS] + Itoa(l) }

  lemma RuleIsClean(l: nat, c: byte)
    requires !IsDigit(c) && c != MINUS
    ensures c !in Rule(l)
  {
    DigitsAreClean(l, c);
  }

  lemma StopIsNoNumber(pkt: nat)
    ensures Ascii("stop") != Itoa(pkt) && EQUALS !in Ascii("stop") && NEWLINE !in Ascii("stop")
  {
    hide Digits;
    assert Ascii("stop")[0] as int == 's' as int;
    assert !IsDigit(Ascii("stop")[0]) && Itoa(pkt) == Digits(pkt) && IsDigit(Digits(pkt)[0]);
  }

  lemma OneRuleMap(stop: nat, pkt: nat, l: nat)
    ensures FromBytes(OneRule(stop, pkt, l)) == map[Ascii("stop") := Itoa(stop), Itoa(pkt) := Rule(l)]
  {
    hide Itoa;
    hide Ascii;
    hide FromBytes;
    hide Join;
    hide Rule;
    StopIsNoNumber(pkt);
    DigitsAreClean(stop, NEWLINE);
    DigitsAreClean(pkt, NEWLINE);
    DigitsAreClean(pkt, EQUALS);
    RuleIsClean(l, NEWLINE);
    var m: StringMap := map[Ascii("stop") := Itoa(stop), Itoa(pkt) := Rule(l)];
    var order := [Ascii("stop"), Itoa(pkt)];
    assert Lines(order, m) == [Ascii("stop") + [EQUALS] + Itoa(stop), Itoa(pkt) + [EQUALS] + Rule(l)];
    SettingsRoundTripIff(m, order);
  }

  /** Such a text is a scheme, and its rule always draws that one size. */
  lemma {:induction false} OneRuleMeans(stop: nat, pkt: nat, l: nat, sizes: seq<int>, md5: bytes -> bytes)
    requires stop < U32_LIMIT && 0 < l < INT64_LIMIT
    ensures var f := NewFactory(OneRule(stop, pkt, l), md5);
            f.Some? && f.value.stop == stop && (Generated(Items(f.value, pkt), sizes) <==> sizes == [l])
  {
    hide Itoa;
    hide Ascii;
    hide FromBytes;
    hide OneRule;
    hide ParseInt;
    hide ParseItem;
    hide Rule;
    hide Split;
    OneRuleMap(stop, pkt, l);
    StopIsNoNumber(pkt);
    ParseItoaIff(stop);
    FactoryIff(OneRule(stop, pkt, l), md5);
    OneItem(l);
  }

  lemma OneItem(l: nat)
    requires 0 < l < INT64_LIMIT
    ensures Kept(Split(Rule(l), COMMA)) == [Range(l, l)]
  {
    hide Itoa;
    hide ParseItem;
    hide Split;
    RuleIsClean(l, COMMA);
    SplitOnce(Rule(l), COMMA, []);
    RangeReadsBack(l, l);
    assert [Rule(l)][..0] == [];
    assert Kept([Rule(l)]) == Kept([]) + [Range(l, l)];
  }

  // ---- What a printed scheme draws ----

  /** An entry of a rule as one writes it: a check mark, or two bounds in either order. */
  datatype Entry = Check | Between(a: int, b: int)

  predicate Printable(e: Entry) {
    e.Between? ==> 0 < e.a < INT64_LIMIT && 0 < e.b < INT64_LIMIT
  }

  function EntryText(e: Entry): bytes {
    match e
    case Check => [MARK_LETTER]
    case Between(a, b) => Itoa(a) + [MINUS] + Itoa(b)
  }

  /** A check mark gives -1; equal bounds give that size; otherwise the size is at least the smaller bound and
      below the larger one. */
  predicate DrawnFrom(e: Entry, size: int) {
    match e
    case Check => size == -1
    case Between(a, b) =>
      if a == b then size == a else (a <= size < b || b <= size < a)
  }

  /** One size for each entry, in the rule's order. */
  predicate DrawnInOrder(entries: seq<Entry>, sizes: seq<int>) {
    |sizes| == |entries| && forall k :: 0 <= k < |sizes| ==> DrawnFrom(entries[k], sizes[k])
  }

  function Texts(entries: seq<Entry>): (r: seq<bytes>)
    ensures |r| == |entries|
  {
    seq(|entries|, i requires 0 <= i < |entries| => EntryText(entries[i]))
  }

  /** The entries separated by commas. */
  function RuleText(entries: seq<Entry>): bytes { Join(Texts(entries), COMMA) }

  lemma EntryIsClean(e: Entry, c: byte)
    requires Printable(e) && !IsDigit(c) && c != MINUS && c != MARK_LETTER
    ensures c !in EntryText(e)
  {
    if e.Between? {
      DigitsAreClean(e.a, c);
      DigitsAreClean(e.b, c);
    }
  }

  lemma EntryDraws(e: Entry, size: int)
    requires Printable(e)
    ensures !ParseItem(EntryText(e)).Malformed? && (Draws(ParseItem(EntryText(e)), size) <==> DrawnFrom(e, size))
  {
    hide Itoa;
    hide ParseItem;
    match e
    case Check => ItemIff([MARK_LETTER]);
    case Between(a, b) => RangeReadsBack(a, b);
  }

  lemma {:induction false} EntriesAreKept(entries: seq<Entry>)
    requires forall k :: 0 <= k < |entries| ==> Printable(entries[k])
    ensures |Kept(Texts(entries))| == |entries|
    ensures forall k :: 0 <= k < |entries| ==> Kept(Texts(entries))[k] == ParseItem(EntryText(entries[k]))
  {
    hide ParseItem;
    hide EntryText;
    if entries != [] {
      var n := |entries| - 1;
      EntriesAreKept(entries[..n]);
      assert Texts(entries)[..n] == Texts(entries[..n]);
      EntryDraws(entries[n], 0);
    }
  }

  /** The sizes a printed rule allows: one for each entry, in order, and each a draw between its bounds. */
  lemma {:induction false} PrintedRuleMeans(entries: seq<Entry>, sizes: seq<int>)
    requires forall k :: 0 <= k < |entries| ==> Printable(entries[k])
    ensures Generated(Split(RuleText(entries), COMMA), sizes) <==> DrawnInOrder(entries, sizes)
  {
    hide ParseItem;
    hide EntryText;
    hide Draws;
    hide DrawnFrom;
    if entries == [] {
      assert Split([], COMMA) == [[]];
      EmptyIsNoItem();
    } else {
      forall k | 0 <= k < |entries| ensures COMMA !in Texts(entries)[k] {
        EntryIsClean(entries[k], COMMA);
      }
      SplitOfJoin(Texts(entries), COMMA);
      EntriesAreKept(entries);
      forall k | 0 <= k < |entries| && k < |sizes|
        ensures Draws(ParseItem(EntryText(entries[k])), sizes[k]) <==> DrawnFrom(entries[k], sizes[k])
      {
        EntryDraws(entries[k], sizes[k]);
      }
    }
  }

  lemma EmptyIsNoItem()
    ensures Kept([[]]) == []
  {
    var items: seq<bytes> := [[]];
    assert items[..0] == [];
    assert ParseItem([]) == Malformed;
  }

  /** A rule of one range: the draw is at least the smaller bound and below the larger. */
  lemma OneRangeDraws(a: int, b: int, sizes: seq<int>)
    requires 0 < a < INT64_LIMIT && 0 < b < INT64_LIMIT
    ensures var lo, hi := if a <= b then a else b, if a <= b then b else a;
            Generated([Itoa(a) + [MINUS] + Itoa(b)], sizes) <==>
              |sizes| == 1 && (if lo == hi then sizes[0] == lo else lo <= sizes[0] < hi)
  {
    hide Itoa;
    hide ParseItem;
    var entries := [Between(a, b)];
    EntriesAreKept(entries);
    assert Texts(entries) == [Itoa(a) + [MINUS] + Itoa(b)];
    RangeReadsBack(a, b);
  }

  /** A scheme text with a rule for each of the first packets, from 0 on. */
  function SchemeLines(stop: nat, rules: seq<seq<Entry>>): seq<bytes> {
    if rules == [] then [Ascii("stop") + [EQUALS] + Itoa(stop)]
    else
      var n := |rules| - 1;
      SchemeLines(stop, rules[..n]) + [Itoa(n) + [EQUALS] + RuleText(rules[n])]
  }

  function SchemeText(stop: nat, rules: seq<seq<Entry>>): bytes { Join(SchemeLines(stop, rules), NEWLINE) }

  predicate AllPrintable(rules: seq<seq<Entry>>) {
    forall i, k :: 0 <= i < |rules| && 0 <= k < |rules[i]| ==> Printable(rules[i][k])
  }

  lemma {:induction false} JoinIsClean(parts: seq<bytes>, sep: byte, c: byte)
    requires c != sep && forall i :: 0 <= i < |parts| ==> c !in parts[i]
    ensures c !in Join(parts, sep)
  {
    if |parts| > 1 {
      JoinIsClean(parts[1..], sep, c);
    }
  }

  lemma RuleTextIsClean(entries: seq<Entry>)
    requires forall k :: 0 <= k < |entries| ==> Printable(entries[k])
    ensures NEWLINE !in RuleText(entries)
  {
    hide EntryText;
    hide Join;
    forall k | 0 <= k < |entries| ensures NEWLINE !in Texts(entries)[k] {
      EntryIsClean(entries[k], NEWLINE);
    }
    JoinIsClean(Texts(entries), COMMA, NEWLINE);
  }

  lemma NumbersDiffer(a: nat, b: nat)
    requires a != b
    ensures Itoa(a) != Itoa(b)
  {
    hide Digits;
    DecimalOfDigits(a);
    DecimalOfDigits(b);
  }

  /** The map that the first rules make. */
  lemma {:induction false} SchemeMap(stop: nat, rules: seq<seq<Entry>>, pkt: nat)
    requires AllPrintable(rules)
    ensures var lines, m := SchemeLines(stop, rules), FromLines(SchemeLines(stop, rules));
            && lines != [] && (forall i :: 0 <= i < |lines| ==> NEWLINE !in lines[i])
            && Ascii("stop") in m && m[Ascii("stop")] == Itoa(stop)
            && (Itoa(pkt) in m <==> pkt < |rules|) && (pkt < |rules| ==> m[Itoa(pkt)] == RuleText(rules[pkt]))
  {
    hide Itoa;
    hide Ascii;
    hide RuleText;
    StopIsNoNumber(pkt);
    if rules == [] {
      DigitsAreClean(stop, NEWLINE);
      CutLine(Ascii("stop"), Itoa(stop));
      assert [Ascii("stop") + [EQUALS] + Itoa(stop)][..0] == [];
    } else {
      var n := |rules| - 1;
      var lines, more := SchemeLines(stop, rules[..n]), SchemeLines(stop, rules);
      SchemeMap(stop, rules[..n], pkt);
      StopIsNoNumber(n);
      if pkt != n {
        NumbersDiffer(pkt, n);
      }
      DigitsAreClean(n, EQUALS);
      DigitsAreClean(n, NEWLINE);
      RuleTextIsClean(rules[n]);
      CutLine(Itoa(n), RuleText(rules[n]));
      assert more[..|more| - 1] == lines;
    }
  }

  /** What a printed scheme means: it is accepted, its stop is the number printed, and the sizes it may draw for
      a packet are those of the packet's rule, or none without one. */
  lemma {:induction false} PrintedSchemeMeans(stop: nat, rules: seq<seq<Entry>>, pkt: nat, sizes: seq<int>,
                                              md5: bytes -> bytes)
    requires stop < U32_LIMIT && AllPrintable(rules)
    ensures var f := NewFactory(SchemeText(stop, rules), md5);
            && f.Some? && f.value.stop == stop
            && (Generated(Items(f.value, pkt), sizes) <==>
                  if pkt < |rules| then DrawnInOrder(rules[pkt], sizes) else sizes == [])
  {
    hide Itoa;
    hide Ascii;
    hide ParseInt;
    hide ParseItem;
    hide RuleText;
    hide SchemeLines;
    hide DrawnInOrder;
    SchemeMap(stop, rules, pkt);
    SplitOfJoin(SchemeLines(stop, rules), NEWLINE);
    ParseItoaIff(stop);
    FactoryIff(SchemeText(stop, rules), md5);
    if pkt < |rules| {
      PrintedRuleMeans(rules[pkt], sizes);
    }
  }

  /** The rules of the built-in scheme, for packets 0 to 7. */
  function DefaultRules(): seq<seq<Entry>> {
    var big := Between(500, 1000);
    [[Between(30, 30)], [Between(100, 400)],
     [Between(400, 500), Check, big, Check, big, Check, big, Check, big],
     [Between(9, 9), big], [big], [big], [big], [big]]
  }

  /** The built-in scheme shapes packets below 8, and no size it draws is above 999, so each fits its length
      field. */
  lemma {:induction false} DefaultSchemeDraws(pkt: nat, sizes: seq<int>, md5: bytes -> bytes)
    ensures var f := NewFactory(SchemeText(8, DefaultRules()), md5);
            && f.Some? && f.value.stop == 8
            && (Generated(Items(f.value, pkt), sizes) ==>
                  && FitU16(sizes) && (sizes == [] <==> pkt >= 8)
                  && forall k :: 0 <= k < |sizes| ==> sizes[k] == CHECK_MARK || 9 <= sizes[k] <= 999)
  {
    hide NewFactory;
    hide Items;
    hide Generated;
    hide SchemeText;
    var rules := DefaultRules();
    assert |rules| == 8;
    PrintedSchemeMeans(8, rules, pkt, sizes, md5);
    if pkt < 8 && DrawnInOrder(rules[pkt], sizes) {
      forall k | 0 <= k < |sizes| ensures sizes[k] == CHECK_MARK || 9 <= sizes[k] <= 999 {
        assert DrawnFrom(rules[pkt][k], sizes[k]);
      }
    }
  }
}
