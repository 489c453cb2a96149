/** The properties asked of the libraries can be had: a codec for log entries that is sound and free of
    collisions, and a JSON library that prints and reads every value faithfully. */
module Codes {
  import opened Values
  import opened Text
  import Audit
  import JsonText
  import JsonWriter
  import ToolMessages

  /* ---------- A prefix-free code for values ---------- */

  function Unary(n: nat): string {
    if n == 0 then "." else "|" + Unary(n - 1)
  }

  function CodeText(s: string): string {
    Unary(|s|) + s
  }

  function CodeTexts(ss: seq<string>): string {
    if ss == [] then "." else "|" + CodeText(ss[0]) + CodeTexts(ss[1..])
  }

  ghost function Code(v: Any): string
    decreases v, 1, 0
  {
    match v
    case Nil => "0"
    case Bool(b) => if b then "t" else "f"
    case Float64(bits) => "r" + Unary(bits)
    case Int(n) => if n < 0 then "-" + Unary(-n) else "+" + Unary(n)
    case Str(s) => "s" + CodeText(s)
    case List(items) => "l" + CodeItems(items)
    case Strings(names) => "n" + CodeTexts(names)
    case Map(entries) => "m" + CodeMembers(v, entries.Keys)
    case Opaque => "o"
  }

  ghost function CodeItems(items: seq<Any>): string
    decreases items, 0, 0
  {
    if items == [] then "." else "|" + Code(items[0]) + CodeItems(items[1..])
  }

  ghost function CodeMembers(v: Any, keys: set<string>): string
    requires v.Map? && keys <= v.entries.Keys
    decreases v, 0, |keys|
  {
    if keys == {} then "."
    else
      var k := JsonWriter.Pick(keys);
      "|" + CodeText(k) + Code(v.entries[k]) + CodeMembers(v, keys - {k})
  }

  lemma {:induction false} UnaryPrefixFree(a: nat, r: string, b: nat, s: string)
    requires Unary(a) + r == Unary(b) + s
    ensures a == b && r == s
  {
    var t := Unary(a) + r;
    if a == 0 || b == 0 {
      assert t[0] == Unary(a)[0] && t[0] == Unary(b)[0];
      assert t[1..] == r && t[1..] == s;
    } else {
      assert t[1..] == Unary(a - 1) + r && t[1..] == Unary(b - 1) + s;
      UnaryPrefixFree(a - 1, r, b - 1, s);
    }
  }

  lemma {:induction false} TextPrefixFree(a: string, r: string, b: string, s: string)
    requires CodeText(a) + r == CodeText(b) + s
    ensures a == b && r == s
  {
    assert Unary(|a|) + (a + r) == CodeText(a) + r && Unary(|b|) + (b + s) == CodeText(b) + s;
    UnaryPrefixFree(|a|, a + r, |b|, b + s);
    assert a == (a + r)[..|a|] && b == (b + s)[..|b|] && r == (a + r)[|a|..] && s == (b + s)[|b|..];
  }

  /** Two texts that begin with the same character. */
  lemma {:induction false} SameFirst(c: char, x: string, d: char, y: string)
    requires [c] + x == [d] + y
    ensures c == d && x == y
  {
    assert ([c] + x)[0] == c && ([d] + y)[0] == d && ([c] + x)[1..] == x && ([d] + y)[1..] == y;
  }

  lemma {:induction false} TextsPrefixFree(a: seq<string>, r: string, b: seq<string>, s: string)
    requires CodeTexts(a) + r == CodeTexts(b) + s
    ensures a == b && r == s
  {
    hide CodeText;
    var x := if a == [] then "" else CodeText(a[0]) + CodeTexts(a[1..]);
    var y := if b == [] then "" else CodeText(b[0]) + CodeTexts(b[1..]);
    var c, d := if a == [] then '.' else '|', if b == [] then '.' else '|';
    assert CodeTexts(a) + r == [c] + (x + r) && CodeTexts(b) + s == [d] + (y + s);
    SameFirst(c, x + r, d, y + s);
    if a == [] {
      assert "" + r == r && "" + s == s;
    } else {
      assert x + r == CodeText(a[0]) + (CodeTexts(a[1..]) + r) && y + s == CodeText(b[0]) + (CodeTexts(b[1..]) + s);
      TextPrefixFree(a[0], CodeTexts(a[1..]) + r, b[0], CodeTexts(b[1..]) + s);
      TextsPrefixFree(a[1..], r, b[1..], s);
      assert a == [a[0]] + a[1..] && b == [b[0]] + b[1..];
    }
  }

  function Tag(v: Any): char {
    match v
    case Nil => '0'
    case Bool(b) => if b then 't' else 'f'
    case Float64(_) => 'r'
    case Int(n) => if n < 0 then '-' else '+'
    case Str(_) => 's'
    case List(_) => 'l'
    case Strings(_) => 'n'
    case Map(_) => 'm'
    case Opaque => 'o'
  }

  ghost function Rest(v: Any): string {
    match v
    case Float64(bits) => Unary(bits)
    case Int(n) => Unary(if n < 0 then -n else n)
    case Str(s) => CodeText(s)
    case List(items) => CodeItems(items)
    case Strings(names) => CodeTexts(names)
    case Map(entries) => CodeMembers(v, entries.Keys)
    case _ => ""
  }

  lemma {:induction false} CodeParts(v: Any)
    ensures Code(v) == [Tag(v)] + Rest(v)
  {
    hide CodeItems, CodeMembers, CodeTexts, CodeText;
  }

  /** A code is never the beginning of another one: what follows a value can be told from it. */
  lemma {:induction false} PrefixFree(v: Any, r: string, w: Any, s: string)
    requires Code(v) + r == Code(w) + s
    ensures v == w && r == s
    decreases v, 1, 0
  {
    hide Code, CodeItems, CodeMembers, CodeTexts, CodeText, Unary;
    CodeParts(v);
    CodeParts(w);
    assert Code(v) + r == [Tag(v)] + (Rest(v) + r) && Code(w) + s == [Tag(w)] + (Rest(w) + s);
    SameFirst(Tag(v), Rest(v) + r, Tag(w), Rest(w) + s);
    match v {
      case Float64(bits) => UnaryPrefixFree(bits, r, w.bits, s);
      case Int(n) => UnaryPrefixFree(if n < 0 then -n else n, r, if w.n < 0 then -w.n else w.n, s);
      case Str(t) => TextPrefixFree(t, r, w.s, s);
      case List(items) => ItemsPrefixFree(items, r, w.items, s);
      case Strings(names) => TextsPrefixFree(names, r, w.names, s);
      case Map(entries) =>
        MembersPrefixFree(v, entries.Keys, r, w, w.entries.Keys, s);
        assert entries == w.entries;
      case _ => assert "" + r == r && "" + s == s;
    }
  }

  lemma {:induction false} ItemsPrefixFree(a: seq<Any>, r: string, b: seq<Any>, s: string)
    requires CodeItems(a) + r == CodeItems(b) + s
    ensures a == b && r == s
    decreases a, 0, 0
  {
    hide Code;
    var x := if a == [] then "" else Code(a[0]) + CodeItems(a[1..]);
    var y := if b == [] then "" else Code(b[0]) + CodeItems(b[1..]);
    var c, d := if a == [] then '.' else '|', if b == [] then '.' else '|';
    assert CodeItems(a) + r == [c] + (x + r) && CodeItems(b) + s == [d] + (y + s);
    SameFirst(c, x + r, d, y + s);
    if a == [] {
      assert "" + r == r && "" + s == s;
    } else {
      assert x + r == Code(a[0]) + (CodeItems(a[1..]) + r) && y + s == Code(b[0]) + (CodeItems(b[1..]) + s);
      PrefixFree(a[0], CodeItems(a[1..]) + r, b[0], CodeItems(b[1..]) + s);
      ItemsPrefixFree(a[1..], r, b[1..], s);
      assert a == [a[0]] + a[1..] && b == [b[0]] + b[1..];
    }
  }

  lemma {:induction false} MembersPrefixFree(v: Any, keys: set<string>, r: string, w: Any, names: set<string>,
          s: string)
    requires v.Map? && keys <= v.entries.Keys && w.Map? && names <= w.entries.Keys
    requires CodeMembers(v, keys) + r == CodeMembers(w, names) + s
    ensures keys == names && r == s && forall k | k in keys :: v.entries[k] == w.entries[k]
    decreases v, 0, |keys|
  {
    hide Code, CodeText;
    if keys == {} || names == {} {
      assert (CodeMembers(v, keys) + r)[0] == if keys == {} then '.' else '|';
      assert (CodeMembers(w, names) + s)[0] == if names == {} then '.' else '|';
      SameFirst('.', r, '.', s);
    } else {
      var k, l := JsonWriter.Pick(keys), JsonWriter.Pick(names);
      var x, y := CodeMembers(v, keys - {k}), CodeMembers(w, names - {l});
      assert CodeMembers(v, keys) + r == ['|'] + (CodeText(k) + (Code(v.entries[k]) + (x + r)));
      assert CodeMembers(w, names) + s == ['|'] + (CodeText(l) + (Code(w.entries[l]) + (y + s)));
      SameFirst('|', CodeText(k) + (Code(v.entries[k]) + (x + r)), '|', CodeText(l) + (Code(w.entries[l]) + (y + s)));
      TextPrefixFree(k, Code(v.entries[k]) + (x + r), l, Code(w.entries[l]) + (y + s));
      PrefixFree(v.entries[k], x + r, w.entries[l], y + s);
      MembersPrefixFree(v, keys - {k}, r, w, names - {l}, s);
      assert keys == (keys - {k}) + {k} && names == (names - {l}) + {l};
    }
  }

  /* ---------- A codec ---------- */

  function PayloadValue(p: Audit.Payload): Any {
    List([Int(p.timestamp), Str(p.event), Str(p.tool), Str(p.toolCallId), Str(p.threadId), Str(p.requestId),
          Int(p.iteration), p.arguments, Str(p.argsHash), Str(p.decision), Bool(p.approved), Str(p.error),
          Str(p.prevHash)])
  }

  function EntryValue(e: Audit.Entry): Any {
    List([PayloadValue(Audit.PayloadOf(e)), Str(e.hash)])
  }

  ghost function ParseEntry(line: string): Option<Audit.Entry> {
    if e: Audit.Entry :| Code(EntryValue(e)) == line && IsJson(e.arguments) then Some(e) else None
  }

  ghost function SomeCodec(): Audit.Codec {
    Audit.Codec(p => Code(PayloadValue(p)), e => Code(EntryValue(e)), ParseEntry)
  }

  lemma {:induction false} CodeInjective(v: Any, w: Any)
    requires Code(v) == Code(w)
    ensures v == w
  {
    assert Code(v) + "" == Code(w) + "";
    PrefixFree(v, "", w, "");
  }

  lemma {:induction false} PayloadValueInjective(p: Audit.Payload, q: Audit.Payload)
    requires PayloadValue(p) == PayloadValue(q)
    ensures p == q
  {
    var a, b := PayloadValue(p).items, PayloadValue(q).items;
    assert a[0] == b[0] && a[1] == b[1] && a[2] == b[2] && a[3] == b[3] && a[4] == b[4] && a[5] == b[5] && a[6] == b[6];
    assert a[7] == b[7] && a[8] == b[8] && a[9] == b[9] && a[10] == b[10] && a[11] == b[11] && a[12] == b[12];
  }

  lemma {:induction false} EntryIsParsed(e: Audit.Entry)
    requires IsJson(e.arguments)
    ensures ParseEntry(Code(EntryValue(e))) == Some(e)
  {
    var line := Code(EntryValue(e));
    forall f: Audit.Entry | Code(EntryValue(f)) == line ensures f == e {
      CodeInjective(EntryValue(e), EntryValue(f));
      var a, b := EntryValue(e).items, EntryValue(f).items;
      assert a[0] == b[0] && a[1] == b[1];
      PayloadValueInjective(Audit.PayloadOf(e), Audit.PayloadOf(f));
    }
  }

  lemma ParsedIsJson(l: string)
    requires ParseEntry(l).Some?
    ensures IsJson(ParseEntry(l).value.arguments)
  {
    hide Code, EntryValue, IsJson;
  }

  /** There is a codec as the theorems about the log ask for. */
  lemma {:induction false} SoundCodecExists()
    ensures SomeCodec().Sound() && SomeCodec().CollisionFree()
  {
    var c := SomeCodec();
    hide Code, PayloadValue, EntryValue, ParseEntry;
    forall p ensures c.sha(p) != "" {
      CodeParts(PayloadValue(p));
    }
    forall e: Audit.Entry | IsJson(e.arguments) ensures c.print_(e) != "" && c.parse(c.print_(e)) == Some(e) {
      CodeParts(EntryValue(e));
      EntryIsParsed(e);
    }
    forall l | c.parse(l).Some? ensures IsJson(c.parse(l).value.arguments) {
      ParsedIsJson(l);
    }
    forall p, q | c.sha(p) == c.sha(q) ensures p == q {
      CodeInjective(PayloadValue(p), PayloadValue(q));
      PayloadValueInjective(p, q);
    }
  }

  /* ---------- A JSON library ---------- */

  /** Reads the digits that SomeNumbers prints for a number; any other text is read as 0. */
  ghost function ParseDecimal(text: string): (bits: Option<nat>)
    ensures bits.Some? && IsFinite(bits.value)
  {
    if bits: nat :| Decimal(bits) == text && IsFinite(bits) then Some(bits) else Some(0)
  }

  ghost function SomeNumbers(): JsonWriter.Numbers {
    JsonWriter.Numbers(Decimal, ParseDecimal)
  }

  lemma {:induction false} SomeNumbersExact()
    ensures SomeNumbers().Exact()
  {
    hide IsFinite, ParseDecimal, Decimal, JsonWriter.IsNumber, JsonWriter.IntText, Is64Bit;
    forall bits: nat | IsFinite(bits)
      ensures JsonWriter.IsNumber(Decimal(bits)) && ParseDecimal(Decimal(bits)) == Some(bits)
    {
      JsonWriter.IntIsNumber(bits);
      NaturalText(bits);
      DecimalIsParsed(bits);
    }
  }

  lemma NaturalText(n: nat)
    ensures JsonWriter.IntText(n) == Decimal(n)
  {
  }

  lemma {:induction false} DecimalIsParsed(bits: nat)
    requires IsFinite(bits)
    ensures ParseDecimal(Decimal(bits)) == Some(bits)
  {
    hide IsFinite, Decimal;
    forall b: nat | Decimal(b) == Decimal(bits) ensures b == bits {
      DecimalInjective(b, bits);
    }
  }

  /** There is a JSON library as the theorems about messages ask for, which reads every text as JSON is read. */
  lemma {:induction false} FaithfulJsonExists()
    ensures
      var json := JsonWriter.Library(SomeNumbers());
      json.Faithful() && json.Decodes() && ToolMessages.ReadsTexts(json, SomeNumbers().floats)
  {
    var json := JsonWriter.Library(SomeNumbers());
    SomeNumbersExact();
    JsonWriter.LibraryIsFaithful(SomeNumbers());
    forall text | json.parse(text).Some? ensures IsJson(json.parse(text).value) {
      JsonText.ReadIsJson(SomeNumbers().floats, text);
    }
  }
}
