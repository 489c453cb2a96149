/** Writing JSON texts (encoding/json, section 2 of RFC 8259), and reading them back. */
module JsonWriter {
  import opened JsonText
  import opened Values
  import Text

  const HEX := "0123456789abcdef"

  /** strconv.FormatFloat and ParseFloat. */
  datatype Numbers = Numbers(format: nat -> string, floats: Floats) {
    /** Formatting a number gives a JSON number, which is read back as the same bits; the digits of an integer
        are read as some number. */
    ghost predicate Exact() {
      && (forall bits: nat | IsFinite(bits) :: IsNumber(format(bits)) && floats(format(bits)) == Some(bits))
      && (forall k | Is64Bit(k) :: floats(IntText(k)).Some? && IsFinite(floats(IntText(k)).value))
    }

    /** The bits that an integer is read as. */
    function Round(k: int): nat {
      if floats(IntText(k)).Some? then floats(IntText(k)).value else 0
    }
  }

  /** strconv.AppendInt. */
  function IntText(k: int): string {
    if k < 0 then "-" + Text.Decimal(-k) else Text.Decimal(k)
  }

  /** Where the reader stands after the beginning of a number. */
  function PhaseAfter(s: string): Option<Phase>
    requires s != ""
  {
    if |s| == 1 then
      if s[0] == '-' then Some(Minus)
      else if s[0] == '0' then Some(Zero)
      else if '1' <= s[0] <= '9' then Some(Digits)
      else None
    else
      match PhaseAfter(s[..|s| - 1])
      case None => None
      case Some(phase) => NextPhase(phase, s[|s| - 1])
  }

  predicate IsNumber(s: string) {
    s != "" && PhaseAfter(s).Some? && PhaseAfter(s).value !in {Minus, Point, Exponent, Sign}
  }

  /* ---------- Strings ---------- */

  function HexText(code: nat): (h: string)
    requires code < 0x10000
    ensures |h| == 4
  {
    [HEX[code / 16 / 16 / 16], HEX[code / 16 / 16 % 16], HEX[code / 16 % 16], HEX[code % 16]]
  }

  /** One character in a string; browsers' special characters are written as code points. */
  function Escape(c: char): string {
    if c == '"' then "\\\""
    else if c == '\\' then "\\\\"
    else if c == '\U{8}' then "\\b"
    else if c == '\U{C}' then "\\f"
    else if c == '\n' then "\\n"
    else if c == '\r' then "\\r"
    else if c == '\t' then "\\t"
    else if c < ' ' || c in "<>&\U{2028}\U{2029}" then "\\u" + HexText(c as int)
    else [c]
  }

  function Quote(s: string): string {
    if s == "" then "" else Quote(s[..|s| - 1]) + Escape(s[|s| - 1])
  }

  lemma HexDigits(n: nat)
    requires n < 16
    ensures IsHex(HEX[n]) && HexDigit(HEX[n]) == n
  {
  }

  lemma {:induction false} HexTextValue(code: nat)
    requires code < 0x10000
    ensures HexValue(HexText(code)) == code && forall i | 0 <= i < 4 :: IsHex(HexText(code)[i])
  {
    hide HexDigit, IsHex;
    var a, b, c, d := code / 16 / 16 / 16, code / 16 / 16 % 16, code / 16 % 16, code % 16;
    HexDigits(a);
    HexDigits(b);
    HexDigits(c);
    HexDigits(d);
    assert code == ((a * 16 + b) * 16 + c) * 16 + d;
  }

  lemma {:induction false} UnquoteChar(c: char, rest: string)
    requires c != '\\'
    ensures Unquote([c] + rest) == [c] + Unquote(rest)
  {
    assert ([c] + rest)[1..] == rest;
  }

  lemma {:induction false} UnquoteShort(c: char, rest: string)
    requires c != 'u'
    ensures Unquote(['\\', c] + rest) == [Unescaped(c)] + Unquote(rest)
  {
    assert (['\\', c] + rest)[2..] == rest;
  }

  lemma {:induction false} UnquoteHex(h: string, rest: string)
    requires |h| == 4 && !(0xD800 <= HexValue(h) < 0xE000)
    ensures Unquote("\\u" + h + rest) == [HexValue(h) as char] + Unquote(rest)
  {
    hide HexDigit;
    var s := "\\u" + h + rest;
    assert s[2..6] == h && s[6..] == rest;
  }

  /** What an escape looks like: the character itself, a short escape, or its code point. */
  lemma {:induction false} EscapeForms(c: char)
    ensures
      var e := Escape(c);
      || (e == [c] && c >= ' ' && c != '"' && c != '\\')
      || (|e| == 2 && e[0] == '\\' && e[1] != 'u' && IsEscape(e[1]) && Unescaped(e[1]) == c)
      || (c as int < 0x10000 && e == "\\u" + HexText(c as int))
  {
    hide HexText;
  }

  lemma {:induction false} UnquoteEscape(c: char, rest: string)
    ensures Unquote(Escape(c) + rest) == [c] + Unquote(rest)
  {
    hide Escape, Unquote, HexText, HexValue;
    EscapeForms(c);
    var e := Escape(c);
    if e == [c] && c != '\\' {
      UnquoteChar(c, rest);
    } else if |e| == 2 && e[0] == '\\' && e[1] != 'u' {
      UnquoteShort(e[1], rest);
      assert e == ['\\', e[1]];
    } else {
      HexTextValue(c as int);
      UnquoteHex(HexText(c as int), rest);
    }
  }

  lemma {:induction false} UnquoteQuote(s: string, rest: string)
    ensures Unquote(Quote(s) + rest) == s + Unquote(rest)
    decreases |s|
  {
    hide Unquote, Escape;
    if s == "" {
      assert Quote(s) + rest == rest && s + Unquote(rest) == Unquote(rest);
    } else {
      var init, c := s[..|s| - 1], s[|s| - 1];
      UnquoteQuote(init, Escape(c) + rest);
      UnquoteEscape(c, rest);
      assert Quote(s) + rest == Quote(init) + (Escape(c) + rest);
      assert s + Unquote(rest) == init + ([c] + Unquote(rest));
    }
  }

  lemma {:induction false} FeedEscape(floats: Floats, open: seq<Frame>, name: bool, raw: string, c: char)
    ensures Feed(floats, Reader(open, Quoted(name, raw)), Escape(c)) == Reader(open, Quoted(name, raw + Escape(c)))
  {
    hide Escape, HexText, Step, Feed, IsEscape;
    EscapeForms(c);
    var e := Escape(c);
    if |e| == 2 && IsEscape(e[1]) {
      FeedShort(floats, open, name, raw, e[1]);
      assert e == ['\\', e[1]];
    } else if e == [c] && c >= ' ' && c != '"' && c != '\\' {
      FeedPlain(floats, open, name, raw, e);
    } else {
      HexTextValue(c as int);
      FeedCodePoint(floats, open, name, raw, HexText(c as int));
    }
  }

  lemma {:induction false} FeedShort(floats: Floats, open: seq<Frame>, name: bool, raw: string, c: char)
    requires IsEscape(c)
    ensures Feed(floats, Reader(open, Quoted(name, raw)), ['\\', c]) == Reader(open, Quoted(name, raw + ['\\', c]))
  {
    FeedTwo(floats, Reader(open, Quoted(name, raw)), '\\', c);
    assert raw + ['\\'] + [c] == raw + ['\\', c];
  }

  lemma {:induction false} FeedCodePoint(floats: Floats, open: seq<Frame>, name: bool, raw: string, h: string)
    requires |h| == 4 && forall i | 0 <= i < 4 :: IsHex(h[i])
    ensures Feed(floats, Reader(open, Quoted(name, raw)), "\\u" + h) == Reader(open, Quoted(name, raw + ("\\u" + h)))
  {
    hide Feed;
    var r := Reader(open, Quoted(name, raw));
    FeedConcat(floats, r, "\\u", h);
    FeedTwo(floats, r, '\\', 'u');
    assert "\\u" == ['\\', 'u'] && raw + ['\\'] + ['u'] == raw + "\\u";
    FeedHex(floats, open, name, raw + "\\u", h);
    assert raw + "\\u" + h == raw + ("\\u" + h);
  }

  lemma {:induction false} FeedHex(floats: Floats, open: seq<Frame>, name: bool, raw: string, h: string)
    requires |h| == 4 && forall i | 0 <= i < 4 :: IsHex(h[i])
    ensures Feed(floats, Reader(open, Hex(name, raw, 4)), h) == Reader(open, Quoted(name, raw + h))
  {
    hide Feed, IsHex;
    var r := Reader(open, Hex(name, raw, 4));
    FeedTwo(floats, r, h[0], h[1]);
    FeedTwo(floats, Reader(open, Hex(name, raw + [h[0]] + [h[1]], 2)), h[2], h[3]);
    FeedConcat(floats, r, [h[0], h[1]], [h[2], h[3]]);
    assert h == [h[0], h[1]] + [h[2], h[3]];
    assert raw + [h[0]] + [h[1]] + [h[2]] + [h[3]] == raw + h;
  }

  lemma {:induction false} FeedQuote(floats: Floats, open: seq<Frame>, name: bool, s: string)
    ensures Feed(floats, Reader(open, Quoted(name, "")), Quote(s)) == Reader(open, Quoted(name, Quote(s)))
  {
    hide Step;
    if s != "" {
      var init, c := s[..|s| - 1], s[|s| - 1];
      FeedQuote(floats, open, name, init);
      FeedEscape(floats, open, name, Quote(init), c);
      FeedConcat(floats, Reader(open, Quoted(name, "")), Quote(init), Escape(c));
    }
  }

  /* ---------- Values ---------- */

  /** Some key; which one does not matter, for reading takes members in any order. */
  ghost function Pick(keys: set<string>): (k: string)
    requires keys != {}
    ensures k in keys
  {
    var k :| k in keys;
    k
  }

  /** json.Marshal, for the values that it prints. */
  ghost function Write(n: Numbers, v: Any): string
    decreases v, 1, 0
  {
    match v
    case Nil => "null"
    case Bool(b) => if b then "true" else "false"
    case Float64(bits) => n.format(bits)
    case Int(k) => IntText(k)
    case Str(s) => WriteString(s)
    case List(items) => "[" + WriteItems(n, items) + "]"
    case Strings(names) => "[" + WriteStrings(names) + "]"
    case Map(entries) => "{" + WriteMembers(n, v, entries.Keys) + "}"
    case Opaque => ""
  }

  function WriteString(s: string): string {
    "\"" + Quote(s) + "\""
  }

  function WriteStrings(names: seq<string>): string {
    if names == [] then ""
    else if |names| == 1 then WriteString(names[0])
    else WriteStrings(names[..|names| - 1]) + "," + WriteString(names[|names| - 1])
  }

  ghost function WriteItems(n: Numbers, items: seq<Any>): string
    decreases items, 0, 0
  {
    if items == [] then ""
    else if |items| == 1 then Write(n, items[0])
    else WriteItems(n, items[..|items| - 1]) + "," + Write(n, items[|items| - 1])
  }

  /** Some of the members of an object. */
  ghost function WriteMembers(n: Numbers, v: Any, keys: set<string>): string
    requires v.Map? && keys <= v.entries.Keys
    decreases v, 0, |keys|
  {
    if keys == {} then ""
    else
      var k := Pick(keys);
      WriteMembers(n, v, keys - {k}) + (if keys == {k} then "" else ",") + WriteMember(n, v, k)
  }

  ghost function WriteMember(n: Numbers, v: Any, k: string): string
    requires v.Map? && k in v.entries
    decreases v, 0, 0
  {
    "\"" + Quote(k) + "\":" + Write(n, v.entries[k])
  }

  /** Some of the members, as they are read back. */
  function Part(n: Numbers, v: Any, keys: set<string>): Object
    requires v.Map? && keys <= v.entries.Keys
  {
    map k | k in keys :: Decoded(n.Round, v.entries[k])
  }

  /* ---------- Reading back what was written ---------- */

  /** The reader has read a value, or all of a number that might still go on. */
  ghost predicate Completes(n: Numbers, r: Reader, done: Reader) {
    && (done.mode.Next? || done.mode.Done?)
    && (r == done || (r.mode.Number? && EndNumber(n.floats, r.open, r.mode.phase, r.mode.text) == done))
  }

  lemma {:induction false} StepBehindValue(n: Numbers, r: Reader, done: Reader, c: char)
    requires Completes(n, r, done) && (c == ',' || c == ']' || c == '}')
    ensures Step(n.floats, r, c) == AfterValue(done, c)
  {
  }

  lemma {:induction false} FinishBehindValue(n: Numbers, r: Reader, v: Any)
    requires Completes(n, r, Reader([], Done(v)))
    ensures Finish(n.floats, r) == Some(v)
  {
  }

  lemma NumberStep(floats: Floats, open: seq<Frame>, phase: Phase, text: string, c: char)
    requires NextPhase(phase, c).Some?
    ensures Step(floats, Reader(open, Number(phase, text)), c) ==
      Reader(open, Number(NextPhase(phase, c).value, text + [c]))
  {
    hide NextPhase;
  }

  lemma {:induction false} FeedNumber(floats: Floats, open: seq<Frame>, s: string)
    requires s != "" && PhaseAfter(s).Some?
    ensures Feed(floats, Reader(open, Value), s) == Reader(open, Number(PhaseAfter(s).value, s))
    decreases |s|
  {
    hide NextPhase, Feed;
    if |s| == 1 {
      FeedOne(floats, Reader(open, Value), s[0]);
      assert s == [s[0]];
    } else {
      var init, c := s[..|s| - 1], s[|s| - 1];
      assert s == init + [c];
      FeedNumber(floats, open, init);
      FeedSnoc(floats, Reader(open, Value), init, c);
      NumberStep(floats, open, PhaseAfter(init).value, init, c);
    }
  }

  lemma {:induction false} FeedTrue(floats: Floats, open: seq<Frame>)
    ensures Feed(floats, Reader(open, Value), "true") == Put(open, Bool(true))
  {
    hide Put;
    FeedOne(floats, Reader(open, Value), 't');
    FeedSnoc(floats, Reader(open, Value), "t", 'r');
    FeedSnoc(floats, Reader(open, Value), "tr", 'u');
    FeedSnoc(floats, Reader(open, Value), "tru", 'e');
    assert "t" + ['r'] == "tr" && "tr" + ['u'] == "tru" && "tru" + ['e'] == "true";
    assert "rue"[1..] == "ue" && "ue"[1..] == "e";
  }

  lemma {:induction false} FeedNull(floats: Floats, open: seq<Frame>)
    ensures Feed(floats, Reader(open, Value), "null") == Put(open, Nil)
  {
    hide Put;
    FeedOne(floats, Reader(open, Value), 'n');
    FeedSnoc(floats, Reader(open, Value), "n", 'u');
    FeedSnoc(floats, Reader(open, Value), "nu", 'l');
    FeedSnoc(floats, Reader(open, Value), "nul", 'l');
    assert "n" + ['u'] == "nu" && "nu" + ['l'] == "nul" && "nul" + ['l'] == "null";
    assert "ull"[1..] == "ll" && "ll"[1..] == "l";
  }

  lemma {:induction false} FeedString(floats: Floats, open: seq<Frame>, s: string)
    ensures Feed(floats, Reader(open, Value), WriteString(s)) == Put(open, Str(s))
  {
    hide Feed, Quote, Put;
    var r := Reader(open, Value);
    FeedOne(floats, r, '"');
    FeedConcat(floats, r, "\"", Quote(s));
    FeedQuote(floats, open, false, s);
    FeedConcat(floats, r, "\"" + Quote(s), "\"");
    FeedOne(floats, Reader(open, Quoted(false, Quote(s))), '"');
    QuoteUnquote(s);
  }

  lemma {:induction false} QuoteUnquote(s: string)
    ensures Unquote(Quote(s)) == s
  {
    UnquoteQuote(s, "");
    assert Quote(s) + "" == Quote(s) && s + Unquote("") == s;
  }

  /** The name of a member, with its colon. */
  lemma {:induction false} FeedName(floats: Floats, outer: seq<Frame>, members: Object, key: string, mode: Mode,
          k: string)
    requires mode == Name || mode == NameOrEnd
    ensures Feed(floats, Reader(outer + [InObject(members, key)], mode), "\"" + Quote(k) + "\":") ==
      Reader(outer + [InObject(members, k)], Value)
  {
    hide Feed, Quote, Unquote;
    var open := outer + [InObject(members, key)];
    var r := Reader(open, mode);
    FeedOne(floats, r, '"');
    FeedConcat(floats, r, "\"", Quote(k));
    FeedQuote(floats, open, true, k);
    FeedConcat(floats, r, "\"" + Quote(k), "\":");
    QuoteColon(floats, open, true, Quote(k));
    QuoteUnquote(k);
    assert open[..|open| - 1] == outer;
  }

  /** A text that does not close the list it begins in. */
  predicate BeginsItem(s: string) {
    s != "" && !IsBlank(s[0]) && s[0] != ']'
  }

  lemma {:induction false} FirstCharacter(n: Numbers, v: Any)
    requires n.Exact() && IsPrintable(v)
    ensures BeginsItem(Write(n, v))
  {
    hide Quote, WriteItems, WriteMembers, WriteStrings, PhaseAfter, Is64Bit, IsFinite;
    if v.Float64? {
      NumberBegins(n.format(v.bits));
    } else if v.Int? {
      IntIsNumber(v.n);
      NumberBegins(IntText(v.n));
    }
  }

  lemma {:induction false} DigitRange(d: nat)
    requires d < 10
    ensures '0' <= Text.DIGITS[d] <= '9' && (Text.DIGITS[d] == '0' <==> d == 0)
  {
  }

  lemma {:induction false} DecimalPhase(k: nat)
    ensures PhaseAfter(Text.Decimal(k)) == Some(if k == 0 then Zero else Digits)
  {
    var s := Text.Decimal(k);
    DigitRange(k % 10);
    if k >= 10 {
      DecimalPhase(k / 10);
      assert s[..|s| - 1] == Text.Decimal(k / 10) && s[|s| - 1] == Text.DIGITS[k % 10];
    }
  }

  lemma {:induction false} SignBefore(s: string)
    requires s != "" && PhaseAfter(s).Some? && s[0] != '-'
    ensures PhaseAfter("-" + s) == PhaseAfter(s)
    decreases |s|
  {
    hide NextPhase;
    var signed := "-" + s;
    assert signed[..|s|] == "-" + s[..|s| - 1] && signed[|s|] == s[|s| - 1];
    if |s| == 1 {
      SignedDigit(s[0]);
    } else {
      SignBefore(s[..|s| - 1]);
    }
  }

  lemma SignedDigit(c: char)
    requires '0' <= c <= '9'
    ensures PhaseAfter("-") == Some(Minus) && NextPhase(Minus, c) == PhaseAfter([c])
  {
  }

  lemma BeginsWithSign(k: int)
    ensures IntText(k) != "" && (IntText(k)[0] == '-' <==> k < 0)
  {
    hide Text.Decimal;
    if k >= 0 {
      assert Text.Decimal(k)[0] in Text.DIGITS;
    }
  }

  lemma {:induction false} IntIsNumber(k: int)
    ensures IsNumber(IntText(k))
  {
    var digits := Text.Decimal(if k < 0 then -k else k);
    DecimalPhase(if k < 0 then -k else k);
    BeginsWithSign(if k < 0 then -k else k);
    SignBefore(digits);
  }

  lemma {:induction false} NumberBegins(s: string)
    requires s != "" && PhaseAfter(s).Some?
    ensures s[0] == '-' || '0' <= s[0] <= '9'
    decreases |s|
  {
    if |s| > 1 {
      NumberBegins(s[..|s| - 1]);
    }
  }

  /** In a list that has just been opened, a value is read like any other. */
  lemma {:induction false} FirstItem(floats: Floats, open: seq<Frame>, s: string)
    requires BeginsItem(s)
    ensures Feed(floats, Reader(open, ValueOrEnd), s) == Feed(floats, Reader(open, Value), s)
  {
    FeedFirst(floats, Reader(open, ValueOrEnd), s);
    FeedFirst(floats, Reader(open, Value), s);
  }

  lemma {:induction false} PutIsComplete(n: Numbers, r: Reader, open: seq<Frame>, v: Any)
    requires r == Put(open, v)
    ensures Completes(n, r, Put(open, v))
  {
  }

  /** Whatever is open around it: reading what was written for a value puts that value there, with its integers
      as they are read. */
  lemma {:induction false} ValueIsReadBack(n: Numbers, open: seq<Frame>, v: Any)
    requires n.Exact() && IsPrintable(v)
    ensures Completes(n, Feed(n.floats, Reader(open, Value), Write(n, v)), Put(open, Decoded(n.Round, v)))
    decreases v, 1, 0
  {
    hide Feed, Step, Put, IsNumber, WriteString, IsFinite, Is64Bit, IntText;
    match v {
      case Nil => FeedNull(n.floats, open);
      case Bool(b) =>
        if b {
          FeedTrue(n.floats, open);
        } else {
          FeedFalse(n.floats, open);
        }
      case Float64(bits) => NumberIsReadBack(n, open, n.format(bits), bits);
      case Int(k) => IntIsReadBack(n, open, k);
      case Str(t) => FeedString(n.floats, open, t);
      case List(items) => ListIsReadBack(n, open, items);
      case Strings(names) => StringsAreReadBack(n, open, names);
      case Map(entries) => ObjectIsReadBack(n, open, v);
    }
    PutIsComplete(n, Put(open, Decoded(n.Round, v)), open, Decoded(n.Round, v));
  }

  lemma {:induction false} NumberIsReadBack(n: Numbers, open: seq<Frame>, text: string, bits: nat)
    requires IsNumber(text) && n.floats(text) == Some(bits)
    ensures Completes(n, Feed(n.floats, Reader(open, Value), text), Put(open, Float64(bits)))
  {
    hide Feed, Step;
    FeedNumber(n.floats, open, text);
  }

  lemma {:induction false} IntIsReadBack(n: Numbers, open: seq<Frame>, k: int)
    requires n.Exact() && Is64Bit(k)
    ensures Completes(n, Feed(n.floats, Reader(open, Value), IntText(k)), Put(open, Float64(n.Round(k))))
  {
    hide Feed, Completes, Put, IsNumber, IntText, IsFinite;
    IntIsNumber(k);
    NumberIsReadBack(n, open, IntText(k), n.Round(k));
  }

  /** A list, from what is between its brackets. */
  lemma {:induction false} BracketsAreReadBack(n: Numbers, open: seq<Frame>, text: string, items: seq<Any>)
    requires items == [] ==> text == ""
    requires items != [] ==> Completes(n, Feed(n.floats, Reader(open + [InList([])], ValueOrEnd), text),
                                       Reader(open + [InList(items)], Next))
    ensures Feed(n.floats, Reader(open, Value), "[" + text + "]") == Put(open, List(items))
  {
    hide Feed, Completes;
    var r := Reader(open, Value);
    var inside := Reader(open + [InList([])], ValueOrEnd);
    FeedOne(n.floats, r, '[');
    FeedConcat(n.floats, r, "[", text);
    FeedConcat(n.floats, r, "[" + text, "]");
    var last := Feed(n.floats, inside, text);
    FeedOne(n.floats, last, ']');
    if items == [] {
      NothingFed(n.floats, inside);
      assert inside.open[..|inside.open| - 1] == open;
    } else {
      var done := Reader(open + [InList(items)], Next);
      StepBehindValue(n, last, done, ']');
      assert done.open[..|done.open| - 1] == open;
    }
  }

  /** One more item, behind others or as the first. */
  lemma {:induction false} NextItem(n: Numbers, outer: seq<Frame>, items: seq<Any>, text: string, v: Any, item: string)
    requires items != [] ==> Completes(n, Feed(n.floats, Reader(outer + [InList([])], ValueOrEnd), text),
                                       Reader(outer + [InList(items)], Next))
    requires var open := outer + [InList(items)];
             Completes(n, Feed(n.floats, Reader(open, Value), item), Put(open, v)) && BeginsItem(item)
    ensures
      var longer := if items == [] then item else text + "," + item;
      Completes(n, Feed(n.floats, Reader(outer + [InList([])], ValueOrEnd), longer),
                Reader(outer + [InList(items + [v])], Next))
  {
    hide Feed, Completes, Step;
    var r, open := Reader(outer + [InList([])], ValueOrEnd), outer + [InList(items)];
    assert open[..|open| - 1] == outer;
    if items == [] {
      FirstItem(n.floats, open, item);
    } else {
      StepBehindValue(n, Feed(n.floats, r, text), Reader(open, Next), ',');
      FeedConcat(n.floats, r, text, ",");
      FeedOne(n.floats, Feed(n.floats, r, text), ',');
      FeedConcat(n.floats, r, text + ",", item);
    }
  }

  lemma {:induction false} ListIsReadBack(n: Numbers, open: seq<Frame>, items: seq<Any>)
    requires n.Exact() && forall x | x in items :: IsPrintable(x)
    ensures Feed(n.floats, Reader(open, Value), "[" + WriteItems(n, items) + "]") ==
      Put(open, List(DecodedAll(n.Round, items)))
    decreases items, 1, 0
  {
    hide Feed, Write, Completes, Put;
    if items != [] {
      ItemsAreReadBack(n, open, items);
    }
    BracketsAreReadBack(n, open, WriteItems(n, items), DecodedAll(n.Round, items));
  }

  lemma {:induction false} ItemsAreReadBack(n: Numbers, outer: seq<Frame>, items: seq<Any>)
    requires n.Exact() && items != [] && forall x | x in items :: IsPrintable(x)
    ensures Completes(n, Feed(n.floats, Reader(outer + [InList([])], ValueOrEnd), WriteItems(n, items)),
                      Reader(outer + [InList(DecodedAll(n.Round, items))], Next))
    decreases items, 0, 0
  {
    hide Feed, Write, Completes, Put, Decoded, BeginsItem;
    var k := |items| - 1;
    var init, v := items[..k], items[k];
    var before := DecodedAll(n.Round, init);
    assert v in items && items == init + [v] && forall x | x in init :: x in items;
    assert DecodedAll(n.Round, items) == before + [Decoded(n.Round, v)];
    ValueIsReadBack(n, outer + [InList(before)], v);
    FirstCharacter(n, v);
    if k > 0 {
      ItemsAreReadBack(n, outer, init);
    }
    NextItem(n, outer, before, WriteItems(n, init), Decoded(n.Round, v), Write(n, v));
  }

  lemma {:induction false} StringsAreReadBack(n: Numbers, open: seq<Frame>, names: seq<string>)
    ensures Feed(n.floats, Reader(open, Value), "[" + WriteStrings(names) + "]") == Put(open, List(Texts(names)))
  {
    hide Feed, Completes, Put;
    if names != [] {
      NamesAreReadBack(n, open, names);
    }
    BracketsAreReadBack(n, open, WriteStrings(names), Texts(names));
  }

  lemma {:induction false} NamesAreReadBack(n: Numbers, outer: seq<Frame>, names: seq<string>)
    requires names != []
    ensures Completes(n, Feed(n.floats, Reader(outer + [InList([])], ValueOrEnd), WriteStrings(names)),
                      Reader(outer + [InList(Texts(names))], Next))
    decreases |names|
  {
    hide Feed, Completes, Put, Quote;
    var k := |names| - 1;
    var before, open := Texts(names[..k]), outer + [InList(Texts(names[..k]))];
    assert Texts(names) == before + [Str(names[k])];
    FeedString(n.floats, open, names[k]);
    PutIsComplete(n, Put(open, Str(names[k])), open, Str(names[k]));
    if k > 0 {
      NamesAreReadBack(n, outer, names[..k]);
    }
    NextItem(n, outer, before, WriteStrings(names[..k]), Str(names[k]), WriteString(names[k]));
  }

  lemma {:induction false} ObjectIsReadBack(n: Numbers, open: seq<Frame>, v: Any)
    requires n.Exact() && v.Map? && IsPrintable(v)
    ensures Feed(n.floats, Reader(open, Value), "{" + WriteMembers(n, v, v.entries.Keys) + "}") ==
      Put(open, Decoded(n.Round, v))
    decreases v, 0, |v.entries.Keys| + 1
  {
    hide Feed, Write, WriteMembers, Completes;
    var r, keys := Reader(open, Value), v.entries.Keys;
    var inside := Reader(open + [InObject(map[], "")], NameOrEnd);
    var text := WriteMembers(n, v, keys);
    FeedOne(n.floats, r, '{');
    FeedConcat(n.floats, r, "{", text);
    FeedConcat(n.floats, r, "{" + text, "}");
    var last := Feed(n.floats, inside, text);
    FeedOne(n.floats, last, '}');
    var members := Part(n, v, keys);
    assert Map(members) == Decoded(n.Round, v);
    if keys == {} {
      NoMembers(n, v);
      NothingFed(n.floats, inside);
      assert inside.open[..|inside.open| - 1] == open && members == map[];
    } else {
      MembersAreReadBack(n, open, v, keys);
      var done := Reader(open + [InObject(members, Pick(keys))], Next);
      StepBehindValue(n, last, done, '}');
      assert done.open[..|done.open| - 1] == open;
    }
  }

  lemma {:induction false} NoMembers(n: Numbers, v: Any)
    requires v.Map?
    ensures WriteMembers(n, v, {}) == ""
  {
  }

  lemma {:induction false} MembersAreReadBack(n: Numbers, outer: seq<Frame>, v: Any, keys: set<string>)
    requires n.Exact() && v.Map? && IsPrintable(v) && keys <= v.entries.Keys && keys != {}
    ensures Completes(n, Feed(n.floats, Reader(outer + [InObject(map[], "")], NameOrEnd), WriteMembers(n, v, keys)),
                      Reader(outer + [InObject(Part(n, v, keys), Pick(keys))], Next))
    decreases v, 0, |keys|
  {
    hide Feed, Write, Completes, Step, WriteMember, Decoded;
    var r, k := Reader(outer + [InObject(map[], "")], NameOrEnd), Pick(keys);
    var rest := keys - {k};
    var before := Part(n, v, rest);
    assert before[k := Decoded(n.Round, v.entries[k])] == Part(n, v, keys);
    if rest == {} {
      assert before == map[] && keys == {k};
      NoMembers(n, v);
      assert WriteMembers(n, v, keys) == WriteMember(n, v, k);
      MemberIsReadBack(n, outer, v, before, "", NameOrEnd, k);
    } else {
      MembersAreReadBack(n, outer, v, rest);
      var text, done := WriteMembers(n, v, rest), Reader(outer + [InObject(before, Pick(rest))], Next);
      assert keys != {k};
      StepBehindValue(n, Feed(n.floats, r, text), done, ',');
      FeedConcat(n.floats, r, text, ",");
      FeedOne(n.floats, Feed(n.floats, r, text), ',');
      FeedConcat(n.floats, r, text + ",", WriteMember(n, v, k));
      MemberIsReadBack(n, outer, v, before, Pick(rest), Name, k);
    }
  }

  lemma {:induction false} MemberIsReadBack(n: Numbers, outer: seq<Frame>, v: Any, members: Object, key: string,
          mode: Mode, k: string)
    requires n.Exact() && v.Map? && IsPrintable(v) && k in v.entries && (mode == Name || mode == NameOrEnd)
    ensures Completes(n, Feed(n.floats, Reader(outer + [InObject(members, key)], mode), WriteMember(n, v, k)),
                      Reader(outer + [InObject(members[k := Decoded(n.Round, v.entries[k])], k)], Next))
    decreases v, 0, 0
  {
    hide Feed, Write, Completes, Quote, Decoded;
    var open := outer + [InObject(members, k)];
    FeedName(n.floats, outer, members, key, mode, k);
    var r := Reader(outer + [InObject(members, key)], mode);
    FeedConcat(n.floats, r, "\"" + Quote(k) + "\":", Write(n, v.entries[k]));
    ValueIsReadBack(n, open, v.entries[k]);
    assert open[..|open| - 1] == outer;
  }

  /** The JSON library with a way to print numbers. */
  ghost function Library(n: Numbers): Json {
    Json(v => Write(n, v), text => Read(n.floats, text), n.Round)
  }

  /** Every value that is printed is read back, through nested lists and objects and all escapes, with its
      integers as they are read. */
  lemma {:induction false} LibraryIsFaithful(n: Numbers)
    requires n.Exact()
    ensures Library(n).Faithful()
    ensures forall v | IsJson(v) :: Library(n).parse(Library(n).print_(v)) == Some(v)
  {
    hide Feed, Write, Completes, Decoded;
    forall v | IsPrintable(v) ensures Library(n).parse(Library(n).print_(v)) == Some(Decoded(n.Round, v)) {
      ValueIsReadBack(n, [], v);
      FinishBehindValue(n, Feed(n.floats, START, Write(n, v)), Decoded(n.Round, v));
    }
    forall v | IsJson(v) ensures IsPrintable(v) && Decoded(n.Round, v) == v {
      DecodedJson(n.Round, v);
    }
  }

  /* ---------- Which values are printed alike once they are read ---------- */

  /** The digits of an integer are those that the float64 read from them is printed with. */
  predicate Survives(n: Numbers, k: int) {
    n.format(n.Round(k)) == IntText(k)
  }

  predicate AllSurvive(n: Numbers, v: Any) {
    match v
    case Int(k) => Survives(n, k)
    case List(items) => forall x | x in items :: AllSurvive(n, x)
    case Map(entries) => forall k | k in entries :: AllSurvive(n, entries[k])
    case _ => true
  }

  /** What can stand behind a value. */
  predicate IsTail(s: string) {
    s == "" || s[0] in ",]}"
  }

  lemma Cancel(a: string, r: string, b: string, s: string)
    requires a + r == b + s && |a| == |b|
    ensures a == b && r == s
  {
    assert a == (a + r)[..|a|] && b == (b + s)[..|b|] && r == (a + r)[|a|..] && s == (b + s)[|b|..];
  }

  lemma Regroup(a: string, b: string, c: string, d: string)
    ensures a + b + c + d == a + (b + (c + d))
  {
  }

  lemma {:induction false} NumberCharacters(a: string)
    requires a != "" && PhaseAfter(a).Some?
    ensures forall c | c in a :: c !in ",]}"
    decreases |a|
  {
    if |a| > 1 {
      NumberCharacters(a[..|a| - 1]);
    }
  }

  /** A number ends where something else begins. */
  lemma {:induction false} NumberEnds(a: string, r: string, b: string, s: string)
    requires IsNumber(a) && IsNumber(b) && IsTail(r) && IsTail(s) && a + r == b + s
    ensures a == b && r == s
  {
    hide PhaseAfter;
    if |a| < |b| {
      assert (a + r)[|a|] == r[0] && (b + s)[|a|] == b[|a|] && b[|a|] in b;
      NumberCharacters(b);
    } else if |b| < |a| {
      assert (b + s)[|b|] == s[0] && (a + r)[|b|] == a[|b|] && a[|b|] in a;
      NumberCharacters(a);
    } else {
      Cancel(a, r, b, s);
    }
  }

  lemma {:induction false} TextsAreStrings(n: Numbers, names: seq<string>)
    ensures WriteItems(n, Texts(names)) == WriteStrings(names)
    decreases |names|
  {
    hide WriteString;
    if names != [] {
      var k := |names| - 1;
      TextsAreStrings(n, names[..k]);
      assert Texts(names)[..k] == Texts(names[..k]);
    }
  }

  /** If a value that was read and the original are printed alike up to some tails, all integers survive. */
  lemma {:induction false} SameText(n: Numbers, v: Any, r: string, s: string)
    requires n.Exact() && IsPrintable(v) && IsTail(r) && IsTail(s)
    requires Write(n, Decoded(n.Round, v)) + r == Write(n, v) + s
    ensures AllSurvive(n, v) && r == s
    decreases v, 1, 0
  {
    hide IsNumber, IntText, WriteString, IsFinite, Is64Bit, WriteItems, WriteMembers, IsTail;
    match v {
      case Int(k) =>
        IntIsNumber(k);
        RoundIsNumber(n, k);
        NumberEnds(n.format(n.Round(k)), r, IntText(k), s);
      case List(items) => SameList(n, items, r, s);
      case Strings(names) =>
        TextsAreStrings(n, names);
        Cancel(Write(n, v), r, Write(n, v), s);
      case Map(entries) => SameObject(n, v, r, s);
      case _ => Cancel(Write(n, v), r, Write(n, v), s);
    }
  }

  lemma RoundIsNumber(n: Numbers, k: int)
    requires n.Exact() && Is64Bit(k)
    ensures IsNumber(n.format(n.Round(k)))
  {
    hide IsNumber, IntText, IsFinite;
  }

  lemma {:induction false} SameList(n: Numbers, items: seq<Any>, r: string, s: string)
    requires n.Exact() && (forall x | x in items :: IsPrintable(x)) && IsTail(r) && IsTail(s)
    requires "[" + WriteItems(n, DecodedAll(n.Round, items)) + "]" + r == "[" + WriteItems(n, items) + "]" + s
    ensures (forall x | x in items :: AllSurvive(n, x)) && r == s
    decreases items, 1, 0
  {
    hide WriteItems, AllSurvive, IsPrintable;
    var a, b := WriteItems(n, DecodedAll(n.Round, items)), WriteItems(n, items);
    assert "[" + a + "]" + r == "[" + (a + ("]" + r)) && "[" + b + "]" + s == "[" + (b + ("]" + s));
    Cancel("[", a + ("]" + r), "[", b + ("]" + s));
    SameItems(n, items, "]" + r, "]" + s);
    Cancel("]", r, "]", s);
  }

  lemma {:induction false} SameItems(n: Numbers, items: seq<Any>, r: string, s: string)
    requires n.Exact() && (forall x | x in items :: IsPrintable(x)) && IsTail(r) && IsTail(s)
    requires WriteItems(n, DecodedAll(n.Round, items)) + r == WriteItems(n, items) + s
    ensures (forall x | x in items :: AllSurvive(n, x)) && r == s
    decreases items, 0, 0
  {
    hide Write, AllSurvive, Decoded, IsPrintable;
    if items == [] {
      Cancel("", r, "", s);
    } else {
      var k := |items| - 1;
      var init, v := items[..k], items[k];
      assert v in items && items == init + [v] && forall x | x in init :: x in items;
      assert DecodedAll(n.Round, items)[..k] == DecodedAll(n.Round, init);
      var a, b := WriteItems(n, DecodedAll(n.Round, init)), WriteItems(n, init);
      var x, y := Write(n, Decoded(n.Round, v)), Write(n, v);
      if k > 0 {
        Regroup(a, ",", x, r);
        Regroup(b, ",", y, s);
        SameItems(n, init, "," + (x + r), "," + (y + s));
        Cancel(",", x + r, ",", y + s);
      }
      SameText(n, v, r, s);
    }
  }

  lemma {:induction false} SameObject(n: Numbers, v: Any, r: string, s: string)
    requires n.Exact() && v.Map? && IsPrintable(v) && IsTail(r) && IsTail(s)
    requires Write(n, Decoded(n.Round, v)) + r == Write(n, v) + s
    ensures AllSurvive(n, v) && r == s
    decreases v, 0, |v.entries.Keys| + 1
  {
    hide WriteMembers, AllSurvive, IsPrintable;
    var w, keys := Decoded(n.Round, v), v.entries.Keys;
    assert w.entries.Keys == keys;
    var a, b := WriteMembers(n, w, keys), WriteMembers(n, v, keys);
    assert Write(n, w) + r == "{" + (a + ("}" + r)) && Write(n, v) + s == "{" + (b + ("}" + s));
    Cancel("{", a + ("}" + r), "{", b + ("}" + s));
    SameMembers(n, v, keys, "}" + r, "}" + s);
    Cancel("}", r, "}", s);
    MapSurvives(n, v);
  }

  lemma MapSurvives(n: Numbers, v: Any)
    requires v.Map? && forall k | k in v.entries :: AllSurvive(n, v.entries[k])
    ensures AllSurvive(n, v)
  {
  }

  lemma {:induction false} SameMembers(n: Numbers, v: Any, keys: set<string>, r: string, s: string)
    requires n.Exact() && v.Map? && IsPrintable(v) && keys <= v.entries.Keys && IsTail(r) && IsTail(s)
    requires Decoded(n.Round, v).entries.Keys == v.entries.Keys
    requires WriteMembers(n, Decoded(n.Round, v), keys) + r == WriteMembers(n, v, keys) + s
    ensures (forall k | k in keys :: AllSurvive(n, v.entries[k])) && r == s
    decreases v, 0, |keys|
  {
    hide Write, WriteMember, AllSurvive;
    if keys == {} {
      Cancel("", r, "", s);
    } else {
      var w, k := Decoded(n.Round, v), Pick(keys);
      var rest, comma := keys - {k}, if keys == {k} then "" else ",";
      var a, b := WriteMembers(n, w, rest), WriteMembers(n, v, rest);
      var x, y := WriteMember(n, w, k), WriteMember(n, v, k);
      Regroup(a, comma, x, r);
      Regroup(b, comma, y, s);
      assert keys == rest + {k};
      if rest == {} {
        NoMembers(n, w);
        NoMembers(n, v);
        assert "" + ("" + (x + r)) == x + r && "" + ("" + (y + s)) == y + s;
      } else {
        SameMembers(n, v, rest, "," + (x + r), "," + (y + s));
        Cancel(",", x + r, ",", y + s);
      }
      SameMember(n, v, k, r, s);
    }
  }

  lemma {:induction false} SameMember(n: Numbers, v: Any, k: string, r: string, s: string)
    requires n.Exact() && v.Map? && IsPrintable(v) && k in v.entries && IsTail(r) && IsTail(s)
    requires Decoded(n.Round, v).entries.Keys == v.entries.Keys
    requires WriteMember(n, Decoded(n.Round, v), k) + r == WriteMember(n, v, k) + s
    ensures AllSurvive(n, v.entries[k]) && r == s
    decreases v, 0, 0
  {
    hide Write, AllSurvive, Quote;
    var name, x, y := "\"" + Quote(k) + "\":", Write(n, Decoded(n.Round, v.entries[k])), Write(n, v.entries[k]);
    assert name + x + r == name + (x + r) && name + y + s == name + (y + s);
    Cancel(name, x + r, name, y + s);
    SameText(n, v.entries[k], r, s);
  }

  /** If all integers survive, the value that was read is printed like the original. */
  lemma {:induction false} SurvivorsReprinted(n: Numbers, v: Any)
    requires AllSurvive(n, v) && IsPrintable(v)
    ensures Write(n, Decoded(n.Round, v)) == Write(n, v)
    decreases v, 1, 0
  {
    hide IntText, WriteItems, WriteMembers;
    match v {
      case List(items) => ItemsReprinted(n, items);
      case Strings(names) => TextsAreStrings(n, names);
      case Map(entries) =>
        assert Decoded(n.Round, v).entries.Keys == entries.Keys;
        MembersReprinted(n, v, entries.Keys);
      case _ =>
    }
  }

  lemma {:induction false} ItemsReprinted(n: Numbers, items: seq<Any>)
    requires forall x | x in items :: AllSurvive(n, x) && IsPrintable(x)
    ensures WriteItems(n, DecodedAll(n.Round, items)) == WriteItems(n, items)
    decreases items, 0, 0
  {
    hide Write, AllSurvive, Decoded, IsPrintable;
    if items != [] {
      var k := |items| - 1;
      assert items[k] in items && forall x | x in items[..k] :: x in items;
      assert DecodedAll(n.Round, items)[..k] == DecodedAll(n.Round, items[..k]);
      ItemsReprinted(n, items[..k]);
      SurvivorsReprinted(n, items[k]);
    }
  }

  lemma {:induction false} MembersReprinted(n: Numbers, v: Any, keys: set<string>)
    requires v.Map? && AllSurvive(n, v) && IsPrintable(v) && keys <= v.entries.Keys
    requires Decoded(n.Round, v).entries.Keys == v.entries.Keys
    ensures WriteMembers(n, Decoded(n.Round, v), keys) == WriteMembers(n, v, keys)
    decreases v, 0, |keys|
  {
    hide Write, Quote;
    if keys != {} {
      var k := Pick(keys);
      SurvivorsReprinted(n, v.entries[k]);
      MembersReprinted(n, v, keys - {k});
    }
  }

  /** A value that is printed, read and printed again gives the same text if and only if each of its integers,
      at any depth, is printed again with its own digits. */
  lemma {:induction false} ReprintedAlike(n: Numbers, v: Any)
    requires n.Exact() && IsPrintable(v)
    ensures Write(n, Decoded(n.Round, v)) == Write(n, v) <==> AllSurvive(n, v)
  {
    hide Write, Decoded, AllSurvive;
    if AllSurvive(n, v) {
      SurvivorsReprinted(n, v);
    }
    if Write(n, Decoded(n.Round, v)) == Write(n, v) {
      SameText(n, v, "", "");
    }
  }

  lemma {:induction false} IntTextInjective(j: int, k: int)
    requires IntText(j) == IntText(k)
    ensures j == k
  {
    hide Text.Decimal;
    BeginsWithSign(j);
    BeginsWithSign(k);
    if j < 0 && k < 0 {
      Cancel("-", Text.Decimal(-j), "-", Text.Decimal(-k));
      Text.DecimalInjective(-j, -k);
    } else if j >= 0 && k >= 0 {
      Text.DecimalInjective(j, k);
    }
  }
}
