/** Reading JSON texts (encoding/json, section 2 of RFC 8259): a reader that takes one character at a time, with
    a stack for the lists and objects that are still open. */
module JsonText {
  import opened Values

  /** A list or an object that is being read; `key` is the name of the member whose value comes next. */
  datatype Frame = InList(items: seq<Any>) | InObject(members: Object, key: string)

  datatype Phase = Minus | Zero | Digits | Point | Fraction | Exponent | Sign | Power

  /** Where the reader stands inside the innermost open list or object. */
  datatype Mode =
    | Value
    | ValueOrEnd
    | NameOrEnd
    | Name
    | Colon
    | Quoted(name: bool, raw: string)
    | Escaped(name: bool, raw: string)
    | Hex(name: bool, raw: string, left: nat)
    | Word(rest: string, v: Any)
    | Number(phase: Phase, text: string)
    | Next
    | Done(v: Any)
    | Wrong

  datatype Reader = Reader(open: seq<Frame>, mode: Mode)

  const START := Reader([], Value)
  const WRONG := Reader([], Wrong)

  /** strconv.ParseFloat: the bits of a number; None if it is out of range. */
  type Floats = string -> Option<nat>

  /* ---------- Characters and escapes ---------- */

  predicate IsBlank(c: char) {
    c == ' ' || c == '\t' || c == '\n' || c == '\r'
  }

  predicate IsHex(c: char) {
    '0' <= c <= '9' || 'a' <= c <= 'f' || 'A' <= c <= 'F'
  }

  function HexDigit(c: char): (n: nat)
    ensures n < 16
  {
    if '0' <= c <= '9' then c as int - '0' as int
    else if 'a' <= c <= 'f' then c as int - 'a' as int + 10
    else if 'A' <= c <= 'F' then c as int - 'A' as int + 10
    else 0
  }

  function HexValue(s: string): (n: nat)
    requires |s| == 4
    ensures n < 0x10000
  {
    HexDigit(s[0]) * 0x1000 + HexDigit(s[1]) * 0x100 + HexDigit(s[2]) * 0x10 + HexDigit(s[3])
  }

  /** What the character behind a backslash stands for. */
  function Unescaped(c: char): char {
    if c == 'b' then '\U{8}'
    else if c == 'f' then '\U{C}'
    else if c == 'n' then '\n'
    else if c == 'r' then '\r'
    else if c == 't' then '\t'
    else c
  }

  predicate IsEscape(c: char) {
    c in "\"\\/bfnrt"
  }

  function Rune(code: nat): char
    requires code < 0x10000
  {
    if 0xD800 <= code < 0xE000 then '\U{FFFD}' else code as char
  }

  function SurrogatePair(high: nat, low: nat): char
    requires 0xD800 <= high < 0xDC00 && 0xDC00 <= low < 0xE000
  {
    (0x10000 + (high - 0xD800) * 0x400 + (low - 0xDC00)) as char
  }

  /** The string that the text between two quotes stands for. */
  function Unquote(raw: string): string {
    if raw == "" then ""
    else if raw[0] != '\\' then [raw[0]] + Unquote(raw[1..])
    else if |raw| == 1 then ""
    else if raw[1] != 'u' then [Unescaped(raw[1])] + Unquote(raw[2..])
    else if |raw| < 6 then ""
    else
      var code := HexValue(raw[2..6]);
      if 0xD800 <= code < 0xDC00 && |raw| >= 12 && raw[6] == '\\' && raw[7] == 'u' &&
        0xDC00 <= HexValue(raw[8..12]) < 0xE000
      then [SurrogatePair(code, HexValue(raw[8..12]))] + Unquote(raw[12..])
      else [Rune(code)] + Unquote(raw[6..])
  }

  lemma {:induction false} UnquotePlain(raw: string)
    requires '\\' !in raw
    ensures Unquote(raw) == raw
  {
    if raw != "" {
      UnquotePlain(raw[1..]);
    }
  }

  /* ---------- One character ---------- */

  /** A value that is complete. */
  function Put(open: seq<Frame>, v: Any): Reader {
    if open == [] then Reader([], Done(v))
    else
      var outer, frame := open[..|open| - 1], open[|open| - 1];
      match frame
      case InList(items) => Reader(outer + [InList(items + [v])], Next)
      case InObject(members, key) => Reader(outer + [InObject(members[key := v], key)], Next)
  }

  function Begin(open: seq<Frame>, c: char): Reader {
    if c == '{' then Reader(open + [InObject(map[], "")], NameOrEnd)
    else if c == '[' then Reader(open + [InList([])], ValueOrEnd)
    else if c == '"' then Reader(open, Quoted(false, ""))
    else if c == '-' then Reader(open, Number(Minus, "-"))
    else if c == '0' then Reader(open, Number(Zero, "0"))
    else if '1' <= c <= '9' then Reader(open, Number(Digits, [c]))
    else if c == 't' then Reader(open, Word("rue", Bool(true)))
    else if c == 'f' then Reader(open, Word("alse", Bool(false)))
    else if c == 'n' then Reader(open, Word("ull", Nil))
    else WRONG
  }

  function EndList(open: seq<Frame>): Reader {
    if open != [] && open[|open| - 1].InList? then Put(open[..|open| - 1], List(open[|open| - 1].items)) else WRONG
  }

  function EndObject(open: seq<Frame>): Reader {
    if open != [] && open[|open| - 1].InObject? then Put(open[..|open| - 1], Map(open[|open| - 1].members)) else WRONG
  }

  /** Behind a value: a comma, or the end of the list or object. */
  function AfterValue(r: Reader, c: char): Reader {
    if IsBlank(c) then r
    else if r.mode.Done? || r.open == [] then WRONG
    else if c == ',' then Reader(r.open, if r.open[|r.open| - 1].InList? then Value else Name)
    else if c == ']' then EndList(r.open)
    else if c == '}' then EndObject(r.open)
    else WRONG
  }

  /** The closing quote of a name or of a string. */
  function CloseQuote(open: seq<Frame>, name: bool, raw: string): Reader {
    if !name then Put(open, Str(Unquote(raw)))
    else if open != [] && open[|open| - 1].InObject? then
      Reader(open[..|open| - 1] + [open[|open| - 1].(key := Unquote(raw))], Colon)
    else WRONG
  }

  predicate IsExponent(c: char) {
    c == 'e' || c == 'E'
  }

  function NextPhase(phase: Phase, c: char): Option<Phase> {
    var digit := '0' <= c <= '9';
    match phase
    case Minus => if c == '0' then Some(Zero) else if digit then Some(Digits) else None
    case Zero => if c == '.' then Some(Point) else if IsExponent(c) then Some(Exponent) else None
    case Digits =>
      if digit then Some(Digits) else if c == '.' then Some(Point) else if IsExponent(c) then Some(Exponent) else None
    case Point => if digit then Some(Fraction) else None
    case Fraction => if digit then Some(Fraction) else if IsExponent(c) then Some(Exponent) else None
    case Exponent => if digit then Some(Power) else if c == '+' || c == '-' then Some(Sign) else None
    case Sign => if digit then Some(Power) else None
    case Power => if digit then Some(Power) else None
  }

  /** A number ends where it cannot go on. */
  function EndNumber(floats: Floats, open: seq<Frame>, phase: Phase, text: string): Reader {
    if phase in {Minus, Point, Exponent, Sign} then WRONG
    else
      match floats(text)
      case None => WRONG
      case Some(bits) => Put(open, Float64(bits))
  }

  function Step(floats: Floats, r: Reader, c: char): Reader {
    match r.mode
    case Value => if IsBlank(c) then r else Begin(r.open, c)
    case ValueOrEnd => if IsBlank(c) then r else if c == ']' then EndList(r.open) else Begin(r.open, c)
    case NameOrEnd =>
      if IsBlank(c) then r
      else if c == '}' then EndObject(r.open)
      else if c == '"' then Reader(r.open, Quoted(true, ""))
      else WRONG
    case Name => if IsBlank(c) then r else if c == '"' then Reader(r.open, Quoted(true, "")) else WRONG
    case Colon => if IsBlank(c) then r else if c == ':' then Reader(r.open, Value) else WRONG
    case Quoted(name, raw) =>
      if c == '"' then CloseQuote(r.open, name, raw)
      else if c == '\\' then Reader(r.open, Escaped(name, raw + [c]))
      else if c < ' ' then WRONG
      else Reader(r.open, Quoted(name, raw + [c]))
    case Escaped(name, raw) =>
      if c == 'u' then Reader(r.open, Hex(name, raw + [c], 4))
      else if IsEscape(c) then Reader(r.open, Quoted(name, raw + [c]))
      else WRONG
    case Hex(name, raw, left) =>
      if !IsHex(c) || left == 0 then WRONG
      else Reader(r.open, if left == 1 then Quoted(name, raw + [c]) else Hex(name, raw + [c], left - 1))
    case Word(rest, v) =>
      if !('a' <= c <= 'z') || rest == "" || rest[0] != c then WRONG
      else if |rest| == 1 then Put(r.open, v)
      else Reader(r.open, Word(rest[1..], v))
    case Number(phase, text) =>
      (match NextPhase(phase, c)
       case Some(phase') => Reader(r.open, Number(phase', text + [c]))
       case None =>
         var ended := EndNumber(floats, r.open, phase, text);
         if ended == WRONG then WRONG else AfterValue(ended, c))
    case Next => AfterValue(r, c)
    case Done(_) => AfterValue(r, c)
    case Wrong => WRONG
  }

  function Feed(floats: Floats, r: Reader, s: string): Reader {
    if s == "" then r else Step(floats, Feed(floats, r, s[..|s| - 1]), s[|s| - 1])
  }

  function Finish(floats: Floats, r: Reader): Option<Any> {
    match r.mode
    case Done(v) => Some(v)
    case Number(phase, text) =>
      var ended := EndNumber(floats, r.open, phase, text);
      if ended.mode.Done? then Some(ended.mode.v) else None
    case _ => None
  }

  /** json.Unmarshal into an `any`. */
  function Read(floats: Floats, text: string): Option<Any> {
    Finish(floats, Feed(floats, START, text))
  }

  /* ---------- Stretches of text ---------- */

  lemma {:induction false} FeedSnoc(floats: Floats, r: Reader, s: string, c: char)
    ensures Feed(floats, r, s + [c]) == Step(floats, Feed(floats, r, s), c)
  {
    assert (s + [c])[..|s|] == s;
  }

  lemma {:induction false} FeedConcat(floats: Floats, r: Reader, a: string, b: string)
    ensures Feed(floats, r, a + b) == Feed(floats, Feed(floats, r, a), b)
    decreases |b|
  {
    hide Step;
    if b == "" {
      assert a + b == a;
    } else {
      var n := |b| - 1;
      FeedConcat(floats, r, a, b[..n]);
      assert (a + b)[..|a + b| - 1] == a + b[..n];
    }
  }

  lemma {:induction false} FeedOne(floats: Floats, r: Reader, c: char)
    ensures Feed(floats, r, [c]) == Step(floats, r, c)
  {
    FeedSnoc(floats, r, "", c);
    assert "" + [c] == [c];
  }

  lemma {:induction false} FeedTwo(floats: Floats, r: Reader, c: char, d: char)
    ensures Feed(floats, r, [c, d]) == Step(floats, Step(floats, r, c), d)
  {
    FeedOne(floats, r, c);
    FeedSnoc(floats, r, [c], d);
    assert [c] + [d] == [c, d];
  }

  lemma {:induction false} FeedWrong(floats: Floats, s: string)
    ensures Feed(floats, WRONG, s) == WRONG
  {
    if s != "" {
      FeedWrong(floats, s[..|s| - 1]);
    }
  }

  /** A text that stands for itself between quotes. */
  predicate PlainText(s: string) {
    forall i | 0 <= i < |s| :: s[i] >= ' ' && s[i] != '"' && s[i] != '\\'
  }

  lemma {:induction false} FeedPlain(floats: Floats, open: seq<Frame>, name: bool, raw: string, s: string)
    requires PlainText(s)
    ensures Feed(floats, Reader(open, Quoted(name, raw)), s) == Reader(open, Quoted(name, raw + s))
  {
    hide Step;
    if s == "" {
      assert raw + s == raw;
    } else {
      var n := |s| - 1;
      FeedPlain(floats, open, name, raw, s[..n]);
      StepPlain(floats, open, name, raw + s[..n], s[n]);
      assert raw + s[..n] + [s[n]] == raw + s;
    }
  }

  lemma {:induction false} StepPlain(floats: Floats, open: seq<Frame>, name: bool, raw: string, c: char)
    requires c >= ' ' && c != '"' && c != '\\'
    ensures Step(floats, Reader(open, Quoted(name, raw)), c) == Reader(open, Quoted(name, raw + [c]))
  {
  }

  /** Inside a string that has not been closed. */
  predicate Unclosed(open: seq<Frame>, r: Reader) {
    r == WRONG || (r.open == open && (r.mode.Quoted? || r.mode.Escaped? || r.mode.Hex?) && !r.mode.name)
  }

  lemma {:induction false} StepWithoutQuote(floats: Floats, open: seq<Frame>, r: Reader, s: string, c: char)
    requires Unclosed(open, r) && c != '"' && (r == WRONG || r.mode.raw == s)
    ensures
      var q := Step(floats, r, c);
      Unclosed(open, q) && (q == WRONG || q.mode.raw == s + [c])
  {
  }

  /** A text without quotes does not close a string. */
  lemma {:induction false} FeedWithoutQuotes(floats: Floats, open: seq<Frame>, s: string)
    requires '"' !in s
    ensures
      var r := Feed(floats, Reader(open, Quoted(false, "")), s);
      Unclosed(open, r) && (r == WRONG || r.mode.raw == s)
  {
    hide Step;
    if s != "" {
      var init, c := s[..|s| - 1], s[|s| - 1];
      assert s == init + [c] && c in s && forall d | d in init :: d in s;
      FeedWithoutQuotes(floats, open, init);
      StepWithoutQuote(floats, open, Feed(floats, Reader(open, Quoted(false, "")), init), init, c);
    }
  }

  /* ---------- Members of an object ---------- */

  /** The reader is inside a string that is the value of a member. */
  predicate InMember(r: Reader) {
    r.mode.Quoted? && !r.mode.name && r.open != [] && r.open[|r.open| - 1].InObject?
  }

  /** The members of the innermost object, once the string is closed. */
  function Members(r: Reader): Object
    requires InMember(r)
  {
    var frame := r.open[|r.open| - 1];
    frame.members[frame.key := Str(Unquote(r.mode.raw))]
  }

  function Enclosing(r: Reader): seq<Frame>
    requires InMember(r)
  {
    r.open[..|r.open| - 1]
  }

  /** No quote-comma-quote of a next member leads here. */
  predicate Lost(q: Reader) {
    || q.mode in {Wrong, Colon, Next} || q.mode.Done?
    || (q.mode == Quoted(false, "") && q.open != [] && q.open[|q.open| - 1].InList?)
  }

  lemma {:induction false} StepQuote(floats: Floats, r: Reader)
    ensures
      var q := Step(floats, r, '"');
      && (InMember(r) ==> q == Reader(Enclosing(r) + [InObject(Members(r), r.open[|r.open| - 1].key)], Next))
      && (q.mode.Next? && !InMember(r) ==> q.open != [] && q.open[|q.open| - 1].InList?)
      && (q.mode in {Wrong, Colon, Next} || q.mode.Done? || (q.mode.Quoted? && q.open == r.open))
      && (r.mode.Quoted? ==> !q.mode.Quoted?)
      && (r.mode == Value && q.mode.Quoted? ==> q.mode == Quoted(false, ""))
      && (r.mode == Name ==> q == Reader(r.open, Quoted(true, "")))
  {
  }

  lemma {:induction false} StepComma(floats: Floats, r: Reader)
    ensures
      var q := Step(floats, r, ',');
      && (r.mode.Quoted? ==> q == Reader(r.open, Quoted(r.mode.name, r.mode.raw + ",")))
      && (r.mode.Next? ==> q == if r.open == [] then WRONG
        else Reader(r.open, if r.open[|r.open| - 1].InList? then Value else Name))
      && (r.mode in {Wrong, Colon} || r.mode.Done? ==> q == WRONG)
  {
  }

  lemma {:induction false} QuoteCommaQuote(floats: Floats, r: Reader)
    ensures
      var q := Feed(floats, r, "\",\"");
      if InMember(r) then
        q == Reader(Enclosing(r) + [InObject(Members(r), r.open[|r.open| - 1].key)], Quoted(true, ""))
      else Lost(q)
  {
    hide Step;
    var r1 := Step(floats, r, '"');
    var r2 := Step(floats, r1, ',');
    FeedTwo(floats, r, '"', ',');
    FeedSnoc(floats, r, ['"', ','], '"');
    assert ['"', ','] + ['"'] == "\",\"";
    StepQuote(floats, r);
    StepComma(floats, r1);
    StepQuote(floats, r2);
    WrongStays(floats, '"');
  }

  lemma {:induction false} WrongStays(floats: Floats, c: char)
    ensures Step(floats, WRONG, c) == WRONG
  {
  }

  /** The name of a member, which begins with a letter. */
  predicate IsName(name: string) {
    PlainText(name) && name != "" && 'a' <= name[0] <= 'z'
  }

  lemma {:induction false} LostAtName(floats: Floats, q: Reader, c: char)
    requires Lost(q) && 'a' <= c <= 'z'
    ensures Step(floats, q, c) == if q.mode.Quoted? then Reader(q.open, Quoted(false, [c])) else WRONG
  {
    if q.mode.Quoted? {
      assert "" + [c] == [c];
    }
  }

  lemma {:induction false} QuoteColon(floats: Floats, open: seq<Frame>, name: bool, raw: string)
    requires open != []
    ensures
      var r := Feed(floats, Reader(open, Quoted(name, raw)), "\":");
      && (!name && open[|open| - 1].InList? ==> r == WRONG)
      && (name && open[|open| - 1].InObject? ==>
            r == Reader(open[..|open| - 1] + [open[|open| - 1].(key := Unquote(raw))], Value))
  {
    FeedTwo(floats, Reader(open, Quoted(name, raw)), '"', ':');
    assert ['"', ':'] == "\":";
  }

  lemma {:induction false} NameColon(floats: Floats, q: Reader, name: string)
    requires IsName(name)
    requires Lost(q) || (q.mode == Quoted(true, "") && q.open != [] && q.open[|q.open| - 1].InObject?)
    ensures Feed(floats, Feed(floats, q, name), "\":") ==
      if Lost(q) then WRONG else Reader(q.open[..|q.open| - 1] + [q.open[|q.open| - 1].(key := name)], Value)
  {
    hide Feed, Step, Unquote, Lost, PlainText;
    if Lost(q) {
      LostStaysLost(floats, q, name);
    } else {
      FeedPlain(floats, q.open, true, "", name);
      assert "" + name == name;
      QuoteColon(floats, q.open, true, name);
      NameIsPlain(name);
    }
  }

  lemma {:induction false} LostStaysLost(floats: Floats, q: Reader, name: string)
    requires IsName(name) && Lost(q)
    ensures Feed(floats, Feed(floats, q, name), "\":") == WRONG
  {
    hide Feed, Step, Unquote;
    FeedFirst(floats, q, name);
    LostAtName(floats, q, name[0]);
    if q.mode.Quoted? {
      FeedPlain(floats, q.open, false, [name[0]], name[1..]);
      QuoteColon(floats, q.open, false, [name[0]] + name[1..]);
    } else {
      FeedWrong(floats, name[1..]);
      FeedWrong(floats, "\":");
    }
  }

  lemma {:induction false} NameIsPlain(name: string)
    requires IsName(name)
    ensures PlainText(name) && Unquote(name) == name
  {
    UnquotePlain(name);
  }

  /** Closing the string and going on with the next member works exactly inside the value of a member. */
  lemma {:induction false} NextMember(floats: Floats, r: Reader, name: string)
    requires IsName(name)
    ensures Feed(floats, r, "\",\"" + name + "\":") ==
      if InMember(r) then Reader(Enclosing(r) + [InObject(Members(r), name)], Value) else WRONG
  {
    hide Step, Members;
    QuoteCommaQuote(floats, r);
    FeedConcat(floats, r, "\",\"" + name, "\":");
    FeedConcat(floats, r, "\",\"", name);
    NameColon(floats, Feed(floats, r, "\",\""), name);
  }

  /** Closing the string and the object ends the text exactly inside the value of a member of the
      outermost object. */
  lemma {:induction false} LastMember(floats: Floats, r: Reader)
    ensures Finish(floats, Feed(floats, r, "\"}")) ==
      if InMember(r) && |r.open| == 1 then Some(Map(Members(r))) else None
  {
    hide Feed, Step, Unquote, Finish, Put;
    FeedTwo(floats, r, '"', '}');
    assert ['"', '}'] == "\"}";
    StepQuote(floats, r);
    var q := Step(floats, r, '"');
    StepBrace(floats, q);
    if InMember(r) {
      assert q.open[..|q.open| - 1] == Enclosing(r);
      FinishPut(floats, Enclosing(r), Map(Members(r)));
    } else {
      FinishUnfinished(floats, Step(floats, q, '}'));
    }
  }

  lemma {:induction false} FinishPut(floats: Floats, open: seq<Frame>, v: Any)
    ensures Finish(floats, Put(open, v)) == if open == [] then Some(v) else None
  {
  }

  lemma {:induction false} FinishUnfinished(floats: Floats, r: Reader)
    requires r.mode.Wrong? || r.mode.Quoted?
    ensures Finish(floats, r) == None
  {
  }

  lemma {:induction false} StepBrace(floats: Floats, r: Reader)
    requires r.mode in {Wrong, Colon, Next} || r.mode.Done? || r.mode.Quoted?
    ensures
      var q := Step(floats, r, '}');
      if r.mode.Next? && r.open != [] && r.open[|r.open| - 1].InObject? then
        q == Put(r.open[..|r.open| - 1], Map(r.open[|r.open| - 1].members))
      else q.mode.Wrong? || q.mode.Quoted?
  {
  }

  /** The opening quote of a string value, and plain text behind it. */
  lemma {:induction false} OpenText(floats: Floats, open: seq<Frame>, s: string)
    requires PlainText(s)
    ensures Feed(floats, Reader(open, Value), "\"" + s) == Reader(open, Quoted(false, s))
  {
    FeedConcat(floats, Reader(open, Value), "\"", s);
    FeedOne(floats, Reader(open, Value), '"');
    FeedPlain(floats, open, false, "", s);
    assert "" + s == s;
  }

  lemma {:induction false} FeedFalse(floats: Floats, open: seq<Frame>)
    ensures Feed(floats, Reader(open, Value), "false") == Put(open, Bool(false))
  {
    hide Put, Feed;
    FeedOne(floats, Reader(open, Value), 'f');
    FeedSnoc(floats, Reader(open, Value), "f", 'a');
    FeedSnoc(floats, Reader(open, Value), "fa", 'l');
    FeedSnoc(floats, Reader(open, Value), "fal", 's');
    FeedSnoc(floats, Reader(open, Value), "fals", 'e');
    assert "f" + ['a'] == "fa" && "fa" + ['l'] == "fal" && "fal" + ['s'] == "fals" && "fals" + ['e'] == "false";
    assert "alse"[1..] == "lse" && "lse"[1..] == "se" && "se"[1..] == "e";
  }

  /** The name of a member, up to the text of its value. */
  lemma {:induction false} NameAndQuote(floats: Floats, outer: seq<Frame>, members: Object, key: string, name: string)
    requires IsName(name)
    ensures Feed(floats, Reader(outer + [InObject(members, key)], Quoted(true, "")), name + "\":\"") ==
      Reader(outer + [InObject(members, name)], Quoted(false, ""))
  {
    hide Feed, Unquote, IsName;
    var open := outer + [InObject(members, key)];
    var r := Reader(open, Quoted(true, ""));
    assert open[..|open| - 1] == outer;
    NameIsPlain(name);
    FeedPlain(floats, open, true, "", name);
    assert "" + name == name;
    QuoteColon(floats, open, true, name);
    assert "\":" + "\"" == "\":\"";
    FeedConcat(floats, Reader(open, Quoted(true, name)), "\":", "\"");
    FeedConcat(floats, r, name, "\":\"");
    FeedOne(floats, Reader(outer + [InObject(members, name)], Value), '"');
  }

  /** The first member of an object, up to the text of its value. */
  lemma {:induction false} FirstMember(floats: Floats, name: string)
    requires IsName(name)
    ensures Feed(floats, START, "{\"" + name + "\":\"") == Reader([InObject(map[], name)], Quoted(false, ""))
  {
    hide Feed, IsName;
    FeedTwo(floats, START, '{', '"');
    assert ['{', '"'] == "{\"" && [] + [InObject(map[], "")] == [InObject(map[], "")];
    assert "{\"" + name + "\":\"" == "{\"" + (name + "\":\"");
    FeedConcat(floats, START, "{\"", name + "\":\"");
    NameAndQuote(floats, [], map[], "", name);
    assert [] + [InObject(map[], name)] == [InObject(map[], name)];
  }

  lemma {:induction false} FalseAndComma(floats: Floats, outer: seq<Frame>, members: Object, key: string)
    ensures Feed(floats, Reader(outer + [InObject(members, key)], Value), "false,\"") ==
      Reader(outer + [InObject(members[key := Bool(false)], key)], Quoted(true, ""))
  {
    hide Feed;
    var r := Reader(outer + [InObject(members, key)], Value);
    FeedFalse(floats, r.open);
    assert r.open[..|r.open| - 1] == outer;
    assert "false" + ",\"" == "false,\"" && [',', '"'] == ",\"";
    FeedConcat(floats, r, "false", ",\"");
    FeedTwo(floats, Reader(outer + [InObject(members[key := Bool(false)], key)], Next), ',', '"');
  }

  /** A member with the value false, and the next one up to the text of its value. */
  lemma {:induction false} FalseMember(floats: Floats, outer: seq<Frame>, members: Object, key: string, name: string)
    requires IsName(name)
    ensures Feed(floats, Reader(outer + [InObject(members, key)], Value), "false,\"" + name + "\":\"") ==
      Reader(outer + [InObject(members[key := Bool(false)], name)], Quoted(false, ""))
  {
    hide Feed, IsName;
    FalseAndComma(floats, outer, members, key);
    assert "false,\"" + name + "\":\"" == "false,\"" + (name + "\":\"");
    FeedConcat(floats, Reader(outer + [InObject(members, key)], Value), "false,\"", name + "\":\"");
    NameAndQuote(floats, outer, members[key := Bool(false)], key, name);
  }

  /* ---------- The text between two quotes ---------- */

  /** Every character may stand in a string, and every backslash begins an escape that is complete. */
  predicate IsStringBody(s: string)
    decreases |s|, 0
  {
    s == "" ||
    (&& s[0] >= ' '
     && if s[0] != '\\' then s[0] != '"' && IsStringBody(s[1..])
        else |s| >= 2 && if s[1] == 'u' then IsHexBody(s[2..], 4) else IsEscape(s[1]) && IsStringBody(s[2..]))
  }

  predicate IsHexBody(s: string, left: nat)
    decreases |s|, 1
  {
    if left == 0 then IsStringBody(s) else s != "" && IsHex(s[0]) && IsHexBody(s[1..], left - 1)
  }

  lemma {:induction false} FeedFirst(floats: Floats, r: Reader, s: string)
    requires s != ""
    ensures Feed(floats, r, s) == Feed(floats, Step(floats, r, s[0]), s[1..])
  {
    assert s == [s[0]] + s[1..];
    FeedConcat(floats, r, [s[0]], s[1..]);
    FeedOne(floats, r, s[0]);
  }

  lemma {:induction false} BodyClosed(floats: Floats, open: seq<Frame>, raw: string, s: string)
    requires '"' !in s
    ensures Feed(floats, Reader(open, Quoted(false, raw)), s).mode.Quoted? <==> IsStringBody(s)
    decreases |s|
  {
    hide Feed;
    if s == "" {
      NothingFed(floats, Reader(open, Quoted(false, raw)));
    } else {
      FeedFirst(floats, Reader(open, Quoted(false, raw)), s);
      assert s[0] in s && forall c | c in s[1..] :: c in s;
      if s[0] < ' ' {
        FeedWrong(floats, s[1..]);
      } else if s[0] != '\\' {
        BodyClosed(floats, open, raw + [s[0]], s[1..]);
      } else {
        EscapeClosed(floats, open, raw + [s[0]], s[1..]);
      }
    }
  }

  lemma {:induction false} NothingFed(floats: Floats, r: Reader)
    ensures Feed(floats, r, "") == r
  {
  }

  lemma {:induction false} EscapeClosed(floats: Floats, open: seq<Frame>, raw: string, s: string)
    requires '"' !in s
    ensures Feed(floats, Reader(open, Escaped(false, raw)), s).mode.Quoted? <==>
      s != "" && if s[0] == 'u' then IsHexBody(s[1..], 4) else IsEscape(s[0]) && IsStringBody(s[1..])
    decreases |s|
  {
    hide Feed, IsStringBody, IsHexBody;
    if s == "" {
      NothingFed(floats, Reader(open, Escaped(false, raw)));
    } else {
      FeedFirst(floats, Reader(open, Escaped(false, raw)), s);
      assert s[0] in s && forall c | c in s[1..] :: c in s;
      if s[0] == 'u' {
        HexClosed(floats, open, raw + [s[0]], s[1..], 4);
      } else if IsEscape(s[0]) {
        BodyClosed(floats, open, raw + [s[0]], s[1..]);
      } else {
        FeedWrong(floats, s[1..]);
      }
    }
  }

  lemma {:induction false} HexClosed(floats: Floats, open: seq<Frame>, raw: string, s: string, left: nat)
    requires '"' !in s && left > 0
    ensures Feed(floats, Reader(open, Hex(false, raw, left)), s).mode.Quoted? <==> IsHexBody(s, left)
    decreases |s|
  {
    hide Feed, IsStringBody;
    if s == "" {
      NothingFed(floats, Reader(open, Hex(false, raw, left)));
    } else {
      FeedFirst(floats, Reader(open, Hex(false, raw, left)), s);
      assert s[0] in s && forall c | c in s[1..] :: c in s;
      if !IsHex(s[0]) {
        FeedWrong(floats, s[1..]);
      } else if left == 1 {
        BodyClosed(floats, open, raw + [s[0]], s[1..]);
      } else {
        HexClosed(floats, open, raw + [s[0]], s[1..], left - 1);
      }
    }
  }

  /* ---------- Only JSON values are read ---------- */

  ghost predicate Finite(floats: Floats) {
    forall s | floats(s).Some? :: IsFinite(floats(s).value)
  }

  predicate JsonFrame(f: Frame) {
    match f
    case InList(items) => forall x | x in items :: IsJson(x)
    case InObject(members, _) => forall k | k in members :: IsJson(members[k])
  }

  predicate HoldsJson(r: Reader) {
    && (forall i | 0 <= i < |r.open| :: JsonFrame(r.open[i]))
    && (r.mode.Done? || r.mode.Word? ==> IsJson(r.mode.v))
  }

  lemma {:induction false} PutHoldsJson(open: seq<Frame>, v: Any)
    requires IsJson(v) && HoldsJson(Reader(open, Value))
    ensures HoldsJson(Put(open, v))
  {
  }

  lemma {:induction false} EndsHoldJson(open: seq<Frame>)
    requires HoldsJson(Reader(open, Value))
    ensures HoldsJson(EndList(open)) && HoldsJson(EndObject(open))
  {
    if open != [] {
      var outer, frame := open[..|open| - 1], open[|open| - 1];
      assert JsonFrame(frame);
      if frame.InList? {
        PutHoldsJson(outer, List(frame.items));
      } else {
        PutHoldsJson(outer, Map(frame.members));
      }
    }
  }

  lemma {:induction false} BeginHoldsJson(open: seq<Frame>, c: char)
    requires HoldsJson(Reader(open, Value))
    ensures HoldsJson(Begin(open, c))
  {
    assert JsonFrame(InObject(map[], "")) && JsonFrame(InList([]));
  }

  lemma {:induction false} StepHoldsJson(floats: Floats, r: Reader, c: char)
    requires Finite(floats) && HoldsJson(r)
    ensures HoldsJson(Step(floats, r, c))
  {
    hide Put, Begin, EndList, EndObject, JsonFrame, IsFinite, Unquote;
    BeginHoldsJson(r.open, c);
    EndsHoldJson(r.open);
    match r.mode {
      case Quoted(name, raw) =>
        PutHoldsJson(r.open, Str(Unquote(raw)));
        if r.open != [] && r.open[|r.open| - 1].InObject? {
          RenameHoldsJson(r.open[|r.open| - 1], Unquote(raw));
        }
      case Word(_, v) => PutHoldsJson(r.open, v);
      case Number(phase, text) =>
        if floats(text).Some? {
          var put := Put(r.open, Float64(floats(text).value));
          PutHoldsJson(r.open, Float64(floats(text).value));
          EndsHoldJson(put.open);
        }
      case _ =>
    }
  }

  lemma {:induction false} RenameHoldsJson(f: Frame, key: string)
    requires f.InObject? && JsonFrame(f)
    ensures JsonFrame(f.(key := key))
  {
  }

  lemma {:induction false} FeedHoldsJson(floats: Floats, s: string)
    requires Finite(floats)
    ensures HoldsJson(Feed(floats, START, s))
  {
    hide Step;
    if s != "" {
      FeedHoldsJson(floats, s[..|s| - 1]);
      StepHoldsJson(floats, Feed(floats, START, s[..|s| - 1]), s[|s| - 1]);
    }
  }

  /** Whatever the text, what is read from it is a JSON value. */
  lemma {:induction false} ReadIsJson(floats: Floats, text: string)
    requires Finite(floats)
    ensures Read(floats, text).Some? ==> IsJson(Read(floats, text).value)
  {
    hide Feed;
    FeedHoldsJson(floats, text);
    var r := Feed(floats, START, text);
    if r.mode.Number? && floats(r.mode.text).Some? {
      PutHoldsJson(r.open, Float64(floats(r.mode.text).value));
    }
  }
}
