/** String operations of the Go libraries that the model needs. */
module Text {

  const DIGITS := "0123456789"

  /** strconv.Itoa and "%d" on numbers that are not negative. */
  function Decimal(n: nat): (s: string)
    ensures |s| >= 1 && (|s| == 1 <==> n < 10)
    ensures forall i | 0 <= i < |s| :: s[i] in DIGITS
  {
    if n < 10 then [DIGITS[n]] else Decimal(n / 10) + [DIGITS[n % 10]]
  }

  lemma DigitInjective(a: nat, b: nat)
    requires a < 10 && b < 10 && DIGITS[a] == DIGITS[b]
    ensures a == b
  {
  }

  lemma {:induction false} DecimalInjective(a: nat, b: nat)
    requires Decimal(a) == Decimal(b)
    ensures a == b
  {
    var s, t := Decimal(a), Decimal(b);
    if |s| == 1 {
      assert s[0] == DIGITS[a] && t[0] == DIGITS[b];
    } else {
      assert s[..|s| - 1] == Decimal(a / 10) && t[..|t| - 1] == Decimal(b / 10);
      assert s[|s| - 1] == DIGITS[a % 10] && t[|t| - 1] == DIGITS[b % 10];
      DigitInjective(a % 10, b % 10);
      DecimalInjective(a / 10, b / 10);
    }
  }

  /** strings.Contains(s, "..") */
  predicate ContainsDots(s: string) {
    exists i | 0 <= i < |s| - 1 :: s[i] == '.' && s[i + 1] == '.'
  }

  /* ---------- Pieces of a text ---------- */

  function AppendToLast(parts: seq<string>, c: char): seq<string>
    requires parts != []
  {
    parts[..|parts| - 1] + [parts[|parts| - 1] + [c]]
  }

  function NotEmpty(ps: seq<string>): seq<string> {
    if ps == [] then []
    else if ps[|ps| - 1] == "" then NotEmpty(ps[..|ps| - 1]) else NotEmpty(ps[..|ps| - 1]) + [ps[|ps| - 1]]
  }

  lemma {:induction false} NotEmptySnoc(ps: seq<string>, p: string)
    ensures NotEmpty(ps + [p]) == if p == "" then NotEmpty(ps) else NotEmpty(ps) + [p]
  {
    assert (ps + [p])[..|ps|] == ps;
  }

  lemma {:induction false} NotEmptyConcat(a: seq<string>, b: seq<string>)
    ensures NotEmpty(a + b) == NotEmpty(a) + NotEmpty(b)
    decreases |b|
  {
    if b == [] {
      assert a + b == a;
    } else {
      var n := |b| - 1;
      NotEmptyConcat(a, b[..n]);
      assert (a + b)[..|a + b| - 1] == a + b[..n];
    }
  }

  lemma {:induction false} NotEmptyMembers(ps: seq<string>)
    ensures forall p | p in NotEmpty(ps) :: p in ps && p != ""
  {
    if ps != [] {
      NotEmptyMembers(ps[..|ps| - 1]);
    }
  }

  lemma {:induction false} NothingNotEmpty()
    ensures NotEmpty([]) == []
  {
  }

  /* ---------- Spaces ---------- */

  /** unicode.IsSpace */
  predicate IsSpace(c: char) {
    c == ' ' || c == '\t' || c == '\n' || c == '\r' || c == '\U{0B}' || c == '\U{0C}' || c == '\U{85}' || c == '\U{A0}'
    || c == '\U{1680}' || '\U{2000}' <= c <= '\U{200A}' || c == '\U{2028}' || c == '\U{2029}'
    || c == '\U{202F}' || c == '\U{205F}' || c == '\U{3000}'
  }

  /** strings.TrimSpace(s) == "" */
  predicate Blank(s: string) {
    forall c | c in s :: IsSpace(c)
  }

  /* ---------- Trimming ---------- */

  function TrimLeft(s: string, drop: char -> bool): string {
    if s != "" && drop(s[0]) then TrimLeft(s[1..], drop) else s
  }

  function TrimRight(s: string, drop: char -> bool): string {
    if s != "" && drop(s[|s| - 1]) then TrimRight(s[..|s| - 1], drop) else s
  }

  /** strings.TrimFunc; strings.Trim and strings.TrimSpace are instances of it. */
  function Trim(s: string, drop: char -> bool): string {
    TrimRight(TrimLeft(s, drop), drop)
  }

  function TrimSpace(s: string): string {
    Trim(s, IsSpace)
  }

  /** What is trimmed off consists of droppable characters, and no more can be trimmed off what stays. */
  lemma {:induction false} TrimParts(s: string, drop: char -> bool) returns (left: string, right: string)
    ensures s == left + Trim(s, drop) + right
    ensures (forall c | c in left :: drop(c)) && (forall c | c in right :: drop(c))
    ensures Trim(s, drop) != "" ==> !drop(Trim(s, drop)[0]) && !drop(Trim(s, drop)[|Trim(s, drop)| - 1])
  {
    left := TrimLeftPart(s, drop);
    right := TrimRightPart(TrimLeft(s, drop), drop);
  }

  lemma {:induction false} TrimLeftPart(s: string, drop: char -> bool) returns (left: string)
    ensures s == left + TrimLeft(s, drop) && forall c | c in left :: drop(c)
    ensures TrimLeft(s, drop) != "" ==> !drop(TrimLeft(s, drop)[0])
  {
    left := "";
    if s != "" && drop(s[0]) {
      left := TrimLeftPart(s[1..], drop);
      left := [s[0]] + left;
      assert s == [s[0]] + s[1..];
    }
  }

  lemma {:induction false} TrimRightPart(s: string, drop: char -> bool) returns (right: string)
    ensures s == TrimRight(s, drop) + right && forall c | c in right :: drop(c)
    ensures TrimRight(s, drop) != "" ==> !drop(TrimRight(s, drop)[|TrimRight(s, drop)| - 1])
    decreases |s|
  {
    right := "";
    if s != "" && drop(s[|s| - 1]) {
      right := TrimRightPart(s[..|s| - 1], drop);
      right := right + [s[|s| - 1]];
      assert s == s[..|s| - 1] + [s[|s| - 1]];
    }
  }

  /** A text between droppable ends, itself with none at either end, is what trimming leaves. */
  lemma {:induction false} TrimBetween(left: string, s: string, right: string, drop: char -> bool)
    requires (forall c | c in left :: drop(c)) && (forall c | c in right :: drop(c))
    requires s != "" ==> !drop(s[0]) && !drop(s[|s| - 1])
    ensures Trim(left + s + right, drop) == s
    decreases |left| + |right|
  {
    var t := left + s + right;
    if left != "" {
      assert t[1..] == left[1..] + s + right;
      TrimBetween(left[1..], s, right, drop);
    } else if right != "" {
      var n := |right| - 1;
      if s == "" {
        assert t == right && drop(right[0]) && t[1..] == "" + "" + right[1..];
        TrimBetween("", "", right[1..], drop);
      } else {
        assert TrimLeft(t, drop) == t;
        assert TrimLeft(t[..|t| - 1], drop) == t[..|t| - 1];
        assert t[..|t| - 1] == left + s + right[..n];
        TrimBetween(left, s, right[..n], drop);
      }
    } else {
      assert t == s;
    }
  }

  /* ---------- Fields ---------- */

  /** The text between single spaces of any kind. */
  function SplitSpaces(s: string): (ps: seq<string>)
    ensures ps != []
  {
    if s == "" then [""]
    else
      var before, c := SplitSpaces(s[..|s| - 1]), s[|s| - 1];
      if IsSpace(c) then before + [""] else AppendToLast(before, c)
  }

  /** strings.Fields */
  function Fields(s: string): seq<string> {
    NotEmpty(SplitSpaces(s))
  }

  function WithoutSpaces(s: string): string {
    if s == "" then ""
    else if IsSpace(s[|s| - 1]) then WithoutSpaces(s[..|s| - 1])
    else WithoutSpaces(s[..|s| - 1]) + [s[|s| - 1]]
  }

  function Flatten(ss: seq<string>): string {
    if ss == [] then "" else Flatten(ss[..|ss| - 1]) + ss[|ss| - 1]
  }

  lemma {:induction false} FlattenSnoc(ss: seq<string>, s: string)
    ensures Flatten(ss + [s]) == Flatten(ss) + s
  {
    assert (ss + [s])[..|ss|] == ss;
  }

  lemma {:induction false} FlattenNotEmpty(ps: seq<string>)
    ensures Flatten(NotEmpty(ps)) == Flatten(ps)
  {
    if ps != [] {
      var init, p := ps[..|ps| - 1], ps[|ps| - 1];
      FlattenNotEmpty(init);
      if p == "" {
        assert Flatten(init) + "" == Flatten(init);
      } else {
        FlattenSnoc(NotEmpty(init), p);
      }
    }
  }

  lemma {:induction false} SplitKeepsText(s: string)
    ensures Flatten(SplitSpaces(s)) == WithoutSpaces(s)
  {
    if s == "" {
      FlattenSnoc([], "");
      assert [] + [""] == [""];
    } else {
      hide IsSpace, Flatten;
      var init, c := s[..|s| - 1], s[|s| - 1];
      SplitKeepsText(init);
      var before := SplitSpaces(init);
      var front, last := before[..|before| - 1], before[|before| - 1];
      assert before == front + [last];
      FlattenSnoc(before, "");
      FlattenSnoc(front, last);
      FlattenSnoc(front, last + [c]);
      assert Flatten(front) + (last + [c]) == (Flatten(front) + last) + [c];
      assert Flatten(before) + "" == Flatten(before);
    }
  }

  predicate PieceOf(p: string, s: string) {
    forall c | c in p :: c in s && !IsSpace(c)
  }

  lemma {:induction false} PiecesHaveNoSpaces(s: string)
    ensures forall p | p in SplitSpaces(s) :: PieceOf(p, s)
  {
    hide IsSpace;
    if s != "" {
      var init, c := s[..|s| - 1], s[|s| - 1];
      PiecesHaveNoSpaces(init);
      var before := SplitSpaces(init);
      assert before[|before| - 1] in before;
      forall p | p in SplitSpaces(s) ensures PieceOf(p, s) {
        if p in before {
          assert PieceOf(p, init);
        }
      }
    }
  }

  /** The fields of a text: pieces without spaces, none empty, that make up the text without its spaces;
      there is one exactly if there is more than spaces. */
  lemma {:induction false} FieldsOfText(s: string)
    ensures Flatten(Fields(s)) == WithoutSpaces(s)
    ensures forall p | p in Fields(s) :: p != "" && PieceOf(p, s)
    ensures Fields(s) == [] <==> Blank(s)
  {
    SplitKeepsText(s);
    PiecesHaveNoSpaces(s);
    FlattenNotEmpty(SplitSpaces(s));
    NotEmptyMembers(SplitSpaces(s));
    NothingWithoutSpaces(s);
    if Fields(s) != [] {
      assert Fields(s)[0] in Fields(s);
      var c := Fields(s)[0][0];
      assert c in Fields(s)[0] && c in s;
    }
  }

  lemma {:induction false} NothingWithoutSpaces(s: string)
    ensures WithoutSpaces(s) == "" <==> Blank(s)
  {
    if s != "" {
      NothingWithoutSpaces(s[..|s| - 1]);
      assert s == s[..|s| - 1] + [s[|s| - 1]];
      if Blank(s[..|s| - 1]) && IsSpace(s[|s| - 1]) {
        assert forall c | c in s :: c in s[..|s| - 1] || c == s[|s| - 1];
      } else if IsSpace(s[|s| - 1]) {
        var c :| c in s[..|s| - 1] && !IsSpace(c);
        assert c in s;
      } else {
        assert s[|s| - 1] in s;
      }
    }
  }

  lemma {:induction false} SplitOneWord(s: string)
    requires forall c | c in s :: !IsSpace(c)
    ensures SplitSpaces(s) == [s]
  {
    hide IsSpace;
    if s != "" {
      var init, c := s[..|s| - 1], s[|s| - 1];
      assert s == init + [c] && c in s && forall d | d in init :: d in s;
      SplitOneWord(init);
    }
  }

  lemma {:induction false} SplitSpacesSnoc(s: string, c: char)
    ensures SplitSpaces(s + [c]) == if IsSpace(c) then SplitSpaces(s) + [""] else AppendToLast(SplitSpaces(s), c)
  {
    assert (s + [c])[..|s|] == s;
  }

  lemma {:induction false} SplitAtSpace(a: string, c: char, b: string)
    requires IsSpace(c)
    ensures SplitSpaces(a + [c] + b) == SplitSpaces(a) + SplitSpaces(b)
    decreases |b|
  {
    hide IsSpace, SplitSpaces;
    if b == "" {
      SplitOneWord("");
      SplitSpacesSnoc(a, c);
      assert a + [c] + b == a + [c];
    } else {
      var init, d := b[..|b| - 1], b[|b| - 1];
      assert b == init + [d] && a + [c] + b == (a + [c] + init) + [d];
      SplitAtSpace(a, c, init);
      SplitSpacesSnoc(init, d);
      SplitSpacesSnoc(a + [c] + init, d);
      var front, parts := SplitSpaces(a), SplitSpaces(init);
      assert AppendToLast(front + parts, d) == front + AppendToLast(parts, d);
      assert (front + parts) + [""] == front + (parts + [""]);
    }
  }

  /** The two rules that determine the fields of every text: a text without spaces is one field, and a space
      parts the fields before it from those behind it. */
  lemma {:induction false} FieldsDetermined(a: string, c: char, b: string)
    requires IsSpace(c)
    ensures (forall d | d in a :: !IsSpace(d)) ==> Fields(a) == if a == "" then [] else [a]
    ensures Fields(a + [c] + b) == Fields(a) + Fields(b)
  {
    hide IsSpace, SplitSpaces;
    if forall d | d in a :: !IsSpace(d) {
      SplitOneWord(a);
      NotEmptySnoc([], a);
      NothingNotEmpty();
      assert [] + [a] == [a];
    }
    SplitAtSpace(a, c, b);
    NotEmptyConcat(SplitSpaces(a), SplitSpaces(b));
  }

  /* ---------- Numbers ---------- */

  /** The number that a text of digits denotes. */
  function ValueOf(s: string): nat
    requires forall i | 0 <= i < |s| :: '0' <= s[i] <= '9'
  {
    if s == "" then 0 else 10 * ValueOf(s[..|s| - 1]) + (s[|s| - 1] as int - '0' as int)
  }

  lemma DigitValue(d: nat)
    requires d < 10
    ensures '0' <= DIGITS[d] <= '9' && DIGITS[d] as int - '0' as int == d
  {
  }

  /** The decimal text of a number denotes that number, and has no zero in front. */
  lemma {:induction false} DecimalDenotes(n: nat)
    ensures forall i | 0 <= i < |Decimal(n)| :: '0' <= Decimal(n)[i] <= '9'
    ensures ValueOf(Decimal(n)) == n
    ensures Decimal(n)[0] == '0' ==> n == 0
  {
    var s := Decimal(n);
    if n < 10 {
      DigitValue(n);
      assert s == [DIGITS[n]] && s[..0] == "";
    } else {
      DecimalDenotes(n / 10);
      DigitValue(n % 10);
      assert s == Decimal(n / 10) + [DIGITS[n % 10]];
      assert s[..|s| - 1] == Decimal(n / 10) && s[0] == Decimal(n / 10)[0];
    }
  }
}
