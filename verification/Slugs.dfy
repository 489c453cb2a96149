/** The names of sub-agent results (agent/subagent.go): a description becomes a slug. */
module Slugs {
  import opened Text

  const MAX_ASCII := '\U{7F}'

  /** The Unicode tables of the Go library. */
  datatype Unicode = Unicode(toLower: char -> char, isLetter: char -> bool, isNumber: char -> bool) {
    predicate Letter(c: char) {
      isLetter(c) || isNumber(c)
    }

    /** What is known of them: the tables on ASCII, no lower-case form is an ASCII capital, and spaces are
        neither letters nor numbers. */
    ghost predicate Sound() {
      && (forall c: char | c <= MAX_ASCII :: Letter(c) <==> 'a' <= c <= 'z' || 'A' <= c <= 'Z' || '0' <= c <= '9')
      && (forall c: char :: !('A' <= toLower(c) <= 'Z'))
      && (forall c: char | 'a' <= c <= 'z' || '0' <= c <= '9' || c == '-' :: toLower(c) == c)
      && (forall c: char | IsSpace(c) :: !Letter(c))
    }
  }

  /** The tables of ASCII alone. */
  const ASCII := Unicode(
    c => if 'A' <= c <= 'Z' then (c as int + 32) as char else c,
    c => 'a' <= c <= 'z' || 'A' <= c <= 'Z',
    c => '0' <= c <= '9')

  lemma AsciiIsSound()
    ensures ASCII.Sound()
  {
  }

  /** strings.ToLower */
  function ToLower(u: Unicode, s: string): (t: string)
    ensures |t| == |s| && forall i | 0 <= i < |s| :: t[i] == u.toLower(s[i])
  {
    seq(|s|, i requires 0 <= i < |s| => u.toLower(s[i]))
  }

  /* ---------- What a slug is ---------- */

  /** Whether a character separates two words, is dropped, or stays. */
  datatype Role = Separates | Dropped | Stays

  function RoleOf(u: Unicode, c: char): Role {
    if !u.Letter(c) then Separates else if c > MAX_ASCII then Dropped else Stays
  }

  /** The text between separators, without what is dropped. */
  function Pieces(u: Unicode, s: string): (ps: seq<string>)
    ensures ps != []
  {
    if s == "" then [""]
    else
      var before, c := Pieces(u, s[..|s| - 1]), s[|s| - 1];
      match RoleOf(u, c)
      case Separates => before + [""]
      case Dropped => before
      case Stays => AppendToLast(before, c)
  }

  function JoinDashes(ws: seq<string>): string {
    if ws == [] then ""
    else (if |ws| == 1 then "" else JoinDashes(ws[..|ws| - 1]) + "-") + ws[|ws| - 1]
  }

  /** The words of a text in lower case, joined by dashes. */
  function Slug(u: Unicode, s: string): string {
    JoinDashes(NotEmpty(Pieces(u, ToLower(u, s))))
  }

  predicate IsWordChar(c: char) {
    'a' <= c <= 'z' || '0' <= c <= '9'
  }

  predicate IsDash(c: char) {
    c == '-'
  }

  /** Lower-case letters and digits, in runs with single dashes between them; or nothing. */
  predicate IsSlug(s: string) {
    && (forall i | 0 <= i < |s| :: IsWordChar(s[i]) || IsDash(s[i]))
    && (s != "" ==> !IsDash(s[0]) && !IsDash(s[|s| - 1]))
    && (forall i | 0 <= i < |s| - 1 :: IsDash(s[i]) ==> !IsDash(s[i + 1]))
  }

  lemma {:induction false} PiecesSnoc(u: Unicode, s: string, c: char)
    ensures Pieces(u, s + [c]) ==
      match RoleOf(u, c)
      case Separates => Pieces(u, s) + [""]
      case Dropped => Pieces(u, s)
      case Stays => AppendToLast(Pieces(u, s), c)
  {
    assert (s + [c])[..|s|] == s;
  }

  lemma {:induction false} JoinSnoc(ws: seq<string>, w: string)
    ensures JoinDashes(ws + [w]) == if ws == [] then w else JoinDashes(ws) + "-" + w
  {
    assert (ws + [w])[..|ws|] == ws;
  }

  lemma {:induction false} ExtendLast(ws: seq<string>, w: string, c: char)
    ensures JoinDashes(ws + [w + [c]]) == JoinDashes(ws + [w]) + [c]
  {
    JoinSnoc(ws, w);
    JoinSnoc(ws, w + [c]);
  }

  /** How one more character changes the words joined so far. */
  lemma {:induction false} SlugStep(u: Unicode, s: string, c: char)
    ensures
      var ps, ps' := Pieces(u, s), Pieces(u, s + [c]);
      var out, out' := JoinDashes(NotEmpty(ps)), JoinDashes(NotEmpty(ps'));
      match RoleOf(u, c)
      case Stays =>
        && ps'[|ps'| - 1] != "" && |ps'| == |ps|
        && out' == (if NotEmpty(ps) == [] then [c] else out + Tail(ps[|ps| - 1] == "") + [c])
        && NotEmpty(ps') != []
      case Separates => out' == out && ps'[|ps'| - 1] == "" && |ps'| == |ps| + 1 && NotEmpty(ps') == NotEmpty(ps)
      case Dropped => ps' == ps
  {
    hide Pieces, NotEmpty, JoinDashes;
    PiecesSnoc(u, s, c);
    var ps, n := Pieces(u, s), |Pieces(u, s)| - 1;
    var init, last := ps[..n], ps[n];
    assert ps == init + [last];
    NotEmptySnoc(init, last);
    NotEmptySnoc(init, last + [c]);
    NotEmptySnoc(ps, "");
    NoWordsJoined();
    if last == "" {
      JoinSnoc(NotEmpty(init), [c]);
      assert last + [c] == [c] && "" + [c] == [c];
    } else {
      ExtendLast(NotEmpty(init), last, c);
    }
  }

  lemma {:induction false} NoWordsNoPiece(ps: seq<string>)
    ensures ps != [] && NotEmpty(ps) == [] ==> ps[|ps| - 1] == ""
    ensures |ps| == 1 && ps[0] == "" ==> NotEmpty(ps) == []
  {
  }

  /* ---------- slugify ---------- */

  method Slugify(u: Unicode, text: string) returns (out: string)
    requires u.Sound()
    ensures out == Slug(u, text)
  {
    hide JoinDashes, NotEmpty, Pieces, Built, Trim, ToLower;
    var s := TrimSpace(ToLower(u, text));
    TrimmingKeepsWords(u, text);
    NothingBuilt(u);
    if s == "" {
      return "";
    }
    var b, lastDash := "", false;
    for i := 0 to |s|
      invariant Built(u, s[..i], b, lastDash)
    {
      var r := s[i];
      assert s[..i + 1] == s[..i] + [r];
      BuiltStep(u, s[..i], r, b, lastDash);
      if u.isLetter(r) || u.isNumber(r) {
        if r > MAX_ASCII {
          continue;
        }
        b := b + [r];
        lastDash := false;
        continue;
      }
      if !lastDash {
        b := b + ['-'];
        lastDash := true;
      }
    }
    assert s[..|s|] == s;
    out := Trim(b, IsDash);
    BuiltTrims(u, s, b, lastDash);
  }

  /** What the loop has written after some text: the words, perhaps with a dash before or behind them. */
  ghost predicate Built(u: Unicode, s: string, b: string, lastDash: bool) {
    var ps := Pieces(u, s);
    var out := JoinDashes(NotEmpty(ps));
    && (lastDash <==> |ps| > 1 && ps[|ps| - 1] == "")
    && (b == out + Tail(lastDash) || (NotEmpty(ps) != [] && b == "-" + out + Tail(lastDash)))
  }

  lemma {:induction false} NothingBuilt(u: Unicode)
    ensures Built(u, "", "", false) && JoinDashes(NotEmpty(Pieces(u, ""))) == ""
  {
    NoWordsNoPiece([""]);
  }

  function Tail(lastDash: bool): string {
    if lastDash then "-" else ""
  }

  lemma {:induction false} BuiltStep(u: Unicode, s: string, c: char, b: string, lastDash: bool)
    requires Built(u, s, b, lastDash)
    ensures
      match RoleOf(u, c)
      case Stays => Built(u, s + [c], b + [c], false)
      case Separates => Built(u, s + [c], if lastDash then b else b + "-", true)
      case Dropped => Built(u, s + [c], b, lastDash)
  {
    hide JoinDashes, NotEmpty, Pieces;
    SlugStep(u, s, c);
    NoWordsNoPiece(Pieces(u, s));
    NoWordsJoined();
    var out := JoinDashes(NotEmpty(Pieces(u, s)));
    var tail := Tail(lastDash);
    match RoleOf(u, c)
    case Stays =>
      assert (out + tail) + [c] == out + tail + [c] + "";
      assert ("-" + out + tail) + [c] == "-" + (out + tail + [c]) + "";
    case Separates =>
      assert (out + "") + "-" == out + "-" && ("-" + out + "") + "-" == "-" + out + "-";
    case Dropped =>
  }

  lemma {:induction false} NoWordsJoined()
    ensures JoinDashes([]) == ""
  {
  }

  lemma {:induction false} BuiltTrims(u: Unicode, s: string, b: string, lastDash: bool)
    requires u.Sound() && Built(u, s, b, lastDash)
    requires forall c | c in s :: !('A' <= c <= 'Z')
    ensures Trim(b, IsDash) == JoinDashes(NotEmpty(Pieces(u, s)))
  {
    hide JoinDashes, NotEmpty, Pieces;
    WordsMakeSlug(u, s);
    var out, tail := JoinDashes(NotEmpty(Pieces(u, s))), Tail(lastDash);
    TrimBetween("", out, tail, IsDash);
    TrimBetween("-", out, tail, IsDash);
    assert "" + out + tail == out + tail;
  }

  /* ---------- Slugs and their language ---------- */

  predicate IsWord(w: string) {
    w != "" && forall i | 0 <= i < |w| :: IsWordChar(w[i])
  }

  lemma {:induction false} PiecesAreWords(u: Unicode, s: string)
    requires u.Sound() && forall c | c in s :: !('A' <= c <= 'Z')
    ensures forall p | p in Pieces(u, s) :: p == "" || IsWord(p)
  {
    if s != "" {
      var n := |s| - 1;
      assert s[n] in s && forall c | c in s[..n] :: c in s;
      PiecesAreWords(u, s[..n]);
      var before := Pieces(u, s[..n]);
      assert before[|before| - 1] in before;
    }
  }

  lemma {:induction false} SlugAndWord(s: string, w: string)
    requires IsSlug(s) && s != "" && IsWord(w)
    ensures IsSlug(s + "-" + w)
  {
    var t := s + "-" + w;
    forall i | 0 <= i < |t| - 1 && IsDash(t[i]) ensures !IsDash(t[i + 1]) {
      assert i < |s| ==> t[i] == s[i] && t[i + 1] == (s + "-")[i + 1];
      assert i >= |s| ==> t[i + 1] == w[i - |s|];
    }
  }

  lemma {:induction false} WordIsSlug(w: string)
    requires IsWord(w)
    ensures IsSlug(w)
  {
  }

  lemma {:induction false} JoinedIsSlug(ws: seq<string>)
    requires forall w | w in ws :: IsWord(w)
    ensures IsSlug(JoinDashes(ws)) && (JoinDashes(ws) == "" <==> ws == [])
  {
    hide IsSlug;
    if ws == [] {
      EmptySlug();
    } else {
      var n := |ws| - 1;
      assert ws[n] in ws && forall w | w in ws[..n] :: w in ws;
      JoinedIsSlug(ws[..n]);
      WordIsSlug(ws[n]);
      assert "" + ws[n] == ws[n];
      if n > 0 {
        SlugAndWord(JoinDashes(ws[..n]), ws[n]);
        assert JoinDashes(ws) == JoinDashes(ws[..n]) + "-" + ws[n];
      }
    }
  }

  lemma {:induction false} EmptySlug()
    ensures IsSlug("")
  {
  }

  lemma {:induction false} WordsMakeSlug(u: Unicode, s: string)
    requires u.Sound() && forall c | c in s :: !('A' <= c <= 'Z')
    ensures IsSlug(JoinDashes(NotEmpty(Pieces(u, s))))
  {
    PiecesAreWords(u, s);
    NotEmptyMembers(Pieces(u, s));
    JoinedIsSlug(NotEmpty(Pieces(u, s)));
  }

  /* ---------- Spaces at the ends ---------- */

  lemma {:induction false} PiecesAfterSeparator(u: Unicode, c: char, s: string)
    requires RoleOf(u, c) == Separates
    ensures Pieces(u, [c] + s) == [""] + Pieces(u, s)
    decreases |s|
  {
    if s == "" {
      assert [c] + s == "" + [c];
      PiecesSnoc(u, "", c);
    } else {
      var init, d := s[..|s| - 1], s[|s| - 1];
      assert [c] + s == ([c] + init) + [d] && s == init + [d];
      PiecesAfterSeparator(u, c, init);
      PiecesSnoc(u, [c] + init, d);
      PiecesSnoc(u, init, d);
    }
  }

  lemma {:induction false} SeparatorsBefore(u: Unicode, left: string, s: string)
    requires forall c | c in left :: RoleOf(u, c) == Separates
    ensures NotEmpty(Pieces(u, left + s)) == NotEmpty(Pieces(u, s))
  {
    hide Pieces, NotEmpty, RoleOf;
    if left == "" {
      assert left + s == s;
    } else {
      assert left[0] in left && forall c | c in left[1..] :: c in left;
      SeparatorsBefore(u, left[1..], s);
      assert left + s == [left[0]] + (left[1..] + s);
      PiecesAfterSeparator(u, left[0], left[1..] + s);
      NotEmptyConcat([""], Pieces(u, left[1..] + s));
      NotEmptySnoc([], "");
      NothingNotEmpty();
      assert [] + [""] == [""];
    }
  }

  lemma {:induction false} SeparatorsBehind(u: Unicode, s: string, right: string)
    requires forall c | c in right :: RoleOf(u, c) == Separates
    ensures NotEmpty(Pieces(u, s + right)) == NotEmpty(Pieces(u, s))
    decreases |right|
  {
    hide Pieces, NotEmpty;
    if right == "" {
      assert s + right == s;
    } else {
      var init, c := right[..|right| - 1], right[|right| - 1];
      assert c in right && forall d | d in init :: d in right;
      SeparatorsBehind(u, s, init);
      assert s + right == (s + init) + [c];
      PiecesSnoc(u, s + init, c);
      NotEmptySnoc(Pieces(u, s + init), "");
    }
  }

  lemma {:induction false} TrimmingKeepsWords(u: Unicode, text: string)
    requires u.Sound()
    ensures
      var t := ToLower(u, text);
      && NotEmpty(Pieces(u, TrimSpace(t))) == NotEmpty(Pieces(u, t))
      && forall c | c in TrimSpace(t) :: !('A' <= c <= 'Z')
  {
    var t := ToLower(u, text);
    var left, right := TrimParts(t, IsSpace);
    SeparatorsBehind(u, left + TrimSpace(t), right);
    SeparatorsBefore(u, left, TrimSpace(t));
    assert forall c | c in TrimSpace(t) :: c in t;
  }

  /* ---------- Normal form ---------- */

  /** The beginning of a slug: like a slug, but it may end in a dash. */
  predicate StartsSlug(s: string) {
    && (forall i | 0 <= i < |s| :: IsWordChar(s[i]) || IsDash(s[i]))
    && (s != "" ==> !IsDash(s[0]))
    && (forall i | 0 <= i < |s| - 1 :: IsDash(s[i]) ==> !IsDash(s[i + 1]))
  }

  predicate EndsInDash(s: string) {
    s != "" && IsDash(s[|s| - 1])
  }

  lemma {:induction false} RolesInSlugs(u: Unicode, c: char)
    requires u.Sound() && (IsWordChar(c) || IsDash(c))
    ensures RoleOf(u, c) == if IsDash(c) then Separates else Stays
  {
  }

  lemma {:induction false} SlugStartIsKept(u: Unicode, s: string)
    requires u.Sound() && StartsSlug(s)
    ensures JoinDashes(NotEmpty(Pieces(u, s))) + Tail(EndsInDash(s)) == s
    ensures Pieces(u, s)[|Pieces(u, s)| - 1] == "" <==> s == "" || EndsInDash(s)
    ensures NotEmpty(Pieces(u, s)) == [] <==> s == ""
  {
    hide JoinDashes, NotEmpty, Pieces, RoleOf, IsWordChar;
    NoPiecesYet(u);
    NothingBuilt(u);
    if s != "" {
      var init, c := s[..|s| - 1], s[|s| - 1];
      assert s == init + [c];
      SlugStartIsKept(u, init);
      SlugStep(u, init, c);
      RolesInSlugs(u, c);
      var out := JoinDashes(NotEmpty(Pieces(u, init)));
      if IsDash(c) {
        assert !EndsInDash(init) && out + "" == out;
      } else {
        assert out + Tail(EndsInDash(init)) + [c] == s && [c] + "" == [c] && s + "" == s;
      }
    }
  }

  lemma {:induction false} NoPiecesYet(u: Unicode)
    ensures Pieces(u, "") == [""] && NotEmpty([""]) == []
  {
    NoWordsNoPiece([""]);
  }

  /** Slugs are exactly the texts in normal form, and the fixed points of the conversion. */
  lemma {:induction false} SlugNormalForm(u: Unicode, s: string)
    requires u.Sound()
    ensures IsSlug(Slug(u, s))
    ensures Slug(u, s) == s <==> IsSlug(s)
  {
    var t := ToLower(u, s);
    assert forall c | c in t :: !('A' <= c <= 'Z');
    WordsMakeSlug(u, t);
    if IsSlug(s) {
      assert t == s;
      SlugStartIsKept(u, s);
      assert Slug(u, s) + "" == Slug(u, s);
    }
  }

  lemma {:induction false} SlugIdempotent(u: Unicode, s: string)
    requires u.Sound()
    ensures Slug(u, Slug(u, s)) == Slug(u, s)
  {
    SlugNormalForm(u, s);
    SlugNormalForm(u, Slug(u, s));
  }

  /** What a text keeps of itself: its letters and digits, as far as they are ASCII. */
  function Kept(u: Unicode, s: string): string {
    if s == "" then ""
    else
      var c := s[|s| - 1];
      Kept(u, s[..|s| - 1]) + if RoleOf(u, c) == Stays then [c] else ""
  }

  function WithoutDashes(s: string): string {
    if s == "" then ""
    else
      var c := s[|s| - 1];
      WithoutDashes(s[..|s| - 1]) + if IsDash(c) then "" else [c]
  }

  lemma {:induction false} WithoutDashesSnoc(s: string, c: char)
    ensures WithoutDashes(s + [c]) == if IsDash(c) then WithoutDashes(s) else WithoutDashes(s) + [c]
  {
    assert (s + [c])[..|s|] == s;
    assert WithoutDashes(s) + "" == WithoutDashes(s);
  }

  lemma {:induction false} PiecesKeepLetters(u: Unicode, s: string)
    requires u.Sound()
    ensures WithoutDashes(JoinDashes(NotEmpty(Pieces(u, s)))) == Kept(u, s)
  {
    hide JoinDashes, NotEmpty, Pieces, WithoutDashes;
    if s == "" {
      NothingBuilt(u);
      NoDashesInNothing();
    } else {
      var init, c := s[..|s| - 1], s[|s| - 1];
      assert s == init + [c];
      PiecesKeepLetters(u, init);
      SlugStep(u, init, c);
      NoWordsJoined();
      var out := JoinDashes(NotEmpty(Pieces(u, init)));
      WithoutDashesSnoc(out, '-');
      WithoutDashesSnoc(out, c);
      WithoutDashesSnoc(out + "-", c);
      assert "" + [c] == [c] && out + "" == out;
      assert Kept(u, init) + "" == Kept(u, init);
    }
  }

  lemma {:induction false} NoDashesInNothing()
    ensures WithoutDashes("") == ""
  {
  }

  /** A slug loses, doubles and reorders nothing: without its dashes it is what the text keeps. */
  lemma {:induction false} SlugKeepsLetters(u: Unicode, s: string)
    requires u.Sound()
    ensures WithoutDashes(Slug(u, s)) == Kept(u, ToLower(u, s))
  {
    PiecesKeepLetters(u, ToLower(u, s));
  }

  /* ---------- The rules that determine a slug ---------- */

  lemma {:induction false} PiecesAt(u: Unicode, a: string, c: char, b: string)
    ensures !u.Letter(c) ==> Pieces(u, a + [c] + b) == Pieces(u, a) + Pieces(u, b)
    ensures u.Letter(c) && c > '\U{7F}' ==> Pieces(u, a + [c] + b) == Pieces(u, a + b)
    decreases |b|
  {
    if b == "" {
      hide Pieces;
      PiecesSnoc(u, a, c);
      NoPieces(u);
      assert a + [c] + b == a + [c] && a + b == a;
    } else {
      hide Pieces;
      var init, d := b[..|b| - 1], b[|b| - 1];
      assert b == init + [d] && a + [c] + b == (a + [c] + init) + [d] && a + b == (a + init) + [d];
      PiecesAt(u, a, c, init);
      PiecesSnoc(u, init, d);
      PiecesSnoc(u, a + init, d);
      PiecesSnoc(u, a + [c] + init, d);
      var front, parts := Pieces(u, a), Pieces(u, init);
      assert AppendToLast(front + parts, d) == front + AppendToLast(parts, d);
      assert (front + parts) + [""] == front + (parts + [""]);
    }
  }

  lemma {:induction false} NoPieces(u: Unicode)
    ensures Pieces(u, "") == [""]
  {
  }

  lemma {:induction false} OnePiece(u: Unicode, s: string)
    requires forall c | c in s :: u.Letter(c) && c <= '\U{7F}'
    ensures Pieces(u, s) == [s]
  {
    if s != "" {
      var init, c := s[..|s| - 1], s[|s| - 1];
      assert s == init + [c] && c in s && forall d | d in init :: d in s;
      OnePiece(u, init);
    }
  }

  /** The words of a text in lower case. */
  function WordsOf(u: Unicode, s: string): seq<string> {
    NotEmpty(Pieces(u, s))
  }

  /** The rules that determine the words of every text: a text of ASCII letters and digits is one word; anything else
      than a letter or a number parts words; other letters and numbers leave no trace. */
  lemma {:induction false} WordsDetermined(u: Unicode, a: string, c: char, b: string)
    ensures (forall d | d in a :: u.Letter(d) && d <= '\U{7F}') ==> WordsOf(u, a) == if a == "" then [] else [a]
    ensures !u.Letter(c) ==> WordsOf(u, a + [c] + b) == WordsOf(u, a) + WordsOf(u, b)
    ensures u.Letter(c) && c > '\U{7F}' ==> WordsOf(u, a + [c] + b) == WordsOf(u, a + b)
  {
    hide Pieces;
    PiecesAt(u, a, c, b);
    NotEmptyConcat(Pieces(u, a), Pieces(u, b));
    if forall d | d in a :: u.Letter(d) && d <= '\U{7F}' {
      OnePiece(u, a);
      NotEmptySnoc([], a);
      NothingNotEmpty();
      assert [] + [a] == [a];
    }
  }
}
