/** Search text: characters, lower-casing and the tokenizer of the search service.
    A text is a sequence of code points. */
module Text {
  import opened Sequences

  /** The Unicode white space that `strings.Fields` splits on. */
  predicate IsSpace(c: char) {
    var n := c as int;
    || 0x09 <= n <= 0x0D || n == 0x20 || n == 0x85 || n == 0xA0 || n == 0x1680
    || 0x2000 <= n <= 0x200A || n == 0x2028 || n == 0x2029 || n == 0x202F || n == 0x205F || n == 0x3000
  }

  predicate IsPunct(c: char) {
    c == ',' || c == '.' || c == '!' || c == '?' || c == '-' || c == '_'
  }

  predicate IsSeparator(c: char) {
    IsSpace(c) || IsPunct(c)
  }

  /** Number of bytes of a code point in UTF-8. */
  function Width(c: char): nat {
    var n := c as int;
    if n < 0x80 then 1 else if n < 0x800 then 2 else if n < 0x10000 then 3 else 4
  }

  function ByteLen(s: string): nat {
    if s == "" then 0 else Width(s[0]) + ByteLen(s[1..])
  }

  /** The storage package's own lower-casing: ASCII letters only. */
  function AsciiLower(c: char): char {
    if 'A' <= c <= 'Z' then (c as int + 32) as char else c
  }

  /** What is assumed of the Unicode lower-casing behind `strings.ToLower`: it agrees with
      ASCII on ASCII, is idempotent, and neither makes nor removes a separator. */
  ghost predicate IsLowering(f: char -> char) {
    && (forall c: char :: c as int < 0x80 ==> f(c) == AsciiLower(c))
    && (forall c: char :: f(f(c)) == f(c))
    && (forall c: char :: IsSeparator(c) ==> f(c) == c)
    && (forall c: char :: !IsSeparator(c) ==> !IsSeparator(f(c)))
  }

  type Lowering = f: char -> char | IsLowering(f) witness AsciiLower

  function MapText(f: char -> char, s: string): (r: string)
    ensures |r| == |s| && forall i :: 0 <= i < |s| ==> r[i] == f(s[i])
  {
    seq(|s|, i requires 0 <= i < |s| => f(s[i]))
  }

  /** `strings.ReplaceAll(s, c, " ")` for a one-character pattern. */
  function ReplaceWithSpace(s: string, c: char): (r: string)
    ensures |r| == |s| && forall i :: 0 <= i < |s| ==> r[i] == if s[i] == c then ' ' else s[i]
  {
    seq(|s|, i requires 0 <= i < |s| => if s[i] == c then ' ' else s[i])
  }

  /** Length of the longest prefix without a separator. */
  function WordLen(s: string, sep: char -> bool): (n: nat)
    ensures n <= |s|
    ensures forall i :: 0 <= i < n ==> !sep(s[i])
    ensures n < |s| ==> sep(s[n])
  {
    if s == "" || sep(s[0]) then 0 else 1 + WordLen(s[1..], sep)
  }

  /** The non-empty runs between separators, in order. */
  function Split(s: string, sep: char -> bool): seq<string>
    decreases |s|
  {
    if s == "" then []
    else if sep(s[0]) then Split(s[1..], sep)
    else var n := WordLen(s, sep); [s[..n]] + Split(s[n..], sep)
  }

  function LongEnough(words: seq<string>): seq<string> {
    if words == [] then []
    else (if ByteLen(words[0]) >= 2 then [words[0]] else []) + LongEnough(words[1..])
  }

  /** What the tokenizer computes: the runs of the lower-cased text between separators that
      take at least two bytes. */
  function Tokens(low: Lowering, text: string): seq<string> {
    LongEnough(Split(MapText(low, text), IsSeparator))
  }

  /** The tokenizer as written: lower-case, blank out six punctuation marks one after the
      other, split on white space only, then drop the short parts. */
  method Tokenize(low: Lowering, text: string) returns (tokens: seq<string>)
    ensures tokens == Tokens(low, text)
  {
    var t := MapText(low, text);
    ghost var lowered := t;
    t := ReplaceWithSpace(t, ',');
    t := ReplaceWithSpace(t, '.');
    t := ReplaceWithSpace(t, '!');
    t := ReplaceWithSpace(t, '?');
    t := ReplaceWithSpace(t, '-');
    t := ReplaceWithSpace(t, '_');
    var parts := Split(t, IsSpace);
    SplitBlanked(lowered, t);
    tokens := [];
    for i := 0 to |parts|
      invariant tokens == LongEnough(parts[..i])
    {
      LongEnoughConcat(parts[..i], [parts[i]]);
      assert parts[..i + 1] == parts[..i] + [parts[i]];
      if ByteLen(parts[i]) >= 2 {
        tokens := tokens + [parts[i]];
      }
    }
    assert parts[..|parts|] == parts;
  }

  // ---- Splitting ----

  lemma {:induction false} LongEnoughConcat(a: seq<string>, b: seq<string>)
    ensures LongEnough(a + b) == LongEnough(a) + LongEnough(b)
  {
    if a == [] {
      assert a + b == b;
    } else {
      LongEnoughConcat(a[1..], b);
      ConcatHead(a, b);
      Assoc(if ByteLen(a[0]) >= 2 then [a[0]] else [], LongEnough(a[1..]), LongEnough(b));
    }
  }

  lemma {:induction false} LongEnoughMember(words: seq<string>, w: string)
    ensures w in LongEnough(words) <==> w in words && ByteLen(w) >= 2
  {
    if words != [] {
      LongEnoughMember(words[1..], w);
    }
  }

  /** Blanking the punctuation and then splitting on white space is splitting on both. */
  lemma {:induction false} SplitBlanked(s: string, blanked: string)
    requires |blanked| == |s|
    requires forall i :: 0 <= i < |s| ==> blanked[i] == if IsPunct(s[i]) then ' ' else s[i]
    ensures Split(blanked, IsSpace) == Split(s, IsSeparator)
    decreases |s|
  {
    if s == "" {
    } else if IsSeparator(s[0]) {
      SplitBlanked(s[1..], blanked[1..]);
    } else {
      var n, m := WordLen(s, IsSeparator), WordLen(blanked, IsSpace);
      assert n == m;
      assert s[..n] == blanked[..n];
      SplitBlanked(s[n..], blanked[n..]);
    }
  }

  lemma {:induction false} WordLenIs(s: string, n: nat, sep: char -> bool)
    requires n <= |s| && forall i :: 0 <= i < n ==> !sep(s[i])
    requires n < |s| ==> sep(s[n])
    ensures WordLen(s, sep) == n
  {
    if n > 0 {
      WordLenIs(s[1..], n - 1, sep);
    }
  }

  lemma {:induction false} SplitAtSeparator(a: string, c: char, b: string, sep: char -> bool)
    requires sep(c)
    ensures Split(a + [c] + b, sep) == Split(a, sep) + Split(b, sep)
    decreases |a|
  {
    var s := a + [c] + b;
    if a == "" {
      assert s[1..] == b;
    } else if sep(a[0]) {
      SplitAtSeparator(a[1..], c, b, sep);
      assert s[1..] == a[1..] + [c] + b;
    } else {
      var n := WordLen(a, sep);
      WordLenIs(s, n, sep);
      SplitAtSeparator(a[n..], c, b, sep);
      assert s[n..] == a[n..] + [c] + b;
      assert s[..n] == a[..n];
    }
  }

  lemma SplitWord(w: string, sep: char -> bool)
    requires w != "" && forall c :: c in w ==> !sep(c)
    ensures Split(w, sep) == [w]
  {
    assert WordLen(w, sep) == |w|;
    assert w[..|w|] == w && w[|w|..] == "";
    assert Split(w[|w|..], sep) == [];
  }

  /** A maximal separator-free run of s: an independent description of a word. */
  ghost predicate IsRun(s: string, i: int, j: int, sep: char -> bool) {
    && 0 <= i < j <= |s|
    && (forall k :: i <= k < j ==> !sep(s[k]))
    && (i == 0 || sep(s[i - 1]))
    && (j == |s| || sep(s[j]))
  }

  ghost predicate HasRun(s: string, w: string, sep: char -> bool) {
    exists i, j :: IsRun(s, i, j, sep) && s[i..j] == w
  }

  /** Every run of s is its first word or starts behind it. */
  lemma FirstRun(s: string, n: nat, i: int, j: int, sep: char -> bool)
    requires s != "" && !sep(s[0]) && n == WordLen(s, sep)
    requires IsRun(s, i, j, sep)
    ensures (i == 0 && j == n) || n < i
  {
  }

  /** Splitting yields exactly the maximal runs. */
  lemma {:induction false} SplitIsRuns(s: string, sep: char -> bool, w: string)
    ensures w in Split(s, sep) <==> HasRun(s, w, sep)
    decreases |s|
  {
    if s == "" {
    } else if sep(s[0]) {
      SplitIsRuns(s[1..], sep, w);
      ShiftRuns(s, 1, sep, w);
    } else {
      var n := WordLen(s, sep);
      SplitFirst(s, n, sep, w);
      assert IsRun(s, 0, n, sep) && s[0..n] == s[..n];
      if n < |s| {
        SplitIsRuns(s[n + 1..], sep, w);
        ShiftRuns(s, n + 1, sep, w);
      }
      if HasRun(s, w, sep) && w != s[..n] {
        var i, j :| IsRun(s, i, j, sep) && s[i..j] == w;
        FirstRun(s, n, i, j, sep);
        assert n < |s|;
      }
    }
  }

  lemma SplitFirst(s: string, n: nat, sep: char -> bool, w: string)
    requires s != "" && !sep(s[0]) && n == WordLen(s, sep)
    ensures w in Split(s, sep) <==> w == s[..n] || (n < |s| && w in Split(s[n + 1..], sep))
  {
    if n < |s| {
      assert s[n..][0] == s[n] && s[n..][1..] == s[n + 1..];
    }
  }

  lemma RunBehind(s: string, p: nat, i: int, j: int, sep: char -> bool)
    requires 0 < p <= |s| && sep(s[p - 1]) && p <= i
    ensures IsRun(s, i, j, sep) <==> IsRun(s[p..], i - p, j - p, sep)
    ensures IsRun(s, i, j, sep) ==> s[i..j] == s[p..][i - p..j - p]
  {
    var t := s[p..];
    assert forall k :: 0 <= k < |t| ==> t[k] == s[k + p];
    if IsRun(t, i - p, j - p, sep) {
      forall k | i <= k < j
        ensures !sep(s[k])
      {
        assert t[k - p] == s[k];
      }
    }
  }

  /** Behind a separator at position p - 1, the runs of the rest are those of s from p on. */
  lemma ShiftRuns(s: string, p: nat, sep: char -> bool, w: string)
    requires 0 < p <= |s| && sep(s[p - 1])
    ensures HasRun(s[p..], w, sep) <==> exists i, j :: p <= i && IsRun(s, i, j, sep) && s[i..j] == w
  {
    if HasRun(s[p..], w, sep) {
      var i, j :| IsRun(s[p..], i, j, sep) && s[p..][i..j] == w;
      RunBehind(s, p, p + i, p + j, sep);
    }
    if exists i, j :: p <= i && IsRun(s, i, j, sep) && s[i..j] == w {
      var i, j :| p <= i && IsRun(s, i, j, sep) && s[i..j] == w;
      RunBehind(s, p, i, j, sep);
    }
  }

  // ---- The tokenizer's laws ----

  /** A possible token: at least two bytes, lower-case already, no separator. */
  ghost predicate IsToken(low: Lowering, t: string) {
    ByteLen(t) >= 2 && forall c :: c in t ==> !IsSeparator(c) && low(c) == c
  }

  /** The tokens of a text are exactly the maximal runs of its lower-cased form that take two
      bytes or more, and each is a clean token. */
  lemma TokensAreRuns(low: Lowering, text: string, t: string)
    ensures t in Tokens(low, text) <==> HasRun(MapText(low, text), t, IsSeparator) && ByteLen(t) >= 2
    ensures t in Tokens(low, text) ==> IsToken(low, t)
  {
    var lowered := MapText(low, text);
    SplitIsRuns(lowered, IsSeparator, t);
    LongEnoughMember(Split(lowered, IsSeparator), t);
    if t in Tokens(low, text) {
      var i, j :| IsRun(lowered, i, j, IsSeparator) && lowered[i..j] == t;
      forall c | c in t
        ensures !IsSeparator(c) && low(c) == c
      {
        var k :| 0 <= k < |t| && t[k] == c;
        assert c == lowered[i + k] == low(text[i + k]);
      }
    }
  }

  /** The 25 code points with the Unicode property White_Space. */
  const WHITE_SPACE :=
    "\t\n\U{0B}\U{0C}\r \U{85}\U{A0}\U{1680}\U{2000}\U{2001}\U{2002}\U{2003}\U{2004}\U{2005}\U{2006}"
    + "\U{2007}\U{2008}\U{2009}\U{200A}\U{2028}\U{2029}\U{202F}\U{205F}\U{3000}"

  /** The characters that end a token. */
  const TOKEN_ENDS := WHITE_SPACE + ",.!?-_"

  lemma SpaceIsWhiteSpace(c: char)
    ensures IsSpace(c) <==> c in WHITE_SPACE
  {
    assert |WHITE_SPACE| == 25;
    if IsSpace(c) {
      var n := c as int;
      assert 0x09 <= n <= 0x0D ==> WHITE_SPACE[n - 9] == c;
      assert 0x2000 <= n <= 0x200A ==> WHITE_SPACE[n - 0x2000 + 9] == c;
      assert WHITE_SPACE[5] == ' ' && WHITE_SPACE[6] == '\U{85}' && WHITE_SPACE[7] == '\U{A0}' && WHITE_SPACE[8] == '\U{1680}';
      assert WHITE_SPACE[20] == '\U{2028}' && WHITE_SPACE[21] == '\U{2029}' && WHITE_SPACE[22] == '\U{202F}';
      assert WHITE_SPACE[23] == '\U{205F}' && WHITE_SPACE[24] == '\U{3000}';
    }
  }

  lemma SeparatorsAreTokenEnds(c: char)
    ensures IsSeparator(c) <==> c in TOKEN_ENDS
  {
    SpaceIsWhiteSpace(c);
    var marks := ",.!?-_";
    assert marks[0] == ',' && marks[1] == '.' && marks[2] == '!' && marks[3] == '?' && marks[4] == '-' && marks[5] == '_';
    assert c in TOKEN_ENDS <==> c in WHITE_SPACE || c in marks;
    assert IsPunct(c) <==> c in marks;
  }

  /** Each of them splits a text: its tokens are those of the two sides. */
  lemma TokensSplitAt(low: Lowering, a: string, c: char, b: string)
    requires c in TOKEN_ENDS
    ensures Tokens(low, a + [c] + b) == Tokens(low, a) + Tokens(low, b)
  {
    SeparatorsAreTokenEnds(c);
    var la, lb := MapText(low, a), MapText(low, b);
    assert MapText(low, a + [c] + b) == la + [c] + lb;
    SplitAtSeparator(la, c, lb, IsSeparator);
    LongEnoughConcat(Split(la, IsSeparator), Split(lb, IsSeparator));
  }

  /** And no other character does: a text without them is one token, lower-cased, unless it has
      fewer than two bytes then. */
  lemma TextWithoutEndsIsOneToken(low: Lowering, text: string)
    requires forall c :: c in text ==> c !in TOKEN_ENDS
    ensures Tokens(low, text) == if ByteLen(MapText(low, text)) >= 2 then [MapText(low, text)] else []
  {
    var t := MapText(low, text);
    forall c | c in t
      ensures !IsSeparator(c)
    {
      var k :| 0 <= k < |t| && t[k] == c;
      assert text[k] in text;
      SeparatorsAreTokenEnds(text[k]);
    }
    if t == "" {
      assert ByteLen(t) == 0;
    } else {
      SplitWord(t, IsSeparator);
      assert LongEnough([t]) == if ByteLen(t) >= 2 then [t] else [];
    }
  }

  /** Two characters always have two bytes. */
  lemma LongTextIsOneToken(low: Lowering, text: string)
    requires |text| >= 2 && forall c :: c in text ==> c !in TOKEN_ENDS
    ensures Tokens(low, text) == [MapText(low, text)]
  {
    TextWithoutEndsIsOneToken(low, text);
    ByteLenBounds(MapText(low, text));
  }

  lemma {:induction false} ByteLenBounds(s: string)
    ensures |s| <= ByteLen(s) <= 4 * |s|
  {
    if s != [] {
      ByteLenBounds(s[1..]);
    }
  }

  /** One character is a token exactly when its lower case is outside ASCII. */
  lemma OneCharacter(low: Lowering, c: char)
    requires c !in TOKEN_ENDS
    ensures Tokens(low, [c]) == if low(c) as int < 0x80 then [] else [[low(c)]]
  {
    TextWithoutEndsIsOneToken(low, [c]);
    assert MapText(low, [c]) == [low(c)];
    assert ByteLen([low(c)]) == Width(low(c)) + ByteLen([low(c)][1..]);
  }

  /** A code point takes at most n bytes exactly when it fits their payload of 7, 11, 16 or 21
      bits (section 3 of RFC 3629). */
  lemma WidthIsUtf8(c: char)
    ensures 1 <= Width(c) <= 4
    ensures Width(c) <= 1 <==> c as int < 128
    ensures Width(c) <= 2 <==> c as int < 2048
    ensures Width(c) <= 3 <==> c as int < 65536
  {
  }

  /** Tokenizing two texts joined by a blank is tokenizing each. */
  lemma TokensOfJoined(low: Lowering, a: string, b: string)
    ensures Tokens(low, a + " " + b) == Tokens(low, a) + Tokens(low, b)
  {
    SeparatorsAreTokenEnds(' ');
    TokensSplitAt(low, a, ' ', b);
    assert a + " " + b == a + [' '] + b;
  }

  /** Code points 65 to 90, the ASCII capitals, become 97 to 122, and nothing else changes. */
  lemma AsciiLowerIs(c: char)
    ensures AsciiLower(c) as int == if 65 <= c as int <= 90 then c as int + 32 else c as int
    ensures AsciiLower('A') == 'a' && AsciiLower('Z') == 'z' && AsciiLower('@') == '@' && AsciiLower('[') == '['
  {
  }

  function JoinWithSpaces(words: seq<string>): string {
    if words == [] then ""
    else if |words| == 1 then words[0]
    else words[0] + " " + JoinWithSpaces(words[1..])
  }

  lemma TokensOfToken(low: Lowering, t: string)
    requires IsToken(low, t)
    ensures Tokens(low, t) == [t]
  {
    assert MapText(low, t) == t by {
      assert forall i :: 0 <= i < |t| ==> t[i] in t;
    }
    SplitWord(t, IsSeparator);
    assert LongEnough([t]) == [t];
  }

  /** Any list of clean tokens is read back from its space-joined text. */
  lemma {:induction false} TokensReadBack(low: Lowering, ts: seq<string>)
    requires forall t :: t in ts ==> IsToken(low, t)
    ensures Tokens(low, JoinWithSpaces(ts)) == ts
  {
    if ts == [] {
      assert MapText(low, "") == "";
    } else {
      TokensOfToken(low, ts[0]);
      if |ts| == 1 {
      } else {
        TokensReadBack(low, ts[1..]);
        TokensOfJoined(low, ts[0], JoinWithSpaces(ts[1..]));
        assert [ts[0]] + ts[1..] == ts;
      }
    }
  }

  /** Tokenizing is idempotent. */
  lemma TokenizeIdempotent(low: Lowering, text: string)
    ensures Tokens(low, JoinWithSpaces(Tokens(low, text))) == Tokens(low, text)
  {
    forall t | t in Tokens(low, text)
      ensures IsToken(low, t)
    {
      TokensAreRuns(low, text, t);
    }
    TokensReadBack(low, Tokens(low, text));
  }
}
