/** String operations shared by the backend and the frontend code: Python's
    `str.strip`, `str.split`, `str.join`, `str.lower`, `in` on strings,
    `int(...)`, `str(int)`, JavaScript's `Number.parseInt`, and the
    `re.sub(r"\W+", "-", s)` slug rule. Strings are sequences of characters;
    character classes are the ASCII ones. */
module Text {
  import opened Wrappers

  predicate IsDigit(c: char) { '0' <= c <= '9' }

  predicate IsAsciiLetter(c: char) { 'a' <= c <= 'z' || 'A' <= c <= 'Z' }

  /** The `\w` class of Python regular expressions, restricted to ASCII. */
  predicate IsWordChar(c: char) { IsAsciiLetter(c) || IsDigit(c) || c == '_' }

  /** The whitespace that Python's `str.strip()` and JavaScript's `trim()` remove (ASCII part). */
  predicate IsSpace(c: char) {
    c == ' ' || c == '\t' || c == '\n' || c == '\r' || c == '\U{B}' || c == '\U{C}'
  }

  predicate AllDigits(s: string) { forall i :: 0 <= i < |s| ==> IsDigit(s[i]) }

  // ---------------------------------------------------------------------------
  // Case and containment
  // ---------------------------------------------------------------------------

  function LowerChar(c: char): (r: char)
    ensures IsAsciiLetter(c) ==> 'a' <= r <= 'z'
    ensures !('A' <= c <= 'Z') ==> r == c
  {
    if 'A' <= c <= 'Z' then (c as int + 32) as char else c
  }

  /** `s.lower()` / `s.toLowerCase()` on the ASCII letters. */
  function Lower(s: string): (r: string)
    ensures |r| == |s|
    ensures forall i :: 0 <= i < |s| ==> r[i] == LowerChar(s[i])
  {
    if s == [] then [] else [LowerChar(s[0])] + Lower(s[1..])
  }

  /** `sub in s` (Python) and `s.includes(sub)` (JavaScript). */
  predicate Contains(s: string, sub: string) {
    exists i :: 0 <= i <= |s| - |sub| && OccursAt(s, sub, i)
  }

  /** `sub` occurs in `s` starting at index `i`. */
  predicate OccursAt(s: string, sub: string, i: int) {
    0 <= i <= |s| - |sub| && s[i..i + |sub|] == sub
  }

  predicate StartsWith(s: string, prefix: string) {
    |prefix| <= |s| && s[..|prefix|] == prefix
  }

  predicate EndsWith(s: string, suffix: string) {
    |suffix| <= |s| && s[|s| - |suffix|..] == suffix
  }

  lemma ContainsItself(s: string)
    ensures Contains(s, s)
  {
    assert OccursAt(s, s, 0);
  }

  lemma ContainsEmpty(s: string)
    ensures Contains(s, "")
  {
    assert OccursAt(s, "", 0);
  }

  /** A text that lacks one character of `sub` does not contain `sub`. */
  lemma LacksCharOf(s: string, sub: string, k: nat)
    requires k < |sub| && sub[k] !in s
    ensures !Contains(s, sub)
  {
    forall i | 0 <= i <= |s| - |sub| ensures !OccursAt(s, sub, i) {
      assert s[i..i + |sub|][k] == s[i + k];
    }
  }

  /** A text contained in one part of a concatenation is contained in the whole. */
  lemma ContainsInConcat(a: string, b: string, sub: string)
    ensures Contains(a, sub) ==> Contains(a + b, sub)
    ensures Contains(b, sub) ==> Contains(a + b, sub)
  {
    if Contains(a, sub) {
      var i :| 0 <= i <= |a| - |sub| && OccursAt(a, sub, i);
      assert (a + b)[i..i + |sub|] == a[i..i + |sub|];
      assert OccursAt(a + b, sub, i);
    }
    if Contains(b, sub) {
      var i :| 0 <= i <= |b| - |sub| && OccursAt(b, sub, i);
      var j := |a| + i;
      assert 0 <= i <= |b| - |sub|;
      assert (a + b)[j..j + |sub|] == b[i..i + |sub|];
      assert OccursAt(a + b, sub, j);
    }
  }

  // ---------------------------------------------------------------------------
  // Stripping
  // ---------------------------------------------------------------------------

  function StripLeft(s: string): (r: string)
    ensures |r| <= |s| && r == s[|s| - |r|..]
    ensures r == [] || !IsSpace(r[0])
  {
    if s != [] && IsSpace(s[0]) then StripLeft(s[1..]) else s
  }

  function StripRight(s: string): (r: string)
    ensures |r| <= |s| && r == s[..|r|]
    ensures r == [] || !IsSpace(r[|r| - 1])
  {
    if s != [] && IsSpace(s[|s| - 1]) then StripRight(s[..|s| - 1]) else s
  }

  /** `s.strip()` / `s.trim()`. */
  function Strip(s: string): string {
    StripRight(StripLeft(s))
  }

  /** Stripping keeps everything up to the last non-space character. */
  lemma {:induction false} StripRightKeeps(s: string, i: nat)
    requires i < |s| && !IsSpace(s[i])
    ensures |StripRight(s)| > i
  {
    if IsSpace(s[|s| - 1]) {
      StripRightKeeps(s[..|s| - 1], i);
    }
  }

  lemma {:induction false} StripLeftKeeps(s: string, i: nat)
    requires i < |s| && !IsSpace(s[i])
    ensures StripLeft(s) != []
  {
    if IsSpace(s[0]) {
      StripLeftKeeps(s[1..], i - 1);
    }
  }

  /** A text with a character that is not white space is not blank. */
  lemma NotBlank(s: string, i: nat)
    requires i < |s| && !IsSpace(s[i])
    ensures Strip(s) != ""
  {
    StripLeftKeeps(s, i);
    StripRightKeeps(StripLeft(s), 0);
  }

  /** `s.strip(c)` for one character `c`. */
  function StripChar(s: string, c: char): string {
    TrimEndChar(TrimStartChar(s, c), c)
  }

  function TrimStartChar(s: string, c: char): (r: string)
    ensures |r| <= |s|
  {
    if s != [] && s[0] == c then TrimStartChar(s[1..], c) else s
  }

  function TrimEndChar(s: string, c: char): (r: string)
    ensures |r| <= |s|
  {
    if s != [] && s[|s| - 1] == c then TrimEndChar(s[..|s| - 1], c) else s
  }

  // ---------------------------------------------------------------------------
  // Splitting and joining
  // ---------------------------------------------------------------------------

  /** `s.split(sep)` for a one-character separator: the pieces between separators, never empty. */
  function Split(s: string, sep: char): (parts: seq<string>)
    ensures |parts| >= 1
  {
    if s == [] then [""]
    else
      var rest := Split(s[1..], sep);
      if s[0] == sep then [""] + rest else [[s[0]] + rest[0]] + rest[1..]
  }

  /** `sep.join(parts)`. */
  function Join(parts: seq<string>, sep: string): string {
    if |parts| == 0 then ""
    else if |parts| == 1 then parts[0]
    else parts[0] + sep + Join(parts[1..], sep)
  }

  /** No piece of a split contains the separator. */
  lemma {:induction false} SplitPiecesLackSeparator(s: string, sep: char)
    ensures forall k :: 0 <= k < |Split(s, sep)| ==> sep !in Split(s, sep)[k]
  {
    if s != [] {
      SplitPiecesLackSeparator(s[1..], sep);
    }
  }

  /** Joining the pieces of a split with the separator gives back the text. */
  lemma {:induction false} JoinSplit(s: string, sep: char)
    ensures Join(Split(s, sep), [sep]) == s
  {
    if s != [] {
      var rest := Split(s[1..], sep);
      JoinSplit(s[1..], sep);
      if s[0] != sep {
        if |rest| == 1 {
          assert Split(s, sep) == [[s[0]] + rest[0]];
        } else {
          assert Split(s, sep) == [[s[0]] + rest[0]] + rest[1..];
          assert Join(rest, [sep]) == rest[0] + [sep] + Join(rest[1..], [sep]);
          assert Split(s, sep)[1..] == rest[1..];
        }
      } else {
        assert Split(s, sep) == [""] + rest;
        assert Split(s, sep)[1..] == rest;
      }
    }
  }

  /** Text without the separator splits into itself. */
  lemma {:induction false} SplitWithoutSeparator(a: string, sep: char)
    requires sep !in a
    ensures Split(a, sep) == [a]
  {
    if a != [] {
      SplitWithoutSeparator(a[1..], sep);
      assert [a[0]] + a[1..] == a;
    }
  }

  /** Splitting at a first separator yields the text before it, then the split of the rest. */
  lemma {:induction false} SplitAtFirst(a: string, b: string, sep: char)
    requires sep !in a
    ensures Split(a + [sep] + b, sep) == [a] + Split(b, sep)
  {
    if a == [] {
      assert a + [sep] + b == [sep] + b;
      assert ([sep] + b)[1..] == b;
    } else {
      var s := a + [sep] + b;
      assert s[1..] == a[1..] + [sep] + b;
      SplitAtFirst(a[1..], b, sep);
      assert [a[0]] + a[1..] == a;
    }
  }

  /** Digits contain no other character, in particular no separator. */
  lemma DigitsLackChar(s: string, c: char)
    requires AllDigits(s) && !IsDigit(c)
    ensures c !in s
  {
  }

  /** The part of `s` before the first `sep` (`s.split(sep)[0]`). */
  function BeforeFirst(s: string, sep: char): (r: string)
    ensures sep !in r
    ensures StartsWith(s, r)
    ensures |r| < |s| ==> s[|r|] == sep
  {
    SplitPiecesLackSeparator(s, sep);
    PrefixOfSplit(s, sep);
    Split(s, sep)[0]
  }

  lemma {:induction false} PrefixOfSplit(s: string, sep: char)
    ensures StartsWith(s, Split(s, sep)[0])
    ensures |Split(s, sep)[0]| < |s| ==> s[|Split(s, sep)[0]|] == sep
  {
    if s != [] && s[0] != sep {
      var rest := Split(s[1..], sep);
      PrefixOfSplit(s[1..], sep);
      var p := rest[0];
      assert Split(s, sep)[0] == [s[0]] + p;
      assert s[1..][..|p|] == p;
      assert s[..|p| + 1] == [s[0]] + s[1..][..|p|];
      assert |p| < |s[1..]| ==> s[|p| + 1] == s[1..][|p|];
    }
  }

  /** A part of a join occurs in the joined text. */
  lemma {:induction false} JoinContains(parts: seq<string>, sep: string, i: nat)
    requires i < |parts|
    ensures Contains(Join(parts, sep), parts[i])
  {
    if |parts| == 1 {
      ContainsItself(parts[0]);
    } else if i == 0 {
      ContainsItself(parts[0]);
      ContainsInConcat(parts[0], sep + Join(parts[1..], sep), parts[0]);
      assert Join(parts, sep) == parts[0] + (sep + Join(parts[1..], sep));
    } else {
      JoinContains(parts[1..], sep, i - 1);
      ContainsInConcat(sep, Join(parts[1..], sep), parts[i]);
      ContainsInConcat(parts[0], sep + Join(parts[1..], sep), parts[i]);
      assert Join(parts, sep) == parts[0] + (sep + Join(parts[1..], sep));
    }
  }

  /** Containment is transitive. */
  lemma ContainsTransitive(a: string, b: string, c: string)
    requires Contains(a, b) && Contains(b, c)
    ensures Contains(a, c)
  {
    var i :| 0 <= i <= |a| - |b| && OccursAt(a, b, i);
    var j :| 0 <= j <= |b| - |c| && OccursAt(b, c, j);
    forall k | 0 <= k < |c| ensures a[i + j..i + j + |c|][k] == c[k] {
      assert a[i..i + |b|][j + k] == b[j + k];
      assert b[j..j + |c|][k] == b[j + k];
    }
    assert OccursAt(a, c, i + j);
  }

  /** A text without the separator that occurs in a join occurs in one of
      the parts: it cannot straddle a separator. */
  lemma {:induction false} ContainedInPart(parts: seq<string>, sep: char, c: string)
    requires c != [] && sep !in c
    requires Contains(Join(parts, [sep]), c)
    ensures exists j | 0 <= j < |parts| :: Contains(parts[j], c)
  {
    var t := Join(parts, [sep]);
    var i :| 0 <= i <= |t| - |c| && OccursAt(t, c, i);
    if |parts| == 1 {
      assert Contains(parts[0], c);
    } else {
      var p0, rest := parts[0], Join(parts[1..], [sep]);
      assert t == p0 + [sep] + rest;
      if i + |c| <= |p0| {
        assert t[i..i + |c|] == p0[i..i + |c|];
        assert OccursAt(p0, c, i);
      } else if i > |p0| {
        assert t[i..i + |c|] == rest[i - |p0| - 1..i - |p0| - 1 + |c|];
        assert OccursAt(rest, c, i - |p0| - 1);
        ContainedInPart(parts[1..], sep, c);
        var j :| 0 <= j < |parts[1..]| && Contains(parts[1..][j], c);
        assert parts[j + 1] == parts[1..][j];
      } else {
        OccurrenceCovers(t, c, i, |p0|);
        assert false;
      }
    }
  }

  /** An occurrence of `sub` at `i` holds every character of `s` it covers. */
  lemma OccurrenceCovers(s: string, sub: string, i: int, k: int)
    requires OccursAt(s, sub, i) && i <= k < i + |sub|
    ensures s[k] in sub
  {
    assert s[i..i + |sub|][k - i] == s[k];
  }

  // ---------------------------------------------------------------------------
  // Ordering of texts
  // ---------------------------------------------------------------------------

  /** Python's `<=` on strings: code point by code point, a prefix first. */
  predicate LexLe(a: string, b: string) {
    if a == [] then true
    else if b == [] then false
    else if a[0] != b[0] then a[0] < b[0]
    else LexLe(a[1..], b[1..])
  }

  lemma {:induction false} LexLeTotal(a: string, b: string)
    ensures LexLe(a, b) || LexLe(b, a)
  {
    if a != [] && b != [] && a[0] == b[0] {
      LexLeTotal(a[1..], b[1..]);
    }
  }

  lemma {:induction false} LexLeTransitive(a: string, b: string, c: string)
    requires LexLe(a, b) && LexLe(b, c)
    ensures LexLe(a, c)
  {
    if a != [] && b != [] && c != [] && a[0] == b[0] && b[0] == c[0] {
      LexLeTransitive(a[1..], b[1..], c[1..]);
    }
  }

  lemma {:induction false} LexLeAntisymmetric(a: string, b: string)
    requires LexLe(a, b) && LexLe(b, a)
    ensures a == b
  {
    if a != [] && b != [] {
      LexLeAntisymmetric(a[1..], b[1..]);
      assert a == [a[0]] + a[1..] && b == [b[0]] + b[1..];
    }
  }

  // ---------------------------------------------------------------------------
  // Slugs: re.sub(r"\W+", "-", s)
  // ---------------------------------------------------------------------------

  function DropNonWord(s: string): (r: string)
    ensures |r| <= |s| && r == s[|s| - |r|..]
    ensures r == [] || IsWordChar(r[0])
  {
    if s != [] && !IsWordChar(s[0]) then DropNonWord(s[1..]) else s
  }

  /** Every maximal run of non-word characters replaced by one hyphen. */
  function Slugify(s: string): (r: string)
    ensures s == [] <==> r == []
    ensures s != [] && IsWordChar(s[0]) ==> r[0] == s[0]
    decreases |s|
  {
    if s == [] then []
    else if IsWordChar(s[0]) then [s[0]] + Slugify(s[1..])
    else "-" + Slugify(DropNonWord(s[1..]))
  }

  /** A slug: every non-word character is a hyphen and is followed by a word character, if anything. */
  ghost predicate IsSlug(r: string) {
    forall i :: 0 <= i < |r| && !IsWordChar(r[i]) ==> r[i] == '-' && (i + 1 < |r| ==> IsWordChar(r[i + 1]))
  }

  /** The word characters of a text, in order. */
  function WordChars(s: string): (r: string)
    ensures forall i :: 0 <= i < |r| ==> IsWordChar(r[i])
  {
    if s == [] then [] else (if IsWordChar(s[0]) then [s[0]] else []) + WordChars(s[1..])
  }

  lemma {:induction false} SlugifyIsSlug(s: string)
    ensures IsSlug(Slugify(s))
    decreases |s|
  {
    if s != [] {
      if IsWordChar(s[0]) {
        SlugifyIsSlug(s[1..]);
        SlugCons(s[0], Slugify(s[1..]));
      } else {
        var d := DropNonWord(s[1..]);
        SlugifyIsSlug(d);
        SlugCons('-', Slugify(d));
      }
    }
  }

  /** A word character, or a hyphen before a word character or nothing,
      in front of a slug is a slug. */
  lemma SlugCons(c: char, t: string)
    requires IsSlug(t)
    requires IsWordChar(c) || (c == '-' && (t == [] || IsWordChar(t[0])))
    ensures IsSlug([c] + t)
  {
    var r := [c] + t;
    forall i | 0 <= i < |r| && !IsWordChar(r[i])
      ensures r[i] == '-' && (i + 1 < |r| ==> IsWordChar(r[i + 1]))
    {
      if i > 0 {
        assert r[i] == t[i - 1];
        assert i + 1 < |r| ==> r[i + 1] == t[i];
      }
    }
  }

  lemma {:induction false} SlugifyFixesSlugs(r: string)
    requires IsSlug(r)
    ensures Slugify(r) == r
  {
    if r != [] {
      assert IsSlug(r[1..]) by {
        forall i | 0 <= i < |r[1..]| && !IsWordChar(r[1..][i])
          ensures r[1..][i] == '-' && (i + 1 < |r[1..]| ==> IsWordChar(r[1..][i + 1]))
        {
          assert r[1..][i] == r[i + 1];
        }
      }
      SlugifyFixesSlugs(r[1..]);
      if !IsWordChar(r[0]) {
        assert DropNonWord(r[1..]) == r[1..];
      }
    }
  }

  /** Slugifying a slug changes nothing. */
  lemma SlugifyIdempotent(s: string)
    ensures Slugify(Slugify(s)) == Slugify(s)
  {
    SlugifyIsSlug(s);
    SlugifyFixesSlugs(Slugify(s));
  }

  lemma {:induction false} DropNonWordKeepsWords(s: string)
    ensures WordChars(DropNonWord(s)) == WordChars(s)
  {
    if s != [] && !IsWordChar(s[0]) {
      DropNonWordKeepsWords(s[1..]);
    }
  }

  /** Slugifying keeps every word character, in order, and adds none. */
  lemma {:induction false} SlugifyKeepsWordChars(s: string)
    ensures WordChars(Slugify(s)) == WordChars(s)
    decreases |s|
  {
    if s != [] {
      if IsWordChar(s[0]) {
        SlugifyKeepsWordChars(s[1..]);
        assert ([s[0]] + Slugify(s[1..]))[1..] == Slugify(s[1..]);
      } else {
        var d := DropNonWord(s[1..]);
        SlugifyKeepsWordChars(d);
        DropNonWordKeepsWords(s[1..]);
        assert ("-" + Slugify(d))[1..] == Slugify(d);
      }
    }
  }

  // ---------------------------------------------------------------------------
  // Numbers as text
  // ---------------------------------------------------------------------------

  function DigitChar(d: nat): (c: char)
    requires d < 10
    ensures IsDigit(c)
  {
    ('0' as int + d) as char
  }

  function DigitValue(c: char): nat
    requires IsDigit(c)
  {
    c as int - '0' as int
  }

  /** `str(n)` for a natural number. */
  function NatToString(n: nat): (r: string)
    ensures r != [] && AllDigits(r)
  {
    if n < 10 then [DigitChar(n)] else NatToString(n / 10) + [DigitChar(n % 10)]
  }

  /** `str(i)` for an integer. */
  function IntToString(i: int): string {
    if i < 0 then "-" + NatToString(-i) else NatToString(i)
  }

  /** The value of a run of decimal digits. */
  function DigitsValue(s: string): nat
    requires AllDigits(s)
  {
    if s == [] then 0 else DigitsValue(s[..|s| - 1]) * 10 + DigitValue(s[|s| - 1])
  }

  /** Reading back the decimal text of a natural number gives the number. */
  lemma {:induction false} DigitsValueOfNatToString(n: nat)
    ensures DigitsValue(NatToString(n)) == n
  {
    if n >= 10 {
      var s := NatToString(n);
      DigitsValueOfNatToString(n / 10);
      assert s[..|s| - 1] == NatToString(n / 10);
    }
  }

  /** Python `int(s)` on an already stripped text: an optional sign and at least one
      ASCII digit (no underscores, no other decimal digits). */
  function ParseInt(s: string): (r: Option<int>)
    ensures r.Some? ==> s != []
  {
    if s != [] && (s[0] == '-' || s[0] == '+') then
      var t := s[1..];
      if t != [] && AllDigits(t) then Some(if s[0] == '-' then -(DigitsValue(t) as int) else DigitsValue(t)) else None
    else if s != [] && AllDigits(s) then Some(DigitsValue(s))
    else None
  }

  /** `int(str(i)) == i`. */
  lemma ParseIntOfIntToString(i: int)
    ensures ParseInt(IntToString(i)) == Some(i)
  {
    if i < 0 {
      DigitsValueOfNatToString(-i);
      assert IntToString(i)[1..] == NatToString(-i);
    } else {
      DigitsValueOfNatToString(i);
    }
  }

  /** The longest prefix of digits. */
  function LeadingDigits(s: string): (r: string)
    ensures AllDigits(r) && StartsWith(s, r)
    ensures |r| < |s| ==> !IsDigit(s[|r|])
  {
    if s != [] && IsDigit(s[0]) then [s[0]] + LeadingDigits(s[1..]) else []
  }

  /** JavaScript `Number.parseInt(s, 10)`: leading whitespace, an optional sign,
      then the longest run of digits; `None` stands for NaN (no digit). */
  function JsParseInt(s: string): (r: Option<int>)
    ensures AllDigits(s) && s != [] && !IsSpace(s[0]) ==> r == Some(DigitsValue(s))
  {
    var t := StripLeft(s);
    var negative := t != [] && t[0] == '-';
    var u := if t != [] && (t[0] == '-' || t[0] == '+') then t[1..] else t;
    var d := LeadingDigits(u);
    assert AllDigits(s) && s != [] && !IsSpace(s[0]) ==> t == s && u == s && LeadingDigits(s) == s by {
      if AllDigits(s) && s != [] && !IsSpace(s[0]) {
        AllDigitsLeadingDigits(s);
      }
    }
    if d == [] then None else Some(if negative then -(DigitsValue(d) as int) else DigitsValue(d))
  }

  lemma {:induction false} AllDigitsLeadingDigits(s: string)
    requires AllDigits(s)
    ensures LeadingDigits(s) == s
  {
    if s != [] {
      AllDigitsLeadingDigits(s[1..]);
    }
  }

  /** Two-digit, zero-padded text of a number below 100. */
  function Pad2(n: nat): (r: string)
    requires n < 100
    ensures |r| == 2 && AllDigits(r)
  {
    [DigitChar(n / 10), DigitChar(n % 10)]
  }

  /** Reading back a padded two-digit text gives the number. */
  lemma Pad2Value(n: nat)
    requires n < 100
    ensures DigitsValue(Pad2(n)) == n
  {
    var s := Pad2(n);
    assert s[..1] == [DigitChar(n / 10)];
    assert s[..1][..0] == [];
    assert DigitsValue(s[..1]) == n / 10;
  }
}
