/** String helpers shared by the Python and JavaScript parts of the model.
    Strings are sequences of Unicode characters; trimming follows each
    language's whitespace set, case folding covers ASCII letters only. */
module Text {
  import opened Wrappers

  /** ASCII lower-casing of one character (str.lower / toLowerCase on ASCII). */
  function LowerChar(c: char): char
  {
    if 'A' <= c <= 'Z' then (c as int + 32) as char else c
  }

  function Lower(s: string): (r: string)
    ensures |r| == |s|
    ensures forall i :: 0 <= i < |s| ==> r[i] == LowerChar(s[i])
  {
    seq(|s|, i requires 0 <= i < |s| => LowerChar(s[i]))
  }

  /** `s.replace(a, b)` for single-character a and b. */
  function ReplaceChar(s: string, a: char, b: char): (r: string)
    ensures |r| == |s|
    ensures forall i :: 0 <= i < |s| ==> r[i] == (if s[i] == a then b else s[i])
  {
    seq(|s|, i requires 0 <= i < |s| => if s[i] == a then b else s[i])
  }

  /** Whose notion of whitespace a trim uses. */
  datatype Language = Python | JavaScript

  /** The whitespace both languages agree on: the controls U+0009 to U+000D,
      the space separators and the two Unicode line and paragraph
      separators. */
  predicate IsCommonSpace(c: char)
  {
    || '\U{0009}' <= c <= '\U{000D}'
    || c == ' ' || c == '\U{00A0}' || c == '\U{1680}' || '\U{2000}' <= c <= '\U{200A}'
    || c == '\U{2028}' || c == '\U{2029}' || c == '\U{202F}' || c == '\U{205F}' || c == '\U{3000}'
  }

  /** Python's str.isspace() also holds for the separators U+001C to U+001F
      and NEL (U+0085); JavaScript's trim() also removes the byte order mark
      U+FEFF. */
  predicate IsSpace(lang: Language, c: char)
  {
    || IsCommonSpace(c)
    || (lang == Python && ('\U{001C}' <= c <= '\U{001F}' || c == '\U{0085}'))
    || (lang == JavaScript && c == '\U{FEFF}')
  }

  /** Drops the leading whitespace of `lang`. */
  function TrimStart(lang: Language, s: string): (r: string)
    ensures |r| <= |s|
  {
    if s != [] && IsSpace(lang, s[0]) then TrimStart(lang, s[1..]) else s
  }

  /** Drops the trailing whitespace of `lang`. */
  function TrimEnd(lang: Language, s: string): (r: string)
    ensures |r| <= |s|
  {
    if s != [] && IsSpace(lang, s[|s| - 1]) then TrimEnd(lang, s[..|s| - 1]) else s
  }

  /** TrimStart keeps a suffix, removes only whitespace, and leaves none at
      the front. */
  lemma {:induction false} TrimStartFacts(lang: Language, s: string)
    ensures var r := TrimStart(lang, s);
      && r == s[|s| - |r|..]
      && (r == [] || !IsSpace(lang, r[0]))
      && forall i :: 0 <= i < |s| - |r| ==> IsSpace(lang, s[i])
    decreases |s|
  {
    if s != [] && IsSpace(lang, s[0]) {
      TrimStartFacts(lang, s[1..]);
      assert forall i :: 1 <= i < |s| ==> s[i] == s[1..][i - 1];
    }
  }

  /** TrimEnd keeps a prefix, removes only whitespace, and leaves none at
      the back. */
  lemma {:induction false} TrimEndFacts(lang: Language, s: string)
    ensures var r := TrimEnd(lang, s);
      && r == s[..|r|]
      && (r == [] || !IsSpace(lang, r[|r| - 1]))
      && forall i :: |r| <= i < |s| ==> IsSpace(lang, s[i])
    decreases |s|
  {
    if s != [] && IsSpace(lang, s[|s| - 1]) {
      TrimEndFacts(lang, s[..|s| - 1]);
    }
  }

  /** Both ends trimmed. */
  function TrimBoth(lang: Language, s: string): string
  {
    TrimEnd(lang, TrimStart(lang, s))
  }

  /** Python's str.strip() with no argument. */
  function Strip(s: string): string
  {
    TrimBoth(Python, s)
  }

  /** JavaScript's String.prototype.trim(). */
  function Trim(s: string): string
  {
    TrimBoth(JavaScript, s)
  }

  predicate IsTrimmed(lang: Language, s: string)
  {
    s == [] || (!IsSpace(lang, s[0]) && !IsSpace(lang, s[|s| - 1]))
  }

  lemma {:induction false} TrimEndKeepsStart(lang: Language, s: string)
    requires s == [] || !IsSpace(lang, s[0])
    ensures IsTrimmed(lang, TrimEnd(lang, s))
  {
    TrimEndFacts(lang, s);
    var r := TrimEnd(lang, s);
    if r != [] {
      assert r[0] == s[0];
    }
  }

  lemma TrimBothIsTrimmed(lang: Language, s: string)
    ensures IsTrimmed(lang, TrimBoth(lang, s))
  {
    TrimStartFacts(lang, s);
    TrimEndKeepsStart(lang, TrimStart(lang, s));
  }

  lemma {:induction false} TrimmedIsFixed(lang: Language, s: string)
    requires IsTrimmed(lang, s)
    ensures TrimBoth(lang, s) == s
  {
    if s != [] {
      assert TrimStart(lang, s) == s;
      assert TrimEnd(lang, s) == s;
    }
  }

  /** Trimming twice is trimming once. */
  lemma TrimBothIdempotent(lang: Language, s: string)
    ensures TrimBoth(lang, TrimBoth(lang, s)) == TrimBoth(lang, s)
  {
    TrimBothIsTrimmed(lang, s);
    TrimmedIsFixed(lang, TrimBoth(lang, s));
  }

  /** The two trims differ: Python strips U+001C, JavaScript keeps it. */
  lemma TrimsDiffer()
    ensures Strip("\U{001C}") == [] && Trim("\U{001C}") == "\U{001C}"
  {
    assert TrimStart(JavaScript, "\U{001C}") == "\U{001C}";
  }

  /** Python's `sub in s` / JavaScript's `s.includes(sub)` on strings. */
  predicate Contains(s: string, sub: string)
  {
    sub <= s || (s != [] && Contains(s[1..], sub))
  }

  predicate IsDigit(c: char)
  {
    '0' <= c <= '9'
  }

  predicate AllDigits(s: string)
  {
    forall i :: 0 <= i < |s| ==> IsDigit(s[i])
  }

  function DigitChar(d: nat): (c: char)
    requires d < 10
    ensures IsDigit(c)
  {
    ('0' as int + d) as char
  }

  /** Value of a string of decimal digits (the inverse of NatToString). */
  function DecimalValue(s: string): nat
    requires AllDigits(s)
  {
    if s == [] then 0
    else DecimalValue(s[..|s| - 1]) * 10 + (s[|s| - 1] as int - '0' as int)
  }

  /** Python's str(n) / JavaScript's template rendering of a non-negative integer. */
  function NatToString(n: nat): (r: string)
    ensures |r| >= 1 && AllDigits(r)
    ensures |r| > 1 ==> r[0] != '0'
  {
    if n < 10 then [DigitChar(n)] else NatToString(n / 10) + [DigitChar(n % 10)]
  }

  /** Reading back what NatToString wrote gives the number again. */
  lemma {:induction false} NatToStringRoundTrip(n: nat)
    ensures DecimalValue(NatToString(n)) == n
  {
    if n >= 10 {
      var s := NatToString(n);
      assert s[..|s| - 1] == NatToString(n / 10);
      NatToStringRoundTrip(n / 10);
    }
  }

  function Pow10(k: nat): (r: nat)
    ensures r >= 1
  {
    if k == 0 then 1 else 10 * Pow10(k - 1)
  }

  lemma {:induction false} NatToStringLength(n: nat, k: nat)
    requires k >= 1 && n < Pow10(k)
    ensures |NatToString(n)| <= k
  {
    if n >= 10 {
      assert k != 1;
      NatToStringLength(n / 10, k - 1);
    }
  }

  /** Four digits at most for a value below 10000 (Python's `hash(x) % 10000`). */
  lemma ShortBelow10000(n: nat)
    requires n < 10000
    ensures 1 <= |NatToString(n)| <= 4
  {
    assert Pow10(4) == 10000;
    NatToStringLength(n, 4);
  }

  /** Python's str(i) for any integer. */
  function IntToString(i: int): (r: string)
    ensures |r| >= 1
    ensures i >= 0 ==> r == NatToString(i)
    ensures i < 0 ==> r == "-" + NatToString(-i)
  {
    if i < 0 then "-" + NatToString(-i) else NatToString(i)
  }

  /** `sep.join(parts)` */
  function Join(sep: string, parts: seq<string>): string
  {
    if parts == [] then []
    else if |parts| == 1 then parts[0]
    else parts[0] + sep + Join(sep, parts[1..])
  }

  lemma JoinCons(sep: string, head: string, rest: seq<string>)
    requires rest != []
    ensures Join(sep, [head] + rest) == head + sep + Join(sep, rest)
  {
    assert ([head] + rest)[1..] == rest;
  }

  /** Position of the first occurrence of `c` in `s`. */
  function IndexOf(s: string, c: char): (r: Option<nat>)
    ensures r.None? <==> c !in s
    ensures r.Some? ==> r.value < |s| && s[r.value] == c && c !in s[..r.value]
  {
    if s == [] then None
    else if s[0] == c then Some(0)
    else match IndexOf(s[1..], c)
      case None => None
      case Some(i) =>
        assert s[..i + 1] == [s[0]] + s[1..][..i];
        Some(i + 1)
  }

  /** Python's `s.split(c)` for a one-character separator. */
  function Split(s: string, c: char): (parts: seq<string>)
    ensures |parts| >= 1
    ensures forall k :: 0 <= k < |parts| ==> c !in parts[k]
    ensures |parts| == 1 <==> c !in s
    decreases |s|
  {
    match IndexOf(s, c)
    case None => [s]
    case Some(i) => [s[..i]] + Split(s[i + 1..], c)
  }

  lemma SplitAtFirst(s: string, c: char, i: nat)
    requires IndexOf(s, c) == Some(i)
    ensures Split(s, c) == [s[..i]] + Split(s[i + 1..], c)
  {
  }

  lemma AroundIndex(s: string, c: char, i: nat)
    requires i < |s| && s[i] == c
    ensures s == s[..i] + [c] + s[i + 1..]
  {
  }

  /** Splitting and joining with the same separator gives the string back. */
  lemma {:induction false} SplitJoin(s: string, c: char)
    ensures Join([c], Split(s, c)) == s
    decreases |s|
  {
    var idx := IndexOf(s, c);
    if idx.Some? {
      var i := idx.value;
      SplitAtFirst(s, c, i);
      AroundIndex(s, c, i);
      SplitJoin(s[i + 1..], c);
      JoinCons([c], s[..i], Split(s[i + 1..], c));
    }
  }
}
