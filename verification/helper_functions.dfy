/** The three pure string helpers of the backend's helper module: game-name
    sanitising, file-name extraction from a URL, and the play-file filter. */
module HelperFunctions {
  import opened Text

  predicate IsPathSeparator(c: char)
  {
    c == '/' || c == '\\'
  }

  /** `sanitize_game_name`: spaces, slashes and backslashes become '_'. */
  function SanitizeGameName(name: string): (r: string)
    ensures |r| == |name|
    ensures forall i :: 0 <= i < |r| ==> r[i] != ' ' && !IsPathSeparator(r[i])
    ensures forall i :: 0 <= i < |name| ==>
      r[i] == (if name[i] == ' ' || IsPathSeparator(name[i]) then '_' else name[i])
  {
    ReplaceChar(ReplaceChar(ReplaceChar(name, ' ', '_'), '/', '_'), '\\', '_')
  }

  /** Sanitising twice is sanitising once. */
  lemma SanitizeIdempotent(name: string)
    ensures SanitizeGameName(SanitizeGameName(name)) == SanitizeGameName(name)
  {
  }

  /** The text after the last `c` in `s`, or `s` itself when there is none. */
  function AfterLast(s: string, c: char): (r: string)
    ensures |r| <= |s| && c !in r
    decreases |s|
  {
    match IndexOf(s, c)
    case None => s
    case Some(i) => AfterLast(s[i + 1..], c)
  }

  /** The last field of a split is the text after the last separator. */
  lemma {:induction false} SplitLastIsAfterLast(s: string, c: char)
    ensures var parts := Split(s, c); parts[|parts| - 1] == AfterLast(s, c)
    decreases |s|
  {
    match IndexOf(s, c)
    case None =>
    case Some(i) =>
      SplitAtFirst(s, c, i);
      SplitLastIsAfterLast(s[i + 1..], c);
  }

  /** The text after the last separator is a suffix of the input, preceded
      by the separator when it is shorter than the input. */
  lemma {:induction false} AfterLastIsSuffix(s: string, c: char)
    ensures var r := AfterLast(s, c);
      && s[|s| - |r|..] == r
      && (|r| < |s| ==> s[|s| - |r| - 1] == c)
    decreases |s|
  {
    match IndexOf(s, c)
    case None =>
    case Some(i) =>
      var rest := s[i + 1..];
      var r := AfterLast(rest, c);
      AfterLastIsSuffix(rest, c);
      assert AfterLast(s, c) == r;
      assert s[|s| - |r|..] == rest[|rest| - |r|..];
      if |r| == |rest| {
        assert s[|s| - |r| - 1] == s[i];
      } else {
        assert s[|s| - |r| - 1] == rest[|rest| - |r| - 1];
      }
  }

  /** The last '/'-field of `url` with backslashes turned into slashes. */
  function LastField(url: string): string
  {
    var parts := Split(ReplaceChar(url, '\\', '/'), '/');
    parts[|parts| - 1]
  }

  lemma LastFieldFacts(url: string)
    ensures var r := LastField(url);
      && (forall i :: 0 <= i < |r| ==> !IsPathSeparator(r[i]))
      && |r| <= |url| && r == url[|url| - |r|..]
      && (|r| < |url| ==> IsPathSeparator(url[|url| - |r| - 1]))
  {
    var unified := ReplaceChar(url, '\\', '/');
    var last := AfterLast(unified, '/');
    SplitLastIsAfterLast(unified, '/');
    assert LastField(url) == last;
    AfterLastIsSuffix(unified, '/');
    var p := |url| - |last|;
    assert unified[p..] == last;
    forall k | 0 <= k < |last|
      ensures url[p + k] == last[k] && !IsPathSeparator(last[k])
    {
      assert last[k] == unified[p + k];
    }
    assert last == url[p..];
    if |last| < |url| {
      assert unified[p - 1] == '/';
    }
  }

  lemma NoSeparatorIsWhole(url: string)
    ensures (forall i :: 0 <= i < |url| ==> !IsPathSeparator(url[i])) ==> LastField(url) == url
  {
    if forall i :: 0 <= i < |url| ==> !IsPathSeparator(url[i]) {
      var unified := ReplaceChar(url, '\\', '/');
      assert unified == url;
    }
  }

  /** `extract_file_name`: the text after the last '/' or '\\'. */
  function ExtractFileName(url: string): (r: string)
    ensures forall i :: 0 <= i < |r| ==> !IsPathSeparator(r[i])
    ensures |r| <= |url| && r == url[|url| - |r|..]
    ensures |r| < |url| ==> IsPathSeparator(url[|url| - |r| - 1])
    ensures (forall i :: 0 <= i < |url| ==> !IsPathSeparator(url[i])) ==> r == url
  {
    LastFieldFacts(url);
    NoSeparatorIsWhole(url);
    LastField(url)
  }

  /** A path that ends in a separator names no file. */
  lemma TrailingSeparatorGivesEmpty(url: string)
    requires url != [] && IsPathSeparator(url[|url| - 1])
    ensures ExtractFileName(url) == ""
  {
  }

  const PlayPrefixes: set<string> := {"play", "spins", "refresh"}

  lemma LowerPrefix(s: string, k: nat)
    requires k <= |s|
    ensures Lower(s[..k]) == Lower(s)[..k]
  {
  }

  /** `search_play_files`: the lower-cased name starts with "play", "spins"
      or "refresh"; equivalently, some prefix of the name is one of them up
      to letter case. */
  function SearchPlayFiles(fileName: string): (r: bool)
    ensures r <==> exists k :: 0 <= k <= |fileName| && Lower(fileName[..k]) in PlayPrefixes
  {
    var lowered := Lower(fileName);
    var r := "play" <= lowered || "spins" <= lowered || "refresh" <= lowered;
    assert r ==> exists k :: 0 <= k <= |fileName| && Lower(fileName[..k]) in PlayPrefixes by {
      if "play" <= lowered {
        LowerPrefix(fileName, 4);
        assert lowered[..4] == "play";
      } else if "spins" <= lowered {
        LowerPrefix(fileName, 5);
        assert lowered[..5] == "spins";
      } else if "refresh" <= lowered {
        LowerPrefix(fileName, 7);
        assert lowered[..7] == "refresh";
      }
    }
    assert (exists k :: 0 <= k <= |fileName| && Lower(fileName[..k]) in PlayPrefixes) ==> r by {
      if k :| 0 <= k <= |fileName| && Lower(fileName[..k]) in PlayPrefixes {
        LowerPrefix(fileName, k);
      }
    }
    r
  }
}
