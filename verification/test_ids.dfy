/** The two test-id schemes of the backend services: a stable id made of a
    test-type slug and 12 digest characters, and a name followed by
    `hash(...) % 10000`. */
module TestIds {
  import opened Text
  import opened Environment

  /** `test_type.lower().replace(' ', '_')` */
  function Slug(testType: string): (r: string)
    ensures |r| == |testType|
    ensures ' ' !in r
    ensures forall i :: 0 <= i < |r| ==> r[i] == (if testType[i] == ' ' then '_' else LowerChar(testType[i]))
  {
    ReplaceChar(Lower(testType), ' ', '_')
  }

  /** `make_stable_test_id`: slug, '_', then the first 12 hex digits of the
      SHA-256 digest of "test_type|game_url|timestamp". */
  function MakeStableTestId(testType: string, gameUrl: string, timestamp: string,
                            sha256Hex: string -> HexDigest): (r: string)
    ensures |r| == |testType| + 13
    ensures r[..|testType| + 1] == Slug(testType) + "_"
    ensures forall i :: |testType| < i < |r| ==> IsHexDigit(r[i])
    ensures r[|testType| + 1..] == sha256Hex(testType + "|" + gameUrl + "|" + timestamp)[..12]
  {
    var digest := sha256Hex(testType + "|" + gameUrl + "|" + timestamp);
    Slug(testType) + "_" + digest[..12]
  }

  /** The prefixes the script-based services' ids carry. */
  lemma StableIdPrefixes()
    ensures Slug("Regression") + "_" == "regression_"
    ensures Slug("Net Position") + "_" == "net_position_"
    ensures Slug("Session Reminder") + "_" == "session_reminder_"
    ensures Slug("Max Bet Limit Testing") + "_" == "max_bet_limit_testing_"
  {
    assert Slug("Regression") == "regression";
    assert Slug("Net Position") == "net_position";
    assert Slug("Session Reminder") == "session_reminder";
    assert Slug("Max Bet Limit Testing") == "max_bet_limit_testing";
  }

  /** An id of the form "<prefix><n>" with 0 <= n <= 9999 written in decimal. */
  predicate IsHashId(id: string, prefix: string)
  {
    && prefix <= id
    && var digits := id[|prefix|..];
    && 1 <= |digits| <= 4
    && AllDigits(digits)
    && (|digits| > 1 ==> digits[0] != '0')
  }

  /** f"{prefix}{hash(x) % 10000}". Python's `%` with a positive divisor is
      never negative, as is Dafny's. */
  function HashSuffixId(prefix: string, hash: int): (r: string)
    ensures IsHashId(r, prefix)
    ensures DecimalValue(r[|prefix|..]) == hash % 10000 < 10000
  {
    var n: nat := hash % 10000;
    ShortBelow10000(n);
    NatToStringRoundTrip(n);
    assert (prefix + NatToString(n))[|prefix|..] == NatToString(n);
    prefix + NatToString(n)
  }
}
