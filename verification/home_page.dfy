/** The two versions of the client's home page: opening the game URL with a
    protocol added when it lacks one, and picking the sub-tests of the
    chosen test type. The first version offers only the sub-tests not yet
    picked and adds on click; the second lists all of them and toggles. */
module HomePage {
  import opened Wrappers
  import opened Text
  import Api

  /** `s.startsWith(p)`. */
  predicate StartsWith(s: string, p: string)
  {
    p <= s
  }

  predicate HasScheme(url: string)
  {
    StartsWith(url, "http://") || StartsWith(url, "https://")
  }

  /** The URL to open: the trimmed input, with "https://" in front unless it
      already starts with "http://" or "https://". */
  function NormalizeUrl(url: string): (r: string)
    ensures HasScheme(r)
    ensures HasScheme(Trim(url)) ==> r == Trim(url)
    ensures !HasScheme(Trim(url)) ==> r == "https://" + Trim(url)
  {
    var t := Trim(url);
    if !StartsWith(t, "http://") && !StartsWith(t, "https://") then "https://" + t else t
  }

  lemma {:induction false} PrefixedIsTrimmed(t: string)
    requires IsTrimmed(JavaScript, t)
    ensures IsTrimmed(JavaScript, "https://" + t)
  {
    var u := "https://" + t;
    assert u[0] == 'h';
    if t == [] {
      assert u[|u| - 1] == '/';
    } else {
      assert u[|u| - 1] == t[|t| - 1];
    }
  }

  /** Normalising twice is normalising once. */
  lemma NormalizeUrlIdempotent(url: string)
    ensures NormalizeUrl(NormalizeUrl(url)) == NormalizeUrl(url)
  {
    var t := Trim(url);
    TrimBothIsTrimmed(JavaScript, url);
    var r := NormalizeUrl(url);
    if !HasScheme(t) {
      PrefixedIsTrimmed(t);
    }
    TrimmedIsFixed(JavaScript, r);
  }

  /** What the "open URL" button does. */
  datatype OpenAction = Opened(url: string) | Rejected(message: string)

  /** `handleOpenUrl`: a blank input opens nothing and shows an error. */
  function OpenUrl(gameUrl: string): (a: OpenAction)
    ensures a.Rejected? <==> Trim(gameUrl) == []
    ensures a.Rejected? ==> a.message == "Please enter a URL first"
    ensures a.Opened? ==> a.url == NormalizeUrl(gameUrl)
  {
    if Trim(gameUrl) != [] then Opened(NormalizeUrl(gameUrl)) else Rejected("Please enter a URL first")
  }

  /** `handleSubmit`: the tab it opens, if any, and the request it posts.
      The request carries the URL as typed, not the normalised one. */
  function Submit(gameUrl: string, testType: string): (r: (Option<string>, Api.Post))
    ensures r.0.Some? <==> Trim(gameUrl) != []
    ensures r.0.Some? ==> r.0.value == NormalizeUrl(gameUrl)
    ensures r.1 == Api.SubmitComplianceTest(gameUrl, testType)
  {
    (if Trim(gameUrl) != [] then Some(NormalizeUrl(gameUrl)) else None, Api.SubmitComplianceTest(gameUrl, testType))
  }

  /** One entry of the test options: its label and sub-test names. */
  datatype TestOption = TestOption(name: string, testTypes: seq<string>)

  /** `TEST_OPTIONS.find(opt => opt.label === testType)?.test_types || []`. */
  function SubTestsOf(options: seq<TestOption>, testType: string): (r: seq<string>)
    ensures (forall k :: 0 <= k < |options| ==> options[k].name != testType) ==> r == []
    ensures forall k :: (0 <= k < |options| && options[k].name == testType
                         && forall j :: 0 <= j < k ==> options[j].name != testType) ==> r == options[k].testTypes
    decreases |options|
  {
    if options == [] then []
    else if options[0].name == testType then options[0].testTypes
    else
      var rest := SubTestsOf(options[1..], testType);
      assert forall k :: 1 <= k < |options| ==> options[k] == options[1..][k - 1];
      rest
  }

  /** The elements of `s` not in `excluded`, in order. */
  function Without(s: seq<string>, excluded: seq<string>): (r: seq<string>)
    ensures |r| <= |s|
    ensures forall x :: x in r <==> x in s && x !in excluded
    decreases |s|
  {
    if s == [] then []
    else (if s[0] in excluded then [] else [s[0]]) + Without(s[1..], excluded)
  }

  /** Filtering keeps the order: it distributes over concatenation. */
  lemma {:induction false} WithoutAppend(s: seq<string>, t: seq<string>, excluded: seq<string>)
    ensures Without(s + t, excluded) == Without(s, excluded) + Without(t, excluded)
    decreases |s|
  {
    if s == [] {
      assert s + t == t;
    } else {
      assert (s + t)[1..] == s[1..] + t;
      WithoutAppend(s[1..], t, excluded);
    }
  }

  /** Excluding nothing present keeps the sequence as it is. */
  lemma {:induction false} WithoutNothing(s: seq<string>, excluded: seq<string>)
    ensures (forall x :: x in s ==> x !in excluded) ==> Without(s, excluded) == s
    decreases |s|
  {
    if s != [] && forall x :: x in s ==> x !in excluded {
      WithoutNothing(s[1..], excluded);
      assert s == [s[0]] + s[1..];
    }
  }

  /** `subTestOptions` of the first page: the sub-tests of the type not yet
      selected, in the order the options list them. */
  function SubTestOptions(options: seq<TestOption>, testType: string, selected: seq<string>): (r: seq<string>)
    ensures forall x :: x in r <==> x in SubTestsOf(options, testType) && x !in selected
    ensures (forall x :: x in SubTestsOf(options, testType) ==> x !in selected) ==> r == SubTestsOf(options, testType)
  {
    var subs := SubTestsOf(options, testType);
    WithoutNothing(subs, selected);
    Without(subs, selected)
  }

  /** Picking one more sub-test removes it from the offered options and
      keeps the others in order. */
  lemma {:induction false} SelectingRemovesOption(subs: seq<string>, selected: seq<string>, x: string)
    ensures Without(subs, selected + [x]) == RemoveAll(Without(subs, selected), x)
    decreases |subs|
  {
    if subs != [] {
      SelectingRemovesOption(subs[1..], selected, x);
      var head := if subs[0] in selected then [] else [subs[0]];
      assert Without(subs, selected) == head + Without(subs[1..], selected);
      RemoveAllAppend(head, Without(subs[1..], selected), x);
    }
  }

  /** `prev.filter(s => s !== sub)`. */
  function RemoveAll(s: seq<string>, x: string): (r: seq<string>)
    ensures x !in r
    ensures forall y :: y != x ==> (y in r <==> y in s)
    ensures multiset(r) == multiset(s)[x := 0]
    decreases |s|
  {
    if s == [] then []
    else
      assert s == [s[0]] + s[1..];
      (if s[0] == x then [] else [s[0]]) + RemoveAll(s[1..], x)
  }

  predicate NoDup(s: seq<string>)
  {
    forall i, j :: 0 <= i < j < |s| ==> s[i] != s[j]
  }

  lemma {:induction false} NoDupByMultiset(s: seq<string>)
    requires forall x :: multiset(s)[x] <= 1
    ensures NoDup(s)
    decreases |s|
  {
    if s != [] {
      assert s == [s[0]] + s[1..];
      assert multiset(s) == multiset{s[0]} + multiset(s[1..]);
      assert multiset(s)[s[0]] == 1 + multiset(s[1..])[s[0]];
      forall x
        ensures multiset(s[1..])[x] <= 1
      {
        assert multiset(s)[x] == (if x == s[0] then 1 else 0) + multiset(s[1..])[x];
      }
      NoDupByMultiset(s[1..]);
    }
  }

  lemma {:induction false} MultisetOfNoDup(s: seq<string>)
    requires NoDup(s)
    ensures forall x :: multiset(s)[x] <= 1
    decreases |s|
  {
    if s != [] {
      MultisetOfNoDup(s[1..]);
      assert s == [s[0]] + s[1..];
      assert s[0] !in s[1..];
    }
  }

  lemma RemoveAllKeepsNoDup(s: seq<string>, x: string)
    requires NoDup(s)
    ensures NoDup(RemoveAll(s, x))
  {
    MultisetOfNoDup(s);
    NoDupByMultiset(RemoveAll(s, x));
  }

  lemma {:induction false} RemoveAbsent(s: seq<string>, x: string)
    requires x !in s
    ensures RemoveAll(s, x) == s
    decreases |s|
  {
    if s != [] {
      RemoveAbsent(s[1..], x);
    }
  }

  lemma {:induction false} RemoveAllAppend(s: seq<string>, t: seq<string>, x: string)
    ensures RemoveAll(s + t, x) == RemoveAll(s, x) + RemoveAll(t, x)
    decreases |s|
  {
    if s == [] {
      assert s + t == t;
    } else {
      assert (s + t)[1..] == s[1..] + t;
      RemoveAllAppend(s[1..], t, x);
    }
  }

  /** A click on a sub-test card of the second page. */
  function Toggled(s: seq<string>, x: string): (r: seq<string>)
    ensures x in s ==> x !in r
    ensures x !in s ==> r == s + [x]
  {
    if x in s then RemoveAll(s, x) else s + [x]
  }

  /** Toggling an unselected sub-test twice restores the selection; toggling
      a selected one twice moves it to the end. */
  lemma ToggleTwice(s: seq<string>, x: string)
    requires NoDup(s)
    ensures x !in s ==> Toggled(Toggled(s, x), x) == s
    ensures x in s ==> Toggled(Toggled(s, x), x) == RemoveAll(s, x) + [x]
    ensures multiset(Toggled(Toggled(s, x), x)) == multiset(s)
  {
    if x !in s {
      RemoveAllAppend(s, [x], x);
      RemoveAbsent(s, x);
      assert RemoveAll([x], x) == [];
    } else {
      MultisetOfNoDup(s);
      assert multiset(s)[x] == 1;
      assert multiset(RemoveAll(s, x) + [x]) == multiset(s)[x := 0] + multiset{x};
    }
  }

  /** The sub-test picking state of either page. */
  class SubTestSelection {
    var testType: string
    var selected: seq<string>
    var toAdd: string

    ghost predicate Valid()
      reads this
    {
      NoDup(selected)
    }

    constructor(initialType: string)
      ensures testType == initialType && selected == [] && toAdd == []
      ensures Valid()
    {
      testType := initialType;
      selected := [];
      toAdd := [];
    }

    /** `handleSubTestSelect`. */
    method Choose(value: string)
      modifies this
      ensures toAdd == value && selected == old(selected) && testType == old(testType)
    {
      toAdd := value;
    }

    /** `handleAddSubTest`: appends the chosen value if it is non-empty and
        not yet selected, then clears the choice. */
    method AddSubTest()
      requires Valid()
      modifies this
      ensures Valid()
      ensures old(toAdd) != [] && old(toAdd) !in old(selected) ==> selected == old(selected) + [old(toAdd)] && toAdd == []
      ensures old(toAdd) == [] || old(toAdd) in old(selected) ==> selected == old(selected) && toAdd == old(toAdd)
      ensures testType == old(testType)
    {
      if toAdd != [] && toAdd !in selected {
        selected := selected + [toAdd];
        toAdd := [];
      }
    }

    /** A click on an offered option of the first page. */
    method AddOption(sub: string)
      requires Valid()
      modifies this
      ensures Valid()
      ensures sub in selected
      ensures sub !in old(selected) ==> selected == old(selected) + [sub]
      ensures sub in old(selected) ==> selected == old(selected)
      ensures toAdd == old(toAdd) && testType == old(testType)
    {
      if sub !in selected {
        selected := selected + [sub];
      }
    }

    /** A click on a sub-test card of the second page. */
    method Toggle(sub: string)
      requires Valid()
      modifies this
      ensures Valid()
      ensures selected == Toggled(old(selected), sub)
      ensures sub in selected <==> sub !in old(selected)
      ensures toAdd == old(toAdd) && testType == old(testType)
    {
      if sub in selected {
        RemoveAllKeepsNoDup(selected, sub);
        selected := RemoveAll(selected, sub);
      } else {
        selected := selected + [sub];
      }
    }

    /** `handleRemoveSubTest`: drops every occurrence, keeping the order of
        the rest. */
    method RemoveSubTest(sub: string)
      requires Valid()
      modifies this
      ensures Valid()
      ensures selected == RemoveAll(old(selected), sub)
      ensures toAdd == old(toAdd) && testType == old(testType)
    {
      RemoveAllKeepsNoDup(selected, sub);
      selected := RemoveAll(selected, sub);
    }

    /** Choosing another test type empties the selection. */
    method ChangeTestType(t: string)
      modifies this
      ensures Valid()
      ensures testType == t && selected == [] && toAdd == old(toAdd)
    {
      testType := t;
      selected := [];
    }
  }
}
