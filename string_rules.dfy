/**
 * The two string rules of the REST controller reader: the single leading-slash
 * trim applied to the route prefix, and the resource name split off a
 * controller's short class name by the pattern `([_a-zA-Z0-9]+)Controller`.
 */
module StringRules {
  import opened Wrappers

  // ---------------------------------------------------------------------------
  // Route prefix normalisation
  // ---------------------------------------------------------------------------

  /**
   * Whether the first character of the prefix is '/'. An unset (null) prefix
   * has no first character: PHP's substr of null yields "", which is not "/".
   */
  predicate StartsWithSlash(prefix: Option<string>) {
    prefix.Some? && |prefix.value| > 0 && prefix.value[0] == '/'
  }

  /** The route prefix with one leading '/' removed, if it has one. */
  function TrimLeadingSlash(prefix: Option<string>): (r: Option<string>)
    ensures r.None? <==> prefix.None?
    ensures StartsWithSlash(prefix) ==> "/" + r.value == prefix.value
    ensures !StartsWithSlash(prefix) ==> r == prefix
  {
    if StartsWithSlash(prefix) then Some(prefix.value[1..]) else prefix
  }

  /** Only one slash is removed: a doubled slash leaves a prefix that still starts with '/'. */
  lemma TrimStripsOnlyOneSlash(s: string)
    requires |s| >= 2 && s[0] == '/' && s[1] == '/'
    ensures StartsWithSlash(TrimLeadingSlash(Some(s)))
    ensures |TrimLeadingSlash(Some(s)).value| == |s| - 1
  {
  }

  /** The normalisations listed for the bundle: "/foo", "//foo", "foo", "/", unset. */
  lemma TrimExamples()
    ensures TrimLeadingSlash(Some("/foo")) == Some("foo")
    ensures TrimLeadingSlash(Some("//foo")) == Some("/foo")
    ensures TrimLeadingSlash(Some("foo")) == Some("foo")
    ensures TrimLeadingSlash(Some("/")) == Some("")
    ensures TrimLeadingSlash(None) == None
  {
  }

  // ---------------------------------------------------------------------------
  // Resource name: preg_match('/([_a-zA-Z0-9]+)Controller/', shortName)
  // ---------------------------------------------------------------------------

  const ControllerWord: string := "Controller"

  /** The character class [_a-zA-Z0-9] (ASCII only, case-sensitive). */
  predicate IsWordChar(c: char) {
    c == '_' || ('a' <= c <= 'z') || ('A' <= c <= 'Z') || ('0' <= c <= '9')
  }

  /** "Controller" occurs in s starting at position j. */
  predicate ControllerAt(s: string, j: nat) {
    j + |ControllerWord| <= |s| && s[j..j + |ControllerWord|] == ControllerWord
  }

  /** s[i..j] matches the group ([_a-zA-Z0-9]+) and "Controller" follows it. */
  predicate Captures(s: string, i: nat, j: nat) {
    i < j && ControllerAt(s, j) && forall k :: i <= k < j ==> IsWordChar(s[k])
  }

  /**
   * The match a backtracking regex engine reports: the leftmost start at which
   * the pattern matches, and from that start the longest group (the `+` is
   * greedy, so it gives back characters only until "Controller" follows).
   */
  ghost predicate IsLeftmostGreedy(s: string, i: nat, j: nat) {
    && Captures(s, i, j)
    && (forall i': nat, j': nat :: i' < i ==> !Captures(s, i', j'))
    && (forall j': nat :: j < j' ==> !Captures(s, i, j'))
  }

  /** The end of the maximal run of word characters that starts at i. */
  function RunEnd(s: string, i: nat): (e: nat)
    requires i <= |s|
    ensures i <= e <= |s|
    ensures forall k :: i <= k < e ==> IsWordChar(s[k])
    ensures e == |s| || !IsWordChar(s[e])
    decreases |s| - i
  {
    if i == |s| || !IsWordChar(s[i]) then i else RunEnd(s, i + 1)
  }

  /** The greedy group's backtracking: the last j in (lo, hi] where "Controller" starts. */
  function LastControllerAt(s: string, lo: nat, hi: nat): (r: Option<nat>)
    requires lo <= hi <= |s|
    ensures r.Some? ==> lo < r.value <= hi && ControllerAt(s, r.value)
    ensures r.Some? ==> forall j :: r.value < j <= hi ==> !ControllerAt(s, j)
    ensures r.None? ==> forall j :: lo < j <= hi ==> !ControllerAt(s, j)
    decreases hi
  {
    if hi == lo then None
    else if ControllerAt(s, hi) then Some(hi)
    else LastControllerAt(s, lo, hi - 1)
  }

  /** From start i, a capture ends exactly at a "Controller" inside the word run at i. */
  lemma CapturesWithinRun(s: string, i: nat)
    requires i <= |s|
    ensures forall j: nat :: Captures(s, i, j) <==> i < j <= RunEnd(s, i) && ControllerAt(s, j)
  {
  }

  /** The regex engine's scan: try each start from i on, report the first that matches. */
  function MatchFrom(s: string, i: nat): (r: Option<(nat, nat)>)
    requires i <= |s|
    ensures r.Some? ==> i <= r.value.0 && Captures(s, r.value.0, r.value.1)
    ensures r.Some? ==> forall a: nat, b: nat :: i <= a < r.value.0 ==> !Captures(s, a, b)
    ensures r.Some? ==> forall b: nat :: r.value.1 < b ==> !Captures(s, r.value.0, b)
    ensures r.None? ==> forall a: nat, b: nat :: i <= a ==> !Captures(s, a, b)
    decreases |s| - i
  {
    if i == |s| then
      None
    else
      CapturesWithinRun(s, i);
      match LastControllerAt(s, i, RunEnd(s, i))
      case Some(j) => Some((i, j))
      case None => MatchFrom(s, i + 1)
  }

  /**
   * The resource name: the group captured by `([_a-zA-Z0-9]+)Controller` in the
   * short class name, or None when preg_match finds no match.
   */
  function ResourceName(shortName: string): (r: Option<string>)
    ensures r.None? <==> forall i: nat, j: nat :: !Captures(shortName, i, j)
    ensures r.Some? ==> exists i: nat, j: nat :: IsLeftmostGreedy(shortName, i, j) && r.value == shortName[i..j]
  {
    match MatchFrom(shortName, 0)
    case Some((i, j)) =>
      assert IsLeftmostGreedy(shortName, i, j);
      Some(shortName[i..j])
    case None => None
  }

  /** There is at most one leftmost-greedy match. */
  lemma LeftmostGreedyUnique(s: string, i: nat, j: nat, i': nat, j': nat)
    requires IsLeftmostGreedy(s, i, j) && IsLeftmostGreedy(s, i', j')
    ensures i == i' && j == j'
  {
  }

  /** Whichever match the pattern leftmost-greedily selects is the resource name. */
  lemma ResourceNameIs(s: string, i: nat, j: nat)
    requires IsLeftmostGreedy(s, i, j)
    ensures ResourceName(s) == Some(s[i..j])
  {
  }

  /** A name made of word characters followed by "Controller" yields exactly that name. */
  lemma ResourceNameOfConventionalName(name: string)
    requires |name| > 0 && forall k :: 0 <= k < |name| ==> IsWordChar(name[k])
    ensures ResourceName(name + ControllerWord) == Some(name)
  {
    var s := name + ControllerWord;
    assert s[|name|..|name| + |ControllerWord|] == ControllerWord;
    assert Captures(s, 0, |name|);
    assert s[0..|name|] == name;
    ResourceNameIs(s, 0, |name|);
  }

  /** "Controller" starting at j means a capital 'C' at j. */
  lemma ControllerAtStartsWithC(s: string, j: nat)
    requires ControllerAt(s, j)
    ensures s[j] == 'C'
  {
  }

  /** "PostController" yields "Post". */
  lemma ResourceNameOfPostController()
    ensures ResourceName("PostController") == Some("Post")
  {
    ResourceNameOfConventionalName("Post");
    assert "Post" + ControllerWord == "PostController";
  }

  /**
   * The group is greedy: in "FooControllerBarController" it runs up to the last
   * "Controller" of the word.
   */
  lemma ResourceNameIsGreedy()
    ensures ResourceName("FooControllerBar" + ControllerWord) == Some("FooControllerBar")
  {
    ResourceNameOfConventionalName("FooControllerBar");
  }

  /**
   * The match is not anchored at the end: after a word and "Controller", any
   * tail without a capital 'C' is ignored.
   */
  lemma ResourceNameIgnoresTail(name: string, tail: string)
    requires |name| > 0 && forall k :: 0 <= k < |name| ==> IsWordChar(name[k])
    requires forall k :: 0 <= k < |tail| ==> tail[k] != 'C'
    ensures ResourceName(name + ControllerWord + tail) == Some(name)
  {
    var s := name + ControllerWord + tail;
    var n := |name|;
    assert s[..n] == name;
    assert s[n..n + |ControllerWord|] == ControllerWord;
    assert Captures(s, 0, n);
    forall j: nat | n < j
      ensures !Captures(s, 0, j)
    {
      if ControllerAt(s, j) {
        ControllerAtStartsWithC(s, j);
      }
    }
    ResourceNameIs(s, 0, n);
  }

  /** "PostControllerTest" yields "Post". */
  lemma ResourceNameIsUnanchored()
    ensures ResourceName("Post" + ControllerWord + "Test") == Some("Post")
  {
    ResourceNameIgnoresTail("Post", "Test");
  }

  /** A name without "Controller" has no resource name. */
  lemma ResourceNameOfManager()
    ensures ResourceName("Manager") == None
  {
  }

  /** "Controller" alone has no word character before it, so no resource name. */
  lemma ResourceNameOfBareController()
    ensures ResourceName("Controller") == None
  {
  }

  /** Without a capital 'C' the name cannot contain "Controller", so there is no resource name. */
  lemma ResourceNameWithoutCapitalC(s: string)
    requires forall k :: 0 <= k < |s| ==> s[k] != 'C'
    ensures ResourceName(s) == None
  {
    forall i: nat, j: nat
      ensures !Captures(s, i, j)
    {
      if ControllerAt(s, j) {
        ControllerAtStartsWithC(s, j);
      }
    }
  }

  /** The match is case-sensitive: "controller" in lower case is not the word `Controller`. */
  lemma ResourceNameIsCaseSensitive()
    ensures ResourceName("postcontroller") == None
  {
    ResourceNameWithoutCapitalC("postcontroller");
  }
}
