/** `extract_collection`: the regular-expression search `/bil/data/([a-f0-9]{2})/` over a
    directory path, written as a scan over start positions. The pattern has a fixed width of
    13 characters, so a match at position `i` is a fixed test on `path[i..i + 13]`, and
    `re.search` returns the match with the smallest `i`. */
module CollectionCode {
  import opened Wrappers

  /** The literal part of the pattern. */
  const ROOT: string := "/bil/data/"

  /** `[a-f0-9]`: a lower-case hexadecimal digit. */
  predicate IsHexDigit(c: char) {
    '0' <= c <= '9' || 'a' <= c <= 'f'
  }

  /** A collection code as the pattern captures it: two lower-case hexadecimal digits. */
  predicate IsCode(c: string) {
    |c| == 2 && IsHexDigit(c[0]) && IsHexDigit(c[1])
  }

  /** The literal `/bil/data/` starts at position `i`. */
  predicate RootAt(s: string, i: nat) {
    i + 10 <= |s| && s[i..i + 10] == ROOT
  }

  /** The pattern matches `path` starting at position `i`. */
  predicate MatchesAt(path: string, i: nat) {
    i + 13 <= |path|
    && RootAt(path, i)
    && IsHexDigit(path[i + 10]) && IsHexDigit(path[i + 11])
    && path[i + 12] == '/'
  }

  /** `i` is the leftmost position at which the pattern matches. */
  predicate LeftmostMatch(path: string, i: nat) {
    MatchesAt(path, i) && forall j: nat :: j < i ==> !MatchesAt(path, j)
  }

  /** The captured group of a match at `i`. */
  function Group(path: string, i: nat): string
    requires MatchesAt(path, i)
  {
    path[i + 10..i + 12]
  }

  /** The first position at or after `start` where the pattern matches. */
  function FindFrom(path: string, start: nat): (r: Option<nat>)
    decreases |path| - start
    ensures r.Some? ==> start <= r.value && MatchesAt(path, r.value)
    ensures r.Some? ==> forall j: nat :: start <= j < r.value ==> !MatchesAt(path, j)
    ensures r.None? ==> forall j: nat :: start <= j ==> !MatchesAt(path, j)
  {
    if start + 13 > |path| then None
    else if MatchesAt(path, start) then Some(start)
    else FindFrom(path, start + 1)
  }

  /** `match.group(1) if match else None` for `re.search(r"/bil/data/([a-f0-9]{2})/", path)`. */
  function ExtractCollection(path: string): (r: Option<string>)
    ensures r.Some? ==> IsCode(r.value)
    ensures r.None? <==> forall i: nat :: !MatchesAt(path, i)
    ensures forall i: nat :: LeftmostMatch(path, i) ==> r == Some(Group(path, i))
  {
    match FindFrom(path, 0)
    case None => None
    case Some(i) => Some(Group(path, i))
  }

  /** A path of the canonical form `/bil/data/<code>/...` yields that code. */
  lemma CanonicalPath(code: string, rest: string)
    requires IsCode(code)
    ensures ExtractCollection(ROOT + code + "/" + rest) == Some(code)
  {
    var path := ROOT + code + "/" + rest;
    assert path[0..10] == ROOT;
    assert path[10..12] == code;
    assert LeftmostMatch(path, 0);
  }

  /** The first occurrence of `/bil/data/` decides: if it is followed by a code and `/`, that
      code is the result, whatever comes after. */
  lemma FirstRootDecides(prefix: string, code: string, rest: string)
    requires IsCode(code)
    requires forall j: nat :: j < |prefix| ==> !RootAt(prefix + ROOT, j)
    ensures ExtractCollection(prefix + ROOT + code + "/" + rest) == Some(code)
  {
    var path := prefix + ROOT + code + "/" + rest;
    var n := |prefix|;
    assert path[n..n + 10] == ROOT;
    assert path[n + 10..n + 12] == code;
    forall j: nat | j < n ensures !RootAt(path, j) {
      assert path[j..j + 10] == (prefix + ROOT)[j..j + 10];
      assert !RootAt(prefix + ROOT, j);
    }
    assert LeftmostMatch(path, n);
  }

  /** A canonical path of one collection. */
  lemma ExampleAccepted()
    ensures ExtractCollection("/bil/data/3f/x") == Some("3f")
  {
    CanonicalPath("3f", "x");
    assert ROOT + "3f" + "/" + "x" == "/bil/data/3f/x";
  }

  /** When the root occurs twice, the leftmost occurrence wins. */
  lemma ExampleLeftmost()
    ensures ExtractCollection("/bil/data/ab/bil/data/cd/") == Some("ab")
  {
    var p := "/bil/data/ab/bil/data/cd/";
    assert p[0..10] == ROOT && p[10..12] == "ab";
    assert LeftmostMatch(p, 0);
  }

  /** A path without the root has no collection. */
  lemma ExampleOtherPath()
    ensures ExtractCollection("/other/path") == None
  {
  }

  /** Upper-case hexadecimal digits are not part of `[a-f0-9]`. */
  lemma ExampleUpperCase()
    ensures ExtractCollection("/bil/data/3F/x") == None
  {
    var p := "/bil/data/3F/x";
    assert !IsHexDigit(p[11]);
    assert !RootAt(p, 1) by { assert p[1] != ROOT[0]; }
    forall i: nat ensures !MatchesAt(p, i) {
    }
  }

  /** A three-digit segment is not followed by `/` after two digits. */
  lemma ExampleThreeDigits()
    ensures ExtractCollection("/bil/data/3fa/x") == None
  {
    var p := "/bil/data/3fa/x";
    assert p[12] != '/';
    assert !RootAt(p, 1) by { assert p[1] != ROOT[0]; }
    assert !RootAt(p, 2) by { assert p[2] != ROOT[0]; }
    forall i: nat ensures !MatchesAt(p, i) {
    }
  }
}
