/**
 * The username helper of the download endpoint: a search for the pattern
 * `instagram\.com/([^/?]+)` in the requested URL, falling back to "unknown".
 *
 * A regular-expression search reports the leftmost position where the whole
 * pattern matches.  Here the pattern matches at `i` exactly when the literal
 * `instagram.com/` starts at `i` and is followed by at least one character
 * other than `/` and `?`; the greedy group then captures the longest run of
 * such characters.
 */
module Username {
  import opened Wrappers

  /** The literal part of the pattern (the `\.` is an escaped dot). */
  const MARKER: string := "instagram.com/"

  /** Characters admitted by the class `[^/?]` (it admits newlines too). */
  predicate IsNameChar(c: char) {
    c != '/' && c != '?'
  }

  predicate AllNameChars(s: string) {
    forall k :: 0 <= k < |s| ==> IsNameChar(s[k])
  }

  /** The whole pattern matches at position `i` of `url`. */
  predicate MatchesAt(url: string, i: nat) {
    i + |MARKER| < |url| && url[i..i + |MARKER|] == MARKER && IsNameChar(url[i + |MARKER|])
  }

  /** `name` is what the group captures when the match starts at `i`: the
    * longest run of name characters right after the marker. */
  predicate CapturedAt(url: string, i: nat, name: string) {
    var rest := if i + |MARKER| <= |url| then url[i + |MARKER|..] else [];
    && name <= rest
    && AllNameChars(name)
    && (|name| == |rest| || !IsNameChar(rest[|name|]))
  }

  /** The longest prefix of `s` made of name characters (the greedy `+`). */
  function NameRun(s: string): (r: string)
    ensures r <= s
    ensures AllNameChars(r)
    ensures |r| == |s| || !IsNameChar(s[|r|])
  {
    if s == [] || !IsNameChar(s[0]) then [] else [s[0]] + NameRun(s[1..])
  }

  /** The three properties of `NameRun` determine it: any maximal run of
    * name characters at the front of `s` is `NameRun(s)`. */
  lemma NameRunUnique(s: string, p: string)
    requires p <= s && AllNameChars(p)
    requires |p| == |s| || !IsNameChar(s[|p|])
    ensures p == NameRun(s)
  {
  }

  /** The leftmost position at or after `from` where the pattern matches. */
  function FindMatch(url: string, from: nat): (r: Option<nat>)
    ensures r.Some? ==> from <= r.value && MatchesAt(url, r.value)
    ensures r.Some? ==> forall j: nat :: from <= j < r.value ==> !MatchesAt(url, j)
    ensures r.None? ==> forall j: nat :: from <= j ==> !MatchesAt(url, j)
    decreases |url| - from
  {
    if |url| <= from + |MARKER| then None
    else if MatchesAt(url, from) then Some(from)
    else FindMatch(url, from + 1)
  }

  /** `re.search(...)`: the text of group 1 of the leftmost match, if any. */
  function Search(url: string): (r: Option<string>)
    ensures r.None? <==> forall i: nat :: !MatchesAt(url, i)
    ensures r.Some? ==> exists i: nat :: MatchesAt(url, i) && CapturedAt(url, i, r.value)
  {
    match FindMatch(url, 0)
    case None => None
    case Some(i) => Some(NameRun(url[i + |MARKER|..]))
  }

  /** `extract_username`: the captured group, or "unknown" without a match. */
  function ExtractUsername(url: string): (name: string)
    ensures name != []
    ensures AllNameChars(name)
  {
    match Search(url)
    case Some(n) => n
    case None => "unknown"
  }

  /** Full characterisation: with no match the result is "unknown"; with a
    * match, it is the capture at the leftmost matching position. */
  lemma ExtractUsernameSpec(url: string)
    ensures (forall i: nat :: !MatchesAt(url, i)) ==> ExtractUsername(url) == "unknown"
    ensures forall i: nat ::
              MatchesAt(url, i) && (forall j: nat :: j < i ==> !MatchesAt(url, j))
              ==> CapturedAt(url, i, ExtractUsername(url))
  {
  }

  /** The capture at a given position is unique, so the name is fully determined. */
  lemma CapturedAtUnique(url: string, i: nat, a: string, b: string)
    requires CapturedAt(url, i, a) && CapturedAt(url, i, b)
    ensures a == b
  {
  }

  /** A profile URL with a post path: the name is the first path segment. */
  lemma ExampleProfileUrl()
    ensures ExtractUsername("https://instagram.com/somebody/p/ABC123/") == "somebody"
  {
    var url := "https://instagram.com/somebody/p/ABC123/";
    assert MatchesAt(url, 8) by {
      forall k | 0 <= k < |MARKER| ensures url[8..22][k] == MARKER[k] {
        assert url[8..22][k] == url[8 + k];
      }
    }
    forall j: nat | j < 8 ensures !MatchesAt(url, j) {
      assert url[j] != 'i';
      if j + |MARKER| < |url| { assert url[j..j + |MARKER|][0] == url[j]; }
    }
    NameRunUnique(url[22..], "somebody");
    ExtractUsernameSpec(url);
    CapturedAtUnique(url, 8, ExtractUsername(url), "somebody");
  }

  /** A marker followed directly by `/` or `?` does not match; the search moves on. */
  lemma ExampleSkipsEmptyCapture()
    ensures ExtractUsername("instagram.com/?x") == "unknown"
  {
  }
}
