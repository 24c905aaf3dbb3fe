/**
 * `CitationExtractor.extract`: the URLs of a response, found by the URL
 * pattern left to right, cut of trailing punctuation, stripped of
 * placeholders and listed once each, ignoring case, in the order they
 * first appear.
 */
module CitationExtraction {
  import opened Wrappers
  import opened Text
  import opened Dedup

  // ---------------------------------------------------------------------------
  // URL_PATTERN: https?://(?:[-\w.]|(?:%[\da-fA-F]{2}))+[^\s)\]}"'<>]*
  // ---------------------------------------------------------------------------

  /** The characters the final class of the pattern excludes: a URL runs up to one of them. */
  predicate Stops(c: char) {
    IsSpace(c) || c in ")]}\"'<>"
  }

  /** `\w`, restricted to ASCII. */
  predicate IsWordChar(c: char) {
    'a' <= c <= 'z' || 'A' <= c <= 'Z' || '0' <= c <= '9' || c == '_'
  }

  predicate IsHexDigit(c: char) {
    '0' <= c <= '9' || 'a' <= c <= 'f' || 'A' <= c <= 'F'
  }

  /** The host part starts at `q` with `[-\w.]` or with `%` and two hex digits. */
  predicate HostStartsAt(s: string, q: nat) {
    q < |s|
    && (IsWordChar(s[q]) || s[q] == '-' || s[q] == '.'
        || (s[q] == '%' && q + 2 < |s| && IsHexDigit(s[q + 1]) && IsHexDigit(s[q + 2])))
  }

  /** `https?://` at `p`, ignoring the case of the letters: the position after it. */
  function SchemeEnd(s: string, p: nat): (r: Option<nat>)
    ensures r.Some? ==> (r.value == p + 7 || r.value == p + 8) && r.value <= |s| && s[r.value - 1] == '/'
  {
    if p + 7 <= |s| && LowerChar(s[p]) == 'h' && LowerChar(s[p + 1]) == 't'
       && LowerChar(s[p + 2]) == 't' && LowerChar(s[p + 3]) == 'p' then
      if p + 8 <= |s| && LowerChar(s[p + 4]) == 's' && s[p + 5] == ':' && s[p + 6] == '/' && s[p + 7] == '/' then
        Some(p + 8)
      else if s[p + 4] == ':' && s[p + 5] == '/' && s[p + 6] == '/' then
        Some(p + 7)
      else None
    else None
  }

  /** The end of the longest run of non-stop characters from `q`. */
  function RunEnd(s: string, q: nat): (e: nat)
    requires q <= |s|
    ensures q <= e <= |s| && (e == |s| || Stops(s[e]))
    ensures forall i :: q <= i < e ==> !Stops(s[i])
    decreases |s| - q
  {
    if q == |s| || Stops(s[q]) then q else RunEnd(s, q + 1)
  }

  /**
   * The end of the match of the pattern that starts at `p`, if one does. The
   * host characters are themselves non-stop characters, so the match runs to
   * the end of the non-stop run after the scheme.
   */
  function MatchAt(s: string, p: nat): (r: Option<nat>)
    requires p <= |s|
    ensures r.Some? ==> p + 8 <= r.value <= |s|
  {
    match SchemeEnd(s, p)
    case None => None
    case Some(q) => if HostStartsAt(s, q) then Some(RunEnd(s, q)) else None
  }

  /** `URL_PATTERN.findall(text)` from position `p`: the non-overlapping matches, left to right. */
  function FindAll(s: string, p: nat): seq<string>
    requires p <= |s|
    decreases |s| - p
  {
    if p == |s| then []
    else
      match MatchAt(s, p)
      case Some(e) => [s[p..e]] + FindAll(s, e)
      case None => FindAll(s, p + 1)
  }

  /** The whole of `m` is one match of the pattern. */
  predicate UrlShaped(m: string) {
    MatchAt(m, 0) == Some(|m|)
  }

  /** `m` occurs at `i` in `s` and cannot be extended: the text ends or a stop character follows. */
  predicate FoundAt(s: string, m: string, i: nat) {
    i + |m| <= |s| && s[i..i + |m|] == m && (i + |m| == |s| || Stops(s[i + |m|]))
  }

  /** The scheme only depends on the characters it covers. */
  lemma SchemePrefix(s: string, p: nat, t: string)
    requires SchemeEnd(s, p).Some?
    requires SchemeEnd(s, p).value - p <= |t| && t[..SchemeEnd(s, p).value - p] == s[p..SchemeEnd(s, p).value]
    ensures SchemeEnd(t, 0) == Some(SchemeEnd(s, p).value - p)
  {
    var n := SchemeEnd(s, p).value - p;
    assert forall i :: 0 <= i < n ==> t[i] == t[..n][i] == s[p..p + n][i] == s[p + i];
  }

  /** A match, taken out of the text, is a match on its own. */
  lemma MatchShaped(s: string, p: nat)
    requires p <= |s| && MatchAt(s, p).Some?
    ensures UrlShaped(s[p..MatchAt(s, p).value])
  {
    var e := MatchAt(s, p).value;
    var q := SchemeEnd(s, p).value;
    var m := s[p..e];
    assert forall i :: 0 <= i < |m| ==> m[i] == s[p + i];
    assert m[..q - p] == s[p..q];
    SchemePrefix(s, p, m);
    if s[q] == '%' {
      assert !Stops(s[q + 1]) && !Stops(s[q + 2]);
    }
    assert HostStartsAt(m, q - p);
  }

  /** Every match is, on its own, a whole match of the pattern. */
  lemma {:induction false} FindAllShaped(s: string, p: nat)
    requires p <= |s|
    ensures forall k :: 0 <= k < |FindAll(s, p)| ==> UrlShaped(FindAll(s, p)[k])
    decreases |s| - p
  {
    if p < |s| {
      match MatchAt(s, p)
      case Some(e) =>
        FindAllShaped(s, e);
        MatchShaped(s, p);
        var ms := FindAll(s, p);
        var rest := FindAll(s, e);
        assert ms == [s[p..e]] + rest;
        forall k | 1 <= k < |ms| ensures UrlShaped(ms[k]) {
          assert ms[k] == rest[k - 1];
        }
      case None =>
        FindAllShaped(s, p + 1);
    }
  }

  /** `m` is found in `s` at some position from `p` on. */
  predicate FoundFrom(s: string, m: string, p: nat) {
    exists i: nat :: p <= i <= |s| && FoundAt(s, m, i)
  }

  /** Every match occurs in the text at or after `p` and runs as far as the pattern allows. */
  lemma {:induction false} FindAllFound(s: string, p: nat)
    requires p <= |s|
    ensures forall k :: 0 <= k < |FindAll(s, p)| ==> FoundFrom(s, FindAll(s, p)[k], p)
    decreases |s| - p
  {
    if p < |s| {
      var ms := FindAll(s, p);
      match MatchAt(s, p)
      case Some(e) =>
        FindAllFound(s, e);
        var rest := FindAll(s, e);
        assert ms == [s[p..e]] + rest;
        assert FoundAt(s, ms[0], p);
        forall k | 1 <= k < |ms| ensures FoundFrom(s, ms[k], p) {
          assert ms[k] == rest[k - 1];
          assert FoundFrom(s, rest[k - 1], e);
          var j: nat :| e <= j <= |s| && FoundAt(s, rest[k - 1], j);
          assert p <= j && FoundAt(s, ms[k], j);
        }
      case None =>
        FindAllFound(s, p + 1);
        assert ms == FindAll(s, p + 1);
        forall k | 0 <= k < |ms| ensures FoundFrom(s, ms[k], p) {
          assert FoundFrom(s, ms[k], p + 1);
          var j: nat :| p + 1 <= j <= |s| && FoundAt(s, ms[k], j);
          assert p <= j;
        }
    }
  }

  /** There is no match at all exactly when the pattern matches at no position. */
  lemma {:induction false} FindAllEmpty(s: string, p: nat)
    requires p <= |s|
    ensures FindAll(s, p) == [] <==> forall i :: p <= i < |s| ==> MatchAt(s, i).None?
    decreases |s| - p
  {
    if p < |s| {
      match MatchAt(s, p)
      case Some(e) =>
      case None =>
        FindAllEmpty(s, p + 1);
    }
  }

  // ---------------------------------------------------------------------------
  // Cleaning and validation
  // ---------------------------------------------------------------------------

  /** The characters `url.rstrip('.,;:!?)')` removes. */
  const TrailingPunctuation := ".,;:!?)"

  /** `url.rstrip('.,;:!?)')` */
  function RStrip(u: string): (r: string)
    ensures |r| <= |u| && r == u[..|r|]
    ensures r == [] || r[|r| - 1] !in TrailingPunctuation
    ensures forall i :: |r| <= i < |u| ==> u[i] in TrailingPunctuation
  {
    if u != [] && u[|u| - 1] in TrailingPunctuation then RStrip(u[..|u| - 1]) else u
  }

  /** The placeholder markers `_is_valid_url` rejects, in lower case. */
  const SkipPatterns: seq<string> :=
    ["example.com", "placeholder", "yoursite", "website.com", "domain.com", "localhost", "127.0.0.1"]

  predicate IsPlaceholder(u: string) {
    exists k :: 0 <= k < |SkipPatterns| && Contains(Lower(u), SkipPatterns[k])
  }

  /** `_is_valid_url`: non-empty, no placeholder marker in any case, and a dot somewhere. */
  predicate IsValidUrl(u: string) {
    u != [] && !IsPlaceholder(u) && '.' in u
  }

  /** The first loop of `extract`: each match cut of its trailing punctuation, kept when valid. */
  function Cleaned(urls: seq<string>): (r: seq<string>)
    ensures |r| <= |urls|
  {
    if urls == [] then []
    else
      var c := RStrip(urls[|urls| - 1]);
      Cleaned(urls[..|urls| - 1]) + (if IsValidUrl(c) then [c] else [])
  }

  /** `extract(response_text)` */
  function Extract(text: string): seq<string> {
    if text == [] then [] else DedupBy(Cleaned(FindAll(text, 0)), Lower)
  }

  /** `extract` */
  method ExtractCitations(responseText: string) returns (uniqueUrls: seq<string>)
    ensures uniqueUrls == Extract(responseText)
  {
    if responseText == [] {
      return [];
    }
    var urls := FindAll(responseText, 0);
    var cleanedUrls := [];
    for i := 0 to |urls|
      invariant cleanedUrls == Cleaned(urls[..i])
    {
      var url := RStrip(urls[i]);
      if IsValidUrl(url) {
        cleanedUrls := cleanedUrls + [url];
      }
      assert urls[..i + 1][..i] == urls[..i];
    }
    assert urls[..|urls|] == urls;
    uniqueUrls := DedupLoop(cleanedUrls, Lower);
  }

  // ---------------------------------------------------------------------------
  // Properties
  // ---------------------------------------------------------------------------

  /**
   * Exactly the valid cleaned matches are kept: each kept URL is a valid
   * cleaned form of some match, and each valid cleaned form is kept.
   */
  lemma {:induction false} CleanedFacts(urls: seq<string>)
    ensures forall k :: 0 <= k < |Cleaned(urls)| ==>
      IsValidUrl(Cleaned(urls)[k]) && exists j :: 0 <= j < |urls| && Cleaned(urls)[k] == RStrip(urls[j])
    ensures forall j :: 0 <= j < |urls| && IsValidUrl(RStrip(urls[j])) ==> RStrip(urls[j]) in Cleaned(urls)
  {
    if urls != [] {
      var n := |urls|;
      var p := urls[..n - 1];
      CleanedFacts(p);
      var r := Cleaned(urls);
      var r0 := Cleaned(p);
      forall k | 0 <= k < |r|
        ensures IsValidUrl(r[k]) && exists j :: 0 <= j < n && r[k] == RStrip(urls[j])
      {
        if k < |r0| {
          assert r[k] == r0[k];
          var j :| 0 <= j < |p| && r0[k] == RStrip(p[j]);
          assert p[j] == urls[j];
        } else {
          assert r[k] == RStrip(urls[n - 1]);
        }
      }
      forall j | 0 <= j < n && IsValidUrl(RStrip(urls[j])) ensures RStrip(urls[j]) in r {
        if j < n - 1 {
          assert urls[j] == p[j];
        }
      }
    }
  }

  /** Cutting the punctuation off a match keeps its scheme. */
  lemma SchemeKept(m: string)
    requires UrlShaped(m)
    ensures SchemeEnd(RStrip(m), 0) == SchemeEnd(m, 0)
  {
    var q := SchemeEnd(m, 0).value;
    var r := RStrip(m);
    assert m[q - 1] !in TrailingPunctuation;
    assert |r| >= q;
    assert r[..q] == m[..q];
    SchemePrefix(m, 0, r);
  }

  /** Every URL of `extract` is one of the valid cleaned matches. */
  lemma ExtractFromCleaned(text: string)
    ensures forall i :: 0 <= i < |Extract(text)| ==> Extract(text)[i] in Cleaned(FindAll(text, 0))
  {
    if text != [] {
      var idx := DedupFacts(Cleaned(FindAll(text, 0)), Lower);
    }
  }

  /** A URL that survives cleaning keeps its scheme, is valid, and does not end with punctuation. */
  predicate CleanEntry(u: string) {
    SchemeEnd(u, 0).Some? && IsValidUrl(u) && u[|u| - 1] !in TrailingPunctuation
  }

  lemma CleanedEntries(text: string)
    ensures forall k :: 0 <= k < |Cleaned(FindAll(text, 0))| ==> CleanEntry(Cleaned(FindAll(text, 0))[k])
  {
    var ms := FindAll(text, 0);
    var c := Cleaned(ms);
    CleanedFacts(ms);
    FindAllShaped(text, 0);
    forall k | 0 <= k < |c| ensures CleanEntry(c[k]) {
      var j :| 0 <= j < |ms| && c[k] == RStrip(ms[j]);
      SchemeKept(ms[j]);
    }
  }

  /**
   * Every URL of `extract` starts with `http://` or `https://` in some case,
   * passes `_is_valid_url` and does not end with the punctuation that is
   * cut off.
   */
  lemma ExtractEntries(text: string)
    ensures forall i :: 0 <= i < |Extract(text)| ==> CleanEntry(Extract(text)[i])
  {
    if text != [] {
      var c := Cleaned(FindAll(text, 0));
      ExtractFromCleaned(text);
      CleanedEntries(text);
      forall i | 0 <= i < |Extract(text)| ensures CleanEntry(Extract(text)[i]) {
        var k :| 0 <= k < |c| && c[k] == Extract(text)[i];
      }
    }
  }

  /**
   * `extract` lists each URL once ignoring case, keeps the first spelling in
   * the order of the text, and drops no URL whose lower-case form it lacks.
   */
  lemma ExtractUnique(text: string) returns (idx: seq<nat>)
    requires text != []
    ensures var r := Extract(text);
      && (forall i, j :: 0 <= i < j < |r| ==> Lower(r[i]) != Lower(r[j]))
      && IsFirstOccurrences(Cleaned(FindAll(text, 0)), r, idx, Lower)
      && KeysOf(r, Lower) == KeysOf(Cleaned(FindAll(text, 0)), Lower)
      && |r| <= |FindAll(text, 0)|
  {
    var c := Cleaned(FindAll(text, 0));
    idx := DedupFacts(c, Lower);
    DedupDistinct(c, Lower);
  }

  /** An empty response has no citations, and neither has a text without any URL. */
  lemma NoUrlNoCitations(text: string)
    requires forall i :: 0 <= i < |text| ==> MatchAt(text, i).None?
    ensures Extract(text) == []
  {
    FindAllEmpty(text, 0);
  }
}
