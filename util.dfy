/**
  String helpers of the scraper (sclib/util.py): the script-URL filter, the
  client id pattern and the artwork URL rewrite.
*/
module Util {
  import opened Wrappers
  import opened Seqs

  /** The page scraped for script URLs (`SCRAPE_URLS`, a one-element list). */
  const SCRAPE_URL := "https://soundcloud.com/mt-marcy/cold-nights"

  /** `s` holds `pat` starting at position `i`. */
  predicate OccursAt(s: string, pat: string, i: nat)
  {
    i + |pat| <= |s| && s[i .. i + |pat|] == pat
  }

  /** Python's `pat in s`. */
  predicate Contains(s: string, pat: string)
  {
    exists i: nat | i <= |s| :: OccursAt(s, pat, i)
  }

  // ---------------------------------------------------------------------------
  // find_script_urls

  const COOKIE_LAW := "cookielaw.org"

  /** A script source survives the filter when it does not mention cookielaw.org. */
  predicate KeepScript(src: string)
  {
    !Contains(src, COOKIE_LAW)
  }

  /**
    The loop of `find_script_urls` over the `src` attributes of the page's
    `<script>` tags, given in document order.
  */
  method FindScriptUrls(srcs: seq<string>) returns (scriptsList: seq<string>)
    ensures scriptsList == Filter(srcs, KeepScript)
  {
    scriptsList := [];
    for i := 0 to |srcs|
      invariant scriptsList == Filter(srcs[..i], KeepScript)
    {
      var src := srcs[i];
      if !Contains(src, COOKIE_LAW) {
        scriptsList := scriptsList + [src];
      }
      assert srcs[..i + 1] == srcs[..i] + [src];
      FilterAppend(srcs[..i], [src], KeepScript);
    }
    assert srcs[..|srcs|] == srcs;
  }

  /**
    The filtered list keeps document order, holds no source that mentions
    cookielaw.org, and loses no source that does not.
  */
  lemma ScriptUrlsFiltered(srcs: seq<string>)
    ensures IsSubsequence(Filter(srcs, KeepScript), srcs)
    ensures forall i | 0 <= i < |Filter(srcs, KeepScript)| :: !Contains(Filter(srcs, KeepScript)[i], COOKIE_LAW)
    ensures forall i | 0 <= i < |srcs| :: !Contains(srcs[i], COOKIE_LAW) ==> srcs[i] in Filter(srcs, KeepScript)
  {
    FilterIsSubsequence(srcs, KeepScript);
    FilterMembers(srcs, KeepScript);
  }

  // ---------------------------------------------------------------------------
  // find_client_id: the first capture of `client_id=([a-zA-Z0-9]+)`

  const CLIENT_ID_KEY := "client_id="

  predicate IsAlnum(c: char)
  {
    'a' <= c <= 'z' || 'A' <= c <= 'Z' || '0' <= c <= '9'
  }

  /** The pattern matches at `i`: the key, then at least one ASCII letter or digit. */
  predicate MatchAt(text: string, i: nat)
  {
    i + |CLIENT_ID_KEY| < |text| && OccursAt(text, CLIENT_ID_KEY, i) && IsAlnum(text[i + |CLIENT_ID_KEY|])
  }

  /** `i` is the leftmost position at which the pattern matches, the one `re` reports first. */
  predicate LeftmostMatch(text: string, i: nat)
  {
    MatchAt(text, i) && forall k | 0 <= k < i :: !MatchAt(text, k)
  }

  /** Length of the maximal run of ASCII letters and digits starting at `j` (the greedy `+`). */
  function AlnumRun(text: string, j: nat): (n: nat)
    requires j <= |text|
    ensures j + n <= |text|
    ensures forall k | j <= k < j + n :: IsAlnum(text[k])
    ensures j + n == |text| || !IsAlnum(text[j + n])
    decreases |text| - j
  {
    if j < |text| && IsAlnum(text[j]) then 1 + AlnumRun(text, j + 1) else 0
  }

  /** The group the pattern captures when it matches at `i`. */
  function CaptureAt(text: string, i: nat): string
    requires MatchAt(text, i)
  {
    var j := i + |CLIENT_ID_KEY|;
    text[j .. j + AlnumRun(text, j)]
  }

  /** A client id: a non-empty run of ASCII letters and digits. */
  predicate IsClientId(id: string)
  {
    |id| > 0 && forall k | 0 <= k < |id| :: IsAlnum(id[k])
  }

  /** The scan of `re.findall` from position `i` on, stopping at its first match. */
  function FindFrom(text: string, i: nat): (r: Option<string>)
    ensures r.None? <==> forall k | i <= k :: !MatchAt(text, k)
    ensures r.Some? ==> exists k | i <= k :: MatchAt(text, k) && (forall m | i <= m < k :: !MatchAt(text, m)) && r.value == CaptureAt(text, k)
    decreases |text| - i
  {
    if |text| <= i + |CLIENT_ID_KEY| then None
    else if MatchAt(text, i) then Some(CaptureAt(text, i))
    else FindFrom(text, i + 1)
  }

  /**
    `find_client_id`: the capture of the leftmost match, or `None` (the source's
    `False`) when the pattern matches nowhere.
  */
  function FindClientId(text: string): (r: Option<string>)
    ensures r.None? <==> forall k :: !MatchAt(text, k)
    ensures r.Some? ==> exists k :: LeftmostMatch(text, k) && r.value == CaptureAt(text, k)
    ensures r.Some? ==> IsClientId(r.value)
  {
    FindFrom(text, 0)
  }

  /** The id found is followed by a character that ends the run, or by the end of the text. */
  lemma ClientIdIsMaximal(text: string, k: nat)
    requires MatchAt(text, k)
    ensures var j := k + |CLIENT_ID_KEY| + |CaptureAt(text, k)|;
            j == |text| || !IsAlnum(text[j])
  {
  }

  // ---------------------------------------------------------------------------
  // get_large_artwork_url

  const LARGE := "large"
  const LARGE_500 := "t500x500"

  /** `s.replace('large', 't500x500')`: scans left to right, replacing non-overlapping occurrences. */
  function ReplaceLarge(s: string): (r: string)
    ensures |s| <= |r|
    decreases |s|
  {
    if |s| < |LARGE| then s
    else if s[..|LARGE|] == LARGE then LARGE_500 + ReplaceLarge(s[|LARGE|..])
    else [s[0]] + ReplaceLarge(s[1..])
  }

  /** An input that starts with `large` yields a result that starts with `t500x500`. */
  lemma ReplaceHead(t: string)
    ensures |t| >= |LARGE| && t[..|LARGE|] == LARGE ==>
              |ReplaceLarge(t)| >= |LARGE_500| && ReplaceLarge(t)[..|LARGE_500|] == LARGE_500
  {
  }

  /** A prefix of the result made of letters the replacement cannot produce was already in the input. */
  lemma {:induction false} ReplacePreservesPrefix(t: string, w: string)
    requires forall k | 0 <= k < |w| :: w[k] !in LARGE_500
    ensures |w| <= |ReplaceLarge(t)| && ReplaceLarge(t)[..|w|] == w ==> |w| <= |t| && t[..|w|] == w
    decreases |t|
  {
    if |t| >= |LARGE| && w != [] {
      if t[..|LARGE|] == LARGE {
        // the result starts with `t`, which `w` cannot
        ReplaceHead(t);
        assert LARGE_500[0] == 't';
        assert w[0] != 't';
      } else {
        var r' := ReplaceLarge(t[1..]);
        assert ReplaceLarge(t) == [t[0]] + r';
        ReplacePreservesPrefix(t[1..], w[1..]);
        if |w| <= |ReplaceLarge(t)| && ReplaceLarge(t)[..|w|] == w {
          assert r'[..|w| - 1] == w[1..];
        }
      }
    }
  }

  lemma NoLargeAfterReplacement(r': string)
    requires !Contains(r', LARGE)
    ensures !Contains(LARGE_500 + r', LARGE)
  {
    var r := LARGE_500 + r';
    forall i: nat | i <= |r|
      ensures !OccursAt(r, LARGE, i)
    {
      if i < |LARGE_500| {
        assert 'l' !in LARGE_500;
        if i + |LARGE| <= |r| {
          assert r[i] == LARGE_500[i];
          assert r[i .. i + |LARGE|][0] == r[i];
        }
      } else {
        assert !OccursAt(r', LARGE, i - |LARGE_500|);
        if i + |LARGE| <= |r| {
          assert r[i .. i + |LARGE|] == r'[i - |LARGE_500| .. i - |LARGE_500| + |LARGE|];
        }
      }
    }
  }

  /** Keeping a first character that does not start `large` cannot start a `large` either. */
  lemma KeptCharHead(s: string)
    requires |s| >= |LARGE| && s[..|LARGE|] != LARGE
    ensures !OccursAt([s[0]] + ReplaceLarge(s[1..]), LARGE, 0)
  {
    var r' := ReplaceLarge(s[1..]);
    var r := [s[0]] + r';
    ReplacePreservesPrefix(s[1..], "arge");
    if |r'| >= 4 && r'[..4] == "arge" {
      assert s[1..][..4] == "arge";
      assert s[..|LARGE|] == [s[0]] + "arge";
      assert s[0] != 'l';
    } else if |r| >= |LARGE| {
      assert r[1..|LARGE|] == r'[..4];
      assert LARGE[1..] == "arge";
    }
  }

  lemma NoLargeAfterKeptChar(s: string, r': string)
    requires |s| >= |LARGE| && s[..|LARGE|] != LARGE
    requires r' == ReplaceLarge(s[1..]) && !Contains(r', LARGE)
    ensures !Contains([s[0]] + r', LARGE)
  {
    var r := [s[0]] + r';
    forall i: nat | i <= |r|
      ensures !OccursAt(r, LARGE, i)
    {
      if i == 0 {
        KeptCharHead(s);
      } else {
        assert !OccursAt(r', LARGE, i - 1);
        if i + |LARGE| <= |r| {
          assert r[i .. i + |LARGE|] == r'[i - 1 .. i - 1 + |LARGE|];
        }
      }
    }
  }

  /** No `large` is left after the replacement. */
  lemma {:induction false} ReplaceLeavesNoLarge(s: string)
    ensures !Contains(ReplaceLarge(s), LARGE)
    decreases |s|
  {
    if |s| < |LARGE| {
      assert forall i: nat :: !OccursAt(s, LARGE, i);
    } else if s[..|LARGE|] == LARGE {
      ReplaceLeavesNoLarge(s[|LARGE|..]);
      NoLargeAfterReplacement(ReplaceLarge(s[|LARGE|..]));
    } else {
      ReplaceLeavesNoLarge(s[1..]);
      NoLargeAfterKeptChar(s, ReplaceLarge(s[1..]));
    }
  }

  /** A URL without `large` comes back unchanged. */
  lemma {:induction false} ReplaceWithoutLarge(s: string)
    requires !Contains(s, LARGE)
    ensures ReplaceLarge(s) == s
    decreases |s|
  {
    if |s| >= |LARGE| {
      assert !OccursAt(s, LARGE, 0);
      forall i: nat | i <= |s[1..]| && OccursAt(s[1..], LARGE, i)
        ensures false
      {
        assert OccursAt(s, LARGE, i + 1);
      }
      ReplaceWithoutLarge(s[1..]);
    }
  }

  /** An occurrence in the tail of `s` is an occurrence in `s`, one place later. */
  lemma OccursInTail(s: string, pat: string, j: nat)
    requires s != []
    ensures OccursAt(s[1..], pat, j) <==> OccursAt(s, pat, j + 1)
  {
    if j + |pat| <= |s[1..]| {
      assert s[1..][j .. j + |pat|] == s[j + 1 .. j + 1 + |pat|];
    }
  }

  /**
    Where `large` first occurs at `i`, the text before it is kept, that `large`
    becomes `t500x500`, and the scan resumes right after it. Together with
    `ReplaceWithoutLarge` this fixes the whole result.
  */
  lemma {:induction false} ReplaceAtFirstLarge(s: string, i: nat)
    requires OccursAt(s, LARGE, i)
    requires forall j: nat | j < i :: !OccursAt(s, LARGE, j)
    ensures ReplaceLarge(s) == s[..i] + LARGE_500 + ReplaceLarge(s[i + |LARGE|..])
    decreases i
  {
    if i == 0 {
      assert s[..|LARGE|] == LARGE;
    } else {
      var t := s[1..];
      OccursInTail(s, LARGE, i - 1);
      forall j: nat | j < i - 1
        ensures !OccursAt(t, LARGE, j)
      {
        OccursInTail(s, LARGE, j);
      }
      ReplaceAtFirstLarge(t, i - 1);
      ReplaceKeepsHead(s);
      ConsBeforeFirst(s, i, ReplaceLarge(s[i + |LARGE|..]));
    }
  }

  /** A text that does not start with `large` keeps its first character. */
  lemma ReplaceKeepsHead(s: string)
    requires |s| >= |LARGE| && !OccursAt(s, LARGE, 0)
    ensures ReplaceLarge(s) == [s[0]] + ReplaceLarge(s[1..])
  {
    assert s[..|LARGE|] != LARGE;
  }

  lemma ConsBeforeFirst(s: string, i: nat, rest: string)
    requires 0 < i && i + |LARGE| <= |s|
    ensures [s[0]] + (s[1..][..i - 1] + LARGE_500 + rest) == s[..i] + LARGE_500 + rest
  {
    assert s[..i] == [s[0]] + s[1..][..i - 1];
  }

  /**
    `get_large_artwork_url`: `None` for a missing or empty URL, otherwise the URL
    with every `large` replaced by `t500x500`.
  */
  function GetLargeArtworkUrl(artworkUrl: Option<string>): (r: Option<string>)
    ensures r.None? <==> artworkUrl.None? || artworkUrl.value == ""
    ensures r.Some? ==> r.value == ReplaceLarge(artworkUrl.value)
    ensures r.Some? ==> !Contains(r.value, LARGE)
    ensures r.Some? && !Contains(artworkUrl.value, LARGE) ==> r == artworkUrl
  {
    if artworkUrl.Some? && artworkUrl.value != "" then
      ReplaceLeavesNoLarge(artworkUrl.value);
      if !Contains(artworkUrl.value, LARGE) then ReplaceWithoutLarge(artworkUrl.value); Some(ReplaceLarge(artworkUrl.value))
      else Some(ReplaceLarge(artworkUrl.value))
    else None
  }

  /** Rewriting an artwork URL a second time changes nothing. */
  lemma ArtworkRewriteIdempotent(artworkUrl: Option<string>)
    requires GetLargeArtworkUrl(artworkUrl).Some?
    ensures GetLargeArtworkUrl(GetLargeArtworkUrl(artworkUrl)) == GetLargeArtworkUrl(artworkUrl)
  {
  }
}
