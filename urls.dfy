/** The two URL patterns the playlist client tests, written out as string
    predicates. A .NET `Regex.IsMatch` is an unanchored search, so a pattern
    matches when it matches at some start position; the lazy quantifiers of
    the patterns do not change whether a match exists, only which one is
    found. `.` matches any character except a line feed. */
module UrlPatterns {
  import opened Text

  /** The library functions of System.Uri the classifiers call, taken as given. */
  datatype UriLib = UriLib(
    isWellFormedAbsolute: string -> bool,  // Uri.IsWellFormedUriString(_, UriKind.Absolute)
    host: string -> string,                // new UriBuilder(_).Host
    segmentCount: string -> int)           // new UriBuilder(_).Uri.Segments.Length

  const ShortLinkHost := "on.soundcloud."   // 14 characters
  const SiteHost := "soundcloud."           // 11 characters
  const SetsSegment := "/sets/"             // 6 characters

  predicate NoNewline(s: string) { forall i :: 0 <= i < |s| ==> s[i] != '\n' }

  /** `on\.soundcloud\..+?\/.+?` matched from position i, with its `\/` at j. */
  predicate ShortLinkMatchAt(s: string, i: int, j: int)
  {
    && 0 <= i && i + |ShortLinkHost| < j && j + 1 < |s|
    && s[i..i + |ShortLinkHost|] == ShortLinkHost
    && NoNewline(s[i + |ShortLinkHost|..j])
    && s[j] == '/'
    && s[j + 1] != '\n'
  }

  /** ShortUrlRegex.IsMatch(s). */
  predicate IsShortLink(s: string)
    ensures IsShortLink(s) ==> |s| >= |ShortLinkHost| + 3
  {
    exists i, j | 0 <= i < |s| && 0 <= j < |s| :: ShortLinkMatchAt(s, i, j)
  }

  /** `\/sets\/` occurs at position k. */
  predicate SetsAt(s: string, k: int)
  {
    0 <= k && k + |SetsSegment| <= |s| && s[k..k + |SetsSegment|] == SetsSegment
  }

  /** `soundcloud\..+?\/(.*?)\/sets\/[a-zA-Z]+` matched from position i, with
      its first `\/` at j and `\/sets\/` at k (one letter is enough for `+`). */
  predicate PlaylistMatchAt(s: string, i: int, j: int, k: int)
  {
    && 0 <= i && i + |SiteHost| < j < k && k + |SetsSegment| < |s|
    && s[i..i + |SiteHost|] == SiteHost
    && NoNewline(s[i + |SiteHost|..j])
    && s[j] == '/'
    && NoNewline(s[j + 1..k])
    && SetsAt(s, k)
    && IsAsciiLetter(s[k + |SetsSegment|])
  }

  /** PlaylistRegex.IsMatch(s). */
  predicate MatchesPlaylistPattern(s: string)
    ensures MatchesPlaylistPattern(s) ==> exists k :: SetsAt(s, k)
    ensures MatchesPlaylistPattern(s) ==> |s| >= |SiteHost| + |SetsSegment| + 3
  {
    exists i, j, k | 0 <= i < |s| && 0 <= j < |s| && 0 <= k < |s| :: PlaylistMatchAt(s, i, j, k)
  }

  /** The start of a set page address: scheme, host and the slash that ends it. */
  const SitePrefix := "https://soundcloud.com/"   // 23 characters

  lemma SitePrefixHost()
    ensures |SitePrefix| == 23 && SitePrefix[8..19] == SiteHost
    ensures SitePrefix[22] == '/' && NoNewline(SitePrefix[19..22])
  {
    var p := SitePrefix;
    assert p[8] == 's' && p[9] == 'o' && p[10] == 'u' && p[11] == 'n' && p[12] == 'd';
    assert p[13] == 'c' && p[14] == 'l' && p[15] == 'o' && p[16] == 'u' && p[17] == 'd' && p[18] == '.';
  }

  /** Every set page address matches: the site, an owner path without line
      feeds, then `/sets/` and a name that starts with a letter. */
  lemma SetUrlMatches(owner: string, name: string)
    requires NoNewline(owner) && 1 <= |name| && IsAsciiLetter(name[0])
    ensures MatchesPlaylistPattern(SitePrefix + owner + SetsSegment + name)
  {
    SitePrefixHost();
    var s := SitePrefix + owner + SetsSegment + name;
    var k := 23 + |owner|;
    assert s[..23] == SitePrefix;
    assert s[8..19] == SitePrefix[8..19];
    assert s[19..22] == SitePrefix[19..22];
    assert s[23..k] == owner;
    assert s[k..k + |SetsSegment|] == SetsSegment;
    assert s[k + |SetsSegment|] == name[0];
    assert PlaylistMatchAt(s, 8, 22, k);
  }

  /** No `/sets/` anywhere, no match: a plain track path is not a playlist. */
  lemma WithoutSetsNoMatch(s: string)
    requires forall k :: !SetsAt(s, k)
    ensures !MatchesPlaylistPattern(s)
  {
  }

  /** Any string holding `/sets/` holds an 'e'. */
  lemma SetsHasE(s: string, k: int)
    requires SetsAt(s, k)
    ensures 'e' in s
  {
    assert s[k + 2] == s[k..k + |SetsSegment|][2];
  }

  /** A track page URL is not a playlist URL: it has no `/sets/` part. */
  lemma TrackUrlDoesNotMatch()
    ensures !MatchesPlaylistPattern("https://soundcloud.com/artist/track")
  {
    var s := "https://soundcloud.com/artist/track";
    assert 'e' !in s;
    forall k ensures !SetsAt(s, k) {
      if SetsAt(s, k) {
        SetsHasE(s, k);
      }
    }
    WithoutSetsNoMatch(s);
  }

  /** A line feed is the only character lower-casing maps to a line feed. */
  lemma {:induction false} LowerKeepsNoNewline(s: string)
    ensures NoNewline(Lower(s)) == NoNewline(s)
  {
    if !NoNewline(s) {
      var i :| 0 <= i < |s| && s[i] == '\n';
      assert Lower(s)[i] == '\n';
    }
  }

  lemma {:induction false} LowerKeepsPlaylistMatchAt(s: string, i: int, j: int, k: int)
    requires PlaylistMatchAt(s, i, j, k)
    ensures PlaylistMatchAt(Lower(s), i, j, k)
  {
    var t := Lower(s);
    LowerSlice(s, i, i + |SiteHost|);
    LowerOfLower(SiteHost);
    LowerSlice(s, i + |SiteHost|, j);
    LowerKeepsNoNewline(s[i + |SiteHost|..j]);
    LowerSlice(s, j + 1, k);
    LowerKeepsNoNewline(s[j + 1..k]);
    LowerSlice(s, k, k + |SetsSegment|);
    LowerOfLower(SetsSegment);
    assert SetsAt(t, k);
  }

  /** Lower-casing never loses a playlist match: the pattern's literals are
      lower-case and its letter class holds both cases. */
  lemma LowerKeepsPlaylistMatch(s: string)
    requires MatchesPlaylistPattern(s)
    ensures MatchesPlaylistPattern(Lower(s))
  {
    var i, j, k :| 0 <= i < |s| && 0 <= j < |s| && 0 <= k < |s| && PlaylistMatchAt(s, i, j, k);
    LowerKeepsPlaylistMatchAt(s, i, j, k);
  }

  /** Lower-casing never loses a short link either: its literal host is
      lower-case already. The converse fails (ShortLinkIsCaseSensitive). */
  lemma LowerKeepsShortLink(s: string)
    requires IsShortLink(s)
    ensures IsShortLink(Lower(s))
  {
    var i, j :| 0 <= i < |s| && 0 <= j < |s| && ShortLinkMatchAt(s, i, j);
    var t := Lower(s);
    LowerSlice(s, i, i + |ShortLinkHost|);
    LowerOfLower(ShortLinkHost);
    LowerSlice(s, i + |ShortLinkHost|, j);
    LowerKeepsNoNewline(s[i + |ShortLinkHost|..j]);
    assert t[i..i + |ShortLinkHost|] == ShortLinkHost;
    assert t[j] == '/' && t[j + 1] != '\n';
    assert 0 <= i < |t| && 0 <= j < |t| && ShortLinkMatchAt(t, i, j);
  }

  /** A lower-case short link is recognised. */
  lemma ShortLinkExample()
    ensures IsShortLink("https://on.soundcloud.com/AbC")
  {
    assert ShortLinkMatchAt("https://on.soundcloud.com/AbC", 8, 25);
  }

  /** Every short link holds a lower-case 'o' (the start of its host). */
  lemma ShortLinkHasLowerO(s: string)
    requires IsShortLink(s)
    ensures 'o' in s
  {
    var i, j :| 0 <= i < |s| && 0 <= j < |s| && ShortLinkMatchAt(s, i, j);
    assert s[i] == s[i..i + |ShortLinkHost|][0];
  }

  lemma LowerShortLinkHost()
    ensures Lower("ON.SOUNDCLOUD.") == ShortLinkHost
  {
    var l := Lower("ON.SOUNDCLOUD.");
    assert l[0] == 'o' && l[1] == 'n' && l[2] == '.' && l[3] == 's' && l[4] == 'o';
    assert l[5] == 'u' && l[6] == 'n' && l[7] == 'd' && l[8] == 'c' && l[9] == 'l';
    assert l[10] == 'o' && l[11] == 'u' && l[12] == 'd' && l[13] == '.';
  }

  /** A short link written in capitals is not recognised. */
  lemma CapitalShortLinkRejected()
    ensures !IsShortLink("HTTPS://ON.SOUNDCLOUD.COM/ABC")
  {
    var u := "HTTPS://ON.SOUNDCLOUD.COM/ABC";
    assert 'o' !in u;
    if IsShortLink(u) {
      ShortLinkHasLowerO(u);
      assert false;
    }
  }

  /** The lower-case form of that capitalised short link is recognised. */
  lemma LoweredShortLinkAccepted()
    ensures IsShortLink(Lower("HTTPS://ON.SOUNDCLOUD.COM/ABC"))
  {
    var u := "HTTPS://ON.SOUNDCLOUD.COM/ABC";
    LowerShortLinkHost();
    LowerSlice(u, 8, 22);
    assert u[8..22] == "ON.SOUNDCLOUD.";
    var l := Lower(u);
    assert l[25] == '/' && l[26] != '\n';
    assert ShortLinkMatchAt(l, 8, 25);
  }

  /** The short-link test is case-sensitive: the same link is recognised or
      not depending on its case. */
  lemma ShortLinkIsCaseSensitive()
    ensures exists u :: !IsShortLink(u) && IsShortLink(Lower(u))
  {
    CapitalShortLinkRejected();
    LoweredShortLinkAccepted();
    var u := "HTTPS://ON.SOUNDCLOUD.COM/ABC";
    assert !IsShortLink(u) && IsShortLink(Lower(u));
  }
}
