/**
 * `getYouTubeId`: the first match of
 * `(?:youtu\.be\/|youtube\.com\/(?:watch\?v=|embed\/|shorts\/))([^&\n?#]+)` in a URL,
 * returning the captured id. The regular expression is modelled by its matching strategy:
 * start positions are tried from the left; at one position at most one of the four
 * prefixes can occur (they differ before any of them ends), and the greedy class needs at
 * least one character, so a position matches exactly when a prefix occurs there and is
 * followed by a non-delimiter, and the capture is the longest delimiter-free run after it.
 */
module YouTube {
  import opened Wrappers
  import opened Text

  const ShortPrefix := "youtu.be/"
  const WatchPrefix := "youtube.com/watch?v="
  const EmbedPrefix := "youtube.com/embed/"
  const ShortsPrefix := "youtube.com/shorts/"

  const Prefixes: seq<string> := [ShortPrefix, WatchPrefix, EmbedPrefix, ShortsPrefix]

  /** The characters the id class `[^&\n?#]` excludes. */
  predicate IsDelimiter(c: char) {
    c == '&' || c == '\n' || c == '?' || c == '#'
  }

  /** `prefix` occurs at `p` and is followed by at least one id character. */
  predicate IdAfter(url: string, p: int, prefix: string) {
    OccursAt(url, prefix, p) && p + |prefix| < |url| && !IsDelimiter(url[p + |prefix|])
  }

  /** The first of `prefixes` that occurs at `p` followed by an id character. */
  function PrefixMatching(url: string, p: int, prefixes: seq<string>): (r: Option<string>)
    ensures r.Some? ==> r.value in prefixes && IdAfter(url, p, r.value)
    ensures r.None? ==> forall prefix :: prefix in prefixes ==> !IdAfter(url, p, prefix)
  {
    if prefixes == [] then None
    else if IdAfter(url, p, prefixes[0]) then Some(prefixes[0])
    else PrefixMatching(url, p, prefixes[1..])
  }

  /** The regular expression matches at start position `p`. */
  predicate MatchesAt(url: string, p: int) {
    PrefixMatching(url, p, Prefixes).Some?
  }

  /** The prefix that matches at `p`. */
  function MatchedPrefix(url: string, p: int): (prefix: string)
    requires MatchesAt(url, p)
    ensures prefix in Prefixes && IdAfter(url, p, prefix)
  {
    PrefixMatching(url, p, Prefixes).value
  }

  /** Length of the delimiter-free run of `url` starting at `i`. */
  function RunLength(url: string, i: nat): (n: nat)
    requires i <= |url|
    ensures i + n <= |url|
    ensures forall k :: i <= k < i + n ==> !IsDelimiter(url[k])
    ensures i + n == |url| || IsDelimiter(url[i + n])
    decreases |url| - i
  {
    if i == |url| || IsDelimiter(url[i]) then 0 else 1 + RunLength(url, i + 1)
  }

  /** The leftmost start position at or after `from` where the expression matches. */
  function FirstMatch(url: string, from: nat): (r: Option<nat>)
    ensures r.Some? ==> from <= r.value <= |url| && MatchesAt(url, r.value)
    ensures r.Some? ==> forall q :: from <= q < r.value ==> !MatchesAt(url, q)
    ensures r.None? ==> forall q :: from <= q ==> !MatchesAt(url, q)
    decreases |url| - from
  {
    if from > |url| then None
    else if MatchesAt(url, from) then Some(from)
    else FirstMatch(url, from + 1)
  }

  /** No start position before `p` matches. */
  predicate NoMatchBefore(url: string, p: int) {
    forall q :: 0 <= q < p ==> !MatchesAt(url, q)
  }

  /** The text the capture group takes for a match at `p`: the id-character run after the prefix. */
  function Capture(url: string, p: int): (id: string)
    requires MatchesAt(url, p)
    ensures id != [] && forall k :: 0 <= k < |id| ==> !IsDelimiter(id[k])
    ensures var start := p + |MatchedPrefix(url, p)|;
            && OccursAt(url, id, start)
            && (start + |id| == |url| || IsDelimiter(url[start + |id|]))
  {
    var start := p + |MatchedPrefix(url, p)|;
    var id := url[start..start + RunLength(url, start)];
    assert forall k :: 0 <= k < |id| ==> id[k] == url[start + k];
    id
  }

  /** `getYouTubeId(url)`: the capture at the first matching position, if there is one. */
  function GetYouTubeId(url: string): Option<string> {
    var m := FirstMatch(url, 0);
    if m.None? then None else Some(Capture(url, m.value))
  }

  /**
   * `id` is the capture of a match at `p` with `prefix`: the prefix occurs at `p`, `id`
   * is a non-empty delimiter-free text that follows it, the URL ends after `id` or
   * continues with a delimiter, and no earlier position matches.
   */
  predicate CapturedAt(url: string, p: int, prefix: string, id: string) {
    && prefix in Prefixes && OccursAt(url, prefix, p)
    && id != [] && (forall k :: 0 <= k < |id| ==> !IsDelimiter(id[k]))
    && OccursAt(url, id, p + |prefix|)
    && (p + |prefix| + |id| == |url| || IsDelimiter(url[p + |prefix| + |id|]))
    && NoMatchBefore(url, p)
  }

  /**
   * The id is absent exactly when the expression matches at no position; a present id is
   * the maximal, non-empty, delimiter-free capture after one of the four prefixes at the
   * leftmost matching position.
   */
  lemma GetYouTubeIdSpec(url: string)
    ensures GetYouTubeId(url).None? <==> forall p :: 0 <= p ==> !MatchesAt(url, p)
    ensures GetYouTubeId(url).Some? ==> exists p, prefix :: CapturedAt(url, p, prefix, GetYouTubeId(url).value)
  {
    var m := FirstMatch(url, 0);
    if m.Some? {
      var p := m.value;
      assert MatchesAt(url, p);
      assert CapturedAt(url, p, MatchedPrefix(url, p), Capture(url, p));
    }
  }

  /** Every prefix starts with `y`, so a match can only start at a `y`. */
  lemma MatchNeedsY(url: string, q: int)
    ensures MatchesAt(url, q) ==> 0 <= q < |url| && url[q] == 'y'
  {
    if MatchesAt(url, q) {
      var prefix := MatchedPrefix(url, q);
      assert url[q..q + |prefix|][0] == prefix[0];
    }
  }

  /** The scan stops at the first matching position. */
  lemma {:induction false} FirstMatchIs(url: string, from: nat, p: nat)
    requires from <= p <= |url| && MatchesAt(url, p)
    requires forall q :: from <= q < p ==> !MatchesAt(url, q)
    ensures FirstMatch(url, from) == Some(p)
    decreases p - from
  {
    if from < p {
      FirstMatchIs(url, from + 1, p);
    }
  }

  /** "https://youtu.be/abc?t=3" */
  const ShortLinkUrl := "https://" + ShortPrefix + "abc?t=3"
  /** "https://www.youtube.com/watch?v=XYZ&list=L" */
  const WatchLinkUrl := "https://www." + WatchPrefix + "XYZ&list=L"

  /** The capture is the one delimiter-free run after the prefix that ends at a delimiter or the end. */
  lemma CaptureIs(url: string, p: int, id: string)
    requires MatchesAt(url, p)
    requires var start := p + |MatchedPrefix(url, p)|;
             && id != [] && (forall k :: 0 <= k < |id| ==> !IsDelimiter(id[k]))
             && OccursAt(url, id, start)
             && (start + |id| == |url| || IsDelimiter(url[start + |id|]))
    ensures Capture(url, p) == id
  {
    var start := p + |MatchedPrefix(url, p)|;
    forall k | start <= k < start + |id| ensures !IsDelimiter(url[k]) {
      assert url[k] == url[start..start + |id|][k - start];
    }
    RunLengthIs(url, start, |id|);
  }

  /** A delimiter-free stretch that ends at a delimiter or at the end is the whole run. */
  lemma {:induction false} RunLengthIs(url: string, i: nat, n: nat)
    requires i + n <= |url|
    requires forall k :: i <= k < i + n ==> !IsDelimiter(url[k])
    requires i + n == |url| || IsDelimiter(url[i + n])
    ensures RunLength(url, i) == n
    decreases n
  {
    if n > 0 {
      RunLengthIs(url, i + 1, n - 1);
    }
  }

  /** No position before the first `y` matches. */
  lemma NoMatchBeforeY(url: string, p: nat)
    requires p <= |url| && 'y' !in url[..p]
    ensures NoMatchBefore(url, p)
  {
    forall q | 0 <= q < p ensures !MatchesAt(url, q) {
      assert url[q] == url[..p][q];
      MatchNeedsY(url, q);
    }
  }

  /** A short link with a timestamp. */
  lemma ShortLinkExample()
    ensures GetYouTubeId(ShortLinkUrl) == Some("abc")
  {
    var u := ShortLinkUrl;
    ShortLinkMatch();
    assert 'y' !in u[..8];
    NoMatchBeforeY(u, 8);
    FirstMatchIs(u, 0, 8);
    assert u[17..20] == "abc" && u[20] == '?';
    CaptureIs(u, 8, "abc");
  }

  lemma ShortLinkMatch()
    ensures MatchesAt(ShortLinkUrl, 8) && MatchedPrefix(ShortLinkUrl, 8) == ShortPrefix
  {
    var u := ShortLinkUrl;
    assert u[8..17] == ShortPrefix && u[17] == 'a';
  }

  /** A watch link followed by a playlist parameter. */
  lemma WatchLinkExample()
    ensures GetYouTubeId(WatchLinkUrl) == Some("XYZ")
  {
    var u := WatchLinkUrl;
    WatchLinkMatch();
    assert 'y' !in u[..12];
    NoMatchBeforeY(u, 12);
    FirstMatchIs(u, 0, 12);
    assert u[32..35] == "XYZ" && u[35] == '&';
    CaptureIs(u, 12, "XYZ");
  }

  lemma WatchLinkMatch()
    ensures MatchesAt(WatchLinkUrl, 12) && MatchedPrefix(WatchLinkUrl, 12) == WatchPrefix
  {
    var u := WatchLinkUrl;
    assert u[12..32] == WatchPrefix && u[32] == 'X';
    assert u[17] == WatchPrefix[5] != ShortPrefix[5];
  }
}
