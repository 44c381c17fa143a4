/**
 * The URL classifiers of modal-light: the YouTube pattern that extracts an
 * 11-character video id, the host test that starts the Vimeo lookup, and the
 * origin test that filters messages from the Vimeo player.
 *
 * Each regular expression is written as a hand-coded matcher over strings.
 * For the YouTube pattern, the language the pattern accepts is stated
 * separately (YoutubePrefix, MatchAt), and lemmas tie the matcher, which
 * follows the backtracking order of the JavaScript engine, to it.
 */
module Urls {
  import opened Common

  // ---------------------------------------------------------------------
  // Character classes of JavaScript regular expressions

  /** `\w`: ASCII letters, digits and underscore. */
  predicate IsWordChar(c: char)
  {
    ('a' <= c <= 'z') || ('A' <= c <= 'Z') || ('0' <= c <= '9') || c == '_'
  }

  /** `(\w|-)`: a character of a YouTube video id. */
  predicate IsIdChar(c: char)
  {
    IsWordChar(c) || c == '-'
  }

  /** The line terminators, which `.` does not match. */
  predicate IsLineTerminator(c: char)
  {
    c == '\n' || c == '\r' || c == '\U{2028}' || c == '\U{2029}'
  }

  /** `\s`: white space and line terminators; `\S` is its complement. */
  predicate IsWhitespace(c: char)
  {
    c == '\t' || c == '\n' || c == '\U{000B}' || c == '\U{000C}' || c == '\r' || c == ' '
    || c == '\U{00A0}' || c == '\U{1680}' || ('\U{2000}' <= c <= '\U{200A}')
    || c == '\U{2028}' || c == '\U{2029}' || c == '\U{202F}' || c == '\U{205F}'
    || c == '\U{3000}' || c == '\U{FEFF}'
  }

  predicate NoWhitespace(s: string)
  {
    forall i :: 0 <= i < |s| ==> !IsWhitespace(s[i])
  }

  predicate NoLineTerminator(s: string)
  {
    forall i :: 0 <= i < |s| ==> !IsLineTerminator(s[i])
  }

  // ---------------------------------------------------------------------
  // The YouTube pattern, as a language
  //
  //   ^(?:https?:\/\/)?(?:www\.)?
  //    (?:youtu\.be\/|youtube\.com\/(?:embed\/|v\/|watch\?v=|watch\?.+&v=))
  //    ((\w|-){11})(?:\S+)?$

  const IdLength: nat := 11

  /** `((\w|-){11})(?:\S+)?$` read from the start of `s`: eleven id characters, then no white space to the end. */
  predicate IdThenTail(s: string)
  {
    |s| >= IdLength && (forall i :: 0 <= i < IdLength ==> IsIdChar(s[i])) && NoWhitespace(s[IdLength..])
  }

  /** The first three path alternatives, which contain no repetition. */
  predicate DirectPath(q: string)
  {
    q == "embed/" || q == "v/" || q == "watch?v="
  }

  /** The fourth alternative `watch\?.+&v=`: at least one non-line-terminator between `watch?` and `&v=`. */
  predicate SearchPath(q: string)
  {
    HasPrefix(q, "watch?") && |q| >= 10 && q[|q| - 3..] == "&v=" && NoLineTerminator(q[6..|q| - 3])
  }

  /** The host and path part; `viaSearch` says whether the `watch\?.+&v=` alternative was used. */
  predicate HostPath(h: string, viaSearch: bool)
  {
    (!viaSearch && h == "youtu.be/")
    || (HasPrefix(h, "youtube.com/") && (if viaSearch then SearchPath(h[12..]) else DirectPath(h[12..])))
  }

  predicate WwwHostPath(p: string, viaSearch: bool)
  {
    HostPath(p, viaSearch) || (HasPrefix(p, "www.") && HostPath(p[4..], viaSearch))
  }

  /** Everything the pattern reads before its capture group. */
  predicate YoutubePrefix(p: string, viaSearch: bool)
  {
    WwwHostPath(p, viaSearch)
    || (HasPrefix(p, "http://") && WwwHostPath(p[7..], viaSearch))
    || (HasPrefix(p, "https://") && WwwHostPath(p[8..], viaSearch))
  }

  /** The whole pattern matches `url` with its capture group starting at index `n`. */
  predicate MatchAt(url: string, n: nat, viaSearch: bool)
  {
    n <= |url| && YoutubePrefix(url[..n], viaSearch) && IdThenTail(url[n..])
  }

  // ---------------------------------------------------------------------
  // The YouTube matcher, in the engine's backtracking order

  /** Length of the `(?:https?:\/\/)?` part the engine commits to. */
  function SchemeLength(url: string): nat
  {
    if HasPrefix(url, "https://") then 8 else if HasPrefix(url, "http://") then 7 else 0
  }

  /** Length of the `(?:www\.)?` part the engine commits to. */
  function WwwLength(s: string): nat
  {
    if HasPrefix(s, "www.") then 4 else 0
  }

  /** The capture group at `n`, if the rest of the pattern matches from there. */
  function IdAt(url: string, n: nat): Option<nat>
  {
    if n <= |url| && IdThenTail(url[n..]) then Some(n) else None
  }

  /** `&v=` at index `k`, reached by `.+` from index `w`, followed by an id and its tail. */
  predicate AmpVAt(url: string, w: nat, k: nat)
  {
    w < k && k + 3 <= |url| && url[k..k + 3] == "&v=" && NoLineTerminator(url[w..k]) && IdThenTail(url[k + 3..])
  }

  /**
   * The greedy `.+&v=` after `watch?` (which ends at `w`): `.+` first takes
   * everything up to `k` and gives characters back one by one, so the
   * rightmost `&v=` that leads to a match wins.
   */
  function LastAmpV(url: string, w: nat, k: nat): (r: Option<nat>)
    ensures r.Some? ==> w + 4 <= r.value <= k + 3 && AmpVAt(url, w, r.value - 3)
    decreases k
  {
    if k <= w then None
    else if AmpVAt(url, w, k) then Some(k + 3)
    else LastAmpV(url, w, k - 1)
  }

  /** Where the host part starts, after the committed scheme and `www.`. */
  function HostStart(url: string): (h: nat)
    ensures h <= |url|
  {
    SchemeLength(url) + WwwLength(url[SchemeLength(url)..])
  }

  /** Where the capture group starts when `url.match(r)` succeeds. */
  function IdStart(url: string): (r: Option<nat>)
    ensures r.Some? ==> MatchAt(url, r.value, false) || MatchAt(url, r.value, true)
  {
    var h := HostStart(url);
    if HasPrefix(url[h..], "youtu.be/") then
      CommittedPrefix(url, h, "youtu.be/", false);
      IdAt(url, h + 9)
    else if HasPrefix(url[h..], "youtube.com/") then
      PathIdStartSound(url, h);
      PathIdStart(url, h)
    else None
  }

  /** The alternatives after `youtube.com/`, tried in the pattern's order. */
  function PathIdStart(url: string, h: nat): Option<nat>
    requires h == HostStart(url) && HasPrefix(url[h..], "youtube.com/")
  {
    var q := h + 12;
    if HasPrefix(url[q..], "embed/") then IdAt(url, q + 6)
    else if HasPrefix(url[q..], "v/") then IdAt(url, q + 2)
    else if HasPrefix(url[q..], "watch?") then WatchIdStart(url, h)
    else None
  }

  /** `watch\?v=` first, then the greedy `watch\?.+&v=`. */
  function WatchIdStart(url: string, h: nat): Option<nat>
    requires h == HostStart(url) && HasPrefix(url[h..], "youtube.com/") && HasPrefix(url[h + 12..], "watch?")
  {
    if HasPrefix(url[h + 18..], "v=") && IdThenTail(url[h + 20..]) then Some(h + 20)
    else LastAmpV(url, h + 18, |url|)
  }

  /** What the alternatives after `youtube.com/` report is a match. */
  lemma PathIdStartSound(url: string, h: nat)
    requires h == HostStart(url) && HasPrefix(url[h..], "youtube.com/")
    ensures PathIdStart(url, h).Some? ==> MatchAt(url, PathIdStart(url, h).value, false) || MatchAt(url, PathIdStart(url, h).value, true)
  {
    var q := h + 12;
    if HasPrefix(url[q..], "embed/") {
      DirectAfter(url, h, "embed/");
    } else if HasPrefix(url[q..], "v/") {
      DirectAfter(url, h, "v/");
    } else if HasPrefix(url[q..], "watch?") {
      WatchIdStartSound(url, h);
    }
  }

  /** What the alternatives after `youtube.com/watch?` report is a match. */
  lemma WatchIdStartSound(url: string, h: nat)
    requires h == HostStart(url) && HasPrefix(url[h..], "youtube.com/") && HasPrefix(url[h + 12..], "watch?")
    ensures WatchIdStart(url, h).Some? ==> MatchAt(url, WatchIdStart(url, h).value, false) || MatchAt(url, WatchIdStart(url, h).value, true)
  {
    if HasPrefix(url[h + 18..], "v=") && IdThenTail(url[h + 20..]) {
      WatchDirect(url, h);
    } else if LastAmpV(url, h + 18, |url|).Some? {
      SearchPrefix(url, h, LastAmpV(url, h + 18, |url|).value);
    }
  }

  /** `isYoutubeVideo(url)`: the captured id, or `false` (here None). */
  function YoutubeVideoId(url: string): (r: Option<string>)
    ensures r.Some? ==> |r.value| == IdLength && forall i :: 0 <= i < IdLength ==> IsIdChar(r.value[i])
    ensures r.Some? ==> exists n: nat, s: bool :: MatchAt(url, n, s) && r.value == url[n..n + IdLength]
  {
    match IdStart(url)
    case Some(n) => Some(url[n..n + IdLength])
    case None => None
  }

  // ---------------------------------------------------------------------
  // Soundness helpers

  /** Two prefixes read one after the other from index `h` form one prefix. */
  lemma JoinPrefix(url: string, h: nat, a: string, b: string)
    requires h <= |url| && HasPrefix(url[h..], a) && HasPrefix(url[h + |a|..], b)
    ensures HasPrefix(url[h..], a + b)
  {
    assert url[h..][..|a| + |b|] == url[h..][..|a|] + url[h + |a|..][..|b|];
  }

  // The prefix the matcher committed to is in the language.

  /** A scheme, an optional `www.` and a host part, each as the pattern spells it, form an accepted prefix. */
  lemma PrefixParts(scheme: string, www: string, host: string, s: bool)
    requires scheme == "https://" || scheme == "http://" || scheme == ""
    requires www == "www." || www == ""
    requires HostPath(host, s)
    ensures YoutubePrefix(scheme + (www + host), s)
  {
    assert WwwHostPath(www + host, s) by {
      if www == "" {
        assert www + host == host;
      }
    }
    if scheme == "" {
      assert scheme + (www + host) == www + host;
    }
  }

  /** The scheme and `www.` the matcher commits to are spelt as the pattern spells them. */
  lemma CommittedParts(url: string)
    ensures url[..SchemeLength(url)] == "https://" || url[..SchemeLength(url)] == "http://" || url[..SchemeLength(url)] == ""
    ensures url[SchemeLength(url)..HostStart(url)] == "www." || url[SchemeLength(url)..HostStart(url)] == ""
  {
    var a := SchemeLength(url);
    if WwwLength(url[a..]) == 4 {
      assert url[a..a + 4] == url[a..][..4];
    }
  }

  /** The matcher's committed scheme and `www.`, followed by an accepted `host`, spell an accepted prefix. */
  lemma CommittedPrefix(url: string, h: nat, host: string, s: bool)
    requires h == HostStart(url) && HasPrefix(url[h..], host) && HostPath(host, s)
    ensures YoutubePrefix(url[..h + |host|], s)
  {
    var a, e := SchemeLength(url), h + |host|;
    CommittedParts(url);
    SliceOfSuffix(url, h, |host|);
    SplitThree(url, a, h, e);
    PrefixParts(url[..a], url[a..h], url[h..e], s);
  }

  /** The first `k` characters from index `h`. */
  lemma SliceOfSuffix(s: string, h: nat, k: nat)
    requires h + k <= |s|
    ensures s[h..][..k] == s[h..h + k]
  {
  }

  /** A prefix of `s` cut at `a` and `h`. */
  lemma SplitThree(s: string, a: nat, h: nat, e: nat)
    requires a <= h <= e <= |s|
    ensures s[..e] == s[..a] + (s[a..h] + s[h..e])
  {
    assert s[..e] == s[..h] + s[h..e];
    assert s[..h] == s[..a] + s[a..h];
  }

  /** The host part up to a `&v=` candidate of the greedy search is accepted through `watch\?.+&v=`. */
  lemma SearchHost(url: string, h: nat, n: nat)
    requires h + 22 <= n <= |url|
    requires HasPrefix(url[h..], "youtube.com/") && HasPrefix(url[h + 12..], "watch?") && AmpVAt(url, h + 18, n - 3)
    ensures HostPath(url[h..n], true)
  {
    var host, q := url[h..n], url[h + 12..n];
    assert host[..12] == url[h..][..12];
    assert host[12..] == q;
    assert q[..6] == url[h + 12..][..6];
    assert q[|q| - 3..] == url[n - 3..n];
    var dots, spanned := q[6..|q| - 3], url[h + 18..n - 3];
    forall i | 0 <= i < |dots|
      ensures !IsLineTerminator(dots[i])
    {
      assert dots[i] == spanned[i];
    }
  }

  /** The same for the `watch\?.+&v=` alternative, ending at `n`. */
  lemma SearchPrefix(url: string, h: nat, n: nat)
    requires h == HostStart(url)
    requires HasPrefix(url[h..], "youtube.com/") && HasPrefix(url[h + 12..], "watch?")
    requires h + 22 <= n && AmpVAt(url, h + 18, n - 3)
    ensures YoutubePrefix(url[..n], true)
  {
    SearchHost(url, h, n);
    SliceOfSuffix(url, h, n - h);
    CommittedPrefix(url, h, url[h..n], true);
  }

  // ---------------------------------------------------------------------
  // Completeness and priority

  /** A string whose `i`-th character differs from `p`'s does not start with `p`. */
  lemma NotPrefixAt(s: string, p: string, i: nat)
    requires i < |p| && (i >= |s| || s[i] != p[i])
    ensures !HasPrefix(s, p)
  {
    if |p| <= |s| {
      assert s[..|p|][i] == s[i];
    }
  }

  lemma HostPathHead(h: string, s: bool)
    requires HostPath(h, s)
    ensures |h| >= 9 && h[0] == 'y'
  {
    if h != "youtu.be/" {
      assert h[..12] == "youtube.com/";
    }
  }

  /** The `(?:www\.)?` the language used is the one the matcher commits to. */
  lemma WwwHostOf(url: string, a: nat, n: nat, s: bool)
    requires a <= n <= |url| && WwwHostPath(url[a..n], s)
    ensures a + WwwLength(url[a..]) <= n && HostPath(url[a + WwwLength(url[a..])..n], s)
  {
    var p := url[a..n];
    if HostPath(p, s) {
      HostPathHead(p, s);
      assert url[a..][0] == p[0];
      NotPrefixAt(url[a..], "www.", 0);
    } else {
      assert HasPrefix(p, "www.") && HostPath(p[4..], s);
      assert url[a..][..4] == p[..4];
      assert p[4..] == url[a + 4..n];
    }
  }

  /** The scheme and `www.` of any match are the ones the matcher commits to. */
  lemma HostOf(url: string, n: nat, s: bool)
    requires MatchAt(url, n, s)
    ensures HostStart(url) <= n && HostPath(url[HostStart(url)..n], s)
  {
    var p := url[..n];
    if WwwHostPath(p, s) {
      BareHostOf(url, n, s);
    } else if HasPrefix(p, "http://") && WwwHostPath(p[7..], s) {
      HttpHostOf(url, n, s);
    } else {
      HttpsHostOf(url, n, s);
    }
  }

  /** The same for a match without a scheme. */
  lemma BareHostOf(url: string, n: nat, s: bool)
    requires n <= |url| && WwwHostPath(url[..n], s)
    ensures HostStart(url) <= n && HostPath(url[HostStart(url)..n], s)
  {
    var p := url[..n];
    if HostPath(p, s) {
      HostPathHead(p, s);
    } else {
      assert p[..4][0] == 'w';
    }
    assert url[0] == p[0];
    NotPrefixAt(url, "https://", 0);
    NotPrefixAt(url, "http://", 0);
    assert url[0..n] == p;
    WwwHostOf(url, 0, n, s);
  }

  /** The same for a match through `http://`. */
  lemma HttpHostOf(url: string, n: nat, s: bool)
    requires n <= |url| && HasPrefix(url[..n], "http://") && WwwHostPath(url[..n][7..], s)
    ensures HostStart(url) <= n && HostPath(url[HostStart(url)..n], s)
  {
    var p := url[..n];
    assert url[..7] == p[..7];
    assert url[..7][4] == ':';
    NotPrefixAt(url, "https://", 4);
    assert p[7..] == url[7..n];
    WwwHostOf(url, 7, n, s);
  }

  /** The same for a match through `https://`. */
  lemma HttpsHostOf(url: string, n: nat, s: bool)
    requires n <= |url| && HasPrefix(url[..n], "https://") && WwwHostPath(url[..n][8..], s)
    ensures HostStart(url) <= n && HostPath(url[HostStart(url)..n], s)
  {
    var p := url[..n];
    assert url[..8] == p[..8];
    assert p[8..] == url[8..n];
    WwwHostOf(url, 8, n, s);
  }

  /** The greedy search finds every `&v=` candidate at or left of `k`, or one further right. */
  lemma {:induction false} LastAmpVFinds(url: string, w: nat, k: nat, j: nat)
    requires AmpVAt(url, w, j) && j <= k
    ensures LastAmpV(url, w, k).Some? && LastAmpV(url, w, k).value >= j + 3
    decreases k
  {
    if !AmpVAt(url, w, k) {
      LastAmpVFinds(url, w, k - 1, j);
    }
  }

  /** `embed/` or `v/` after `youtube.com/`, followed by an id and its tail, is a match. */
  lemma DirectAfter(url: string, h: nat, path: string)
    requires h == HostStart(url) && HasPrefix(url[h..], "youtube.com/") && HasPrefix(url[h + 12..], path)
    requires path == "embed/" || path == "v/"
    ensures IdAt(url, h + 12 + |path|).Some? ==> MatchAt(url, h + 12 + |path|, false)
  {
    JoinPrefix(url, h, "youtube.com/", path);
    CommittedPrefix(url, h, "youtube.com/" + path, false);
  }

  /** `watch\?v=` followed by an id and its tail: the matcher's first choice after `watch?` is a match. */
  lemma WatchDirect(url: string, h: nat)
    requires h == HostStart(url) && HasPrefix(url[h..], "youtube.com/") && HasPrefix(url[h + 12..], "watch?")
    requires HasPrefix(url[h + 18..], "v=") && IdThenTail(url[h + 20..])
    ensures MatchAt(url, h + 20, false)
  {
    JoinPrefix(url, h, "youtube.com/", "watch?");
    JoinPrefix(url, h, "youtube.com/" + "watch?", "v=");
    CommittedPrefix(url, h, "youtube.com/" + "watch?" + "v=", false);
  }

  /** A path spelt `watch?v=` ends eight characters on, with `v=` after `watch?`. */
  lemma WatchVAt(url: string, h: nat, n: nat)
    requires h + 12 <= n <= |url| && url[h + 12..n] == "watch?v="
    ensures n == h + 20 && HasPrefix(url[h + 18..], "v=")
  {
    assert url[h + 18..][..2] == url[h + 12..n][6..];
  }

  /** A path through `watch\?.+&v=` ending at `n` puts a `&v=` candidate of the greedy search at `n - 3`. */
  lemma SearchAmpV(url: string, h: nat, n: nat)
    requires h + 12 <= n <= |url| && SearchPath(url[h + 12..n]) && IdThenTail(url[n..])
    ensures AmpVAt(url, h + 18, n - 3)
  {
    var path := url[h + 12..n];
    assert url[n - 3..n] == path[|path| - 3..];
    var dots, spanned := path[6..|path| - 3], url[h + 18..n - 3];
    forall i | 0 <= i < |spanned|
      ensures !IsLineTerminator(spanned[i])
    {
      assert spanned[i] == dots[i];
    }
  }

  /** Priority among the alternatives after `youtube.com/watch?`. */
  lemma WatchPreferred(url: string, h: nat, n: nat, s: bool)
    requires h == HostStart(url) && HasPrefix(url[h..], "youtube.com/") && HasPrefix(url[h + 12..], "watch?")
    requires h + 12 <= n <= |url| && IdThenTail(url[n..])
    requires if s then SearchPath(url[h + 12..n]) else url[h + 12..n] == "watch?v="
    ensures WatchIdStart(url, h).Some?
    ensures !s ==> WatchIdStart(url, h) == Some(n)
    ensures s ==> MatchAt(url, WatchIdStart(url, h).value, false) || n <= WatchIdStart(url, h).value
  {
    if !s {
      WatchVAt(url, h, n);
    } else if !(HasPrefix(url[h + 18..], "v=") && IdThenTail(url[h + 20..])) {
      SearchAmpV(url, h, n);
      LastAmpVFinds(url, h + 18, |url|, n - 3);
    } else {
      WatchDirect(url, h);
    }
  }

  /** Priority among the alternatives after `youtube.com/`. */
  lemma PathPreferred(url: string, h: nat, n: nat, s: bool)
    requires h == HostStart(url) && HasPrefix(url[h..], "youtube.com/")
    requires h + 12 <= n <= |url| && IdThenTail(url[n..])
    requires if s then SearchPath(url[h + 12..n]) else DirectPath(url[h + 12..n])
    ensures PathIdStart(url, h).Some?
    ensures !s ==> PathIdStart(url, h) == Some(n)
    ensures s ==> MatchAt(url, PathIdStart(url, h).value, false) || n <= PathIdStart(url, h).value
  {
    var path := url[h + 12..n];
    assert url[h + 12..][..|path|] == path;
    if path == "embed/" {
      assert PathIdStart(url, h) == IdAt(url, h + 18);
    } else {
      assert path[0] != 'e';
      NotPrefixAt(url[h + 12..], "embed/", 0);
      if path == "v/" {
        assert PathIdStart(url, h) == IdAt(url, h + 14);
      } else {
        assert path[..6] == "watch?";
        assert url[h + 12..][..6] == path[..6];
        NotPrefixAt(url[h + 12..], "v/", 0);
        WatchPreferred(url, h, n, s);
      }
    }
  }

  /**
   * Whenever the pattern can match, `url.match(r)` succeeds; a match through
   * one of the direct alternatives is the one it reports, and otherwise it
   * reports a direct match or the rightmost `&v=` match.
   */
  lemma Preferred(url: string, n: nat, s: bool)
    requires MatchAt(url, n, s)
    ensures IdStart(url).Some?
    ensures !s ==> IdStart(url) == Some(n)
    ensures s ==> MatchAt(url, IdStart(url).value, false) || n <= IdStart(url).value
  {
    HostOf(url, n, s);
    var h := HostStart(url);
    if url[h..n] == "youtu.be/" {
      ShortHostPreferred(url, h, n);
    } else {
      LongHostPreferred(url, h, n, s);
    }
  }

  /** A match through `youtu.be/` is the one reported. */
  lemma ShortHostPreferred(url: string, h: nat, n: nat)
    requires h == HostStart(url) && h <= n <= |url| && url[h..n] == "youtu.be/" && IdThenTail(url[n..])
    ensures IdStart(url) == Some(n)
  {
    assert url[h..][..9] == url[h..n];
  }

  /** Priority for a match through `youtube.com/`. */
  lemma LongHostPreferred(url: string, h: nat, n: nat, s: bool)
    requires h == HostStart(url) && h <= n <= |url| && HostPath(url[h..n], s) && url[h..n] != "youtu.be/" && IdThenTail(url[n..])
    ensures IdStart(url).Some?
    ensures !s ==> IdStart(url) == Some(n)
    ensures s ==> MatchAt(url, IdStart(url).value, false) || n <= IdStart(url).value
  {
    var host := url[h..n];
    assert host[..12] == "youtube.com/";
    assert url[h..][..12] == host[..12];
    assert url[h..][5] == 'b';
    NotPrefixAt(url[h..], "youtu.be/", 5);
    assert host[12..] == url[h + 12..n];
    PathPreferred(url, h, n, s);
  }

  /** The direct alternatives are prefix-free: at most one of them can match a given url. */
  lemma DirectMatchUnique(url: string, n: nat, m: nat)
    requires MatchAt(url, n, false) && MatchAt(url, m, false)
    ensures n == m
  {
    Preferred(url, n, false);
    Preferred(url, m, false);
  }

  // ---------------------------------------------------------------------
  // The Vimeo host test
  //
  //   ^(?:https?:\/\/|\/\/)?(?:www\.)?(?:vimeo\.com)
  //
  // There is no `$`: only a prefix of the url is tested.

  predicate WwwVimeo(s: string)
  {
    HasPrefix(s, "vimeo.com") || HasPrefix(s, "www.vimeo.com")
  }

  /** The strings the host test accepts, as a language. */
  predicate VimeoPrefixed(url: string)
  {
    WwwVimeo(url)
    || (HasPrefix(url, "http://") && WwwVimeo(url[7..]))
    || (HasPrefix(url, "https://") && WwwVimeo(url[8..]))
    || (HasPrefix(url, "//") && WwwVimeo(url[2..]))
  }

  /** Length of the `(?:https?:\/\/|\/\/)?` part the engine commits to. */
  function VimeoSchemeLength(url: string): nat
  {
    if HasPrefix(url, "https://") then 8
    else if HasPrefix(url, "http://") then 7
    else if HasPrefix(url, "//") then 2
    else 0
  }

  /** Where `vimeo.com` has to start, after the committed scheme and `www.`. */
  function VimeoHostStart(url: string): (h: nat)
    ensures h <= |url|
  {
    VimeoSchemeLength(url) + WwwLength(url[VimeoSchemeLength(url)..])
  }

  /** The test `url.match(r)` at the start of `isVimeoVideo`: true exactly for the strings of the language. */
  function IsVimeoHost(url: string): (b: bool)
    ensures b <==> VimeoPrefixed(url)
  {
    var h := VimeoHostStart(url);
    VimeoHostSound(url);
    VimeoHostComplete(url);
    HasPrefix(url[h..], "vimeo.com")
  }

  /** `vimeo.com` after the committed scheme and `www.` spells a string of the language. */
  lemma VimeoHostSound(url: string)
    ensures HasPrefix(url[VimeoHostStart(url)..], "vimeo.com") ==> VimeoPrefixed(url)
  {
    var a := VimeoSchemeLength(url);
    var h := VimeoHostStart(url);
    if HasPrefix(url[h..], "vimeo.com") {
      assert WwwVimeo(url[a..]) by {
        if h == a + 4 {
          JoinPrefix(url, a, "www.", "vimeo.com");
        } else {
          assert url[a..] == url[h..];
        }
      }
    }
  }

  /** Any string of the language passes the committed test. */
  lemma VimeoHostComplete(url: string)
    ensures VimeoPrefixed(url) ==> HasPrefix(url[VimeoHostStart(url)..], "vimeo.com")
  {
    if VimeoPrefixed(url) {
      var a := VimeoSchemeLength(url);
      if WwwVimeo(url) {
        assert url[0] == 'v' || url[0] == 'w' by {
          if HasPrefix(url, "vimeo.com") {
            assert url[..9][0] == 'v';
          } else {
            assert url[..13][0] == 'w';
          }
        }
        NotPrefixAt(url, "https://", 0);
        NotPrefixAt(url, "http://", 0);
        NotPrefixAt(url, "//", 0);
        assert url[0..] == url;
        WwwVimeoHost(url[a..]);
      } else if HasPrefix(url, "http://") && WwwVimeo(url[7..]) {
        assert url[..7][4] == ':';
        NotPrefixAt(url, "https://", 4);
        WwwVimeoHost(url[a..]);
      } else if HasPrefix(url, "https://") && WwwVimeo(url[8..]) {
        WwwVimeoHost(url[a..]);
      } else {
        assert HasPrefix(url, "//") && WwwVimeo(url[2..]);
        assert url[..2][0] == '/';
        NotPrefixAt(url, "https://", 0);
        NotPrefixAt(url, "http://", 0);
        WwwVimeoHost(url[a..]);
      }
    }
  }

  /** After the scheme, the committed `www.` leaves `vimeo.com` in front. */
  lemma WwwVimeoHost(s: string)
    requires WwwVimeo(s)
    ensures HasPrefix(s[WwwLength(s)..], "vimeo.com")
  {
    if HasPrefix(s, "vimeo.com") {
      assert s[..9][0] == 'v';
      NotPrefixAt(s, "www.", 0);
    } else {
      assert s[..13][..4] == "www.";
      assert s[..4] == "www.";
      assert s[4..][..9] == s[..13][4..];
    }
  }

  /** Whatever IdStart reports, the host part it committed to starts with `y`. */
  lemma YoutubeHostHead(url: string)
    ensures IdStart(url).Some? ==> HostStart(url) < |url| && url[HostStart(url)] == 'y'
  {
    if IdStart(url).Some? {
      var n := IdStart(url).value;
      var s :| MatchAt(url, n, s);
      HostOf(url, n, s);
      HostPathHead(url[HostStart(url)..n], s);
    }
  }

  /**
   * No url accepted by the Vimeo host test is a YouTube video url, so a click
   * creates at most one embed.
   */
  lemma VimeoIsNotYoutube(url: string)
    requires IsVimeoHost(url)
    ensures YoutubeVideoId(url).None?
  {
    var a := VimeoSchemeLength(url);
    var h := VimeoHostStart(url);
    assert url[h..][..9][0] == 'v';
    assert url[h] == 'v';
    if a == 2 {
      assert url[..2][0] == '/';
      NotPrefixAt(url, "https://", 0);
      NotPrefixAt(url, "http://", 0);
      NotPrefixAt(url, "www.", 0);
      assert url[0..] == url;
      assert HostStart(url) == 0;
    } else {
      assert SchemeLength(url) == a;
    }
    YoutubeHostHead(url);
  }

  // ---------------------------------------------------------------------
  // The origin test of the Vimeo message handler
  //
  //   ^https?:\/\/player.vimeo.com
  //
  // The dots are not escaped and there is no `$`.

  const PlayerHostPattern: string := "player.vimeo.com"

  /** `s` starts with `pattern`, where each `.` of the pattern stands for any character but a line terminator. */
  predicate DotsMatch(s: string, pattern: string)
  {
    |pattern| <= |s| && forall i :: 0 <= i < |pattern| ==> if pattern[i] == '.' then !IsLineTerminator(s[i]) else s[i] == pattern[i]
  }

  /** The test `/^https?:\/\/player.vimeo.com/.test(event.origin)`. */
  predicate IsVimeoPlayerOrigin(origin: string)
  {
    (HasPrefix(origin, "https://") && DotsMatch(origin[8..], PlayerHostPattern))
    || (HasPrefix(origin, "http://") && DotsMatch(origin[7..], PlayerHostPattern))
  }

  /** An accepted origin starts with `http`; in particular it is never the wildcard `*`. */
  lemma AcceptedOriginIsHttp(origin: string)
    requires IsVimeoPlayerOrigin(origin)
    ensures HasPrefix(origin, "http") && origin != "*"
  {
    if HasPrefix(origin, "https://") {
      assert origin[..4] == origin[..8][..4];
    } else {
      assert origin[..4] == origin[..7][..4];
    }
  }

  /** Only a prefix is tested: anything may follow the genuine player host. */
  lemma {:induction false} AcceptsAnySuffix(suffix: string)
    ensures IsVimeoPlayerOrigin("https://" + (PlayerHostPattern + suffix))
  {
    var host := PlayerHostPattern + suffix;
    forall i | 0 <= i < |PlayerHostPattern|
      ensures host[i] == PlayerHostPattern[i]
    {
    }
  }

  /** The unescaped dots let look-alike hosts through. */
  lemma LookalikeAccepted()
    ensures IsVimeoPlayerOrigin("https://playerXvimeoYcom.example")
  {
    var o := "https://playerXvimeoYcom.example";
    assert o[..8] == "https://";
    var host := o[8..];
    forall i | 0 <= i < |PlayerHostPattern|
      ensures if PlayerHostPattern[i] == '.' then !IsLineTerminator(host[i]) else host[i] == PlayerHostPattern[i]
    {
    }
  }

  /**
   * Where the pattern's literal characters must be: an accepted origin has
   * `player`, `vimeo` and `com` right after its `http://` or `https://`,
   * one character apart. Any origin without them is refused.
   */
  lemma AcceptedOriginShape(origin: string)
    requires IsVimeoPlayerOrigin(origin)
    ensures var h := if HasPrefix(origin, "https://") then 8 else 7;
      && h + 16 <= |origin|
      && origin[h..h + 6] == "player" && origin[h + 7..h + 12] == "vimeo" && origin[h + 13..h + 16] == "com"
  {
    var h := if HasPrefix(origin, "https://") then 8 else 7;
    if HasPrefix(origin, "https://") {
      assert origin[4] == origin[..8][4];
      NotPrefixAt(origin, "http://", 4);
    }
    var host := origin[h..];
    assert DotsMatch(host, PlayerHostPattern);
    forall i | 0 <= i < 16 && i != 6 && i != 12
      ensures origin[h + i] == PlayerHostPattern[i]
    {
      assert host[i] == origin[h + i];
    }
    assert origin[h..h + 6] == PlayerHostPattern[..6];
    assert origin[h + 7..h + 12] == PlayerHostPattern[7..12];
    assert origin[h + 13..h + 16] == PlayerHostPattern[13..];
  }

  /** Origins that do not start with `http://` or `https://` and the player host are refused. */
  lemma OtherOriginsRefused()
    ensures !IsVimeoPlayerOrigin("https://vimeo.com")
    ensures !IsVimeoPlayerOrigin("*")
  {
    var c := "https://vimeo.com";
    assert c[8..][0] == 'v';
    NotPrefixAt("*", "https://", 0);
    NotPrefixAt("*", "http://", 0);
    NotPrefixAt(c, "http://", 4);
  }

  // ---------------------------------------------------------------------
  // Worked examples of the YouTube matcher

  /**
   * A match that does not use the `watch?.+&v=` alternative is the one
   * `isYoutubeVideo` reports, even when a later `&v=` would also match.
   */
  lemma DirectMatchFound(url: string, n: nat)
    requires MatchAt(url, n, false)
    ensures YoutubeVideoId(url) == Some(url[n..n + IdLength])
  {
    Preferred(url, n, false);
  }

  /** `isYoutubeVideo` yields an id exactly when the pattern matches the url at all. */
  lemma IdIffMatch(url: string)
    ensures YoutubeVideoId(url).Some? <==> exists n: nat, s: bool :: MatchAt(url, n, s)
  {
    if exists n: nat, s: bool :: MatchAt(url, n, s) {
      var n: nat, s: bool :| MatchAt(url, n, s);
      Preferred(url, n, s);
    }
  }

  /** `https://www.youtube.com/watch?v=`, the prefix of the doc comment's example, spelt part by part. */
  const WatchExamplePrefix: string := "https://" + ("www." + ("youtube.com/" + "watch?v="))

  /** That prefix is an accepted direct prefix. */
  lemma WatchPrefixAccepted()
    ensures |WatchExamplePrefix| == 32 && YoutubePrefix(WatchExamplePrefix, false)
  {
    var hostPath := "youtube.com/" + "watch?v=";
    assert HostPath(hostPath, false);
    assert WwwHostPath("www." + hostPath, false);
  }

  /** The `https://www.youtube.com/watch?v=` form of the doc comment, for any id and tail. */
  lemma WatchUrlMatch(id: string)
    requires IdThenTail(id)
    ensures MatchAt(WatchExamplePrefix + id, 32, false)
  {
    WatchPrefixAccepted();
  }

  /** The id of the doc comment's example is eleven id characters. */
  lemma ExampleId()
    ensures IdThenTail("-hPes1uwnco")
  {
    var id := "-hPes1uwnco";
    assert |id| == IdLength && id[IdLength..] == [];
    forall i | 0 <= i < IdLength
      ensures IsIdChar(id[i])
    {
    }
  }

  /** The example of the doc comment: the id is returned, not `true`. */
  lemma WatchUrlExample()
    ensures YoutubeVideoId(WatchExamplePrefix + "-hPes1uwnco") == Some("-hPes1uwnco")
  {
    var id := "-hPes1uwnco";
    ExampleId();
    WatchUrlMatch(id);
    DirectMatchFound(WatchExamplePrefix + id, 32);
    assert (WatchExamplePrefix + id)[32..43] == id;
  }

  /** A run of fourteen id characters is eleven id characters and a tail without white space. */
  lemma LongRunId()
    ensures IdThenTail("ABCDEFGHIJKLMN")
  {
    var id := "ABCDEFGHIJKLMN";
    forall i | 0 <= i < |id|
      ensures IsIdChar(id[i]) && !IsWhitespace(id[i])
    {
    }
    assert id[IdLength..] == "LMN";
  }

  /** A longer run of id characters yields its first eleven. */
  lemma LongRunExample()
    ensures YoutubeVideoId("youtu.be/" + "ABCDEFGHIJKLMN") == Some("ABCDEFGHIJK")
  {
    var host, id := "youtu.be/", "ABCDEFGHIJKLMN";
    LongRunId();
    var url := host + id;
    assert HostPath(host, false);
    assert MatchAt(url, 9, false);
    DirectMatchFound(url, 9);
    assert url[9..20] == id[..11] == "ABCDEFGHIJK";
  }

  /** White space after the id makes the whole pattern fail. */
  lemma TrailingSpaceExample()
    ensures YoutubeVideoId("youtu.be/" + "ABCDEFGHIJK x").None?
  {
    var host, rest := "youtu.be/", "ABCDEFGHIJK x";
    var url := host + rest;
    assert url[0] == 'y';
    NotPrefixAt(url, "https://", 0);
    NotPrefixAt(url, "http://", 0);
    NotPrefixAt(url, "www.", 0);
    assert url[0..] == url;
    assert HostStart(url) == 0;
    assert url[9..] == rest;
    assert !NoWhitespace(rest[IdLength..]) by {
      assert rest[IdLength..][0] == ' ';
    }
  }
}
