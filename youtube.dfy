/** Video-id extraction and thumbnail URLs (src/utils/youtubeUtils.js).

    The regular expression of the source,

      (?:youtube\.com\/(?:[^\/]+\/.+\/|(?:v|e(?:mbed)?)\/|.*[?&]v=)|youtu\.be\/)([^"&?\/\s]{11})

    is written out as a matcher that does what a backtracking engine does with
    it: try start positions from left to right, and at each start try the
    alternatives in the order the expression lists them, greedy quantifiers
    longest first. The declarative reading of the same expression (MarkerEnd)
    is stated separately, and the lemmas at the end tie the two together. */
module YouTube {
  import opened JsCore

  const IdLength: nat := 11
  const LongHost := "youtube.com/"
  const ShortHost := "youtu.be/"
  const ThumbnailPrefix := "https://img.youtube.com/vi/"
  const ThumbnailSuffix := "/maxresdefault.jpg"

  /** The class `[^"&?\/\s]` of the captured id. */
  predicate IsIdChar(c: char) {
    c != '"' && c != '&' && c != '?' && c != '/' && !IsJsSpace(c)
  }

  predicate HasAt(u: string, i: nat, w: string) {
    i + |w| <= |u| && u[i..i + |w|] == w
  }

  /** `([^"&?\/\s]{11})` matches at position e. */
  predicate IdFitsAt(u: string, e: nat) {
    e + IdLength <= |u| && forall k :: e <= k < e + IdLength ==> IsIdChar(u[k])
  }

  // ---------------------------------------------------------------------------
  // The matcher, in the engine's order

  /** Where the greedy `[^\/]+` starting at i stops: the first '/' at or after i, or the end. */
  function FirstSlash(u: string, i: nat): (q: nat)
    requires i <= |u|
    ensures i <= q <= |u| && (q < |u| ==> u[q] == '/')
    ensures forall k :: i <= k < q ==> u[k] != '/'
    decreases |u| - i
  {
    if i == |u| || u[i] == '/' then i else FirstSlash(u, i + 1)
  }

  /** Where a greedy `.*` starting at i stops: the first line terminator at or after i, or the end. */
  function LineEnd(u: string, i: nat): (l: nat)
    requires i <= |u|
    ensures i <= l <= |u| && (l < |u| ==> IsLineTerminator(u[l]))
    ensures forall k :: i <= k < l ==> !IsLineTerminator(u[k])
    decreases |u| - i
  {
    if i == |u| || IsLineTerminator(u[i]) then i else LineEnd(u, i + 1)
  }

  /** At r: the closing `\/` of `[^\/]+\/.+\/`, followed by an id. */
  predicate SlashThenId(u: string, r: nat) {
    r < |u| && u[r] == '/' && IdFitsAt(u, r + 1)
  }

  /** At t: `[?&]v=` followed by an id. */
  predicate QueryThenId(u: string, t: nat) {
    t + 3 <= |u| && (u[t] == '?' || u[t] == '&') && u[t + 1] == 'v' && u[t + 2] == '=' && IdFitsAt(u, t + 3)
  }

  /** Backtracking of the greedy `.+` before `\/`: tries r = hi-1 down to lo and
      gives the id position r+1 of the first r that works. */
  function LastSlashThenId(u: string, lo: nat, hi: nat): (e: Option<nat>)
    requires hi <= |u|
    ensures e.Some? ==> lo < e.value <= hi && SlashThenId(u, e.value - 1)
    ensures e.Some? ==> forall r :: e.value <= r < hi ==> !SlashThenId(u, r)
    ensures e.None? ==> forall r :: lo <= r < hi ==> !SlashThenId(u, r)
    decreases hi
  {
    if hi <= lo then None
    else if SlashThenId(u, hi - 1) then Some(hi)
    else LastSlashThenId(u, lo, hi - 1)
  }

  /** Backtracking of the greedy `.*` before `[?&]v=`: tries t = hi-1 down to lo
      and gives the id position t+3 of the first t that works. */
  function LastQueryThenId(u: string, lo: nat, hi: nat): (e: Option<nat>)
    requires hi <= |u|
    ensures e.Some? ==> lo + 3 <= e.value <= hi + 2 && QueryThenId(u, e.value - 3)
    ensures e.Some? ==> forall t :: e.value - 3 < t < hi ==> !QueryThenId(u, t)
    ensures e.None? ==> forall t :: lo <= t < hi ==> !QueryThenId(u, t)
    decreases hi
  {
    if hi <= lo then None
    else if QueryThenId(u, hi - 1) then Some(hi + 2)
    else LastQueryThenId(u, lo, hi - 1)
  }

  /** The three alternatives after `youtube\.com\/`, p being the position after
      the slash: `[^\/]+\/.+\/`, then `v\/`, `embed\/`, `e\/`, then `.*[?&]v=`. */
  function AfterLongHost(u: string, p: nat): (e: Option<nat>)
    requires p <= |u|
    ensures e.Some? ==> IdFitsAt(u, e.value)
  {
    var q := FirstSlash(u, p);
    var path := if p < q < |u| then LastSlashThenId(u, q + 2, LineEnd(u, q + 1)) else None;
    if path.Some? then path
    else if HasAt(u, p, "v/") && IdFitsAt(u, p + 2) then Some(p + 2)
    else if HasAt(u, p, "embed/") && IdFitsAt(u, p + 6) then Some(p + 6)
    else if HasAt(u, p, "e/") && IdFitsAt(u, p + 2) then Some(p + 2)
    else LastQueryThenId(u, p, LineEnd(u, p))
  }

  /** The whole expression tried at start position s; gives where the id begins. */
  function MatchAt(u: string, s: nat): (e: Option<nat>)
    requires s <= |u|
    ensures e.Some? ==> IdFitsAt(u, e.value)
  {
    var long := if HasAt(u, s, LongHost) then AfterLongHost(u, s + |LongHost|) else None;
    if long.Some? then long
    else if HasAt(u, s, ShortHost) && IdFitsAt(u, s + |ShortHost|) then Some(s + |ShortHost|)
    else None
  }

  datatype Match = Match(start: nat, idStart: nat)

  /** Start positions s, s+1, ... in turn, as an unanchored search does. */
  function FindFrom(u: string, s: nat): (m: Option<Match>)
    requires s <= |u|
    ensures m.Some? ==> s <= m.value.start <= |u| && IdFitsAt(u, m.value.idStart)
    decreases |u| - s
  {
    var here := MatchAt(u, s);
    if here.Some? then Some(Match(s, here.value))
    else if s == |u| then None
    else FindFrom(u, s + 1)
  }

  /** `url.match(youtubeRegex)`, reduced to capture group 1. */
  function MatchGroup(u: string): (id: Option<string>)
    ensures id.Some? ==> |id.value| == IdLength && forall k :: 0 <= k < |id.value| ==> IsIdChar(id.value[k])
  {
    var m := FindFrom(u, 0);
    if m.Some? then Some(u[m.value.idStart..m.value.idStart + IdLength]) else None
  }

  // ---------------------------------------------------------------------------
  // The exported helpers of youtubeUtils.js; None stands for null/undefined

  /** `extractVideoId(url)` */
  function ExtractVideoId(url: Option<string>): (id: Option<string>)
    ensures !TruthyText(url) ==> id.None?
    ensures id.Some? ==> |id.value| == IdLength
  {
    if !TruthyText(url) then None else MatchGroup(url.value)
  }

  function ThumbnailUrl(id: string): string {
    ThumbnailPrefix + id + ThumbnailSuffix
  }

  /** `getYouTubeThumbnail(videoId)` */
  function GetYouTubeThumbnail(videoId: Option<string>): (t: Option<string>)
    ensures t.None? <==> !TruthyText(videoId)
    ensures t.Some? ==> |t.value| == |ThumbnailPrefix| + |videoId.value| + |ThumbnailSuffix|
    ensures t.Some? ==> t.value[..|ThumbnailPrefix|] == ThumbnailPrefix
    ensures t.Some? ==> t.value[|ThumbnailPrefix|..|ThumbnailPrefix| + |videoId.value|] == videoId.value
    ensures t.Some? ==> t.value[|ThumbnailPrefix| + |videoId.value|..] == ThumbnailSuffix
  {
    if !TruthyText(videoId) then None else Some(ThumbnailUrl(videoId.value))
  }

  /** `getThumbnailFromUrl(url)` */
  function GetThumbnailFromUrl(url: Option<string>): (t: Option<string>)
    ensures t.Some? <==> ExtractVideoId(url).Some?
    ensures t.Some? ==> t.value == ThumbnailPrefix + ExtractVideoId(url).value + ThumbnailSuffix
  {
    var videoId := ExtractVideoId(url);
    if TruthyText(videoId) then GetYouTubeThumbnail(videoId) else None
  }

  /** `isValidYouTubeUrl(url)` */
  predicate IsValidYouTubeUrl(url: Option<string>)
    ensures IsValidYouTubeUrl(url) ==> TruthyText(url)
    ensures IsValidYouTubeUrl(url) <==> GetThumbnailFromUrl(url).Some?
  {
    ExtractVideoId(url) != None
  }

  // ---------------------------------------------------------------------------
  // The declarative reading of the expression

  /** `[^\/]+\/.+\/` matches u[p..e]. */
  ghost predicate PathEnd(u: string, p: nat, e: nat) {
    exists q :: p < q && q + 2 < e <= |u| && u[q] == '/' && u[e - 1] == '/'
      && (forall k :: p <= k < q ==> u[k] != '/')
      && (forall k :: q < k < e - 1 ==> !IsLineTerminator(u[k]))
  }

  /** `(?:v|e(?:mbed)?)\/` matches u[p..e]. */
  ghost predicate ShortPathEnd(u: string, p: nat, e: nat) {
    || (HasAt(u, p, "v/") && e == p + 2)
    || (HasAt(u, p, "embed/") && e == p + 6)
    || (HasAt(u, p, "e/") && e == p + 2)
  }

  /** `.*[?&]v=` matches u[p..e]. */
  ghost predicate QueryEnd(u: string, p: nat, e: nat) {
    p + 3 <= e <= |u| && (u[e - 3] == '?' || u[e - 3] == '&') && u[e - 2] == 'v' && u[e - 1] == '='
    && forall k :: p <= k < e - 3 ==> !IsLineTerminator(u[k])
  }

  /** The part of the expression before the capture group matches u[s..e]. */
  ghost predicate MarkerEnd(u: string, s: nat, e: nat) {
    || (HasAt(u, s, LongHost) && var p := s + |LongHost|; PathEnd(u, p, e) || ShortPathEnd(u, p, e) || QueryEnd(u, p, e))
    || (HasAt(u, s, ShortHost) && e == s + |ShortHost|)
  }

  /** The whole expression matches some text starting at s. */
  ghost predicate MatchesAt(u: string, s: nat) {
    exists e :: MarkerEnd(u, s, e) && IdFitsAt(u, e)
  }

  // ---------------------------------------------------------------------------
  // The matcher against the declarative reading

  lemma AfterLongHostSound(u: string, p: nat)
    requires p <= |u| && AfterLongHost(u, p).Some?
    ensures var e := AfterLongHost(u, p).value; PathEnd(u, p, e) || ShortPathEnd(u, p, e) || QueryEnd(u, p, e)
  {
    var e := AfterLongHost(u, p).value;
    var q := FirstSlash(u, p);
    if p < q < |u| && LastSlashThenId(u, q + 2, LineEnd(u, q + 1)).Some? {
      PathBranchSound(u, p, q, e);
    } else if !(HasAt(u, p, "v/") && IdFitsAt(u, p + 2))
           && !(HasAt(u, p, "embed/") && IdFitsAt(u, p + 6))
           && !(HasAt(u, p, "e/") && IdFitsAt(u, p + 2)) {
      QueryBranchSound(u, p, e);
    }
  }

  /** An end found by the `[^\/]+\/.+\/` alternative is a PathEnd. */
  lemma PathBranchSound(u: string, p: nat, q: nat, e: nat)
    requires p <= |u| && q == FirstSlash(u, p) && p < q < |u|
    requires LastSlashThenId(u, q + 2, LineEnd(u, q + 1)) == Some(e)
    ensures PathEnd(u, p, e)
  {
    assert forall k :: q < k < e - 1 ==> !IsLineTerminator(u[k]);
  }

  /** An end found by the `.*[?&]v=` alternative is a QueryEnd. */
  lemma QueryBranchSound(u: string, p: nat, e: nat)
    requires p <= |u| && LastQueryThenId(u, p, LineEnd(u, p)) == Some(e)
    ensures QueryEnd(u, p, e)
  {
  }

  lemma AfterLongHostComplete(u: string, p: nat, e: nat)
    requires p <= |u| && IdFitsAt(u, e)
    requires PathEnd(u, p, e) || ShortPathEnd(u, p, e) || QueryEnd(u, p, e)
    ensures AfterLongHost(u, p).Some?
  {
    if PathEnd(u, p, e) {
      var q :| p < q && q + 2 < e <= |u| && u[q] == '/' && u[e - 1] == '/'
        && (forall k :: p <= k < q ==> u[k] != '/')
        && (forall k :: q < k < e - 1 ==> !IsLineTerminator(u[k]));
      assert FirstSlash(u, p) == q;
      var l := LineEnd(u, q + 1);
      assert e - 1 < l;
      assert SlashThenId(u, e - 1);
    } else if QueryEnd(u, p, e) {
      assert e - 3 < LineEnd(u, p);
      assert QueryThenId(u, e - 3);
    }
  }

  lemma MatchAtSound(u: string, s: nat)
    requires s <= |u| && MatchAt(u, s).Some?
    ensures MarkerEnd(u, s, MatchAt(u, s).value)
  {
    if HasAt(u, s, LongHost) && AfterLongHost(u, s + |LongHost|).Some? {
      AfterLongHostSound(u, s + |LongHost|);
    }
  }

  lemma MatchAtComplete(u: string, s: nat, e: nat)
    requires s <= |u| && MarkerEnd(u, s, e) && IdFitsAt(u, e)
    ensures MatchAt(u, s).Some?
  {
    HostsExclusive(u, s);
    if HasAt(u, s, LongHost) {
      var p := s + |LongHost|;
      if PathEnd(u, p, e) || ShortPathEnd(u, p, e) || QueryEnd(u, p, e) {
        AfterLongHostComplete(u, p, e);
      }
    }
  }

  /** `youtube.com/` and `youtu.be/` part at their sixth character. */
  lemma HostsExclusive(u: string, s: nat)
    ensures HasAt(u, s, LongHost) ==> !HasAt(u, s, ShortHost)
  {
    if HasAt(u, s, LongHost) {
      assert u[s + 5] == LongHost[5] == 'b' && ShortHost[5] == '.';
    }
  }

  /** The search stops at the first start where the matcher succeeds. */
  lemma {:induction false} FindFromFirst(u: string, s: nat)
    requires s <= |u| && FindFrom(u, s).Some?
    ensures forall s' :: s <= s' < FindFrom(u, s).value.start ==> MatchAt(u, s').None?
    decreases |u| - s
  {
    if MatchAt(u, s).None? {
      FindFromStep(u, s);
      FindFromFirst(u, s + 1);
      var start := FindFrom(u, s).value.start;
      assert start == FindFrom(u, s + 1).value.start;
      forall s' | s <= s' < start ensures MatchAt(u, s').None? {
        if s' > s {
          assert s + 1 <= s' < FindFrom(u, s + 1).value.start;
        }
      }
    } else {
      assert FindFrom(u, s).value.start == s;
    }
  }

  lemma {:induction false} FindFromHit(u: string, s: nat)
    requires s <= |u| && FindFrom(u, s).Some?
    ensures var m := FindFrom(u, s).value; MatchAt(u, m.start) == Some(m.idStart)
    decreases |u| - s
  {
    var here := MatchAt(u, s);
    if here.Some? {
      assert FindFrom(u, s) == Some(Match(s, here.value));
    } else {
      FindFromStep(u, s);
      FindFromHit(u, s + 1);
    }
  }

  lemma FindFromStep(u: string, s: nat)
    requires s <= |u| && MatchAt(u, s).None? && FindFrom(u, s).Some?
    ensures s < |u| && FindFrom(u, s) == FindFrom(u, s + 1)
  {
  }

  lemma FindFromSound(u: string, s: nat)
    requires s <= |u| && FindFrom(u, s).Some?
    ensures var m := FindFrom(u, s).value;
      MarkerEnd(u, m.start, m.idStart) && forall s' :: s <= s' < m.start ==> !MatchesAt(u, s')
  {
    FindFromFirst(u, s);
    FindFromHit(u, s);
    var m := FindFrom(u, s).value;
    MatchAtSound(u, m.start);
    forall s' | s <= s' < m.start ensures !MatchesAt(u, s') {
      NoMatchAt(u, s');
    }
  }

  lemma NoMatchAt(u: string, s: nat)
    requires s <= |u| && MatchAt(u, s).None?
    ensures !MatchesAt(u, s)
  {
    if MatchesAt(u, s) {
      var e :| MarkerEnd(u, s, e) && IdFitsAt(u, e);
      MatchAtComplete(u, s, e);
    }
  }

  lemma {:induction false} FindFromComplete(u: string, s: nat, s0: nat, e: nat)
    requires s <= s0 <= |u| && MarkerEnd(u, s0, e) && IdFitsAt(u, e)
    ensures FindFrom(u, s).Some? && FindFrom(u, s).value.start <= s0
    decreases s0 - s
  {
    if s == s0 {
      MatchAtComplete(u, s, e);
    } else if MatchAt(u, s).None? {
      FindFromComplete(u, s + 1, s0, e);
    }
  }

  /** A non-null id is 11 characters of the id class, captured right after a
      marker, at the leftmost start position where the expression matches. */
  lemma ExtractVideoIdSound(u: string)
    requires ExtractVideoId(Some(u)).Some?
    ensures var id := ExtractVideoId(Some(u)).value;
      && |id| == IdLength && (forall k :: 0 <= k < |id| ==> IsIdChar(id[k]))
      && exists s: nat, e: nat :: MarkerEnd(u, s, e) && e + IdLength <= |u| && u[e..e + IdLength] == id
           && forall s' :: 0 <= s' < s ==> !MatchesAt(u, s')
  {
    FindFromSound(u, 0);
    var m := FindFrom(u, 0).value;
    assert MarkerEnd(u, m.start, m.idStart);
  }

  /** Wherever the expression matches, an id is extracted (from that start or an earlier one). */
  lemma ExtractVideoIdComplete(u: string, s: nat, e: nat)
    requires u != "" && s <= |u| && MarkerEnd(u, s, e) && IdFitsAt(u, e)
    ensures ExtractVideoId(Some(u)).Some?
  {
    FindFromComplete(u, 0, s, e);
  }

  /** Every accepted link is one the expression matches, and conversely. */
  lemma IsValidIffMatches(u: string)
    ensures IsValidYouTubeUrl(Some(u)) <==> exists s :: 0 <= s <= |u| && MatchesAt(u, s)
  {
    if IsValidYouTubeUrl(Some(u)) {
      FindFromSound(u, 0);
      var m := FindFrom(u, 0).value;
      assert MatchesAt(u, m.start);
    }
    if s :| 0 <= s <= |u| && MatchesAt(u, s) {
      var e :| MarkerEnd(u, s, e) && IdFitsAt(u, e);
      ExtractVideoIdComplete(u, s, e);
    }
  }

  /** The marker ends with its '/' or '=', at least `youtu.be/` past the start. */
  lemma MarkerEndLastChar(u: string, s: nat, e: nat)
    requires MarkerEnd(u, s, e)
    ensures s + |ShortHost| <= e <= |u| && (u[e - 1] == '/' || u[e - 1] == '=')
    ensures HasAt(u, s, LongHost) || HasAt(u, s, ShortHost)
  {
    if HasAt(u, s, LongHost) && var p := s + |LongHost|; PathEnd(u, p, e) || ShortPathEnd(u, p, e) || QueryEnd(u, p, e) {
      var p := s + |LongHost|;
      if ShortPathEnd(u, p, e) {
        if HasAt(u, p, "v/") && e == p + 2 { assert u[p..p + 2] == "v/"; }
        else if HasAt(u, p, "embed/") && e == p + 6 { assert u[p..p + 6] == "embed/"; }
        else { assert u[p..p + 2] == "e/"; }
      }
    } else {
      assert u[s..s + 9] == ShortHost;
      assert u[e - 1] == ShortHost[8];
    }
  }

  /** The id sits right after a '/' or '=', past a `youtube.com/` or
      `youtu.be/` in the link: s is where the host starts, e where the id does. */
  lemma IdFollowsMarker(u: string) returns (s: nat, e: nat)
    requires ExtractVideoId(Some(u)).Some?
    ensures CapturedAt(u, e, ExtractVideoId(Some(u)).value) && s + |ShortHost| <= e
    ensures u[e - 1] == '/' || u[e - 1] == '='
    ensures HasAt(u, s, LongHost) || HasAt(u, s, ShortHost)
  {
    var m := FindFrom(u, 0).value;
    ExtractFromFound(u, m);
    FoundAfterMarker(u, m);
    MarkerEndLastChar(u, m.start, m.idStart);
    s, e := m.start, m.idStart;
  }

  /** The id extracted from a non-empty link is the text at the position the search found. */
  lemma ExtractFromFound(u: string, m: Match)
    requires u != "" && FindFrom(u, 0) == Some(m)
    ensures ExtractVideoId(Some(u)) == Some(u[m.idStart..m.idStart + IdLength])
  {
  }

  /** The search's result is a marker followed by an id. */
  lemma FoundAfterMarker(u: string, m: Match)
    requires FindFrom(u, 0) == Some(m)
    ensures MarkerEnd(u, m.start, m.idStart) && IdFitsAt(u, m.idStart)
  {
    FindFromHit(u, 0);
    MatchAtSound(u, m.start);
  }

  /** id is the text at e..e+11, right after position e - 1 >= 0. */
  ghost predicate CapturedAt(u: string, e: nat, id: string) {
    1 <= e && e + IdLength <= |u| && u[e..e + IdLength] == id
  }

  /** A link without `youtube.com/` or `youtu.be/` anywhere gives no id, e.g. https://www.google.com. */
  lemma NoHostNoId(u: string)
    requires forall i :: 0 <= i <= |u| ==> !HasAt(u, i, LongHost) && !HasAt(u, i, ShortHost)
    ensures ExtractVideoId(Some(u)) == None && !IsValidYouTubeUrl(Some(u)) && GetThumbnailFromUrl(Some(u)) == None
  {
    if ExtractVideoId(Some(u)).Some? {
      FindFromSound(u, 0);
      assert false;
    }
  }

  /** null, undefined and the empty string give no id, no thumbnail, and are not valid. */
  lemma AbsentOrEmptyUrl(url: Option<string>)
    requires url == None || url == Some("")
    ensures ExtractVideoId(url) == None && GetThumbnailFromUrl(url) == None && !IsValidYouTubeUrl(url)
  {
  }

  /** Start positions before the first 'y' cannot begin either host. */
  lemma {:induction false} SkipStarts(u: string, s: nat, mid: nat)
    requires s <= mid <= |u| && forall k :: s <= k < mid ==> u[k] != 'y'
    ensures FindFrom(u, s) == FindFrom(u, mid)
    decreases mid - s
  {
    if s < mid {
      HostsStartWithY(u, s);
      SkipStarts(u, s + 1, mid);
    }
  }

  /** A search over a prefix whose first n characters hold no 'y' starts at n. */
  lemma SkipPrefix(prefix: string, rest: string, n: nat)
    requires n <= |prefix| && forall k :: 0 <= k < n ==> prefix[k] != 'y'
    ensures FindFrom(prefix + rest, 0) == FindFrom(prefix + rest, n)
  {
    var u := prefix + rest;
    assert forall k :: 0 <= k < n ==> u[k] == prefix[k];
    SkipStarts(u, 0, n);
  }

  lemma HostsStartWithY(u: string, s: nat)
    ensures HasAt(u, s, LongHost) || HasAt(u, s, ShortHost) ==> u[s] == 'y'
  {
    if HasAt(u, s, LongHost) {
      assert u[s..s + |LongHost|][0] == u[s];
    } else if HasAt(u, s, ShortHost) {
      assert u[s..s + |ShortHost|][0] == u[s];
    }
  }

  /** Backtracking over positions where `[?&]v=` cannot be followed by an id changes nothing. */
  lemma {:induction false} SkipQueries(u: string, lo: nat, mid: nat, hi: nat)
    requires mid <= hi <= |u| && forall t :: mid <= t < hi ==> !QueryThenId(u, t)
    ensures LastQueryThenId(u, lo, hi) == LastQueryThenId(u, lo, mid)
    decreases hi - mid
  {
    if mid < hi {
      SkipQueries(u, lo, mid, hi - 1);
    }
  }

  lemma HasAtJoin(a: string, w: string, b: string)
    ensures HasAt(a + w + b, |a|, w)
  {
    assert (a + w + b)[|a|..|a| + |w|] == w;
  }

  /** 11 characters the capture group accepts. */
  predicate IsVideoId(id: string) {
    |id| == IdLength && forall k :: 0 <= k < |id| ==> IsIdChar(id[k])
  }

  const WatchPrefix := "https://www.youtube.com/watch?v="
  const ShortPrefix := "https://youtu.be/"

  lemma WatchHost(id: string)
    ensures HasAt(WatchPrefix + id, 12, LongHost)
  {
    assert WatchPrefix + id == "https://www." + LongHost + ("watch?v=" + id);
    HasAtJoin("https://www.", LongHost, "watch?v=" + id);
  }

  /** Past the host of a watch link there is no '/' and no line terminator. */
  lemma WatchTail(id: string)
    requires IsVideoId(id)
    ensures FirstSlash(WatchPrefix + id, 24) == |WatchPrefix + id|
    ensures LineEnd(WatchPrefix + id, 24) == |WatchPrefix + id|
  {
  }

  /** The `.*[?&]v=` alternative settles on the `?v=` right before the id. */
  lemma WatchQuery(id: string)
    requires IsVideoId(id)
    ensures LastQueryThenId(WatchPrefix + id, 24, |WatchPrefix + id|) == Some(32)
  {
    var u := WatchPrefix + id;
    assert forall t :: 30 <= t < |u| ==> !QueryThenId(u, t);
    SkipQueries(u, 24, 30, |u|);
    assert QueryThenId(u, 29);
  }

  /** None of `v/`, `embed/`, `e/` follows the host of a watch link. */
  lemma WatchNoShortPath(id: string)
    requires IsVideoId(id)
    ensures var u := WatchPrefix + id; !HasAt(u, 24, "v/") && !HasAt(u, 24, "embed/") && !HasAt(u, 24, "e/")
  {
    var u := WatchPrefix + id;
    assert u[24] == 'w' && u[24..26][0] == 'w' && u[24..30][0] == 'w';
  }

  /** After `youtube.com/` only the query alternative applies, and it finds the id. */
  lemma WatchAfterHost(id: string)
    requires IsVideoId(id)
    ensures HasAt(WatchPrefix + id, 12, LongHost) && AfterLongHost(WatchPrefix + id, 24) == Some(32)
  {
    WatchHost(id);
    WatchTail(id);
    WatchQuery(id);
    WatchNoShortPath(id);
  }

  /** `https://www.youtube.com/watch?v=<id>` gives the id, as
      src/utils/__tests__/youtubeUtils.test.js:5-12 expects for one id. */
  lemma WatchLink(id: string)
    requires IsVideoId(id)
    ensures ExtractVideoId(Some(WatchPrefix + id)) == Some(id)
  {
    WatchFound(id);
    FoundAfterPrefix(WatchPrefix, id, Match(12, 32));
  }

  /** When the search finds the id right after a prefix, the id is what follows the prefix. */
  lemma FoundAfterPrefix(prefix: string, id: string, m: Match)
    requires |prefix| == m.idStart && |id| == IdLength && FindFrom(prefix + id, 0) == Some(m)
    ensures ExtractVideoId(Some(prefix + id)) == Some(id)
  {
    var u := prefix + id;
    ExtractFromFound(u, m);
    assert u[m.idStart..m.idStart + IdLength] == id;
  }

  /** The search reaches the host of a watch link at 12 and the id at 32. */
  lemma WatchFound(id: string)
    requires IsVideoId(id)
    ensures FindFrom(WatchPrefix + id, 0) == Some(Match(12, 32))
  {
    assert forall k :: 0 <= k < 12 ==> WatchPrefix[k] != 'y';
    SkipPrefix(WatchPrefix, id, 12);
    WatchMatchAt(id);
  }

  lemma WatchMatchAt(id: string)
    requires IsVideoId(id)
    ensures MatchAt(WatchPrefix + id, 12) == Some(32)
  {
    WatchAfterHost(id);
  }

  /** `https://youtu.be/<id>` gives the id, as
      src/utils/__tests__/youtubeUtils.test.js:14-21 expects for one id. */
  lemma ShortLink(id: string)
    requires IsVideoId(id)
    ensures ExtractVideoId(Some(ShortPrefix + id)) == Some(id)
  {
    ShortFound(id);
    FoundAfterPrefix(ShortPrefix, id, Match(8, 17));
  }

  /** The search reaches the host of a short link at 8 and the id at 17. */
  lemma ShortFound(id: string)
    requires IsVideoId(id)
    ensures FindFrom(ShortPrefix + id, 0) == Some(Match(8, 17))
  {
    assert forall k :: 0 <= k < 8 ==> ShortPrefix[k] != 'y';
    SkipPrefix(ShortPrefix, id, 8);
    ShortMatchAt(id);
  }

  lemma ShortMatchAt(id: string)
    requires IsVideoId(id)
    ensures MatchAt(ShortPrefix + id, 8) == Some(17)
  {
    var u := ShortPrefix + id;
    HostsExclusive(u, 8);
    assert u == "https://" + ShortHost + id;
    HasAtJoin("https://", ShortHost, id);
  }

  const EmbedPrefix := "https://www.youtube.com/embed/"
  const VPrefix := "https://www.youtube.com/v/"

  /** After a prefix come the 11 id characters: none is a '/' or a line terminator. */
  lemma IdAfterPrefix(prefix: string, id: string)
    requires IsVideoId(id)
    ensures |prefix + id| == |prefix| + IdLength && IdFitsAt(prefix + id, |prefix|)
    ensures forall k :: |prefix| <= k < |prefix + id| ==>
      (prefix + id)[k] != '/' && !IsLineTerminator((prefix + id)[k])
  {
    var u := prefix + id;
    assert forall k :: |prefix| <= k < |u| ==> u[k] == id[k - |prefix|];
  }

  /** When the id directly follows the first '/' after the host, `[^\/]+\/.+\/`
      finds no second '/' and fails. */
  lemma NoSecondSlash(prefix: string, id: string)
    requires IsVideoId(id)
    ensures LastSlashThenId(prefix + id, |prefix| + 1, LineEnd(prefix + id, |prefix|)) == None
  {
    IdAfterPrefix(prefix, id);
    assert LineEnd(prefix + id, |prefix|) == |prefix + id|;
  }

  /** After `youtube.com/` of an embed link, the path alternative fails, `v/` does
      not apply, and `embed/` finds the id. */
  lemma EmbedAfterHost(id: string)
    requires IsVideoId(id)
    ensures AfterLongHost(EmbedPrefix + id, 24) == Some(30)
  {
    var u := EmbedPrefix + id;
    assert forall k :: 0 <= k < 30 ==> u[k] == EmbedPrefix[k];
    assert forall k :: 24 <= k < 29 ==> u[k] != '/';
    assert u[29] == '/';
    assert FirstSlash(u, 24) == 29;
    NoSecondSlash(EmbedPrefix, id);
    IdAfterPrefix(EmbedPrefix, id);
    assert !HasAt(u, 24, "v/") by {
      assert u[24..26][0] == 'e';
    }
    assert HasAt(u, 24, "embed/") by {
      assert u[24..30] == "embed/";
    }
  }

  /** The search reaches the host of an embed link at 12 and the id at 30. */
  lemma EmbedFound(id: string)
    requires IsVideoId(id)
    ensures FindFrom(EmbedPrefix + id, 0) == Some(Match(12, 30))
  {
    assert forall k :: 0 <= k < 12 ==> EmbedPrefix[k] != 'y';
    SkipPrefix(EmbedPrefix, id, 12);
    EmbedMatchAt(id);
  }

  lemma EmbedMatchAt(id: string)
    requires IsVideoId(id)
    ensures MatchAt(EmbedPrefix + id, 12) == Some(30)
  {
    assert EmbedPrefix + id == "https://www." + LongHost + ("embed/" + id);
    HasAtJoin("https://www.", LongHost, "embed/" + id);
    EmbedAfterHost(id);
  }

  /** `https://www.youtube.com/embed/<id>` gives the id. */
  lemma EmbedLink(id: string)
    requires IsVideoId(id)
    ensures ExtractVideoId(Some(EmbedPrefix + id)) == Some(id)
  {
    EmbedFound(id);
    FoundAfterPrefix(EmbedPrefix, id, Match(12, 30));
  }

  /** After `youtube.com/` of a `/v/` link, the path alternative fails and `v/` finds the id. */
  lemma VAfterHost(id: string)
    requires IsVideoId(id)
    ensures AfterLongHost(VPrefix + id, 24) == Some(26)
  {
    var u := VPrefix + id;
    assert forall k :: 0 <= k < 26 ==> u[k] == VPrefix[k];
    assert u[24] != '/';
    assert FirstSlash(u, 24) == 25;
    NoSecondSlash(VPrefix, id);
    IdAfterPrefix(VPrefix, id);
    assert HasAt(u, 24, "v/") by {
      assert u[24..26] == "v/";
    }
  }

  /** The search reaches the host of a `/v/` link at 12 and the id at 26. */
  lemma VFound(id: string)
    requires IsVideoId(id)
    ensures FindFrom(VPrefix + id, 0) == Some(Match(12, 26))
  {
    assert forall k :: 0 <= k < 12 ==> VPrefix[k] != 'y';
    SkipPrefix(VPrefix, id, 12);
    VMatchAt(id);
  }

  lemma VMatchAt(id: string)
    requires IsVideoId(id)
    ensures MatchAt(VPrefix + id, 12) == Some(26)
  {
    assert VPrefix + id == "https://www." + LongHost + ("v/" + id);
    HasAtJoin("https://www.", LongHost, "v/" + id);
    VAfterHost(id);
  }

  /** `https://www.youtube.com/v/<id>` gives the id. */
  lemma VLink(id: string)
    requires IsVideoId(id)
    ensures ExtractVideoId(Some(VPrefix + id)) == Some(id)
  {
    VFound(id);
    FoundAfterPrefix(VPrefix, id, Match(12, 26));
  }

  /** Both hosts begin with 'y', so a link without that letter gives no id. */
  lemma NoLetterYNoId(u: string)
    requires forall k :: 0 <= k < |u| ==> u[k] != 'y'
    ensures ExtractVideoId(Some(u)) == None
  {
    SkipStarts(u, 0, |u|);
  }

  /** src/utils/__tests__/youtubeUtils.test.js:5-12: the watch link of video dQw4w9WgXcQ. */
  lemma TestWatchLink()
    ensures ExtractVideoId(Some(WatchPrefix + "dQw4w9WgXcQ")) == Some("dQw4w9WgXcQ")
    ensures GetThumbnailFromUrl(Some(WatchPrefix + "dQw4w9WgXcQ"))
      == Some(ThumbnailPrefix + "dQw4w9WgXcQ" + ThumbnailSuffix)
  {
    assert IsVideoId("dQw4w9WgXcQ");
    WatchLink("dQw4w9WgXcQ");
  }

  /** src/utils/__tests__/youtubeUtils.test.js:14-21: the short link of the same video. */
  lemma TestShortLink()
    ensures ExtractVideoId(Some(ShortPrefix + "dQw4w9WgXcQ")) == Some("dQw4w9WgXcQ")
    ensures GetThumbnailFromUrl(Some(ShortPrefix + "dQw4w9WgXcQ"))
      == Some(ThumbnailPrefix + "dQw4w9WgXcQ" + ThumbnailSuffix)
  {
    assert IsVideoId("dQw4w9WgXcQ");
    ShortLink("dQw4w9WgXcQ");
  }

  /** src/utils/__tests__/youtubeUtils.test.js:23-29: a link to another site has no thumbnail. */
  lemma TestOtherSite()
    ensures GetThumbnailFromUrl(Some("https://www.google.com")) == None
  {
    NoLetterYNoId("https://www.google.com");
  }
}
