/** The list logic shared by src/components/PendingMusicList.jsx and
    src/components/AdminMusicList.jsx: records are plain objects (maps from
    property names to values), removal filters by `id` with `!==`, update maps
    an object spread over the matching records, and the page shown is a
    five-item slice of the list. */
module ListCache {
  import opened JsCore
  import MusicService

  type Record = map<string, JsValue>

  const ItemsPerPage: nat := 5

  /** `record[key]`: undefined when the property is absent. */
  function Prop(r: Record, key: string): JsValue {
    if key in r then r[key] else JsUndefined
  }

  function IdOf(r: Record): JsValue {
    Prop(r, "id")
  }

  // ---------------------------------------------------------------------------
  // Removal and update by id

  /** What the filter's test keeps of one record. */
  function Kept(r: Record, id: JsValue): seq<Record> {
    if IdOf(r) != id then [r] else []
  }

  /** `list.filter(m => m.id !== id)` */
  function WithoutId(s: seq<Record>, id: JsValue): (r: seq<Record>)
    ensures |r| <= |s|
  {
    if s == [] then [] else Kept(s[0], id) + WithoutId(s[1..], id)
  }

  /** No record with the id survives the filter. */
  lemma {:induction false} WithoutIdDropsId(s: seq<Record>, id: JsValue)
    ensures forall i :: 0 <= i < |WithoutId(s, id)| ==> IdOf(WithoutId(s, id)[i]) != id
  {
    if s != [] {
      WithoutIdDropsId(s[1..], id);
    }
  }

  /** Every record without that id is kept as often as it occurs, and no record with it. */
  lemma {:induction false} WithoutIdCounts(s: seq<Record>, id: JsValue)
    ensures forall x :: multiset(WithoutId(s, id))[x] == if IdOf(x) == id then 0 else multiset(s)[x]
  {
    if s != [] {
      WithoutIdCounts(s[1..], id);
      assert s == [s[0]] + s[1..];
    }
  }

  /** Filtering distributes over concatenation, so the kept records stay in their order. */
  lemma {:induction false} WithoutIdAppend(s: seq<Record>, t: seq<Record>, id: JsValue)
    ensures WithoutId(s + t, id) == WithoutId(s, id) + WithoutId(t, id)
  {
    if s == [] {
      assert s + t == t;
    } else {
      calc {
        WithoutId(s + t, id);
        { assert (s + t)[0] == s[0] && (s + t)[1..] == s[1..] + t; }
        Kept(s[0], id) + WithoutId(s[1..] + t, id);
        { WithoutIdAppend(s[1..], t, id); }
        Kept(s[0], id) + (WithoutId(s[1..], id) + WithoutId(t, id));
        (Kept(s[0], id) + WithoutId(s[1..], id)) + WithoutId(t, id);
      }
    }
  }

  /** Removing an id nobody has changes nothing. */
  lemma {:induction false} WithoutAbsentId(s: seq<Record>, id: JsValue)
    requires forall i :: 0 <= i < |s| ==> IdOf(s[i]) != id
    ensures WithoutId(s, id) == s
  {
    if s != [] {
      WithoutAbsentId(s[1..], id);
    }
  }

  /** Removing twice is removing once. */
  lemma WithoutIdIdempotent(s: seq<Record>, id: JsValue)
    ensures WithoutId(WithoutId(s, id), id) == WithoutId(s, id)
  {
    WithoutIdDropsId(s, id);
    WithoutAbsentId(WithoutId(s, id), id);
  }

  /** `list.map(m => m.id === id ? {...m, ...d} : m)` */
  function MergeById(s: seq<Record>, id: JsValue, d: Record): (r: seq<Record>)
    ensures |r| == |s|
  {
    seq(|s|, i requires 0 <= i < |s| => if IdOf(s[i]) == id then s[i] + d else s[i])
  }

  /** The matching records take d's properties and keep their others; the rest are untouched. */
  lemma MergeByIdEffect(s: seq<Record>, id: JsValue, d: Record, i: int)
    requires 0 <= i < |s|
    ensures var r := MergeById(s, id, d)[i];
      && (IdOf(s[i]) != id ==> r == s[i])
      && (IdOf(s[i]) == id ==>
            && r.Keys == s[i].Keys + d.Keys
            && (forall k :: k in d ==> r[k] == d[k])
            && (forall k :: k in s[i] && k !in d ==> r[k] == s[i][k]))
  {
  }

  /** An update that does not carry an `id` keeps every record's id, so applying it again changes nothing. */
  lemma MergeByIdIdempotent(s: seq<Record>, id: JsValue, d: Record)
    requires "id" !in d
    ensures MergeById(MergeById(s, id, d), id, d) == MergeById(s, id, d)
  {
    var r := MergeById(s, id, d);
    forall i | 0 <= i < |s| ensures MergeById(r, id, d)[i] == r[i] {
      if IdOf(s[i]) == id {
        assert IdOf(r[i]) == id;
        assert r[i] + d == r[i];
      }
    }
  }

  /** Without an `id` in d, removing after an update removes the same records as before it. */
  lemma {:induction false} RemoveAfterMerge(s: seq<Record>, id: JsValue, d: Record)
    requires "id" !in d
    ensures WithoutId(MergeById(s, id, d), id) == WithoutId(s, id)
  {
    if s != [] {
      var r := MergeById(s, id, d);
      assert r[1..] == MergeById(s[1..], id, d);
      assert IdOf(r[0]) == IdOf(s[0]);
      assert IdOf(s[0]) != id ==> r[0] == s[0];
      RemoveAfterMerge(s[1..], id, d);
    }
  }

  // ---------------------------------------------------------------------------
  // Pagination

  /** `Math.ceil(n / itemsPerPage)` */
  function TotalPages(n: nat): (t: nat)
    ensures (t - 1) * ItemsPerPage < n <= t * ItemsPerPage || (n == 0 && t == 0)
  {
    (n + ItemsPerPage - 1) / ItemsPerPage
  }

  /** `(currentPage - 1) * itemsPerPage` */
  function StartIndex(page: nat): nat
    requires page >= 1
  {
    (page - 1) * ItemsPerPage
  }

  /** `list.slice(startIndex, startIndex + itemsPerPage)`, with slice's clamping. */
  function PageOf(s: seq<Record>, page: nat): (r: seq<Record>)
    requires page >= 1
    ensures |r| <= ItemsPerPage
    ensures r == [] <==> StartIndex(page) >= |s|
    ensures StartIndex(page) < |s| ==> |r| == if |s| - StartIndex(page) < ItemsPerPage then |s| - StartIndex(page) else ItemsPerPage
    ensures forall i :: 0 <= i < |r| ==> StartIndex(page) + i < |s| && r[i] == s[StartIndex(page) + i]
  {
    var lo := if StartIndex(page) < |s| then StartIndex(page) else |s|;
    var hi := if StartIndex(page) + ItemsPerPage < |s| then StartIndex(page) + ItemsPerPage else |s|;
    s[lo..hi]
  }

  /** `position={startIndex + index + 1}` */
  function Position(page: nat, index: nat): nat
    requires page >= 1
  {
    StartIndex(page) + index + 1
  }

  /** The card at index i of page p shows the record whose 1-based place in the whole list is its position. */
  lemma PositionIsPlaceInList(s: seq<Record>, page: nat, i: nat)
    requires page >= 1 && i < |PageOf(s, page)|
    ensures 1 <= Position(page, i) <= |s| && PageOf(s, page)[i] == s[Position(page, i) - 1]
  {
  }

  /** Pages 1..k, one after another. */
  function Pages(s: seq<Record>, k: nat): seq<Record> {
    if k == 0 then [] else Pages(s, k - 1) + PageOf(s, k)
  }

  lemma {:induction false} PagesArePrefix(s: seq<Record>, k: nat)
    ensures Pages(s, k) == s[..if k * ItemsPerPage < |s| then k * ItemsPerPage else |s|]
  {
    if k > 0 {
      PagesArePrefix(s, k - 1);
      var a := if (k - 1) * ItemsPerPage < |s| then (k - 1) * ItemsPerPage else |s|;
      var b := if k * ItemsPerPage < |s| then k * ItemsPerPage else |s|;
      assert PageOf(s, k) == s[a..b];
      assert s[..a] + s[a..b] == s[..b];
    }
  }

  /** Every record is on exactly one of the pages the pagination offers, in order. */
  lemma AllPagesGiveTheList(s: seq<Record>)
    ensures Pages(s, TotalPages(|s|)) == s
  {
    PagesArePrefix(s, TotalPages(|s|));
  }

  /** Beyond the last page (as after removals, since the page is not reset) nothing is shown. */
  lemma PastLastPageIsEmpty(s: seq<Record>, page: nat)
    requires page > TotalPages(|s|)
    ensures PageOf(s, page) == []
  {
  }

  /** `music.youtube_url || music.link || music.url` */
  function CardLink(r: Record): (v: JsValue)
    ensures v == Prop(r, "youtube_url") || v == Prop(r, "link") || v == Prop(r, "url")
    ensures Truthy(v) <==> Truthy(Prop(r, "youtube_url")) || Truthy(Prop(r, "link")) || Truthy(Prop(r, "url"))
    ensures Truthy(Prop(r, "youtube_url")) ==> v == Prop(r, "youtube_url")
    ensures !Truthy(Prop(r, "youtube_url")) && Truthy(Prop(r, "link")) ==> v == Prop(r, "link")
    ensures !Truthy(Prop(r, "youtube_url")) && !Truthy(Prop(r, "link")) ==> v == Prop(r, "url")
  {
    var youtubeUrl := Prop(r, "youtube_url");
    var link := Prop(r, "link");
    if Truthy(youtubeUrl) then youtubeUrl else if Truthy(link) then link else Prop(r, "url")
  }

  // ---------------------------------------------------------------------------
  // Loading

  /** A load's outcome: the service call settled with an envelope or raised. */
  type LoadOutcome = MusicService.Outcome<MusicService.Envelope<seq<Record>>>

  predicate Loaded(outcome: LoadOutcome) {
    outcome.Returned? && outcome.data.success
  }

  /** The message `err.message` a failed load ends with: a `success: false`
      envelope throws `new Error(response.message || fallback)`, a raised
      service error keeps its own message. */
  function LoadErrorMessage(outcome: LoadOutcome, fallback: string): (m: string)
    requires !Loaded(outcome)
    ensures outcome.Raised? ==> m == outcome.message
    ensures outcome.Returned? && TruthyText(outcome.data.message) ==> m == outcome.data.message.value
    ensures outcome.Returned? && !TruthyText(outcome.data.message) ==> m == fallback
  {
    match outcome
    case Raised(message) => message
    case Returned(envelope) => if TruthyText(envelope.message) then envelope.message.value else fallback
  }
}
