/** The pending-suggestion list of src/components/PendingMusicList.jsx: its
    state (the suggestions, the current page, `loading`, `error`), the load
    that replaces the list, the removal of a processed suggestion, and the
    five-per-page view. */
module PendingList {
  import opened JsCore
  import opened ListCache

  const LoadErrorDefault := "Erro ao carregar sugestões pendentes"

  class PendingMusicList {
    var pendingMusics: seq<Record>
    var currentPage: nat
    var loading: bool
    var error: Option<string>

    /** Pages are numbered from 1. */
    predicate Valid()
      reads this
    {
      currentPage >= 1
    }

    constructor()
      ensures Valid()
      ensures pendingMusics == [] && currentPage == 1 && loading && error == None
    {
      pendingMusics := [];
      currentPage := 1;
      loading := true;
      error := None;
    }

    /** `loadPendingMusics`, given how `getPendingSuggestions` settled. */
    method LoadPendingMusics(outcome: LoadOutcome)
      requires Valid()
      modifies this
      ensures Valid() && !loading && currentPage == old(currentPage)
      ensures Loaded(outcome) ==> pendingMusics == outcome.data.data && error == None
      ensures !Loaded(outcome) ==>
        pendingMusics == old(pendingMusics) && error == Some(LoadErrorMessage(outcome, LoadErrorDefault))
    {
      loading := true;
      error := None;
      match outcome {
        case Returned(response) =>
          if response.success {
            pendingMusics := response.data;
          } else {
            error := Some(if TruthyText(response.message) then response.message.value else LoadErrorDefault);
          }
        case Raised(message) =>
          error := Some(message);
      }
      loading := false;
    }

    /** `handleMusicProcessed(musicId)`: the card's suggestion leaves the list. */
    method HandleMusicProcessed(musicId: JsValue)
      requires Valid()
      modifies this
      ensures Valid()
      ensures pendingMusics == WithoutId(old(pendingMusics), musicId)
      ensures currentPage == old(currentPage) && loading == old(loading) && error == old(error)
    {
      pendingMusics := WithoutId(pendingMusics, musicId);
    }

    /** `handlePageChange(event, page)`; the pagination control only offers pages from 1. */
    method HandlePageChange(page: nat)
      requires Valid() && page >= 1
      modifies this
      ensures Valid() && currentPage == page
      ensures pendingMusics == old(pendingMusics) && loading == old(loading) && error == old(error)
    {
      currentPage := page;
    }

    /** `totalPages`: zero only for an empty list, its last page is never empty,
        and the pager shows (`totalPages > 1`) exactly when one page cannot hold the list. */
    function PageCount(): (n: nat)
      reads this
      ensures n == 0 <==> |pendingMusics| == 0
      ensures n >= 1 ==> PageOf(pendingMusics, n) != [] && PageOf(pendingMusics, n + 1) == []
      ensures n > 1 <==> |pendingMusics| > ItemsPerPage
    {
      TotalPages(|pendingMusics|)
    }

    /** `currentMusics`: the suggestions the page shows. */
    function CurrentMusics(): seq<Record>
      requires Valid()
      reads this
    {
      PageOf(pendingMusics, currentPage)
    }
  }

  /** After processing, no shown suggestion carries the processed id, and the
      page still shows at most five of the remaining ones in list order. */
  method ProcessedLeavesView(list: PendingMusicList, musicId: JsValue) returns (shown: seq<Record>)
    requires list.Valid()
    modifies list
    ensures list.Valid()
    ensures |shown| <= ItemsPerPage
    ensures forall i :: 0 <= i < |shown| ==> IdOf(shown[i]) != musicId
    ensures shown == PageOf(WithoutId(old(list.pendingMusics), musicId), list.currentPage)
  {
    WithoutIdDropsId(list.pendingMusics, musicId);
    list.HandleMusicProcessed(musicId);
    shown := list.CurrentMusics();
  }
}
