/** The admin music list of src/components/AdminMusicList.jsx: its state, the
    load that replaces the list, removal after a delete, the merge after an
    edit, and the cards of the current page with their positions and links. */
module AdminList {
  import opened JsCore
  import opened ListCache

  const LoadErrorDefault := "Erro ao carregar músicas"
  const PlaceholderThumbnail := "/assets/tiao-carreiro-pardinho.png"

  /** The props one AdminMusicCard receives. */
  datatype CardProps = CardProps(position: nat, title: JsValue, views: JsValue, youtubeUrl: JsValue,
                                 thumbnail: string, musicId: JsValue)

  /** The card rendered for a record at a position. */
  function CardFor(music: Record, position: nat): CardProps {
    CardProps(position, Prop(music, "titulo"), Prop(music, "visualizacoes"), CardLink(music),
              PlaceholderThumbnail, IdOf(music))
  }

  class AdminMusicList {
    var allMusics: seq<Record>
    var currentPage: nat
    var loading: bool
    var error: Option<string>

    /** Pages are numbered from 1. */
    predicate Valid()
      reads this
    {
      currentPage >= 1
    }

    constructor()
      ensures Valid()
      ensures allMusics == [] && currentPage == 1 && loading && error == None
    {
      allMusics := [];
      currentPage := 1;
      loading := true;
      error := None;
    }

    /** `loadMusics`, given how `getMusics` settled. */
    method LoadMusics(outcome: LoadOutcome)
      requires Valid()
      modifies this
      ensures Valid() && !loading && currentPage == old(currentPage)
      ensures Loaded(outcome) ==> allMusics == outcome.data.data && error == None
      ensures !Loaded(outcome) ==>
        allMusics == old(allMusics) && error == Some(LoadErrorMessage(outcome, LoadErrorDefault))
    {
      loading := true;
      error := None;
      match outcome {
        case Returned(response) =>
          if response.success {
            allMusics := response.data;
          } else {
            error := Some(if TruthyText(response.message) then response.message.value else LoadErrorDefault);
          }
        case Raised(message) =>
          error := Some(message);
      }
      loading := false;
    }

    /** `handleMusicDeleted(musicId)` */
    method HandleMusicDeleted(musicId: JsValue)
      requires Valid()
      modifies this
      ensures Valid()
      ensures allMusics == WithoutId(old(allMusics), musicId)
      ensures currentPage == old(currentPage) && loading == old(loading) && error == old(error)
    {
      allMusics := WithoutId(allMusics, musicId);
    }

    /** `handleMusicUpdated(musicId, updatedData)` */
    method HandleMusicUpdated(musicId: JsValue, updatedData: Record)
      requires Valid()
      modifies this
      ensures Valid()
      ensures allMusics == MergeById(old(allMusics), musicId, updatedData)
      ensures currentPage == old(currentPage) && loading == old(loading) && error == old(error)
    {
      allMusics := MergeById(allMusics, musicId, updatedData);
    }

    /** `handlePageChange(event, page)`; the pagination control only offers pages from 1. */
    method HandlePageChange(page: nat)
      requires Valid() && page >= 1
      modifies this
      ensures Valid() && currentPage == page
      ensures allMusics == old(allMusics) && loading == old(loading) && error == old(error)
    {
      currentPage := page;
    }

    /** `totalPages`: zero only for an empty list, its last page is never empty,
        and the pager shows (`totalPages > 1`) exactly when one page cannot hold the list. */
    function PageCount(): (n: nat)
      reads this
      ensures n == 0 <==> |allMusics| == 0
      ensures n >= 1 ==> PageOf(allMusics, n) != [] && PageOf(allMusics, n + 1) == []
      ensures n > 1 <==> |allMusics| > ItemsPerPage
    {
      TotalPages(|allMusics|)
    }

    /** The cards of the current page. */
    function Cards(): (cards: seq<CardProps>)
      requires Valid()
      reads this
      ensures |cards| == |PageOf(allMusics, currentPage)|
      ensures forall i :: 0 <= i < |cards| ==> cards[i].position == Position(currentPage, i)
      ensures forall i :: 0 <= i < |cards| ==>
        && 1 <= cards[i].position <= |allMusics|
        && cards[i] == CardFor(allMusics[cards[i].position - 1], cards[i].position)
    {
      var p := currentPage;
      var page := PageOf(allMusics, p);
      assert forall i :: 0 <= i < |page| ==> page[i] == allMusics[Position(p, i) - 1];
      seq(|page|, i requires 0 <= i < |page| => CardFor(page[i], Position(p, i)))
    }
  }

  /** Positions on a page are consecutive, so the numbering runs without gaps across pages. */
  lemma CardPositionsConsecutive(list: AdminMusicList, i: nat)
    requires list.Valid() && i + 1 < |list.Cards()|
    ensures list.Cards()[i + 1].position == list.Cards()[i].position + 1
  {
  }
}
