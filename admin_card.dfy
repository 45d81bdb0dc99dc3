/** One card of the admin list, src/components/AdminMusicCard.jsx: its state
    (`loading`, the message, the two dialogs, the draft link and the four
    `current*` fields seeded from the props), the thumbnail it shows, and the
    delete and edit-link actions. As for the pending card, each action is split
    at its service call into Begin and Settle. The oEmbed lookup and
    `Math.random` are inputs of BeginUpdate. */
module AdminCard {
  import opened JsCore
  import YouTube
  import MusicService
  import opened Feedback
  import ListCache
  import AdminList

  const DefaultTitle := "Nome da Música"
  const InvalidUrlText := "URL do YouTube inválida"
  const BlankUrlText := "Por favor, insira um link válido"
  const UpdatedText := "Link e dados atualizados com sucesso!"
  const DeletedText := "Música removida com sucesso!"
  const FallbackTitlePrefix := "Vídeo "
  /** Simulated view counts are `Math.floor(Math.random() * ViewsSpread) + ViewsBase`. */
  const ViewsBase: nat := 100000
  const ViewsSpread: nat := 10000000

  /** The card's own `extractVideoId`, which throws instead of returning null. */
  function ExtractOrThrow(url: string): (r: Result<string, string>)
    ensures r.Ok? ==> YouTube.IsVideoId(r.value)
    ensures r.Err? ==> r.error == InvalidUrlText
  {
    var id := YouTube.MatchGroup(url);
    if id.None? then Err(InvalidUrlText) else Ok(id.value)
  }

  /** It accepts exactly the links the shared extractor finds an id in, with the same id. */
  lemma ExtractOrThrowAgrees(url: string)
    ensures ExtractOrThrow(url).Ok? <==> YouTube.ExtractVideoId(Some(url)).Some?
    ensures ExtractOrThrow(url).Ok? ==> ExtractOrThrow(url).value == YouTube.ExtractVideoId(Some(url)).value
    ensures ExtractOrThrow(url).Err? ==> ExtractOrThrow(url).error == InvalidUrlText
  {
    if url == "" {
      assert YouTube.FindFrom(url, 0) == None;
    }
  }

  /** How the oEmbed request went: a JSON body with these fields, or no usable
      answer (a non-ok status, or a rejection of `fetch` or of `json()`). */
  datatype Enrichment = OEmbed(title: JsValue, thumbnailUrl: JsValue) | Unavailable

  datatype VideoData = VideoData(title: JsValue, thumbnail: JsValue, views: nat)

  /** `fetchYouTubeVideoData(videoId)`, given the lookup and the random draw
      `Math.floor(Math.random() * 10000000)`. */
  function FetchYouTubeVideoData(videoId: string, enrichment: Enrichment, draw: nat): (v: VideoData)
    requires draw < ViewsSpread
    ensures ViewsBase <= v.views < ViewsBase + ViewsSpread
    ensures enrichment.OEmbed? ==> v.title == enrichment.title && v.thumbnail == enrichment.thumbnailUrl
    ensures enrichment.Unavailable? ==>
      v.title == JsString(FallbackTitlePrefix + videoId) && v.thumbnail == JsString(YouTube.ThumbnailUrl(videoId))
  {
    match enrichment
    case OEmbed(title, thumbnailUrl) => VideoData(title, thumbnailUrl, draw + ViewsBase)
    case Unavailable =>
      VideoData(JsString(FallbackTitlePrefix + videoId), JsString(YouTube.ThumbnailUrl(videoId)), draw + ViewsBase)
  }

  /** The fallback thumbnail of a video is the one the shared helper derives from its watch link. */
  lemma FallbackThumbnailIsWatchThumbnail(id: string, draw: nat)
    requires YouTube.IsVideoId(id) && draw < ViewsSpread
    ensures Some(FetchYouTubeVideoData(id, Unavailable, draw).thumbnail.s)
      == YouTube.GetThumbnailFromUrl(Some(YouTube.WatchPrefix + id))
  {
    YouTube.WatchLink(id);
  }

  /** `updateData`: the body of `updateMusic` and the argument of `onMusicUpdated`. */
  function UpdateData(url: string, video: VideoData): (d: ListCache.Record)
    ensures d.Keys == {"youtube_url", "titulo", "thumbnail", "visualizacoes"}
  {
    map["youtube_url" := JsString(url), "titulo" := video.title,
        "thumbnail" := video.thumbnail, "visualizacoes" := JsNumber(video.views)]
  }

  /** Where `handleUpdateUrl` goes with a draft before `updateMusic`: refused
      with a message, or sent with the draft and the looked-up video data. */
  datatype UpdatePlan = Refused(message: string) | Send(url: string, video: VideoData)

  /** The guard, the extraction and the lookup of `handleUpdateUrl`. */
  function PlanUpdate(draft: string, enrichment: Enrichment, draw: nat): (p: UpdatePlan)
    requires draw < ViewsSpread
    ensures p.Refused? ==> p.message == BlankUrlText || p.message == InvalidUrlText
    ensures p.Send? ==> p.url == draft && draft != []
  {
    if Trim(draft) == "" then Refused(BlankUrlText)
    else
      match ExtractOrThrow(draft)
      case Err(e) => Refused(e)
      case Ok(videoId) => Send(draft, FetchYouTubeVideoData(videoId, enrichment, draw))
  }

  /** A draft is refused as blank exactly when it is all whitespace, refused as
      invalid exactly when the shared extractor finds no id in it, and otherwise
      sent as typed, with the video data of the shared extractor's id. */
  lemma PlanUpdateMeaning(draft: string, enrichment: Enrichment, draw: nat)
    requires draw < ViewsSpread
    ensures var p := PlanUpdate(draft, enrichment, draw);
      && (IsBlank(draft) ==> p == Refused(BlankUrlText))
      && (!IsBlank(draft) && YouTube.ExtractVideoId(Some(draft)).None? ==> p == Refused(InvalidUrlText))
      && (p.Send? <==> !IsBlank(draft) && YouTube.ExtractVideoId(Some(draft)).Some?)
      && (p.Send? ==> p.url == draft)
      && (p.Send? ==> p.video == FetchYouTubeVideoData(YouTube.ExtractVideoId(Some(draft)).value, enrichment, draw))
  {
    TrimEmptyIffBlank(draft);
    ExtractOrThrowAgrees(draft);
  }

  /** After the list merges an update, the props the list passes for a matching
      record carry the new URL, title and views under the same id. */
  lemma MergedUpdateReachesCard(s: seq<ListCache.Record>, id: JsValue, url: string, video: VideoData, i: int, position: nat)
    requires 0 <= i < |s| && ListCache.IdOf(s[i]) == id && url != ""
    ensures var r := ListCache.MergeById(s, id, UpdateData(url, video))[i];
      var card := AdminList.CardFor(r, position);
      && card.youtubeUrl == JsString(url)
      && card.title == video.title && card.views == JsNumber(video.views)
      && card.musicId == id
  {
    var d := UpdateData(url, video);
    ListCache.MergeByIdEffect(s, id, d, i);
    var r := ListCache.MergeById(s, id, d)[i];
    assert ListCache.Prop(r, "youtube_url") == JsString(url);
  }

  /** `title = "Nome da Música"` and the other defaults apply to undefined props only. */
  function OrDefault(v: JsValue, default: JsValue): (r: JsValue)
    ensures v != JsUndefined ==> r == v
    ensures v == JsUndefined ==> r == default
  {
    if v == JsUndefined then default else v
  }

  /** The `youtubeUrl` prop as the card uses it: a string, or null when absent. */
  function UrlProp(v: JsValue): (r: Option<string>)
    ensures r.Some? <==> v.JsString?
    ensures r.Some? ==> r.value == v.s
    ensures TruthyText(r) <==> v.JsString? && Truthy(v)
  {
    if v.JsString? then Some(v.s) else None
  }

  /** `currentYoutubeUrl || ''`, what the edit field is reset to. */
  function Draft(url: Option<string>): (d: string)
    ensures TruthyText(url) ==> d == url.value
    ensures !TruthyText(url) ==> d == ""
  {
    if TruthyText(url) then url.value else ""
  }

  /** The action whose service call is in flight, with what Settle needs of it. */
  datatype Pending = Deleting | Updating(url: string, video: VideoData)

  class AdminMusicCard {
    const musicId: JsValue
    /** Whether an `onMusicUpdated` prop was passed. */
    const hasUpdateCallback: bool
    var loading: bool
    var message: Message
    var confirmDialog: bool
    var editDialog: bool
    var newYoutubeUrl: string
    var currentTitle: JsValue
    var currentThumbnail: JsValue
    var currentYoutubeUrl: Option<string>
    var currentViews: JsValue
    var awaiting: Option<Pending>

    predicate Valid()
      reads this
    {
      loading <==> awaiting.Some?
    }

    constructor(props: AdminList.CardProps, hasUpdateCallback: bool)
      ensures Valid() && musicId == props.musicId && this.hasUpdateCallback == hasUpdateCallback
      ensures !loading && message == NoMessage && !confirmDialog && !editDialog && awaiting == None
      ensures currentTitle == OrDefault(props.title, JsString(DefaultTitle))
      ensures currentViews == OrDefault(props.views, JsNumber(0))
      ensures currentThumbnail == JsString(props.thumbnail)
      ensures currentYoutubeUrl == UrlProp(props.youtubeUrl) && newYoutubeUrl == Draft(currentYoutubeUrl)
    {
      musicId := props.musicId;
      this.hasUpdateCallback := hasUpdateCallback;
      loading := false;
      message := NoMessage;
      confirmDialog := false;
      editDialog := false;
      newYoutubeUrl := Draft(UrlProp(props.youtubeUrl));
      currentTitle := OrDefault(props.title, JsString(DefaultTitle));
      currentThumbnail := JsString(props.thumbnail);
      currentYoutubeUrl := UrlProp(props.youtubeUrl);
      currentViews := OrDefault(props.views, JsNumber(0));
      awaiting := None;
    }

    /** `getThumbnail()`: the video's thumbnail when the current link has an id,
        the current thumbnail otherwise. */
    function Thumbnail(): (t: JsValue)
      reads this
      ensures YouTube.GetThumbnailFromUrl(currentYoutubeUrl).Some? ==>
        t == JsString(YouTube.GetThumbnailFromUrl(currentYoutubeUrl).value)
      ensures YouTube.GetThumbnailFromUrl(currentYoutubeUrl).None? ==> t == currentThumbnail
    {
      if TruthyText(currentYoutubeUrl) then
        var youtubeThumbnail := YouTube.GetThumbnailFromUrl(currentYoutubeUrl);
        if TruthyText(youtubeThumbnail) then JsString(youtubeThumbnail.value) else currentThumbnail
      else
        YouTube.AbsentOrEmptyUrl(currentYoutubeUrl);
        currentThumbnail
    }

    /** `disabled={loading}` on Edit, Remove and the dialogs' action buttons. */
    predicate ActionsEnabled()
      reads this
    {
      !loading
    }

    /** `disabled={loading || !newYoutubeUrl.trim()}` on Save: the draft can be
        saved while no request runs and the draft is not all whitespace. */
    predicate CanSave()
      reads this
      ensures CanSave() <==> ActionsEnabled() && !IsBlank(newYoutubeUrl)
    {
      TrimEmptyIffBlank(newYoutubeUrl);
      !loading && Trim(newYoutubeUrl) != ""
    }

    /** `handleOpenEdit` */
    method OpenEdit()
      requires ActionsEnabled()
      modifies this
      ensures editDialog && newYoutubeUrl == Draft(currentYoutubeUrl) && message == NoMessage
      ensures loading == old(loading) && confirmDialog == old(confirmDialog) && awaiting == old(awaiting)
      ensures Current() == old(Current())
    {
      newYoutubeUrl := Draft(currentYoutubeUrl);
      editDialog := true;
      message := NoMessage;
    }

    /** `handleCloseEdit`: the draft is thrown away; the message stays. */
    method CloseEdit()
      modifies this
      ensures !editDialog && newYoutubeUrl == Draft(currentYoutubeUrl)
      ensures message == old(message) && loading == old(loading) && confirmDialog == old(confirmDialog)
      ensures awaiting == old(awaiting) && Current() == old(Current())
    {
      editDialog := false;
      newYoutubeUrl := Draft(currentYoutubeUrl);
    }

    /** The edit field's `onChange`. */
    method EditDraft(value: string)
      requires ActionsEnabled()
      modifies this
      ensures newYoutubeUrl == value
      ensures message == old(message) && editDialog == old(editDialog) && confirmDialog == old(confirmDialog)
      ensures loading == old(loading) && awaiting == old(awaiting) && Current() == old(Current())
    {
      newYoutubeUrl := value;
    }

    /** `handleConfirmDelete` */
    method ConfirmDelete()
      requires ActionsEnabled()
      modifies this
      ensures confirmDialog
      ensures message == old(message) && editDialog == old(editDialog) && newYoutubeUrl == old(newYoutubeUrl)
      ensures loading == old(loading) && awaiting == old(awaiting) && Current() == old(Current())
    {
      confirmDialog := true;
    }

    /** `handleCancelDelete` */
    method CancelDelete()
      modifies this
      ensures !confirmDialog
      ensures message == old(message) && editDialog == old(editDialog) && newYoutubeUrl == old(newYoutubeUrl)
      ensures loading == old(loading) && awaiting == old(awaiting) && Current() == old(Current())
    {
      confirmDialog := false;
    }

    /** The four fields the card displays. */
    function Current(): (JsValue, JsValue, Option<string>, JsValue)
      reads this
    {
      (currentTitle, currentThumbnail, currentYoutubeUrl, currentViews)
    }

    /** `handleDelete` up to `deleteMusic`, from the confirmation dialog. */
    method BeginDelete() returns (call: MusicService.Operation<ListCache.Record>)
      requires Valid() && ActionsEnabled() && confirmDialog
      modifies this
      ensures Valid() && !ActionsEnabled() && message == NoMessage && awaiting == Some(Deleting)
      ensures call == MusicService.DeleteMusic(musicId)
      ensures confirmDialog && editDialog == old(editDialog) && newYoutubeUrl == old(newYoutubeUrl)
      ensures Current() == old(Current())
    {
      loading := true;
      message := NoMessage;
      awaiting := Some(Deleting);
      call := MusicService.DeleteMusic(musicId);
    }

    /** The rest of `handleDelete`; `scheduled` is the id the 1500 ms timer
        hands to `onMusicDeleted`, if it was set. */
    method SettleDelete(outcome: MusicService.Outcome<MusicService.Envelope<JsValue>>) returns (scheduled: Option<JsValue>)
      requires Valid() && awaiting == Some(Deleting)
      modifies this
      ensures Valid() && ActionsEnabled() && !confirmDialog && awaiting == None
      ensures Succeeded(outcome) ==> message == Message(Success, DeletedText) && scheduled == Some(musicId)
      ensures !Succeeded(outcome) ==> message == Message(Failure, FailureText(outcome)) && scheduled == None
      ensures editDialog == old(editDialog) && newYoutubeUrl == old(newYoutubeUrl) && Current() == old(Current())
    {
      scheduled := None;
      match outcome {
        case Returned(response) =>
          if response.success {
            message := Message(Success, DeletedText);
            scheduled := Some(musicId);
          } else {
            message := Message(Failure, ErrorText(response.message));
          }
        case Raised(m) =>
          message := Message(Failure, m);
      }
      loading := false;
      awaiting := None;
      confirmDialog := false;
    }

    /** `handleUpdateUrl` up to `updateMusic`: a refused draft ends at once
        with its message, a sent one leaves the card loading with the call made. */
    method BeginUpdate(enrichment: Enrichment, draw: nat) returns (call: Option<MusicService.Operation<ListCache.Record>>)
      requires Valid() && ActionsEnabled() && draw < ViewsSpread
      modifies this
      ensures Valid() && newYoutubeUrl == old(newYoutubeUrl) && Current() == old(Current())
      ensures editDialog == old(editDialog) && confirmDialog == old(confirmDialog)
      ensures var plan := PlanUpdate(newYoutubeUrl, enrichment, draw);
        && (plan.Refused? ==> call == None && ActionsEnabled() && message == Message(Failure, plan.message))
        && (plan.Send? ==>
              && call == Some(MusicService.UpdateMusic(musicId, UpdateData(plan.url, plan.video)))
              && !ActionsEnabled() && message == NoMessage && awaiting == Some(Updating(plan.url, plan.video)))
    {
      var plan := PlanUpdate(newYoutubeUrl, enrichment, draw);
      match plan {
        case Refused(text) =>
          message := Message(Failure, text);
          call := None;
        case Send(url, video) =>
          loading := true;
          message := NoMessage;
          awaiting := Some(Updating(url, video));
          call := Some(MusicService.UpdateMusic(musicId, UpdateData(url, video)));
      }
    }

    /** The rest of `handleUpdateUrl`. On success the dialog closes, the card
        shows the new link and video data, and `notified` is the record handed
        to `onMusicUpdated` when there is one; on failure only the message changes. */
    method SettleUpdate(outcome: MusicService.Outcome<MusicService.Envelope<JsValue>>) returns (notified: Option<ListCache.Record>)
      requires Valid() && awaiting.Some? && awaiting.value.Updating?
      modifies this
      ensures Valid() && ActionsEnabled() && awaiting == None
      ensures newYoutubeUrl == old(newYoutubeUrl) && confirmDialog == old(confirmDialog)
      ensures Succeeded(outcome) ==> var url, video := old(awaiting).value.url, old(awaiting).value.video;
        && message == Message(Success, UpdatedText) && !editDialog
        && Current() == (video.title, video.thumbnail, Some(url), JsNumber(video.views))
        && notified == (if hasUpdateCallback then Some(UpdateData(url, video)) else None)
      ensures !Succeeded(outcome) ==>
        && message == Message(Failure, FailureText(outcome)) && notified == None
        && editDialog == old(editDialog) && Current() == old(Current())
    {
      var url, video := awaiting.value.url, awaiting.value.video;
      notified := None;
      match outcome {
        case Returned(response) =>
          if response.success {
            message := Message(Success, UpdatedText);
            editDialog := false;
            currentTitle := video.title;
            currentThumbnail := video.thumbnail;
            currentYoutubeUrl := Some(url);
            currentViews := JsNumber(video.views);
            if hasUpdateCallback {
              notified := Some(UpdateData(url, video));
            }
          } else {
            message := Message(Failure, ErrorText(response.message));
          }
        case Raised(m) =>
          message := Message(Failure, m);
      }
      loading := false;
      awaiting := None;
    }
  }

  /** An accepted edit of a card in the list: the card now shows the new link
      and its video's thumbnail, and the list record with the card's id carries
      the new link, title and views, so it renders the same link. */
  method EditInList(list: AdminList.AdminMusicList, card: AdminMusicCard, enrichment: Enrichment, draw: nat,
                    reply: MusicService.Outcome<MusicService.Envelope<JsValue>>, i: nat)
    requires list.Valid() && card.Valid() && card.ActionsEnabled() && card.hasUpdateCallback && draw < ViewsSpread
    requires YouTube.ExtractVideoId(Some(card.newYoutubeUrl)).Some? && Succeeded(reply)
    requires i < |list.allMusics| && ListCache.IdOf(list.allMusics[i]) == card.musicId
    modifies list, card
    ensures list.Valid() && card.Valid() && card.ActionsEnabled() && !card.editDialog
    ensures card.currentYoutubeUrl == Some(old(card.newYoutubeUrl))
    ensures card.Thumbnail() == JsString(YouTube.ThumbnailUrl(YouTube.ExtractVideoId(Some(old(card.newYoutubeUrl))).value))
    ensures |list.allMusics| == |old(list.allMusics)|
    ensures AdminList.CardFor(list.allMusics[i], i + 1).youtubeUrl == JsString(old(card.newYoutubeUrl))
  {
    var url := card.newYoutubeUrl;
    BlankHasNoId(url);
    PlanUpdateMeaning(url, enrichment, draw);
    var plan := PlanUpdate(url, enrichment, draw);
    var _ := card.BeginUpdate(enrichment, draw);
    var notified := card.SettleUpdate(reply);
    MergedUpdateReachesCard(list.allMusics, card.musicId, url, plan.video, i, i + 1);
    list.HandleMusicUpdated(card.musicId, notified.value);
  }

  /** A blank link holds no video id. */
  lemma BlankHasNoId(url: string)
    ensures IsBlank(url) ==> YouTube.ExtractVideoId(Some(url)).None?
  {
    if IsBlank(url) && YouTube.ExtractVideoId(Some(url)).Some? {
      var _, _ := YouTube.IdFollowsMarker(url);
      assert false;
    }
  }
}
