/** One pending suggestion, src/components/PendingMusicCard.jsx: its own copy
    of the link matcher, the thumbnail it shows, and the approve/reject
    actions. Each action is split at its `await`: Begin runs up to the service
    call and returns the call it makes, Settle runs the rest once the call has
    settled, so the state in between (buttons disabled) is visible. */
module PendingCard {
  import opened JsCore
  import YouTube
  import MusicService
  import opened Feedback
  import ListCache
  import PendingList

  const PlaceholderThumbnail := "/assets/tiao-carreiro-pardinho.png"

  datatype Decision = Approve | Reject

  /** The component's own `extractVideoId`: the same expression, applied with
      `url.match` and no guard for empty input. */
  function LocalExtractVideoId(url: string): (id: Option<string>)
    ensures id.Some? ==> YouTube.IsVideoId(id.value)
  {
    YouTube.MatchGroup(url)
  }

  /** The copy agrees with `extractVideoId` of youtubeUtils on every string. */
  lemma LocalExtractAgrees(url: string)
    ensures LocalExtractVideoId(url) == YouTube.ExtractVideoId(Some(url))
  {
    if url == "" {
      assert YouTube.FindFrom(url, 0) == None;
    }
  }

  /** `getThumbnail()` for the suggestion's `youtube_url` (None when absent): the
      shared thumbnail of the link when there is one, the placeholder otherwise. */
  function Thumbnail(youtubeUrl: Option<string>): (r: string)
    ensures r == if YouTube.GetThumbnailFromUrl(youtubeUrl).Some?
      then YouTube.GetThumbnailFromUrl(youtubeUrl).value else PlaceholderThumbnail
  {
    if TruthyText(youtubeUrl) then
      LocalExtractAgrees(youtubeUrl.value);
      var videoId := LocalExtractVideoId(youtubeUrl.value);
      if TruthyText(videoId) then YouTube.ThumbnailUrl(videoId.value) else PlaceholderThumbnail
    else PlaceholderThumbnail
  }

  function SuccessText(decision: Decision): string {
    match decision
    case Approve => "Sugestão aprovada com sucesso!"
    case Reject => "Sugestão rejeitada com sucesso!"
  }

  class PendingMusicCard {
    const musicId: JsValue
    const youtubeUrl: Option<string>
    var loading: bool
    var message: Message
    /** The action whose service call is in flight. */
    var awaiting: Option<Decision>

    predicate Valid()
      reads this
    {
      loading <==> awaiting.Some?
    }

    constructor(musicId: JsValue, youtubeUrl: Option<string>)
      ensures Valid() && this.musicId == musicId && this.youtubeUrl == youtubeUrl
      ensures !loading && message == NoMessage && awaiting == None
    {
      this.musicId := musicId;
      this.youtubeUrl := youtubeUrl;
      loading := false;
      message := NoMessage;
      awaiting := None;
    }

    /** `disabled={loading}` on both buttons. */
    predicate ActionsEnabled()
      reads this
    {
      !loading
    }

    /** `handleApprove` / `handleReject` up to the service call. */
    method Begin(decision: Decision) returns (call: MusicService.Operation<JsValue>)
      requires Valid() && ActionsEnabled()
      modifies this
      ensures Valid() && !ActionsEnabled() && message == NoMessage && awaiting == Some(decision)
      ensures call == if decision == Approve then MusicService.ApproveSuggestion(musicId) else MusicService.RejectSuggestion(musicId)
    {
      loading := true;
      message := NoMessage;
      awaiting := Some(decision);
      call := if decision == Approve then MusicService.ApproveSuggestion(musicId) else MusicService.RejectSuggestion(musicId);
    }

    /** The rest of the handler; `scheduled` is the id handed to
        `onMusicProcessed` by the 1500 ms timer, if one was set. */
    method Settle(outcome: MusicService.Outcome<MusicService.Envelope<JsValue>>) returns (scheduled: Option<JsValue>)
      requires Valid() && awaiting.Some?
      modifies this
      ensures Valid() && ActionsEnabled() && awaiting == None
      ensures Succeeded(outcome) ==> message == Message(Success, SuccessText(old(awaiting).value)) && scheduled == Some(musicId)
      ensures !Succeeded(outcome) ==> message == Message(Failure, FailureText(outcome)) && scheduled == None
    {
      scheduled := None;
      match outcome {
        case Returned(response) =>
          if response.success {
            message := Message(Success, SuccessText(awaiting.value));
            scheduled := Some(musicId);
          } else {
            message := Message(Failure, ErrorText(response.message));
          }
        case Raised(m) =>
          message := Message(Failure, m);
      }
      loading := false;
      awaiting := None;
    }
  }

  /** A whole approve or reject: whatever the server does, the buttons are
      enabled again afterwards, and the list is told to drop the suggestion
      exactly when the server accepted the decision. */
  method Decide(card: PendingMusicCard, decision: Decision, reply: MusicService.Outcome<MusicService.Envelope<JsValue>>)
    returns (call: MusicService.Operation<JsValue>, scheduled: Option<JsValue>)
    requires card.Valid() && card.ActionsEnabled()
    modifies card
    ensures card.Valid() && card.ActionsEnabled()
    ensures MusicService.Name(call) == (if decision == Approve then "approveSuggestion" else "rejectSuggestion")
    ensures scheduled.Some? <==> Succeeded(reply)
    ensures scheduled.Some? ==> scheduled.value == card.musicId && card.message.kind == Success
    ensures scheduled.None? ==> card.message.kind == Failure
  {
    call := card.Begin(decision);
    scheduled := card.Settle(reply);
  }

  /** A decision followed by the list's callback when the timer fires: an
      accepted decision takes every record with the card's id off the list and
      keeps the others in order; a refused or failed one leaves the list as it was. */
  method DecideInList(list: PendingList.PendingMusicList, card: PendingMusicCard, decision: Decision,
                      reply: MusicService.Outcome<MusicService.Envelope<JsValue>>)
    requires list.Valid() && card.Valid() && card.ActionsEnabled()
    modifies list, card
    ensures list.Valid() && card.Valid() && card.ActionsEnabled()
    ensures Succeeded(reply) ==> list.pendingMusics == ListCache.WithoutId(old(list.pendingMusics), card.musicId)
    ensures Succeeded(reply) ==> forall i :: 0 <= i < |list.pendingMusics| ==> ListCache.IdOf(list.pendingMusics[i]) != card.musicId
    ensures !Succeeded(reply) ==> list.pendingMusics == old(list.pendingMusics)
  {
    ListCache.WithoutIdDropsId(list.pendingMusics, card.musicId);
    var _, scheduled := Decide(card, decision, reply);
    if scheduled.Some? {
      list.HandleMusicProcessed(scheduled.value);
    }
  }
}
