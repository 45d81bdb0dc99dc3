# Admin-side client logic of techp-react-front, in Dafny

This project models the logic behind the admin screens of the React front end of a music site. An administrator signs in and moderates suggested songs, approving or rejecting them. The administrator also edits or removes the songs already listed. Five pieces are modelled, each as its own module (or pair of modules), following the source files:

- **YouTube links** (`YouTube`, from `src/utils/youtubeUtils.js`).
  - The video-id regular expression is written out as a matcher that does what a backtracking engine does: the leftmost start, the alternatives in order, and greedy quantifiers tried longest first.
  - Beside it sits a declarative reading of the same expression (`MarkerEnd`, `MatchesAt`). Lemmas prove the matcher sound, complete and leftmost with respect to that reading.
  - The thumbnail helpers and the validity check are defined on top of the matcher.
- **HTTP client and session** (`Api` from `src/api.js`, `Auth` from `src/contexts/AuthContext.jsx`).
  - The request interceptor adds the bearer header. The 401 interceptor forgets only the token.
  - The provider restores, signs in and signs out a session. It keeps two `localStorage` keys, modelled as a class over a string map.
  - Server replies are inputs, and every reply passes through the interceptor first, as in the source.
- **Service layer** (`MusicService`, from `src/musicService.js`).
  - Eleven operations, each with its route.
  - The response body is passed on untouched.
  - A transport failure is re-raised as `prefix + ": " + message`, with a prefix of its own for each operation.
- **List caches** (`ListCache`, `PendingList`, `AdminList`, from `src/components/PendingMusicList.jsx` and `src/components/AdminMusicList.jsx`).
  - Loading replaces the list.
  - Removal filters out an id with `!==`. Update maps an object spread over the matching records.
  - Pages hold five items each, and cards carry 1-based positions and the link fallback.
- **Cards and form** (`PendingCard`, `AdminCard` and `LoginForm`, from the components of those names, with `Feedback` for the message both cards show).
  - These are small state machines over `loading`, the message, the dialogs and the displayed fields.
  - Each asynchronous handler is split at its `await` into a Begin method and a Settle method. This makes the state in between visible (buttons disabled, the call made). Composite methods then run a whole action against a list or the session provider.

JavaScript values the code compares with `===` are the datatype `JsCore.JsValue`. Truthiness, the `\s` class, `trim()` and the rendering of a value inside a template literal are written out in `JsCore`. A record of a list is a `map<string, JsValue>`, so an object spread is map union.

Points where the code's behaviour is easy to misread:

- **Video-id characters.** The id may be any 11 characters other than `"`, `&`, `?`, `/` and whitespace (`src/utils/youtubeUtils.js:13`). It is not restricted to `[A-Za-z0-9_-]`. The model counts the 11 in Unicode code points; the expression, which has no `u` flag, counts UTF-16 code units (see "Left out").
- **No anchoring.** The expression is unanchored, so it finds a link anywhere in the text and cuts a longer id to its first 11 characters.
- **Shared matcher.** Both cards keep their own copy of the expression. `PendingCard.LocalExtractAgrees` and `AdminCard.ExtractOrThrowAgrees` prove that each copy agrees with the shared helper.
- **Token and user can fall out of step.** A session is not "token present exactly when user present". The 401 interceptor removes `auth_token` and keeps `user_data` (`src/api.js:36-39`), and the provider's in-memory user survives it. A later restore does nothing unless both keys are stored (`src/contexts/AuthContext.jsx:24`), so a stale `user_data` is neither used nor cleaned up. `Auth.UnauthorizedAfterLogin` and `Auth.ReloadWithStaleUserData` show both outcomes.
- **A failed sign-in can drop the token.** A sign-in refused with 401 also passes through the interceptor, so it removes a token that was already stored (`Auth.AuthProvider.Login`, the `AfterError` clause).

## Model

| member | source | states |
|---|---|---|
| JsCore.TrimStartDropsLeadingSpace | src/components/AdminMusicCard.jsx:132 | `trim()` drops from the front exactly the run of `\s` characters: what it drops is whitespace, and what it keeps is a suffix that starts with a non-space |
| JsCore.TrimEndDropsTrailingSpace | src/components/AdminMusicCard.jsx:132 | the same at the end: the kept prefix ends with a non-space, and everything dropped is whitespace |
| JsCore.TrimEmptyIffBlank | src/components/AdminMusicCard.jsx:132 | `!s.trim()` holds exactly when every character of `s` is whitespace |
| JsCore.NatText | src/musicService.js:73 | `${n}` of a natural safe integer is a non-empty string of decimal digits that starts with `0` only for zero |
| JsCore.DigitText | src/musicService.js:73 | a digit renders as one character from `0` to `9` whose value is the digit |
| JsCore.NatTextValue | src/musicService.js:73 | the decimal text of n, read back digit by digit, is n |
| JsCore.NatTextInjective | src/musicService.js:73 | different natural numbers render as different texts |
| JsCore.IntText | src/musicService.js:73 | `${n}` of a safe integer starts with `-` exactly when it is negative, followed by the digits of its magnitude; otherwise it is the digits of n |
| JsCore.IntTextInjective | src/musicService.js:73 | different integers render as different texts |
| JsCore.ToText | src/musicService.js:73 | `${v}` of a string is the string itself and of a number its decimal text; only the empty string renders as empty text |
| YouTube.MatchGroup | src/utils/youtubeUtils.js:13-16 | a captured id has exactly 11 characters, none of them `"`, `&`, `?`, `/` or whitespace |
| YouTube.ExtractVideoId | src/utils/youtubeUtils.js:8-21 | an empty or absent URL gives null, and a returned id has 11 characters |
| YouTube.GetYouTubeThumbnail | src/utils/youtubeUtils.js:29-34 | null exactly for an empty or absent id; otherwise the URL is exactly the `https://img.youtube.com/vi/` prefix, then the id, then the `/maxresdefault.jpg` suffix |
| YouTube.AfterLongHostSound | src/utils/youtubeUtils.js:13 | where the matcher ends after `youtube.com/`, one of the three alternatives (a path of two segments, `v/` or `e/` or `embed/`, or a query ending in `?v=` or `&v=`) matches up to that point |
| YouTube.AfterLongHostComplete | src/utils/youtubeUtils.js:13 | if any alternative after `youtube.com/` ends where 11 id characters follow, the matcher finds an end |
| YouTube.MatchAtSound | src/utils/youtubeUtils.js:13 | an end found at a start position is an end of the part of the expression before the capture group |
| YouTube.MatchAtComplete | src/utils/youtubeUtils.js:13 | if the expression matches at a start position, the matcher succeeds there |
| YouTube.HostsExclusive | src/utils/youtubeUtils.js:13 | `youtube.com/` and `youtu.be/` cannot both start at one position |
| YouTube.FindFromFirst | src/utils/youtubeUtils.js:13-14 | the search returns the leftmost start: no earlier position matches |
| YouTube.FindFromHit | src/utils/youtubeUtils.js:13-14 | the start and id position returned by the search are a match at that start |
| YouTube.FindFromStep | src/utils/youtubeUtils.js:13-14 | when nothing matches at the current position, the search result is that of the next position |
| YouTube.FindFromSound | src/utils/youtubeUtils.js:13-14 | the search result is a match of the declarative reading, and no earlier start matches it |
| YouTube.NoMatchAt | src/utils/youtubeUtils.js:13 | when the matcher fails at a start, the expression does not match there |
| YouTube.FindFromComplete | src/utils/youtubeUtils.js:13-14 | whenever the expression matches at some start, the search succeeds at or before it |
| YouTube.ExtractVideoIdSound | src/utils/youtubeUtils.js:9-16 | a returned id is 11 id characters that follow a marker in the URL, at the leftmost start where the expression matches |
| YouTube.ExtractVideoIdComplete | src/utils/youtubeUtils.js:9-16 | a non-empty URL in which the expression matches somewhere yields an id |
| YouTube.IsValidIffMatches | src/utils/youtubeUtils.js:53-55 | `isValidYouTubeUrl(u)` holds exactly when the expression matches somewhere in `u` |
| YouTube.MarkerEndLastChar | src/utils/youtubeUtils.js:13 | every marker begins with `youtube.com/` or `youtu.be/` and ends with `/` or `=` |
| YouTube.IdFollowsMarker | src/utils/youtubeUtils.js:13-16 | an extracted id occurs in the URL right after a `/` or `=`, behind a `youtube.com/` or `youtu.be/` |
| YouTube.ExtractFromFound | src/utils/youtubeUtils.js:14-16 | `match[1]` is the 11 characters at the id position the search found |
| YouTube.FoundAfterMarker | src/utils/youtubeUtils.js:13-14 | the search result is a declarative match with 11 id characters at its id position |
| YouTube.NoHostNoId | src/utils/youtubeUtils.js:13-16 | a URL with neither `youtube.com/` nor `youtu.be/` in it has no id, no thumbnail and is not valid |
| YouTube.AbsentOrEmptyUrl | src/utils/youtubeUtils.js:9 | an empty or absent URL has no id, no thumbnail and is not valid |
| YouTube.GetThumbnailFromUrl | src/utils/youtubeUtils.js:42-45 | `getThumbnailFromUrl` gives the maxresdefault URL of the id exactly when an id is extracted, and null otherwise |
| YouTube.IsValidYouTubeUrl | src/utils/youtubeUtils.js:53-55 | a valid URL is non-empty, and a URL is valid exactly when it has a thumbnail |
| YouTube.SkipStarts | src/utils/youtubeUtils.js:13-14 | positions without a `y` can be skipped: the search from before them finds what the search from after them finds |
| YouTube.HostsStartWithY | src/utils/youtubeUtils.js:13 | both markers start with `y` |
| YouTube.SkipQueries | src/utils/youtubeUtils.js:13 | for `.*[?&]v=`, the greedy choice of the last query marker ignores positions where none is |
| YouTube.NoLetterYNoId | src/utils/youtubeUtils.js:13-16 | a URL without the letter `y` has no id |
| YouTube.WatchLink | src/utils/youtubeUtils.js:13-16 | `https://www.youtube.com/watch?v=ID` yields `ID` for every well-formed id |
| YouTube.ShortLink | src/utils/youtubeUtils.js:13-16 | `https://youtu.be/ID` yields `ID` for every well-formed id |
| YouTube.EmbedLink | src/utils/youtubeUtils.js:13-16 | `https://www.youtube.com/embed/ID` yields `ID` for every well-formed id |
| YouTube.VLink | src/utils/youtubeUtils.js:13-16 | `https://www.youtube.com/v/ID` yields `ID` for every well-formed id |
| YouTube.TestWatchLink | src/utils/__tests__/youtubeUtils.test.js:5-12 | the watch link of `dQw4w9WgXcQ` gives that id and its maxresdefault thumbnail |
| YouTube.TestShortLink | src/utils/__tests__/youtubeUtils.test.js:14-21 | the short link of `dQw4w9WgXcQ` gives that id and its maxresdefault thumbnail |
| YouTube.TestOtherSite | src/utils/__tests__/youtubeUtils.test.js:23-29 | `https://www.google.com` gives no thumbnail |
| Api.BaseUrl | src/api.js:4 | the base URL is the environment variable when it is a non-empty string, and `http://localhost:8000/api` otherwise |
| Api.Lookup | src/api.js:19 | `getItem` yields a value exactly for a stored key, and that value is the stored one |
| Api.LocalStorage.GetItem | src/api.js:19 | reading a key returns what is stored under it, or null |
| Api.LocalStorage.SetItem | src/contexts/AuthContext.jsx:56-57 | storing a value changes that key only |
| Api.LocalStorage.RemoveItem | src/api.js:38 | removing a key changes that key only |
| Api.RequestConfig.constructor | src/api.js:7-14 | a request starts with the JSON `Content-Type` and `Accept` headers and a 10000 ms timeout |
| Api.WithBearer | src/api.js:19-22 | a non-empty token sets `Authorization` to `Bearer ` + token; no token or an empty one leaves the headers as they were; no other header is touched |
| Api.BearerCarriesToken | src/api.js:21 | the header is `Bearer`, one space, then the token itself (section 2.1 of RFC 6750) |
| Api.OnRequest | src/api.js:17-28 | the request interceptor leaves the headers as `WithBearer` of the stored token, and the timeout as it was |
| Api.AfterError | src/api.js:35-42 | a 401 removes `auth_token` and only it; any other error leaves storage as it was |
| Api.OnResponse | src/api.js:31-43 | replies pass through unchanged; a rejection changes storage as `AfterError` says, a response not at all |
| Api.UnauthorizedKeepsUserData | src/api.js:36-39 | after a 401, `auth_token` is gone and `user_data` keeps its value |
| MusicService.RouteOf | src/musicService.js:5-107 | exactly `suggestMusic`, `login` and `updateMusic` send a body, and it is their argument unchanged |
| MusicService.Call | src/musicService.js:5-12 | a call returns `response.data` exactly when the request did not fail, whatever its `success` says; otherwise its message is the operation's prefix, `": "`, and the transport's message |
| MusicService.ApproveRejectRoutesDiffer | src/musicService.js:73-82 | no approve path equals a reject path, whatever the ids |
| MusicService.SuggestionRouteInjective | src/musicService.js:73 | equal suggestion paths carry equal ids |
| MusicService.SuggestionAndMusicRoutesDiffer | src/musicService.js:73-101 | a suggestion path is never a music path |
| MusicService.MusicRouteInjective | src/musicService.js:92-101 | equal music paths carry equal ids |
| MusicService.RouteDeterminesOperation | src/musicService.js:5-107 | method and path together determine the operation and the id as rendered: no two methods share a route |
| MusicService.ErrorPrefixesDistinct | src/musicService.js:10-104 | different methods throw under different prefixes |
| MusicService.TestedFixedRoutes | src/__tests__/musicService.test.js:33-142 | the GET and POST routes the tests pin, with the body forwarded unchanged |
| MusicService.TestedIdRoutes | src/__tests__/musicService.test.js:161-199 | the approve, reject and delete routes of id 1 |
| MusicService.UntestedRoutes | src/musicService.js:42-107 | sign-out is `POST /logout` and the current user `GET /me`, both without a body; an update of id 1 is `PATCH /musicas/1` with its body |
| MusicService.NumericIdsGiveDistinctPaths | src/musicService.js:73-101 | different numeric ids give different approve, reject, delete and update paths |
| MusicService.TestedNetworkError | src/__tests__/musicService.test.js:41 | `getMusics` with a network error raises `Erro ao buscar músicas: Network Error` |
| MusicService.TestedLoginError | src/__tests__/musicService.test.js:122 | `login` rejected with `Unauthorized` raises `Erro ao fazer login: Unauthorized` |
| MusicService.TestedDeleteError | src/__tests__/musicService.test.js:207 | `deleteMusic(999)` rejected with `Not Found` raises `Erro ao deletar música: Not Found` |
| Auth.AdminImpliesTruthyMarker | src/contexts/AuthContext.jsx:88-94 | an admin has a truthy `role`, `is_admin` or `admin` |
| Auth.IsAdmin | src/contexts/AuthContext.jsx:82-95 | only a signed-in user can be an admin; a user is an admin if their role is `admin` or either admin flag is strictly `true` or `1`, and an admin always has one of these |
| Auth.LooseFlagsAreNotAdmin | src/contexts/AuthContext.jsx:88-94 | flags `"1"`, `2` or `"true"` are truthy but do not make an admin under strict equality |
| Auth.AdminIsAuthenticated | src/contexts/AuthContext.jsx:82-103 | only an authenticated user can be an admin, and no user is neither |
| Auth.IsAuthenticated | src/contexts/AuthContext.jsx:103 | `!!user`: authenticated exactly when a user is present, and every admin is authenticated |
| Auth.AuthProvider.constructor | src/contexts/AuthContext.jsx:15-16 | the provider starts with no user and `loading` true |
| Auth.AuthProvider.CheckAuth | src/contexts/AuthContext.jsx:20-44 | without both keys nothing changes; a confirming reply sets the user and keeps storage; a refusal or a throw removes both keys and clears the user; `loading` ends false |
| Auth.AuthProvider.Login | src/contexts/AuthContext.jsx:49-67 | success stores the token and the serialised user and sets the user; a refusal returns its message and changes nothing; a throw returns the wrapped message, changes only what the 401 interceptor removes, and never propagates |
| Auth.AuthProvider.Logout | src/contexts/AuthContext.jsx:69-80 | both keys are removed and the user cleared, whatever the server answers |
| Auth.UnauthorizedAfterLogin | src/api.js:36-39 | after a sign-in and a later 401, the user is still authenticated, the token is gone and `user_data` remains |
| Auth.ReloadWithStaleUserData | src/contexts/AuthContext.jsx:21-24 | with only `user_data` stored, restore leaves no user, ends loading and does not remove the stale key |
| ListCache.WithoutId | src/components/PendingMusicList.jsx:42 | the filter never makes the list longer |
| ListCache.WithoutIdDropsId | src/components/PendingMusicList.jsx:41-43 | no record with the id survives the filter |
| ListCache.WithoutIdCounts | src/components/PendingMusicList.jsx:41-43 | every record without the id is kept as often as it occurs, and no record with it |
| ListCache.WithoutIdAppend | src/components/AdminMusicList.jsx:40-42 | filtering distributes over concatenation, so the kept records stay in order |
| ListCache.WithoutAbsentId | src/components/PendingMusicList.jsx:41-43 | removing an id no record has leaves the list unchanged |
| ListCache.WithoutIdIdempotent | src/components/PendingMusicList.jsx:41-43 | removing twice is removing once |
| ListCache.MergeById | src/components/AdminMusicList.jsx:45-51 | the update keeps the length of the list |
| ListCache.MergeByIdEffect | src/components/AdminMusicList.jsx:45-51 | a matching record takes the update's keys and keeps its others; other records are unchanged |
| ListCache.MergeByIdIdempotent | src/components/AdminMusicList.jsx:45-51 | an update without an `id` key applied twice is applied once |
| ListCache.RemoveAfterMerge | src/components/AdminMusicList.jsx:40-51 | an update without an `id` key does not change which records a later delete removes |
| ListCache.TotalPages | src/components/PendingMusicList.jsx:46 | `Math.ceil(n / 5)`: the least page count whose pages hold n items |
| ListCache.PageOf | src/components/PendingMusicList.jsx:47-49 | a page holds at most five records, in list order from `(p - 1) * 5`, and is empty exactly when that start is past the end |
| ListCache.PositionIsPlaceInList | src/components/AdminMusicList.jsx:130-133 | the `i`-th card of page `p` shows the record whose 1-based place in the whole list is its position |
| ListCache.PagesArePrefix | src/components/PendingMusicList.jsx:46-49 | pages 1 to k, in order, are the first `5k` records |
| ListCache.AllPagesGiveTheList | src/components/PendingMusicList.jsx:46-49 | the pages the pagination offers, concatenated, are the whole list |
| ListCache.PastLastPageIsEmpty | src/components/PendingMusicList.jsx:47-54 | a page beyond the last shows nothing; the page number is not reset after removals |
| ListCache.CardLink | src/components/AdminMusicList.jsx:136 | the link is `youtube_url` if truthy, else `link` if truthy, else `url`; it is truthy exactly when one of the three is |
| ListCache.LoadErrorMessage | src/components/PendingMusicList.jsx:20-28 | a thrown service error keeps its message; a refused envelope gives its message if truthy, and the default otherwise |
| PendingList.PendingMusicList.constructor | src/components/PendingMusicList.jsx:7-10 | the list starts empty, on page 1, loading, with no error |
| PendingList.PendingMusicList.LoadPendingMusics | src/components/PendingMusicList.jsx:15-33 | success replaces the list and clears the error; failure keeps the list and sets the error message or `Erro ao carregar sugestões pendentes`; `loading` ends false |
| PendingList.PendingMusicList.HandleMusicProcessed | src/components/PendingMusicList.jsx:41-43 | the list becomes the filter of the old list, and nothing else changes |
| PendingList.PendingMusicList.HandlePageChange | src/components/PendingMusicList.jsx:52-54 | only the page changes |
| PendingList.PendingMusicList.PageCount | src/components/PendingMusicList.jsx:46 | zero pages only for an empty list; the last page is non-empty and the one after it empty; the pager shows exactly when more than five suggestions are pending |
| PendingList.ProcessedLeavesView | src/components/PendingMusicList.jsx:41-49 | after processing, no shown suggestion has the id, and the page shows at most five of the remaining ones in order |
| AdminList.AdminMusicList.constructor | src/components/AdminMusicList.jsx:7-10 | the list starts empty, on page 1, loading, with no error |
| AdminList.AdminMusicList.LoadMusics | src/components/AdminMusicList.jsx:15-33 | success replaces the list and clears the error; failure keeps the list and sets the error message or `Erro ao carregar músicas`; `loading` ends false |
| AdminList.AdminMusicList.HandleMusicDeleted | src/components/AdminMusicList.jsx:40-42 | the list becomes the filter of the old list, and nothing else changes |
| AdminList.AdminMusicList.HandleMusicUpdated | src/components/AdminMusicList.jsx:45-51 | the list becomes the merge of the old list with the update, and nothing else changes |
| AdminList.AdminMusicList.HandlePageChange | src/components/AdminMusicList.jsx:59-61 | only the page changes |
| AdminList.AdminMusicList.PageCount | src/components/AdminMusicList.jsx:54 | zero pages only for an empty list; the last page is non-empty and the one after it empty; the pager shows exactly when more than five songs are listed |
| AdminList.AdminMusicList.Cards | src/components/AdminMusicList.jsx:130-141 | one card per record of the page; the i-th card has position `(currentPage - 1) * 5 + i + 1` and is rendered from the record at that 1-based position in the whole list |
| AdminList.CardPositionsConsecutive | src/components/AdminMusicList.jsx:133 | the positions of neighbouring cards differ by one |
| Feedback.FailureText | src/components/PendingMusicCard.jsx:59-63 | a thrown error shows its own message; a refused envelope shows its `message`, or an empty text when it has none |
| PendingCard.LocalExtractAgrees | src/components/PendingMusicCard.jsx:29-33 | the card's copy of the extractor gives the shared extractor's result on every string |
| PendingCard.LocalExtractVideoId | src/components/PendingMusicCard.jsx:29-33 | a found id has 11 id characters |
| PendingCard.Thumbnail | src/components/PendingMusicCard.jsx:36-44 | the card shows the shared thumbnail of its link when there is one, and the placeholder image otherwise |
| PendingCard.PendingMusicCard.constructor | src/components/PendingMusicCard.jsx:25-26 | a card starts not loading and with no message |
| PendingCard.PendingMusicCard.Begin | src/components/PendingMusicCard.jsx:47-52 | the buttons are disabled, the message cleared, and the approve or reject call is made with the card's id |
| PendingCard.PendingMusicCard.Settle | src/components/PendingMusicCard.jsx:54-66 | success shows the decision's text and schedules `onMusicProcessed(id)`; failure shows the error and schedules nothing; `loading` ends false |
| PendingCard.Decide | src/components/PendingMusicCard.jsx:47-90 | a whole action calls the matching service method, ends with the buttons enabled, and schedules the callback exactly when the server accepted |
| PendingCard.DecideInList | src/components/PendingMusicCard.jsx:54-58 | an accepted decision removes every record with the card's id from the list; a refused or failed one leaves the list as it was |
| AdminCard.ExtractOrThrowAgrees | src/components/AdminMusicCard.jsx:57-66 | the card's extractor succeeds exactly when the shared one finds an id, with the same id; otherwise it throws `URL do YouTube inválida` |
| AdminCard.ExtractOrThrow | src/components/AdminMusicCard.jsx:57-66 | a returned id has 11 id characters; a failure is always `URL do YouTube inválida` |
| AdminCard.FetchYouTubeVideoData | src/components/AdminMusicCard.jsx:77-106 | the oEmbed title and thumbnail when the lookup answered, otherwise `Vídeo ` + id and the maxresdefault thumbnail; views lie in `[100000, 10100000)` |
| AdminCard.FallbackThumbnailIsWatchThumbnail | src/components/AdminMusicCard.jsx:92-96 | the fallback thumbnail of an id is the shared helper's thumbnail of the id's watch link |
| AdminCard.UpdateData | src/components/AdminMusicCard.jsx:147-152 | the update carries exactly the keys `youtube_url`, `titulo`, `thumbnail` and `visualizacoes` |
| AdminCard.PlanUpdateMeaning | src/components/AdminMusicCard.jsx:131-144 | a blank draft is refused with `Por favor, insira um link válido`; a draft without an id is refused with `URL do YouTube inválida`; any other draft is sent untrimmed, with the video data of the shared extractor's id |
| AdminCard.PlanUpdate | src/components/AdminMusicCard.jsx:131-144 | a refusal carries one of the two messages the handler shows, and a sent update carries the draft as typed, which is non-empty |
| AdminCard.MergedUpdateReachesCard | src/components/AdminMusicCard.jsx:167-169 | the props the list passes for the merged record carry the new URL, title and views under the same id |
| AdminCard.OrDefault | src/components/AdminMusicCard.jsx:27-31 | a default parameter replaces exactly an undefined prop: an undefined prop gives the default, any other value is kept |
| AdminCard.Draft | src/components/AdminMusicCard.jsx:189 | the draft is the current link when it is a non-empty string, and `''` otherwise |
| AdminCard.UrlProp | src/components/AdminMusicCard.jsx:31 | the `youtubeUrl` prop becomes a link exactly when it is a string, with that text; the link is truthy exactly when the prop is a non-empty string |
| AdminCard.AdminMusicCard.constructor | src/components/AdminMusicCard.jsx:36-45 | the card starts idle with no message and both dialogs closed; the current fields come from the props with their defaults, and the draft is the link or `''` |
| AdminCard.AdminMusicCard.Thumbnail | src/components/AdminMusicCard.jsx:69-75 | the video's thumbnail when the current link has an id, and the current thumbnail otherwise |
| AdminCard.AdminMusicCard.CanSave | src/components/AdminMusicCard.jsx:366 | Save is enabled exactly when no request runs and the draft is not all whitespace |
| AdminCard.AdminMusicCard.OpenEdit | src/components/AdminMusicCard.jsx:188-192 | the dialog opens with the draft reset to the current link and the message cleared |
| AdminCard.AdminMusicCard.CloseEdit | src/components/AdminMusicCard.jsx:194-197 | the dialog closes and the draft is reset; the message stays |
| AdminCard.AdminMusicCard.EditDraft | src/components/AdminMusicCard.jsx:354-356 | typing changes the draft only |
| AdminCard.AdminMusicCard.ConfirmDelete | src/components/AdminMusicCard.jsx:180-182 | only the confirmation dialog opens |
| AdminCard.AdminMusicCard.CancelDelete | src/components/AdminMusicCard.jsx:184-186 | only the confirmation dialog closes |
| AdminCard.AdminMusicCard.BeginDelete | src/components/AdminMusicCard.jsx:108-113 | the buttons are disabled, the message cleared, and `deleteMusic(musicId)` is called |
| AdminCard.AdminMusicCard.SettleDelete | src/components/AdminMusicCard.jsx:115-128 | success shows `Música removida com sucesso!` and schedules `onMusicDeleted(id)`; failure shows the error; either way `loading` ends false and the dialog closes |
| AdminCard.AdminMusicCard.BeginUpdate | src/components/AdminMusicCard.jsx:131-154 | a refused draft shows its message, makes no call and leaves `loading` as it was; a sent one disables the buttons and calls `updateMusic(musicId, updateData)` |
| AdminCard.AdminMusicCard.SettleUpdate | src/components/AdminMusicCard.jsx:156-177 | success shows the success text, closes the dialog, sets the four current fields and hands `updateData` to `onMusicUpdated` if there is one; failure shows the error and keeps the fields and the dialog; `loading` ends false |
| AdminCard.EditInList | src/components/AdminMusicCard.jsx:131-178 | an accepted edit leaves the card showing the new link and its video's thumbnail, and the list's record renders the same link |
| AdminCard.BlankHasNoId | src/components/AdminMusicCard.jsx:132-141 | a blank draft holds no video id, so the blank guard comes first |
| LoginForm.AttemptError | src/components/LoginForm.jsx:48-52 | a refused result shows its message if truthy, and otherwise `Erro ao fazer login`; a throw shows its message |
| LoginForm.LoginFormState.constructor | src/components/LoginForm.jsx:16-21 | the form starts with two empty fields, not loading and with no error |
| LoginForm.LoginFormState.HandleInputChange | src/components/LoginForm.jsx:23-29 | only the named field changes |
| LoginForm.LoginFormState.BeginSubmit | src/components/LoginForm.jsx:34-43 | an empty field gives `Por favor, preencha todos os campos` and no call, leaving `loading` unchanged; otherwise the error is cleared, `loading` set, and the form data sent |
| LoginForm.LoginFormState.SettleSubmit | src/components/LoginForm.jsx:43-55 | success calls `onLoginSuccess` if given and keeps the error; failure shows the error; `loading` ends false |
| LoginForm.WhitespaceFieldsAreSent | src/components/LoginForm.jsx:34 | fields of spaces pass the guard |
| LoginForm.SubmitWithProvider | src/components/LoginForm.jsx:31-56 | a submit through the provider signs in exactly when the server confirms; otherwise the error line is the server's message, the wrapped transport error, or the default, and the user is unchanged |

## Left out

- JSX rendering, MUI styling and the purely presentational components. These are `Header`, `App`, the `AdminView` tabs, `MusicList` with its mock data, and `MusicCard`.
- `SuggestionCard`: its submit only logs and clears the field, and never calls the service.
- `formatViews`: it depends on floating-point division and `toFixed` rounding.
- The oEmbed request and `Math.random`. They are inputs of `AdminCard.FetchYouTubeVideoData`: the lookup's outcome, and the random draw as a whole number below 10000000.
- axios itself: base URL use, how the timeout is enforced, and how requests are sent. Only its defaults and the two interceptors are modelled.
- `localStorage`, modelled as a string map. `JSON.stringify` is an opaque function passed to the provider.
- `process.env`, which is a parameter of `Api.BaseUrl`.
- Timers. The 1500 ms `setTimeout` becomes the id the handler returns as scheduled, and the composite methods run the callback at once.
- Concurrency and the React lifecycle. This covers clicks before a re-render, replies after unmount, dependency arrays, and `useAuth` outside a provider.
- Console logging, and date formatting in the pending card.
- The `try/catch` around `url.match` in `src/utils/youtubeUtils.js:11-20`. It only guards against non-string input, which the types here rule out.
- Malformed envelopes: a reply without `success` or `data`, or with data of the wrong shape. Envelopes are typed.
- JsCore.ToText: numbers are modelled as exact unbounded integers, so fractional ids are not rendered. `NatText` and `IntText` agree with `${n}` only for safe integers (magnitude at most 2^53 - 1), which database ids are. Above that a JavaScript number cannot hold the value exactly, and from 1e21 up `${n}` uses exponent form (`1e+21`).
- YouTube.MatchGroup: strings are sequences of Unicode code points, while the expression has no `u` flag and so works on UTF-16 code units. A character outside the Basic Multilingual Plane is one id character here and two in the browser, so for text holding such characters the id found (and whether one is found) can differ. For text within the Basic Multilingual Plane both counts agree.
- AdminCard.UrlProp: a `youtubeUrl` prop that is not a string counts as absent. In the source, a truthy non-string would reach `url.match` and throw.
- `position` on the admin card: it is a prop the card only displays.
- Pages below 1: `HandlePageChange` requires `page >= 1`, which is all the pagination control offers.
- AdminCard.EditInList: it covers only the path where the callback is passed, the draft holds an id and the server accepts. The other paths are stated by `BeginUpdate` and `SettleUpdate`.
