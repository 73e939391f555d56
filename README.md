# EngineQ curation core in Dafny

EngineQ curates music for businesses. A subscriber's prompt describes the place and the
mood; the back end (acura) turns it into a search query with a language model, either
reuses tracks it already holds or discovers new ones through Spotify playlists and
YouTube videos found by Brave search, and stores them as suggestions in a daily playlist.
Curation requests arrive on a message queue. The dashboard (ui) plays the suggestions
from a client-side queue behind a license-cookie gate. This project models that core and
proves what it promises:

- `Chain`: the discovery graph. The six nodes and the driver loop run over a mutable
  `GraphState`, with the retry guard and the retry back-edges. It also covers the
  reuse-or-discover router, the reuse filter, first-match playlist selection, the explicit
  filter and per-track video acceptance.
- `Mq`: how a queue message is settled (ack, reject without requeue, bare reject). The
  message is a settle-once object.
- `Dao`: the persistence layer as a class holding the tables. Tables are maps keyed by
  primary key. The unique keys (title, artist) of tracks and (sid, created_at) of
  playlists are class invariants. Serial ids are sequence counters.
- `LegacyDao`: the older DAO package (acura/internal/models/dao/__init__.py) where it
  differs from `Dao`. Its get_subscriber_by_license, get_subscriber_prompts_by_sid,
  create_or_get_playlist, create_track and add_track_to_suggestions run the same queries
  as their namesakes in dao.py, so the `Dao.Store` members model both.
- `BraveSearch`: the retry loop with exponential backoff on HTTP 429 (section 4 of
  RFC 6585), the query and the merge of web and video results.
- `Spotify`: the token cache and the choice between the client-credentials grant (section
  4.4 of RFC 6749) and the refresh grant (section 6 of RFC 6749). It also covers playlist
  page accumulation with an optional limit, rebuilding the next-page target, and the
  argument check of the playlist search.
- `DashboardStore`, `PlaybackRoute`, `Middleware`, `Auth`, `VideoPlayer`,
  `PlaybackQueueTrack`: the dashboard's queue store, the playback upsert, the request
  gate, the sign-in actions, the Spotify URI normalisation and title truncation.
- `GenerateModels`, `DbmateCli`: the two scripts' URL rewriting, header stripping, asset
  choice, zip member choice and command construction.
- `Wrappers`, `Text`, `Schema`: Option/Result, the JavaScript/Python string operations
  used by the modules above, the table rows and the reading of uuid text.

Every external service is an input. This covers the language-model agents, embeddings,
Levenshtein ratio, cosine distance, Spotify and Brave responses, `lower()` and the clock.
In `Chain` they are fields of an `Env` value. A raised exception is a `Failure` or a
`Raise` step naming it.

## Model

| member | source | states |
|---|---|---|
| Chain.GraphState.constructor | acura/internal/chain.py:37-42 | A new graph state has no search query, retry count 0 and no error info. |
| Chain.GenerateSearchQueryRun | acura/internal/chain.py:76-91 | With retry_count >= 3 the node raises before reading prompts or asking the agent. With no prompts it raises. Otherwise the agent is asked with prompts[0].prompt, whatever error_info holds. Its answer becomes the query and leads to the router, and a failed agent raises. Retry count and error info are unchanged. |
| Chain.DiscoverInIntegers | acura/internal/chain.py:276-279 | The router's real-valued test holds iff similar < 100 or 2·recent > similar. The ratio is 0 for an empty similar set. |
| Chain.ReuseNeedsEnoughTracks | acura/internal/chain.py:278-280 | Reuse is chosen only with at least 100 similar tracks of which at most half were suggested in the past hour. |
| Chain.CountSimilar | acura/internal/chain.py:273-275 | The count of past-hour suggestions with a similar tid is at most the number of suggestions, and is 0 iff none has a similar tid. |
| Chain.SourceSelectionRouterRun | acura/internal/chain.py:270-280 | A failed query embedding raises. Otherwise the similar ids are exactly those closer than 0.5, without repeats. The past-hour read is keyed by the subscriber id, as the code passes it. The next node is discovery iff the router test holds, and reuse with the embedding otherwise. |
| Chain.FilterNotIn | acura/internal/chain.py:310-313 | The filtered list holds exactly the similar ids not among the excluded tids, and is no longer than its input. |
| Chain.FilterNotInConcat | acura/internal/chain.py:312-313 | Filtering distributes over concatenation, so the filter keeps the original order. |
| Chain.Links | acura/internal/chain.py:317-320 | The suggestions created for a list of tids are one per known tid, all for the playlist, stamped now. When every tid is known there is one per tid. |
| Chain.AttachSkippingFailures | acura/internal/chain.py:316-325 | Corrected loop: each tid is attached in order and a failed insert is skipped. The count is the successful inserts. Without a playlist nothing is added and the count is 0. |
| Chain.AttachAsWritten | acura/internal/chain.py:316-325 | As written: any failed insert (a missing playlist or an unknown tid) ends with AttributeError. Success means every tid was known, and then there is one link per tid. |
| Chain.LinksFull | acura/internal/chain.py:317-320 | One link per tid implies every tid named a track. |
| Chain.LinksSnoc | acura/internal/chain.py:317-320 | The links of tids + [t] are those of tids followed by the link of t. |
| Chain.LinksAll | acura/internal/chain.py:317-320 | With every tid known, there is one link per tid, and the i-th is (pid, i-th tid, uuid + i, now). |
| Chain.ReuseSelection | acura/internal/chain.py:304-313 | The reuse node makes a second similar read and gets or creates the day's playlist, present iff the subscriber exists. The playlist table then changes exactly as create_or_get_playlist changes it: unchanged when the (sid, today) row exists or the subscriber does not, otherwise with the new row. Its sequence advances by 1. The node reads the past hour by subscriber id, as the code passes it, and keeps the similar ids not suggested in that hour. The similar and the filtered list each hold distinct ids of embedded tracks in ascending distance. The filtered list is as long as the set of similar ids minus the past-hour tids. Tracks, suggestions, their sequences, subscribers and prompts are unchanged. |
| Chain.RankedFilter | acura/internal/chain.py:310-313 | Filtering a list of distinct embedded track ids in ascending distance leaves it distinct and in ascending distance. |
| Chain.ReuseExistingDataRun | acura/internal/chain.py:293-325 | Corrected node: the filtered ids are exactly the similar tracks not suggested in the past hour, without repeats, in ascending distance, and as many as that set. The playlist table changes only by the get-or-create of the (sid, today) row. For a subscriber, the i-th appended suggestion is (that playlist's id, i-th filtered id, the i-th uuid drawn, now), earlier rows are kept, and the node ends with their number. For an unknown subscriber it ends with 0, and it adds no suggestion and draws no uuid. Tracks, subscribers and prompts are unchanged. |
| Chain.AttachKnown | acura/internal/chain.py:316-325 | When every tid names a track and the playlist exists, the suggestions become the old rows followed by Links: the i-th new row is (pid, i-th tid, old uuid + i, now), and the count is their number. Without a playlist nothing is added, no uuid is drawn and the count is 0. Playlists, tracks and their sequences are unchanged. |
| Chain.ReuseExistingDataRunAsWritten | acura/internal/chain.py:293-325 | As written: an unknown subscriber with some similar track and no recent suggestion makes the node raise AttributeError, not end. |
| Chain.FilterNothing | acura/internal/chain.py:312-313 | Excluding nothing keeps the list. |
| Chain.SearchSpotifyPlaylistsRun | acura/internal/chain.py:100-110 | The node raises PlaylistSearchFailed exactly when there is no query, authorization fails or the search reply is not a page. An empty page raises retry_count by exactly 1, sets error_info to the no-playlists note with the query and goes back to query generation. A non-empty page leads to matching with its items, with retry count and error info unchanged. The node never ends the run. Without a query the service is untouched; with one its token fields are AfterAuth of the old ones. |
| Chain.FirstMatch | acura/internal/chain.py:142-162 | The result is the first non-null playlist the classifier accepts. Classifier errors count as a non-match. |
| Chain.MatchQueryWithSpotifyPlaylistRun | acura/internal/chain.py:139-171 | The matched playlist is FirstMatch. Without one, retry_count rises by exactly 1 with the no-match note and the run goes back to query generation. With one, retry count and error info are unchanged. The node passes on the playlist's full track list (Collect of its pages) iff authorization succeeds and the pages collect, and raises PlaylistTracksFailed otherwise. The explicit filter is applied lazily by the next node. Without a match the service is untouched; with one its token fields are AfterAuth of the old ones. |
| Chain.FirstAcceptedVideo | acura/internal/chain.py:192-205 | The chosen hit is the first whose lower-cased title has similarity > 0.75 with "name - artist" and whose url contains "watch". When none is chosen, no hit qualifies. |
| Chain.ChooseVideo | acura/internal/chain.py:192-219 | The inner loop, which breaks at the first accepted hit, chooses exactly FirstAcceptedVideo. |
| Chain.AddedAtMostClean | acura/internal/chain.py:183-225 | At most one video is saved per track and none for explicit tracks, so n_added_tracks is at most the number of non-explicit tracks, itself at most the number of tracks. |
| Chain.NoPlaylistNoSave | acura/internal/chain.py:182-218 | Without a playlist row no track is ever saved. |
| Chain.NoPlaylistCountsZero | acura/internal/chain.py:182-218 | Without a playlist row a successful loop counts 0. |
| Chain.ExplicitSkipped | acura/internal/chain.py:166 | An explicit track is skipped before any search. |
| Chain.Verdicts | acura/internal/chain.py:183-223 | There is one verdict per track, in order, and the i-th is VerdictOf the i-th track. |
| Chain.OutcomeIsTally | acura/internal/chain.py:183-225 | The loop's outcome VerifyOutcome equals the tally of the per-track verdicts. |
| Chain.TallyStep | acura/internal/chain.py:183-223 | One loop step: a failing track aborts the run, a saved one adds 1 and a skipped one adds 0. |
| Chain.VerifyAndSave | acura/internal/chain.py:185-223 | One track is handled as VerdictOf says. A null track, a missing artist, a failed search, a failed embedding, a null or empty image list and a missing playlist each fail. A saved verdict carries the row (name, first artist, duration, video url) and the track embedding. The tables then change exactly as SaveTrack says, and otherwise not at all. Playlists, subscribers and prompts are unchanged. |
| Chain.SaveTrack | acura/internal/chain.py:214-217 | Saving a verified track leaves a track with its title and artist in the table, and the track sequence advances by 1. Earlier track rows and suggestions are kept and at most one suggestion is appended. An appended suggestion is for the playlist and names a track with that title and artist and the search embedding. |
| Chain.SaveVideo | acura/internal/chain.py:214-217 | The write of an accepted video (create and link the track, then store its embedding) changes the tables exactly as SaveTrack says, and the playlists not at all. |
| Chain.SavesStep | acura/internal/chain.py:185-219 | One step of the saving loop: a failed verdict stops it, a saved one applies SaveTrack and a skipped one changes nothing. |
| Chain.SavesKeep | acura/internal/chain.py:185-219 | Saving a run of verdicts keeps every track id below the track sequence and keeps every earlier track row. |
| Chain.SavedTrackStored | acura/internal/chain.py:185-219 | A track saved before any failure is in the track table by title and artist when the loop ends. |
| Chain.SavesCount | acura/internal/chain.py:185-219 | Every saved verdict draws one track id, a duplicate too, so a successful loop advances the track sequence by exactly its count. Suggestions are only appended. |
| Chain.VerifyAndSaveAt | acura/internal/chain.py:185-223 | One iteration takes the loop state one track on: the outcome still to come and the tables still to come. On a failure the outcome is that failure and the tables are final. |
| Chain.VerifyAndSaveAll | acura/internal/chain.py:183-225 | The loop's result is VerifyOutcome of the track list: the first failure, or the number of saved tracks. With a playlist the tables end as Saves of the verdicts says: each saved verdict applied in order, stopping at the first failure. Without one the tables are unchanged. Playlists, subscribers and prompts are unchanged. |
| Chain.OutcomeFaults | acura/internal/chain.py:185-223 | The loop fails only with a null track, a track without artists, or a failed search and save. |
| Chain.SearchAndVerifyYoutubeAndSaveRun | acura/internal/chain.py:181-225 | The node gets or creates the (sid, today) playlist first. It exists afterwards iff the subscriber exists; an existing one leaves the playlist table unchanged and a new one is the only row added. The node then ends with VerifyOutcome's count, never negative, or raises its failure (a null track, a missing artist or a failed track). The tables end as Saves of the verdicts with that playlist, or unchanged without one. When it ends, the track sequence has advanced by exactly the count, and suggestions only grow. |
| Chain.RunGraph | acura/internal/chain.py:329-350 | The driver runs nodes until one ends or raises, and terminates. The trace of steps starts at query generation, follows the graph's edges and ends at End or Raise, which gives the result. The result is MaxRetriesExceeded iff the retry count reached 3, and then the agent was called exactly 3 times; it is called at most 3 times in any run. A count is never negative, and the track ids drawn plus the suggestions added are at least the count. |
| Chain.PathLast | acura/internal/chain.py:329-350 | A finished run's last step follows a node. A count comes from the reuse or the verification node and is not negative, and MaxRetriesExceeded comes right after query generation. |
| Chain.Curate | acura/internal/chain.py:353-358 | Curation runs the graph from a fresh state. The trace and the result are as for RunGraph: at most 3 query-agent calls, exactly 3 when the result is MaxRetriesExceeded, and a count that is never negative and no larger than the track ids drawn plus the suggestions added. |
| Mq.ExtractLicenseKey | acura/internal/mq.py:97-106 | Malformed JSON gives None. An object's "license" value is returned. A non-object body raises TypeError and a missing key raises KeyError. |
| Mq.Disposition | acura/internal/mq.py:64-94 | The message is acked iff curation succeeds with more than 0 items. It gets a bare reject iff curation succeeds with 0 items. A missing or falsy license, an unknown subscriber or a failed curation each give reject(requeue=False). |
| Mq.NeverRequeued | acura/internal/mq.py:81-92 | No outcome requeues the message, with the library's bare-reject default kept as the named constant LIBRARY_DEFAULT_REQUEUE = false. |
| Mq.IncomingMessage.Settle | acura/internal/mq.py:82-92 | A message settles once. A second ack or reject raises MessageProcessError and changes nothing. |
| Mq.ProcessMessage | acura/internal/mq.py:64-94 | Processing never propagates an exception. A fresh message is settled exactly once, with Disposition's action. An error is logged, then a MessageProcessError when the message was already settled. |
| Dao.Store.constructor | acura/internal/models/codegen/models.py:42 | The store starts with the given subscribers and prompts and empty playlist, track and suggestion tables, and satisfies the key invariants. |
| Dao.Store.GetSubscriberByLicense | acura/internal/models/dao.py:16-22 | The license is compared as a uuid: a parameter that is not uuid text raises InvalidUuid. Otherwise the result is None iff no subscriber's license is that uuid, and otherwise the one subscriber whose license is. Two such subscribers raise MultipleResultsFound. |
| Dao.Store.GetSubscriberPromptsBySid | acura/internal/models/dao.py:28-34 | The result holds exactly the prompts of that subscriber. |
| Dao.Store.CreateOrGetPlaylist | acura/internal/models/dao.py:40-65 | The result is Some iff the sid is a subscriber. Then it is the unique (sid, today) playlist: an existing one is returned unchanged, otherwise one is inserted. The new table is WithPlaylistFor of the old one. Only the playlist table and its sequence change. |
| Dao.Store.AddTrackToPlaylist | acura/internal/models/dao.py:68-75 | A taken (title, artist) gives None and adds nothing. A new track is created and linked to the playlist and its id returned, or the link insert raises a foreign-key error for an unknown playlist. |
| Dao.Store.GetTracksByIds | acura/internal/models/dao.py:81-87 | The result holds exactly the requested ids that name tracks. |
| Dao.Store.UpdateTrackEmbedding | acura/internal/models/dao.py:90-101 | The count is 1 iff the id names a track, else 0. Only that row's search_embedding changes. |
| Dao.Store.GetSimilarTrackIds | acura/internal/models/dao.py:104-115 | The result holds exactly the tracks with distance < threshold (default 0.5), without repeats, in ascending distance. |
| Dao.Store.Closest | acura/internal/models/dao.py:113 | A non-empty set of similar tracks has a closest member, so the order is well defined. |
| Dao.Store.SelectionStep | acura/internal/models/dao.py:104-115 | Appending a closest remaining track keeps the selection distinct, sorted by distance and covering exactly the similar tracks. |
| Dao.Store.NSimilarTracksCountAsWritten | acura/internal/models/dao.py:118-130 | As written: the count query orders an aggregate by an ungrouped column, so it always fails. |
| Dao.Store.NSimilarTracksCount | acura/internal/models/dao.py:118-130 | Corrected count: it succeeds with the number of tracks closer than 0.5. |
| Dao.Store.CountAgreesWithSimilarIds | acura/internal/models/dao.py:104-130 | The corrected count equals the length of get_similar_track_ids' result at its default threshold. |
| Dao.Store.CreateTrack | acura/internal/models/dao.py:133-156 | For a fresh (title, artist) a row with title, artist, duration and uri is inserted and returned. For a taken pair the result is None, not the existing row, and tracks are unchanged. The track sequence advances either way. |
| Dao.Store.GetPastNHoursSuggestions | acura/internal/models/dao.py:162-174 | The result holds exactly the suggestions with that pid whose added_at is later than now minus the given hours (default 1). |
| Dao.Store.AddTrackToSuggestions | acura/internal/models/dao.py:177-189 | One new row (pid, tid) is appended, with no uniqueness on the pair, when both keys exist. Otherwise it raises a foreign-key error and adds nothing. The uuid sequence advances either way. |
| LegacyDao.AddTrackToPlaylist | acura/internal/models/dao/__init__.py:60-66 | A suggestion is inserted only when the track was created, and the function returns nothing in every case. An unknown playlist raises. The track sequence advances by 1 and the playlist sequence stays put. The uuid sequence is unchanged for a taken (title, artist), and advances by 1 otherwise. |
| BraveSearch.MakeRequest | acura/internal/services/brave_search.py:38-63 | The loop's result is the retry specification Run. It makes at most max(0, max_retries) requests (default 5). The i-th sleep lasts 2^i seconds: one per retried attempt, none after the final status. |
| BraveSearch.SkipRetried | acura/internal/services/brave_search.py:42-58 | Retried attempts (429 or a transport error before the last attempt) do not change the outcome. |
| BraveSearch.FirstStatusDecides | acura/internal/services/brave_search.py:46-53 | The first non-429 status decides: a 2xx returns its data immediately and any other status raises without retry. |
| BraveSearch.LastTransportErrorReraised | acura/internal/services/brave_search.py:55-60 | A transport error on the last allowed attempt is re-raised as itself. |
| BraveSearch.AlwaysThrottled | acura/internal/services/brave_search.py:46-50 | A 429 on every attempt ends with the generic "max retries exceeded" error. |
| BraveSearch.NoBudget | acura/internal/services/brave_search.py:42 | With max_retries <= 0 no request is made and the generic error is raised. |
| BraveSearch.SearchRequest | acura/internal/services/brave_search.py:66-77 | The query sent is "site:youtube.com " followed by the query, to /res/v1/web/search with the requested count. |
| BraveSearch.MergeResults | acura/internal/services/brave_search.py:79-85 | The results are the web results followed by the video results, each only when present. |
| BraveSearch.SearchYoutubeForVideos | acura/internal/services/brave_search.py:66-85 | The search's outcome is SearchOutcome: the merged results of the request's data, or the request's fault. |
| Spotify.CollectIsPrefix | acura/internal/services/spotify.py:60-86 | The collected tracks extend what was already found with a prefix of the concatenated page tracks. |
| Spotify.CollectWithinLimit | acura/internal/services/spotify.py:61-73 | With a positive total_limit at most total_limit tracks are collected. |
| Spotify.CollectAll | acura/internal/services/spotify.py:60-86 | Without a limit, on pages linked until the last, the result is every page's tracks concatenated in order. |
| Spotify.SpotifyService.constructor | acura/internal/services/spotify.py:19-21 | The service starts with no bearer token, refresh token or expiration. |
| Spotify.SpotifyService.RequestNewToken | acura/internal/services/spotify.py:176-194 | The client-credentials grant stores the access token, expiration now + expires_in and the response's refresh token (or none). A rejected grant raises and changes nothing. |
| Spotify.SpotifyService.RefreshAccessToken | acura/internal/services/spotify.py:197-225 | The refresh grant sends the held refresh token with scope playlist-read-private. The old refresh token is kept unless the response brings a new one. |
| Spotify.SpotifyService.SetToken | acura/internal/services/spotify.py:164-173 | The refresh grant is sent iff a refresh token is held; otherwise client credentials are sent. A grant with expires_in > 0 leaves the token unexpired; a rejection changes nothing. A grant makes the token fields Renewed: the new access token and expiry, and the answer's refresh token when the field is present. Without the field a refresh grant keeps the held refresh token and a client-credentials grant leaves none. |
| Spotify.SpotifyService.Authorize | acura/internal/services/spotify.py:155-161 | The token is requested only when it is expired, that is when no bearer token is held or now >= expiration; an unexpired token succeeds and changes nothing. Authorization succeeds iff the token is unexpired or the grant SetToken sends is granted. Then the access token and expiration now + expires_in are stored. A rejected grant fails with its HTTP status and changes nothing. The token fields always end as AfterAuth of the old ones, the refresh token included. |
| Spotify.SpotifyService.GetTrackById | acura/internal/services/spotify.py:27-44 | When authorization succeeds the result is TrackResult of the reply to /v1/tracks/{id}: its "tracks" value, MissingKey when that is absent, or the HTTP error. When authorization fails the call fails with the token error. A success is always the reply's tracks value. The three token fields then equal AfterAuth: kept while the token is live or the grant is rejected, otherwise Renewed by the endpoint's answer. |
| Spotify.FetchPages | acura/internal/services/spotify.py:59-86 | The paging loop's result is Collect of the pages, and the requested paths are the prescribed trail: the tracks path, then each followed next link. |
| Spotify.SpotifyService.GetPlaylistTracks | acura/internal/services/spotify.py:47-86 | When authorization succeeds the result is Collect of the pages; when it fails the call fails with the token error and requests nothing. The first target is /v1/playlists/{id}/tracks. Each later target is the previous page's next path, with "?query" only for a non-empty query. The three token fields then equal AfterAuth: kept while the token is live or the grant is rejected, otherwise Renewed by the endpoint's answer. |
| Spotify.SpotifyService.SearchPlaylists | acura/internal/services/spotify.py:123-152 | With neither query nor next_url it raises ValueError before authorizing. Otherwise a call is made iff authorization succeeds, and a failed authorization fails with the token error. A next_url is followed; a query is searched as type playlist with the limit (default 10). The result succeeds iff the reply is a page, and is then its items and next link. An HTTP error fails with its status. Whenever a query or a link is given, the token fields end as AfterAuth of the old ones. |
| DashboardStore.Merge | ui/src/stores/dashboard/dashboard-store.tsx:71-73 | `set` replaces exactly the fields a patch carries, and an empty patch changes nothing. |
| DashboardStore.ToggleMuted | ui/src/stores/dashboard/dashboard-store.tsx:75-80 | toggleMuted flips isMuted only. |
| DashboardStore.Pause | ui/src/stores/dashboard/dashboard-store.tsx:158-159 | pause sets isPlaying false only. |
| DashboardStore.UpdateLastFetchTimestamp | ui/src/stores/dashboard/dashboard-store.tsx:150-157 | Only the timestamp is stamped. |
| DashboardStore.SetQueue | ui/src/stores/dashboard/dashboard-store.tsx:92-119 | The queue is replaced and stamped. From an empty queue the current id and suggestion become the new head's (or null). Otherwise a non-null current is kept. |
| DashboardStore.AddToQueue | ui/src/stores/dashboard/dashboard-store.tsx:120-149 | The incoming items whose id is not queued are appended in order, and with none the state is unchanged. A non-null current is kept; a null one takes the grown queue's head. |
| DashboardStore.SetCurrentSuggestionId | ui/src/stores/dashboard/dashboard-store.tsx:170-193 | The queue skips to the target only when its index is greater than the current one's. The current id becomes the argument and the current suggestion the queued entry with it, if any. |
| DashboardStore.FilterNew | ui/src/stores/dashboard/dashboard-store.tsx:124-129 | The filter keeps exactly the items whose id is not already queued. |
| DashboardStore.FilterNewConcat | ui/src/stores/dashboard/dashboard-store.tsx:127-129 | The filter distributes over concatenation, so order is kept. |
| DashboardStore.FindIndex | ui/src/stores/dashboard/dashboard-store.tsx:173-178 | The result is the first index holding the id, or -1 when there is none. |
| DashboardStore.AddToQueueIdempotent | ui/src/stores/dashboard/dashboard-store.tsx:124-133 | Adding the same batch a second time changes nothing. |
| DashboardStore.AddToQueueKeepsDistinct | ui/src/stores/dashboard/dashboard-store.tsx:124-135 | Adding a batch with distinct ids to a queue with distinct ids leaves the queue's ids distinct. |
| DashboardStore.BatchNotDeduplicated | ui/src/stores/dashboard/dashboard-store.tsx:127-135 | A batch repeating a new id queues both copies. |
| DashboardStore.SetCurrentKeepsSuffix | ui/src/stores/dashboard/dashboard-store.tsx:180-184 | After setCurrentSuggestionId the queue is a suffix of the old queue. |
| DashboardStore.SkipAheadToTarget | ui/src/stores/dashboard/dashboard-store.tsx:180-188 | Skipping ahead puts the target at the head, and it becomes the current suggestion. |
| DashboardStore.DefaultState | ui/src/stores/dashboard/dashboard-store.tsx:59-66 | The default state has an empty queue, is not playing, not muted, has nothing current and timestamp 0. |
| DashboardStore.Store.Next | ui/src/stores/dashboard/dashboard-store.tsx:81-91 | next leaves the old tail as the queue and plays iff the tail is non-empty. The current suggestion moves to the tail's head, or is kept when the tail is empty. |
| DashboardStore.Store.Play | ui/src/stores/dashboard/dashboard-store.tsx:160-169 | play keeps the queue and plays iff it is non-empty. A non-empty queue's head becomes current. |
| PlaybackRoute.PlaybackTables.Get | ui/src/app/api/update-last-played/route.ts:21-52 | The subscriber of the first row whose license is the cookie's uuid gets its playback row set to sid (or null), by update or insert. This leaves one row per subscriber and the other rows unchanged. A missing cookie, a cookie that is not uuid text, an unknown license, a sid that is not uuid text (MalformedSuggestion) or an unknown suggestion throws; checked in that order, none of them changes the table. The row is set to the sid's uuid, or to null when sid is absent. Success always replies 200 with a null body. |
| PlaybackRoute.PlayTwice | ui/src/app/api/update-last-played/route.ts:36-43 | Two plays in a row leave the second suggestion recorded, as the uuid its text spells. |
| PlaybackRoute.SuggestionParam | ui/src/app/api/update-last-played/route.ts:29-48 | An absent sid writes null. A sid that reads as a uuid writes that uuid's digits. Any other text makes the write raise. |
| Middleware.Gate | ui/src/middleware.ts:21-35 | A missing or empty cookie gets 403 {error: "Forbidden"} on a path containing "/api" and a redirect to / otherwise. Any non-empty cookie passes. |
| Middleware.Handle | ui/src/middleware.ts:37-39 | Only /dashboard/* and /api/* are gated. |
| Middleware.PassesIff | ui/src/middleware.ts:21-39 | A request passes iff it has a non-empty cookie or lies outside the matcher. |
| Middleware.ApiRefused | ui/src/middleware.ts:24-28 | Every unauthenticated /api request gets 403. |
| Middleware.DashboardPageWithApiInPath | ui/src/middleware.ts:26 | The API test is a substring test: /dashboard/apidocs without a cookie gets 403, not a redirect. |
| Auth.CookieJar.Check | ui/src/actions/auth.ts:9-22 | check is true iff a license cookie is present, the lookup succeeds and some subscriber's license is the uuid the cookie spells. A cookie that is not uuid text makes the query raise, so check is false. |
| Auth.CookieJar.Signin | ui/src/actions/auth.ts:24-47 | A missing or empty key, a key that is not uuid text, or a failed lookup gives "Please provide a valid key.". An unknown key gives "License key not found.". Neither sets a cookie. A known key sets the http-only lck cookie to the printed form (Schema.UuidText) of the first matching row's license, not to the key as typed, and redirects to /dashboard. |
| Auth.CookieJar.Signout | ui/src/actions/auth.ts:49-53 | signout deletes lck and redirects to /. |
| Auth.SigninThenCheck | ui/src/actions/auth.ts:9-46 | After a successful sign-in, check holds on the same table. |
| Auth.SignoutThenCheck | ui/src/actions/auth.ts:9-53 | After sign-out, check is false whatever the table holds. |
| VideoPlayer.ToSpotifyUri | ui/src/components/dashboard/video-player.tsx:70-81 | A uri with neither /embed nor the open.spotify.com prefix is unchanged. The other kinds become a spotify: uri. |
| VideoPlayer.EmbedLink | ui/src/components/dashboard/video-player.tsx:73-76 | https://open.spotify.com/embed/kind/id becomes spotify:kind:id. |
| VideoPlayer.OpenLink | ui/src/components/dashboard/video-player.tsx:77-80 | https://open.spotify.com/kind/id becomes spotify:kind:id. |
| VideoPlayer.EmbedAndOpenAgree | ui/src/components/dashboard/video-player.tsx:73-80 | The embed link and the web link of a track load the same uri. |
| VideoPlayer.MissingSegment | ui/src/components/dashboard/video-player.tsx:79-80 | A web link with one path segment formats the missing one as "undefined". |
| PlaybackQueueTrack.TruncateString | ui/src/components/dashboard/playback-queue-track.tsx:27-28 | A string no longer than maxLength is unchanged. A longer one becomes its first maxLength characters followed by "…", of length maxLength + 1. |
| PlaybackQueueTrack.DefaultArguments | ui/src/components/dashboard/playback-queue-track.tsx:27 | The defaults are "" and 20. |
| PlaybackQueueTrack.TruncateIdempotent | ui/src/components/dashboard/playback-queue-track.tsx:27-28 | Truncating twice equals truncating once. |
| GenerateModels.ModifyPostgresUrl | acura/scripts/generate_models.py:6-13 | An empty URL gives "". A leading postgres+asyncpg:// or postgresql+asyncpg:// becomes postgresql:// with the rest kept. Any other URL is unchanged. |
| GenerateModels.ModifyPostgresUrlIdempotent | acura/scripts/generate_models.py:6-13 | Rewriting twice equals rewriting once. |
| GenerateModels.SkipCodingAndNotice | acura/scripts/generate_models.py:66-68 | With a coding line followed by the pgvector notice, only the notice is dropped. |
| GenerateModels.SkipLeadingNotice | acura/scripts/generate_models.py:72-73 | A leading pgvector notice is dropped. |
| GenerateModels.SkipCodingOnly | acura/scripts/generate_models.py:69-71 | A coding line without a notice re-joins the lines with "\n", which leaves plain output unchanged. |
| GenerateModels.SkipNothing | acura/scripts/generate_models.py:61-65 | Without either marker the output is unchanged. |
| DbmateCli.GetAssetDetails | acura/scripts/run_dbmate_cli.py:29-56 | The asset follows the linux, darwin and windows table (darwin accepts only arm64, not aarch64). Windows amd64 alone is compressed. The URL is releases/download/version/asset. An unsupported host exits with status 1. |
| DbmateCli.SupportedHosts | acura/scripts/run_dbmate_cli.py:36-53 | An asset exists exactly for linux on x86_64, amd64, aarch64 or arm64; darwin on x86_64, amd64 or arm64; and windows on x86_64 or amd64. |
| DbmateCli.CompressedIffZip | acura/scripts/run_dbmate_cli.py:46-49 | An asset is compressed iff it is the .zip asset. |
| DbmateCli.ExeName | acura/scripts/run_dbmate_cli.py:26 | The executable is dbmate.exe on windows and dbmate elsewhere. |
| DbmateCli.FirstEndingWith | acura/scripts/run_dbmate_cli.py:70-73 | The zip member index is the first name ending with the executable name, or none when no name does. |
| DbmateCli.ChooseZipMember | acura/scripts/run_dbmate_cli.py:69-87 | The loop returns the first member ending with the executable name, or fails with "<exe> not found in zip.". |
| DbmateCli.FirstIsUnique | acura/scripts/run_dbmate_cli.py:70-73 | The first matching index i is the one chosen. |
| DbmateCli.BuildCommand | acura/scripts/run_dbmate_cli.py:134-140 | The command is [dbmate, -d, migrations], then [--url, DATABASE_URL] iff it is set and non-empty, then the user arguments in order. |
| DbmateCli.CommandShape | acura/scripts/run_dbmate_cli.py:134-140 | The command starts with the three fixed words and ends with the user arguments. |
| DbmateCli.ExitStatus | acura/scripts/run_dbmate_cli.py:143-155 | The script exits with dbmate's return code, or 1 when it cannot be launched. |
| Schema.SelectByLicense | ui/src/app/api/update-last-played/route.ts:22 | The rows returned are exactly the subscribers whose license is the uuid the key spells. A key that is not uuid text matches nothing. |
| Schema.DigitCaseIgnored | acura/internal/models/codegen/models.py:29 | Two spellings that differ only in the case of their hexadecimal digits read as the same uuid, or both fail. |
| Schema.ParseUuid | acura/internal/models/codegen/models.py:29 | A key that reads as a uuid yields exactly 32 lower-case hexadecimal digits. |
| Schema.UuidTextRoundTrip | acura/internal/models/codegen/models.py:29 | The printed form of a stored license (8-4-4-4-12 groups) reads back as that same license. |
| Schema.LicenseCaseIgnored | ui/src/actions/auth.ts:33 | A key that differs from a stored license only in the case of its digits matches that license. |

## Left out

- I/O is modelled as inputs. This covers HTTP, AMQP, SQL connections, `asyncio.sleep` (its durations are returned as `sleeps`), files, zip extraction and subprocesses. The clock is likewise a parameter: `now` and `today` are fixed for the whole run of one graph.
- The language-model agents, OpenAI embeddings, `Levenshtein.ratio`, `str.lower` and pgvector's cosine distance are uninterpreted functions in `Chain.Env` and `Dao.Distance`. The thresholds 0.75 and 0.5 are exact reals. The agents' answers are indexed by the round, i.e. the retry count.
- The playlist classifier is keyed by (playlist, query). An exception from it is a `None` answer, i.e. a non-match.
- The two reads of similar tracks (router, reuse) use separate distance functions. They are not two reads of a table that concurrent writers may change.
- The explicit filter over a playlist's tracks is lazy in the code. The model hands the whole track list to the next node, which applies the filter per track. So a null track raises mid-loop after earlier tracks were saved, as in the code.
- The text of the RuntimeError raised for a failing track is not modelled, only that the run fails.
- `start_consuming` in mq.py is left out: concurrency (semaphore, task set, cancellation) cannot be verified sequentially. aio_pika's `process(ignore_processed=True)` context is modelled as the documented library behaviour: reject without requeue on an exception, and no action once the message is settled.
- Mq.ExtractLicenseKey: JSON values other than strings and null keep only their Python truthiness.
- Spotify: `base64`, `urlparse` and the HTTP client are left out. A page's next link is given parsed into path and query. A missing `expires_in` or `access_token` key is not modelled.
- Chain.RunGraph: the trace records the steps taken along the graph's edges, and the result is bounded by the rows written. What each node computes from the environment's replies is stated on that node's own contract only. A full functional specification of a run is not given, so the contract does not fix which path a given environment takes.
- Schema.ParseUuid: how a license key is read as a uuid follows PostgreSQL's uuid input. That is 32 hexadecimal digits in either case, a hyphen allowed after any group of four, and optional braces. The Python driver is taken to read a uuid parameter by the same rule. Its own parser is not modelled. Every `license = key` comparison in Auth.CookieJar.Check, Auth.CookieJar.Signin, PlaybackRoute.PlaybackTables.Get, Dao.Store.GetSubscriberByLicense and Schema.SelectByLicense is uuid equality by this rule. A stored license is held as its 32 lower-case digits. The text it prints, and the text a sign-in writes to the cookie, is Schema.UuidText of those digits.
- Chain.Curate: the graph state is local to the call, so the link between MaxRetriesExceeded and the final retry count is stated on RunGraph only.
- Spotify.SpotifyService.GetTrackById: a body without "tracks" (Python's KeyError) is the failure `MissingKey`.
- Dao.Store.GetTracksByIds: returns the set of matching ids; the row order of the SQL result is not modelled.
- Dao: `raise_for_status` and driver errors other than foreign-key and unique violations are not modelled. A failed insert still consumes its serial value, as Postgres sequences do.
- acura/chain.py and acura/mq.py (the legacy Discogs path) are not part of this model.
- The dashboard store's devtools middleware and the `Date.now()` read are left out; the timestamp is a parameter. JavaScript string lengths count UTF-16 units, while the model counts characters.
- React effects, the embed controller, the other components and the vui package are not part of this model.

## Findings

| source | as written | input that shows it | evidently intended | confidence | as-written member | corrected member |
|---|---|---|---|---|---|---|
| acura/internal/chain.py:317-323 | The except handler formats `track.title`, but `track` is a row of `select(Tracks.id)` with no `title`, so the handler itself raises AttributeError and aborts the node. | A subscriber id with no subscriber row (the playlist is None, so `playlist.id` fails), at least one similar track and no past-hour suggestion. | A failed attachment is logged and skipped, and the count is the attachments that succeeded. | high (not executed) | Chain.ReuseExistingDataRunAsWritten | Chain.ReuseExistingDataRun |
| acura/internal/models/dao.py:124-128 | `count(id)` is ordered by the per-row cosine distance, a column that is neither grouped nor aggregated, which Postgres rejects with a grouping error. | Any embedding, on any table. | The number of tracks closer than 0.5, the same as the length of `get_similar_track_ids`' result. | high (not executed) | Dao.Store.NSimilarTracksCountAsWritten | Dao.Store.NSimilarTracksCount |
