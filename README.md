# TWiTCast: stream selection, casting and the show refresh pipeline

TWiTCast is an Android client for the TWiT network's shows. It caches shows, their cover art and
episodes locally, and casts a chosen episode to a networked receiver. This project models the two
pieces of it that make decisions, and proves properties of them:

- **Casting** (`google_cast.dfy`, module `GoogleCast`). An episode's stream URL is chosen by the
  preferred quality. If a quality has no URL, the choice falls through to the next lower one, down to
  audio. The content type comes from the file extension (`.mp4` is video, `.mp3` is audio). The
  chosen media then waits in one field, the pending media. It is played at once when a receiver is
  connected. Otherwise the route chooser is opened, or the user is told there is no receiver. The
  pending media is forgotten only after it has been loaded, and a later connection plays it.
- **Show refresh pipeline** (`show_list.dfy`, module `ShowList`). On start the screen picks a stage
  from the cache: fetch shows, fetch cover art, or fetch episodes. The show and cover-art stages set
  the refreshing mark, which disables the refresh button, or clear it when the network is down. The
  episode stage never touches the mark. Each fetch's completion moves on to the next
  stage or stops. The cover-art loop writes each show's art in place and stops when cancelled. The
  episode completion discards the local episodes when the server's oldest is strictly newer than the
  local newest, then appends the server's list.

`entities.dfy` holds the cached records (Show, Episode, Image), and `wrappers.dfy` holds Option
(Java's nullable references) and Result (a call that may throw). Network state, fetch and download
results, cancellation, whether a receiver is connected, whether the route button is visible and
whether loading succeeds are all parameters. Each background step and each completion callback is one
atomic step. A ghost multiset `outstanding` records the fetches that have started and whose
completion has not run yet. The invariant `RefreshingOnlyWhileFetching` says the refresh button is
disabled only while a show or cover-art fetch is still to complete.

The two fetch stages are not strictly one after another, as a plain reading of the pipeline suggests.
The refresh button stays enabled while episodes are being fetched, so a show refresh can start while
an episode fetch is still running. This is why `outstanding` is a multiset and not a single task.

## Model

| member | source | states |
|---|---|---|
| GoogleCast.MediaUrl | app/src/main/java/com/tragicfruit/twitcast/misc/GoogleCastActivity.java:170-192 | The URL is null exactly when every URL at or below the preferred quality is null. Otherwise it is the URL of some quality at or below the preference, and every quality between that one and the preference has none. With the audio preference it is exactly the audio URL. |
| GoogleCast.MediaUrlIsFirstPresent | app/src/main/java/com/tragicfruit/twitcast/misc/GoogleCastActivity.java:172-190 | The fall-through equals the first present URL of the ladder suffix that starts at the preference. For HD that is the first of the HD, large, small and audio URLs, in that order. |
| GoogleCast.MediaUrlIgnoresBetterQualities | app/src/main/java/com/tragicfruit/twitcast/misc/GoogleCastActivity.java:183-189 | Fall-through never moves up: two episodes that agree at and below the preference get the same URL, so with small only the small and audio URLs matter. |
| GoogleCast.ContentTypeOf | app/src/main/java/com/tragicfruit/twitcast/misc/GoogleCastActivity.java:194-202 | Video exactly when the URL ends in ".mp4", audio exactly when it ends in ".mp3", null otherwise. The URL is a non-null string. |
| GoogleCast.ContentTypeOfExtension | app/src/main/java/com/tragicfruit/twitcast/misc/GoogleCastActivity.java:195-198 | Any stem followed by ".mp4" is video and any stem followed by ".mp3" is audio. |
| GoogleCast.SelectMediaAsWritten | app/src/main/java/com/tragicfruit/twitcast/misc/GoogleCastActivity.java:117-126 | playVideo as written: the content type is computed from the URL before the null check, so a null URL throws NullPointerException. |
| GoogleCast.SelectMediaAsWrittenThrowsOnMissingUrl | app/src/main/java/com/tragicfruit/twitcast/misc/GoogleCastActivity.java:117-120 | Lines 117-120 as written throw exactly when no URL exists at or below the preference. When they do not throw, they agree with SelectMedia. |
| GoogleCast.AudioPreferenceWithoutAudioUrlThrows | app/src/main/java/com/tragicfruit/twitcast/misc/GoogleCastActivity.java:117-120 | A concrete input: the audio preference on an episode without an audio URL throws as written, where the corrected selection rejects it. |
| GoogleCast.SelectMedia | app/src/main/java/com/tragicfruit/twitcast/misc/GoogleCastActivity.java:117-126 | Media is selected exactly when some URL at or below the preference exists and the chosen one ends in .mp4 or .mp3. The media carries that URL, and its type is video exactly for .mp4. |
| GoogleCast.CastActivity.constructor | app/src/main/java/com/tragicfruit/twitcast/misc/GoogleCastActivity.java:41 | No media is pending at first. |
| GoogleCast.CastActivity.StartPlayingSelectedMedia | app/src/main/java/com/tragicfruit/twitcast/misc/GoogleCastActivity.java:150-162 | A successful load clears the pending media. A failed load keeps it. |
| GoogleCast.CastActivity.PlayVideo | app/src/main/java/com/tragicfruit/twitcast/misc/GoogleCastActivity.java:108-148 | It uses the corrected selection SelectMedia (see Findings). It is rejected exactly when SelectMedia selects nothing, and then the pending media is unchanged. When connected it loads now. When not connected it opens the route chooser if the button is visible and reports no receiver otherwise. The selection stays pending unless it was loaded. |
| GoogleCast.CastActivity.OnApplicationConnected | app/src/main/java/com/tragicfruit/twitcast/misc/GoogleCastActivity.java:67-72 | A connection replays the pending media exactly when there is one. It is cleared only when the load succeeds. |
| GoogleCast.PlayWhileDisconnected | app/src/main/java/com/tragicfruit/twitcast/misc/GoogleCastActivity.java:129-147 | An episode chosen while disconnected stays pending whether or not the route chooser opens, and it plays when a receiver connects. |
| GoogleCast.RetryAfterFailedLoad | app/src/main/java/com/tragicfruit/twitcast/misc/GoogleCastActivity.java:150-161 | A load that throws while connected keeps the media pending. The next connection replays it, and a further connection finds nothing to replay. |
| ShowList.StartStage | app/src/main/java/com/tragicfruit/twitcast/show/ShowListFragment.java:81-87 | An empty store starts the full show refresh. Otherwise a show without cover art starts only the cover-art refresh. Otherwise only episodes are fetched. |
| ShowList.CoverArtApplied | app/src/main/java/com/tragicfruit/twitcast/show/ShowListFragment.java:344-357 | Titles are kept. A show whose download failed, or that comes at or after the cancellation, keeps its old cover fields. Each earlier show with a saved download takes its image and local path. |
| ShowList.CompleteCoverArtSkipsToEpisodes | app/src/main/java/com/tragicfruit/twitcast/show/ShowListFragment.java:344-357 | After an uncancelled run in which every download saved a decodable image, the next start goes to the episode stage. |
| ShowList.FailedDownloadRetriedNextStart | app/src/main/java/com/tragicfruit/twitcast/show/ShowListFragment.java:354-356 | A show that had no art and whose download threw still has none, so the next start refreshes cover art again. |
| ShowList.Reconciled | app/src/main/java/com/tragicfruit/twitcast/show/ShowListFragment.java:399-413 | The server list always ends the cache. Obsolete local episodes are discarded entirely. Otherwise the local episodes are kept, in front. |
| ShowList.DiscardedEpisodesAreOlder | app/src/main/java/com/tragicfruit/twitcast/show/ShowListFragment.java:399-410 | When both lists are newest first, every discarded local episode is strictly older than every server episode. |
| ShowList.ShowListFragment.constructor | app/src/main/java/com/tragicfruit/twitcast/show/ShowListFragment.java:79 | The screen starts over the cached store, not refreshing, with no grid and no fetch outstanding. |
| ShowList.ShowListFragment.IsCoverArtDownloaded | app/src/main/java/com/tragicfruit/twitcast/show/ShowListFragment.java:139-146 | The check holds exactly when every show has cover art, and it holds vacuously for no shows. |
| ShowList.ShowListFragment.RefreshButtonEnabled | app/src/main/java/com/tragicfruit/twitcast/show/ShowListFragment.java:159-165 | The refresh button is enabled exactly when the screen is not refreshing. While RefreshingOnlyWhileFetching holds, a disabled button always has a show or cover-art fetch pending whose completion can enable it again. |
| ShowList.ShowListFragment.SetupAdapter | app/src/main/java/com/tragicfruit/twitcast/show/ShowListFragment.java:184-192 | The stored shows are installed in the grid only when the screen is attached and not refreshing. |
| ShowList.ShowListFragment.UpdateShows | app/src/main/java/com/tragicfruit/twitcast/show/ShowListFragment.java:99-113 | When connected it marks refreshing, empties the episode cache and starts the show fetch. Otherwise it clears the mark and starts nothing. It keeps RefreshingOnlyWhileFetching. |
| ShowList.ShowListFragment.UpdateCoverArt | app/src/main/java/com/tragicfruit/twitcast/show/ShowListFragment.java:115-128 | When connected it marks refreshing and starts the cover-art fetch. Otherwise it clears the mark and starts nothing. The episodes are untouched. |
| ShowList.ShowListFragment.UpdateEpisodes | app/src/main/java/com/tragicfruit/twitcast/show/ShowListFragment.java:130-137 | When connected it starts the episode fetch. It never touches the refreshing mark. |
| ShowList.ShowListFragment.OnCreate | app/src/main/java/com/tragicfruit/twitcast/show/ShowListFragment.java:73-88 | It starts the stage StartStage picks for the cached shows, with each stage's effect on the mark and the episodes. |
| ShowList.ShowListFragment.FetchShowsPostExecuteAsWritten | app/src/main/java/com/tragicfruit/twitcast/show/ShowListFragment.java:321-333 | As written, a null or cancelled list changes nothing and stops, which leaves the refreshing mark set. Otherwise the store is replaced and the cover-art stage starts. |
| ShowList.ShowListFragment.FetchShowsPostExecute | app/src/main/java/com/tragicfruit/twitcast/show/ShowListFragment.java:321-333 | The same, except that a failed or cancelled fetch clears the refreshing mark. It keeps RefreshingOnlyWhileFetching in every case. |
| ShowList.ShowListFragment.FetchCoverArtInBackground | app/src/main/java/com/tragicfruit/twitcast/show/ShowListFragment.java:337-359 | The shows become CoverArtApplied of the old shows. The loop stops early exactly when a download saved after the cancellation. |
| ShowList.ShowListFragment.FetchCoverArtPostExecute | app/src/main/java/com/tragicfruit/twitcast/show/ShowListFragment.java:372-383 | When cancelled nothing changes. Otherwise it clears the mark, installs the grid if attached and starts the episode stage. |
| ShowList.ShowListFragment.FetchEpisodesPostExecute | app/src/main/java/com/tragicfruit/twitcast/show/ShowListFragment.java:393-426 | When cancelled the cache is unchanged. Otherwise it becomes Reconciled of the old cache and the server list. The refreshing mark and the shows are untouched. |
| ShowList.FirstStart | app/src/main/java/com/tragicfruit/twitcast/show/ShowListFragment.java:99-413 | From an empty store with the network up, the whole pipeline ends with the fetched shows and their art, exactly the server's episodes, the grid installed, the button enabled and nothing outstanding. |
| ShowList.FailedShowFetchAsWritten | app/src/main/java/com/tragicfruit/twitcast/show/ShowListFragment.java:322-333 | As written, a failed first fetch leaves the screen refreshing with no fetch outstanding, so the refresh button stays disabled. |
| ShowList.FailedShowFetch | app/src/main/java/com/tragicfruit/twitcast/show/ShowListFragment.java:322-333 | With the correction, the refresh button is enabled again after a failed show fetch. |

## Left out

- Cast SDK setup and calls are library calls and are not modelled: the cast configuration, manager initialisation, consumer registration and the UI counter in onCreate, onResume and onPause. Whether a receiver is connected, whether the route button is visible and whether loading succeeds are parameters.
- The "connecting" toast of onDeviceSelected, all other toasts and the snackbar are user interface only.
- MediaMetadata and WebImage construction (title, subtitle, studio, cover images) and the buffered stream type are left out. A MediaInfo keeps only the URL and the content type.
- GoogleCast.CastActivity.PlayVideo: it uses the corrected selection SelectMedia, so where lines 117-118 throw on a null URL it rejects the episode instead. It also does not model lines 114-115, which call Uri.parse on the show's cover-art local path and large cover URL and so throw NullPointerException when either is null (a show whose cover-art download failed has no local path).
- showMediaRouteDialog is left out; the model only records that the route chooser is opened.
- The stream-quality preference storage (QueryPreferences) is left out. The preference is a parameter.
- The content-type strings live in a constants file that is not part of this model. ContentType names the two types without their strings.
- The network check (isNetworkAvailableAndConnected) is the parameter `connected`.
- The fetcher (TWiTFetcher) is not modelled: fetchShows, getCoverArt and fetchAllEpisodes become the parameters `showList`, `downloads` and `server`. Drawable decoding becomes the optional image of a download.
- cleanUp's deletion of old cover-art files is file I/O and is left out.
- The loading dialog, onStart, the options menu handlers, the quality dialog, onActivityResult, onAttach and onDetach, and the ShowHolder and ShowAdapter view binding are user interface only.
- onDestroy's cancellation of the tasks is not modelled as an operation. Cancellation is the input `cancelled`, or `cancelledAt` for the cover-art loop.
- saveShows, saveEpisodes and the refreshShows callback at the end of the episode fetch are persistence and activity calls, and are left out.
- The store (TWiTLab) is not part of this model. Its show and episode lists are fields of the screen. setShows replaces the shows, resetEpisodes empties the episodes, and addEpisodes is modelled as appending.
- AsyncTask threading is not modelled. The cover-art loop runs on a background thread while the screen is live, but here each step is atomic.
- Show objects are shared by reference in the source, so the grid sees cover art written after it was installed. Here shows are values and the grid holds a copy taken when it was installed.
- Publication dates are integer timestamps compared with `>`, not Date objects.
- EpisodeListFragment.java is view binding only and is not part of this model.
- ShowList.ShowListFragment.FetchEpisodesPostExecute: it requires a non-empty server list when the local cache is not empty, because the source's get(size - 1) throws on an empty list. A null list from the fetcher is not modelled either; the source would throw on it.
- ShowList.ShowListFragment.FetchCoverArtPostExecute: it keeps RefreshingOnlyWhileFetching only when not cancelled. A cancelled completion leaves the mark set, and cancellation happens only when the screen is destroyed.

## Findings

| source | as written | input that shows it | evidently intended | confidence | as-written member | corrected member |
|---|---|---|---|---|---|---|
| app/src/main/java/com/tragicfruit/twitcast/misc/GoogleCastActivity.java:117-120 | getContentType(url) calls url.endsWith before the null check at line 120, so a null URL throws NullPointerException and the error toast is never reached | audio preference and an episode with no audio URL; generally, no URL at or below the preferred quality | show the error toast and return | high; not executed | GoogleCast.SelectMediaAsWritten (GoogleCast.AudioPreferenceWithoutAudioUrlThrows) | GoogleCast.SelectMedia |
| app/src/main/java/com/tragicfruit/twitcast/show/ShowListFragment.java:322-333 | a null or cancelled show list leaves mRefreshingShows true. No fetch remains to clear it, so the refresh button stays disabled although the toast asks the user to try again | first start with an empty store, network up, fetchShows returns null | clear the refreshing mark when the show fetch fails | medium; not executed | ShowList.ShowListFragment.FetchShowsPostExecuteAsWritten (ShowList.FailedShowFetchAsWritten) | ShowList.ShowListFragment.FetchShowsPostExecute (ShowList.FailedShowFetch) |
