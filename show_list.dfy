/**
 * The show list screen's refresh pipeline over the local store: fetch the shows, then their
 * cover art, then the episodes, reconciling the episode cache with what the server returns.
 * Network state, fetch results and cancellation are inputs; each background step and each
 * completion callback is one sequential step.
 */
module ShowList {
  import opened Wrappers
  import opened Entities

  /** The three background fetches of the pipeline, in pipeline order. */
  datatype Task = FetchShows | FetchCoverArt | FetchEpisodes

  /** What an update step or a completion callback did next. */
  datatype Step =
    | Started(task: Task)  // a background fetch was started
    | NoConnection         // the next fetch was due but the network is down: snackbar shown
    | Stopped              // the pipeline ends here

  /** True when every show has its cover art; vacuously true for no shows. */
  predicate AllCoverArtPresent(shows: seq<Show>)
  {
    forall k :: 0 <= k < |shows| ==> shows[k].coverArt.Some?
  }

  /**
   * The stage a freshly created screen starts at: the full show refresh for an empty store,
   * otherwise the cover-art refresh when some show lacks its art, otherwise episodes only.
   */
  function StartStage(shows: seq<Show>): (t: Task)
    ensures t == FetchShows <==> shows == []
    ensures t == FetchCoverArt <==> shows != [] && exists k :: 0 <= k < |shows| && shows[k].coverArt.None?
    ensures t == FetchEpisodes <==> shows != [] && AllCoverArtPresent(shows)
  {
    if |shows| == 0 then FetchShows
    else if !AllCoverArtPresent(shows) then FetchCoverArt
    else FetchEpisodes
  }

  /** The outcome of downloading one show's cover art. */
  datatype CoverArtDownload =
    | Saved(path: string, image: Option<Image>)  // saved to path; image is null when it cannot be decoded
    | IoFailure                                  // the download threw an IOException

  /** A show after its cover-art download: a saved file replaces both cover fields. */
  function WithCoverArt(s: Show, d: CoverArtDownload): Show
  {
    match d
    case Saved(path, image) => s.(coverArt := image, coverArtLocalPath := Some(path))
    case IoFailure => s
  }

  /**
   * The shows after the cover-art loop, when the task is cancelled from iteration
   * cancelledAt on (|shows| or more: never during the loop). Cancellation is only noticed
   * after a download that saved a file, and then the loop stops before using it, so a show
   * takes its download exactly when it comes before the cancellation.
   */
  function CoverArtApplied(shows: seq<Show>, downloads: seq<CoverArtDownload>, cancelledAt: nat): (r: seq<Show>)
    requires |downloads| == |shows|
    ensures |r| == |shows|
    ensures forall k :: 0 <= k < |shows| ==> r[k].title == shows[k].title
    ensures forall k :: 0 <= k < |shows| && (cancelledAt <= k || downloads[k].IoFailure?) ==> r[k] == shows[k]
    ensures forall k :: 0 <= k < |shows| && k < cancelledAt && downloads[k].Saved? ==>
      r[k].coverArt == downloads[k].image && r[k].coverArtLocalPath == Some(downloads[k].path)
  {
    seq(|shows|, k requires 0 <= k < |shows| => if k < cancelledAt then WithCoverArt(shows[k], downloads[k]) else shows[k])
  }

  /**
   * After an uncancelled cover-art run in which every download saved a decodable image, no
   * show lacks its art, so the next start goes straight to the episode stage.
   */
  lemma CompleteCoverArtSkipsToEpisodes(shows: seq<Show>, downloads: seq<CoverArtDownload>)
    requires |downloads| == |shows| && shows != []
    requires forall k :: 0 <= k < |downloads| ==> downloads[k].Saved? && downloads[k].image.Some?
    ensures StartStage(CoverArtApplied(shows, downloads, |shows|)) == FetchEpisodes
  {
  }

  /** A show whose art was missing and whose download failed is still missing it: the next start refreshes cover art again. */
  lemma FailedDownloadRetriedNextStart(shows: seq<Show>, downloads: seq<CoverArtDownload>, cancelledAt: nat, k: nat)
    requires |downloads| == |shows| && k < |shows|
    requires shows[k].coverArt.None? && downloads[k].IoFailure?
    ensures StartStage(CoverArtApplied(shows, downloads, cancelledAt)) == FetchCoverArt
  {
  }

  /** Episodes are kept newest first. */
  predicate NewestFirst(episodes: seq<Episode>)
  {
    forall i, j :: 0 <= i < j < |episodes| ==> episodes[j].publicationDate <= episodes[i].publicationDate
  }

  /**
   * The local episodes are obsolete when the oldest episode the server returned is strictly
   * newer than the newest local one.
   */
  predicate LocalObsolete(local: seq<Episode>, server: seq<Episode>)
  {
    |local| > 0 && |server| > 0 && server[|server| - 1].publicationDate > local[0].publicationDate
  }

  /**
   * The episode cache after a fetch: obsolete local episodes are discarded, then the server's
   * episodes are appended. Comparing dates needs a server episode whenever the cache is not empty.
   */
  function Reconciled(local: seq<Episode>, server: seq<Episode>): (r: seq<Episode>)
    requires |local| > 0 ==> |server| > 0
    ensures |r| >= |server| && r[|r| - |server|..] == server
    ensures LocalObsolete(local, server) ==> r == server
    ensures !LocalObsolete(local, server) ==> |r| == |local| + |server| && r[..|local|] == local
  {
    (if LocalObsolete(local, server) then [] else local) + server
  }

  /**
   * When both lists are newest first, the episodes discarded as obsolete are all strictly
   * older than every episode the server returned: nothing newer is thrown away.
   */
  lemma DiscardedEpisodesAreOlder(local: seq<Episode>, server: seq<Episode>)
    requires NewestFirst(local) && NewestFirst(server) && LocalObsolete(local, server)
    ensures forall i, j :: 0 <= i < |local| && 0 <= j < |server| ==>
      local[i].publicationDate < server[j].publicationDate
  {
  }

  /**
   * The show list screen. The store's show and episode lists are fields here; `refreshing`
   * disables the refresh button; `adapter` is the list the grid displays, if one is installed;
   * `outstanding` holds the fetches started whose completion callback has not run yet.
   */
  class ShowListFragment {
    var shows: seq<Show>
    var episodes: seq<Episode>
    var refreshing: bool
    var adapter: Option<seq<Show>>
    ghost var outstanding: multiset<Task>

    /**
     * The refresh button is disabled only while a show or cover-art fetch is still to
     * complete, so its completion can enable it again.
     */
    ghost predicate RefreshingOnlyWhileFetching()
      reads this
    {
      refreshing ==> FetchShows in outstanding || FetchCoverArt in outstanding
    }

    /** A screen over the cached store, before any refresh. */
    constructor (cachedShows: seq<Show>, cachedEpisodes: seq<Episode>)
      ensures shows == cachedShows && episodes == cachedEpisodes
      ensures !refreshing && adapter == None && outstanding == multiset{}
      ensures RefreshingOnlyWhileFetching()
    {
      shows := cachedShows;
      episodes := cachedEpisodes;
      refreshing := false;
      adapter := None;
      outstanding := multiset{};
    }

    /** Whether every stored show has its cover art, checked show by show. */
    method IsCoverArtDownloaded() returns (downloaded: bool)
      ensures downloaded <==> AllCoverArtPresent(shows)
      ensures shows == [] ==> downloaded
    {
      var i := 0;
      while i < |shows|
        invariant 0 <= i <= |shows|
        invariant forall k :: 0 <= k < i ==> shows[k].coverArt.Some?
      {
        if shows[i].coverArt.None? {
          return false;
        }
        i := i + 1;
      }
      return true;
    }

    /**
     * Whether the refresh menu item is enabled when the menu is built. While the screen keeps
     * RefreshingOnlyWhileFetching, a disabled button always has a show or cover-art fetch
     * pending whose completion can enable it again.
     */
    method RefreshButtonEnabled() returns (enabled: bool)
      ensures enabled <==> !refreshing
      ensures RefreshingOnlyWhileFetching() && !enabled ==>
        FetchShows in outstanding || FetchCoverArt in outstanding
    {
      enabled := !refreshing;
    }

    /** Installs the store's shows in the grid, but only while attached and not refreshing. */
    method SetupAdapter(attached: bool)
      modifies this`adapter
      ensures adapter == if attached && !refreshing then Some(shows) else old(adapter)
    {
      if attached && !refreshing {
        adapter := Some(shows);
      }
    }

    /**
     * The full refresh (also what the refresh button does): when connected, marks the
     * screen refreshing, empties the episode cache and starts the show fetch; otherwise
     * clears the refreshing mark.
     */
    method UpdateShows(connected: bool) returns (step: Step)
      modifies this
      ensures step == if connected then Started(FetchShows) else NoConnection
      ensures refreshing == connected
      ensures episodes == if connected then [] else old(episodes)
      ensures outstanding == old(outstanding) + if connected then multiset{FetchShows} else multiset{}
      ensures shows == old(shows) && adapter == old(adapter)
      ensures RefreshingOnlyWhileFetching()
    {
      if connected {
        refreshing := true;
        episodes := [];
        outstanding := outstanding + multiset{FetchShows};
        step := Started(FetchShows);
      } else {
        refreshing := false;
        step := NoConnection;
      }
    }

    /** The cover-art refresh: like the full refresh, but the episode cache is kept. */
    method UpdateCoverArt(connected: bool) returns (step: Step)
      modifies this
      ensures step == if connected then Started(FetchCoverArt) else NoConnection
      ensures refreshing == connected
      ensures outstanding == old(outstanding) + if connected then multiset{FetchCoverArt} else multiset{}
      ensures shows == old(shows) && episodes == old(episodes) && adapter == old(adapter)
      ensures RefreshingOnlyWhileFetching()
    {
      if connected {
        refreshing := true;
        outstanding := outstanding + multiset{FetchCoverArt};
        step := Started(FetchCoverArt);
      } else {
        refreshing := false;
        step := NoConnection;
      }
    }

    /** The episode refresh: starts the episode fetch when connected; never touches the refreshing mark. */
    method UpdateEpisodes(connected: bool) returns (step: Step)
      modifies this
      ensures step == if connected then Started(FetchEpisodes) else NoConnection
      ensures outstanding == old(outstanding) + if connected then multiset{FetchEpisodes} else multiset{}
      ensures shows == old(shows) && episodes == old(episodes) && adapter == old(adapter)
      ensures refreshing == old(refreshing)
      ensures old(RefreshingOnlyWhileFetching()) ==> RefreshingOnlyWhileFetching()
    {
      if connected {
        outstanding := outstanding + multiset{FetchEpisodes};
        step := Started(FetchEpisodes);
      } else {
        step := NoConnection;
      }
    }

    /** Creation: starts the stage the cached store calls for. */
    method OnCreate(connected: bool) returns (step: Step)
      modifies this
      ensures step == if connected then Started(StartStage(old(shows))) else NoConnection
      ensures outstanding == old(outstanding) + if connected then multiset{StartStage(old(shows))} else multiset{}
      ensures refreshing == if StartStage(old(shows)) == FetchEpisodes then old(refreshing) else connected
      ensures episodes == if connected && StartStage(old(shows)) == FetchShows then [] else old(episodes)
      ensures shows == old(shows) && adapter == old(adapter)
      ensures old(RefreshingOnlyWhileFetching()) ==> RefreshingOnlyWhileFetching()
    {
      var downloaded := IsCoverArtDownloaded();
      if |shows| == 0 {
        step := UpdateShows(connected);
      } else if !downloaded {
        step := UpdateCoverArt(connected);
      } else {
        step := UpdateEpisodes(connected);
      }
    }

    /**
     * Completion of the show fetch as written: a list that arrived uncancelled replaces the
     * stored shows and the cover-art stage follows; otherwise nothing changes, which leaves
     * the refreshing mark set.
     */
    method FetchShowsPostExecuteAsWritten(showList: Option<seq<Show>>, cancelled: bool, connected: bool)
      returns (step: Step)
      requires FetchShows in outstanding
      modifies this
      ensures showList.Some? && !cancelled ==>
        shows == showList.value && refreshing == connected &&
        step == (if connected then Started(FetchCoverArt) else NoConnection) &&
        outstanding == old(outstanding) - multiset{FetchShows} + (if connected then multiset{FetchCoverArt} else multiset{})
      ensures showList.None? || cancelled ==>
        shows == old(shows) && refreshing == old(refreshing) && step == Stopped &&
        outstanding == old(outstanding) - multiset{FetchShows}
      ensures episodes == old(episodes) && adapter == old(adapter)
    {
      outstanding := outstanding - multiset{FetchShows};
      if showList.Some? && !cancelled {
        shows := showList.value;
        step := UpdateCoverArt(connected);
      } else {
        step := Stopped;
      }
    }

    /**
     * Completion of the show fetch, with the refreshing mark cleared when the fetch failed or
     * was cancelled, so that the refresh button can be used to try again.
     */
    method FetchShowsPostExecute(showList: Option<seq<Show>>, cancelled: bool, connected: bool)
      returns (step: Step)
      requires FetchShows in outstanding
      modifies this
      ensures showList.Some? && !cancelled ==>
        shows == showList.value && refreshing == connected &&
        step == (if connected then Started(FetchCoverArt) else NoConnection) &&
        outstanding == old(outstanding) - multiset{FetchShows} + (if connected then multiset{FetchCoverArt} else multiset{})
      ensures showList.None? || cancelled ==>
        shows == old(shows) && !refreshing && step == Stopped &&
        outstanding == old(outstanding) - multiset{FetchShows}
      ensures episodes == old(episodes) && adapter == old(adapter)
      ensures RefreshingOnlyWhileFetching()
    {
      outstanding := outstanding - multiset{FetchShows};
      if showList.Some? && !cancelled {
        shows := showList.value;
        step := UpdateCoverArt(connected);
      } else {
        refreshing := false;
        step := Stopped;
      }
    }

    /**
     * The cover-art task's background loop, downloads[k] being what fetching show k's art
     * does and cancelledAt the iteration from which the task reads as cancelled. Each saved
     * download is written into its show in place; a failed one leaves the show as it was.
     */
    method FetchCoverArtInBackground(downloads: seq<CoverArtDownload>, cancelledAt: nat)
      returns (stoppedEarly: bool)
      requires |downloads| == |shows|
      modifies this`shows
      ensures shows == CoverArtApplied(old(shows), downloads, cancelledAt)
      ensures stoppedEarly <==> exists k :: cancelledAt <= k < |downloads| && downloads[k].Saved?
    {
      var i := 0;
      stoppedEarly := false;
      while i < |shows|
        invariant 0 <= i <= |shows| == |old(shows)|
        invariant shows[..i] == CoverArtApplied(old(shows), downloads, cancelledAt)[..i]
        invariant shows[i..] == old(shows)[i..]
        invariant forall k :: cancelledAt <= k < i ==> downloads[k].IoFailure?
      {
        if downloads[i].Saved? {
          if cancelledAt <= i {
            stoppedEarly := true;
            break;
          }
          shows := shows[i := WithCoverArt(shows[i], downloads[i])];
        }
        i := i + 1;
      }
    }

    /**
     * Completion of the cover-art task: unless cancelled, clears the refreshing mark,
     * installs the shows in the grid and moves on to the episode stage.
     */
    method FetchCoverArtPostExecute(cancelled: bool, connected: bool, attached: bool)
      returns (step: Step)
      requires FetchCoverArt in outstanding
      modifies this
      ensures cancelled ==>
        step == Stopped && refreshing == old(refreshing) && adapter == old(adapter) &&
        outstanding == old(outstanding) - multiset{FetchCoverArt}
      ensures !cancelled ==>
        !refreshing && adapter == (if attached then Some(shows) else old(adapter)) &&
        step == (if connected then Started(FetchEpisodes) else NoConnection) &&
        outstanding == old(outstanding) - multiset{FetchCoverArt} + (if connected then multiset{FetchEpisodes} else multiset{})
      ensures shows == old(shows) && episodes == old(episodes)
      ensures !cancelled ==> RefreshingOnlyWhileFetching()
    {
      outstanding := outstanding - multiset{FetchCoverArt};
      if cancelled {
        step := Stopped;
        return;
      }
      refreshing := false;
      SetupAdapter(attached);
      step := UpdateEpisodes(connected);
    }

    /**
     * Completion of the episode fetch: unless cancelled, the cache is reconciled with the
     * server's list (the caller then saves the store and redraws the screen).
     */
    method FetchEpisodesPostExecute(server: seq<Episode>, cancelled: bool)
      requires FetchEpisodes in outstanding
      requires !cancelled && |episodes| > 0 ==> |server| > 0
      modifies this
      ensures episodes == if cancelled then old(episodes) else Reconciled(old(episodes), server)
      ensures outstanding == old(outstanding) - multiset{FetchEpisodes}
      ensures shows == old(shows) && refreshing == old(refreshing) && adapter == old(adapter)
      ensures old(RefreshingOnlyWhileFetching()) ==> RefreshingOnlyWhileFetching()
    {
      outstanding := outstanding - multiset{FetchEpisodes};
      if cancelled {
        return;
      }
      if |episodes| > 0 {
        var newestLocal := episodes[0];
        var oldestServer := server[|server| - 1];
        if oldestServer.publicationDate > newestLocal.publicationDate {
          episodes := [];
        }
      }
      episodes := episodes + server;
    }
  }

  /**
   * A first start with an empty store and a working network runs the whole pipeline: the
   * fetched shows with their cover art, exactly the server's episodes, the grid installed,
   * the refresh button enabled and nothing left running.
   */
  method FirstStart(fetched: seq<Show>, downloads: seq<CoverArtDownload>, server: seq<Episode>)
    returns (f: ShowListFragment)
    requires |downloads| == |fetched|
    ensures f.shows == CoverArtApplied(fetched, downloads, |fetched|)
    ensures f.episodes == server
    ensures f.adapter == Some(f.shows)
    ensures !f.refreshing && f.outstanding == multiset{}
  {
    f := new ShowListFragment([], []);
    var step := f.OnCreate(true);
    step := f.FetchShowsPostExecute(Some(fetched), false, true);
    var stoppedEarly := f.FetchCoverArtInBackground(downloads, |fetched|);
    step := f.FetchCoverArtPostExecute(false, true, true);
    f.FetchEpisodesPostExecute(server, false);
  }

  /**
   * As written, a failed first show fetch leaves the screen marked refreshing with no fetch
   * left to clear the mark: the refresh button stays disabled.
   */
  method FailedShowFetchAsWritten(cachedEpisodes: seq<Episode>) returns (f: ShowListFragment, enabled: bool)
    ensures f.refreshing && f.outstanding == multiset{}
    ensures !f.RefreshingOnlyWhileFetching()
    ensures !enabled
  {
    f := new ShowListFragment([], cachedEpisodes);
    var step := f.OnCreate(true);
    step := f.FetchShowsPostExecuteAsWritten(None, false, true);
    enabled := f.RefreshButtonEnabled();
  }

  /** With the mark cleared on failure, the refresh button is enabled again after a failed show fetch. */
  method FailedShowFetch(cachedEpisodes: seq<Episode>) returns (f: ShowListFragment, enabled: bool)
    ensures !f.refreshing && f.outstanding == multiset{}
    ensures f.RefreshingOnlyWhileFetching()
    ensures enabled
  {
    f := new ShowListFragment([], cachedEpisodes);
    var step := f.OnCreate(true);
    step := f.FetchShowsPostExecute(None, false, true);
    enabled := f.RefreshButtonEnabled();
  }
}
