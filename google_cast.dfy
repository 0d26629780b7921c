/**
 * Choosing what to cast for an episode, and the pending-media state machine of the cast
 * activity: a selected media item waits until the receiver is connected and is forgotten
 * only once it has been loaded.
 */
module GoogleCast {
  import opened Wrappers
  import opened Entities

  /** The stream quality the user prefers, best first. */
  datatype StreamQuality = VideoHd | VideoLarge | VideoSmall | Audio

  /** Position on the quality ladder: a larger rank is a better quality. */
  function Rank(q: StreamQuality): nat
  {
    match q
    case VideoHd => 3
    case VideoLarge => 2
    case VideoSmall => 1
    case Audio => 0
  }

  /** The quality the selection falls through to when q offers no URL. */
  function NextLower(q: StreamQuality): (p: StreamQuality)
    requires q != Audio
    ensures Rank(p) + 1 == Rank(q)
  {
    match q
    case VideoHd => VideoLarge
    case VideoLarge => VideoSmall
    case VideoSmall => Audio
  }

  /** The URL the episode offers at exactly quality q. */
  function UrlAt(e: Episode, q: StreamQuality): Option<string>
  {
    match q
    case VideoHd => e.videoHdUrl
    case VideoLarge => e.videoLargeUrl
    case VideoSmall => e.videoSmallUrl
    case Audio => e.audioUrl
  }

  /**
   * The stream URL played for preference q: the URL at q if there is one, otherwise the
   * selection falls through to the next lower quality, ending at the audio URL, which is
   * returned even when missing. It never moves up the ladder.
   */
  function MediaUrl(e: Episode, q: StreamQuality): (url: Option<string>)
    decreases Rank(q)
    ensures url.None? <==> forall p :: Rank(p) <= Rank(q) ==> UrlAt(e, p).None?
    ensures url.Some? ==>
      exists p :: Rank(p) <= Rank(q) && UrlAt(e, p) == url &&
        forall p' :: Rank(p) < Rank(p') <= Rank(q) ==> UrlAt(e, p').None?
    ensures q == Audio ==> url == e.audioUrl
  {
    if q == Audio || UrlAt(e, q).Some? then UrlAt(e, q)
    else MediaUrl(e, NextLower(q))
  }

  /** The URLs the selection consults for preference q, in the order it consults them. */
  function Ladder(e: Episode, q: StreamQuality): seq<Option<string>>
  {
    [e.videoHdUrl, e.videoLargeUrl, e.videoSmallUrl, e.audioUrl][3 - Rank(q)..]
  }

  /** The first present URL of a list, or null when none is. */
  function FirstPresent(urls: seq<Option<string>>): (url: Option<string>)
  {
    if urls == [] then None
    else if urls[0].Some? then urls[0]
    else FirstPresent(urls[1..])
  }

  /**
   * The fall-through selection agrees with the plain reading "the first present URL among
   * the preferred quality and every quality below it, best first"; for VideoHd that is the
   * first of the HD, large, small and audio URLs.
   */
  lemma {:induction false} MediaUrlIsFirstPresent(e: Episode, q: StreamQuality)
    decreases Rank(q)
    ensures MediaUrl(e, q) == FirstPresent(Ladder(e, q))
  {
    var l := Ladder(e, q);
    assert l[0] == UrlAt(e, q) by {
      match q
      case VideoHd =>
      case VideoLarge =>
      case VideoSmall =>
      case Audio =>
    }
    if q == Audio {
      assert l[1..] == [];
    } else {
      assert l[1..] == Ladder(e, NextLower(q)) by {
        match q
        case VideoHd =>
        case VideoLarge =>
        case VideoSmall =>
      }
      MediaUrlIsFirstPresent(e, NextLower(q));
    }
  }

  /**
   * Only the qualities at or below the preference are consulted: two episodes that agree
   * there get the same URL (so with VideoSmall only the small and audio URLs matter).
   */
  lemma MediaUrlIgnoresBetterQualities(e1: Episode, e2: Episode, q: StreamQuality)
    requires forall p :: Rank(p) <= Rank(q) ==> UrlAt(e1, p) == UrlAt(e2, p)
    ensures MediaUrl(e1, q) == MediaUrl(e2, q)
  {
  }

  /** The content types the receiver is told about. */
  datatype ContentType = VideoContent | AudioContent

  predicate EndsWith(s: string, suffix: string)
  {
    |suffix| <= |s| && s[|s| - |suffix|..] == suffix
  }

  /** The content type announced for a URL, decided by its file extension; null for any other. */
  function ContentTypeOf(url: string): (t: Option<ContentType>)
    ensures t == Some(VideoContent) <==> EndsWith(url, ".mp4")
    ensures t == Some(AudioContent) <==> EndsWith(url, ".mp3")
    ensures t.None? <==> !EndsWith(url, ".mp4") && !EndsWith(url, ".mp3")
  {
    if EndsWith(url, ".mp4") then
      Some(VideoContent)
    else if EndsWith(url, ".mp3") then
      Some(AudioContent)
    else
      None
  }

  /** Any URL with the .mp4 extension is video and any with .mp3 is audio, whatever comes before. */
  lemma ContentTypeOfExtension(stem: string)
    ensures ContentTypeOf(stem + ".mp4") == Some(VideoContent)
    ensures ContentTypeOf(stem + ".mp3") == Some(AudioContent)
  {
  }

  /** What is handed to the cast receiver: a buffered stream of the chosen URL and its type. */
  datatype MediaInfo = MediaInfo(url: string, contentType: ContentType)

  datatype JavaException = NullPointerException

  /**
   * The media chosen by playVideo as written: the content type is computed from the URL
   * before the URL is checked, so a missing URL throws instead of reaching the error toast.
   */
  function SelectMediaAsWritten(e: Episode, preference: StreamQuality): Result<Option<MediaInfo>, JavaException>
  {
    var url := MediaUrl(e, preference);
    if url.None? then
      Err(NullPointerException)
    else
      match ContentTypeOf(url.value)
      case None => Ok(None)
      case Some(t) => Ok(Some(MediaInfo(url.value, t)))
  }

  /**
   * The media chosen by playVideo once the null URL is checked first: present exactly when
   * some URL at or below the preference exists and the one selected names an .mp4 or .mp3
   * file; otherwise the error toast is shown.
   */
  function SelectMedia(e: Episode, preference: StreamQuality): (m: Option<MediaInfo>)
    ensures m.Some? <==>
      MediaUrl(e, preference).Some? &&
      (EndsWith(MediaUrl(e, preference).value, ".mp4") || EndsWith(MediaUrl(e, preference).value, ".mp3"))
    ensures m.Some? ==> MediaUrl(e, preference) == Some(m.value.url)
    ensures m.Some? ==> (m.value.contentType == VideoContent <==> EndsWith(m.value.url, ".mp4"))
  {
    var url := MediaUrl(e, preference);
    if url.None? then
      None
    else
      match ContentTypeOf(url.value)
      case None => None
      case Some(t) => Some(MediaInfo(url.value, t))
  }

  /**
   * The URL and content-type steps as written throw exactly when no URL exists at or below
   * the preference, and otherwise choose what the corrected selection chooses.
   */
  lemma SelectMediaAsWrittenThrowsOnMissingUrl(e: Episode, preference: StreamQuality)
    ensures SelectMediaAsWritten(e, preference).Err? <==>
      forall p :: Rank(p) <= Rank(preference) ==> UrlAt(e, p).None?
    ensures SelectMediaAsWritten(e, preference).Ok? ==>
      SelectMediaAsWritten(e, preference).value == SelectMedia(e, preference)
  {
  }

  /** A concrete case: preferring audio for an episode without an audio URL throws. */
  lemma AudioPreferenceWithoutAudioUrlThrows(hd: Option<string>)
    ensures var e := Episode("Episode 1", 0, hd, None, None, None);
      SelectMediaAsWritten(e, Audio) == Err(NullPointerException) && SelectMedia(e, Audio) == None
  {
  }

  /** What playVideo ends with. */
  datatype PlayOutcome =
    | Unplayable        // no URL or an unknown content type: error toast, nothing selected
    | Loaded            // loaded on the receiver and the cast controller opened
    | ReceiverNotReady  // loading threw: "connecting" toast; it plays once the receiver connects
    | RouteDialogShown  // a receiver is seen but not connected: the route chooser is opened
    | NoReceiverFound   // no receiver is seen: toast

  /**
   * The cast activity's pending media. Whether a receiver is connected, whether the media
   * route button is visible and whether loading on the receiver succeeds are inputs.
   */
  class CastActivity {
    /** The media waiting to be played on the receiver, or null. */
    var selected: Option<MediaInfo>

    constructor ()
      ensures selected == None
    {
      selected := None;
    }

    /** Loads the pending media on the receiver; it is forgotten only when loading succeeds. */
    method StartPlayingSelectedMedia(loadSucceeds: bool) returns (loaded: bool)
      modifies this
      ensures loaded == loadSucceeds
      ensures selected == if loaded then None else old(selected)
    {
      if loadSucceeds {
        selected := None;
        loaded := true;
      } else {
        loaded := false;
      }
    }

    /**
     * Plays an episode: rejects it when nothing playable is found, otherwise makes it the
     * pending media and plays it now if connected, or opens the route chooser, or reports
     * that no receiver exists.
     */
    method PlayVideo(e: Episode, preference: StreamQuality, connected: bool, routeButtonVisible: bool, loadSucceeds: bool)
      returns (outcome: PlayOutcome)
      modifies this
      ensures outcome == Unplayable <==> SelectMedia(e, preference).None?
      ensures outcome == Unplayable ==> selected == old(selected)
      ensures outcome != Unplayable && connected ==>
        outcome == (if loadSucceeds then Loaded else ReceiverNotReady)
      ensures outcome != Unplayable && !connected ==>
        outcome == (if routeButtonVisible then RouteDialogShown else NoReceiverFound)
      ensures outcome != Unplayable ==>
        selected == if outcome == Loaded then None else SelectMedia(e, preference)
    {
      var media := SelectMedia(e, preference);
      if media.None? {
        outcome := Unplayable;
        return;
      }
      selected := media;
      if connected {
        var loaded := StartPlayingSelectedMedia(loadSucceeds);
        outcome := if loaded then Loaded else ReceiverNotReady;
      } else if routeButtonVisible {
        outcome := RouteDialogShown;
      } else {
        outcome := NoReceiverFound;
      }
    }

    /** The receiver has connected: a pending media item, and only one, is played now. */
    method OnApplicationConnected(loadSucceeds: bool) returns (replayed: bool, loaded: bool)
      modifies this
      ensures replayed <==> old(selected).Some?
      ensures loaded <==> replayed && loadSucceeds
      ensures selected == if loaded then None else old(selected)
    {
      replayed := selected.Some?;
      loaded := false;
      if replayed {
        loaded := StartPlayingSelectedMedia(loadSucceeds);
      }
    }
  }

  /**
   * An episode chosen while no receiver is connected is kept pending, whether or not the
   * route chooser could be opened, and is played as soon as a receiver connects.
   */
  method PlayWhileDisconnected(e: Episode, preference: StreamQuality, routeButtonVisible: bool)
    returns (outcome: PlayOutcome, pending: Option<MediaInfo>, loaded: bool)
    requires SelectMedia(e, preference).Some?
    ensures outcome == if routeButtonVisible then RouteDialogShown else NoReceiverFound
    ensures pending == SelectMedia(e, preference)
    ensures loaded
  {
    var activity := new CastActivity();
    outcome := activity.PlayVideo(e, preference, false, routeButtonVisible, false);
    pending := activity.selected;
    var replayed;
    replayed, loaded := activity.OnApplicationConnected(true);
  }

  /**
   * When loading throws while connected, the media stays pending and the next connection
   * plays it; a connection with nothing pending plays nothing.
   */
  method RetryAfterFailedLoad(e: Episode, preference: StreamQuality)
    returns (outcome: PlayOutcome, replayed: bool, replayedAgain: bool)
    requires SelectMedia(e, preference).Some?
    ensures outcome == ReceiverNotReady
    ensures replayed && !replayedAgain
  {
    var activity := new CastActivity();
    outcome := activity.PlayVideo(e, preference, true, true, false);
    var loaded;
    replayed, loaded := activity.OnApplicationConnected(true);
    replayedAgain, loaded := activity.OnApplicationConnected(true);
  }
}
