/**
 * The playback cursor of the `useAudioPlayer` hook: which turn is selected
 * (the queue's `currentSyncIndex`), whether audio is playing, whether the user
 * paused it, and which image is on display.
 *
 * The cursor moves are pure functions on `Cursor`; the class `Player` holds the
 * hook's state and the HTML audio element it drives, and each of its methods is
 * one callback, effect or element event, proved to move the cursor as those
 * functions say. The audio element is an abstract device: `src`, `paused`, the
 * `onloadeddata` callback and `dataset.cleanupUrl`, with its `loadeddata`,
 * `play`, `pause` and `ended` events delivered as method calls.
 */
module AudioPlayer {
  import opened Wrappers
  import opened ObjectUrls
  import opened SyncQueue

  /** `currentSyncIndex`, `isPlaying` and `isManuallyPaused` together. */
  datatype Cursor = Cursor(index: int, isPlaying: bool, isManuallyPaused: bool)

  /** An index the cursor may rest on: nothing selected (-1), or a processed turn. */
  predicate OnProcessed(i: int, q: seq<Turn>)
  {
    -1 <= i < |q| && (i == -1 || q[i].isProcessed)
  }

  /** `playNextItem`. A missing item (a negative index) is falsy, as in JavaScript. */
  function Next(c: Cursor, q: seq<Turn>): Cursor
  {
    var nextIndex := c.index + 1;
    if nextIndex < |q| then
      if 0 <= nextIndex && q[nextIndex].isProcessed then Cursor(nextIndex, false, false) else c
    else
      Cursor(c.index, false, true)
  }

  /** `playPreviousItem`. */
  function Previous(c: Cursor, q: seq<Turn>): Cursor
  {
    var previousIndex := c.index - 1;
    if 0 <= previousIndex < |q| then
      if q[previousIndex].isProcessed then Cursor(previousIndex, false, false) else c
    else
      c.(isPlaying := false, isManuallyPaused := false)
  }

  /** The index the first-item effect leaves. */
  function FirstItem(index: int, q: seq<Turn>, isStarted: bool, isManuallyPaused: bool): int
  {
    if isStarted && !isManuallyPaused && |q| > 0 && index == -1 && q[0].isProcessed then 0 else index
  }

  /** The guard of the main autoplay effect. */
  predicate AutoplayFires(c: Cursor, q: seq<Turn>, isStarted: bool)
  {
    !c.isPlaying && !c.isManuallyPaused && |q| > 0 && 0 <= c.index < |q| && q[c.index].isProcessed && isStarted
  }

  /** The cursor move of `handleEnded`. */
  function Ended(c: Cursor, q: seq<Turn>): Cursor
  {
    if c.index + 1 >= |q| then c.(isPlaying := false, isManuallyPaused := true)
    else Next(c.(isPlaying := false, isManuallyPaused := false), q)
  }

  /** The cursor move of `togglePlayPause`; `isPlaying` itself follows the element's events. */
  function Toggled(c: Cursor, q: seq<Turn>): Cursor
  {
    if c.index == -1 || |q| == 0 then c
    else c.(isManuallyPaused := c.isPlaying)
  }

  /** Every cursor move keeps the cursor on a processed turn or on nothing. */
  lemma MovesStayOnProcessed(c: Cursor, q: seq<Turn>, isStarted: bool)
    requires OnProcessed(c.index, q)
    ensures OnProcessed(Next(c, q).index, q)
    ensures OnProcessed(Previous(c, q).index, q)
    ensures OnProcessed(Ended(c, q).index, q)
    ensures OnProcessed(Toggled(c, q).index, q)
    ensures OnProcessed(FirstItem(c.index, q, isStarted, c.isManuallyPaused), q)
  {
  }

  /**
   * `playNextItem` moves exactly when the next turn exists and is processed, and
   * then clears both flags; onto an unprocessed turn it changes nothing; past the
   * end it keeps the index, stops and sets the manual pause.
   */
  lemma NextMovesOnlyOntoProcessed(c: Cursor, q: seq<Turn>)
    requires OnProcessed(c.index, q)
    ensures Next(c, q).index != c.index <==> c.index + 1 < |q| && q[c.index + 1].isProcessed
    ensures Next(c, q).index != c.index ==> Next(c, q) == Cursor(c.index + 1, false, false)
    ensures c.index + 1 < |q| && !q[c.index + 1].isProcessed ==> Next(c, q) == c
    ensures c.index + 1 >= |q| ==> Next(c, q) == Cursor(c.index, false, true)
  {
  }

  /**
   * `playPreviousItem` moves exactly when the previous turn exists and is
   * processed; with no previous turn it keeps the index and clears both flags.
   */
  lemma PreviousMovesOnlyOntoProcessed(c: Cursor, q: seq<Turn>)
    requires OnProcessed(c.index, q)
    ensures Previous(c, q).index != c.index <==> c.index >= 1 && q[c.index - 1].isProcessed
    ensures Previous(c, q).index != c.index ==> Previous(c, q) == Cursor(c.index - 1, false, false)
    ensures c.index < 1 ==> Previous(c, q) == Cursor(c.index, false, false)
  {
  }

  /** Stepping forward and back (or back and forward) returns to the same turn, ready to autoplay. */
  lemma SeekRoundTrip(c: Cursor, q: seq<Turn>)
    requires 0 <= c.index < |q| && q[c.index].isProcessed
    ensures Next(c, q).index != c.index ==> Previous(Next(c, q), q) == Cursor(c.index, false, false)
    ensures Previous(c, q).index != c.index ==> Next(Previous(c, q), q) == Cursor(c.index, false, false)
  {
  }

  /** The first-item effect selects turn 0 exactly when started, not paused, nothing selected and turn 0 processed. */
  lemma FirstItemSelectsProcessedHead(index: int, q: seq<Turn>, isStarted: bool, isManuallyPaused: bool)
    ensures FirstItem(index, q, isStarted, isManuallyPaused) != index <==>
      isStarted && !isManuallyPaused && |q| > 0 && index == -1 && q[0].isProcessed
    ensures FirstItem(index, q, isStarted, isManuallyPaused) in {index, 0}
  {
  }

  /**
   * `handleEnded` at the last turn stops with the manual pause set; before it, it
   * moves to the next turn when that is processed, which autoplay then plays.
   */
  lemma EndedAdvancesOrStops(c: Cursor, q: seq<Turn>)
    requires 0 <= c.index < |q| && q[c.index].isProcessed
    ensures c.index + 1 == |q| ==> Ended(c, q) == Cursor(c.index, false, true) && !AutoplayFires(Ended(c, q), q, true)
    ensures c.index + 1 < |q| && q[c.index + 1].isProcessed ==>
      Ended(c, q) == Cursor(c.index + 1, false, false) && AutoplayFires(Ended(c, q), q, true)
  {
  }

  /**
   * When the next turn is still being produced, `handleEnded` leaves the cursor on
   * the turn that just ended with both flags clear, so the autoplay guard holds
   * and the same turn is played again.
   */
  lemma EndedBeforeNextIsReadyReplays(c: Cursor, q: seq<Turn>)
    requires 0 <= c.index && c.index + 1 < |q| && q[c.index].isProcessed && !q[c.index + 1].isProcessed
    ensures Ended(c, q) == Cursor(c.index, false, false)
    ensures AutoplayFires(Ended(c, q), q, true)
  {
  }

  /** The cursor after `n` ended events. */
  function EndedTimes(c: Cursor, q: seq<Turn>, n: nat): Cursor
    decreases n
  {
    if n == 0 then c else EndedTimes(Ended(c, q), q, n - 1)
  }

  predicate AllProcessed(q: seq<Turn>)
  {
    forall i :: 0 <= i < |q| ==> q[i].isProcessed
  }

  /**
   * Over a fully processed queue, `n` ended events advance the cursor `n` turns,
   * and it comes to rest on the last turn, paused.
   */
  lemma {:induction false} EndedWalksToLastTurn(c: Cursor, q: seq<Turn>, n: nat)
    requires AllProcessed(q) && 0 <= c.index < |q|
    ensures c.index + n < |q| ==> EndedTimes(c, q, n).index == c.index + n
    ensures n >= 1 && c.index + n >= |q| ==> EndedTimes(c, q, n) == Cursor(|q| - 1, false, true)
    decreases n
  {
    if n > 0 {
      var d := Ended(c, q);
      EndedAdvancesOrStops(c, q);
      if c.index + 1 < |q| {
        EndedWalksToLastTurn(d, q, n - 1);
      } else {
        EndedAtLastStays(d, q, n - 1);
      }
    }
  }

  /** Once resting on the last turn, further ended events change nothing. */
  lemma {:induction false} EndedAtLastStays(c: Cursor, q: seq<Turn>, n: nat)
    requires c == Cursor(|q| - 1, false, true) && |q| > 0
    ensures EndedTimes(c, q, n) == c
    decreases n
  {
    if n > 0 {
      assert Ended(c, q) == c;
      EndedAtLastStays(c, q, n - 1);
    }
  }

  /** `togglePlayPause` with a turn selected: pause when playing, resume when not; with none selected, nothing. */
  lemma ToggleFlipsManualPause(c: Cursor, q: seq<Turn>)
    ensures c.index == -1 || |q| == 0 ==> Toggled(c, q) == c
    ensures c.index != -1 && |q| > 0 ==>
      Toggled(c, q).index == c.index && Toggled(c, q).isPlaying == c.isPlaying
      && (Toggled(c, q).isManuallyPaused <==> c.isPlaying)
  {
  }

  // ---------------------------------------------------------------------------
  // The hook

  /** How the promise returned by `audio.play()` settles. */
  datatype PlayOutcome = Started | Aborted | Rejected

  /** The `onloadeddata` callback `playCurrentItem` installs, with what its closure captured. */
  datatype LoadCallback = LoadCallback(audioUrl: Handle, pausedWhenInstalled: bool)

  /** The callback asks the element to play, and `play()` starts. */
  predicate Starts(cb: Option<LoadCallback>, outcome: PlayOutcome)
  {
    cb.Some? && !cb.value.pausedWhenInstalled && outcome == Started
  }

  /** The callback asks the element to play, and `play()` fails with something other than an abort. */
  predicate Skips(cb: Option<LoadCallback>, outcome: PlayOutcome)
  {
    cb.Some? && !cb.value.pausedWhenInstalled && outcome == Rejected
  }

  class Player {
    /** The object-URL registry shared with the queue. */
    const urls: UrlRegistry
    var isPlaying: bool
    var isMuted: bool
    /** Stored and forwarded, never interpreted. */
    var volume: real
    var playbackRate: real
    var isManuallyPaused: bool
    var currentImage: Option<Handle>

    // The audio element.
    var paused: bool
    var src: Option<Handle>
    var onLoadedData: Option<LoadCallback>
    var cleanupUrl: Option<Handle>
    var elementVolume: real
    var elementRate: real

    /**
     * The displayed image is a live URL, and no audio URL the element still
     * refers to is the displayed image's.
     */
    ghost predicate Valid()
      reads this`currentImage, this`src, this`cleanupUrl, this`onLoadedData, urls
    {
      && urls.Valid()
      && (currentImage.Some? ==> currentImage.value in urls.live)
      && (src.Some? ==> src.value < urls.next)
      && (cleanupUrl.Some? ==> cleanupUrl.value < urls.next && cleanupUrl != currentImage)
      && (onLoadedData.Some? ==> onLoadedData.value.audioUrl < urls.next && Some(onLoadedData.value.audioUrl) != currentImage)
    }

    function CursorOf(q: SyncQueue): Cursor
      reads this, q
    {
      Cursor(q.currentSyncIndex, isPlaying, isManuallyPaused)
    }

    constructor (urls: UrlRegistry)
      requires urls.Valid()
      ensures Valid()
      ensures this.urls == urls
      ensures !isPlaying && !isMuted && !isManuallyPaused && currentImage == None
      ensures volume == 1.0 && playbackRate == 2.0
      ensures paused && src == None && onLoadedData == None && cleanupUrl == None
    {
      this.urls := urls;
      isPlaying, isMuted, isManuallyPaused := false, false, false;
      volume, playbackRate := 1.0, 2.0;
      currentImage := None;
      paused, src, onLoadedData, cleanupUrl := true, None, None, None;
      elementVolume, elementRate := 1.0, 1.0;
    }

    /** `playNextItem`. */
    method PlayNextItem(q: SyncQueue)
      modifies this`isPlaying, this`isManuallyPaused, q`currentSyncIndex
      ensures CursorOf(q) == Next(old(CursorOf(q)), q.syncQueue)
      ensures old(q.Valid()) ==> q.Valid()
    {
      if q.Valid() {
        MovesStayOnProcessed(CursorOf(q), q.syncQueue, false);
      }
      var nextIndex := q.currentSyncIndex + 1;
      if nextIndex < |q.syncQueue| {
        if 0 <= nextIndex && q.syncQueue[nextIndex].isProcessed {
          q.currentSyncIndex := nextIndex;
          isPlaying := false;
          isManuallyPaused := false;
        }
      } else {
        isPlaying := false;
        isManuallyPaused := true;
      }
    }

    /** `playPreviousItem`. */
    method PlayPreviousItem(q: SyncQueue)
      modifies this`isPlaying, this`isManuallyPaused, q`currentSyncIndex
      ensures CursorOf(q) == Previous(old(CursorOf(q)), q.syncQueue)
      ensures old(q.Valid()) ==> q.Valid()
    {
      if q.Valid() {
        MovesStayOnProcessed(CursorOf(q), q.syncQueue, false);
      }
      var previousIndex := q.currentSyncIndex - 1;
      if 0 <= previousIndex < |q.syncQueue| {
        if q.syncQueue[previousIndex].isProcessed {
          q.currentSyncIndex := previousIndex;
          isPlaying := false;
          isManuallyPaused := false;
        }
      } else {
        isPlaying := false;
        isManuallyPaused := false;
      }
    }

    /**
     * `playCurrentItem`: for a selected processed turn, show its `imageBlob`
     * (revoking the image shown before) and load its `audioBlob` into the element.
     * The queue never sets those two properties, so on a valid queue nothing happens.
     */
    method PlayCurrentItem(q: SyncQueue)
      requires Valid()
      modifies this`currentImage, this`paused, this`src, this`onLoadedData, this`cleanupUrl, urls
      ensures Valid()
      ensures var i := q.currentSyncIndex;
        var selected := 0 <= i < |q.syncQueue| && q.syncQueue[i].isProcessed;
        && (!selected ==> unchanged(this, urls))
        && (currentImage != old(currentImage) <==> selected && q.syncQueue[i].imageBlob.Some?)
        && (src != old(src) <==> selected && q.syncQueue[i].audioBlob.Some?)
      ensures NoBlobs(q.syncQueue) ==> unchanged(this, urls)
      ensures old(urls.live) - urls.live <= (if old(currentImage).Some? then {old(currentImage).value} else {})
      ensures currentImage != old(currentImage) ==>
        && currentImage.Some? && currentImage.value !in old(urls.live)
        && urls.revoked == old(urls.revoked) + (if old(currentImage).Some? then [old(currentImage).value] else [])
      ensures currentImage == old(currentImage) ==> urls.revoked == old(urls.revoked)
      ensures src != old(src) ==>
        && paused && src.Some? && src.value !in old(urls.live) && src.value in urls.live
        && cleanupUrl == src && onLoadedData == Some(LoadCallback(src.value, isManuallyPaused))
      ensures src == old(src) ==>
        paused == old(paused) && cleanupUrl == old(cleanupUrl) && onLoadedData == old(onLoadedData)
    {
      if |q.syncQueue| == 0 || q.currentSyncIndex < 0 || q.currentSyncIndex >= |q.syncQueue| {
        return;
      }
      var currentItem := q.syncQueue[q.currentSyncIndex];
      if !currentItem.isProcessed {
        return;
      }
      if currentItem.imageBlob.Some? {
        ShowImage();
      }
      if currentItem.audioBlob.Some? {
        LoadAudio();
      }
    }

    /** The `setCurrentImage` updater: revoke the image shown before, if any, and show a fresh URL. */
    method ShowImage()
      requires Valid()
      modifies this`currentImage, urls
      ensures Valid()
      ensures currentImage.Some? && currentImage.value !in old(urls.live) && currentImage != old(currentImage)
      ensures urls.live == (old(urls.live) - (if old(currentImage).Some? then {old(currentImage).value} else {})) + {currentImage.value}
      ensures urls.revoked == old(urls.revoked) + (if old(currentImage).Some? then [old(currentImage).value] else [])
      ensures old(urls.next) <= urls.next
    {
      if currentImage.Some? {
        urls.Revoke(currentImage.value);
      }
      var image := urls.Create();
      currentImage := Some(image);
    }

    /** Load a clip: pause the element, point it at a fresh URL and install the `onloadeddata` callback. */
    method LoadAudio()
      requires Valid()
      modifies this`paused, this`src, this`onLoadedData, this`cleanupUrl, urls
      ensures Valid()
      ensures paused && src.Some? && src.value !in old(urls.live) && src != old(src)
      ensures cleanupUrl == src && onLoadedData == Some(LoadCallback(src.value, isManuallyPaused))
      ensures urls.live == old(urls.live) + {src.value} && urls.revoked == old(urls.revoked)
      ensures src.value == old(urls.next)
    {
      paused := true;
      var audioUrl := urls.Create();
      src := Some(audioUrl);
      onLoadedData := Some(LoadCallback(audioUrl, isManuallyPaused));
      cleanupUrl := Some(audioUrl);
    }

    /** `URL.revokeObjectURL` on a clip's URL, which is never the displayed image's. */
    method RevokeAudio(h: Handle)
      requires Valid() && Some(h) != currentImage
      modifies urls
      ensures Valid()
      ensures urls.live == old(urls.live) - {h} && urls.revoked == old(urls.revoked) + [h]
    {
      urls.Revoke(h);
    }

    /** The first-item effect. */
    method FirstItemEffect(q: SyncQueue, isStarted: bool)
      modifies q`currentSyncIndex
      ensures q.currentSyncIndex == FirstItem(old(q.currentSyncIndex), q.syncQueue, isStarted, isManuallyPaused)
      ensures old(q.Valid()) ==> q.Valid()
    {
      if q.Valid() {
        MovesStayOnProcessed(CursorOf(q), q.syncQueue, isStarted);
      }
      if isStarted && !isManuallyPaused && |q.syncQueue| > 0 && q.currentSyncIndex == -1 {
        if q.syncQueue[0].isProcessed {
          q.currentSyncIndex := 0;
        }
      }
    }

    /** The main autoplay effect: `playCurrentItem` when its guard holds, nothing otherwise. */
    method AutoplayEffect(q: SyncQueue, isStarted: bool) returns (fired: bool)
      requires Valid()
      modifies this`currentImage, this`paused, this`src, this`onLoadedData, this`cleanupUrl, urls
      ensures Valid()
      ensures fired <==> old(AutoplayFires(CursorOf(q), q.syncQueue, isStarted))
      ensures !fired ==> unchanged(this, urls)
      ensures CursorOf(q) == old(CursorOf(q))
      ensures NoBlobs(q.syncQueue) ==> unchanged(this, urls)
      ensures fired ==>
        && (currentImage != old(currentImage) <==> q.syncQueue[q.currentSyncIndex].imageBlob.Some?)
        && (src != old(src) <==> q.syncQueue[q.currentSyncIndex].audioBlob.Some?)
      ensures old(urls.live) - urls.live <= (if old(currentImage).Some? then {old(currentImage).value} else {})
      ensures currentImage != old(currentImage) ==>
        && currentImage.Some? && currentImage.value !in old(urls.live)
        && urls.revoked == old(urls.revoked) + (if old(currentImage).Some? then [old(currentImage).value] else [])
      ensures currentImage == old(currentImage) ==> urls.revoked == old(urls.revoked)
      ensures src != old(src) ==>
        && paused && src.Some? && src.value !in old(urls.live) && src.value in urls.live
        && cleanupUrl == src && onLoadedData == Some(LoadCallback(src.value, isManuallyPaused))
      ensures src == old(src) ==>
        paused == old(paused) && cleanupUrl == old(cleanupUrl) && onLoadedData == old(onLoadedData)
    {
      fired := false;
      if !isPlaying && !isManuallyPaused && |q.syncQueue| > 0 && 0 <= q.currentSyncIndex < |q.syncQueue| {
        var currentItem := q.syncQueue[q.currentSyncIndex];
        if currentItem.isProcessed && isStarted {
          fired := true;
          PlayCurrentItem(q);
        }
      }
    }

    /** The element's `loadeddata` listener: volume (0 when muted) and rate. */
    method ApplyElementSettings()
      modifies this`elementVolume, this`elementRate
      ensures elementVolume == (if isMuted then 0.0 else volume) && elementRate == playbackRate
    {
      elementVolume := if isMuted then 0.0 else volume;
      elementRate := playbackRate;
    }

    /**
     * The `onloadeddata` callback `playCurrentItem` installed: play, unless the
     * player was manually paused when it was installed. A rejection other than an
     * abort stops, revokes the clip's URL and skips to the next turn.
     */
    method OnLoadedData(q: SyncQueue, outcome: PlayOutcome)
      requires Valid()
      modifies this`paused, this`isPlaying, this`isManuallyPaused, urls, q`currentSyncIndex
      ensures Valid()
      ensures Skips(old(onLoadedData), outcome) ==>
        && CursorOf(q) == Next(old(CursorOf(q)).(isPlaying := false), q.syncQueue)
        && urls.live == old(urls.live) - {old(onLoadedData).value.audioUrl}
        && urls.revoked == old(urls.revoked) + [old(onLoadedData).value.audioUrl]
      ensures !Skips(old(onLoadedData), outcome) ==>
        CursorOf(q) == old(CursorOf(q)) && unchanged(urls)
      ensures paused == (old(paused) && !Starts(old(onLoadedData), outcome))
      ensures old(q.Valid()) ==> q.Valid()
    {
      if Starts(onLoadedData, outcome) {
        paused := false;
      } else if Skips(onLoadedData, outcome) {
        SkipFailedClip(q, onLoadedData.value.audioUrl);
      }
    }

    /** The `.catch` of a rejected `play()`: stop, revoke the clip's URL and skip to the next turn. */
    method SkipFailedClip(q: SyncQueue, audioUrl: Handle)
      requires Valid() && Some(audioUrl) != currentImage
      modifies this`isPlaying, this`isManuallyPaused, urls, q`currentSyncIndex
      ensures Valid()
      ensures CursorOf(q) == Next(old(CursorOf(q)).(isPlaying := false), q.syncQueue)
      ensures urls.live == old(urls.live) - {audioUrl} && urls.revoked == old(urls.revoked) + [audioUrl]
      ensures old(q.Valid()) ==> q.Valid()
    {
      isPlaying := false;
      RevokeAudio(audioUrl);
      PlayNextItem(q);
    }

    /** The element's `play` event. */
    method OnPlay()
      modifies this`isPlaying
      ensures isPlaying
    {
      isPlaying := true;
    }

    /** The element's `pause` event, which only stops the player when the clip has not ended. */
    method OnPause(ended: bool)
      modifies this`isPlaying
      ensures isPlaying == (old(isPlaying) && ended)
    {
      if !ended {
        isPlaying := false;
      }
    }

    /**
     * The element's `ended` event (`handleEnded`): revoke the clip's URL once and
     * forget it, then stop at the last turn or move on.
     */
    method HandleEnded(q: SyncQueue)
      requires Valid()
      modifies this`isPlaying, this`isManuallyPaused, this`cleanupUrl, urls, q`currentSyncIndex
      ensures Valid()
      ensures CursorOf(q) == Ended(old(CursorOf(q)), q.syncQueue)
      ensures cleanupUrl == None
      ensures urls.live == old(urls.live) - (if old(cleanupUrl).Some? then {old(cleanupUrl).value} else {})
      ensures urls.revoked == old(urls.revoked) + (if old(cleanupUrl).Some? then [old(cleanupUrl).value] else [])
      ensures currentImage == old(currentImage) && src == old(src)
      ensures old(q.Valid()) ==> q.Valid()
    {
      isPlaying := false;
      if cleanupUrl.Some? {
        RevokeAudio(cleanupUrl.value);
        cleanupUrl := None;
      }
      var nextIndex := q.currentSyncIndex + 1;
      if nextIndex >= |q.syncQueue| {
        isManuallyPaused := true;
        return;
      }
      isManuallyPaused := false;
      PlayNextItem(q);
    }

    /**
     * `togglePlayPause`: with no turn selected or an empty queue, nothing. When
     * playing, pause the element and set the manual pause; otherwise clear it and
     * ask the element to play, a failure of which stops the player.
     */
    method TogglePlayPause(q: SyncQueue, outcome: PlayOutcome)
      modifies this`isManuallyPaused, this`isPlaying, this`paused
      ensures CursorOf(q) == Toggled(old(CursorOf(q)), q.syncQueue)
      ensures q.currentSyncIndex == -1 || |q.syncQueue| == 0 ==> paused == old(paused)
      ensures q.currentSyncIndex != -1 && |q.syncQueue| > 0 ==>
        paused == (old(isPlaying) || (old(paused) && outcome != Started))
    {
      if q.currentSyncIndex == -1 || |q.syncQueue| == 0 {
        return;
      }
      if isPlaying {
        paused := true;
        isManuallyPaused := true;
      } else {
        isManuallyPaused := false;
        if outcome == Started {
          paused := false;
        } else {
          isPlaying := false;
        }
      }
    }

    /** `toggleMute`: flip the flag and silence or restore the element. */
    method ToggleMute()
      modifies this`isMuted, this`elementVolume
      ensures isMuted == !old(isMuted)
      ensures elementVolume == if isMuted then 0.0 else volume
    {
      isMuted := !isMuted;
      elementVolume := if isMuted then 0.0 else volume;
    }

    /** `handleVolumeChange`: store the volume; the element only hears it when not muted. */
    method HandleVolumeChange(newVolume: real)
      modifies this`volume, this`elementVolume
      ensures volume == newVolume
      ensures elementVolume == if isMuted then old(elementVolume) else newVolume
    {
      volume := newVolume;
      if !isMuted {
        elementVolume := newVolume;
      }
    }

    /** `handlePlaybackRateChange`. */
    method HandlePlaybackRateChange(newRate: real)
      modifies this`playbackRate, this`elementRate
      ensures playbackRate == newRate && elementRate == newRate
    {
      playbackRate := newRate;
      elementRate := newRate;
    }

    /** The exported `setIsManuallyPaused` setter. */
    method SetIsManuallyPaused(value: bool)
      modifies this`isManuallyPaused
      ensures isManuallyPaused == value
    {
      isManuallyPaused := value;
    }

    /** `resetAudioPlayer`: clears the flags and the image without revoking it; volume and rate stay. */
    method ResetAudioPlayer()
      requires Valid()
      modifies this`isPlaying, this`isMuted, this`isManuallyPaused, this`currentImage
      ensures Valid()
      ensures !isPlaying && !isMuted && !isManuallyPaused && currentImage == None
      ensures volume == old(volume) && playbackRate == old(playbackRate)
    {
      isPlaying := false;
      isMuted := false;
      isManuallyPaused := false;
      currentImage := None;
    }
  }
}
