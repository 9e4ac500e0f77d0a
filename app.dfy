/**
 * The top-level component's own session logic (`App`): a start button that,
 * once the session has started, only toggles play and pause, and an event
 * handler that grows the transcript and the turn queue together. Its copies of
 * the queue functions are the same as the `useSyncQueue` hook's and are modelled
 * by `SyncQueue.SyncQueue`.
 *
 * Unlike the session hook, an `end` event here closes the stream but leaves
 * `isStarted` set, and a stream error only logs.
 */
module AppShell {
  import opened Wrappers
  import opened ObjectUrls
  import opened SyncQueue
  import opened AudioPlayer
  import opened Experience

  class App {
    const queue: SyncQueue
    const player: Player
    var messages: seq<Message>
    var isStarted: bool
    /** `eventSourceRef.current`. */
    var stream: Option<nat>
    var nextStream: nat
    ghost var streamLog: seq<StreamOp>

    ghost predicate Valid()
      reads this, queue, player, queue.urls, player.urls
    {
      && queue.Valid() && player.Valid() && player.urls == queue.urls
      && Aligned(messages, queue.syncQueue)
      && StreamsOk(streamLog, stream, nextStream)
      && (isStarted <==> stream.Some?)
    }

    ghost predicate StreamOpen()
      reads this
    {
      stream.Some? && IsOpen(streamLog, stream.value)
    }

    constructor (queue: SyncQueue, player: Player)
      requires queue.Valid() && player.Valid() && player.urls == queue.urls && queue.syncQueue == []
      ensures Valid()
      ensures this.queue == queue && this.player == player
      ensures messages == [] && !isStarted && stream == None && streamLog == [] && nextStream == 0
      ensures queue.syncQueue == [] && queue.currentSyncIndex == -1
    {
      this.queue := queue;
      this.player := player;
      messages := [];
      isStarted := false;
      stream := None;
      nextStream := 0;
      streamLog := [];
    }

    /**
     * `startExperience`: once started, only `togglePlayPause`; the first time, set
     * `isStarted`, clear the manual pause and open a stream. Nothing is reset.
     */
    method StartExperience(outcome: PlayOutcome)
      requires Valid()
      modifies this, player`isManuallyPaused, player`isPlaying, player`paused
      ensures Valid()
      ensures isStarted && messages == old(messages)
      ensures player.volume == old(player.volume) && player.isMuted == old(player.isMuted)
      ensures player.currentImage == old(player.currentImage) && player.src == old(player.src)
      ensures old(isStarted) ==>
        && stream == old(stream) && streamLog == old(streamLog) && nextStream == old(nextStream)
        && player.CursorOf(queue) == Toggled(old(player.CursorOf(queue)), queue.syncQueue)
        && (queue.currentSyncIndex == -1 || |queue.syncQueue| == 0 ==> player.paused == old(player.paused))
        && (queue.currentSyncIndex != -1 && |queue.syncQueue| > 0 ==>
              player.paused == (old(player.isPlaying) || (old(player.paused) && outcome != Started)))
      ensures !old(isStarted) ==>
        && !player.isManuallyPaused && player.isPlaying == old(player.isPlaying) && player.paused == old(player.paused)
        && stream == Some(old(nextStream)) && streamLog == old(streamLog) + [Open(stream.value)]
        && StreamOpen()
    {
      if isStarted {
        player.TogglePlayPause(queue, outcome);
        return;
      }
      isStarted := true;
      player.SetIsManuallyPaused(false);
      ReopenLeavesOneOpen(streamLog, stream, nextStream);
      assert streamLog + [] == streamLog;
      stream := Some(nextStream);
      streamLog := streamLog + [Open(nextStream)];
      nextStream := nextStream + 1;
    }

    /**
     * The stream's `onmessage` handler: a `message` appends one transcript entry and
     * enqueues one turn with the same speaker and text; an `end` closes the stream;
     * any other type changes nothing.
     */
    method OnEvent(event: StreamEvent, now: int)
      requires Valid() && StreamOpen()
      modifies this, queue
      ensures Valid()
      ensures event.MessageEvent? ==>
        && messages == old(messages) + [Message(event.speaker, event.text, now)]
        && queue.syncQueue == old(queue.syncQueue) + [NewTurn(old(queue.nextId), event.speaker, event.text)]
        && streamLog == old(streamLog) && StreamOpen()
      ensures event.EndEvent? ==>
        && messages == old(messages) && queue.syncQueue == old(queue.syncQueue)
        && stream.Some? && streamLog == old(streamLog) + [Close(stream.value)] && !StreamOpen()
      ensures event.OtherEvent? ==>
        && messages == old(messages) && queue.syncQueue == old(queue.syncQueue) && streamLog == old(streamLog)
      ensures isStarted && stream == old(stream)
      ensures queue.currentSyncIndex == old(queue.currentSyncIndex) && queue.inFlight == old(queue.inFlight)
      ensures queue.isProcessingSync == old(queue.isProcessingSync) && nextStream == old(nextStream)
      ensures queue.ttsRequests == old(queue.ttsRequests) && queue.imageRequests == old(queue.imageRequests)
    {
      match event {
        case MessageEvent(speaker, text) =>
          messages := messages + [Message(speaker, text, now)];
          queue.AddToSyncQueue(speaker, text);
        case EndEvent(_) =>
          streamLog := streamLog + [Close(stream.value)];
        case OtherEvent(_) =>
      }
    }
  }

  /**
   * After the server ends the session, `isStarted` is still set, so pressing start
   * again only toggles playback: no second stream is ever opened.
   */
  method EndedSessionCannotRestart() returns (app: App)
    ensures app.isStarted && app.stream == Some(0)
    ensures app.streamLog == [Open(0), Close(0)]
    ensures !app.StreamOpen()
  {
    var urls := new UrlRegistry();
    var q := new SyncQueue(urls);
    var p := new Player(urls);
    app := new App(q, p);
    app.StartExperience(Started);
    app.OnEvent(EndEvent(None), 0);
    app.StartExperience(Started);
  }
}
