/**
 * The session glue of the `useExperienceManager` hook: starting a session
 * (clear the transcript, reset queue and player, open a fresh event stream),
 * and dispatching the stream's already-parsed events. A `message` event grows the
 * transcript and the turn queue together, which is what lets the transcript
 * highlight the entry whose index is the player's `currentSyncIndex`.
 */
module Experience {
  import opened Wrappers
  import opened ObjectUrls
  import opened SyncQueue
  import opened AudioPlayer

  /** A transcript entry; `new Date()` becomes a timestamp argument. */
  datatype Message = Message(speaker: string, text: string, timestamp: int)

  /** A stream event after `JSON.parse`, by its `type`. */
  datatype StreamEvent =
    | MessageEvent(speaker: string, text: string)
    | EndEvent(reason: Option<string>)
    | OtherEvent(kind: string)

  /** What happened to the event streams, in order. */
  datatype StreamOp = Open(stream: nat) | Close(stream: nat)

  /** Entry `i` of the transcript is turn `i` of the queue: same length, same speakers, same texts. */
  predicate Aligned(messages: seq<Message>, q: seq<Turn>)
  {
    && |messages| == |q|
    && forall i :: 0 <= i < |q| ==> messages[i].speaker == q[i].speaker && messages[i].text == q[i].text
  }

  /** Appending a message and the turn built from the same speaker and text keeps alignment. */
  lemma AlignedAppend(messages: seq<Message>, q: seq<Turn>, m: Message, t: Turn)
    requires Aligned(messages, q)
    requires m.speaker == t.speaker && m.text == t.text
    ensures Aligned(messages + [m], q + [t])
  {
  }

  /** The `isCurrentlyPlaying` flag of each transcript entry. */
  function Highlight(messages: seq<Message>, currentSyncIndex: int): (flags: seq<bool>)
    ensures |flags| == |messages|
  {
    seq(|messages|, i requires 0 <= i < |messages| => i == currentSyncIndex)
  }

  /**
   * With the transcript aligned to the queue and the cursor on a processed turn
   * (or none), the highlighted entry is exactly the transcript line of the turn
   * being played, and nothing is highlighted when no turn is selected.
   */
  lemma HighlightShowsPlayingTurn(messages: seq<Message>, q: seq<Turn>, currentSyncIndex: int)
    requires Aligned(messages, q) && OnProcessed(currentSyncIndex, q)
    ensures var flags := Highlight(messages, currentSyncIndex);
      && (forall i :: 0 <= i < |flags| && flags[i] ==> i == currentSyncIndex)
      && (currentSyncIndex == -1 ==> true !in flags)
      && (currentSyncIndex >= 0 ==>
            && flags[currentSyncIndex]
            && messages[currentSyncIndex].speaker == q[currentSyncIndex].speaker
            && messages[currentSyncIndex].text == q[currentSyncIndex].text
            && q[currentSyncIndex].isProcessed)
  {
  }

  /** A stream is open when it was opened and has not been closed. */
  ghost predicate IsOpen(log: seq<StreamOp>, s: nat)
  {
    Open(s) in log && Close(s) !in log
  }

  /** Stream identities are fresh, the ref points to an opened stream, and no other stream is open. */
  ghost predicate StreamsOk(log: seq<StreamOp>, stream: Option<nat>, next: nat)
  {
    && (forall op :: op in log ==> op.stream < next)
    && (stream.Some? ==> Open(stream.value) in log && stream.value < next)
    && (forall s: nat :: IsOpen(log, s) ==> stream == Some(s))
  }

  /** Closing the stream the ref points to and opening a fresh one leaves exactly the fresh one open. */
  lemma ReopenLeavesOneOpen(log: seq<StreamOp>, stream: Option<nat>, next: nat)
    requires StreamsOk(log, stream, next)
    ensures var reopened := log + (if stream.Some? then [Close(stream.value)] else []) + [Open(next)];
      && StreamsOk(reopened, Some(next), next + 1)
      && IsOpen(reopened, next)
  {
    var reopened := log + (if stream.Some? then [Close(stream.value)] else []) + [Open(next)];
    forall op | op in reopened ensures op.stream < next + 1 {
      assert op in log || (stream.Some? && op == Close(stream.value)) || op == Open(next);
    }
    assert Close(next) !in log;
  }

  class ExperienceManager {
    const queue: SyncQueue
    const player: Player
    var messages: seq<Message>
    var isStarted: bool
    var followCurrentMessage: bool
    /** `eventSourceRef.current`. */
    var stream: Option<nat>
    /** Where fresh stream identities come from. */
    var nextStream: nat
    ghost var streamLog: seq<StreamOp>

    ghost predicate Valid()
      reads this, queue, player, queue.urls, player.urls
    {
      && queue.Valid() && player.Valid() && player.urls == queue.urls
      && Aligned(messages, queue.syncQueue)
      && StreamsOk(streamLog, stream, nextStream)
    }

    ghost predicate StreamOpen()
      reads this
    {
      stream.Some? && IsOpen(streamLog, stream.value)
    }

    constructor (queue: SyncQueue, player: Player)
      requires queue.Valid() && player.Valid() && player.urls == queue.urls && queue.syncQueue == []
      ensures Valid()
      ensures this.queue == queue && this.player == player
      ensures messages == [] && !isStarted && followCurrentMessage && stream == None && streamLog == []
    {
      this.queue := queue;
      this.player := player;
      messages := [];
      isStarted := false;
      followCurrentMessage := true;
      stream := None;
      nextStream := 0;
      streamLog := [];
    }

    /**
     * `startExperience`: clear the transcript, reset the queue and the player,
     * follow the current message, close the stream the ref points to (if any),
     * then open a fresh stream.
     */
    method StartExperience()
      requires Valid()
      modifies this, queue, player`isPlaying, player`isMuted, player`isManuallyPaused, player`currentImage
      ensures Valid()
      ensures messages == [] && followCurrentMessage && isStarted
      ensures queue.syncQueue == [] && queue.currentSyncIndex == -1 && !queue.isProcessingSync
      ensures queue.inFlight == old(queue.inFlight) && queue.nextId == old(queue.nextId)
      ensures queue.ttsRequests == old(queue.ttsRequests) && queue.imageRequests == old(queue.imageRequests)
      ensures !player.isPlaying && !player.isMuted && !player.isManuallyPaused && player.currentImage == None
      ensures player.volume == old(player.volume) && player.playbackRate == old(player.playbackRate)
      // The element is left alone: a clip that was playing goes on playing.
      ensures player.paused == old(player.paused) && player.src == old(player.src)
      ensures player.cleanupUrl == old(player.cleanupUrl) && player.onLoadedData == old(player.onLoadedData)
      ensures stream == Some(old(nextStream)) && Open(stream.value) !in old(streamLog)
      ensures streamLog == old(streamLog)
        + (if old(stream).Some? then [Close(old(stream).value)] else [])
        + [Open(stream.value)]
      ensures StreamOpen()
    {
      messages := [];
      queue.ResetQueue();
      player.ResetAudioPlayer();
      followCurrentMessage := true;
      Reopen();
      isStarted := true;
    }

    /** Close the stream the ref points to, if any, then open a fresh one and point the ref at it. */
    method Reopen()
      requires StreamsOk(streamLog, stream, nextStream)
      modifies this`stream, this`streamLog, this`nextStream
      ensures StreamsOk(streamLog, stream, nextStream)
      ensures stream == Some(old(nextStream)) && Open(stream.value) !in old(streamLog)
      ensures streamLog == old(streamLog)
        + (if old(stream).Some? then [Close(old(stream).value)] else [])
        + [Open(stream.value)]
      ensures StreamOpen()
    {
      ReopenLeavesOneOpen(streamLog, stream, nextStream);
      if stream.Some? {
        streamLog := streamLog + [Close(stream.value)];
      }
      stream := Some(nextStream);
      streamLog := streamLog + [Open(nextStream)];
      nextStream := nextStream + 1;
    }

    /**
     * The stream's `onmessage` handler: a `message` appends one transcript entry
     * and enqueues one turn with the same speaker and text; an `end` closes the
     * stream and ends the session; any other type changes nothing.
     */
    method OnEvent(event: StreamEvent, now: int)
      requires Valid() && StreamOpen()
      modifies this, queue
      ensures Valid()
      ensures event.MessageEvent? ==>
        && messages == old(messages) + [Message(event.speaker, event.text, now)]
        && queue.syncQueue == old(queue.syncQueue) + [NewTurn(old(queue.nextId), event.speaker, event.text)]
        && isStarted == old(isStarted) && streamLog == old(streamLog) && StreamOpen()
      ensures event.EndEvent? ==>
        && messages == old(messages) && queue.syncQueue == old(queue.syncQueue)
        && !isStarted && stream.Some? && streamLog == old(streamLog) + [Close(stream.value)] && !StreamOpen()
      ensures event.OtherEvent? ==>
        && messages == old(messages) && queue.syncQueue == old(queue.syncQueue)
        && isStarted == old(isStarted) && streamLog == old(streamLog)
      ensures stream == old(stream) && followCurrentMessage == old(followCurrentMessage)
      ensures queue.currentSyncIndex == old(queue.currentSyncIndex) && queue.inFlight == old(queue.inFlight)
      ensures queue.isProcessingSync == old(queue.isProcessingSync)
      ensures queue.ttsRequests == old(queue.ttsRequests) && queue.imageRequests == old(queue.imageRequests)
    {
      match event {
        case MessageEvent(speaker, text) =>
          messages := messages + [Message(speaker, text, now)];
          queue.AddToSyncQueue(speaker, text);
        case EndEvent(_) =>
          streamLog := streamLog + [Close(stream.value)];
          isStarted := false;
        case OtherEvent(_) =>
      }
    }

    /** The stream's `onerror` handler: close the stream and end the session. */
    method OnError()
      requires Valid() && stream.Some?
      modifies this
      ensures Valid()
      ensures !isStarted && stream.Some? && streamLog == old(streamLog) + [Close(stream.value)] && !StreamOpen()
      ensures messages == old(messages) && stream == old(stream)
      ensures followCurrentMessage == old(followCurrentMessage) && nextStream == old(nextStream)
    {
      streamLog := streamLog + [Close(stream.value)];
      isStarted := false;
    }

    /** The effect that re-arms the queue after each change. */
    method PumpQueue()
      requires Valid()
      modifies queue
      ensures Valid()
      ensures queue.syncQueue == old(queue.syncQueue) && queue.currentSyncIndex == old(queue.currentSyncIndex)
      ensures queue.nextId == old(queue.nextId)
      ensures old(queue.isProcessingSync) || FirstPending(queue.syncQueue) == |queue.syncQueue| ==>
        && queue.isProcessingSync == old(queue.isProcessingSync) && queue.inFlight == old(queue.inFlight)
        && queue.ttsRequests == old(queue.ttsRequests) && queue.imageRequests == old(queue.imageRequests)
      ensures !old(queue.isProcessingSync) && FirstPending(queue.syncQueue) < |queue.syncQueue| ==>
        var turn := queue.syncQueue[FirstPending(queue.syncQueue)];
        && queue.isProcessingSync
        && queue.inFlight == old(queue.inFlight) + [turn]
        && queue.ttsRequests == old(queue.ttsRequests) + (if RequestsAudio(turn.text) then [TtsRequest(turn.speaker, turn.text)] else [])
        && queue.imageRequests == old(queue.imageRequests) + [ImageParamsFor(turn.speaker, turn.text)]
      ensures old(queue.SingleFlight()) ==> queue.SingleFlight()
    {
      queue.ProcessSyncQueue();
    }

    /** A pipeline run settles; its write-backs never break the transcript alignment. */
    method OnRunSettled(k: nat, audio: Outcome, image: Outcome)
      returns (audioUrl: Option<Handle>, imageUrl: Option<Handle>)
      requires Valid() && k < |queue.inFlight|
      modifies queue, queue.urls
      ensures Valid()
      ensures audioUrl.Some? <==> audio == Produced && RequestsAudio(old(queue.inFlight[k]).text)
      ensures imageUrl.Some? <==> image == Produced
      ensures audioUrl.Some? ==> audioUrl.value !in old(queue.urls.live) && audioUrl.value in queue.urls.live
      ensures imageUrl.Some? ==> imageUrl.value !in old(queue.urls.live) && imageUrl.value in queue.urls.live
      ensures queue.urls.live == old(queue.urls.live)
        + (if audioUrl.Some? then {audioUrl.value} else {}) + (if imageUrl.Some? then {imageUrl.value} else {})
      ensures queue.urls.revoked == old(queue.urls.revoked)
      ensures |queue.syncQueue| == |old(queue.syncQueue)| && queue.currentSyncIndex == old(queue.currentSyncIndex)
      ensures forall i :: 0 <= i < |queue.syncQueue| ==>
        queue.syncQueue[i] == if old(queue.syncQueue[i]).id == old(queue.inFlight[k]).id
                              then Resolved(old(queue.syncQueue[i]), audioUrl, imageUrl)
                              else old(queue.syncQueue[i])
      ensures queue.inFlight == old(queue.inFlight[..k] + queue.inFlight[k + 1..]) && !queue.isProcessingSync
      ensures forall i :: 0 <= i < |queue.syncQueue| && old(queue.syncQueue[i]).id == old(queue.inFlight[k]).id ==>
        queue.syncQueue[i].isProcessed
    {
      audioUrl, imageUrl := queue.CompleteProcessing(k, audio, image);
    }

    /** The player's first-item effect, driven by this session's `isStarted`. */
    method SelectFirstItem()
      requires Valid()
      modifies queue`currentSyncIndex
      ensures Valid()
      ensures queue.currentSyncIndex ==
        FirstItem(old(queue.currentSyncIndex), queue.syncQueue, isStarted, player.isManuallyPaused)
    {
      player.FirstItemEffect(queue, isStarted);
    }

    /** The audio element's `ended` event: the highlight follows the cursor. */
    method OnAudioEnded()
      requires Valid()
      modifies player`isPlaying, player`isManuallyPaused, player`cleanupUrl, queue.urls, queue`currentSyncIndex
      ensures Valid()
      ensures player.CursorOf(queue) == Ended(old(player.CursorOf(queue)), queue.syncQueue)
      ensures player.cleanupUrl == None
      ensures queue.urls.live ==
        old(queue.urls.live) - (if old(player.cleanupUrl).Some? then {old(player.cleanupUrl).value} else {})
      ensures queue.urls.revoked ==
        old(queue.urls.revoked) + (if old(player.cleanupUrl).Some? then [old(player.cleanupUrl).value] else [])
      ensures Highlight(messages, queue.currentSyncIndex) == Highlight(messages, Ended(old(player.CursorOf(queue)), queue.syncQueue).index)
    {
      player.HandleEnded(queue);
    }
  }

  /**
   * A session in which the professor speaks first: once the turn is produced
   * (even with its image failing) the first-item effect selects it, and the
   * transcript highlights the professor's line.
   */
  method FirstTurnIsHighlighted() returns (m: ExperienceManager)
    ensures m.messages == [Message(PROFESSOR, "Hello", 0)]
    ensures |m.queue.syncQueue| == 1 && m.queue.currentSyncIndex == 0 && m.queue.syncQueue[0].isProcessed
    ensures Highlight(m.messages, m.queue.currentSyncIndex) == [true]
  {
    var urls := new UrlRegistry();
    var q := new SyncQueue(urls);
    var p := new Player(urls);
    m := new ExperienceManager(q, p);
    m.StartExperience();
    assert m.queue.inFlight == [] && !m.queue.isProcessingSync && m.isStarted && !m.player.isManuallyPaused;
    m.OnEvent(MessageEvent(PROFESSOR, "Hello"), 0);
    assert |m.queue.syncQueue| == 1 && !m.queue.syncQueue[0].isProcessed && m.queue.currentSyncIndex == -1;
    assert FirstPending(m.queue.syncQueue) == 0;
    m.PumpQueue();
    assert m.queue.inFlight == [m.queue.syncQueue[0]];
    var _, _ := m.OnRunSettled(0, Produced, Failed);
    assert m.queue.syncQueue[0].isProcessed && m.queue.currentSyncIndex == -1;
    m.SelectFirstItem();
  }
}
