/**
 * The turn queue of the `useSyncQueue` hook (duplicated verbatim in `App`): an
 * append-only list of conversation turns and a single-flight pipeline that runs
 * the speech and image producers on the first unprocessed turn, writes their
 * object URLs back by turn id, and then marks that turn processed.
 *
 * React state becomes fields of the class `SyncQueue`; the effect that re-arms
 * the pipeline after every queue change becomes explicit calls of
 * `ProcessSyncQueue`. Each pipeline run has two halves: `ProcessSyncQueue`
 * dispatches the producers for a turn (the turn joins `inFlight`), and
 * `CompleteProcessing` is the moment `Promise.all` settles, with each producer's
 * outcome given as an argument.
 */
module SyncQueue {
  import opened Wrappers
  import opened ObjectUrls
  import opened ImageGenerator

  /** The text that marks a turn as a shock event, for which no speech is synthesised. */
  const SHOCK_TEXT: string := "ELECTRIC_SHOCK_IMAGE"

  const LEARNER: string := "Learner"
  const PROFESSOR: string := "Professor"
  const PARTICIPANT: string := "Participant"
  /** The speaker whose turns show the shock effect. */
  const SHOCKING_DEVICE: string := "SHOCKING_DEVICE"

  /**
   * A queue item. The pipeline writes `audioUrl` and `imageUrl`; the player reads
   * `audioBlob` and `imageBlob`, which nothing ever writes.
   */
  datatype Turn = Turn(
    id: nat,
    speaker: string,
    text: string,
    audioUrl: Option<Handle>,
    imageUrl: Option<Handle>,
    audioBlob: Option<Blob>,
    imageBlob: Option<Blob>,
    isProcessed: bool)

  /** The item `addToSyncQueue` builds: no media yet, not processed. */
  function NewTurn(id: nat, speaker: string, text: string): Turn
  {
    Turn(id, speaker, text, None, None, None, None, false)
  }

  /** `processAudioForItem` returns at once, without calling the speech producer, for the shock text. */
  predicate RequestsAudio(text: string)
  {
    text != SHOCK_TEXT
  }

  /** The parameter object `processImageForItem` builds from the speaker. */
  function ImageParamsFor(speaker: string, text: string): ImageParams
  {
    if speaker == LEARNER then EmptyParams.(learnerMessage := Some(text))
    else if speaker == PROFESSOR then EmptyParams.(professorMessage := Some(text))
    else if speaker == PARTICIPANT then EmptyParams.(participantMessage := Some(text))
    else if speaker == SHOCKING_DEVICE then EmptyParams.(displayShock := true)
    else EmptyParams
  }

  /** A call of the speech producer `fetchTTSAudio(speaker, text)`. */
  datatype TtsRequest = TtsRequest(speaker: string, text: string)

  /** How one media producer ends: a payload (turned into a fresh object URL), or a caught failure. */
  datatype Outcome = Produced | Failed

  /** The turn once its pipeline run has settled: the produced URLs written, processed. */
  function Resolved(t: Turn, audioUrl: Option<Handle>, imageUrl: Option<Handle>): Turn
  {
    t.(audioUrl := if audioUrl.Some? then audioUrl else t.audioUrl,
       imageUrl := if imageUrl.Some? then imageUrl else t.imageUrl,
       isProcessed := true)
  }

  /** One of the three `setSyncQueue(prev => prev.map(...))` write-backs. */
  datatype Patch = SetAudioUrl(audio: Handle) | SetImageUrl(image: Handle) | MarkProcessed

  function Apply(t: Turn, p: Patch): Turn
  {
    match p
    case SetAudioUrl(h) => t.(audioUrl := Some(h))
    case SetImageUrl(h) => t.(imageUrl := Some(h))
    case MarkProcessed => t.(isProcessed := true)
  }

  /** A turn keeps its identity and its blobs, and stays processed once processed. */
  ghost predicate SameTurn(before: Turn, after: Turn)
  {
    && after.id == before.id
    && after.speaker == before.speaker
    && after.text == before.text
    && after.audioBlob == before.audioBlob
    && after.imageBlob == before.imageBlob
    && (before.isProcessed ==> after.isProcessed)
  }

  /** `queue.map(item => item.id === id ? patch(item) : item)`. */
  function UpdateById(q: seq<Turn>, id: nat, p: Patch): (r: seq<Turn>)
    ensures |r| == |q|
    ensures forall i :: 0 <= i < |q| ==> SameTurn(q[i], r[i])
    ensures forall i :: 0 <= i < |q| && q[i].id != id ==> r[i] == q[i]
  {
    seq(|q|, i requires 0 <= i < |q| => if q[i].id == id then Apply(q[i], p) else q[i])
  }

  predicate HasId(q: seq<Turn>, id: nat)
  {
    exists i :: 0 <= i < |q| && q[i].id == id
  }

  /** A write-back for a turn that is no longer queued (after a reset) changes nothing. */
  lemma WriteBackAfterReset(q: seq<Turn>, id: nat, p: Patch)
    requires !HasId(q, id)
    ensures UpdateById(q, id, p) == q
  {
  }

  /** `queue.filter(item => !item.isProcessed)`. */
  function Unprocessed(q: seq<Turn>): seq<Turn>
  {
    if q == [] then []
    else (if q[0].isProcessed then [] else [q[0]]) + Unprocessed(q[1..])
  }

  /** The index of the first unprocessed turn in queue order (`|q|` when there is none). */
  function FirstPending(q: seq<Turn>): (k: nat)
    ensures k <= |q|
    ensures forall j :: 0 <= j < k ==> q[j].isProcessed
    ensures k < |q| ==> !q[k].isProcessed
  {
    if q == [] || !q[0].isProcessed then 0 else 1 + FirstPending(q[1..])
  }

  /** `unprocessedItems[0]` is the earliest unprocessed turn, and the filter is empty exactly when every turn is processed. */
  lemma {:induction false} UnprocessedHead(q: seq<Turn>)
    ensures Unprocessed(q) == [] <==> FirstPending(q) == |q|
    ensures FirstPending(q) < |q| ==> Unprocessed(q) != [] && Unprocessed(q)[0] == q[FirstPending(q)]
  {
    if q != [] {
      UnprocessedHead(q[1..]);
      if q[0].isProcessed {
        assert FirstPending(q) == 1 + FirstPending(q[1..]);
        assert Unprocessed(q) == Unprocessed(q[1..]);
        if FirstPending(q) < |q| {
          assert q[FirstPending(q)] == q[1..][FirstPending(q[1..])];
        }
      }
    }
  }

  /** Speaker to scene: which bubble or effect the rendered image of a turn shows. */
  lemma SceneForSpeaker(speaker: string, text: string)
    ensures speaker == PROFESSOR && text != [] ==> Overlays(ImageParamsFor(speaker, text)) == [SpeechBubble(text, Right)]
    ensures speaker == PARTICIPANT && text != [] ==> Overlays(ImageParamsFor(speaker, text)) == [SpeechBubble(text, Left)]
    ensures speaker == LEARNER && text != [] ==> Overlays(ImageParamsFor(speaker, text)) == [SpeechBubble(text, Up)]
    ensures speaker == SHOCKING_DEVICE ==> Overlays(ImageParamsFor(speaker, text)) == [ShockEffect]
    ensures text == [] ==> forall t, d :: SpeechBubble(t, d) !in Overlays(ImageParamsFor(speaker, text))
    ensures speaker !in {PROFESSOR, PARTICIPANT, LEARNER, SHOCKING_DEVICE} ==> ImageParamsFor(speaker, text) == EmptyParams
  {
    assert Overlays(EmptyParams) == [];
  }

  /**
   * The two shock discriminants disagree: a learner turn carrying the shock text
   * gets no speech but a learner bubble showing the sentinel text, while a turn of
   * the shocking device with any other text gets speech and the shock effect.
   */
  lemma ShockDiscriminantsDiffer(text: string)
    requires text != SHOCK_TEXT
    ensures !RequestsAudio(SHOCK_TEXT)
    ensures Overlays(ImageParamsFor(LEARNER, SHOCK_TEXT)) == [SpeechBubble(SHOCK_TEXT, Up)]
    ensures RequestsAudio(text) && Overlays(ImageParamsFor(SHOCKING_DEVICE, text)) == [ShockEffect]
  {
    SceneForSpeaker(LEARNER, SHOCK_TEXT);
    SceneForSpeaker(SHOCKING_DEVICE, text);
  }

  // ---------------------------------------------------------------------------
  // Queue invariants

  ghost predicate IdsBelow(q: seq<Turn>, bound: nat)
  {
    forall i :: 0 <= i < |q| ==> q[i].id < bound
  }

  ghost predicate DistinctIds(q: seq<Turn>)
  {
    forall i, j :: 0 <= i < j < |q| ==> q[i].id != q[j].id
  }

  /** The pipeline never sets the blob properties the player reads. */
  ghost predicate NoBlobs(q: seq<Turn>)
  {
    forall i :: 0 <= i < |q| ==> q[i].audioBlob == None && q[i].imageBlob == None
  }

  /** FIFO: the processed turns are a prefix of the queue. */
  ghost predicate ProcessedPrefix(q: seq<Turn>)
  {
    forall i, j :: 0 <= i < j < |q| && q[j].isProcessed ==> q[i].isProcessed
  }

  /** A turn that a pipeline run is working on is processed already or has only processed turns before it. */
  ghost predicate JobsAtFront(q: seq<Turn>, jobs: seq<Turn>)
  {
    forall k, i :: 0 <= k < |jobs| && 0 <= i < |q| && q[i].id == jobs[k].id ==>
      q[i].isProcessed || forall j :: 0 <= j < i ==> q[j].isProcessed
  }

  /** `after` is `before` with possibly more turns appended and some turns further along. */
  ghost predicate Grows(before: seq<Turn>, after: seq<Turn>)
  {
    |before| <= |after| && forall i :: 0 <= i < |before| ==> SameTurn(before[i], after[i])
  }

  /** Marking the turns of a running job processed keeps the processed turns a prefix. */
  lemma MarkKeepsPrefix(q: seq<Turn>, jobs: seq<Turn>, k: nat)
    requires k < |jobs| && ProcessedPrefix(q) && JobsAtFront(q, jobs)
    ensures ProcessedPrefix(UpdateById(q, jobs[k].id, MarkProcessed))
  {
    var r := UpdateById(q, jobs[k].id, MarkProcessed);
    forall i, j | 0 <= i < j < |r| && r[j].isProcessed ensures r[i].isProcessed {
      if q[j].id == jobs[k].id {
        assert q[j].isProcessed || q[i].isProcessed;
      }
    }
  }

  /** Progress of turns (never regress) keeps running jobs at the front. */
  lemma GrowsKeepsJobsAtFront(q: seq<Turn>, r: seq<Turn>, jobs: seq<Turn>)
    requires JobsAtFront(q, jobs) && Grows(q, r) && |r| == |q|
    ensures JobsAtFront(r, jobs)
  {
    forall k, i | 0 <= k < |jobs| && 0 <= i < |r| && r[i].id == jobs[k].id
      ensures r[i].isProcessed || forall j :: 0 <= j < i ==> r[j].isProcessed
    {
      assert SameTurn(q[i], r[i]);
      if !r[i].isProcessed {
        forall j | 0 <= j < i ensures r[j].isProcessed {
          assert SameTurn(q[j], r[j]);
        }
      }
    }
  }

  lemma RemoveJobKeepsJobsAtFront(q: seq<Turn>, jobs: seq<Turn>, k: nat)
    requires k < |jobs| && JobsAtFront(q, jobs)
    ensures JobsAtFront(q, jobs[..k] + jobs[k + 1..])
  {
    var rest := jobs[..k] + jobs[k + 1..];
    forall m | 0 <= m < |rest| ensures rest[m] in jobs {
    }
  }

  /** The queue invariants: a cursor on a processed turn, fresh distinct ids, no blobs, FIFO progress. */
  ghost predicate WellFormed(q: seq<Turn>, cursor: int, jobs: seq<Turn>, nextId: nat)
  {
    && -1 <= cursor < |q|
    && (cursor == -1 || q[cursor].isProcessed)
    && IdsBelow(q, nextId) && DistinctIds(q) && IdsBelow(jobs, nextId)
    && NoBlobs(q)
    && ProcessedPrefix(q)
    && JobsAtFront(q, jobs)
  }

  /** The three write-backs of one settled run, in the order the hook issues them. */
  function SettleRun(q: seq<Turn>, id: nat, audioUrl: Option<Handle>, imageUrl: Option<Handle>): seq<Turn>
  {
    var withAudio := if audioUrl.Some? then UpdateById(q, id, SetAudioUrl(audioUrl.value)) else q;
    var withImage := if imageUrl.Some? then UpdateById(withAudio, id, SetImageUrl(imageUrl.value)) else withAudio;
    UpdateById(withImage, id, MarkProcessed)
  }

  /** The write-backs of a running job resolve exactly the turns with its id, and keep the queue FIFO. */
  lemma SettleRunResolves(q: seq<Turn>, cursor: int, jobs: seq<Turn>, nextId: nat, k: nat,
                           audioUrl: Option<Handle>, imageUrl: Option<Handle>)
    requires k < |jobs| && WellFormed(q, cursor, jobs, nextId)
    ensures var r := SettleRun(q, jobs[k].id, audioUrl, imageUrl);
      && |r| == |q|
      && (forall i :: 0 <= i < |q| ==>
            r[i] == if q[i].id == jobs[k].id then Resolved(q[i], audioUrl, imageUrl) else q[i])
      && WellFormed(r, cursor, jobs[..k] + jobs[k + 1..], nextId)
  {
    var id := jobs[k].id;
    var a := if audioUrl.Some? then UpdateById(q, id, SetAudioUrl(audioUrl.value)) else q;
    var b := if imageUrl.Some? then UpdateById(a, id, SetImageUrl(imageUrl.value)) else a;
    assert |b| == |q| && forall i :: 0 <= i < |q| ==> b[i].isProcessed == q[i].isProcessed;
    assert Grows(q, b);
    GrowsKeepsJobsAtFront(q, b, jobs);
    MarkKeepsPrefix(b, jobs, k);
    var r := UpdateById(b, id, MarkProcessed);
    assert r == SettleRun(q, id, audioUrl, imageUrl);
    GrowsKeepsJobsAtFront(b, r, jobs);
    RemoveJobKeepsJobsAtFront(r, jobs, k);
    forall i | 0 <= i < |q|
      ensures r[i] == if q[i].id == id then Resolved(q[i], audioUrl, imageUrl) else q[i]
      ensures SameTurn(q[i], r[i])
    {
    }
    var rest := jobs[..k] + jobs[k + 1..];
    forall m | 0 <= m < |rest| ensures rest[m].id < nextId {
      assert rest[m] in jobs;
    }
  }

  class SyncQueue {
    /** The object-URL registry the producers' payloads are registered in. */
    const urls: UrlRegistry
    var syncQueue: seq<Turn>
    var currentSyncIndex: int
    var isProcessingSync: bool
    /** The `currentItem`s whose `Promise.all` has not settled yet, oldest first. */
    var inFlight: seq<Turn>
    /** Where fresh ids come from (the hook draws random strings and assumes them unique). */
    var nextId: nat
    /** Every call of the speech producer. */
    ghost var ttsRequests: seq<TtsRequest>
    /** Every call of the image producer. */
    ghost var imageRequests: seq<ImageParams>

    ghost predicate Valid()
      reads this
    {
      && WellFormed(syncQueue, currentSyncIndex, inFlight, nextId)
      && (forall r :: r in ttsRequests ==> r.text != SHOCK_TEXT)
    }

    /** At most one pipeline run at a time, and `isProcessingSync` says whether one is running. */
    ghost predicate SingleFlight()
      reads this
    {
      |inFlight| <= 1 && (isProcessingSync <==> |inFlight| == 1)
    }

    constructor (urls: UrlRegistry)
      ensures Valid() && SingleFlight()
      ensures this.urls == urls
      ensures syncQueue == [] && currentSyncIndex == -1 && !isProcessingSync && inFlight == []
      ensures ttsRequests == [] && imageRequests == []
    {
      this.urls := urls;
      syncQueue, currentSyncIndex, isProcessingSync := [], -1, false;
      inFlight, nextId := [], 0;
      ttsRequests, imageRequests := [], [];
    }

    /** `addToSyncQueue(speaker, text)`: one new unprocessed turn without media at the end. */
    method AddToSyncQueue(speaker: string, text: string)
      requires Valid()
      modifies this
      ensures Valid()
      ensures syncQueue == old(syncQueue) + [NewTurn(old(nextId), speaker, text)]
      ensures !HasId(old(syncQueue), old(nextId))
      ensures currentSyncIndex == old(currentSyncIndex) && isProcessingSync == old(isProcessingSync)
      ensures inFlight == old(inFlight)
      ensures ttsRequests == old(ttsRequests) && imageRequests == old(imageRequests)
      ensures old(SingleFlight()) ==> SingleFlight()
    {
      var turn := NewTurn(nextId, speaker, text);
      nextId := nextId + 1;
      syncQueue := syncQueue + [turn];
    }

    /**
     * `processSyncQueue()`: a no-op while a run is in flight or when every turn is
     * processed; otherwise dispatch both producers for the first unprocessed turn.
     */
    method ProcessSyncQueue()
      requires Valid()
      modifies this
      ensures Valid()
      ensures syncQueue == old(syncQueue) && currentSyncIndex == old(currentSyncIndex) && nextId == old(nextId)
      ensures old(isProcessingSync) || FirstPending(syncQueue) == |syncQueue| ==>
        && isProcessingSync == old(isProcessingSync) && inFlight == old(inFlight)
        && ttsRequests == old(ttsRequests) && imageRequests == old(imageRequests)
      ensures !old(isProcessingSync) && FirstPending(syncQueue) < |syncQueue| ==>
        var turn := syncQueue[FirstPending(syncQueue)];
        && isProcessingSync
        && inFlight == old(inFlight) + [turn]
        && ttsRequests == old(ttsRequests) + (if RequestsAudio(turn.text) then [TtsRequest(turn.speaker, turn.text)] else [])
        && imageRequests == old(imageRequests) + [ImageParamsFor(turn.speaker, turn.text)]
      ensures old(SingleFlight()) ==> SingleFlight()
    {
      if isProcessingSync {
        return;
      }
      var unprocessedItems := Unprocessed(syncQueue);
      UnprocessedHead(syncQueue);
      if |unprocessedItems| == 0 || isProcessingSync {
        return;
      }
      var currentItem := unprocessedItems[0];
      isProcessingSync := true;
      inFlight := inFlight + [currentItem];
      // Promise.all([processAudioForItem(currentItem), processImageForItem(currentItem)])
      if RequestsAudio(currentItem.text) {
        ttsRequests := ttsRequests + [TtsRequest(currentItem.speaker, currentItem.text)];
      }
      imageRequests := imageRequests + [ImageParamsFor(currentItem.speaker, currentItem.text)];
    }

    /**
     * The `Promise.all` of run `k` settles: each produced payload gets a fresh object
     * URL, written back by id; a failed producer leaves its URL as it was. Then
     * the turn with that id is marked processed and the in-flight flag is cleared.
     */
    method CompleteProcessing(k: nat, audio: Outcome, image: Outcome)
      returns (audioUrl: Option<Handle>, imageUrl: Option<Handle>)
      requires Valid() && urls.Valid()
      requires k < |inFlight|
      modifies this, urls
      ensures Valid() && urls.Valid()
      ensures audioUrl.Some? <==> audio == Produced && RequestsAudio(old(inFlight[k]).text)
      ensures imageUrl.Some? <==> image == Produced
      ensures audioUrl.Some? ==> audioUrl.value !in old(urls.live) && audioUrl.value in urls.live
      ensures imageUrl.Some? ==> imageUrl.value !in old(urls.live) && imageUrl.value in urls.live
      ensures audioUrl.Some? && imageUrl.Some? ==> audioUrl.value != imageUrl.value
      ensures urls.live == old(urls.live)
        + (if audioUrl.Some? then {audioUrl.value} else {}) + (if imageUrl.Some? then {imageUrl.value} else {})
      ensures urls.revoked == old(urls.revoked) && old(urls.next) <= urls.next
      ensures |syncQueue| == |old(syncQueue)|
      ensures forall i :: 0 <= i < |syncQueue| ==>
        syncQueue[i] == if old(syncQueue[i]).id == old(inFlight[k]).id
                        then Resolved(old(syncQueue[i]), audioUrl, imageUrl)
                        else old(syncQueue[i])
      ensures inFlight == old(inFlight[..k] + inFlight[k + 1..]) && !isProcessingSync
      ensures currentSyncIndex == old(currentSyncIndex) && nextId == old(nextId)
      ensures ttsRequests == old(ttsRequests) && imageRequests == old(imageRequests)
      ensures old(SingleFlight()) ==> SingleFlight()
    {
      var item := inFlight[k];
      audioUrl, imageUrl := CreateRunUrls(item.text, audio, image);
      // the write-backs by id, then the `.then()` that marks the turn processed
      SettleRunResolves(syncQueue, currentSyncIndex, inFlight, nextId, k, audioUrl, imageUrl);
      syncQueue := SettleRun(syncQueue, item.id, audioUrl, imageUrl);
      inFlight := inFlight[..k] + inFlight[k + 1..];
      isProcessingSync := false;
    }

    /**
     * The `URL.createObjectURL` calls of `processAudioForItem` and `processImageForItem`:
     * one fresh URL per produced payload, none for a failed producer or a skipped clip.
     */
    method CreateRunUrls(text: string, audio: Outcome, image: Outcome)
      returns (audioUrl: Option<Handle>, imageUrl: Option<Handle>)
      requires urls.Valid()
      modifies urls
      ensures urls.Valid()
      ensures audioUrl.Some? <==> audio == Produced && RequestsAudio(text)
      ensures imageUrl.Some? <==> image == Produced
      ensures audioUrl.Some? ==> audioUrl.value !in old(urls.live) && audioUrl.value in urls.live
      ensures imageUrl.Some? ==> imageUrl.value !in old(urls.live) && imageUrl.value in urls.live
      ensures audioUrl.Some? && imageUrl.Some? ==> audioUrl.value != imageUrl.value
      ensures urls.live == old(urls.live)
        + (if audioUrl.Some? then {audioUrl.value} else {}) + (if imageUrl.Some? then {imageUrl.value} else {})
      ensures urls.revoked == old(urls.revoked) && old(urls.next) <= urls.next
    {
      audioUrl := None;
      if RequestsAudio(text) && audio == Produced {
        var h := urls.Create();
        audioUrl := Some(h);
      }
      imageUrl := None;
      if image == Produced {
        var h := urls.Create();
        imageUrl := Some(h);
      }
    }

    /** `resetQueue()`: empty queue, no selection, not processing. Runs in flight are not cancelled. */
    method ResetQueue()
      requires Valid()
      modifies this
      ensures Valid()
      ensures syncQueue == [] && currentSyncIndex == -1 && !isProcessingSync
      ensures inFlight == old(inFlight) && nextId == old(nextId)
      ensures ttsRequests == old(ttsRequests) && imageRequests == old(imageRequests)
    {
      syncQueue := [];
      currentSyncIndex := -1;
      isProcessingSync := false;
    }
  }

  /**
   * A reset while a run is in flight leaves that run going and clears the flag,
   * so the next turn is dispatched beside it; when the stale run settles it clears
   * the flag of the new one, and the same turn is dispatched a second time.
   */
  method ResetDuringProcessing() returns (q: SyncQueue)
    ensures |q.syncQueue| == 1 && !q.syncQueue[0].isProcessed
    ensures q.inFlight == [q.syncQueue[0], q.syncQueue[0]]
    ensures !q.SingleFlight()
  {
    var urls := new UrlRegistry();
    q := new SyncQueue(urls);
    q.AddToSyncQueue(PROFESSOR, "Hello");
    q.ProcessSyncQueue();
    q.ResetQueue();
    q.AddToSyncQueue(LEARNER, "Hi");
    q.ProcessSyncQueue();
    assert |q.inFlight| == 2 && q.isProcessingSync;
    var staleId := q.inFlight[0].id;
    assert staleId != q.syncQueue[0].id;
    var _, _ := q.CompleteProcessing(0, Produced, Produced);
    assert q.syncQueue[0] == NewTurn(q.syncQueue[0].id, LEARNER, "Hi");
    q.ProcessSyncQueue();
  }
}
