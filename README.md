# milgram-frontend turn synchronisation, modelled in Dafny

This project models the core of a browser client. The client plays back a simulated
Milgram-experiment conversation. A server streams speaker/text turns to it. For each turn,
the client produces a speech clip and a rendered scene image. It then plays the turns back
in order while the transcript highlights the turn being played.

The model covers five parts:

- **Turn queue** (`useSyncQueue`, and its copy in `App`). This is an append-only list of
  turns plus a single-flight pipeline. The pipeline takes the first unprocessed turn and
  runs the speech and image producers on it. It writes the resulting object URLs back by
  turn id, then marks the turn processed. Each producer either produces a payload, which
  gets a fresh object URL, or fails; on failure the URL stays unset. This is the module
  `SyncQueue`.
- **Playback cursor** (`useAudioPlayer`). This part handles next/previous seeking, the
  first-item and autoplay effects, the audio element's `loadeddata`/`play`/`pause`/`ended`
  events, play/pause, mute, volume, rate and reset. Cursor moves are pure functions, and
  the class `AudioPlayer.Player` is proved to follow them. The module is `AudioPlayer`.
- **Session glue** (`useExperienceManager`, and `startExperience` in `App`). This covers
  starting a session and dispatching stream events. The transcript and the queue grow in
  lockstep, which is what the transcript highlight relies on. The modules are `Experience`
  and `AppShell`.
- **LRU image cache** (`ImageCache`). The module is `ImageCache`.
- **Scene decisions of the image generator**. These are the parameters→overlays dispatch,
  the bubble anchor table with its corner arithmetic, and `wrapText`. The modules are
  `ImageGenerator` and `TextWrap`.

`URL.createObjectURL` and `URL.revokeObjectURL` become the registry `ObjectUrls.UrlRegistry`.
It tracks a set of live handles and a log of every revocation.

## Surprising behaviour of the code

- **Reset does not cancel a running pipeline run.** `resetQueue` clears `isProcessingSync`.
  A later turn is then dispatched beside the stale run. When the stale run settles, it
  clears the flag of the new run, and the same turn is dispatched a second time
  (`SyncQueue.ResetDuringProcessing`). The stale run's write-backs do change nothing, since
  they match by id (`SyncQueue.WriteBackAfterReset`).
- **Reset releases no object URLs.** Neither `resetQueue` nor `resetAudioPlayer` revokes
  anything. The turns' URLs and the displayed image stay live.
- **The player never finds any media.** The player reads `imageBlob`/`audioBlob`, but the
  queue writes `audioUrl`/`imageUrl`. On any valid queue, `playCurrentItem` therefore does
  nothing (`AudioPlayer.Player.PlayCurrentItem`).
- **Shock turns have two discriminants.** Audio is skipped when the text is
  `ELECTRIC_SHOCK_IMAGE`. The shock image is drawn when the speaker is `SHOCKING_DEVICE`.
- **`handleEnded` can replay a turn.** If it fires while the next turn is still unprocessed,
  it leaves the cursor on the ended turn with both flags clear. The autoplay guard then
  holds again for that turn.
- **`App`'s end event leaves the session started.** In `App`, an `end` event closes the
  stream but leaves `isStarted` set, so a later start only toggles playback. The hook
  version clears `isStarted`.

## Model

| member | source | states |
|---|---|---|
| ObjectUrls.UrlRegistry.Create | src/hooks/useSyncQueue.js:32 | `createObjectURL` returns a handle never handed out before, adds it to the live set and revokes nothing |
| ObjectUrls.UrlRegistry.Revoke | src/hooks/useAudioPlayer.js:62 | `revokeObjectURL` removes the handle from the live set and logs exactly one revocation |
| SyncQueue.UpdateById | src/hooks/useSyncQueue.js:34-40 | a write-back by id keeps the queue length, leaves every turn with another id unchanged, and never changes identity, blobs or a processed flag already set |
| SyncQueue.WriteBackAfterReset | src/App.js:160-166 | a write-back for an id no longer in the queue (after a reset) changes nothing |
| SyncQueue.FirstPending | src/hooks/useSyncQueue.js:81 | the index of the first unprocessed turn; every turn before it is processed |
| SyncQueue.UnprocessedHead | src/hooks/useSyncQueue.js:81-87 | `unprocessedItems[0]` is the earliest unprocessed turn in queue order, and the filter is empty exactly when every turn is processed |
| SyncQueue.SceneForSpeaker | src/hooks/useSyncQueue.js:48-57 | Professor → right bubble, Participant → left bubble, Learner → up bubble, SHOCKING_DEVICE → shock effect; any other speaker gives empty params and an empty text draws no bubble |
| SyncQueue.ShockDiscriminantsDiffer | src/hooks/useSyncQueue.js:26-28 | the shock text skips speech but is drawn as a learner bubble; a SHOCKING_DEVICE turn with other text gets speech and the shock effect |
| SyncQueue.MarkKeepsPrefix | src/hooks/useSyncQueue.js:94-100 | marking the running turn processed keeps the processed turns a prefix of the queue (FIFO) |
| SyncQueue.SettleRunResolves | src/hooks/useSyncQueue.js:90-101 | the settled run's write-backs resolve exactly the turns with its id and keep every queue invariant |
| SyncQueue.SyncQueue.constructor | src/hooks/useSyncQueue.js:6-8 | empty queue, index -1, not processing |
| SyncQueue.SyncQueue.AddToSyncQueue | src/hooks/useSyncQueue.js:10-23 | appends exactly one unprocessed turn with a fresh id and no URLs; the prefix, the index and the in-flight state are unchanged (the copy at `src/App.js:99-112` is the same) |
| SyncQueue.SyncQueue.ProcessSyncQueue | src/hooks/useSyncQueue.js:74-109 | a no-op while a run is in flight or when every turn is processed; otherwise dispatches both producers for the first unprocessed turn (speech only without the shock text, image params by speaker) and sets the flag; if at most one run was in flight before, at most one is after (the copy at `src/App.js:114-149` is the same) |
| SyncQueue.SyncQueue.CreateRunUrls | src/hooks/useSyncQueue.js:25-60 | one fresh live URL per produced payload (two distinct ones when both are produced), none for a failed producer or a skipped clip; the live set grows by exactly those URLs and nothing is revoked |
| SyncQueue.SyncQueue.CompleteProcessing | src/hooks/useSyncQueue.js:25-72 | speech and image write-backs of a run: a produced payload gets a fresh live URL written to the turns with the run's id, a failure leaves that URL unset; the live set grows by exactly those URLs and nothing is revoked; the turn still becomes processed, every other turn and the length are unchanged, and the flag is cleared (the copy at `src/App.js:151-198` is the same) |
| SyncQueue.SyncQueue.ResetQueue | src/hooks/useSyncQueue.js:116-120 | empty queue, index -1, flag cleared; runs in flight are left running |
| SyncQueue.ResetDuringProcessing | src/hooks/useSyncQueue.js:116-120 | a reset during a run lets a second run start beside it, and its late completion leads to the same turn being dispatched twice |
| AudioPlayer.MovesStayOnProcessed | src/hooks/useAudioPlayer.js:13-46 | every cursor move (next, previous, ended, toggle, first item) keeps the index on a processed turn or -1 |
| AudioPlayer.NextMovesOnlyOntoProcessed | src/hooks/useAudioPlayer.js:13-29 | the index moves to i+1 exactly when that turn exists and is processed, clearing both flags; onto an unprocessed turn nothing changes; at the end the index stays, playing stops and the manual pause is set |
| AudioPlayer.PreviousMovesOnlyOntoProcessed | src/hooks/useAudioPlayer.js:32-46 | the index moves to i-1 exactly when it is ≥ 0 and processed; with no previous turn the index stays and both flags are cleared |
| AudioPlayer.SeekRoundTrip | src/hooks/useAudioPlayer.js:13-46 | next then previous (and previous then next) returns to the same turn with both flags clear |
| AudioPlayer.FirstItemSelectsProcessedHead | src/hooks/useAudioPlayer.js:106-113 | index 0 is selected exactly when started, not paused, index -1, queue non-empty and turn 0 processed |
| AudioPlayer.EndedAdvancesOrStops | src/hooks/useAudioPlayer.js:143-159 | at the last turn: stop with the manual pause set and autoplay off; otherwise move to a processed next turn, which autoplay then plays |
| AudioPlayer.EndedBeforeNextIsReadyReplays | src/hooks/useAudioPlayer.js:150-158 | when the next turn is unprocessed the cursor stays with both flags clear, so autoplay fires on the same turn again |
| AudioPlayer.EndedWalksToLastTurn | src/hooks/useAudioPlayer.js:143-159 | over a fully processed queue, n ended events advance n turns and come to rest on the last turn, paused |
| AudioPlayer.ToggleFlipsManualPause | src/hooks/useAudioPlayer.js:174-191 | no-op with index -1 or an empty queue; otherwise the manual pause becomes "was playing" |
| AudioPlayer.Player.constructor | src/hooks/useAudioPlayer.js:4-9 | not playing, not muted, not paused, volume 1, rate 2, no image |
| AudioPlayer.Player.PlayNextItem | src/hooks/useAudioPlayer.js:13-29 | moves the cursor as `Next` and keeps the queue valid |
| AudioPlayer.Player.PlayPreviousItem | src/hooks/useAudioPlayer.js:32-46 | moves the cursor as `Previous` and keeps the queue valid |
| AudioPlayer.Player.PlayCurrentItem | src/hooks/useAudioPlayer.js:48-103 | nothing changes unless a processed turn is selected; the shown image changes exactly when that turn has an `imageBlob`, revoking the previously shown URL exactly once for a fresh live one; the element's source changes exactly when it has an `audioBlob`, to a fresh URL that becomes the cleanup URL and the callback's, with the pause flag captured; otherwise the element is untouched; only the image and element fields and the registry may change; on a valid queue (no blobs) nothing changes |
| AudioPlayer.Player.ShowImage | src/hooks/useAudioPlayer.js:59-65 | revokes the image shown before (if any) exactly once and shows a fresh live URL, different from it |
| AudioPlayer.Player.LoadAudio | src/hooks/useAudioPlayer.js:68-101 | pauses the element and points it at a fresh live URL, which also becomes the cleanup URL and the callback's, with the pause flag captured; revokes nothing |
| AudioPlayer.Player.RevokeAudio | src/hooks/useAudioPlayer.js:80-82 | revoking a clip's URL logs exactly one revocation and keeps the displayed image live |
| AudioPlayer.Player.FirstItemEffect | src/hooks/useAudioPlayer.js:106-113 | sets the index as `FirstItem` and keeps the queue valid |
| AudioPlayer.Player.AutoplayEffect | src/hooks/useAudioPlayer.js:116-124 | fires exactly when not playing, not paused, started and a processed turn is selected; otherwise changes nothing; when it fires, it promises what `PlayCurrentItem` promises: the image swaps exactly when the turn has an `imageBlob`, the source is reloaded exactly when it has an `audioBlob`, with the same registry updates |
| AudioPlayer.Player.ApplyElementSettings | src/hooks/useAudioPlayer.js:131-134 | the `loadeddata` listener gives the element volume 0 when muted, else the volume, and the rate; nothing else changes |
| AudioPlayer.Player.OnLoadedData | src/hooks/useAudioPlayer.js:85-98 | the element plays exactly when the callback was installed unpaused and `play()` starts; a non-abort rejection stops, revokes the clip's URL once, dropping exactly it from the live set, and moves as `Next`; otherwise the cursor and the registry are unchanged; mute, volume, rate, image, source and callback never change |
| AudioPlayer.Player.SkipFailedClip | src/hooks/useAudioPlayer.js:88-96 | the rejection handler stops, revokes the clip's URL exactly once (the live set loses exactly that URL) and moves the cursor as `Next` |
| AudioPlayer.Player.OnPlay | src/hooks/useAudioPlayer.js:136 | the `play` event sets playing |
| AudioPlayer.Player.OnPause | src/hooks/useAudioPlayer.js:137-141 | the `pause` event clears playing unless the clip has ended |
| AudioPlayer.Player.HandleEnded | src/hooks/useAudioPlayer.js:143-159 | revokes the clip's cleanup URL exactly once and forgets it, the live set losing exactly that URL, then moves the cursor as `Ended`; mute, volume, rate, image and the element are unchanged |
| AudioPlayer.Player.TogglePlayPause | src/hooks/useAudioPlayer.js:174-191 | no-op without a selected turn; pausing sets the manual pause and pauses the element; resuming clears it, and a failed play leaves the player stopped |
| AudioPlayer.Player.ToggleMute | src/hooks/useAudioPlayer.js:193-201 | flips mute; the element's volume becomes 0 or the stored volume |
| AudioPlayer.Player.HandleVolumeChange | src/hooks/useAudioPlayer.js:203-208 | stores the volume; the element hears it only when not muted |
| AudioPlayer.Player.HandlePlaybackRateChange | src/hooks/useAudioPlayer.js:210-215 | stores the rate and applies it to the element |
| AudioPlayer.Player.SetIsManuallyPaused | src/App.js:77 | the exported setter sets the manual pause |
| AudioPlayer.Player.ResetAudioPlayer | src/hooks/useAudioPlayer.js:217-222 | clears playing, muted, paused and the image (without revoking it); volume and rate are unchanged |
| Experience.AlignedAppend | src/hooks/useExperienceManager.js:31-38 | appending a message and a turn with the same speaker and text keeps transcript and queue aligned |
| Experience.HighlightShowsPlayingTurn | src/components/MessageHistory.js:47-48 | with aligned transcript and queue, the only highlighted entry is the transcript line of the processed turn being played; none when no turn is selected |
| Experience.ReopenLeavesOneOpen | src/hooks/useExperienceManager.js:19-24 | closing the referenced stream and opening a fresh one leaves exactly the fresh one open |
| Experience.ExperienceManager.constructor | src/hooks/useExperienceManager.js:5-9 | no messages, not started, following, no stream |
| Experience.ExperienceManager.StartExperience | src/hooks/useExperienceManager.js:12-53 | clears messages, resets queue and player (runs in flight, ids and requests kept; volume and rate kept), sets follow and started; the audio element is untouched, so a clip that was playing goes on; the previous stream is closed before a fresh one is opened, which is then the only open stream |
| Experience.ExperienceManager.Reopen | src/hooks/useExperienceManager.js:19-24 | closes the stream the ref points to, if any, before opening a fresh one; the fresh one is then the only open stream |
| Experience.ExperienceManager.OnEvent | src/hooks/useExperienceManager.js:26-46 | `message` grows the transcript and the queue by one each, with equal speaker and text; `end` closes the stream and clears started; any other type changes nothing; no event calls a producer (the speech and image request logs are unchanged) |
| Experience.ExperienceManager.OnError | src/hooks/useExperienceManager.js:48-52 | closes the stream and clears started; transcript, follow flag and stream ref are unchanged |
| Experience.ExperienceManager.PumpQueue | src/hooks/useSyncQueue.js:112-114 | the re-arming effect: a no-op while a run is in flight or nothing is pending; otherwise dispatches the first unprocessed turn with its speech and image requests; single-flight is kept |
| Experience.ExperienceManager.OnRunSettled | src/hooks/useSyncQueue.js:90-101 | a settled run writes fresh live URLs for the produced payloads (the live set grows by exactly those, nothing is revoked) to the turns with its id and marks them processed, leaves every other turn unchanged, clears the flag and drops the run; transcript alignment is kept |
| Experience.ExperienceManager.SelectFirstItem | src/hooks/useAudioPlayer.js:106-113 | the first-item effect with this session's started flag |
| Experience.ExperienceManager.OnAudioEnded | src/hooks/useAudioPlayer.js:143-159 | the `ended` event revokes the clip's cleanup URL exactly once and forgets it (the live set loses exactly that URL), moves the cursor as `Ended`, and the highlight follows it |
| Experience.FirstTurnIsHighlighted | src/components/MessageHistory.js:47-48 | once the first turn is produced (even with a failed image), it is selected and its transcript line is highlighted |
| AppShell.App.constructor | src/App.js:14-22 | no messages, not started, no stream, over an empty queue whose index is -1 |
| AppShell.App.StartExperience | src/App.js:68-97 | once started, only toggles play/pause (the element pauses or plays as `togglePlayPause` does); the first time, sets started, clears the manual pause and opens the only stream; volume, mute, image and source are unchanged |
| AppShell.App.OnEvent | src/App.js:80-92 | `message` grows transcript and queue by one each with equal speaker and text; `end` closes the stream and leaves started set; the index, the runs in flight, the flag and the requests are unchanged |
| AppShell.EndedSessionCannotRestart | src/App.js:68-73 | after an `end` event a second start opens no new stream |
| ImageCache.FindIn | src/utils/imageCache.js:15-16 | a lookup finds a key exactly when an entry has it |
| ImageCache.DeleteRemovesKey | src/utils/imageCache.js:18 | after a delete the key is absent, the rest keep their order, and one entry fewer when the key was present |
| ImageCache.DeleteKeepsOthers | src/utils/imageCache.js:18 | a delete leaves every other key's payload unchanged |
| ImageCache.PutStores | src/utils/imageCache.js:33 | after a put the key maps to the new payload; the size grows only for a new key |
| ImageCache.PutKeepsOthers | src/utils/imageCache.js:33 | a put leaves every other key's payload unchanged |
| ImageCache.PutKeepsDistinct | src/utils/imageCache.js:33 | a put keeps keys distinct |
| ImageCache.DeleteFirst | src/utils/imageCache.js:29-30 | deleting the first key removes exactly the oldest entry |
| ImageCache.PutAbsentAppends | src/utils/imageCache.js:19 | setting an absent key appends it at the most-recent end |
| ImageCache.SetBounded | src/utils/imageCache.js:26-34 | after a set the size is at most `maxSize`, keys stay distinct, and the key maps to the new payload |
| ImageCache.SetEvictsEvenWhenKeyPresent | src/utils/imageCache.js:28-31 | on a full cache, re-setting a present key that is not the oldest still evicts the oldest, and the size drops by one |
| ImageCache.ImageCache.constructor | src/utils/imageCache.js:3-6 | empty cache with `maxSize` 10 |
| ImageCache.ImageCache.Get | src/utils/imageCache.js:14-23 | a hit returns the stored payload and moves its entry to the end, the others keeping their order and payloads; a miss returns nothing and changes nothing |
| ImageCache.ImageCache.Set | src/utils/imageCache.js:26-34 | evicts the oldest entry when full, then stores the key; the size stays at most 10 |
| ImageCache.ImageCache.Clear | src/utils/imageCache.js:37-39 | no entries remain |
| ImageCache.ImageCache.Size | src/utils/imageCache.js:42-44 | the number of entries, at most 10 |
| ImageGenerator.OverlaysSelectMessages | src/services/imageGenerator.js:136-149 | professor → right bubble, participant → left, learner → up, each exactly when truthy, and the shock effect exactly when `display_shock` is set |
| ImageGenerator.OverlaysInDrawingOrder | src/services/imageGenerator.js:136-149 | overlays come in the order right, left, up, shock |
| ImageGenerator.BubbleBoxes | src/services/imageGenerator.js:266-291 | right: (650, 650) right/bottom, flipped; left: (440, 650) left/bottom, not flipped; up: (520, 160) left/top, flipped |
| ImageGenerator.CornerPlacesOrigin | src/services/imageGenerator.js:311-323 | the corner computation inverts the origin placement: `left - width` for right, `top - height` for bottom, halves for center |
| ImageGenerator.AnchorInsideBubble | src/services/imageGenerator.js:311-323 | the anchor lies inside the bubble's box |
| TextWrap.Split | src/services/imageGenerator.js:481 | `split(' ')` yields at least one word and no word holds a space |
| TextWrap.SplitJoin | src/services/imageGenerator.js:481 | joining the words with single spaces gives back the text |
| TextWrap.Chop | src/services/imageGenerator.js:497-500 | an overlong word is cut into chunks of exactly the maximum, with a remainder no longer than it, together spelling the word |
| TextWrap.Wrap | src/services/imageGenerator.js:505-512 | at least one line; empty input gives `['']` |
| TextWrap.WrapLinesFit | src/services/imageGenerator.js:489-500 | no line is longer than `maxCharsPerLine` |
| TextWrap.WrapKeepsCharacters | src/services/imageGenerator.js:481-506 | with spaces removed, the lines spell the input with spaces removed |
| TextWrap.GreedyJoin | src/services/imageGenerator.js:487-494 | for a two-word text: the second word joins the first with one space when both fit, and starts a second line otherwise |
| TextWrap.GreedyStep | src/services/imageGenerator.js:485-501 | one step of the word loop from any state: a word that fits after the current line joins it with one space, or starts the line when it is empty; a word that fits a line but not the current one moves the current line out and starts a new line with it |
| TextWrap.LeadingEmptyLine | src/services/imageGenerator.js:492-494 | as written, a first word longer than a line makes the first line empty |
| TextWrap.WrapFixedHasNoEmptyLines | src/services/imageGenerator.js:492-494 | the wrapper that skips an empty current line emits no empty line |
| TextWrap.WrapText | src/services/imageGenerator.js:480-515 | the loop computes exactly `Wrap` as written |

## Left out

- Canvas rendering is not modelled. This covers sprite loading, character drawing, the nine-slice bubble drawing, the shock effect drawing and `toBlob`. They are side effects of a foreign drawing library.
- The float text metrics that choose the line width (`src/services/imageGenerator.js:233-246`) are not modelled. `WrapText` takes the width as a parameter and needs only that it is at least 1; the caller passes at least 20.
- The API service, the real `EventSource` and `JSON.parse` are not modelled. Stream events arrive already parsed. An event or error is only delivered while the stream is open.
- `generateKey` (`JSON.stringify`) is not modelled. Cache keys are plain strings.
- Object URLs are opaque handle tokens, and payload bytes are not modelled.
- Promise timing and React effect scheduling are explicit method calls. Stale closures are modelled only for the pause flag captured by the `onloadeddata` callback. Its captured `playNextItem` acts on the current queue.
- SyncQueue.SyncQueue.ProcessSyncQueue: the `.catch` of the run (`src/hooks/useSyncQueue.js:102-105`) is not modelled, because both producers catch their own errors. The non-array guards (`src/hooks/useSyncQueue.js:20,77-80`) are not modelled either, because the queue is always a sequence.
- Turn ids are drawn from a counter, not from random strings. The code assumes its random ids are unique.
- Volume and playback rate are opaque stored reals. Their ranges are not modelled.
- The audio element is always mounted. The `audioRef.current` null branches and `currentTime = 0` are not modelled.
- AudioPlayer.Player.PlayCurrentItem: does not revoke the previous `cleanupUrl` when a new clip is loaded. The code does not either.
- `AppShell.App`: the default-image effect (`src/App.js:48-66`) and the scroll-into-view effect (`src/App.js:200-210`) are not modelled. The `onerror` handler (`src/App.js:94-96`) only logs, so it has no member.
- The unmount cleanup of the session hook (`src/hooks/useExperienceManager.js:55-62`) is not modelled.
- Presentation components and the image optimisation script are not modelled.
- TextWrap.WrapText, TextWrap.Wrap and TextWrap.Chop count lengths in Unicode code points, whereas `.length` and `substring` in `src/services/imageGenerator.js:487-500` count UTF-16 code units. Text outside the Basic Multilingual Plane is therefore wrapped differently, and the source's splitting of a surrogate pair is not modelled.
- TextWrap.WrapText requires `maxCharsPerLine` to be at least 1. With 0, the chopping loop at `src/services/imageGenerator.js:497-500` never ends, because `substring(0)` gives the same word back; no caller passes 0.
- SyncQueue.SyncQueue.CompleteProcessing applies the speech write-back, the image write-back and the mark as one step. In the source these are three separate state updates, and player events can run between them.

## Findings

| source | as written | input that shows it | evidently intended | confidence | as-written member | corrected member |
|---|---|---|---|---|---|---|
| src/services/imageGenerator.js:492-494 | when a word does not fit, `currentLine` is pushed even when it is empty | `wrapText("abcdefghijklmnopqrstuvwxyz", 20)` (first word longer than the line) gives `['', 'abcdefghijklmnopqrst', 'uvwxyz']` | the bubble text starts with the word's first chunk, with no blank line | medium, not executed | TextWrap.LeadingEmptyLine | TextWrap.WrapFixedHasNoEmptyLines |
