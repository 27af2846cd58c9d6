# Castanets MSE seek, read and readiness bookkeeping, in Dafny

Castanets runs Chromium's media pipeline split across two processes. On the
renderer side an MSE (Media Source Extensions) player has two halves:

- `WebMediaPlayerCastanets` is the control side. It takes seeks from the page,
  asks the browser (through `RendererMediaPlayerManager`) to seek, and answers
  `CurrentTime` while a seek is running.
- `MediaSourceDelegateCastanets` is the demux side. It owns the chunk demuxer
  and answers the browser's read and seek requests, which arrive through
  `RendererDemuxerCastanets`. It negotiates decryption for encrypted streams
  and announces readiness together with the stream configurations.

This project models the flags that keep the two halves in step, and proves
what they guarantee:

- The seek fields on both sides: superseded seeks coalesce to the latest
  target.
- The per-stream "read in flight" flags: one read per stream at a time.
- The readiness and CDM (decryption module) negotiation: audio before video.
  Clear streams are announced ready at once. Encrypted streams are announced
  ready once a CDM arrives. The player never sets a CDM context itself:
  without one, the CDM-ready callback is kept and never run, so an encrypted
  delegate driven by such a player never becomes ready.
- The stop lifecycle: a stopped delegate ignores every later call.
- The two registries (player ids and demuxer client ids).
- The default values of `DemuxerConfigs` and `DemuxedBufferMetaData`.

## How it is modelled

- Every handler runs to completion on one thread, so each is one atomic step.
- `DelegateSpec` (delegate_spec.dfy) gives each delegate handler as a
  function from a record of the delegate's fields to a `Step`. A `Step` is the
  new record plus the list of effects, in order. An effect is a call on a
  collaborator (chunk demuxer, decrypting stream, CDM, player callbacks, the
  demuxer bridge) or a task posted for later. A posted task comes back as a
  later call of the handler it names.
- Callbacks that the code binds to the media-thread weak pointers are dropped
  once `StopDemuxer` has run. `StopDemuxer` also releases the chunk demuxer, so
  "no chunk demuxer" means "weak callbacks are dropped". Every handler reached
  that way is a no-op without a chunk demuxer, even where the code has no
  explicit guard.
- `MediaSourceDelegate.Delegate` (delegate.dfy) is the delegate as a class
  whose methods update its fields in place. Each method is proved to perform
  exactly the `DelegateSpec` transition. Each handler keeps the invariant
  `Inv`. The inner steps they call (`OnDemuxerError`, `NotifyDemuxerReady`,
  `SeekInternal` and the three reset steps) keep it when it held before. The
  two decrypting-stream initialisations keep it when the bridge is held and
  the stream they wrap exists.
- The player follows the same split. `PlayerSpec` holds the pure seek
  transitions, `CurrentTime` and `GetCleanURL`. `MediaPlayer.Player` is the
  class. `PlayerSpec.DriveDelegate` applies the player's calls on the delegate
  to the delegate's own transitions, so the two halves are checked together.
- The manager and the demuxer bridge are classes over a `map` from id to
  object.
- Times are integer microseconds. `kNoTimestamp` is the minimum 64-bit value.
- The chunk demuxer, the decrypting demuxer streams and the CDM are oracles.
  Their reports (streams and their encryption flags, init status, read status
  and buffer) are inputs of the handlers.
- A decrypting stream reports its input's configuration, with encryption off.
- Only release-build behaviour is modelled. The `DCHECK`s at
  media_source_delegate_castanets.cc lines 205, 303 and 626 contradict the
  surrounding code, so none of them is a precondition. `NotifyDemuxerReady` may
  run more than once.

## Model

| member | source | states |
|---|---|---|
| `DemuxerParams.DefaultDemuxerConfigs` | media/base/castanets/demuxer_stream_player_params_castanets.cc:9-20 | Codecs unknown; channels, sampling rate, bit rate, framerate and duration 0; no encryption and no framerate change; empty extra data |
| `DemuxerParams.DefaultBufferMetaData` | media/base/castanets/demuxer_stream_player_params_castanets.cc:24-28 | Size 0, not end of stream, type UNKNOWN, status kAborted, tz_handle 0 |
| `DelegateSpec.Initial` | content/renderer/media/castanets/media_source_delegate_castanets.cc:19-46 | Constructed delegate: invariant holds, no chunk demuxer, not ready, no seek flag set, seek times kNoTimestamp, no read in flight |
| `DelegateSpec.HasEncryptedStream` | content/renderer/media/castanets/media_source_delegate_castanets.cc:189-197 | True exactly when a stream read directly from the chunk demuxer is encrypted; a stream already wrapped in a decrypting stream never counts |
| `DelegateSpec.ErrorEffects` | content/renderer/media/castanets/media_source_delegate_castanets.cc:135-139 | A failure is reported exactly once when the network-state callback is held; success, or no callback, reports nothing |
| `DelegateSpec.DemuxerStreamsChanged` | content/renderer/media/castanets/media_source_delegate_castanets.cc:632-635 | The streams `GetStreamByType` finds become the new ones; a stream already handed out stays reported; no call is made; keeps the invariant |
| `DelegateSpec.InitializeMediaSource` | content/renderer/media/castanets/media_source_delegate_castanets.cc:57-90 | Creates the chunk demuxer, keeps the network-state callback, posts InitializeDemuxer; keeps the invariant |
| `DelegateSpec.InitializeDemuxer` | content/renderer/media/castanets/media_source_delegate_castanets.cc:103-111 | Registers with the bridge, then initializes the chunk demuxer; no field changes |
| `DelegateSpec.OnDemuxerInitDone` | content/renderer/media/castanets/media_source_delegate_castanets.cc:157-168 | A failure is reported as an error; success posts GetDemuxerStreamInfo; no field changes |
| `DelegateSpec.GetDemuxerStreamInfo` | content/renderer/media/castanets/media_source_delegate_castanets.cc:170-187 | Takes the chunk demuxer's first streams; asks for a CDM when one is encrypted, otherwise becomes ready at once without asking |
| `DelegateSpec.SetCdm` | content/renderer/media/castanets/media_source_delegate_castanets.cc:199-220 | Keeps the CDM and the attached-callback; starts audio decryption if audio is encrypted, else video if video is, never both; seek, read and ready flags unchanged |
| `DelegateSpec.InitAudioDecryptingDemuxerStream` | content/renderer/media/castanets/media_source_delegate_castanets.cc:222-235 | Creates the audio decrypting stream and initializes it |
| `DelegateSpec.InitVideoDecryptingDemuxerStream` | content/renderer/media/castanets/media_source_delegate_castanets.cc:237-250 | Creates the video decrypting stream and initializes it |
| `DelegateSpec.OnAudioDecryptingDemuxerStreamInitDone` | content/renderer/media/castanets/media_source_delegate_castanets.cc:252-281 | Failure: drops the decrypting stream and is ready with no CDM attached, video never tried. Success: audio reads go through the decrypting stream; then video is negotiated if encrypted, else ready with the CDM attached |
| `DelegateSpec.OnVideoDecryptingDemuxerStreamInitDone` | content/renderer/media/castanets/media_source_delegate_castanets.cc:283-297 | Ready with the CDM attached exactly when video succeeded; on success video reads go through the decrypting stream, on failure it is dropped |
| `DelegateSpec.BuildConfigs` | content/renderer/media/castanets/media_source_delegate_castanets.cc:305-341 | Each held stream's fields come from the chunk demuxer's config, encryption flag included; audio bit rate = bytes per channel × samples per second × 8; other fields keep their defaults |
| `DelegateSpec.NotifyDemuxerReady` | content/renderer/media/castanets/media_source_delegate_castanets.cc:299-342 | Sets ready; runs a waiting CDM-attached callback once and clears it; sends the configs, or reports INITIALIZATION_FAILED with no bridge or no stream |
| `DelegateSpec.OnReadFromDemuxer` | content/renderer/media/castanets/media_source_delegate_castanets.cc:344-364 | A read is issued iff not seeking, the type is audio or video, that stream is held and its flag is clear; it is the only effect and sets exactly that flag |
| `DelegateSpec.AckOf` | content/renderer/media/castanets/media_source_delegate_castanets.cc:432-482 | Ack metadata carries status kOk and the stream type; end of stream has no data, otherwise the data, its size, timestamp and duration |
| `DelegateSpec.OnBufferReady` | content/renderer/media/castanets/media_source_delegate_castanets.cc:420-498 | Clears the type's flag; kAborted sends nothing; kConfigChanged with an encrypted stream re-sets the flag and asks for a CDM, else re-announces readiness without a CDM; kOk sends the ack if the bridge exists; kError passes the NOTREACHED default and sends an ack with no data and default metadata carrying the status, if the bridge exists |
| `DelegateSpec.StartWaitingForSeek` | content/renderer/media/castanets/media_source_delegate_castanets.cc:500-515 | Seeking, not done, not a re-seek; seek targets untouched; chunk demuxer told to wait |
| `DelegateSpec.CancelPendingSeek` | content/renderer/media/castanets/media_source_delegate_castanets.cc:517-549 | Always seeking with the new pending target. If the demuxer seek was done: nothing pending, re-seek posted. Otherwise pending (latest wins) and the demuxer's pending seek cancelled |
| `DelegateSpec.StartSeek` | content/renderer/media/castanets/media_source_delegate_castanets.cc:551-572 | Always seeking and not done. A re-seek sets the target and seeks. An ordinary seek during a re-seek keeps the target and issues nothing; otherwise it sets the target and seeks |
| `DelegateSpec.OnDemuxerSeekDone` | content/renderer/media/castanets/media_source_delegate_castanets.cc:574-600 | An error is reported and no flag changes. With a pending seek: its target becomes the target and is re-sought. Otherwise not seeking, done, and the reset chain starts |
| `DelegateSpec.ResetAudioDecryptingDemuxerStream` | content/renderer/media/castanets/media_source_delegate_castanets.cc:602-611 | Resets the audio decrypting stream if there is one, else continues to video |
| `DelegateSpec.ResetVideoDecryptingDemuxerStream` | content/renderer/media/castanets/media_source_delegate_castanets.cc:613-622 | Resets the video decrypting stream if there is one, else finishes |
| `DelegateSpec.FinishResettingDecryptingDemuxerStreams` | content/renderer/media/castanets/media_source_delegate_castanets.cc:624-630 | Clears is_seeking_ and reports the seek target with no video key frame |
| `DelegateSpec.Stop` | content/renderer/media/castanets/media_source_delegate_castanets.cc:366-387 | With a chunk demuxer: drops the network-state callback, shuts the demuxer down, posts StopDemuxer; otherwise nothing |
| `DelegateSpec.StopDemuxer` | content/renderer/media/castanets/media_source_delegate_castanets.cc:389-407 | Unregisters, drops the bridge, every stream and the chunk demuxer, stops it, runs the stop callback |
| `DelegateProperties.Apply` | content/renderer/media/castanets/media_source_delegate_castanets.cc:103-630 | Every handler, called when it can be, keeps the invariant |
| `DelegateProperties.Run` | content/renderer/media/castanets/media_source_delegate_castanets.cc:103-630 | Any sequence of handler calls keeps the invariant |
| `DelegateProperties.SupersededSeeksCoalesce` | content/renderer/media/castanets/media_source_delegate_castanets.cc:517-600 | Seeks made before the demuxer seek finishes each only cancel, keep the in-flight target and leave the latest pending; completion then seeks straight to the latest |
| `DelegateProperties.SeekReportsItsTarget` | content/renderer/media/castanets/media_source_delegate_castanets.cc:500-630 | An unsuperseded seek seeks the demuxer to its target and reports that target to the bridge, ending not seeking and done |
| `DelegateProperties.Negotiate` | content/renderer/media/castanets/media_source_delegate_castanets.cc:170-297 | Whatever the decrypting streams report, negotiation ends ready, keeping the invariant and the streams taken |
| `DelegateProperties.NegotiateWithCdm` | content/renderer/media/castanets/media_source_delegate_castanets.cc:199-297 | Once a CDM is asked for, its arrival and the decrypting streams' results end ready, keeping the invariant |
| `DelegateProperties.ClearStreamsNeedNoCdm` | content/renderer/media/castanets/media_source_delegate_castanets.cc:170-187 | No encrypted stream: no CDM request; a waiting attached-callback hears false; readiness is announced |
| `DelegateProperties.AudioFailureEndsNegotiation` | content/renderer/media/castanets/media_source_delegate_castanets.cc:252-281 | Audio decryption fails: video is never tried, and it is ready with no CDM attached |
| `DelegateProperties.AudioIsNegotiatedBeforeVideo` | content/renderer/media/castanets/media_source_delegate_castanets.cc:211-297 | Both encrypted: audio before video; the CDM counts as attached exactly when video also succeeds |
| `DelegateProperties.AudioOnlyNegotiation` | content/renderer/media/castanets/media_source_delegate_castanets.cc:252-281 | Only audio encrypted and it succeeds: ready with the CDM attached |
| `DelegateProperties.VideoOnlyNegotiation` | content/renderer/media/castanets/media_source_delegate_castanets.cc:211-297 | Only video encrypted: video alone; the CDM counts as attached exactly when it succeeds |
| `DelegateProperties.AnnouncedEncryptionIsTheStreams` | content/renderer/media/castanets/media_source_delegate_castanets.cc:317-340 | After negotiation every reported stream is held, and the announced configs carry each stream's original encryption flag |
| `DelegateProperties.StoppedDelegateIsInert` | content/renderer/media/castanets/media_source_delegate_castanets.cc:366-407 | After StopDemuxer every call that can still arrive (Stop again included) produces nothing and changes nothing |
| `DelegateProperties.ReadsAreGatedPerStream` | content/renderer/media/castanets/media_source_delegate_castanets.cc:344-498 | A second read before the buffer returns issues nothing; after delivery or abort the next request reads again |
| `MediaSourceDelegate.Delegate.constructor` | content/renderer/media/castanets/media_source_delegate_castanets.cc:19-46 | The fields are `DelegateSpec.Initial()` and no call has been made |
| `MediaSourceDelegate.Delegate.InitializeMediaSource` | content/renderer/media/castanets/media_source_delegate_castanets.cc:57-90 | Performs `DelegateSpec.InitializeMediaSource` in place and keeps the invariant |
| `MediaSourceDelegate.Delegate.InitializeDemuxer` | content/renderer/media/castanets/media_source_delegate_castanets.cc:103-111 | Performs `DelegateSpec.InitializeDemuxer` in place |
| `MediaSourceDelegate.Delegate.OnDemuxerError` | content/renderer/media/castanets/media_source_delegate_castanets.cc:135-139 | No field changes; the error is reported as `ErrorEffects` says; the invariant is kept |
| `MediaSourceDelegate.Delegate.OnDemuxerInitDone` | content/renderer/media/castanets/media_source_delegate_castanets.cc:157-168 | Performs `DelegateSpec.OnDemuxerInitDone` in place |
| `MediaSourceDelegate.Delegate.ChunkStreamsChanged` | content/renderer/media/castanets/media_source_delegate_castanets.cc:632-635 | Performs `DelegateSpec.DemuxerStreamsChanged` in place: only what `GetStreamByType` will find changes, no call is made, and the invariant is kept |
| `MediaSourceDelegate.Delegate.GetDemuxerStreamInfo` | content/renderer/media/castanets/media_source_delegate_castanets.cc:170-187 | Performs `DelegateSpec.GetDemuxerStreamInfo` in place and keeps the invariant |
| `MediaSourceDelegate.Delegate.SetCdm` | content/renderer/media/castanets/media_source_delegate_castanets.cc:199-220 | Performs `DelegateSpec.SetCdm` in place and keeps the invariant |
| `MediaSourceDelegate.Delegate.InitAudioDecryptingDemuxerStream` | content/renderer/media/castanets/media_source_delegate_castanets.cc:222-235 | Performs `DelegateSpec.InitAudioDecryptingDemuxerStream` in place; keeps the invariant when the bridge is held and there is an audio stream |
| `MediaSourceDelegate.Delegate.InitVideoDecryptingDemuxerStream` | content/renderer/media/castanets/media_source_delegate_castanets.cc:237-250 | Performs `DelegateSpec.InitVideoDecryptingDemuxerStream` in place; keeps the invariant when the bridge is held and there is a video stream |
| `MediaSourceDelegate.Delegate.OnAudioDecryptingDemuxerStreamInitDone` | content/renderer/media/castanets/media_source_delegate_castanets.cc:252-281 | Performs `DelegateSpec.OnAudioDecryptingDemuxerStreamInitDone` in place, in the code's order, and keeps the invariant |
| `MediaSourceDelegate.Delegate.OnVideoDecryptingDemuxerStreamInitDone` | content/renderer/media/castanets/media_source_delegate_castanets.cc:283-297 | Performs `DelegateSpec.OnVideoDecryptingDemuxerStreamInitDone` in place and keeps the invariant |
| `MediaSourceDelegate.Delegate.NotifyDemuxerReady` | content/renderer/media/castanets/media_source_delegate_castanets.cc:299-342 | Performs `DelegateSpec.NotifyDemuxerReady` in place; keeps the invariant |
| `MediaSourceDelegate.Delegate.OnReadFromDemuxer` | content/renderer/media/castanets/media_source_delegate_castanets.cc:344-364 | Performs `DelegateSpec.OnReadFromDemuxer` in place and keeps the invariant |
| `MediaSourceDelegate.Delegate.OnBufferReady` | content/renderer/media/castanets/media_source_delegate_castanets.cc:420-498 | Performs `DelegateSpec.OnBufferReady` in place for every read status, kError through the NOTREACHED default included, and keeps the invariant |
| `MediaSourceDelegate.Delegate.StartWaitingForSeek` | content/renderer/media/castanets/media_source_delegate_castanets.cc:500-515 | Performs `DelegateSpec.StartWaitingForSeek` in place and keeps the invariant |
| `MediaSourceDelegate.Delegate.CancelPendingSeek` | content/renderer/media/castanets/media_source_delegate_castanets.cc:517-549 | Performs `DelegateSpec.CancelPendingSeek` in place and keeps the invariant |
| `MediaSourceDelegate.Delegate.StartSeek` | content/renderer/media/castanets/media_source_delegate_castanets.cc:551-572 | Performs `DelegateSpec.StartSeek` in place and keeps the invariant |
| `MediaSourceDelegate.Delegate.SeekInternal` | content/renderer/media/castanets/media_source_delegate_castanets.cc:409-418 | Aborts pending reads, then seeks the chunk demuxer; no field changes; keeps the invariant |
| `MediaSourceDelegate.Delegate.OnDemuxerSeekDone` | content/renderer/media/castanets/media_source_delegate_castanets.cc:574-600 | Performs `DelegateSpec.OnDemuxerSeekDone` in place and keeps the invariant |
| `MediaSourceDelegate.Delegate.ResetAudioDecryptingDemuxerStream` | content/renderer/media/castanets/media_source_delegate_castanets.cc:602-611 | Performs `DelegateSpec.ResetAudioDecryptingDemuxerStream` in place; keeps the invariant |
| `MediaSourceDelegate.Delegate.ResetVideoDecryptingDemuxerStream` | content/renderer/media/castanets/media_source_delegate_castanets.cc:613-622 | Performs `DelegateSpec.ResetVideoDecryptingDemuxerStream` in place; keeps the invariant |
| `MediaSourceDelegate.Delegate.FinishResettingDecryptingDemuxerStreams` | content/renderer/media/castanets/media_source_delegate_castanets.cc:624-630 | Performs `DelegateSpec.FinishResettingDecryptingDemuxerStreams` in place; keeps the invariant |
| `MediaSourceDelegate.Delegate.Stop` | content/renderer/media/castanets/media_source_delegate_castanets.cc:366-387 | Performs `DelegateSpec.Stop` in place and keeps the invariant |
| `MediaSourceDelegate.Delegate.StopDemuxer` | content/renderer/media/castanets/media_source_delegate_castanets.cc:389-407 | Performs `DelegateSpec.StopDemuxer` in place and keeps the invariant |
| `PlayerSpec.InitialSeek` | content/renderer/media/castanets/webmediaplayer_castanets.cc:81-83 | Constructed player: not seeking, nothing pending |
| `PlayerSpec.Seek` | content/renderer/media/castanets/webmediaplayer_castanets.cc:233-270 | Idle: starts the seek, tells the delegate (MSE only), exactly one manager seek. Seeking, same time, no MSE: only drops the pending seek. Any other seek during a seek: pending with the latest time, the delegate cancels (MSE only), no manager seek |
| `PlayerSpec.OnSeekComplete` | content/renderer/media/castanets/webmediaplayer_castanets.cc:583-602 | Always clears the seek; a pending seek is issued as a fresh seek and forgotten; otherwise the client hears TimeChanged |
| `PlayerSpec.CurrentTime` | content/renderer/media/castanets/webmediaplayer_castanets.cc:328-333 | While seeking with a seek pending: the pending target. While seeking without one: the seek target. Otherwise: the last reported time |
| `PlayerSpec.SeekIsReportedAtOnce` | content/renderer/media/castanets/webmediaplayer_castanets.cc:233-333 | Right after any Seek(t), CurrentTime is t |
| `PlayerSpec.SeeksDuringSeekCoalesce` | content/renderer/media/castanets/webmediaplayer_castanets.cc:239-261 | Seeks during a seek never reach the manager and keep the target; the latest is pending; with MSE the delegate hears one cancel per request, in order |
| `PlayerSpec.CompletionIssuesTheLatestSeek` | content/renderer/media/castanets/webmediaplayer_castanets.cc:583-602 | After a burst of seeks, completion issues exactly one seek, to the latest request |
| `PlayerSpec.DriveDelegate` | content/renderer/media/castanets/webmediaplayer_castanets.cc:257-268 | The player's delegate calls keep the delegate's invariant and change only its seek fields |
| `PlayerSpec.SeekDrivesOneDelegateCall` | content/renderer/media/castanets/webmediaplayer_castanets.cc:257-268 | Each Seek makes exactly one delegate call: StartWaitingForSeek when idle, CancelPendingSeek during a seek |
| `PlayerSpec.CompletionDrivesTheDelegate` | content/renderer/media/castanets/webmediaplayer_castanets.cc:591-596 | Completion calls the delegate only to start the pending seek |
| `PlayerSpec.SecondSeekIsHeldPending` | content/renderer/media/castanets/webmediaplayer_castanets.cc:233-270 | A second seek before completion: one manager seek, CurrentTime is the second target, and the delegate holds it pending |
| `PlayerSpec.FindChar` | content/renderer/media/castanets/webmediaplayer_castanets.cc:37-38 | The index of the first occurrence, or -1 exactly when absent |
| `PlayerSpec.GetCleanURL` | content/renderer/media/castanets/webmediaplayer_castanets.cc:33-43 | app:// aborts (None); file:// is cut before its first '?'; any other URL is unchanged |
| `PlayerSpec.CleanURLIsClean` | content/renderer/media/castanets/webmediaplayer_castanets.cc:33-43 | Cleaning a cleaned URL changes nothing |
| `MediaPlayer.Player.constructor` | content/renderer/media/castanets/webmediaplayer_castanets.cc:45-106 | Paused, not seeking, not fullscreen, no loading progress, init data type UNKNOWN, no pending CDM callback; a bound WebMediaPlayerDelegate gets AddObserver then SetIdle(true), and no other call is made |
| `MediaPlayer.Player.Seek` | content/renderer/media/castanets/webmediaplayer_castanets.cc:233-270 | Performs `PlayerSpec.Seek` in place; the delegate performs the delegate calls among its effects; nothing else changes |
| `MediaPlayer.Player.OnSeekComplete` | content/renderer/media/castanets/webmediaplayer_castanets.cc:583-602 | Performs `PlayerSpec.OnSeekComplete` in place, driving the delegate the same way |
| `MediaPlayer.Player.CurrentTime` | content/renderer/media/castanets/webmediaplayer_castanets.cc:328-333 | Agrees with `PlayerSpec.CurrentTime` on the player's fields |
| `MediaPlayer.Player.OnTimeUpdate` | content/renderer/media/castanets/webmediaplayer_castanets.cc:553-555 | Records the current time; no other field changes, no call is made; keeps `Valid` |
| `MediaPlayer.Player.OnTimeChanged` | content/renderer/media/castanets/webmediaplayer_castanets.cc:562-564 | The client hears TimeChanged; no field changes; keeps `Valid` |
| `MediaPlayer.Player.OnDurationChange` | content/renderer/media/castanets/webmediaplayer_castanets.cc:547-551 | Records the duration; the client hears DurationChanged; no other field changes; keeps `Valid` |
| `MediaPlayer.Player.OnRequestSeek` | content/renderer/media/castanets/webmediaplayer_castanets.cc:604-606 | The client is asked to seek to the time; no field changes; keeps `Valid` |
| `MediaPlayer.Player.DidLoadingProgress` | content/renderer/media/castanets/webmediaplayer_castanets.cc:349-355 | Returns the progress flag and clears it; no other field changes, no call is made; keeps `Valid` |
| `MediaPlayer.Player.OnBufferUpdate` | content/renderer/media/castanets/webmediaplayer_castanets.cc:557-560 | Sets the progress flag; no other field changes, no call is made; keeps `Valid` |
| `MediaPlayer.Player.OnPauseStateChange` | content/renderer/media/castanets/webmediaplayer_castanets.cc:566-581 | The same state is a no-op; a change is recorded, the client hears it, and the delegate if bound hears DidPause or DidPlay; no other field changes; keeps `Valid` |
| `MediaPlayer.Player.PauseChangeEffects` | content/renderer/media/castanets/webmediaplayer_castanets.cc:570-580 | PlaybackStateChanged first, then DidPause/DidPlay exactly when a delegate is bound |
| `MediaPlayer.Player.OnPlayerSuspend` | content/renderer/media/castanets/webmediaplayer_castanets.cc:608-616 | Preemption pauses a playing player; a bound delegate hears PlayerGone; no other field changes; keeps `Valid` |
| `MediaPlayer.Player.OnPlayerResumed` | content/renderer/media/castanets/webmediaplayer_castanets.cc:618-627 | A bound delegate is told the current pause state; no field changes; keeps `Valid` |
| `MediaPlayer.Player.EnteredFullscreen` | content/renderer/media/castanets/webmediaplayer_castanets.cc:461-472 | Fullscreen afterwards, whatever before (idempotent); no other field changes, no call is made; keeps `Valid` |
| `MediaPlayer.Player.ExitedFullscreen` | content/renderer/media/castanets/webmediaplayer_castanets.cc:474-490 | Not fullscreen afterwards, whatever before (idempotent); no other field changes, no call is made; keeps `Valid` |
| `MediaPlayer.Player.OnEncryptedMediaInitData` | content/renderer/media/castanets/webmediaplayer_castanets.cc:635-647 | The type latches to the first known type; every report reaches the encrypted-media client with its own type; no other field changes; keeps `Valid` |
| `MediaPlayer.Player.SetCdmReadyCB` | content/renderer/media/castanets/webmediaplayer_castanets.cc:649-659 | With a CDM context the callback runs at once; without one it is kept, replacing any kept one; no other field changes; keeps `Valid` |
| `MediaPlayer.ProgressIsReportedOnce` | content/renderer/media/castanets/webmediaplayer_castanets.cc:349-355 | After a buffer update, DidLoadingProgress is true once, then false; only the progress flag ends up changed |
| `MediaPlayer.InitDataTypeLatches` | content/renderer/media/castanets/webmediaplayer_castanets.cc:639-643 | Once a known type is latched, no later report changes it, nor any other field |
| `PlayerManager.RendererMediaPlayerManager.constructor` | content/renderer/media/castanets/renderer_media_player_manager_castanets.cc:11-13 | No players; the counter starts at 0 |
| `PlayerManager.RendererMediaPlayerManager.RegisterMediaPlayer` | content/renderer/media/castanets/renderer_media_player_manager_castanets.cc:190-194 | Returns the counter's old value, an id no player holds, and increments the counter; looking the id up gives the player |
| `PlayerManager.RendererMediaPlayerManager.UnregisterMediaPlayer` | content/renderer/media/castanets/renderer_media_player_manager_castanets.cc:196-198 | The id is gone; every other id finds what it found before |
| `PlayerManager.RendererMediaPlayerManager.GetMediaPlayer` | content/renderer/media/castanets/renderer_media_player_manager_castanets.cc:87-94 | The registered player, or none exactly when the id is absent |
| `PlayerManager.RendererMediaPlayerManager.OnDurationChange` | content/renderer/media/castanets/renderer_media_player_manager_castanets.cc:105-110 | A registered player performs `Player.OnDurationChange` (duration recorded, client told, nothing else changes, `Valid` kept); an unknown id is dropped |
| `PlayerManager.RendererMediaPlayerManager.OnTimeUpdate` | content/renderer/media/castanets/renderer_media_player_manager_castanets.cc:112-117 | A registered player performs `Player.OnTimeUpdate` (time recorded, nothing else changes, `Valid` kept); an unknown id is dropped |
| `PlayerManager.RendererMediaPlayerManager.OnBufferUpdate` | content/renderer/media/castanets/renderer_media_player_manager_castanets.cc:119-123 | A registered player performs `Player.OnBufferUpdate` (progress flag set, no call made, nothing else changes, `Valid` kept); an unknown id is dropped |
| `PlayerManager.RendererMediaPlayerManager.OnTimeChanged` | content/renderer/media/castanets/renderer_media_player_manager_castanets.cc:125-129 | A registered player performs `Player.OnTimeChanged` (client hears TimeChanged, no field changes, `Valid` kept); an unknown id is dropped |
| `PlayerManager.RendererMediaPlayerManager.OnPauseStateChange` | content/renderer/media/castanets/renderer_media_player_manager_castanets.cc:131-135 | A registered player performs `Player.OnPauseStateChange` (state taken, change reported through `PauseChangeEffects`, nothing else changes, `Valid` kept); an unknown id is dropped |
| `PlayerManager.RendererMediaPlayerManager.OnSeekComplete` | content/renderer/media/castanets/renderer_media_player_manager_castanets.cc:137-141 | A registered player completes its seek as `PlayerSpec.OnSeekComplete` says, only its seek fields change, `Valid` is kept, and its media source delegate ends as `PlayerSpec.DriveDelegate` says; an unknown id is dropped |
| `PlayerManager.RendererMediaPlayerManager.OnRequestSeek` | content/renderer/media/castanets/renderer_media_player_manager_castanets.cc:143-148 | A registered player performs `Player.OnRequestSeek` (client asked to seek, no field changes, `Valid` kept); an unknown id is dropped |
| `PlayerManager.RendererMediaPlayerManager.OnPlayerSuspend` | content/renderer/media/castanets/renderer_media_player_manager_castanets.cc:150-154 | A registered player performs `Player.OnPlayerSuspend` (paused if preempted while playing, pause change and PlayerGone reported, nothing else changes, `Valid` kept); an unknown id is dropped |
| `PlayerManager.RendererMediaPlayerManager.OnPlayerResumed` | content/renderer/media/castanets/renderer_media_player_manager_castanets.cc:156-160 | A registered player performs `Player.OnPlayerResumed` (pause state re-reported, no field changes, `Valid` kept); an unknown id is dropped |
| `PlayerManager.RegisterAfterUnregister` | content/renderer/media/castanets/renderer_media_player_manager_castanets.cc:190-198 | Ids are not reused: after register and unregister, the next id differs and the old one finds nothing |
| `RendererDemuxer.IsDemuxerMessage` | content/renderer/media/castanets/renderer_demuxer_castanets.cc:45-55 | Exactly ReadFromDemuxer and DemuxerSeekRequest are claimed |
| `RendererDemuxer.RendererDemuxerCastanets.constructor` | content/renderer/media/castanets/renderer_demuxer_castanets.cc:21-24 | No delegates, nothing posted, the sequence at 0 |
| `RendererDemuxer.RendererDemuxerCastanets.GetNextDemuxerClientID` | content/renderer/media/castanets/renderer_demuxer_castanets.cc:28-31 | Returns the sequence's next value plus one, so never 0 |
| `RendererDemuxer.RendererDemuxerCastanets.Lookup` | content/renderer/media/castanets/renderer_demuxer_castanets.cc:108-109 | The registered delegate, or none exactly when the id is absent |
| `RendererDemuxer.RendererDemuxerCastanets.AddDelegate` | content/renderer/media/castanets/renderer_demuxer_castanets.cc:33-38 | The id then finds the delegate; other ids are unchanged |
| `RendererDemuxer.RendererDemuxerCastanets.RemoveDelegate` | content/renderer/media/castanets/renderer_demuxer_castanets.cc:40-43 | The id then finds nothing; other ids are unchanged |
| `RendererDemuxer.RendererDemuxerCastanets.OnMessageReceived` | content/renderer/media/castanets/renderer_demuxer_castanets.cc:45-55 | Claims and posts the message exactly when it is a demuxer message |
| `RendererDemuxer.RendererDemuxerCastanets.DispatchMessage` | content/renderer/media/castanets/renderer_demuxer_castanets.cc:96-103 | A read request reaches the named delegate's OnReadFromDemuxer, a seek request its StartSeek(t, false); nothing else |
| `RendererDemuxer.RendererDemuxerCastanets.OnReadFromDemuxer` | content/renderer/media/castanets/renderer_demuxer_castanets.cc:105-111 | A registered delegate performs `DelegateSpec.OnReadFromDemuxer`; an unknown id is dropped |
| `RendererDemuxer.RendererDemuxerCastanets.OnDemuxerSeekRequest` | content/renderer/media/castanets/renderer_demuxer_castanets.cc:113-119 | A registered delegate performs `DelegateSpec.StartSeek(t, false)`, an ordinary seek; an unknown id is dropped |
| `RendererDemuxer.TwoClientIds` | content/renderer/media/castanets/renderer_demuxer_castanets.cc:28-31 | Two ids in a row are distinct and neither is 0 |

## Left out

- IPC and serialisation: outbound messages are entries of an effect log, and inbound ones are method calls.
- Threads, task runners, locks and the weak-pointer factories: each handler is one atomic step, and a posted task is an effect that comes back as a later call.
- Floating point: seconds↔TimeDelta conversions, volume and rate, the buffered range computed in `OnBufferUpdate`, and `Seekable`. `OnSeekComplete`'s seconds round trip is taken as exact.
- The arguments of the player delegate's `DidPlay` call (has video, has audio, and the content type derived from the duration): the effect `DelegateDidPlay` records only that the call is made, since the model's player does not track which streams it has and does not map its duration to a content type.
- Rendering and `VIDEO_HOLE` geometry, the compositor and fullscreen video-hole frames.
- The non-CASTANETS shared-memory branch of `OnBufferReady`, logging, and the text-stream hooks.
- The internals of the chunk demuxer, decrypting demuxer streams, CDM and `ChannelLayoutToChannelCount`: they are oracles whose reports are handler inputs.
- Integer widths: times and ids are unbounded integers. `int` overflow of the counters and the bit-rate product is not modelled.
- `OnDemuxerOpened`, `OnDurationChanged`, `SetDuration`, `Buffered`, `OnBufferedTimeRangesChanged`, `OnDemuxerProgress`, and the delegate's `OnEncryptedMediaInitData` forward: they handle duration, buffered ranges and pass-through callbacks, outside the seek, read and readiness bookkeeping.
- The manager's `OnMessageReceived` table, `DestroyPlayer`, the fullscreen and geometry messages, and the forwards to unmodelled handlers (`OnMediaDataChange`, `OnReadyStateChange`, `OnNetworkStateChange`, `OnPlayerDestroyed`).
- `MediaPlayer.Player.constructor`: the id that `AddObserver` returns is dropped. The effects record the `AddObserver` and `SetIdle(true)` calls, but not that id, which is the first argument of every later `DidPause`, `DidPlay` and `PlayerGone` call.
- The player's `Load`/`DoLoad`, `Play`/`Pause`, and its registration with the manager in the constructor. The model's player is given its delegate and CDM context at construction.
- `ConvertToWebInitDataType` and GURL canonicalisation: `GetCleanURL` returns the string it would canonicalise.
- `MediaSourceDelegate.Delegate.GetDemuxerStreamInfo` requires a chunk demuxer, and `DelegateSpec.InitializeDemuxer` (with `MediaSourceDelegate.Delegate.InitializeDemuxer`) requires a chunk demuxer and a bridge. Both are posted with an unretained pointer and dereference these without a check, so a call after `StopDemuxer` would use released objects; the model does not describe that use.
- `DelegateSpec.StopDemuxer` requires a chunk demuxer and a bridge, which the code dereferences unconditionally. A second `StopDemuxer` is not modelled. Two `Stop` calls before the posted `StopDemuxer` runs would post it twice; in the code only the blocking destructor calls `Stop`, once. In `DelegateProperties.Run` a `StopDemuxer` event without a chunk demuxer is not enabled and is dropped.
- `GetStreamByType` asks the chunk demuxer for its first stream of a type. Its answer is the chunk report, an input of the model; a change of that report (an init segment appended) is the input event `DelegateSpec.DemuxerStreamsChanged`. A stream already handed out stays reported.
- The delegate's fields are grouped into three records (streams, seek fields, read flags). Each is a field the methods reassign in place, rather than one Dafny field per C++ member.
