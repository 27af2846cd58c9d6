/**
 * Properties of the delegate's handlers taken together: any sequence of calls
 * keeps the invariant, superseded seeks coalesce to the latest target, CDM
 * negotiation runs audio before video and announces readiness once, a stopped
 * delegate ignores everything, and reads are gated one per stream.
 */
module DelegateProperties {
  import opened Optional
  import opened DemuxerParams
  import opened DelegateSpec

  /** One call into the delegate, by whoever makes it (player, bridge, chunk demuxer, a posted task). */
  datatype Event =
    | MediaSourceInitialization                       // InitializeMediaSource
    | DemuxerInitialization                           // posted InitializeDemuxer
    | StreamsAppended(chunk: ChunkStreams)            // the chunk demuxer's streams change
    | DemuxerInitCompleted(status: PipelineStatus)    // OnDemuxerInitDone
    | StreamInfoRequested                             // posted GetDemuxerStreamInfo
    | CdmProvided                                     // SetCdm
    | AudioDecryptorReady(status: PipelineStatus)     // OnAudioDecryptingDemuxerStreamInitDone
    | VideoDecryptorReady(status: PipelineStatus)     // OnVideoDecryptingDemuxerStreamInitDone
    | ReadRequested(kind: StreamType)                 // OnReadFromDemuxer
    | BufferDelivered(kind: StreamType, readStatus: ReadStatus, buffer: DecoderBuffer) // OnBufferReady
    | SeekAnnounced(time: Time)                       // StartWaitingForSeek
    | SeekSuperseded(time: Time)                      // CancelPendingSeek
    | SeekRequested(time: Time, isSeekingPendingSeek: bool) // StartSeek
    | ChunkSeekCompleted(status: PipelineStatus)      // OnDemuxerSeekDone
    | AudioResetCompleted                             // audio decrypting stream reset: ResetVideoDecryptingDemuxerStream
    | VideoResetCompleted                             // video decrypting stream reset: FinishResettingDecryptingDemuxerStreams
    | StopRequested                                   // Stop
    | DemuxerStopRequested                            // posted StopDemuxer

  /**
   * Whether the event can reach the delegate in state `s`: the posted tasks
   * only run after the step that posts them, and a decrypting stream's callback
   * only comes from a decrypting stream that exists.
   */
  predicate Enabled(s: State, e: Event) {
    match e
    case MediaSourceInitialization => s.hasDemuxerClient
    case DemuxerInitialization => s.hasChunkDemuxer && s.hasDemuxerClient
    case StreamsAppended(chunk) =>
      && (s.streams.audio != NoStream ==> chunk.audio.Some?)
      && (s.streams.video != NoStream ==> chunk.video.Some?)
    case StreamInfoRequested => s.hasChunkDemuxer
    case AudioDecryptorReady(_) => s.hasChunkDemuxer ==> s.streams.hasAudioDds
    case VideoDecryptorReady(_) => s.hasChunkDemuxer ==> s.streams.hasVideoDds
    case DemuxerStopRequested => s.hasChunkDemuxer && s.hasDemuxerClient
    case _ => true
  }

  /** The handler an event runs; it keeps the invariant. */
  function Apply(s: State, e: Event): (r: Step)
    requires Enabled(s, e)
    ensures Inv(s) ==> Inv(r.state)
  {
    match e
    case MediaSourceInitialization => InitializeMediaSource(s)
    case DemuxerInitialization => InitializeDemuxer(s)
    case StreamsAppended(chunk) => DemuxerStreamsChanged(s, chunk)
    case DemuxerInitCompleted(status) => OnDemuxerInitDone(s, status)
    case StreamInfoRequested => GetDemuxerStreamInfo(s)
    case CdmProvided => SetCdm(s)
    case AudioDecryptorReady(status) => OnAudioDecryptingDemuxerStreamInitDone(s, status)
    case VideoDecryptorReady(status) => OnVideoDecryptingDemuxerStreamInitDone(s, status)
    case ReadRequested(kind) => OnReadFromDemuxer(s, kind)
    case BufferDelivered(kind, status, buffer) => OnBufferReady(s, kind, status, buffer)
    case SeekAnnounced(t) => StartWaitingForSeek(s, t)
    case SeekSuperseded(t) => CancelPendingSeek(s, t)
    case SeekRequested(t, p) => StartSeek(s, t, p)
    case ChunkSeekCompleted(status) => OnDemuxerSeekDone(s, status)
    case AudioResetCompleted => ResetVideoDecryptingDemuxerStream(s)
    case VideoResetCompleted => FinishResettingDecryptingDemuxerStreams(s)
    case StopRequested => Stop(s)
    case DemuxerStopRequested => StopDemuxer(s)
  }

  /**
   * Runs the events in order, concatenating what they produce; an event that
   * cannot reach the delegate in the state it meets is not delivered. Every
   * state along any run satisfies the invariant.
   */
  function Run(s: State, events: seq<Event>): (r: Step)
    ensures Inv(s) ==> Inv(r.state)
    decreases |events|
  {
    if events == [] then Step(s, [])
    else
      var first := if Enabled(s, events[0]) then Apply(s, events[0]) else Step(s, []);
      var rest := Run(first.state, events[1..]);
      Step(rest.state, first.effects + rest.effects)
  }

  // ---------------------------------------------------------------------------
  // Seeking

  /** Calls CancelPendingSeek once for each time, in order. */
  function CancelEach(s: State, ts: seq<Time>): Step
    decreases |ts|
  {
    if ts == [] then Step(s, [])
    else
      var first := CancelPendingSeek(s, ts[0]);
      var rest := CancelEach(first.state, ts[1..]);
      Step(rest.state, first.effects + rest.effects)
  }

  /**
   * Seeks that supersede each other while the chunk demuxer is still seeking
   * coalesce: each only cancels, none seeks, the in-flight target is untouched,
   * the latest one is left pending, and when the chunk demuxer's seek
   * completes it seeks straight to that latest target.
   */
  lemma {:induction false} SupersededSeeksCoalesce(s: State, ts: seq<Time>)
    requires s.hasChunkDemuxer && !s.seek.isDemuxerSeekDone && |ts| > 0
    decreases |ts|
    ensures var r := CancelEach(s, ts);
      && r.state == s.(seek := r.state.seek)
      && r.state.seek.isSeeking && r.state.seek.pendingSeek
      && r.state.seek.pendingSeekTime == ts[|ts| - 1]
      && r.state.seek.seekTime == s.seek.seekTime
      && |r.effects| == |ts|
      && (forall i :: 0 <= i < |ts| ==> r.effects[i] == ChunkCancelPendingSeek(ts[i]))
    ensures var done := OnDemuxerSeekDone(CancelEach(s, ts).state, PipelineOk);
      && done.effects == [ChunkAbortPendingReads, ChunkSeek(ts[|ts| - 1])]
      && done.state.seek.seekTime == ts[|ts| - 1] && !done.state.seek.pendingSeek
  {
    var first := CancelPendingSeek(s, ts[0]);
    if |ts| > 1 {
      SupersededSeeksCoalesce(first.state, ts[1..]);
      var rest := CancelEach(first.state, ts[1..]);
      assert CancelEach(s, ts) == Step(rest.state, first.effects + rest.effects);
      forall i | 0 <= i < |ts|
        ensures (first.effects + rest.effects)[i] == ChunkCancelPendingSeek(ts[i])
      {
        if i > 0 {
          assert rest.effects[i - 1] == ChunkCancelPendingSeek(ts[1..][i - 1]);
        }
      }
    }
  }

  /**
   * A whole seek with nothing superseding it and no decrypting stream: the
   * player announces it, the bridge asks for it, the chunk demuxer completes it,
   * and the bridge is told the target was reached, with no video key frame.
   */
  lemma SeekReportsItsTarget(s: State, t: Time)
    requires Inv(s) && s.hasChunkDemuxer && !s.seek.pendingSeek
    requires !s.streams.hasAudioDds && !s.streams.hasVideoDds
    ensures var announced := StartWaitingForSeek(s, t);
      var requested := StartSeek(announced.state, t, false);
      var done := OnDemuxerSeekDone(requested.state, PipelineOk);
      && requested.effects == [ChunkAbortPendingReads, ChunkSeek(t)]
      && done.effects == [DemuxerSeekDone(t, NoTimestamp)]
      && !done.state.seek.isSeeking && done.state.seek.isDemuxerSeekDone
  {
  }

  // ---------------------------------------------------------------------------
  // CDM negotiation

  /** Both records hold a stream of the same kinds, over the same chunk demuxer report. */
  predicate SameHeld(a: Streams, b: Streams) {
    && a.chunk == b.chunk
    && (a.audio != NoStream <==> b.audio != NoStream)
    && (a.video != NoStream <==> b.video != NoStream)
  }

  /**
   * Initialization finishing as the collaborators drive it: GetDemuxerStreamInfo
   * runs, and if it asks for a CDM, SetCdm runs and each decrypting stream that
   * is started (audio when audio is encrypted; video when video is encrypted and
   * audio did not fail first) completes with the given status. The delegate
   * always ends ready.
   */
  function Negotiate(s: State, audioStatus: PipelineStatus, videoStatus: PipelineStatus): (r: Step)
    requires Inv(s) && s.hasChunkDemuxer
    ensures r.state.isDemuxerReady && Inv(r.state)
    ensures SameHeld(r.state.streams, GetDemuxerStreamInfo(s).state.streams)
  {
    var info := GetDemuxerStreamInfo(s);
    if !HasEncryptedStream(info.state.streams) then info
    else
      var rest := NegotiateWithCdm(info.state, audioStatus, videoStatus);
      Step(rest.state, info.effects + rest.effects)
  }

  /** The part of Negotiate after GetDemuxerStreamInfo has asked for a CDM. */
  function NegotiateWithCdm(s: State, audioStatus: PipelineStatus, videoStatus: PipelineStatus): (r: Step)
    requires Inv(s) && s.hasChunkDemuxer && HasEncryptedStream(s.streams)
    ensures r.state.isDemuxerReady && Inv(r.state) && SameHeld(r.state.streams, s.streams)
  {
    var cdm := SetCdm(s);
    assert Inv(cdm.state) && SameHeld(cdm.state.streams, s.streams);
    if AudioEncrypted(s.streams) then
      var audio := OnAudioDecryptingDemuxerStreamInitDone(cdm.state, audioStatus);
      assert Inv(audio.state) && SameHeld(audio.state.streams, s.streams);
      if audioStatus == PipelineOk && VideoEncrypted(s.streams) then
        var video := OnVideoDecryptingDemuxerStreamInitDone(audio.state, videoStatus);
        Step(video.state, cdm.effects + audio.effects + video.effects)
      else Step(audio.state, cdm.effects + audio.effects)
    else
      var video := OnVideoDecryptingDemuxerStreamInitDone(cdm.state, videoStatus);
      Step(video.state, cdm.effects + video.effects)
  }

  predicate ChunkAudioEncrypted(s: State) {
    s.streams.chunk.audio.Some? && s.streams.chunk.audio.value.isEncrypted
  }

  predicate ChunkVideoEncrypted(s: State) {
    s.streams.chunk.video.Some? && s.streams.chunk.video.value.isEncrypted
  }

  /** With nothing encrypted no CDM is asked for: any waiting attached-callback hears "not attached" and readiness is announced. */
  lemma ClearStreamsNeedNoCdm(s: State, audioStatus: PipelineStatus, videoStatus: PipelineStatus)
    requires Inv(s) && s.hasChunkDemuxer && !ChunkAudioEncrypted(s) && !ChunkVideoEncrypted(s)
    requires s.streams.chunk.audio.Some? || s.streams.chunk.video.Some?
    ensures var r := Negotiate(s, audioStatus, videoStatus);
      r.effects == (if s.hasPendingCdmAttachedCb then [CdmAttached(false)] else [])
                   + [DemuxerReady(BuildConfigs(r.state.streams))]
  {
  }

  /** Encrypted audio whose decrypting stream fails: video is never tried and the CDM is reported not attached. */
  lemma AudioFailureEndsNegotiation(s: State, audioStatus: PipelineStatus, videoStatus: PipelineStatus)
    requires Inv(s) && s.hasChunkDemuxer && ChunkAudioEncrypted(s) && audioStatus != PipelineOk
    ensures var r := Negotiate(s, audioStatus, videoStatus);
      r.effects == [RequestCdm, DecryptingStreamInitialize(Audio), CdmAttached(false),
                    DemuxerReady(BuildConfigs(r.state.streams))]
  {
    var info := GetDemuxerStreamInfo(s);
    var cdm := SetCdm(info.state);
    assert AudioEncrypted(info.state.streams);
    var audio := OnAudioDecryptingDemuxerStreamInitDone(cdm.state, audioStatus);
    assert audio.effects == [CdmAttached(false), DemuxerReady(BuildConfigs(audio.state.streams))];
  }

  /** Both encrypted and audio succeeds: audio is negotiated before video, and the CDM counts as attached exactly when video succeeds too. */
  lemma AudioIsNegotiatedBeforeVideo(s: State, videoStatus: PipelineStatus)
    requires Inv(s) && s.hasChunkDemuxer && ChunkAudioEncrypted(s) && ChunkVideoEncrypted(s)
    ensures var r := Negotiate(s, PipelineOk, videoStatus);
      && r.effects == [RequestCdm, DecryptingStreamInitialize(Audio), DecryptingStreamInitialize(Video),
                       CdmAttached(videoStatus == PipelineOk), DemuxerReady(BuildConfigs(r.state.streams))]
      && r.state.streams.audio == DecryptingStream
      && (videoStatus == PipelineOk <==> r.state.streams.video == DecryptingStream)
  {
    var info := GetDemuxerStreamInfo(s);
    var cdm := SetCdm(info.state);
    assert AudioEncrypted(info.state.streams);
    var audio := OnAudioDecryptingDemuxerStreamInitDone(cdm.state, PipelineOk);
    assert VideoEncrypted(cdm.state.streams);
    var video := OnVideoDecryptingDemuxerStreamInitDone(audio.state, videoStatus);
    assert video.effects == [CdmAttached(videoStatus == PipelineOk), DemuxerReady(BuildConfigs(video.state.streams))];
    assert NegotiateWithCdm(info.state, PipelineOk, videoStatus) == Step(video.state, cdm.effects + audio.effects + video.effects);
  }

  /** Only audio encrypted and it succeeds: the CDM is reported attached. */
  lemma AudioOnlyNegotiation(s: State, videoStatus: PipelineStatus)
    requires Inv(s) && s.hasChunkDemuxer && ChunkAudioEncrypted(s) && !ChunkVideoEncrypted(s)
    ensures var r := Negotiate(s, PipelineOk, videoStatus);
      && r.effects == [RequestCdm, DecryptingStreamInitialize(Audio), CdmAttached(true),
                       DemuxerReady(BuildConfigs(r.state.streams))]
      && r.state.streams.audio == DecryptingStream
  {
    var info := GetDemuxerStreamInfo(s);
    var cdm := SetCdm(info.state);
    assert AudioEncrypted(info.state.streams);
    var audio := OnAudioDecryptingDemuxerStreamInitDone(cdm.state, PipelineOk);
    assert !VideoEncrypted(cdm.state.streams);
    assert audio.effects == [CdmAttached(true), DemuxerReady(BuildConfigs(audio.state.streams))];
  }

  /** Only video encrypted: video is negotiated alone and the CDM counts as attached exactly when it succeeds. */
  lemma VideoOnlyNegotiation(s: State, audioStatus: PipelineStatus, videoStatus: PipelineStatus)
    requires Inv(s) && s.hasChunkDemuxer && !ChunkAudioEncrypted(s) && ChunkVideoEncrypted(s)
    ensures var r := Negotiate(s, audioStatus, videoStatus);
      r.effects == [RequestCdm, DecryptingStreamInitialize(Video), CdmAttached(videoStatus == PipelineOk),
                    DemuxerReady(BuildConfigs(r.state.streams))]
  {
    var info := GetDemuxerStreamInfo(s);
    var cdm := SetCdm(info.state);
    assert !AudioEncrypted(info.state.streams) && VideoEncrypted(info.state.streams);
    var video := OnVideoDecryptingDemuxerStreamInitDone(cdm.state, videoStatus);
    assert video.effects == [CdmAttached(videoStatus == PipelineOk), DemuxerReady(BuildConfigs(video.state.streams))];
  }

  /**
   * Negotiation ends holding every stream the chunk demuxer reports, and the
   * configs announced carry each stream's own encryption flag, even where reads
   * now go through a decrypting stream.
   */
  lemma AnnouncedEncryptionIsTheStreams(s: State, audioStatus: PipelineStatus, videoStatus: PipelineStatus)
    requires Inv(s) && s.hasChunkDemuxer
    ensures var r := Negotiate(s, audioStatus, videoStatus);
      && r.state.streams.chunk == s.streams.chunk
      && (s.streams.chunk.audio.Some? <==> r.state.streams.audio != NoStream)
      && (s.streams.chunk.video.Some? <==> r.state.streams.video != NoStream)
      && (s.streams.chunk.audio.Some? ==>
            BuildConfigs(r.state.streams).isAudioEncrypted == s.streams.chunk.audio.value.isEncrypted)
      && (s.streams.chunk.video.Some? ==>
            BuildConfigs(r.state.streams).isVideoEncrypted == s.streams.chunk.video.value.isEncrypted)
  {
    var r := Negotiate(s, audioStatus, videoStatus);
    assert StreamsInv(r.state.streams);
  }

  // ---------------------------------------------------------------------------
  // Stopping and reads

  /**
   * After StopDemuxer every call that can still arrive is ignored: nothing is
   * produced and only the chunk demuxer's own report can change.
   */
  lemma StoppedDelegateIsInert(s: State, e: Event)
    requires Inv(s) && s.hasChunkDemuxer
    requires Enabled(StopDemuxer(s).state, e)
    ensures var stopped := StopDemuxer(s).state;
      && Apply(stopped, e).effects == []
      && Apply(stopped, e).state == stopped.(streams := stopped.streams.(chunk := Apply(stopped, e).state.streams.chunk))
  {
  }

  /**
   * One read in flight per stream: a second request before the buffer comes
   * back issues nothing, and once the buffer has been delivered (or the read
   * aborted) the next request reads again.
   */
  lemma ReadsAreGatedPerStream(s: State, kind: StreamType, status: ReadStatus, buffer: DecoderBuffer)
    requires s.hasChunkDemuxer && !s.seek.isSeeking && (kind == Audio || kind == Video)
    requires StreamOf(s.streams, kind) != NoStream && !ReadFired(s.fired, kind)
    requires status != ConfigChanged
    ensures var first := OnReadFromDemuxer(s, kind);
      var second := OnReadFromDemuxer(first.state, kind);
      var delivered := OnBufferReady(second.state, kind, status, buffer);
      var third := OnReadFromDemuxer(delivered.state, kind);
      && first.effects == [StreamRead(kind, StreamOf(s.streams, kind))]
      && second.effects == []
      && third.effects == [StreamRead(kind, StreamOf(s.streams, kind))]
  {
  }
}
