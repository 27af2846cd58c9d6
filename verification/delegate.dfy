/**
 * MediaSourceDelegateCastanets as an object whose handlers update its fields in
 * place. Each handler is proved to perform exactly the transition DelegateSpec
 * gives for it: the fields afterwards are that transition's new state, and the
 * effects it appends to `effects` are that transition's effects.
 */
module MediaSourceDelegate {
  import opened Optional
  import opened DemuxerParams
  import opened DelegateSpec

  class Delegate {
    var hasChunkDemuxer: bool          // chunk_demuxer_ != null
    var hasDemuxerClient: bool         // demuxer_client_ != null
    var hasUpdateNetworkStateCb: bool
    var hasCdmContext: bool
    var hasPendingCdmAttachedCb: bool
    var isDemuxerReady: bool
    var streams: Streams               // audio_stream_, video_stream_, the decrypting streams, and the chunk demuxer's report
    var seek: SeekFields               // the fields seeking_lock_ guards
    var fired: ReadFlags               // is_audio_read_fired_, is_video_read_fired_
    /** The calls this delegate has made on its collaborators and the tasks it has posted, oldest first. */
    var effects: seq<Effect>

    /** The fields as a DelegateSpec record. */
    function Snapshot(): State
      reads this
    {
      State(hasChunkDemuxer, hasDemuxerClient, hasUpdateNetworkStateCb, hasCdmContext,
            hasPendingCdmAttachedCb, isDemuxerReady, streams, seek, fired)
    }

    predicate Valid()
      reads this
    {
      Inv(Snapshot())
    }

    constructor()
      ensures Valid() && Snapshot() == Initial() && effects == []
    {
      hasChunkDemuxer, hasDemuxerClient, hasUpdateNetworkStateCb := false, true, false;
      hasCdmContext, hasPendingCdmAttachedCb, isDemuxerReady := false, false, false;
      streams := Streams(ChunkStreams(None, None), NoStream, NoStream, false, false);
      seek := SeekFields(NoTimestamp, false, false, false, false, NoTimestamp);
      fired := ReadFlags(false, false);
      effects := [];
    }

    // -------------------------------------------------------------------------
    // Initialization and readiness

    method InitializeMediaSource()
      requires Valid() && hasDemuxerClient
      modifies this
      ensures Valid()
      ensures Snapshot() == DelegateSpec.InitializeMediaSource(old(Snapshot())).state
      ensures effects == old(effects) + DelegateSpec.InitializeMediaSource(old(Snapshot())).effects
    {
      hasUpdateNetworkStateCb := true;
      hasChunkDemuxer := true;
      effects := effects + [PostInitializeDemuxer];
    }

    method InitializeDemuxer()
      requires Valid() && hasChunkDemuxer && hasDemuxerClient
      modifies this
      ensures Valid()
      ensures Snapshot() == DelegateSpec.InitializeDemuxer(old(Snapshot())).state
      ensures effects == old(effects) + DelegateSpec.InitializeDemuxer(old(Snapshot())).effects
    {
      effects := effects + [AddDelegate];
      effects := effects + [ChunkInitialize];
    }

    /** The chunk demuxer's report changes under the delegate; a stream it has handed out stays. */
    method ChunkStreamsChanged(newChunk: ChunkStreams)
      requires Valid()
      requires streams.audio != NoStream ==> newChunk.audio.Some?
      requires streams.video != NoStream ==> newChunk.video.Some?
      modifies this
      ensures Valid()
      ensures Snapshot() == DemuxerStreamsChanged(old(Snapshot()), newChunk).state
      ensures effects == old(effects)
    {
      streams := streams.(chunk := newChunk);
    }

    method OnDemuxerError(status: PipelineStatus)
      modifies this
      ensures old(Valid()) ==> Valid()
      ensures Snapshot() == old(Snapshot())
      ensures effects == old(effects) + ErrorEffects(old(Snapshot()), status)
    {
      if status != PipelineOk && hasUpdateNetworkStateCb {
        effects := effects + [NetworkError(status)];
      }
    }

    method OnDemuxerInitDone(status: PipelineStatus)
      requires Valid()
      modifies this
      ensures Valid()
      ensures Snapshot() == DelegateSpec.OnDemuxerInitDone(old(Snapshot()), status).state
      ensures effects == old(effects) + DelegateSpec.OnDemuxerInitDone(old(Snapshot()), status).effects
    {
      if !hasChunkDemuxer {
        return;  // weak callback dropped
      }
      if status != PipelineOk {
        OnDemuxerError(status);
        return;
      }
      effects := effects + [PostGetDemuxerStreamInfo];
    }

    method GetDemuxerStreamInfo()
      requires Valid() && hasChunkDemuxer
      modifies this
      ensures Valid()
      ensures Snapshot() == DelegateSpec.GetDemuxerStreamInfo(old(Snapshot())).state
      ensures effects == old(effects) + DelegateSpec.GetDemuxerStreamInfo(old(Snapshot())).effects
    {
      streams := streams.(audio := if streams.chunk.audio.Some? then DemuxerStream else NoStream);
      streams := streams.(video := if streams.chunk.video.Some? then DemuxerStream else NoStream);
      assert streams == FirstStreams(old(streams));
      if DelegateSpec.HasEncryptedStream(streams) {
        effects := effects + [RequestCdm];
        return;
      }
      NotifyDemuxerReady(false);
    }

    method SetCdm()
      requires Valid()
      modifies this
      ensures Valid()
      ensures Snapshot() == DelegateSpec.SetCdm(old(Snapshot())).state
      ensures effects == old(effects) + DelegateSpec.SetCdm(old(Snapshot())).effects
    {
      if !hasChunkDemuxer {
        return;  // weak callback dropped
      }
      hasCdmContext := true;
      hasPendingCdmAttachedCb := true;
      if AudioEncrypted(streams) {
        InitAudioDecryptingDemuxerStream();
        return;
      }
      if VideoEncrypted(streams) {
        InitVideoDecryptingDemuxerStream();
        return;
      }
    }

    method InitAudioDecryptingDemuxerStream()
      modifies this
      ensures old(Valid() && hasDemuxerClient && streams.audio != NoStream) ==> Valid()
      ensures Snapshot() == DelegateSpec.InitAudioDecryptingDemuxerStream(old(Snapshot())).state
      ensures effects == old(effects) + DelegateSpec.InitAudioDecryptingDemuxerStream(old(Snapshot())).effects
    {
      streams := streams.(hasAudioDds := true);
      effects := effects + [DecryptingStreamInitialize(Audio)];
    }

    method InitVideoDecryptingDemuxerStream()
      modifies this
      ensures old(Valid() && hasDemuxerClient && streams.video != NoStream) ==> Valid()
      ensures Snapshot() == DelegateSpec.InitVideoDecryptingDemuxerStream(old(Snapshot())).state
      ensures effects == old(effects) + DelegateSpec.InitVideoDecryptingDemuxerStream(old(Snapshot())).effects
    {
      streams := streams.(hasVideoDds := true);
      effects := effects + [DecryptingStreamInitialize(Video)];
    }

    /** Called by the audio decrypting stream, which therefore exists. */
    method OnAudioDecryptingDemuxerStreamInitDone(status: PipelineStatus)
      requires Valid() && (hasChunkDemuxer ==> streams.hasAudioDds)
      modifies this
      ensures Valid()
      ensures Snapshot() == DelegateSpec.OnAudioDecryptingDemuxerStreamInitDone(old(Snapshot()), status).state
      ensures effects == old(effects) + DelegateSpec.OnAudioDecryptingDemuxerStreamInitDone(old(Snapshot()), status).effects
    {
      if !hasChunkDemuxer {
        return;  // weak callback dropped
      }
      fired := fired.(audio := false);
      if status != PipelineOk {
        streams := streams.(hasAudioDds := false);
        NotifyDemuxerReady(false);
        return;
      }
      streams := streams.(audio := DecryptingStream);
      assert VideoEncrypted(streams) == VideoEncrypted(old(streams));
      if VideoEncrypted(streams) {
        InitVideoDecryptingDemuxerStream();
        return;
      }
      NotifyDemuxerReady(true);
    }

    /** Called by the video decrypting stream, which therefore exists. */
    method OnVideoDecryptingDemuxerStreamInitDone(status: PipelineStatus)
      requires Valid() && (hasChunkDemuxer ==> streams.hasVideoDds)
      modifies this
      ensures Valid()
      ensures Snapshot() == DelegateSpec.OnVideoDecryptingDemuxerStreamInitDone(old(Snapshot()), status).state
      ensures effects == old(effects) + DelegateSpec.OnVideoDecryptingDemuxerStreamInitDone(old(Snapshot()), status).effects
    {
      if !hasChunkDemuxer {
        return;  // weak callback dropped
      }
      var success := status == PipelineOk;
      fired := fired.(video := false);
      if !success {
        streams := streams.(hasVideoDds := false);
      } else {
        streams := streams.(video := DecryptingStream);
      }
      NotifyDemuxerReady(success);
    }

    method NotifyDemuxerReady(isCdmAttached: bool)
      modifies this
      ensures old(Valid()) ==> Valid()
      ensures Snapshot() == DelegateSpec.NotifyDemuxerReady(old(Snapshot()), isCdmAttached).state
      ensures effects == old(effects) + DelegateSpec.NotifyDemuxerReady(old(Snapshot()), isCdmAttached).effects
    {
      isDemuxerReady := true;
      if hasPendingCdmAttachedCb {
        effects := effects + [CdmAttached(isCdmAttached)];
        hasPendingCdmAttachedCb := false;
      }
      if !hasDemuxerClient || (streams.audio == NoStream && streams.video == NoStream) {
        OnDemuxerError(InitializationFailed);
        return;
      }
      effects := effects + [DemuxerReady(BuildConfigs(streams))];
    }

    // -------------------------------------------------------------------------
    // Reads

    method OnReadFromDemuxer(kind: StreamType)
      requires Valid()
      modifies this
      ensures Valid()
      ensures Snapshot() == DelegateSpec.OnReadFromDemuxer(old(Snapshot()), kind).state
      ensures effects == old(effects) + DelegateSpec.OnReadFromDemuxer(old(Snapshot()), kind).effects
    {
      if seek.isSeeking {
        return;
      }
      if kind == Audio && streams.audio != NoStream && !fired.audio {
        fired := fired.(audio := true);
        effects := effects + [StreamRead(Audio, streams.audio)];
      }
      if kind == Video && streams.video != NoStream && !fired.video {
        fired := fired.(video := true);
        effects := effects + [StreamRead(Video, streams.video)];
      }
    }

    method OnBufferReady(kind: StreamType, status: ReadStatus, buffer: DecoderBuffer)
      requires Valid()
      modifies this
      ensures Valid()
      ensures Snapshot() == DelegateSpec.OnBufferReady(old(Snapshot()), kind, status, buffer).state
      ensures effects == old(effects) + DelegateSpec.OnBufferReady(old(Snapshot()), kind, status, buffer).effects
    {
      if !hasChunkDemuxer {
        return;  // weak callback dropped
      }
      var meta := DefaultBufferMetaData().(status := status, streamType := kind);
      var data: Bytes := [];
      if kind == Audio {
        fired := fired.(audio := false);
      }
      if kind == Video {
        fired := fired.(video := false);
      }
      match status {
        case Aborted =>
          return;
        case ConfigChanged =>
          if DelegateSpec.HasEncryptedStream(streams) {
            if kind == Audio {
              fired := fired.(audio := true);
            } else if kind == Video {
              fired := fired.(video := true);
            }
            effects := effects + [RequestCdm];
          } else {
            NotifyDemuxerReady(false);
          }
          return;
        case Ok =>
          match buffer {
            case EndOfStreamBuffer =>
              meta := meta.(endOfStream := true);
            case MediaBuffer(bytes, timestamp, duration) =>
              data := bytes;
              meta := meta.(size := |bytes|, timestamp := timestamp, timeDuration := duration);
          }
        case Error =>
          // the NOTREACHED default: a release build goes on to acknowledge
      }
      if hasDemuxerClient {
        effects := effects + [ReadFromDemuxerAck(data, meta)];
      }
    }

    // -------------------------------------------------------------------------
    // Seeking

    method StartWaitingForSeek(t: Time)
      requires Valid()
      modifies this
      ensures Valid()
      ensures Snapshot() == DelegateSpec.StartWaitingForSeek(old(Snapshot()), t).state
      ensures effects == old(effects) + DelegateSpec.StartWaitingForSeek(old(Snapshot()), t).effects
    {
      if !hasChunkDemuxer {
        return;
      }
      seek := seek.(isDemuxerSeekDone := false, seekingPendingSeek := false, isSeeking := true);
      effects := effects + [ChunkStartWaitingForSeek(t)];
    }

    method CancelPendingSeek(t: Time)
      requires Valid()
      modifies this
      ensures Valid()
      ensures Snapshot() == DelegateSpec.CancelPendingSeek(old(Snapshot()), t).state
      ensures effects == old(effects) + DelegateSpec.CancelPendingSeek(old(Snapshot()), t).effects
    {
      if !hasChunkDemuxer {
        return;
      }
      var cancelBrowserSeek := true;
      seek := seek.(isSeeking := true, pendingSeek := true, pendingSeekTime := t);
      if seek.isDemuxerSeekDone {
        seek := seek.(isDemuxerSeekDone := false, pendingSeek := false);
        cancelBrowserSeek := false;
      }
      if cancelBrowserSeek {
        effects := effects + [ChunkCancelPendingSeek(t)];
      } else {
        effects := effects + [ChunkStartWaitingForSeek(t)];
        effects := effects + [PostStartSeek(t, true)];
      }
    }

    method StartSeek(t: Time, isSeekingPendingSeek: bool)
      requires Valid()
      modifies this
      ensures Valid()
      ensures Snapshot() == DelegateSpec.StartSeek(old(Snapshot()), t, isSeekingPendingSeek).state
      ensures effects == old(effects) + DelegateSpec.StartSeek(old(Snapshot()), t, isSeekingPendingSeek).effects
    {
      if !hasChunkDemuxer {
        return;
      }
      seek := seek.(isSeeking := true, isDemuxerSeekDone := false);
      if isSeekingPendingSeek {
        seek := seek.(seekingPendingSeek := isSeekingPendingSeek);
      } else if seek.seekingPendingSeek {
        return;
      }
      seek := seek.(seekTime := t);
      SeekInternal(t);
    }

    method SeekInternal(t: Time)
      modifies this
      ensures old(Valid()) ==> Valid()
      ensures Snapshot() == old(Snapshot())
      ensures effects == old(effects) + DelegateSpec.SeekInternal(t)
    {
      effects := effects + [ChunkAbortPendingReads];
      effects := effects + [ChunkSeek(t)];
    }

    method OnDemuxerSeekDone(status: PipelineStatus)
      requires Valid()
      modifies this
      ensures Valid()
      ensures Snapshot() == DelegateSpec.OnDemuxerSeekDone(old(Snapshot()), status).state
      ensures effects == old(effects) + DelegateSpec.OnDemuxerSeekDone(old(Snapshot()), status).effects
    {
      if !hasChunkDemuxer {
        return;  // weak callback dropped
      }
      if status != PipelineOk {
        OnDemuxerError(status);
        return;
      }
      var pending := false;
      if seek.pendingSeek {
        seek := seek.(pendingSeek := false, seekTime := seek.pendingSeekTime);
        pending := true;
      } else {
        seek := seek.(seekingPendingSeek := false, isSeeking := false, isDemuxerSeekDone := true);
      }
      if pending {
        StartSeek(seek.pendingSeekTime, true);
      } else {
        ResetAudioDecryptingDemuxerStream();
      }
    }

    method ResetAudioDecryptingDemuxerStream()
      modifies this
      ensures old(Valid()) ==> Valid()
      ensures Snapshot() == DelegateSpec.ResetAudioDecryptingDemuxerStream(old(Snapshot())).state
      ensures effects == old(effects) + DelegateSpec.ResetAudioDecryptingDemuxerStream(old(Snapshot())).effects
    {
      if streams.hasAudioDds {
        effects := effects + [DecryptingStreamReset(Audio)];
        return;
      }
      ResetVideoDecryptingDemuxerStream();
    }

    /** Also the audio decrypting stream's reset callback, dropped once the delegate has stopped. */
    method ResetVideoDecryptingDemuxerStream()
      modifies this
      ensures old(Valid()) ==> Valid()
      ensures Snapshot() == DelegateSpec.ResetVideoDecryptingDemuxerStream(old(Snapshot())).state
      ensures effects == old(effects) + DelegateSpec.ResetVideoDecryptingDemuxerStream(old(Snapshot())).effects
    {
      if !hasChunkDemuxer {
        return;  // weak callback dropped
      }
      if streams.hasVideoDds {
        effects := effects + [DecryptingStreamReset(Video)];
        return;
      }
      FinishResettingDecryptingDemuxerStreams();
    }

    /** Also the video decrypting stream's reset callback, dropped once the delegate has stopped. */
    method FinishResettingDecryptingDemuxerStreams()
      modifies this
      ensures old(Valid()) ==> Valid()
      ensures Snapshot() == DelegateSpec.FinishResettingDecryptingDemuxerStreams(old(Snapshot())).state
      ensures effects == old(effects) + DelegateSpec.FinishResettingDecryptingDemuxerStreams(old(Snapshot())).effects
    {
      if !hasChunkDemuxer {
        return;  // weak callback dropped
      }
      seek := seek.(isSeeking := false);
      effects := effects + [DemuxerSeekDone(seek.seekTime, NoTimestamp)];
    }

    // -------------------------------------------------------------------------
    // Stopping

    method Stop()
      requires Valid()
      modifies this
      ensures Valid()
      ensures Snapshot() == DelegateSpec.Stop(old(Snapshot())).state
      ensures effects == old(effects) + DelegateSpec.Stop(old(Snapshot())).effects
    {
      if !hasChunkDemuxer {
        return;
      }
      hasUpdateNetworkStateCb := false;
      effects := effects + [ChunkShutdown];
      effects := effects + [PostStopDemuxer];
    }

    method StopDemuxer()
      requires Valid() && hasChunkDemuxer
      modifies this
      ensures Valid()
      ensures Snapshot() == DelegateSpec.StopDemuxer(old(Snapshot())).state
      ensures effects == old(effects) + DelegateSpec.StopDemuxer(old(Snapshot())).effects
    {
      effects := effects + [RemoveDelegate];
      hasDemuxerClient := false;
      streams := streams.(audio := NoStream, video := NoStream, hasAudioDds := false, hasVideoDds := false);
      effects := effects + [ChunkStop];
      hasChunkDemuxer := false;
      effects := effects + [StopDone];
    }
  }
}
