/**
 * The records carried between the renderer's demuxer bridge and the browser's
 * player: the per-stream configuration sent when the demuxer is ready, and the
 * metadata that accompanies every demuxed buffer.
 */
module DemuxerParams {

  /** Times are integer microseconds, as base::TimeDelta holds them. */
  type Time = int

  /** media::kNoTimestamp, which is TimeDelta::Min(): the smallest 64-bit value. */
  const NoTimestamp: Time := -0x8000_0000_0000_0000

  /** media::DemuxerStream::Type. */
  datatype StreamType = UnknownStream | Audio | Video | Text

  /**
   * media::DemuxerStream::Status: the outcome of one read. `Error` is what a
   * decrypting demuxer stream reports when decryption fails.
   */
  datatype ReadStatus = Ok | Aborted | ConfigChanged | Error

  /** media::AudioCodec; every codec other than the unknown one is kept by number. */
  datatype AudioCodec = UnknownAudioCodec | AudioCodecId(id: nat)

  /** media::VideoCodec. */
  datatype VideoCodec = UnknownVideoCodec | VideoCodecId(id: nat)

  /** gfx::Size. */
  datatype Size = Size(width: int, height: int)

  type Bytes = seq<bv8>

  /** media::DemuxerConfigs: what DemuxerReady tells the browser about each stream. */
  datatype DemuxerConfigs = DemuxerConfigs(
    audioCodec: AudioCodec,
    audioChannels: int,
    audioSamplingRate: int,
    audioBitRate: int,
    isAudioEncrypted: bool,
    audioExtraData: Bytes,
    videoCodec: VideoCodec,
    videoSize: Size,
    isVideoEncrypted: bool,
    videoExtraData: Bytes,
    webmHdrInfo: string,
    framerateNum: int,
    framerateDen: int,
    isFramerateChanged: bool,
    durationMs: int)

  /** media::DemuxedBufferMetaData: what accompanies one buffer sent to the browser. */
  datatype DemuxedBufferMetaData = DemuxedBufferMetaData(
    size: int,
    endOfStream: bool,
    timestamp: Time,
    timeDuration: Time,
    streamType: StreamType,
    status: ReadStatus,
    tzHandle: int)

  /**
   * The default-constructed DemuxerConfigs: both codecs unknown, every count,
   * rate and duration zero, nothing encrypted, no frame-rate change, and the
   * vectors and the string empty.
   */
  function DefaultDemuxerConfigs(): (c: DemuxerConfigs)
    ensures c.audioCodec == UnknownAudioCodec && c.videoCodec == UnknownVideoCodec
    ensures c.audioChannels == 0 && c.audioSamplingRate == 0 && c.audioBitRate == 0
    ensures !c.isAudioEncrypted && !c.isVideoEncrypted && !c.isFramerateChanged
    ensures c.framerateNum == 0 && c.framerateDen == 0 && c.durationMs == 0
    ensures c.audioExtraData == [] && c.videoExtraData == [] && c.webmHdrInfo == ""
    ensures c.videoSize == Size(0, 0)
  {
    DemuxerConfigs(
      UnknownAudioCodec, 0, 0, 0, false, [],
      UnknownVideoCodec, Size(0, 0), false, [],
      "", 0, 0, false, 0)
  }

  /**
   * The default-constructed DemuxedBufferMetaData: an empty, aborted buffer of
   * unknown type that is not the end of the stream, at time zero.
   */
  function DefaultBufferMetaData(): (m: DemuxedBufferMetaData)
    ensures m.size == 0 && !m.endOfStream
    ensures m.streamType == UnknownStream && m.status == Aborted
    ensures m.timestamp == 0 && m.timeDuration == 0 && m.tzHandle == 0
  {
    DemuxedBufferMetaData(0, false, 0, 0, UnknownStream, Aborted, 0)
  }
}
