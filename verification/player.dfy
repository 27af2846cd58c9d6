/**
 * WebMediaPlayerCastanets as an object: the seek fields and the small flags
 * its handlers update in place, the media source delegate it drives (null for
 * a plain URL player), and the log of calls it makes on its collaborators.
 */
module MediaPlayer {
  import opened Optional
  import opened DemuxerParams
  import opened PlayerSpec
  import DelegateSpec
  import opened MediaSourceDelegate

  /**
   * Every field of a player except the call log, as one value, so that a
   * handler can say which fields it changes and that the rest keep their values.
   */
  datatype PlayerFields = PlayerFields(
    seek: SeekState, currentTime: Time, duration: Time, isPaused: bool, isFullscreen: bool,
    didLoadingProgress: bool, initDataType: InitDataType, cdmContext: Option<nat>,
    pendingCdmReadyCb: Option<nat>, mediaSourceDelegate: Delegate?)

  class Player {
    var isSeeking: bool
    var seekTime: Time
    var pendingSeek: bool
    var pendingSeekTime: Time
    var currentTime: Time                 // as last reported by the browser
    var duration: Time
    var isPaused: bool
    var isFullscreen: bool
    var didLoadingProgress: bool
    var initDataType: InitDataType
    var cdmContext: Option<nat>           // never set by this class
    var pendingCdmReadyCb: Option<nat>
    const hasPlayerDelegate: bool         // delegate_ (the WebMediaPlayerDelegate) is bound
    var mediaSourceDelegate: Delegate?    // media_source_delegate_, created for an MSE load
    /** The calls this player has made on its collaborators, oldest first. */
    var effects: seq<PlayerEffect>

    function SeekFields(): SeekState
      reads this
    {
      SeekState(isSeeking, seekTime, pendingSeek, pendingSeekTime)
    }

    function Fields(): PlayerFields
      reads this
    {
      PlayerFields(SeekFields(), currentTime, duration, isPaused, isFullscreen, didLoadingProgress,
                   initDataType, cdmContext, pendingCdmReadyCb, mediaSourceDelegate)
    }

    predicate Valid()
      reads this, mediaSourceDelegate
    {
      && SeekInv(SeekFields())
      && (mediaSourceDelegate != null ==> mediaSourceDelegate.Valid())
    }

    /**
     * The constructor, with the delegate a MediaSource load creates. cdm_context_
     * is left uninitialised by the constructor; it is an input here.
     */
    constructor(hasPlayerDelegate: bool, mediaSourceDelegate: Delegate?, cdmContext: Option<nat>)
      requires mediaSourceDelegate != null ==> mediaSourceDelegate.Valid()
      ensures Valid()
      ensures SeekFields() == InitialSeek() && isPaused && !isFullscreen && !didLoadingProgress
      ensures initDataType == UnknownInitData && pendingCdmReadyCb.None?
      ensures effects == (if hasPlayerDelegate then [DelegateAddObserver, DelegateSetIdle(true)] else [])
      ensures this.hasPlayerDelegate == hasPlayerDelegate && this.mediaSourceDelegate == mediaSourceDelegate
      ensures this.cdmContext == cdmContext
    {
      isSeeking, seekTime, pendingSeek, pendingSeekTime := false, 0, false, 0;
      currentTime, duration := 0, 0;
      isPaused, isFullscreen, didLoadingProgress := true, false, false;
      initDataType := UnknownInitData;
      this.cdmContext := cdmContext;
      pendingCdmReadyCb := None;
      this.hasPlayerDelegate := hasPlayerDelegate;
      this.mediaSourceDelegate := mediaSourceDelegate;
      effects := [];
      if hasPlayerDelegate {
        effects := effects + [DelegateAddObserver];
        effects := effects + [DelegateSetIdle(true)];
      }
    }

    // -------------------------------------------------------------------------
    // Seeking

    /**
     * Seek(t): the seek fields and the calls made are PlayerSpec.Seek's, and the
     * media source delegate performs the delegate calls among them. Nothing else
     * of the player changes.
     */
    method Seek(t: Time)
      requires Valid()
      modifies this, mediaSourceDelegate
      ensures Valid() && Unchanged()
      ensures SeekFields() == PlayerSpec.Seek(old(SeekFields()), t, mediaSourceDelegate != null).state
      ensures effects == old(effects) + PlayerSpec.Seek(old(SeekFields()), t, mediaSourceDelegate != null).effects
      ensures mediaSourceDelegate != null ==>
        var d := DriveDelegate(old(mediaSourceDelegate.Snapshot()),
                               PlayerSpec.Seek(old(SeekFields()), t, true).effects);
        mediaSourceDelegate.Snapshot() == d.state && mediaSourceDelegate.effects == old(mediaSourceDelegate.effects) + d.effects
    {
      if mediaSourceDelegate != null {
        SeekDrivesOneDelegateCall(mediaSourceDelegate.Snapshot(), SeekFields(), t);
      }
      if isSeeking {
        if t == seekTime {
          if mediaSourceDelegate == null {
            pendingSeek := false;
            return;
          }
        }
        pendingSeek := true;
        pendingSeekTime := t;
        if mediaSourceDelegate != null {
          mediaSourceDelegate.CancelPendingSeek(pendingSeekTime);
          effects := effects + [DelegateCancelPendingSeek(pendingSeekTime)];
        }
        return;
      }
      isSeeking := true;
      seekTime := t;
      if mediaSourceDelegate != null {
        mediaSourceDelegate.StartWaitingForSeek(seekTime);
        effects := effects + [DelegateStartWaitingForSeek(seekTime)];
      }
      effects := effects + [ManagerSeek(seekTime)];
    }

    /** The fields no seek handler touches keep their values. */
    twostate predicate Unchanged()
      reads this
    {
      Fields() == old(Fields()).(seek := SeekFields())
    }

    /** OnSeekComplete: PlayerSpec.OnSeekComplete, with a pending seek issued through Seek. */
    method OnSeekComplete()
      requires Valid()
      modifies this, mediaSourceDelegate
      ensures Valid() && Unchanged()
      ensures SeekFields() == PlayerSpec.OnSeekComplete(old(SeekFields()), mediaSourceDelegate != null).state
      ensures effects == old(effects) + PlayerSpec.OnSeekComplete(old(SeekFields()), mediaSourceDelegate != null).effects
      ensures mediaSourceDelegate != null ==>
        var d := DriveDelegate(old(mediaSourceDelegate.Snapshot()),
                               PlayerSpec.OnSeekComplete(old(SeekFields()), true).effects);
        mediaSourceDelegate.Snapshot() == d.state && mediaSourceDelegate.effects == old(mediaSourceDelegate.effects) + d.effects
    {
      if mediaSourceDelegate != null {
        CompletionDrivesTheDelegate(mediaSourceDelegate.Snapshot(), SeekFields());
      }
      isSeeking := false;
      seekTime := 0;
      if pendingSeek {
        pendingSeek := false;
        Seek(pendingSeekTime);
        pendingSeekTime := 0;
        return;
      }
      effects := effects + [ClientTimeChanged];
    }

    /** CurrentTime. */
    function CurrentTime(): (t: Time)
      reads this
      ensures t == PlayerSpec.CurrentTime(SeekFields(), currentTime)
    {
      if isSeeking then (if pendingSeek then pendingSeekTime else seekTime) else currentTime
    }

    method OnTimeUpdate(t: Time)
      requires Valid()
      modifies this
      ensures Valid()
      ensures Fields() == old(Fields()).(currentTime := t)
      ensures effects == old(effects)
    {
      currentTime := t;
    }

    method OnTimeChanged()
      requires Valid()
      modifies this
      ensures Valid()
      ensures Fields() == old(Fields())
      ensures effects == old(effects) + [ClientTimeChanged]
    {
      effects := effects + [ClientTimeChanged];
    }

    method OnDurationChange(d: Time)
      requires Valid()
      modifies this
      ensures Valid()
      ensures Fields() == old(Fields()).(duration := d)
      ensures effects == old(effects) + [ClientDurationChanged]
    {
      duration := d;
      effects := effects + [ClientDurationChanged];
    }

    /** OnRequestSeek: the browser asks for a seek; the client is asked to perform it. */
    method OnRequestSeek(t: Time)
      requires Valid()
      modifies this
      ensures Valid()
      ensures Fields() == old(Fields())
      ensures effects == old(effects) + [ClientRequestSeek(t)]
    {
      effects := effects + [ClientRequestSeek(t)];
    }

    // -------------------------------------------------------------------------
    // Loading progress, pause state, fullscreen

    /** DidLoadingProgress: reports whether there was progress since the last call, and clears it. */
    method DidLoadingProgress() returns (progressed: bool)
      requires Valid()
      modifies this
      ensures Valid()
      ensures Fields() == old(Fields()).(didLoadingProgress := false)
      ensures progressed == old(didLoadingProgress) && effects == old(effects)
    {
      if didLoadingProgress {
        didLoadingProgress := false;
        return true;
      }
      return false;
    }

    /** OnBufferUpdate: records that loading progressed (the buffered range itself is not modelled). */
    method OnBufferUpdate(percentage: int)
      requires Valid()
      modifies this
      ensures Valid()
      ensures Fields() == old(Fields()).(didLoadingProgress := true)
      ensures effects == old(effects)
    {
      didLoadingProgress := true;
    }

    /**
     * OnPauseStateChange: a change tells the client and, when bound, the
     * WebMediaPlayerDelegate; setting the state it already has does nothing.
     */
    method OnPauseStateChange(state: bool)
      requires Valid()
      modifies this
      ensures Valid()
      ensures Fields() == old(Fields()).(isPaused := state)
      ensures old(isPaused) == state ==> effects == old(effects)
      ensures old(isPaused) != state ==> effects == old(effects) + PauseChangeEffects(state)
    {
      if isPaused == state {
        return;
      }
      isPaused := state;
      effects := effects + [ClientPlaybackStateChanged];
      if !hasPlayerDelegate {
        return;
      }
      if isPaused {
        effects := effects + [DelegateDidPause];
      } else {
        effects := effects + [DelegateDidPlay];
      }
    }

    /** The calls OnPauseStateChange(state) makes when the state changes. */
    function PauseChangeEffects(state: bool): (es: seq<PlayerEffect>)
      reads this
      ensures 1 <= |es| <= 2 && es[0] == ClientPlaybackStateChanged
      ensures |es| == 2 <==> hasPlayerDelegate
      ensures |es| == 2 ==> es[1] == (if state then DelegateDidPause else DelegateDidPlay)
    {
      [ClientPlaybackStateChanged] + (if !hasPlayerDelegate then [] else if state then [DelegateDidPause] else [DelegateDidPlay])
    }

    /**
     * OnPlayerSuspend: a preempted playing player becomes paused, and the
     * WebMediaPlayerDelegate, when bound, hears that the player is gone.
     */
    method OnPlayerSuspend(isPreempted: bool)
      requires Valid()
      modifies this
      ensures Valid()
      ensures Fields() == old(Fields()).(isPaused := isPaused)
      ensures isPaused == (old(isPaused) || isPreempted)
      ensures effects == old(effects)
        + (if !old(isPaused) && isPreempted then PauseChangeEffects(true) else [])
        + (if hasPlayerDelegate then [DelegatePlayerGone] else [])
    {
      if !isPaused && isPreempted {
        OnPauseStateChange(true);
      }
      if !hasPlayerDelegate {
        return;
      }
      effects := effects + [DelegatePlayerGone];
    }

    /** OnPlayerResumed: the WebMediaPlayerDelegate, when bound, is told the current pause state again. */
    method OnPlayerResumed(isPreempted: bool)
      requires Valid()
      modifies this
      ensures Valid()
      ensures Fields() == old(Fields())
      ensures effects == old(effects)
        + (if !hasPlayerDelegate then [] else if isPaused then [DelegateDidPause] else [DelegateDidPlay])
    {
      if !hasPlayerDelegate {
        return;
      }
      if isPaused {
        effects := effects + [DelegateDidPause];
      } else {
        effects := effects + [DelegateDidPlay];
      }
    }

    method EnteredFullscreen()
      requires Valid()
      modifies this
      ensures Valid()
      ensures Fields() == old(Fields()).(isFullscreen := true)
      ensures effects == old(effects)
    {
      if isFullscreen {
        return;
      }
      isFullscreen := true;
    }

    method ExitedFullscreen()
      requires Valid()
      modifies this
      ensures Valid()
      ensures Fields() == old(Fields()).(isFullscreen := false)
      ensures effects == old(effects)
    {
      if !isFullscreen {
        return;
      }
      isFullscreen := false;
    }

    // -------------------------------------------------------------------------
    // Encrypted media

    /**
     * OnEncryptedMediaInitData: the init data type latches to the first known
     * type reported; every report is passed on to the encrypted-media client
     * with its own type.
     */
    method OnEncryptedMediaInitData(dataType: InitDataType, initData: Bytes)
      requires Valid()
      modifies this
      ensures Valid()
      ensures Fields() == old(Fields()).(initDataType := initDataType)
      ensures initDataType == (if old(initDataType) == UnknownInitData then dataType else old(initDataType))
      ensures effects == old(effects) + [ClientEncrypted(dataType, initData)]
    {
      if initDataType == UnknownInitData {
        initDataType := dataType;
      }
      effects := effects + [ClientEncrypted(dataType, initData)];
    }

    /** SetCdmReadyCB: runs the callback when a CDM context exists, else keeps it (replacing any kept one). */
    method SetCdmReadyCB(callback: nat)
      requires Valid()
      modifies this
      ensures Valid()
      ensures Fields() == old(Fields()).(pendingCdmReadyCb := pendingCdmReadyCb)
      ensures cdmContext.Some? ==>
        effects == old(effects) + [RunCdmReadyCb(callback, cdmContext.value)]
        && pendingCdmReadyCb == old(pendingCdmReadyCb)
      ensures cdmContext.None? ==> effects == old(effects) && pendingCdmReadyCb == Some(callback)
    {
      if cdmContext.Some? {
        effects := effects + [RunCdmReadyCb(callback, cdmContext.value)];
      } else {
        pendingCdmReadyCb := Some(callback);
      }
    }
  }

  /** DidLoadingProgress is test-and-clear: a buffer update is reported by the next call only. */
  method ProgressIsReportedOnce(player: Player, percentage: int) returns (first: bool, second: bool)
    requires player.Valid()
    modifies player
    ensures first && !second
    ensures player.Valid() && player.Fields() == old(player.Fields()).(didLoadingProgress := false)
  {
    player.OnBufferUpdate(percentage);
    first := player.DidLoadingProgress();
    second := player.DidLoadingProgress();
  }

  /** The init data type latches: once a known type is recorded, later reports of another type leave it. */
  method InitDataTypeLatches(player: Player, first: InitDataType, later: seq<InitDataType>, initData: Bytes)
    requires player.Valid() && player.initDataType == UnknownInitData && first != UnknownInitData
    modifies player
    ensures player.Valid() && player.Fields() == old(player.Fields()).(initDataType := first)
  {
    player.OnEncryptedMediaInitData(first, initData);
    var i := 0;
    while i < |later|
      invariant 0 <= i <= |later|
      invariant player.Valid() && player.Fields() == old(player.Fields()).(initDataType := first)
    {
      player.OnEncryptedMediaInitData(later[i], initData);
      i := i + 1;
    }
  }
}
