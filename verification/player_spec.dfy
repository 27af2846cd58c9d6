/**
 * The seek bookkeeping of WebMediaPlayerCastanets, the control side of an MSE
 * player, as pure transitions, together with the two pure helpers of that file
 * (CurrentTime and GetCleanURL).
 *
 * A seek request that arrives while a seek is in progress is not sent on: it
 * is remembered as the pending seek, overwriting any earlier one, and issued
 * when the seek in progress completes. With a media source the demux-side
 * delegate is told of every request at once.
 */
module PlayerSpec {
  import opened Optional
  import opened DemuxerParams
  import DelegateSpec

  /** is_seeking_, seek_time_, pending_seek_ and pending_seek_time_. */
  datatype SeekState = SeekState(isSeeking: bool, seekTime: Time, pendingSeek: bool, pendingSeekTime: Time)

  /** media::EmeInitDataType. */
  datatype InitDataType = UnknownInitData | WebmInitData | CencInitData | KeyIdsInitData

  /** Calls the player makes on its collaborators, in order. */
  datatype PlayerEffect =
    // on the media source delegate
    | DelegateStartWaitingForSeek(time: Time)
    | DelegateCancelPendingSeek(time: Time)
    // on the player manager (an IPC message to the browser)
    | ManagerSeek(time: Time)
    // on the blink client and the encrypted-media client
    | ClientTimeChanged
    | ClientPlaybackStateChanged
    | ClientDurationChanged
    | ClientRequestSeek(time: Time)
    | ClientEncrypted(initDataType: InitDataType, initData: Bytes)
    // on the WebMediaPlayerDelegate
    | DelegateAddObserver
    | DelegateSetIdle(idle: bool)
    | DelegateDidPause
    | DelegateDidPlay
    | DelegatePlayerGone
    // a CDM-ready callback run with the CDM context
    | RunCdmReadyCb(callback: nat, cdm: nat)

  datatype SeekStep = SeekStep(state: SeekState, effects: seq<PlayerEffect>)

  /** A pending seek only exists while a seek is in progress. */
  predicate SeekInv(s: SeekState) {
    s.pendingSeek ==> s.isSeeking
  }

  /** The values the constructor leaves; seek_time_ and pending_seek_time_ are zero TimeDeltas. */
  function InitialSeek(): (s: SeekState)
    ensures SeekInv(s) && !s.isSeeking && !s.pendingSeek
  {
    SeekState(false, 0, false, 0)
  }

  /**
   * Seek(t). While a seek is in progress the request becomes the pending one;
   * without a media source a request for the time already being sought only
   * drops any pending request. Otherwise a seek starts: the delegate (if any)
   * is told to wait for it and the manager is asked for it.
   */
  function Seek(s: SeekState, t: Time, hasMediaSource: bool): (r: SeekStep)
    ensures SeekInv(s) ==> SeekInv(r.state)
    ensures r.state.isSeeking
    ensures !s.isSeeking ==>
      && r.state == s.(isSeeking := true, seekTime := t)
      && r.effects == (if hasMediaSource then [DelegateStartWaitingForSeek(t)] else []) + [ManagerSeek(t)]
    ensures s.isSeeking && t == s.seekTime && !hasMediaSource ==>
      r.state == s.(pendingSeek := false) && r.effects == []
    ensures s.isSeeking && (t != s.seekTime || hasMediaSource) ==>
      && r.state == s.(pendingSeek := true, pendingSeekTime := t)
      && r.effects == (if hasMediaSource then [DelegateCancelPendingSeek(t)] else [])
  {
    if s.isSeeking then
      if t == s.seekTime && !hasMediaSource then SeekStep(s.(pendingSeek := false), [])
      else
        SeekStep(s.(pendingSeek := true, pendingSeekTime := t),
                 if hasMediaSource then [DelegateCancelPendingSeek(t)] else [])
    else
      var ms := if hasMediaSource then [DelegateStartWaitingForSeek(t)] else [];
      SeekStep(s.(isSeeking := true, seekTime := t), ms + [ManagerSeek(t)])
  }

  /**
   * OnSeekComplete: the seek is over and seek_time_ is zeroed. A pending
   * request is then issued as a fresh seek and forgotten; with none the
   * client hears that the time changed.
   */
  function OnSeekComplete(s: SeekState, hasMediaSource: bool): (r: SeekStep)
    ensures SeekInv(s) ==> SeekInv(r.state)
    ensures !r.state.pendingSeek && r.state.pendingSeekTime == (if s.pendingSeek then 0 else s.pendingSeekTime)
    ensures s.pendingSeek ==>
      && r.state.isSeeking && r.state.seekTime == s.pendingSeekTime
      && r.effects == (if hasMediaSource then [DelegateStartWaitingForSeek(s.pendingSeekTime)] else [])
                      + [ManagerSeek(s.pendingSeekTime)]
    ensures !s.pendingSeek ==>
      !r.state.isSeeking && r.state.seekTime == 0 && r.effects == [ClientTimeChanged]
  {
    var s1 := s.(isSeeking := false, seekTime := 0);
    if s.pendingSeek then
      var r := Seek(s1.(pendingSeek := false), s.pendingSeekTime, hasMediaSource);
      SeekStep(r.state.(pendingSeekTime := 0), r.effects)
    else SeekStep(s1, [ClientTimeChanged])
  }

  /** CurrentTime: while seeking, the time most recently asked for; otherwise the last reported playback time. */
  function CurrentTime(s: SeekState, currentTime: Time): (t: Time)
    ensures !s.isSeeking ==> t == currentTime
    ensures s.isSeeking && s.pendingSeek ==> t == s.pendingSeekTime
    ensures s.isSeeking && !s.pendingSeek ==> t == s.seekTime
  {
    if s.isSeeking then (if s.pendingSeek then s.pendingSeekTime else s.seekTime)
    else currentTime
  }

  /** Whatever Seek does, the position reported right after it is the time asked for. */
  lemma SeekIsReportedAtOnce(s: SeekState, t: Time, hasMediaSource: bool, currentTime: Time)
    requires SeekInv(s)
    ensures CurrentTime(Seek(s, t, hasMediaSource).state, currentTime) == t
  {
  }

  /** The requests of a burst of Seek calls, applied in order. */
  function SeekAll(s: SeekState, ts: seq<Time>, hasMediaSource: bool): (r: SeekStep)
    decreases |ts|
  {
    if ts == [] then SeekStep(s, [])
    else
      var first := Seek(s, ts[0], hasMediaSource);
      var rest := SeekAll(first.state, ts[1..], hasMediaSource);
      SeekStep(rest.state, first.effects + rest.effects)
  }

  predicate NoManagerSeek(es: seq<PlayerEffect>) {
    forall i :: 0 <= i < |es| ==> !es[i].ManagerSeek?
  }

  /**
   * Seek requests made while a seek is in progress coalesce: none reaches the
   * manager, the seek in progress keeps its target, and only the latest
   * request is left pending (without a media source, a latest request for the
   * time already being sought leaves nothing pending). With a media source the
   * delegate hears of each request, in order.
   */
  lemma {:induction false} SeeksDuringSeekCoalesce(s: SeekState, ts: seq<Time>, hasMediaSource: bool)
    requires s.isSeeking && |ts| > 0
    decreases |ts|
    ensures var r := SeekAll(s, ts, hasMediaSource);
      && r.state.isSeeking && r.state.seekTime == s.seekTime
      && NoManagerSeek(r.effects)
      && (hasMediaSource ==>
            && r.state.pendingSeek && r.state.pendingSeekTime == ts[|ts| - 1]
            && r.effects == seq(|ts|, i requires 0 <= i < |ts| => DelegateCancelPendingSeek(ts[i])))
      && (!hasMediaSource ==>
            && r.effects == []
            && (r.state.pendingSeek <==> ts[|ts| - 1] != s.seekTime)
            && (r.state.pendingSeek ==> r.state.pendingSeekTime == ts[|ts| - 1]))
  {
    var first := Seek(s, ts[0], hasMediaSource);
    if |ts| == 1 {
      assert SeekAll(first.state, ts[1..], hasMediaSource) == SeekStep(first.state, []);
    } else {
      SeeksDuringSeekCoalesce(first.state, ts[1..], hasMediaSource);
      var rest := SeekAll(first.state, ts[1..], hasMediaSource);
      assert ts[1..][|ts[1..]| - 1] == ts[|ts| - 1];
      if hasMediaSource {
        assert first.effects + rest.effects == seq(|ts|, i requires 0 <= i < |ts| => DelegateCancelPendingSeek(ts[i]));
      }
      assert NoManagerSeek(first.effects + rest.effects) by {
        forall i | 0 <= i < |first.effects + rest.effects|
          ensures !(first.effects + rest.effects)[i].ManagerSeek?
        {
          if i >= |first.effects| {
            assert (first.effects + rest.effects)[i] == rest.effects[i - |first.effects|];
          }
        }
      }
    }
  }

  /**
   * After a burst of requests during a seek with a media source, completing
   * the seek issues exactly one new seek, to the latest request.
   */
  lemma CompletionIssuesTheLatestSeek(s: SeekState, ts: seq<Time>)
    requires s.isSeeking && |ts| > 0
    ensures var c := OnSeekComplete(SeekAll(s, ts, true).state, true);
      && c.effects == [DelegateStartWaitingForSeek(ts[|ts| - 1]), ManagerSeek(ts[|ts| - 1])]
      && c.state.isSeeking && c.state.seekTime == ts[|ts| - 1] && !c.state.pendingSeek
  {
    SeeksDuringSeekCoalesce(s, ts, true);
  }

  // ---------------------------------------------------------------------------
  // The player's calls on the media source delegate

  /** The delegate's transitions for the delegate calls among `es`, in order; other effects do not reach it. */
  function DriveDelegate(d: DelegateSpec.State, es: seq<PlayerEffect>): (r: DelegateSpec.Step)
    ensures DelegateSpec.Inv(d) ==> DelegateSpec.Inv(r.state)
    ensures r.state == d.(seek := r.state.seek)
    decreases |es|
  {
    if es == [] then DelegateSpec.Step(d, [])
    else
      var first := match es[0] {
        case DelegateStartWaitingForSeek(t) => DelegateSpec.StartWaitingForSeek(d, t)
        case DelegateCancelPendingSeek(t) => DelegateSpec.CancelPendingSeek(d, t)
        case _ => DelegateSpec.Step(d, [])
      };
      var rest := DriveDelegate(first.state, es[1..]);
      DelegateSpec.Step(rest.state, first.effects + rest.effects)
  }

  /** Each Seek makes exactly one delegate call: StartWaitingForSeek when idle, CancelPendingSeek during a seek. */
  lemma SeekDrivesOneDelegateCall(d: DelegateSpec.State, s: SeekState, t: Time)
    ensures DriveDelegate(d, Seek(s, t, true).effects)
      == if s.isSeeking then DelegateSpec.CancelPendingSeek(d, t) else DelegateSpec.StartWaitingForSeek(d, t)
  {
    var es := Seek(s, t, true).effects;
    if s.isSeeking {
      assert es[1..] == [];
    } else {
      assert es[1..] == [ManagerSeek(t)] && es[1..][1..] == [];
      var first := DelegateSpec.StartWaitingForSeek(d, t);
      assert DriveDelegate(first.state, es[1..]) == DriveDelegate(first.state, []);
    }
  }

  /** Completing a seek calls the delegate only to start the pending seek, if there is one. */
  lemma CompletionDrivesTheDelegate(d: DelegateSpec.State, s: SeekState)
    ensures DriveDelegate(d, OnSeekComplete(s, true).effects)
      == if s.pendingSeek then DelegateSpec.StartWaitingForSeek(d, s.pendingSeekTime) else DelegateSpec.Step(d, [])
  {
    if s.pendingSeek {
      SeekDrivesOneDelegateCall(d, s.(isSeeking := false, seekTime := 0, pendingSeek := false), s.pendingSeekTime);
    } else {
      var es := OnSeekComplete(s, true).effects;
      assert es[1..] == [];
    }
  }

  /**
   * A second seek made before the first completes, with a media source: the
   * player reports the second target at once and sends the manager only the
   * first; the delegate starts waiting for the first, then cancels its pending
   * seek and holds the second as the pending target, to be sought when the
   * chunk demuxer finishes the first.
   */
  lemma SecondSeekIsHeldPending(p: SeekState, d: DelegateSpec.State, t1: Time, t2: Time, currentTime: Time)
    requires SeekInv(p) && !p.isSeeking && d.hasChunkDemuxer
    ensures var first := Seek(p, t1, true);
      var second := Seek(first.state, t2, true);
      var delegate := DriveDelegate(d, first.effects + second.effects);
      && first.effects + second.effects
         == [DelegateStartWaitingForSeek(t1), ManagerSeek(t1), DelegateCancelPendingSeek(t2)]
      && CurrentTime(second.state, currentTime) == t2
      && delegate.effects == [DelegateSpec.ChunkStartWaitingForSeek(t1), DelegateSpec.ChunkCancelPendingSeek(t2)]
      && delegate.state.seek.isSeeking && delegate.state.seek.pendingSeek
      && delegate.state.seek.pendingSeekTime == t2 && !delegate.state.seek.isDemuxerSeekDone
  {
    var first := Seek(p, t1, true);
    var second := Seek(first.state, t2, true);
    var es := first.effects + second.effects;
    assert es == [DelegateStartWaitingForSeek(t1), ManagerSeek(t1), DelegateCancelPendingSeek(t2)];
    var d1 := DelegateSpec.StartWaitingForSeek(d, t1);
    assert es[1..] == [ManagerSeek(t1), DelegateCancelPendingSeek(t2)];
    assert es[1..][1..] == [DelegateCancelPendingSeek(t2)];
    assert es[1..][1..][1..] == [];
    var d2 := DelegateSpec.CancelPendingSeek(d1.state, t2);
    assert DriveDelegate(d1.state, es[1..]) == DriveDelegate(d1.state, es[1..][1..]);
    assert DriveDelegate(d1.state, es[1..][1..]) == DelegateSpec.Step(d2.state, d2.effects);
  }

  // ---------------------------------------------------------------------------
  // URLs

  function HasPrefix(s: string, prefix: string): bool {
    |prefix| <= |s| && s[..|prefix|] == prefix
  }

  /** The index of the first `c` in `s`, or -1 (std::string::find returning npos, stored in an int). */
  function FindChar(s: string, c: char): (i: int)
    ensures -1 <= i < |s|
    ensures i == -1 <==> c !in s
    ensures i >= 0 ==> s[i] == c && c !in s[..i]
    decreases |s|
  {
    if |s| == 0 then -1
    else if s[0] == c then 0
    else
      var j := FindChar(s[1..], c);
      assert j >= 0 ==> s[..j + 1] == [s[0]] + s[1..][..j];
      if j == -1 then -1 else j + 1
  }

  /**
   * GetCleanURL: an app:// URL stops the process (None); a file:// URL loses
   * everything from its first '?'; any other URL is kept as it is.
   */
  function GetCleanURL(url: string): (r: Option<string>)
    ensures r.None? <==> HasPrefix(url, "app://")
    ensures r.Some? && !HasPrefix(url, "file://") ==> r.value == url
    ensures r.Some? && HasPrefix(url, "file://") ==>
      && HasPrefix(url, r.value) && '?' !in r.value
      && (|r.value| == |url| || url[|r.value|] == '?')
  {
    if HasPrefix(url, "app://") then None
    else if HasPrefix(url, "file://") then
      var position := FindChar(url, '?');
      if position != -1 then Some(url[..position]) else Some(url)
    else Some(url)
  }

  /** Cleaning is idempotent: a cleaned URL is already clean. */
  lemma CleanURLIsClean(url: string)
    requires GetCleanURL(url).Some?
    ensures GetCleanURL(GetCleanURL(url).value) == GetCleanURL(url)
  {
    var u := GetCleanURL(url).value;
    if HasPrefix(url, "file://") {
      assert '?' !in "file://";
      assert url[..7] == "file://";
      assert u[..7] == url[..7];
      assert !HasPrefix(u, "app://") by { assert u[..6] == url[..6]; }
      assert FindChar(u, '?') == -1;
    }
  }
}
