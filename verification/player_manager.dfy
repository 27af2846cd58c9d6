/**
 * RendererMediaPlayerManager: the per-frame registry of media players. Ids
 * come from a counter that starts at 0 and only grows, so an id is never
 * handed out twice; a message from the browser for an id that is not
 * registered is dropped.
 */
module PlayerManager {
  import opened Optional
  import opened DemuxerParams
  import PlayerSpec
  import opened MediaPlayer

  class RendererMediaPlayerManager {
    var mediaPlayers: map<int, Player>
    var nextMediaPlayerId: int

    /** Every registered id was issued by the counter. */
    predicate Valid()
      reads this
    {
      0 <= nextMediaPlayerId && forall id :: id in mediaPlayers ==> 0 <= id < nextMediaPlayerId
    }

    constructor()
      ensures Valid() && mediaPlayers == map[] && nextMediaPlayerId == 0
    {
      mediaPlayers := map[];
      nextMediaPlayerId := 0;
    }

    /** RegisterMediaPlayer: the player gets the next id, one that no player holds or has held. */
    method RegisterMediaPlayer(player: Player) returns (id: int)
      requires Valid()
      modifies this
      ensures Valid()
      ensures id == old(nextMediaPlayerId) && nextMediaPlayerId == id + 1
      ensures id !in old(mediaPlayers) && mediaPlayers == old(mediaPlayers)[id := player]
      ensures GetMediaPlayer(id) == Some(player)
    {
      mediaPlayers := mediaPlayers[nextMediaPlayerId := player];
      id := nextMediaPlayerId;
      nextMediaPlayerId := nextMediaPlayerId + 1;
    }

    /** UnregisterMediaPlayer: removes `id` and nothing else; an unknown id changes nothing. */
    method UnregisterMediaPlayer(id: int)
      requires Valid()
      modifies this
      ensures Valid() && nextMediaPlayerId == old(nextMediaPlayerId)
      ensures GetMediaPlayer(id) == None
      ensures forall other :: other != id ==> GetMediaPlayer(other) == old(GetMediaPlayer(other))
    {
      mediaPlayers := mediaPlayers - {id};
    }

    /** GetMediaPlayer: the player registered under `id`, or none (a null pointer). */
    function GetMediaPlayer(id: int): (r: Option<Player>)
      reads this
      ensures r.Some? <==> id in mediaPlayers
      ensures r.Some? ==> r.value == mediaPlayers[id]
    {
      if id in mediaPlayers then Some(mediaPlayers[id]) else None
    }

    // -------------------------------------------------------------------------
    // Messages from the browser, forwarded to the player they name if it is registered

    method OnDurationChange(id: int, duration: Time)
      requires id in mediaPlayers ==> mediaPlayers[id].Valid()
      modifies if id in mediaPlayers then {mediaPlayers[id]} else {}
      ensures id in mediaPlayers ==>
        var p := mediaPlayers[id];
        && p.Valid() && p.Fields() == old(p.Fields()).(duration := duration)
        && p.effects == old(p.effects) + [PlayerSpec.ClientDurationChanged]
    {
      var player := GetMediaPlayer(id);
      if player.Some? {
        player.value.OnDurationChange(duration);
      }
    }

    method OnTimeUpdate(id: int, currentTime: Time)
      requires id in mediaPlayers ==> mediaPlayers[id].Valid()
      modifies if id in mediaPlayers then {mediaPlayers[id]} else {}
      ensures id in mediaPlayers ==>
        var p := mediaPlayers[id];
        && p.Valid() && p.Fields() == old(p.Fields()).(currentTime := currentTime)
        && p.effects == old(p.effects)
    {
      var player := GetMediaPlayer(id);
      if player.Some? {
        player.value.OnTimeUpdate(currentTime);
      }
    }

    method OnBufferUpdate(id: int, percentage: int)
      requires id in mediaPlayers ==> mediaPlayers[id].Valid()
      modifies if id in mediaPlayers then {mediaPlayers[id]} else {}
      ensures id in mediaPlayers ==>
        var p := mediaPlayers[id];
        && p.Valid() && p.Fields() == old(p.Fields()).(didLoadingProgress := true)
        && p.effects == old(p.effects)
    {
      var player := GetMediaPlayer(id);
      if player.Some? {
        player.value.OnBufferUpdate(percentage);
      }
    }

    method OnTimeChanged(id: int)
      requires id in mediaPlayers ==> mediaPlayers[id].Valid()
      modifies if id in mediaPlayers then {mediaPlayers[id]} else {}
      ensures id in mediaPlayers ==>
        var p := mediaPlayers[id];
        && p.Valid() && p.Fields() == old(p.Fields())
        && p.effects == old(p.effects) + [PlayerSpec.ClientTimeChanged]
    {
      var player := GetMediaPlayer(id);
      if player.Some? {
        player.value.OnTimeChanged();
      }
    }

    method OnPauseStateChange(id: int, state: bool)
      requires id in mediaPlayers ==> mediaPlayers[id].Valid()
      modifies if id in mediaPlayers then {mediaPlayers[id]} else {}
      ensures id in mediaPlayers ==>
        var p := mediaPlayers[id];
        && p.Valid() && p.Fields() == old(p.Fields()).(isPaused := state)
        && p.effects == old(p.effects) + (if old(p.isPaused) == state then [] else p.PauseChangeEffects(state))
    {
      var player := GetMediaPlayer(id);
      if player.Some? {
        player.value.OnPauseStateChange(state);
      }
    }

    method OnSeekComplete(id: int)
      requires id in mediaPlayers ==> mediaPlayers[id].Valid()
      modifies if id in mediaPlayers then {mediaPlayers[id], mediaPlayers[id].mediaSourceDelegate} else {}
      ensures id in mediaPlayers ==>
        var p := mediaPlayers[id];
        && p.Valid() && p.Fields() == old(p.Fields()).(seek := p.SeekFields())
        && p.SeekFields() == PlayerSpec.OnSeekComplete(old(p.SeekFields()), p.mediaSourceDelegate != null).state
        && p.effects == old(p.effects) + PlayerSpec.OnSeekComplete(old(p.SeekFields()), p.mediaSourceDelegate != null).effects
        && (p.mediaSourceDelegate != null ==>
              var d := PlayerSpec.DriveDelegate(old(p.mediaSourceDelegate.Snapshot()),
                                                PlayerSpec.OnSeekComplete(old(p.SeekFields()), true).effects);
              p.mediaSourceDelegate.Snapshot() == d.state
              && p.mediaSourceDelegate.effects == old(p.mediaSourceDelegate.effects) + d.effects)
    {
      var player := GetMediaPlayer(id);
      if player.Some? {
        player.value.OnSeekComplete();
      }
    }

    method OnRequestSeek(id: int, seekTime: Time)
      requires id in mediaPlayers ==> mediaPlayers[id].Valid()
      modifies if id in mediaPlayers then {mediaPlayers[id]} else {}
      ensures id in mediaPlayers ==>
        var p := mediaPlayers[id];
        && p.Valid() && p.Fields() == old(p.Fields())
        && p.effects == old(p.effects) + [PlayerSpec.ClientRequestSeek(seekTime)]
    {
      var player := GetMediaPlayer(id);
      if player.Some? {
        player.value.OnRequestSeek(seekTime);
      }
    }

    method OnPlayerSuspend(id: int, isPreempted: bool)
      requires id in mediaPlayers ==> mediaPlayers[id].Valid()
      modifies if id in mediaPlayers then {mediaPlayers[id]} else {}
      ensures id in mediaPlayers ==>
        var p := mediaPlayers[id];
        && p.Valid() && p.Fields() == old(p.Fields()).(isPaused := old(p.isPaused) || isPreempted)
        && p.effects == old(p.effects)
          + (if !old(p.isPaused) && isPreempted then p.PauseChangeEffects(true) else [])
          + (if p.hasPlayerDelegate then [PlayerSpec.DelegatePlayerGone] else [])
    {
      var player := GetMediaPlayer(id);
      if player.Some? {
        player.value.OnPlayerSuspend(isPreempted);
      }
    }

    method OnPlayerResumed(id: int, isPreempted: bool)
      requires id in mediaPlayers ==> mediaPlayers[id].Valid()
      modifies if id in mediaPlayers then {mediaPlayers[id]} else {}
      ensures id in mediaPlayers ==>
        var p := mediaPlayers[id];
        && p.Valid() && p.Fields() == old(p.Fields())
        && p.effects == old(p.effects)
          + (if !p.hasPlayerDelegate then [] else if p.isPaused then [PlayerSpec.DelegateDidPause] else [PlayerSpec.DelegateDidPlay])
    {
      var player := GetMediaPlayer(id);
      if player.Some? {
        player.value.OnPlayerResumed(isPreempted);
      }
    }
  }

  /**
   * Ids are not reused: after a player is registered and unregistered, the
   * next registration gets a different id, and looking up the old id finds
   * nothing.
   */
  method RegisterAfterUnregister(manager: RendererMediaPlayerManager, first: Player, second: Player)
    returns (id1: int, id2: int)
    requires manager.Valid()
    modifies manager
    ensures id1 != id2 && id2 == id1 + 1
    ensures manager.GetMediaPlayer(id1) == None && manager.GetMediaPlayer(id2) == Some(second)
  {
    id1 := manager.RegisterMediaPlayer(first);
    manager.UnregisterMediaPlayer(id1);
    id2 := manager.RegisterMediaPlayer(second);
  }
}
