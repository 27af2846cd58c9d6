/**
 * RendererDemuxerCastanets: the renderer-side end of the demuxer channel. It
 * hands out demuxer client ids, keeps the media source delegates by id, and
 * routes the two demuxer messages from the browser to the delegate they name
 * by posting them to the media thread.
 */
module RendererDemuxer {
  import opened Optional
  import opened DemuxerParams
  import DelegateSpec
  import opened MediaSourceDelegate

  /** A message from the browser, as far as routing looks at it. */
  datatype Message =
    | ReadFromDemuxerMsg(demuxerClientId: int, kind: StreamType)
    | DemuxerSeekRequestMsg(demuxerClientId: int, timeToSeek: Time)
    | OtherMsg(messageType: int)

  /** The routing case split of OnMessageReceived: only the two demuxer messages are claimed. */
  function IsDemuxerMessage(message: Message): (claimed: bool)
    ensures claimed <==> !message.OtherMsg?
  {
    match message
    case ReadFromDemuxerMsg(_, _) => true
    case DemuxerSeekRequestMsg(_, _) => true
    case OtherMsg(_) => false
  }

  class RendererDemuxerCastanets {
    var nextDemuxerClientId: int          // the sequence number's next value
    var delegates: map<int, Delegate>
    /** Messages posted to the media thread for DispatchMessage, oldest first. */
    var postedMessages: seq<Message>

    predicate Valid()
      reads this, delegates.Values
    {
      && 0 <= nextDemuxerClientId
      && forall id :: id in delegates ==> delegates[id].Valid()
    }

    constructor()
      ensures Valid() && nextDemuxerClientId == 0 && delegates == map[] && postedMessages == []
    {
      nextDemuxerClientId := 0;
      delegates := map[];
      postedMessages := [];
    }

    /** GetNextDemuxerClientID: the sequence number's next value plus one, so never 0, the value that means "no id". */
    method GetNextDemuxerClientID() returns (id: int)
      requires Valid()
      modifies this
      ensures Valid()
      ensures id == old(nextDemuxerClientId) + 1 && nextDemuxerClientId == id && id > 0
      ensures delegates == old(delegates) && postedMessages == old(postedMessages)
    {
      var sequence := nextDemuxerClientId;
      nextDemuxerClientId := nextDemuxerClientId + 1;
      id := sequence + 1;
    }

    /** The delegate registered under `id`, if any. */
    function Lookup(id: int): (r: Option<Delegate>)
      reads this
      ensures r.Some? <==> id in delegates
      ensures r.Some? ==> r.value == delegates[id]
    {
      if id in delegates then Some(delegates[id]) else None
    }

    method AddDelegate(id: int, delegate: Delegate)
      requires Valid() && delegate.Valid()
      modifies this
      ensures Valid()
      ensures Lookup(id) == Some(delegate)
      ensures forall other :: other != id ==> Lookup(other) == old(Lookup(other))
      ensures nextDemuxerClientId == old(nextDemuxerClientId) && postedMessages == old(postedMessages)
    {
      delegates := delegates[id := delegate];
    }

    /** RemoveDelegate: an id that is not registered is left alone. */
    method RemoveDelegate(id: int)
      requires Valid()
      modifies this
      ensures Valid()
      ensures Lookup(id) == None
      ensures forall other :: other != id ==> Lookup(other) == old(Lookup(other))
      ensures nextDemuxerClientId == old(nextDemuxerClientId) && postedMessages == old(postedMessages)
    {
      delegates := delegates - {id};
    }

    /** OnMessageReceived (IO thread): a demuxer message is posted to the media thread and claimed; any other is not. */
    method OnMessageReceived(message: Message) returns (handled: bool)
      modifies this
      ensures handled <==> IsDemuxerMessage(message)
      ensures postedMessages == old(postedMessages) + (if handled then [message] else [])
      ensures delegates == old(delegates) && nextDemuxerClientId == old(nextDemuxerClientId)
    {
      match message {
        case ReadFromDemuxerMsg(_, _) =>
          postedMessages := postedMessages + [message];
          return true;
        case DemuxerSeekRequestMsg(_, _) =>
          postedMessages := postedMessages + [message];
          return true;
        case OtherMsg(_) =>
      }
      return false;
    }

    /** The delegate a message is for, when it is a demuxer message for a registered delegate. */
    function Target(message: Message): Option<Delegate>
      reads this
    {
      if message.OtherMsg? then None else Lookup(message.demuxerClientId)
    }

    /** DispatchMessage (media thread): hands a posted demuxer message to its handler. */
    method DispatchMessage(message: Message)
      requires Valid()
      modifies if Target(message).Some? then {Target(message).value} else {}
      ensures Valid()
      ensures Target(message).Some? && message.ReadFromDemuxerMsg? ==>
        var d := Target(message).value;
        var step := DelegateSpec.OnReadFromDemuxer(old(d.Snapshot()), message.kind);
        d.Snapshot() == step.state && d.effects == old(d.effects) + step.effects
      ensures Target(message).Some? && message.DemuxerSeekRequestMsg? ==>
        var d := Target(message).value;
        var step := DelegateSpec.StartSeek(old(d.Snapshot()), message.timeToSeek, false);
        d.Snapshot() == step.state && d.effects == old(d.effects) + step.effects
    {
      match message {
        case ReadFromDemuxerMsg(id, kind) =>
          OnReadFromDemuxer(id, kind);
        case DemuxerSeekRequestMsg(id, time) =>
          OnDemuxerSeekRequest(id, time);
        case OtherMsg(_) =>
      }
    }

    /** OnReadFromDemuxer: the read request reaches the delegate only if it is registered. */
    method OnReadFromDemuxer(id: int, kind: StreamType)
      requires Valid()
      modifies if id in delegates then {delegates[id]} else {}
      ensures Valid()
      ensures id in delegates ==>
        var step := DelegateSpec.OnReadFromDemuxer(old(delegates[id].Snapshot()), kind);
        delegates[id].Snapshot() == step.state && delegates[id].effects == old(delegates[id].effects) + step.effects
    {
      var delegate := Lookup(id);
      if delegate.Some? {
        delegate.value.OnReadFromDemuxer(kind);
      }
    }

    /** OnDemuxerSeekRequest: a browser seek request is an ordinary (not a re-) seek of the registered delegate. */
    method OnDemuxerSeekRequest(id: int, timeToSeek: Time)
      requires Valid()
      modifies if id in delegates then {delegates[id]} else {}
      ensures Valid()
      ensures id in delegates ==>
        var step := DelegateSpec.StartSeek(old(delegates[id].Snapshot()), timeToSeek, false);
        delegates[id].Snapshot() == step.state && delegates[id].effects == old(delegates[id].effects) + step.effects
    {
      var delegate := Lookup(id);
      if delegate.Some? {
        delegate.value.StartSeek(timeToSeek, false);
      }
    }
  }

  /** Two client ids in a row are distinct, and neither is 0. */
  method TwoClientIds(demuxer: RendererDemuxerCastanets) returns (id1: int, id2: int)
    requires demuxer.Valid()
    modifies demuxer
    ensures id1 != 0 && id2 != 0 && id1 != id2
  {
    id1 := demuxer.GetNextDemuxerClientID();
    id2 := demuxer.GetNextDemuxerClientID();
  }
}
