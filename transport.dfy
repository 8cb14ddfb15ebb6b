/** The websocket client as the three nodes use it: created and connected by
    `websocket.create_connection`, then one `recv` or one `send`, then `close`.
    The network is not modelled; what the far end does is a `Peer` value. */
module Transport {
  import opened Values

  /** The externally visible steps of a session, in the order they happened. */
  datatype Event = Connected(url: string) | Received(message: string) | Sent(message: string) | Closed

  /** What the endpoint does during the one exchange: whether it accepts the
      connection, the message it sends (None: it drops the connection first),
      and whether it takes a message sent to it. */
  datatype Peer = Peer(reachable: bool, reply: Option<string>, acceptsSend: bool)

  datatype Phase = Unconnected | Open | Shut

  /** The log of a session in the given phase: nothing before connecting; a
      connection followed by at most one receive or send while open; that, then
      one `Closed`, once shut. */
  ghost predicate SessionLog(phase: Phase, log: seq<Event>) {
    match phase
    case Unconnected => log == []
    case Open => OpenLog(log)
    case Shut => |log| >= 2 && OpenLog(log[..|log| - 1]) && log[|log| - 1] == Closed
  }

  ghost predicate OpenLog(log: seq<Event>) {
    && 1 <= |log| <= 2
    && log[0].Connected?
    && (|log| == 2 ==> log[1].Received? || log[1].Sent?)
  }

  /** Every shut session connected first, closed last, and did at most one
      receive or send in between; it never received and sent both. */
  lemma ShutSessionIsSingleShot(log: seq<Event>)
    requires SessionLog(Shut, log)
    ensures 2 <= |log| <= 3
    ensures log[0].Connected? && log[|log| - 1] == Closed
    ensures forall i :: 0 < i < |log| ==> !log[i].Connected?
    ensures forall i :: 0 <= i < |log| - 1 ==> log[i] != Closed
    ensures |log| == 3 ==> log[1].Received? || log[1].Sent?
  {
  }

  class Session {
    const peer: Peer
    var phase: Phase
    var log: seq<Event>

    ghost predicate Valid()
      reads this
    {
      SessionLog(phase, log)
    }

    constructor (peer: Peer)
      ensures Valid() && this.peer == peer
      ensures phase == Unconnected && log == []
    {
      this.peer := peer;
      phase := Unconnected;
      log := [];
    }

    /** The connecting half of `websocket.create_connection(url)`; false stands
        for the exception it raises when the endpoint cannot be reached. */
    method Connect(url: string) returns (ok: bool)
      requires Valid() && phase == Unconnected
      modifies this
      ensures Valid()
      ensures ok == peer.reachable
      ensures ok ==> phase == Open && log == [Connected(url)]
      ensures !ok ==> phase == Unconnected && log == []
    {
      ok := peer.reachable;
      if ok {
        phase := Open;
        log := [Connected(url)];
      }
    }

    /** `ws.recv()`: blocks for the peer's one message; None stands for the
        exception raised when the peer drops the connection first. Allowed only
        as the single exchange of an open session. */
    method Recv() returns (message: Option<string>)
      requires Valid() && phase == Open && |log| == 1
      modifies this
      ensures Valid() && phase == Open
      ensures message == peer.reply
      ensures log == old(log) + (if message.Some? then [Received(message.value)] else [])
    {
      message := peer.reply;
      if message.Some? {
        log := log + [Received(message.value)];
      }
    }

    /** `ws.send(message)`; false stands for the exception raised when the peer
        has dropped the connection. Allowed only as the single exchange of an
        open session. */
    method Send(message: string) returns (ok: bool)
      requires Valid() && phase == Open && |log| == 1
      modifies this
      ensures Valid() && phase == Open
      ensures ok == peer.acceptsSend
      ensures log == old(log) + (if ok then [Sent(message)] else [])
    {
      ok := peer.acceptsSend;
      if ok {
        log := log + [Sent(message)];
      }
    }

    /** `ws.close()`: shuts an open session; closing again changes nothing. */
    method Close()
      requires Valid() && phase != Unconnected
      modifies this
      ensures Valid() && phase == Shut
      ensures log == if old(phase) == Open then old(log) + [Closed] else old(log)
    {
      if phase == Open {
        log := log + [Closed];
        phase := Shut;
        assert log[..|log| - 1] == old(log);
      }
    }
  }
}
