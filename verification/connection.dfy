/** The realtime channel's connection status as both components display
    it: "connecting" until the first connect event unless the shared socket
    is already connected when the component mounts, "online" after a
    connect, "offline" after a disconnect. */
module Connection {
  import opened Protocol

  datatype Status = Online | Connecting | Offline

  /** The two socket lifecycle events the components listen to. */
  datatype LinkEvent = Connect | Disconnect

  /** Status set on mount from the socket's `connected` flag. */
  function Initial(connected: bool): (s: Status)
    ensures s == Online <==> connected
    ensures s != Offline
  {
    if connected then Online else Connecting
  }

  /** Status after one lifecycle event; the previous status plays no part. */
  function OnEvent(s: Status, e: LinkEvent): (r: Status)
    ensures r == Online <==> e == Connect
    ensures r == Offline <==> e == Disconnect
    ensures r != Connecting
  {
    match e
    case Connect => Online
    case Disconnect => Offline
  }

  /** Status after a sequence of lifecycle events, oldest first. */
  function Replay(s: Status, events: seq<LinkEvent>): Status
    decreases |events|
  {
    if events == [] then s else Replay(OnEvent(s, events[0]), events[1..])
  }

  /** Only the most recent lifecycle event decides the status; once any
      event has arrived the status is never "connecting" again. */
  lemma {:induction false} ReplayFollowsLastEvent(s: Status, events: seq<LinkEvent>)
    ensures events == [] ==> Replay(s, events) == s
    ensures events != [] ==> Replay(s, events) == OnEvent(s, events[|events| - 1])
    ensures events != [] ==> Replay(s, events) != Connecting
    decreases |events|
  {
    if events != [] {
      var rest := events[1..];
      ReplayFollowsLastEvent(OnEvent(s, events[0]), rest);
      if rest != [] {
        assert rest[|rest| - 1] == events[|events| - 1];
      }
    }
  }

  /** Text shown next to the status dot. */
  function Label(s: Status): (r: string)
    ensures r == "Online" <==> s == Online
    ensures r == "Connecting" <==> s == Connecting
    ensures r == "Offline" <==> s == Offline
  {
    match s
    case Online => "Online"
    case Connecting => "Connecting"
    case Offline => "Offline"
  }

  /** Colour of the status dot. */
  function Color(s: Status): (r: string)
    ensures r == "#16a34a" <==> s == Online
    ensures r == "#f59e0b" <==> s == Connecting
    ensures r == "#ef4444" <==> s == Offline
  {
    ColorsDistinct();
    match s
    case Online => "#16a34a"
    case Connecting => "#f59e0b"
    case Offline => "#ef4444"
  }

  /** The three dot colours are pairwise different. */
  lemma ColorsDistinct()
    ensures "#16a34a" != "#f59e0b" && "#f59e0b" != "#ef4444" && "#ef4444" != "#16a34a"
  {
    assert "#16a34a"[1] != "#f59e0b"[1] && "#f59e0b"[1] != "#ef4444"[1] && "#ef4444"[1] != "#16a34a"[1];
  }

  /** Reads a displayed label back into a status. */
  function ParseLabel(text: string): Option<Status>
  {
    if text == "Online" then Some(Online)
    else if text == "Connecting" then Some(Connecting)
    else if text == "Offline" then Some(Offline)
    else None
  }

  /** The label identifies the status: no two statuses look alike. */
  lemma LabelRoundTrip(s: Status)
    ensures ParseLabel(Label(s)) == Some(s)
  {
  }

  /** The colour identifies the status as well. */
  lemma ColorInjective(s: Status, t: Status)
    ensures Color(s) == Color(t) <==> s == t
  {
  }
}
