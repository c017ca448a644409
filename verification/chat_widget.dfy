/** The end-user's floating chat widget: whether the panel is open, the
    connection status, the messages received so far, the draft input and
    the chat id learned from the last received message. */
module ChatWidget {
  import opened Protocol
  import opened Text
  import Connection

  datatype Widget = Widget(
    open: bool,
    status: Connection.Status,
    messages: seq<Message>,
    input: string,
    chatId: Option<string>)

  /** One `receive-message` payload: the chat it belongs to and the message. */
  datatype Delivery = Delivery(chatId: string, message: Message)

  /** Labels of the quick-reply chips, in display order. */
  const QuickReplies: seq<string> := [
    "I need help with an order",
    "Can I talk to a human?",
    "What are your support hours?"
  ]

  /** State on mount, once the connection status has been read from the
      shared socket: panel closed, nothing received, no chat id yet. */
  function Init(connected: bool): (w: Widget)
    ensures !w.open && w.messages == [] && w.input == [] && w.chatId.None?
    ensures w.status == Connection.Online <==> connected
    ensures w.status != Connection.Offline
  {
    Widget(false, Connection.Initial(connected), [], "", None)
  }

  /** A `connect` or `disconnect` event; nothing but the status changes. */
  function OnLink(w: Widget, e: Connection.LinkEvent): (r: Widget)
    ensures r.status == Connection.Online <==> e == Connection.Connect
    ensures r.status == Connection.Offline <==> e == Connection.Disconnect
    ensures r.(status := w.status) == w
  {
    w.(status := Connection.OnEvent(w.status, e))
  }

  /** The `receive-message` handler. Every delivery is appended, whichever
      chat it names and whether or not it repeats the last message, and
      the chat id is overwritten with the delivery's. */
  function Receive(w: Widget, d: Delivery): (r: Widget)
    ensures |r.messages| == |w.messages| + 1
    ensures r.messages[..|w.messages|] == w.messages && r.messages[|w.messages|] == d.message
    ensures r.chatId == Some(d.chatId)
    ensures r.(messages := w.messages, chatId := w.chatId) == w
  {
    w.(chatId := Some(d.chatId), messages := w.messages + [d.message])
  }

  /** Deliveries handled one after another, oldest first. */
  function ReceiveAll(w: Widget, ds: seq<Delivery>): Widget
    decreases |ds|
  {
    if ds == [] then w else ReceiveAll(Receive(w, ds[0]), ds[1..])
  }

  /** The messages carried by a stream of deliveries. */
  function Carried(ds: seq<Delivery>): (ms: seq<Message>)
    ensures |ms| == |ds|
    ensures forall i :: 0 <= i < |ds| ==> ms[i] == ds[i].message
  {
    if ds == [] then [] else [ds[0].message] + Carried(ds[1..])
  }

  /** After a stream of deliveries the widget shows exactly the earlier
      messages followed by every delivered message in arrival order, and
      its chat id is the one named by the last delivery. */
  lemma {:induction false} ReceiveAllAppendsEverything(w: Widget, ds: seq<Delivery>)
    ensures ReceiveAll(w, ds).messages == w.messages + Carried(ds)
    ensures ds != [] ==> ReceiveAll(w, ds).chatId == Some(ds[|ds| - 1].chatId)
    ensures ds == [] ==> ReceiveAll(w, ds).chatId == w.chatId
    ensures ReceiveAll(w, ds).(messages := w.messages, chatId := w.chatId) == w
    decreases |ds|
  {
    if ds != [] {
      var next := Receive(w, ds[0]);
      var rest := ds[1..];
      assert ReceiveAll(w, ds) == ReceiveAll(next, rest);
      ReceiveAllAppendsEverything(next, rest);
      assert Carried(ds) == [ds[0].message] + Carried(rest);
      assert next.messages + Carried(rest) == w.messages + Carried(ds);
      if rest != [] {
        assert rest[|rest| - 1] == ds[|ds| - 1];
      }
    }
  }

  /** Unlike the console, the widget does not suppress a redelivered
      message: it is shown twice. */
  lemma RedeliveryShownTwice(w: Widget, d: Delivery)
    ensures Receive(Receive(w, d), d).messages == w.messages + [d.message, d.message]
  {
  }

  /** `sendMessage`: refused without effect when the trimmed draft is
      empty; otherwise emits the untrimmed draft as a USER message for the
      current chat id (none if nothing has been received yet) and clears
      the draft. The message list waits for the server's echo. */
  function Send(w: Widget): (r: (Widget, Option<Emit>))
    ensures r.1.None? <==> IsBlank(w.input)
    ensures r.1.None? ==> r.0 == w
    ensures r.1.Some? ==> r.1.value == SendMessage(w.chatId, w.input, User)
    ensures r.1.Some? ==> r.0.input == [] && r.0.(input := w.input) == w
  {
    if Trim(w.input) == [] then (w, None)
    else (w.(input := ""), Some(SendMessage(w.chatId, w.input, User)))
  }

  /** The floating button flips the panel. */
  function Toggle(w: Widget): (r: Widget)
    ensures r.open != w.open
    ensures r.(open := w.open) == w
  {
    w.(open := !w.open)
  }

  /** Toggling twice restores the widget. */
  lemma ToggleTwice(w: Widget)
    ensures Toggle(Toggle(w)) == w
  {
  }

  /** The page's `chat:open` event opens the panel. */
  function ExternalOpen(w: Widget): (r: Widget)
    ensures r.open
    ensures r.(open := w.open) == w
  {
    w.(open := true)
  }

  /** Opening from outside twice is the same as once, and does nothing to
      a widget already open. */
  lemma ExternalOpenIdempotent(w: Widget)
    ensures ExternalOpen(ExternalOpen(w)) == ExternalOpen(w)
    ensures w.open ==> ExternalOpen(w) == w
  {
  }

  /** The panel's close button. */
  function Dismiss(w: Widget): (r: Widget)
    ensures !r.open
    ensures r.(open := w.open) == w
  {
    w.(open := false)
  }

  /** Replaces the draft: typing in the input, or choosing a quick-reply
      chip, which puts exactly its label there whatever was typed. */
  function Type(w: Widget, text: string): (r: Widget)
    ensures r.input == text
    ensures r.(input := w.input) == w
  {
    w.(input := text)
  }

  /** Every chip label passes the send guard: choosing a chip and sending
      emits exactly that label for the current chat id and clears the
      draft. */
  lemma QuickReplyThenSend(w: Widget, k: nat)
    requires k < |QuickReplies|
    ensures Send(Type(w, QuickReplies[k])).1 == Some(SendMessage(w.chatId, QuickReplies[k], User))
    ensures Send(Type(w, QuickReplies[k])).0 == w.(input := "")
  {
    var chip := QuickReplies[k];
    assert !IsWhitespace(chip[0]);
    assert !IsBlank(chip);
  }
}
