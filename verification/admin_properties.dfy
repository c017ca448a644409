/** Properties of the operator console that relate several transitions or
    several calls of one transition. */
module AdminProperties {
  import opened Protocol
  import opened Text
  import opened AdminConsole

  /** No two neighbouring messages are equal (same sender, same content). */
  ghost predicate NoStutter(ms: seq<Message>) {
    forall i :: 0 <= i < |ms| - 1 ==> ms[i] != ms[i + 1]
  }

  /** Messages delivered one after another to the open chat, oldest first. */
  function DeliverAll(prev: seq<Message>, incoming: seq<Message>): seq<Message>
    decreases |incoming|
  {
    if incoming == [] then prev else DeliverAll(AppendDedup(prev, incoming[0]), incoming[1..])
  }

  /** A redelivered message is dropped: receiving the same message twice in
      a row leaves the list as one receipt left it. */
  lemma RedeliveryIgnored(prev: seq<Message>, m: Message)
    ensures AppendDedup(AppendDedup(prev, m), m) == AppendDedup(prev, m)
  {
  }

  /** One receipt never creates two equal neighbours. */
  lemma AppendDedupKeepsNoStutter(prev: seq<Message>, m: Message)
    requires NoStutter(prev)
    ensures NoStutter(AppendDedup(prev, m))
  {
  }

  /** Starting from a list without equal neighbours, any stream of receipts
      for the open chat keeps it that way: a message is never shown twice
      in a row. */
  lemma {:induction false} DeliverAllNoStutter(prev: seq<Message>, incoming: seq<Message>)
    requires NoStutter(prev)
    ensures NoStutter(DeliverAll(prev, incoming))
    decreases |incoming|
  {
    if incoming != [] {
      AppendDedupKeepsNoStutter(prev, incoming[0]);
      DeliverAllNoStutter(AppendDedup(prev, incoming[0]), incoming[1..]);
    }
  }

  /** Receipts only append: the earlier list is kept as a prefix, every
      received message is present afterwards, and the list grows by at
      most the number of receipts. */
  lemma {:induction false} DeliverAllExtends(prev: seq<Message>, incoming: seq<Message>)
    ensures |prev| <= |DeliverAll(prev, incoming)| <= |prev| + |incoming|
    ensures DeliverAll(prev, incoming)[..|prev|] == prev
    ensures forall k :: 0 <= k < |incoming| ==> incoming[k] in DeliverAll(prev, incoming)
    decreases |incoming|
  {
    if incoming != [] {
      var next := AppendDedup(prev, incoming[0]);
      var rest := incoming[1..];
      DeliverAllExtends(next, rest);
      var r := DeliverAll(next, rest);
      assert r == DeliverAll(prev, incoming);
      assert r[..|prev|] == r[..|next|][..|prev|];
      assert incoming[0] == next[|next| - 1] == r[|next| - 1];
      forall k | 0 <= k < |incoming|
        ensures incoming[k] in r
      {
        if k > 0 {
          assert incoming[k] == rest[k - 1];
        }
      }
    }
  }

  /** Patching a preview keeps both the list's length and its ids in order. */
  lemma PatchKeepsIds(chats: seq<Chat>, chatId: string, content: string, now: string)
    ensures Ids(PatchPreview(chats, chatId, content, now)) == Ids(chats)
  {
  }

  /** Patching the same preview twice is the same as patching it once. */
  lemma PatchIdempotent(chats: seq<Chat>, chatId: string, content: string, now: string)
    ensures PatchPreview(PatchPreview(chats, chatId, content, now), chatId, content, now)
         == PatchPreview(chats, chatId, content, now)
  {
  }

  /** An event for a chat in neither list leaves both lists as they were. */
  lemma PatchAbsentIsIdentity(chats: seq<Chat>, chatId: string, content: string, now: string)
    requires chatId !in Ids(chats)
    ensures PatchPreview(chats, chatId, content, now) == chats
  {
    var r := PatchPreview(chats, chatId, content, now);
    forall i | 0 <= i < |chats|
      ensures r[i] == chats[i]
    {
      assert Ids(chats)[i] == chats[i].id;
    }
  }

  /** The filter keeps the relative order of the entries it keeps: it acts
      on each part of a list separately. */
  lemma {:induction false} RemoveIdDistributes(a: seq<Chat>, b: seq<Chat>, id: string)
    ensures RemoveId(a + b, id) == RemoveId(a, id) + RemoveId(b, id)
    decreases |a|
  {
    if a == [] {
      assert a + b == b;
    } else {
      var tail := a[1..];
      var ab := a + b;
      var kept := if a[0].id == id then [] else [a[0]];
      assert ab[0] == a[0] && ab[1..] == tail + b;
      assert RemoveId(ab, id) == kept + RemoveId(tail + b, id);
      assert RemoveId(a, id) == kept + RemoveId(tail, id);
      RemoveIdDistributes(tail, b, id);
      assert kept + (RemoveId(tail, id) + RemoveId(b, id)) == (kept + RemoveId(tail, id)) + RemoveId(b, id);
    }
  }

  /** Removing an id no entry carries changes nothing. */
  lemma {:induction false} RemoveAbsentIsIdentity(chats: seq<Chat>, id: string)
    requires CountId(chats, id) == 0
    ensures RemoveId(chats, id) == chats
    decreases |chats|
  {
    if chats != [] {
      RemoveAbsentIsIdentity(chats[1..], id);
      assert chats == [chats[0]] + chats[1..];
    }
  }

  /** Once the console has closed the open chat, replies to it are refused
      without any emit or state change. */
  lemma CloseThenSendRefused(s: Console, delivered: bool)
    requires CloseChat(s, delivered) != s
    ensures Send(CloseChat(s, delivered)).1.None?
    ensures Send(CloseChat(s, delivered)).0 == CloseChat(s, delivered)
  {
  }

  /** Closing is idempotent: after a close whose request was answered, a
      second close, whatever happens to its request, changes nothing. */
  lemma CloseIdempotent(s: Console, again: bool)
    ensures CloseChat(CloseChat(s, true), again) == CloseChat(s, true)
  {
  }

  /** A message for a chat the console has just closed still reaches it:
      the closed copy at the head of the closed list gets the new preview,
      and the open chat's message list still takes the message. */
  lemma CloseThenReceiveReachesClosedChat(s: Console, m: Message, now: string)
    requires CloseChat(s, true) != s
    ensures var id := s.openChat.value.id;
      var r := Receive(CloseChat(s, true), id, m, now);
      && r.closedChats[0].id == id && r.closedChats[0].status == Closed
      && r.closedChats[0].lastMessage == Some(m.content)
      && r.messages == AppendDedup(s.messages, m)
  {
  }

  /** A reply is emitted once: the send clears the draft, so sending again
      straight away is refused and changes nothing. */
  lemma SendThenSendRefused(s: Console)
    requires Send(s).1.Some?
    ensures Send(Send(s).0).1.None?
    ensures Send(Send(s).0).0 == Send(s).0
  {
  }
}
