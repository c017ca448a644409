# Support chat front-end: conversation state model

A Dafny model of the client-side conversation state in the customer-support
chat front-end. It covers two components.

- **Operator console** (`app/admin/page.tsx`, modules `AdminConsole` and
  `AdminProperties`). It holds two chat lists (active and closed), the chat
  currently open and its message list, three analytics counters, the draft
  reply and the connection status. Modelled transitions:
  - mount;
  - installing the fetched lists;
  - opening a chat and loading its history;
  - the `receive-message` handler: append with suppression of an immediate
    duplicate, plus a preview patch on both lists;
  - the guarded send;
  - the close that moves a chat from the active list to the closed list and
    adjusts the counters.
- **End-user widget** (`components/ChatWidget.tsx`, module `ChatWidget`). It
  holds the panel's open flag, the connection status, the received messages,
  the draft and the chat id learned from the last delivery. Modelled
  transitions: unconditional append on receipt, the trim-guarded send,
  toggle/close/external open, and typing or choosing a quick-reply chip.

Both components use the same connection status machine and the same
label/colour mapping. The widget's copy is at
`components/ChatWidget.tsx:22-26,64-74`; the console's is at
`app/admin/page.tsx:32-37,167-168`. Module `Connection` defines it once.
Module `Text` defines JavaScript's `trim`, which guards both sends. Module
`Protocol` holds the shared vocabulary: chat status, sender role, the
content-and-sender message shape both components keep, and the socket events
they emit.

Every state update is a pure function from the old state to the new one. An
operation that emits a socket event also returns that event as an
`Option<Emit>`, and `None` means nothing was emitted. Inputs the component
gets from outside are parameters:
- REST results: the fetched lists, the analytics, the message history, and
  whether the close request was answered;
- socket payloads;
- the socket's `connected` flag;
- the timestamp written into a preview.

Three facts about the code shape the model:
- **Widget: no duplicate suppression or filtering.** The widget's handler
  appends every delivery, whatever chat it names and whether or not it
  repeats the last message. It also overwrites the chat id
  (`ChatWidget.Receive`, `ChatWidget.RedeliveryShownTwice`).
- **Widget: no session lifecycle.** The widget has no start, restore, cookie
  or close flow, and it keeps no chat status. Its chat id is simply the one
  named by the last delivery.
- **Console: duplicates are compared by sender and content.** The console
  compares an incoming message with the last message only, on sender and
  content; message identifiers play no part.

## Model

| member | source | states |
|---|---|---|
| Text.Trim | components/ChatWidget.tsx:53 | the trimmed draft lies in the original right after its leading whitespace, only whitespace follows it, it has no whitespace at either end, and it is empty exactly when the draft is all whitespace (the send guard's test) |
| Text.TrimIdempotent | app/admin/page.tsx:138 | trimming an already trimmed draft changes nothing |
| Connection.Initial | components/ChatWidget.tsx:26 | on mount the status is online exactly when the shared socket is connected, and never offline |
| Connection.OnEvent | components/ChatWidget.tsx:22-23 | a connect event yields online and a disconnect yields offline, whatever the previous status |
| Connection.ReplayFollowsLastEvent | components/ChatWidget.tsx:21-26 | after any sequence of connect/disconnect events the status is decided by the last event alone and is never "connecting" again |
| Connection.Label | components/ChatWidget.tsx:64-68 | the label is "Online", "Connecting" or "Offline", each for exactly one status |
| Connection.Color | components/ChatWidget.tsx:70-74 | the dot colour is #16a34a, #f59e0b or #ef4444, each for exactly one status |
| Connection.LabelRoundTrip | app/admin/page.tsx:168 | the console's label can be read back into its status, so no two statuses share a label |
| Connection.ColorInjective | app/admin/page.tsx:167 | two statuses get the same dot colour only if they are the same status |
| AdminConsole.Init | app/admin/page.tsx:20-37 | on mount both lists, the message list and the draft are empty, no chat is open, the counters are zero, and the status is online exactly when the socket is connected |
| AdminConsole.MapChat | app/admin/page.tsx:52-58 | a list entry keeps the summary's id, status and timestamp; its preview is never empty, being the summary's last message when that is non-empty and "No messages yet" otherwise; its display name is the owning user's name when present |
| AdminConsole.Loaded | app/admin/page.tsx:73-75 | installing fetched results makes each list entry the mapped summary at the same position, so both lists keep the server's ids in order and every entry has a non-empty preview; the counters are taken as delivered, and nothing else changes |
| AdminConsole.OnLink | app/admin/page.tsx:32-33 | connect sets online, disconnect sets offline, and nothing else in the console changes |
| AdminConsole.OpenChat | app/admin/page.tsx:82-84 | selecting a chat makes it the open chat and emits a join for its id, leaving the message list to the history load |
| AdminConsole.MessagesLoaded | app/admin/page.tsx:86-90 | the fetched history replaces the message list and nothing else changes |
| AdminConsole.AppendDedup | app/admin/page.tsx:115-122 | the earlier messages stay in place as a prefix; the incoming message is last afterwards; the list stays the same length exactly when the incoming message equals the current last one in sender and content, and otherwise grows by one |
| AdminConsole.PatchPreview | app/admin/page.tsx:95-111 | the patch keeps the list's length, order, ids, statuses and names; entries with the event's chat id get its content as preview and the given timestamp; every other entry is unchanged |
| AdminConsole.Receive | app/admin/page.tsx:113-125 | the message list changes only when a chat is open and the event is for it, and then by the duplicate-suppressing append; both lists get the preview patch regardless; open chat, draft, status and counters are untouched |
| AdminConsole.Send | app/admin/page.tsx:137-147 | a send emits nothing and changes nothing exactly when the draft is blank, no chat is open, or the open chat is CLOSED; otherwise it emits the untrimmed draft as an ADMIN message for the open chat's id, clears the draft, and leaves the message list alone |
| AdminConsole.RemoveId | app/admin/page.tsx:158 | the filtered active list is shorter than the original by exactly the number of entries carrying the closed chat's id |
| AdminConsole.RemoveIdMembers | app/admin/page.tsx:158 | an entry is in the filtered list if and only if it was in the original list and its id differs from the closed chat's |
| AdminConsole.DecrementClamped | app/admin/page.tsx:162 | the active counter drops by one but never below zero |
| AdminConsole.CloseChat | app/admin/page.tsx:149-165 | no open chat, an already CLOSED one, or an unanswered request leaves the console unchanged; otherwise the open chat becomes CLOSED, the active list becomes the order-preserving filter that drops every entry with its id, the chat's closed copy heads the closed list, the active counter drops by one (clamped at zero), the closed counter rises by one, the total is kept, and messages, draft and status are untouched |
| AdminProperties.RedeliveryIgnored | app/admin/page.tsx:116-119 | receiving the same message twice in a row leaves the list as a single receipt did |
| AdminProperties.AppendDedupKeepsNoStutter | app/admin/page.tsx:115-122 | a receipt never puts two equal messages next to each other in a list that had none |
| AdminProperties.DeliverAllNoStutter | app/admin/page.tsx:113-122 | any stream of receipts for the open chat keeps the message list free of equal neighbours |
| AdminProperties.DeliverAllExtends | app/admin/page.tsx:121 | a stream of receipts only appends: the earlier list stays a prefix, every received message is present, and the growth is at most the number of receipts |
| AdminProperties.PatchKeepsIds | app/admin/page.tsx:96-102 | after a preview patch the list's ids are the same, in the same order |
| AdminProperties.PatchIdempotent | app/admin/page.tsx:104-110 | applying the same preview patch twice equals applying it once |
| AdminProperties.PatchAbsentIsIdentity | app/admin/page.tsx:95-111 | an event for a chat id in neither list leaves the list unchanged |
| AdminProperties.RemoveIdDistributes | app/admin/page.tsx:158 | the close filter acts on each part of a list separately, so the kept entries keep their relative order |
| AdminProperties.RemoveAbsentIsIdentity | app/admin/page.tsx:158 | filtering out an id that no entry carries leaves the active list unchanged |
| AdminProperties.CloseThenSendRefused | app/admin/page.tsx:138-157 | once a close has taken effect, a reply to that chat is refused with no emit and no state change |
| AdminProperties.CloseIdempotent | app/admin/page.tsx:150 | after an answered close, closing again changes nothing |
| AdminProperties.CloseThenReceiveReachesClosedChat | app/admin/page.tsx:113-125 | after a close, a message for that chat still updates the preview of its closed copy at the head of the closed list, and is still added to the open chat's message list |
| AdminProperties.SendThenSendRefused | app/admin/page.tsx:138-146 | a successful send clears the draft, so an immediate second send emits nothing and changes nothing: each reply is emitted once |
| ChatWidget.Init | components/ChatWidget.tsx:12-26 | on mount the panel is closed, nothing is received, the draft is empty, no chat id is known, and the status is online exactly when the socket is connected |
| ChatWidget.OnLink | components/ChatWidget.tsx:22-23 | connect sets online, disconnect sets offline, and nothing else in the widget changes |
| ChatWidget.Receive | components/ChatWidget.tsx:28-31 | every delivery is appended after the earlier messages, with no duplicate check and no chat-id filter; the chat id becomes the delivery's; nothing else changes |
| ChatWidget.ReceiveAllAppendsEverything | components/ChatWidget.tsx:28-31 | after any stream of deliveries the widget shows the earlier messages followed by every delivered message in arrival order, and holds the chat id of the last delivery |
| ChatWidget.RedeliveryShownTwice | components/ChatWidget.tsx:30 | a message delivered twice in a row is shown twice |
| ChatWidget.Send | components/ChatWidget.tsx:52-62 | a send emits nothing and changes nothing exactly when the draft is blank; otherwise it emits the untrimmed draft as a USER message for the current chat id, which may be missing, clears the draft, and leaves the messages alone |
| ChatWidget.Toggle | components/ChatWidget.tsx:87 | the toggle button flips the panel's open flag and changes nothing else |
| ChatWidget.ToggleTwice | components/ChatWidget.tsx:85-87 | toggling twice restores the widget |
| ChatWidget.ExternalOpen | components/ChatWidget.tsx:41 | the page's chat:open event leaves the panel open and changes nothing else |
| ChatWidget.ExternalOpenIdempotent | components/ChatWidget.tsx:40-44 | repeated chat:open events act like one, and one does nothing to an open panel |
| ChatWidget.Dismiss | components/ChatWidget.tsx:105 | the panel's close button leaves the panel closed and changes nothing else |
| ChatWidget.Type | components/ChatWidget.tsx:137-147 | typing, or choosing a quick-reply chip, sets the draft to exactly the typed text or the chip's label and changes nothing else |
| ChatWidget.QuickReplyThenSend | components/ChatWidget.tsx:76-80 | every chip label passes the send guard: choosing a chip and then sending emits exactly that label as a USER message for the current chat id and clears the draft |

## Left out

- Rendering, `<style jsx>` CSS, empty-state markup and scroll-into-view effects: presentation only.
- The console's tab switcher (`setTab`, app/admin/page.tsx:27,239-245): it only chooses which of the two lists is rendered.
- The console's search box (app/admin/page.tsx:250-254): it has no handler.
- The console's draft `onChange` (app/admin/page.tsx:339): a plain replacement of the draft, the same as `ChatWidget.Type`.
- Disabling inputs and buttons while offline or for a CLOSED chat (app/admin/page.tsx:348,353; components/ChatWidget.tsx:155,157): this gating is done in the view. `sendMessage` itself does not look at the connection status, and neither does the model.
- ChatWidget.Send, ChatWidget.Type, ChatWidget.Dismiss: the widget's input, send button, chips and close button exist only while the panel is open (components/ChatWidget.tsx:92-162). These functions accept a closed panel too, because that restriction lives in the rendering.
- Analytics counters: these are JavaScript numbers (doubles) taken as delivered from the analytics endpoint (app/admin/page.tsx:75). The model uses integers, which is exact for whole counts below 2^53. It does not model fractional values, NaN from a missing field, or loss of precision above 2^53.
- HTTP requests (chat lists, analytics, history, close endpoint): their results are parameters. For the close request only whether it was answered matters, because the code does not look at the HTTP status.
- `lib/socket.ts`: the shared socket.io client, its reconnection policy and its logging. This is third-party I/O.
- Listener registration and the "remove before register" pattern (app/admin/page.tsx:127-133; components/ChatWidget.tsx:33-37): event-emitter mechanics of the socket library.
- Timestamps: `new Date().toISOString()` becomes one opaque `now` per event. The source reads the clock separately for each patched entry, so entries patched by one event may differ by milliseconds.
- Interleaving of REST answers with socket events. Two effects of this are not modelled:
  - messages received between opening a chat and its history arriving are overwritten by the history;
  - a close's state update happens after its await, against whatever state then holds.
  The code does not coordinate these, and each transition is modelled as atomic.
- Message fields other than content and sender: both components type messages with only these two fields. The model therefore compares and stores only these two. At run time the appended payload object carries more fields, which neither component reads.
- `app/admin/login/page.tsx` (authentication and redirects) and `app/page.tsx` (static landing page and a DOM event dispatch): these are outside this model.
