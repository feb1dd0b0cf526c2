# Chat relay and client store, modelled in Dafny

This project models the logic of a small socket.io chat demo:

- **The relay** (`chatapp/server.js`). Each live connection may carry the user it announced with `identify`. The routing loop is meant to send a `message` to every connection whose bound user's id equals the message's `to`. `Relay.Route` models that intended rule, and "## Findings" explains why the loop as written reaches nobody. A `typing` payload goes to every connection except the one that sent it. `Server.Relay` is a class. It holds the ordered connection collection (`conns`) and a map from connection to optional identity (`users`). `Route` and `Typing` return the emits they perform.
- **The client conversation store** (`chatapp/src/ChatApp_React_Tailwind.jsx`). The client keeps a map from peer id to that conversation's messages, typing flags, the contact list, the active contact and the text boxes. `ChatApp.ChatClient` is a class whose methods are the component's handlers. It records what it emits on its socket in `sent`. The handlers call pure updaters (`Appended`, `FileIncoming`, `TypingAfter`, `VisibleContacts`), and the lemmas are about those updaters.
- **The login step machine** (`chatapp/src/Auth.jsx`). The panels go choose → input → code, and the fixed code `1234` authenticates. `Auth.Login` is a class with the component's four state fields.

Supporting modules:

- `Text` models JavaScript's `trim`, `toLowerCase` and `includes`.
- `Seqs` holds an order-preserving `Filter` with its lemmas.
- `Wire` holds the payload types.
- `Scenarios` runs client and relay together: alice → bob, and a message to an identity nobody holds.

The JavaScript falsy tests are modelled exactly:

- `s.user && …` treats a never-identified connection and an `identify` with a falsy payload alike (`None`).
- `!activeContact` and `!serverUrl` are true for a missing value and for `""` (`ChatApp.Truthy`).
- `file?.name || null` gives `null` for a file with an empty name (`ChatApp.FileNameOf`).

The one exception is the fallback `copy[peer] || []` in the conversation updaters. The component's store is a plain object, so a lookup of an id like `constructor` finds an inherited `Object.prototype` member, and the updater throws. The model's store is a map with no inherited keys, and it files the message (`ChatApp.Appended`). "## Findings" records the difference, and `ChatApp.AppendedAsWritten` models the plain-object behaviour.

The canned reply text is kept exactly as chatapp/src/ChatApp_React_Tailwind.jsx spells it (`ChatApp.ReplyText`).

How the model reads three points of the code that a reader might not expect:

- A binding can be overwritten by a later `identify`. It is not set once.
- The server relays the `typing` payload unchanged and does not add a `from` field.
- The relay's routing loop is modelled as the filter it evidently intends. See "## Findings".

## Model

| member | source | states |
|---|---|---|
| Server.Relay.constructor | chatapp/server.js:7 | the relay starts with no connections and no bindings |
| Server.Relay.Connect | chatapp/server.js:9 | a new connection joins the end of the collection, unbound |
| Server.Relay.Disconnect | chatapp/server.js:13 | the connection leaves the collection and loses its binding; removing an absent one changes nothing |
| Server.Relay.Identify | chatapp/server.js:11 | the connection's binding becomes the given value, whatever it was; nothing is validated or rejected, and no other binding changes |
| Server.Relay.Route | chatapp/server.js:12-18 | emits exactly one `Emit(c, msg)` per live connection `c` bound to `msg.to`, in collection order; the payload is `msg` itself; the sender gets it only if bound to `msg.to`; no bindings change |
| Server.Relay.Typing | chatapp/server.js:19 | the payload, unchanged, goes to every live connection except the sender, and to nothing else; no bindings change |
| Server.Matching | chatapp/server.js:13-16 | the recipients of a message for `to` are live connections only, and none is reached twice when the collection has no duplicates |
| Server.MatchingMembers | chatapp/server.js:13-16 | a connection is a recipient if and only if it is live and bound to the addressee, so duplicate identities all receive it |
| Server.MatchingInOrder | chatapp/server.js:13 | recipients keep the order of the connection collection |
| Server.UnboundNeverReceives | chatapp/server.js:14 | a connection with no binding is never a recipient |
| Server.SilentDrop | chatapp/server.js:12-18 | when nobody is bound to the addressee, the recipient list is empty |
| Server.SharedIdentityBothReceive | chatapp/server.js:13-16 | two connections bound to the same id both receive the message |
| Server.IdentifyOverwrites | chatapp/server.js:11 | after `identify`, the connection receives exactly the messages for its new id, and a falsy payload unbinds it |
| Server.IdentifyLeavesOthers | chatapp/server.js:11 | `identify` on one connection does not change whether any other connection receives |
| Server.DisconnectedNeverReceives | chatapp/server.js:13-14 | once removed from the collection, a connection is never a recipient |
| Server.RoutedAsWritten | chatapp/server.js:13-16 | the loop as written, walking `Object.entries` of the socket collection, reaches every bound connection when the collection is a plain object and nobody when it is a `Map` |
| Server.AsWrittenMissesBoundRecipient | chatapp/server.js:13 | a connection bound to the addressee is reached by the loop over a plain object, and by nobody over a `Map` |
| ChatApp.Appended | chatapp/src/ChatApp_React_Tailwind.jsx:83-87 | the target conversation gains exactly the new message at its end; every other conversation is unchanged |
| ChatApp.AppendedAsWritten | chatapp/src/ChatApp_React_Tailwind.jsx:69 | built from the plain-object lookup, the `\|\| []` fallback and the spread: the update is lost exactly when the peer id is not an own key but names an `Object.prototype` member; otherwise it is the map update |
| ChatApp.AsWrittenLosesPrototypePeer | chatapp/src/ChatApp_React_Tailwind.jsx:67-69 | a message from a user whose id is `constructor` is lost by the plain-object updater but filed by the map-based one |
| ChatApp.AppendOnly | chatapp/src/ChatApp_React_Tailwind.jsx:84-85 | every earlier log is a prefix of the new one, and exactly one conversation grows, by one |
| ChatApp.PartnerOf | chatapp/src/ChatApp_React_Tailwind.jsx:68 | the conversation of a message is one of its two parties, and it is never me unless I wrote to myself |
| ChatApp.FileIncoming | chatapp/src/ChatApp_React_Tailwind.jsx:65-71 | my own message is filed under its `to`, anyone else's under its `from`; all other conversations are unchanged |
| ChatApp.FileAllIsThread | chatapp/src/ChatApp_React_Tailwind.jsx:65-71 | after a stream of arrivals, each conversation is its old log followed by exactly the arrivals that concern that peer, in arrival order |
| ChatApp.FileNameOf | chatapp/src/ChatApp_React_Tailwind.jsx:82 | `fileName` is the file's name when a file with a non-empty name is given, otherwise null |
| ChatApp.Outgoing | chatapp/src/ChatApp_React_Tailwind.jsx:82 | the message comes from me with the given addressee and text, a copy arriving back belongs to the addressee's conversation, and it names a file exactly when a file with a non-empty name is given |
| ChatApp.EchoFiledWithOriginal | chatapp/src/ChatApp_React_Tailwind.jsx:68 | a server-forwarded copy of my own message lands in the same conversation as its local echo |
| ChatApp.Reply | chatapp/src/ChatApp_React_Tailwind.jsx:93 | the reply comes from `to` to me, with the canned text and no file, and belongs to the conversation with `to` |
| ChatApp.AttachText | chatapp/src/ChatApp_React_Tailwind.jsx:114 | the attachment text is `[Archivo: ` + name + `]`, and the name can be read back from it |
| ChatApp.TypingAfter | chatapp/src/ChatApp_React_Tailwind.jsx:74-76 | the sender's flag becomes `isTyping`; every other sender's flag is untouched |
| ChatApp.VisibleContacts | chatapp/src/ChatApp_React_Tailwind.jsx:130 | only listed contacts are shown |
| ChatApp.VisibleMembers | chatapp/src/ChatApp_React_Tailwind.jsx:130 | a contact is shown if and only if its lower-cased name contains the lower-cased search text at some position |
| ChatApp.VisibleInOrder | chatapp/src/ChatApp_React_Tailwind.jsx:130 | shown contacts keep the list order |
| ChatApp.EmptySearchShowsAll | chatapp/src/ChatApp_React_Tailwind.jsx:130 | an empty search shows every contact |
| ChatApp.SearchIgnoresCase | chatapp/src/ChatApp_React_Tailwind.jsx:130 | searching for the lower-cased text shows the same contacts as the text itself |
| ChatApp.ChatClient.constructor | chatapp/src/ChatApp_React_Tailwind.jsx:46-50 | the first contact becomes active when its id is truthy; a socket exists only for a truthy server URL and starts unconnected; typing flags, input and search start empty |
| ChatApp.ChatClient.OnConnect | chatapp/src/ChatApp_React_Tailwind.jsx:60-63 | on connect, the socket is connected and emits `identify` with the local user |
| ChatApp.ChatClient.OnDisconnect | chatapp/src/ChatApp_React_Tailwind.jsx:88 | after the transport drops, the socket reads as not connected, and nothing else changes |
| ChatApp.ChatClient.ReceiveMessage | chatapp/src/ChatApp_React_Tailwind.jsx:65-72 | an incoming message is filed under the other party; logs only grow; nothing else changes |
| ChatApp.ChatClient.ReceiveTyping | chatapp/src/ChatApp_React_Tailwind.jsx:74-76 | only the typing map changes, by setting the sender's flag |
| ChatApp.ChatClient.SendMessage | chatapp/src/ChatApp_React_Tailwind.jsx:81-89 | the message gets from = local id and the given to, text and file name; it is appended under `to` in every case; it is emitted only on a connected socket |
| ChatApp.ChatClient.MockReply | chatapp/src/ChatApp_React_Tailwind.jsx:91-100 | the canned reply from `to` to the local user is appended under `to` |
| ChatApp.ChatClient.HandleSend | chatapp/src/ChatApp_React_Tailwind.jsx:102-109 | a blank input or no active contact changes nothing; otherwise the trimmed input is sent to the active contact, the input is cleared, and a reply is scheduled only without a server |
| ChatApp.ChatClient.HandleAttach | chatapp/src/ChatApp_React_Tailwind.jsx:111-115 | no files or no active contact changes nothing; otherwise only the first file is sent, as `[Archivo: <name>]` with its name as `fileName` |
| ChatApp.ChatClient.Visible | chatapp/src/ChatApp_React_Tailwind.jsx:130 | the shown contacts are in list order, and exactly those whose lower-cased name includes the lower-cased search |
| Text.Trim | chatapp/src/Auth.jsx:10 | the result is a slice of the string with only ECMAScript white space outside it; it is empty if and only if every character is white space, and otherwise starts and ends with a non-white character |
| Text.Blank | chatapp/src/Auth.jsx:10 | a string is blank if and only if every character is ECMAScript white space |
| Text.Lower | chatapp/src/ChatApp_React_Tailwind.jsx:130 | lower-casing keeps the length, changes exactly the capital letters, and leaves none |
| Text.Contains | chatapp/src/ChatApp_React_Tailwind.jsx:130 | every string includes the empty string, a longer needle is never included, and one of the same length only when equal |
| Text.ContainsAt | chatapp/src/ChatApp_React_Tailwind.jsx:130 | `includes` holds if and only if the needle occurs at some position |
| Auth.Login.constructor | chatapp/src/Auth.jsx:4-7 | the first step is `choose`, with no method, value or code |
| Auth.Login.ChoosePhone | chatapp/src/Auth.jsx:28 | `method` becomes phone and the step becomes `input` |
| Auth.Login.ChooseEmail | chatapp/src/Auth.jsx:29 | `method` becomes email and the step becomes `input` |
| Auth.Login.EditValue | chatapp/src/Auth.jsx:40 | typing in the input panel changes only `value` |
| Auth.Login.EditCode | chatapp/src/Auth.jsx:53 | typing in the code panel changes only `code` |
| Auth.Login.SendCode | chatapp/src/Auth.jsx:9-12 | a value that is blank after trimming keeps the step; otherwise the step becomes `code`; the machine invariant is kept |
| Auth.Login.VerifyCode | chatapp/src/Auth.jsx:14-20 | `onAuth` is called if and only if the code is `1234`, with the untrimmed value as id and name and no avatar; a wrong code changes nothing; an accepted value is never blank |
| Auth.HappyPath | chatapp/src/Auth.jsx:9-16 | choose, a non-blank value and the demo code authenticate as exactly that value |
| Scenarios.OnlyBobsConnection | chatapp/server.js:14 | with alice and bob identified, only bob's connection matches `bob` |
| Scenarios.TwoUserRelay | chatapp/server.js:11 | two connections identify as alice and bob |
| Scenarios.AliceSends | chatapp/src/ChatApp_React_Tailwind.jsx:81-88 | alice's own log holds her message right after sending, and her connected socket emits it after `identify` |
| Scenarios.AliceToBob | chatapp/server.js:12-18 | the relay, routing as intended, forwards alice's message, unchanged, to bob's connection only, and bob files it under `alice` |
| Scenarios.SilentDropToStranger | chatapp/server.js:12-18 | a message to an identity nobody holds reaches no connection, while the sender's log still holds it |

`Auth.Login` keeps an invariant, `Valid`, through every step:

- Past the first panel, a method has been chosen.
- The value can change only on the input panel, so it is not blank on the code panel.
- The code is empty except on the code panel.

The button and field handlers (`ChoosePhone`, `ChooseEmail`, `EditValue`, `EditCode`, `SendCode`) require the step whose panel renders them (Auth.jsx lines 25, 33 and 47). `VerifyCode` has no step requirement, because the code does not check one and the invariant makes it safe.

## Left out

- HTTP and express setup, CORS, `listen` and `PORT`, and `console.log` (server.js:1-7, 10, 22-23). These are library transport and logging.
- Disconnection. socket.io removes a closed socket from its collection by itself, and the model assumes that removal (`Relay.Disconnect`). No handler in the source does it.
- Payloads without `id` or `to`. Identities and messages always have string fields here. A payload that lacks them, where `undefined === undefined` would match, is not modelled. Neither is a truthy `identify` payload that is not an object.
- The client's `io(...)`, `connect()` and cleanup `disconnect()` calls (lines 56-58, 78). Transport state is abstracted as `SocketState`, changed by `OnConnect` and `OnDisconnect`.
- Persistence to `localStorage` with JSON (lines 20-22, 34-44), and so the persist/restore round trip. The constructor takes the restored contacts and conversations as parameters.
- `uid()` and `nowISO()` (lines 10-11). They are passed in as `id` and `time`. `timeShort` display formatting (line 12) is not modelled.
- The `setTimeout` around `mockReply` (lines 92, 99). `HandleSend` returns the peer a reply is scheduled for, and `MockReply` is the timer's body.
- The random presence timer (lines 123-128), the "Nuevo" add-contact button (line 147), the emoji button (line 216) and the `onChange` setters of the input, search and contact selection. These are UI. The model's fields are assigned directly instead.
- Theme and `matchMedia`/`classList` (lines 25-32), scrolling (lines 117-121) and all rendering.
- Text.Lower: lower-cases only ASCII and Latin-1 capitals (U+00C0 to U+00DE except U+00D7). `toLowerCase` on other scripts is not modelled.
- The `alert` on a wrong code (Auth.jsx:18). It is browser UI, and the model states that nothing changes instead.
- chatapp/src/App.jsx. It only switches between the login and the chat on whether a user is set. It renders the chat without `serverUrl` (App.jsx:10), so in the composed app no socket is created and every send schedules the canned reply. The relay and the `Scenarios` module concern the chat component used with a server URL.
- Outgoing `typing`. The client only handles incoming `typing` events and never emits one.
- Message id uniqueness.
- ChatApp.Appended: files a message under a peer id that names an `Object.prototype` member, where the component throws (see "## Findings"). `ChatApp.AppendedAsWritten` models the throw.

## Findings

| source | as written | input that shows it | evidently intended | confidence | as-written member | corrected member |
|---|---|---|---|---|---|---|
| chatapp/server.js:13 | the loop walks `Object.entries(io.sockets.sockets)`; with the `Server` class of socket.io 3 and later that collection is a `Map`, whose entries are not own enumerable properties, so the loop never runs | connection `s1` identified as `bob`, a message with `to: "bob"`: nobody receives it | walk the Map's own entries (`for (const [id, s] of io.sockets.sockets)`), so every bound connection is reached | medium: rests on the socket.io version implied by `{ Server }` and the `cors` option; not executed | Server.AsWrittenMissesBoundRecipient | Server.Relay.Route |
| chatapp/src/ChatApp_React_Tailwind.jsx:69 | `copy[partner] \|\| []` runs on a plain object. A partner id that is not an own key but names an `Object.prototype` member (`constructor`, `__proto__`, `toString`, `valueOf`, …) returns that member. It is truthy and not iterable, so the spread throws a TypeError inside the state updater and the message is not filed. Lines 85 and 96 do the same for `to` | logged in as `me`, receive `{from: "constructor", to: "me", …}`: the updater throws | keep conversations in a `Map` or in an object without a prototype, or test `Object.hasOwn(copy, partner)`, so every id gets its own conversation | high: follows from ECMAScript property lookup and spread; not executed | ChatApp.AsWrittenLosesPrototypePeer | ChatApp.Appended |
