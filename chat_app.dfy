/** The client side of the chat (chatapp/src/ChatApp_React_Tailwind.jsx):
    conversation logs keyed by the other party, typing flags, the contact
    list and its search, and the send paths with their optimistic echo. */
module ChatApp {
  import opened Wrappers
  import opened Seqs
  import opened Text
  import opened Wire

  /** `messages`: peer id to that conversation's messages, oldest first. */
  type Log = map<string, seq<Message>>

  datatype Contact = Contact(id: string, name: string, avatarColor: string, online: bool, last: string)

  /** A picked file; only its name is used. */
  datatype FileRef = FileRef(name: string)

  /** `socket`: null, or a socket.io client that is connected or not. */
  datatype SocketState = NoSocket | Socket(connected: bool)

  /** What the client emits on its socket. */
  datatype Outbound = IdentifyOut(user: Identity) | MessageOut(msg: Message)

  /** The text of the simulated reply, exactly as the component spells it. */
  const ReplyText: string := "Respuesta autom\U{221A}\U{00B0}tica \U{201A}\U{00FA}\U{00AE}"

  /** JavaScript truthiness of an optional string: present and non-empty. */
  predicate Truthy(s: Option<string>)
  {
    s.Some? && s.value != ""
  }

  /** The conversation with `peer`, empty when there is none yet. */
  function LogOf(log: Log, peer: string): seq<Message>
  {
    if peer in log then log[peer] else []
  }

  /** The updater at lines 69, 85 and 96: a copy of the map whose entry for
      `peer` is its old conversation (or none) followed by `m`. Unlike the
      component's plain object, the map has no inherited keys; see
      `AppendedAsWritten`. */
  function Appended(log: Log, peer: string, m: Message): (r: Log)
    ensures r.Keys == log.Keys + {peer}
    ensures LogOf(r, peer) == LogOf(log, peer) + [m]
    ensures forall k :: k != peer ==> LogOf(r, k) == LogOf(log, k)
  {
    log[peer := LogOf(log, peer) + [m]]
  }

  /** The names every plain object inherits from `Object.prototype`: a
      lookup `copy[k]` finds them when `k` is not an own key. */
  const PrototypeMembers: set<string> := {
    "constructor", "__proto__", "__defineGetter__", "__defineSetter__",
    "__lookupGetter__", "__lookupSetter__", "hasOwnProperty", "isPrototypeOf",
    "propertyIsEnumerable", "toLocaleString", "toString", "valueOf"}

  /** What `copy[k]` reads on the component's plain object: an own
      conversation, an inherited member (a function, or `Object.prototype`
      for `__proto__`), or `undefined`. */
  datatype Slot = Own(msgs: seq<Message>) | Inherited(name: string) | Undefined

  function Lookup(log: Log, k: string): Slot
  {
    if k in log then Own(log[k])
    else if k in PrototypeMembers then Inherited(k)
    else Undefined
  }

  /** `slot || []`: only `undefined` is falsy here; an array, even an empty
      one, and an inherited member are truthy and kept. */
  function OrEmpty(slot: Slot): Slot
  {
    if slot.Undefined? then Own([]) else slot
  }

  /** `[...slot, m]`: an array spreads; an inherited member is not iterable,
      so the spread throws a TypeError (`None`). */
  function SpreadAppend(slot: Slot, m: Message): Option<seq<Message>>
  {
    match slot
    case Own(msgs) => Some(msgs + [m])
    case Inherited(_) => None
    case Undefined => None
  }

  /** The updater as written (line 69, and lines 85 and 96): look `peer` up
      on the plain object, fall back to `[]`, spread and store. The update is
      lost exactly when `peer` is not an own key but names an inherited
      member; otherwise it is the map update. */
  function AppendedAsWritten(log: Log, peer: string, m: Message): (r: Option<Log>)
    ensures r.None? <==> peer !in log && peer in PrototypeMembers
    ensures r.Some? ==> r.value == Appended(log, peer, m)
  {
    match SpreadAppend(OrEmpty(Lookup(log, peer)), m)
    case None => None
    case Some(msgs) => Some(log[peer := msgs])
  }

  /** A remote user who logged in as "constructor" writes to "me": the
      updater as written loses the message, the map-based one files it. */
  lemma AsWrittenLosesPrototypePeer()
    ensures var m := Message("m1", "constructor", "me", "hola", None, "t1");
            && AppendedAsWritten(map[], PartnerOf(m, "me"), m) == None
            && LogOf(FileIncoming(map[], "me", m), "constructor") == [m]
  {
  }

  /** Every conversation of `after` starts with the one in `before`. */
  ghost predicate Extends(before: Log, after: Log)
  {
    forall k :: LogOf(before, k) <= LogOf(after, k)
  }

  /** An append keeps every earlier entry in place and adds exactly one
      message, at the end of one conversation. */
  lemma AppendOnly(log: Log, peer: string, m: Message)
    ensures Extends(log, Appended(log, peer, m))
    ensures forall k :: |LogOf(Appended(log, peer, m), k)| == |LogOf(log, k)| + (if k == peer then 1 else 0)
  {
  }

  /** The conversation an incoming message belongs to: the other party,
      which is one of the two and is never me unless I wrote to myself. */
  function PartnerOf(m: Message, me: string): (r: string)
    ensures r == m.from || r == m.to
    ensures r == me ==> m.from == me && m.to == me
  {
    if m.from == me then m.to else m.from
  }

  /** The `message` handler's update: file under `to` what I sent, under
      `from` what someone else sent; nothing else changes. */
  function FileIncoming(log: Log, me: string, m: Message): (r: Log)
    ensures m.from == me ==> LogOf(r, m.to) == LogOf(log, m.to) + [m]
    ensures m.from != me ==> LogOf(r, m.from) == LogOf(log, m.from) + [m]
    ensures forall k :: k != PartnerOf(m, me) ==> LogOf(r, k) == LogOf(log, k)
  {
    Appended(log, PartnerOf(m, me), m)
  }

  /** Filing a stream of incoming messages, one handler call after another. */
  function FileAll(log: Log, me: string, ms: seq<Message>): Log
  {
    if ms == [] then log
    else FileIncoming(FileAll(log, me, ms[..|ms| - 1]), me, ms[|ms| - 1])
  }

  function BelongsTo(me: string, peer: string): Message -> bool
  {
    m => PartnerOf(m, me) == peer
  }

  /** The messages of a stream that concern the conversation with `peer`. */
  function ThreadOf(ms: seq<Message>, me: string, peer: string): seq<Message>
  {
    Filter(ms, BelongsTo(me, peer))
  }

  /** After a stream of arrivals, each conversation is its old log followed
      by exactly the arrivals that concern it, in arrival order. */
  lemma {:induction false} FileAllIsThread(log: Log, me: string, ms: seq<Message>, peer: string)
    ensures LogOf(FileAll(log, me, ms), peer) == LogOf(log, peer) + ThreadOf(ms, me, peer)
  {
    if ms != [] {
      var init, m := ms[..|ms| - 1], ms[|ms| - 1];
      FileAllIsThread(log, me, init, peer);
      var before := FileAll(log, me, init);
      var extra := if PartnerOf(m, me) == peer then [m] else [];
      assert ThreadOf(ms, me, peer) == ThreadOf(init, me, peer) + extra;
      calc {
        LogOf(FileAll(log, me, ms), peer);
        LogOf(Appended(before, PartnerOf(m, me), m), peer);
        LogOf(before, peer) + extra;
        LogOf(log, peer) + ThreadOf(init, me, peer) + extra;
      }
    }
  }

  /** `file?.name || null`: an empty name counts as no file. */
  function FileNameOf(file: Option<FileRef>): (r: Option<string>)
    ensures r.Some? <==> file.Some? && file.value.name != ""
    ensures r.Some? ==> r.value == file.value.name
  {
    match file
    case Some(f) => if f.name != "" then Some(f.name) else None
    case None => None
  }

  /** The message `sendMessage` builds; `id` and `time` stand for `uid()` and
      `nowISO()`. It comes from me, and a copy arriving back is filed under
      its addressee; its file name is present only for a named file. */
  function Outgoing(me: string, id: string, to: string, text: string, file: Option<FileRef>, time: string): (r: Message)
    ensures r.from == me && r.to == to && r.text == text && PartnerOf(r, me) == to
    ensures r.fileName.Some? <==> file.Some? && file.value.name != ""
  {
    Message(id, me, to, text, FileNameOf(file), time)
  }

  /** The copy of my own message that the server may forward back to me
      lands in the same conversation as its local echo. */
  lemma EchoFiledWithOriginal(log: Log, me: string, id: string, to: string, text: string, file: Option<FileRef>, time: string)
    ensures var m := Outgoing(me, id, to, text, file, time);
            FileIncoming(log, me, m) == Appended(log, to, m)
  {
  }

  /** The reply `mockReply(to)` builds: from `to` to me, the canned text and
      no file, so as an incoming message it too belongs with `to`. */
  function Reply(me: string, id: string, to: string, time: string): (r: Message)
    ensures r.from == to && r.to == me && r.text == ReplyText && r.fileName == None
    ensures PartnerOf(r, me) == to
  {
    Message(id, to, me, ReplyText, None, time)
  }

  /** The text `handleAttach` sends: `[Archivo: <name>]`, from which the
      name can be read back. */
  function AttachText(name: string): (r: string)
    ensures |r| == |name| + 11
    ensures r[..10] == "[Archivo: " && r[10..|r| - 1] == name && r[|r| - 1] == ']'
  {
    "[Archivo: " + name + "]"
  }

  /** The `typing` handler's update (line 75): the sender's flag is set. */
  function TypingAfter(t: map<string, bool>, sig: TypingSignal): (r: map<string, bool>)
    ensures sig.from in r && r[sig.from] == sig.isTyping
    ensures forall k :: k != sig.from ==> (k in r <==> k in t) && (k in t ==> r[k] == t[k])
  {
    t[sig.from := sig.isTyping]
  }

  function NameContains(needle: string): Contact -> bool
  {
    (c: Contact) => Contains(Lower(c.name), needle)
  }

  /** The contact search (line 130): the contacts whose lower-cased name
      includes the lower-cased search text. Only listed contacts are shown. */
  function VisibleContacts(contacts: seq<Contact>, search: string): (r: seq<Contact>)
    ensures forall c :: c in r ==> c in contacts
  {
    FilterMembers(contacts, NameContains(Lower(search)));
    Filter(contacts, NameContains(Lower(search)))
  }

  /** A contact is shown exactly when its lower-cased name includes the
      lower-cased search text. */
  lemma VisibleMembers(contacts: seq<Contact>, search: string)
    ensures forall c :: c in VisibleContacts(contacts, search) <==>
      c in contacts && exists i :: OccursAt(Lower(c.name), Lower(search), i)
  {
    FilterMembers(contacts, NameContains(Lower(search)));
    forall c: Contact
      ensures Contains(Lower(c.name), Lower(search)) <==> exists i :: OccursAt(Lower(c.name), Lower(search), i)
    {
      ContainsAt(Lower(c.name), Lower(search));
    }
  }

  /** Shown contacts keep the order of the contact list. */
  lemma VisibleInOrder(contacts: seq<Contact>, search: string)
    ensures Subsequence(VisibleContacts(contacts, search), contacts)
  {
    FilterIsSubsequence(contacts, NameContains(Lower(search)));
  }

  /** An empty search shows every contact. */
  lemma EmptySearchShowsAll(contacts: seq<Contact>)
    ensures VisibleContacts(contacts, "") == contacts
  {
    assert Lower("") == "";
    FilterAll(contacts, NameContains(""));
  }

  /** The search ignores the case of the search text. */
  lemma SearchIgnoresCase(contacts: seq<Contact>, search: string)
    ensures VisibleContacts(contacts, Lower(search)) == VisibleContacts(contacts, search)
  {
    LowerIdempotent(search);
  }

  /** The state of the chat component. */
  class ChatClient {
    /** The `user` prop: the local identity. */
    const user: Identity
    /** The `serverUrl` prop. */
    const serverUrl: Option<string>
    var socket: SocketState
    var contacts: seq<Contact>
    var messages: Log
    var typing: map<string, bool>
    var activeContact: Option<string>
    var input: string
    var search: string
    /** Everything emitted on the socket so far, oldest first. */
    var sent: seq<Outbound>

    /** Mounting with the restored `contacts` and `messages`; a socket exists
        only when `serverUrl` is truthy, and is not yet connected. */
    constructor (user: Identity, serverUrl: Option<string>, contacts: seq<Contact>, messages: Log)
      ensures this.user == user && this.serverUrl == serverUrl
      ensures this.contacts == contacts && this.messages == messages
      ensures socket == (if Truthy(serverUrl) then Socket(false) else NoSocket)
      ensures activeContact == (if contacts != [] && contacts[0].id != "" then Some(contacts[0].id) else None)
      ensures typing == map[] && input == "" && search == "" && sent == []
    {
      this.user := user;
      this.serverUrl := serverUrl;
      this.contacts := contacts;
      this.messages := messages;
      socket := if Truthy(serverUrl) then Socket(false) else NoSocket;
      activeContact := if contacts != [] && contacts[0].id != "" then Some(contacts[0].id) else None;
      typing := map[];
      input := "";
      search := "";
      sent := [];
    }

    /** The `connect` event: the socket is up and announces the user. */
    method OnConnect()
      requires socket.Socket?
      modifies this
      ensures socket == Socket(true) && sent == old(sent) + [IdentifyOut(user)]
      ensures messages == old(messages) && typing == old(typing) && contacts == old(contacts)
      ensures activeContact == old(activeContact) && input == old(input) && search == old(search)
    {
      socket := Socket(true);
      sent := sent + [IdentifyOut(user)];
    }

    /** The transport dropped; sends stay local until the next connect. */
    method OnDisconnect()
      requires socket.Socket?
      modifies this
      ensures socket == Socket(false) && sent == old(sent)
      ensures messages == old(messages) && typing == old(typing) && contacts == old(contacts)
      ensures activeContact == old(activeContact) && input == old(input) && search == old(search)
    {
      socket := Socket(false);
    }

    /** The `message` handler. */
    method ReceiveMessage(m: Message)
      modifies this
      ensures messages == FileIncoming(old(messages), user.id, m)
      ensures Extends(old(messages), messages)
      ensures socket == old(socket) && sent == old(sent) && typing == old(typing) && contacts == old(contacts)
      ensures activeContact == old(activeContact) && input == old(input) && search == old(search)
    {
      AppendOnly(messages, PartnerOf(m, user.id), m);
      messages := FileIncoming(messages, user.id, m);
    }

    /** The `typing` handler. */
    method ReceiveTyping(sig: TypingSignal)
      modifies this
      ensures typing == TypingAfter(old(typing), sig)
      ensures socket == old(socket) && sent == old(sent) && messages == old(messages) && contacts == old(contacts)
      ensures activeContact == old(activeContact) && input == old(input) && search == old(search)
    {
      typing := TypingAfter(typing, sig);
    }

    /** `sendMessage({to, text, file})`: the message is appended locally at
        once, and emitted only on a connected socket. */
    method SendMessage(to: string, text: string, file: Option<FileRef>, id: string, time: string) returns (m: Message)
      modifies this
      ensures m.from == user.id && m.to == to && m.text == text && m.fileName == FileNameOf(file)
      ensures m.id == id && m.time == time
      ensures messages == Appended(old(messages), to, m) && Extends(old(messages), messages)
      ensures sent == old(sent) + (if socket == Socket(true) then [MessageOut(m)] else [])
      ensures socket == old(socket) && typing == old(typing) && contacts == old(contacts)
      ensures activeContact == old(activeContact) && input == old(input) && search == old(search)
    {
      m := Outgoing(user.id, id, to, text, file, time);
      AppendOnly(messages, to, m);
      messages := Appended(messages, to, m);
      if socket.Socket? && socket.connected {
        sent := sent + [MessageOut(m)];
      }
    }

    /** The body of `mockReply(to)`'s timer: the canned reply from `to`. */
    method MockReply(to: string, id: string, time: string)
      modifies this
      ensures messages == Appended(old(messages), to, Reply(user.id, id, to, time))
      ensures Extends(old(messages), messages)
      ensures socket == old(socket) && sent == old(sent) && typing == old(typing) && contacts == old(contacts)
      ensures activeContact == old(activeContact) && input == old(input) && search == old(search)
    {
      var reply := Reply(user.id, id, to, time);
      AppendOnly(messages, to, reply);
      messages := Appended(messages, to, reply);
    }

    /** `handleSend`: a blank input or no active contact changes nothing;
        otherwise the trimmed input goes to the active contact, the input is
        cleared, and without a server a reply is scheduled (`replyTo`). */
    method HandleSend(id: string, time: string) returns (replyTo: Option<string>)
      modifies this
      ensures Blank(old(input)) || !Truthy(old(activeContact)) ==>
        && messages == old(messages) && sent == old(sent) && input == old(input)
        && replyTo == None
      ensures !Blank(old(input)) && Truthy(old(activeContact)) ==>
        var m := Outgoing(user.id, id, old(activeContact).value, Trim(old(input)), None, time);
        && messages == Appended(old(messages), m.to, m)
        && sent == old(sent) + (if socket == Socket(true) then [MessageOut(m)] else [])
        && input == ""
        && replyTo == (if Truthy(serverUrl) then None else Some(m.to))
      ensures Extends(old(messages), messages)
      ensures socket == old(socket) && typing == old(typing) && contacts == old(contacts)
      ensures activeContact == old(activeContact) && search == old(search)
    {
      replyTo := None;
      if Blank(input) {
        return;
      }
      if !Truthy(activeContact) {
        return;
      }
      var to := activeContact.value;
      var _ := SendMessage(to, Trim(input), None, id, time);
      input := "";
      if !Truthy(serverUrl) {
        replyTo := Some(to);
      }
    }

    /** `handleAttach(files)`: nothing without files or an active contact;
        otherwise only the first file is sent, as `[Archivo: <name>]`. */
    method HandleAttach(files: Option<seq<FileRef>>, id: string, time: string)
      modifies this
      ensures files.None? || files.value == [] || !Truthy(old(activeContact)) ==>
        messages == old(messages) && sent == old(sent)
      ensures files.Some? && files.value != [] && Truthy(old(activeContact)) ==>
        var f := files.value[0];
        var m := Outgoing(user.id, id, old(activeContact).value, AttachText(f.name), Some(f), time);
        && messages == Appended(old(messages), m.to, m)
        && sent == old(sent) + (if socket == Socket(true) then [MessageOut(m)] else [])
      ensures Extends(old(messages), messages)
      ensures socket == old(socket) && typing == old(typing) && contacts == old(contacts)
      ensures activeContact == old(activeContact) && input == old(input) && search == old(search)
    {
      if files.None? || files.value == [] || !Truthy(activeContact) {
        return;
      }
      var f := files.value[0];
      var _ := SendMessage(activeContact.value, AttachText(f.name), Some(f), id, time);
    }

    /** `visibleContacts`: the contacts whose name matches the search box,
        in list order. */
    function Visible(): (r: seq<Contact>)
      reads this
      ensures Subsequence(r, contacts)
      ensures forall c :: c in r <==> c in contacts && Contains(Lower(c.name), Lower(search))
    {
      VisibleInOrder(contacts, search);
      FilterMembers(contacts, NameContains(Lower(search)));
      VisibleContacts(contacts, search)
    }
  }

}
