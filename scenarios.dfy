/** End-to-end runs of client and relay together: a message from alice to
    bob, and a message to somebody who never identified. */
module Scenarios {
  import opened Wrappers
  import opened Seqs
  import opened Wire
  import opened Server
  import opened ChatApp

  /** The relay state once "sa" has identified as alice and "sb" as bob. */
  function TwoUsers(): Bindings
  {
    map["sa" := Some(Identity("alice", "Alice", None)), "sb" := Some(Identity("bob", "Bob", None))]
  }

  /** With that state only "sb" is bound to "bob". */
  lemma OnlyBobsConnection()
    ensures Matching(["sa", "sb"], TwoUsers(), "bob") == ["sb"]
  {
    var users := TwoUsers();
    assert !BoundTo(users, "sa", "bob") && BoundTo(users, "sb", "bob");
    assert ["sa", "sb"][..1] == ["sa"] && ["sa"][..0] == [];
    assert Filter(["sa"], IsBoundTo(users, "bob")) == [];
  }

  /** Both users connect and identify. */
  method TwoUserRelay() returns (relay: Relay)
    ensures fresh(relay) && relay.Valid()
    ensures relay.conns == ["sa", "sb"] && relay.users == TwoUsers()
  {
    relay := new Relay();
    relay.Connect("sa");
    relay.Connect("sb");
    relay.Identify("sa", Some(Identity("alice", "Alice", None)));
    relay.Identify("sb", Some(Identity("bob", "Bob", None)));
  }

  /** Alice sends "hi" to "bob": her own log holds the message at once and
      it goes out on her connected socket. */
  method AliceSends() returns (m: Message, aliceLog: seq<Message>, wire: seq<Outbound>)
    ensures m.from == "alice" && m.to == "bob" && m.text == "hi" && m.fileName == None
    ensures aliceLog == [m]
    ensures wire == [IdentifyOut(Identity("alice", "Alice", None)), MessageOut(m)]
  {
    var a := new ChatClient(Identity("alice", "Alice", None), Some("http://relay"), [], map[]);
    a.OnConnect();
    m := a.SendMessage("bob", "hi", None, "m1", "t1");
    aliceLog := LogOf(a.messages, "bob");
    wire := a.sent;
  }

  /** The relay, routing as intended, forwards Alice's message to Bob's
      connection only, unchanged, and Bob files it under "alice". */
  method AliceToBob() returns (aliceLog: seq<Message>, emitted: seq<Emit<Message>>, bobLog: seq<Message>)
    ensures |aliceLog| == 1 && aliceLog[0].from == "alice" && aliceLog[0].to == "bob" && aliceLog[0].text == "hi"
    ensures emitted == [Emit("sb", aliceLog[0])]
    ensures bobLog == aliceLog
  {
    var m, _, _ := AliceSends();
    aliceLog := [m];
    var relay := TwoUserRelay();
    OnlyBobsConnection();
    emitted := relay.Route(m);
    var b := new ChatClient(Identity("bob", "Bob", None), Some("http://relay"), [], map[]);
    b.ReceiveMessage(emitted[0].payload);
    bobLog := LogOf(b.messages, "alice");
  }

  /** A message to "carol", whom no connection is bound to, reaches nobody,
      while the sender's own log still holds it. */
  method SilentDropToStranger() returns (senderLog: seq<Message>, emitted: seq<Emit<Message>>)
    ensures |senderLog| == 1 && senderLog[0].to == "carol"
    ensures emitted == []
  {
    var b := new ChatClient(Identity("bob", "Bob", None), Some("http://relay"), [], map[]);
    b.OnConnect();
    var m := b.SendMessage("carol", "hola", None, "m2", "t2");
    senderLog := LogOf(b.messages, "carol");
    var relay := TwoUserRelay();
    SilentDrop(relay.conns, relay.users, "carol");
    emitted := relay.Route(m);
  }

}
