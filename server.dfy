/** The socket.io relay of chatapp/server.js: each live connection may carry
    the user it announced with `identify`; `message` is forwarded to the
    connections bound to the addressee, `typing` to everybody else. */
module Server {
  import opened Wrappers
  import opened Seqs
  import opened Wire

  /** A socket id. */
  type ConnId = string

  /** The binding `socket.user` of every live connection (None: never
      identified, or identified with a falsy payload). */
  type Bindings = map<ConnId, Option<Identity>>

  /** One `emit` of `payload` on connection `conn`. */
  datatype Emit<P> = Emit(conn: ConnId, payload: P)

  /** `s.user && s.user.id === to`. */
  predicate BoundTo(users: Bindings, c: ConnId, to: string)
  {
    c in users && users[c].Some? && users[c].value.id == to
  }

  function IsBoundTo(users: Bindings, to: string): ConnId -> bool
  {
    c => BoundTo(users, c, to)
  }

  /** The connections, in collection order, that a message for `to` reaches
      (the test at line 14 applied to every connection): only live ones, and
      each at most once. */
  function Matching(conns: seq<ConnId>, users: Bindings, to: string): (r: seq<ConnId>)
    ensures forall c :: c in r ==> c in conns
    ensures Distinct(conns) ==> Distinct(r)
  {
    FilterMembers(conns, IsBoundTo(users, to));
    if Distinct(conns) then FilterKeepsDistinct(conns, IsBoundTo(users, to)); Filter(conns, IsBoundTo(users, to))
    else Filter(conns, IsBoundTo(users, to))
  }

  /** A connection receives the message exactly when it is live and bound to
      the addressee; this covers duplicate identities (all of them receive it)
      and the sender itself (only when bound to the addressee). */
  lemma MatchingMembers(conns: seq<ConnId>, users: Bindings, to: string)
    ensures forall c :: c in Matching(conns, users, to) <==> c in conns && BoundTo(users, c, to)
  {
    FilterMembers(conns, IsBoundTo(users, to));
  }

  /** Recipients are reached in the order of the connection collection. */
  lemma MatchingInOrder(conns: seq<ConnId>, users: Bindings, to: string)
    ensures Subsequence(Matching(conns, users, to), conns)
  {
    FilterIsSubsequence(conns, IsBoundTo(users, to));
  }

  /** A connection that never identified never receives a routed message. */
  lemma UnboundNeverReceives(conns: seq<ConnId>, users: Bindings, c: ConnId, to: string)
    requires c !in users || users[c] == None
    ensures c !in Matching(conns, users, to)
  {
    MatchingMembers(conns, users, to);
  }

  /** If nobody is bound to the addressee the message is silently dropped. */
  lemma SilentDrop(conns: seq<ConnId>, users: Bindings, to: string)
    requires forall c :: c in conns ==> !BoundTo(users, c, to)
    ensures Matching(conns, users, to) == []
  {
    FilterNone(conns, IsBoundTo(users, to));
  }

  /** Two live connections that announced the same id both receive it. */
  lemma SharedIdentityBothReceive(conns: seq<ConnId>, users: Bindings, c1: ConnId, c2: ConnId, to: string)
    requires c1 in conns && c2 in conns && c1 != c2
    requires BoundTo(users, c1, to) && BoundTo(users, c2, to)
    ensures c1 in Matching(conns, users, to) && c2 in Matching(conns, users, to)
    ensures |Matching(conns, users, to)| >= 2
  {
    MatchingMembers(conns, users, to);
    var r := Matching(conns, users, to);
    var i :| 0 <= i < |r| && r[i] == c1;
    var j :| 0 <= j < |r| && r[j] == c2;
    assert i != j;
  }

  /** `identify` overwrites whatever was bound before: afterwards the
      connection receives exactly the messages for the new id, and a falsy
      payload unbinds it. */
  lemma IdentifyOverwrites(conns: seq<ConnId>, users: Bindings, c: ConnId, u: Identity, to: string)
    requires c in conns
    ensures c in Matching(conns, users[c := Some(u)], to) <==> u.id == to
    ensures c !in Matching(conns, users[c := None], to)
  {
    MatchingMembers(conns, users[c := Some(u)], to);
    MatchingMembers(conns, users[c := None], to);
  }

  /** `identify` on one connection does not change who else receives. */
  lemma IdentifyLeavesOthers(conns: seq<ConnId>, users: Bindings, c: ConnId, u: Option<Identity>, d: ConnId, to: string)
    requires d != c
    ensures d in Matching(conns, users[c := u], to) <==> d in Matching(conns, users, to)
  {
    MatchingMembers(conns, users[c := u], to);
    MatchingMembers(conns, users, to);
  }

  /** After a connection is removed, no message is routed to it. */
  lemma DisconnectedNeverReceives(conns: seq<ConnId>, users: Bindings, c: ConnId, to: string)
    ensures c !in Matching(Remove(conns, c), users - {c}, to)
  {
    RemoveMembers(conns, c);
    MatchingMembers(Remove(conns, c), users - {c}, to);
  }

  /** `io.sockets.sockets`, holding the connection ids in insertion order:
      a plain object keyed by socket id (socket.io 2) or a `Map` (socket.io 3
      and later, whose `Server` class and `cors` option this server uses). */
  datatype SocketCollection = PlainObject(ids: seq<ConnId>) | SocketMap(ids: seq<ConnId>)

  /** The ids `Object.entries` walks: the own enumerable properties. A
      `Map` keeps its entries internally and has none. */
  function ObjectEntries(sockets: SocketCollection): seq<ConnId>
  {
    match sockets
    case PlainObject(ids) => ids
    case SocketMap(_) => []
  }

  /** The recipients of the routing loop as written (server.js line 13):
      every bound connection on a plain object, nobody on a `Map`. */
  function RoutedAsWritten(sockets: SocketCollection, users: Bindings, to: string): (r: seq<ConnId>)
    ensures sockets.PlainObject? ==> r == Matching(sockets.ids, users, to)
    ensures sockets.SocketMap? ==> r == []
  {
    Matching(ObjectEntries(sockets), users, to)
  }

  /** On a `Map` the loop as written reaches nobody, even a connection bound
      to the addressee, which the same loop over a plain object reaches. */
  lemma AsWrittenMissesBoundRecipient()
    ensures var users := map["s1" := Some(Identity("bob", "bob", None))];
            && RoutedAsWritten(PlainObject(["s1"]), users, "bob") == ["s1"]
            && RoutedAsWritten(SocketMap(["s1"]), users, "bob") == []
  {
  }

  /** The live connections and their bindings. */
  class Relay {
    /** `io.sockets.sockets`, in insertion order. */
    var conns: seq<ConnId>
    /** `socket.user` of each live connection. */
    var users: Bindings

    ghost predicate Valid()
      reads this
    {
      && Distinct(conns)
      && forall c :: c in users <==> c in conns
    }

    constructor ()
      ensures Valid() && conns == [] && users == map[]
    {
      conns := [];
      users := map[];
    }

    /** A new socket joins; `socket.user` starts undefined. */
    method Connect(c: ConnId)
      requires Valid() && c !in users
      modifies this
      ensures Valid()
      ensures conns == old(conns) + [c] && users == old(users)[c := None]
    {
      conns := conns + [c];
      users := users[c := None];
    }

    /** socket.io drops a closed socket from its collection; removing one
        that is already gone changes nothing. */
    method Disconnect(c: ConnId)
      requires Valid()
      modifies this
      ensures Valid()
      ensures conns == Remove(old(conns), c) && users == old(users) - {c}
      ensures c !in old(users) ==> conns == old(conns) && users == old(users)
    {
      RemoveMembers(conns, c);
      RemoveKeepsDistinct(conns, c);
      if c !in users {
        RemoveAbsent(conns, c);
      }
      conns := Remove(conns, c);
      users := users - {c};
    }

    /** The `identify` handler (line 11): the payload becomes the
        connection's binding with no validation, and the last one wins. */
    method Identify(c: ConnId, user: Option<Identity>)
      requires Valid() && c in users
      modifies this
      ensures Valid()
      ensures conns == old(conns) && users == old(users)[c := user]
    {
      users := users[c := user];
    }

    /** `socket.on('message', ...)`: emit `msg` unchanged on every connection
        whose bound user's id equals `msg.to`, once each, in collection
        order; nothing is emitted back to the sender otherwise. */
    method Route(msg: Message) returns (out: seq<Emit<Message>>)
      requires Valid()
      ensures |out| == |Matching(conns, users, msg.to)|
      ensures forall i :: 0 <= i < |out| ==> out[i] == Emit(Matching(conns, users, msg.to)[i], msg)
      ensures forall c :: Emit(c, msg) in out <==> c in conns && BoundTo(users, c, msg.to)
      ensures forall e :: e in out ==> e.payload == msg
      ensures Distinct(out)
    {
      out := [];
      for i := 0 to |conns|
        invariant |out| == |Matching(conns[..i], users, msg.to)|
        invariant forall k :: 0 <= k < |out| ==> out[k] == Emit(Matching(conns[..i], users, msg.to)[k], msg)
      {
        var s := conns[i];
        assert conns[..i + 1][..i] == conns[..i];
        match users[s]
        case Some(user) =>
          if user.id == msg.to {
            out := out + [Emit(s, msg)];
          }
        case None =>
      }
      assert conns[..|conns|] == conns;
      var r := Matching(conns, users, msg.to);
      MatchingMembers(conns, users, msg.to);
      forall c | Emit(c, msg) in out
        ensures c in r
      {
        var k :| 0 <= k < |out| && out[k] == Emit(c, msg);
      }
      forall c | c in r
        ensures Emit(c, msg) in out
      {
        var k :| 0 <= k < |r| && r[k] == c;
        assert out[k] == Emit(c, msg);
      }
    }

    /** The `typing` handler (line 19): the payload, unchanged, to every live
        connection except the one it came from. */
    method Typing(sender: ConnId, data: TypingSignal) returns (out: set<Emit<TypingSignal>>)
      ensures forall e :: e in out <==> e.conn in users && e.conn != sender && e.payload == data
    {
      out := set c | c in users.Keys && c != sender :: Emit(c, data);
    }
  }

}
