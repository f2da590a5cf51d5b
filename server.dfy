/** The signalling server of backend/server.js: the shared `users` dictionary,
    the live sockets, and the handlers that change them.  Node runs each handler
    to completion on one event loop, so every method below is one atomic step. */
module Server {
  import opened Registry
  import opened Messages

  class SignalServer {
    /** `Object.keys(users)` in enumeration order. */
    var users: seq<string>
    /** Ids of the live sockets: the ones `io.to(id)` and `io.emit` reach. */
    var connected: set<string>
    /** Every emission that reached at least one socket, oldest first. */
    var outbox: seq<Emission>

    /** Keys are distinct and non-empty; every key is a live socket or a
        simulated participant, and no live socket has a simulated-looking id. */
    ghost predicate Valid()
      reads this
    {
      NoDup(users) &&
      (forall u :: u in users ==> u != "" && (u in connected || IsSimulated(u))) &&
      (forall s :: s in connected ==> s != "" && !IsSimulated(s))
    }

    /** `const users = {}` before any socket connects. */
    constructor ()
      ensures Valid()
      ensures users == [] && connected == {} && outbox == []
    {
      users, connected, outbox := [], {}, [];
    }

    /** `io.on('connection')`: a new socket with a fresh id goes live.  Being
        fresh, its id is not yet a key of `users`. */
    method Connect(s: string)
      requires Valid()
      requires s != "" && !IsSimulated(s) && s !in connected
      modifies this
      ensures Valid()
      ensures connected == old(connected) + {s}
      ensures users == old(users) && outbox == old(outbox)
      ensures s !in users
    {
      connected := connected + {s};
    }

    /** `join room` from socket `p`.  Registers `p`, then picks as partner the
        earliest key other than `p`; if there is one it tells `p` about the
        partner and tells the partner, when it is a live socket, that `p` joined. */
    method Join(p: string) returns (partner: Option<string>)
      requires Valid() && p in connected
      modifies this
      ensures Valid()
      ensures users == Put(old(users), p) && connected == old(connected)
      ensures p in users
      ensures p in old(users) ==> users == old(users)
      ensures partner == FirstOther(users, p)
      ensures partner.None? <==> forall u :: u in users ==> u == p
      ensures partner.Some? && IsSimulated(partner.value) ==> partner.value !in connected
      ensures partner.None? ==> outbox == old(outbox)
      ensures partner.Some? ==>
                outbox == old(outbox) + [Emission({p}, OtherUser, Peer(partner.value))] +
                          (if partner.value in connected then [Emission({partner.value}, UserJoined, Peer(p))] else [])
      ensures forall x :: Inbox(outbox, x) ==
                Inbox(old(outbox), x) +
                (if partner.Some? && x == p then [Notice(OtherUser, Peer(partner.value))] else []) +
                (if partner.Some? && x == partner.value && x in connected then [Notice(UserJoined, Peer(p))] else [])
    {
      users := Put(users, p);
      assert Valid();
      partner := FirstOther(users, p);
      assert partner.Some? ==> partner.value in users && partner.value != "";
      if partner.Some? && partner.value != "" {
        var o := partner.value;
        ghost var before := outbox;
        outbox := outbox + Emit({p}, OtherUser, Peer(o));
        ghost var middle := outbox;
        // socket.to(...) never echoes to the emitting socket itself
        outbox := outbox + Emit({o} * connected - {p}, UserJoined, Peer(p));
        assert {o} * connected - {p} == if o in connected then {o} else {};
        forall x
          ensures Inbox(outbox, x) ==
                  Inbox(before, x) + (if x == p then [Notice(OtherUser, Peer(o))] else []) +
                  (if x == o && x in connected then [Notice(UserJoined, Peer(p))] else [])
        {
          EmitInbox(before, {p}, OtherUser, Peer(o), x);
          EmitInbox(middle, {o} * connected - {p}, UserJoined, Peer(p), x);
        }
      }
    }

    /** `offer`, `answer` and `ice-candidate`: the client's object goes out
        unchanged, under the same event name, to the socket it names as
        `target`, and to nobody when that socket is not live. */
    method Relay(kind: SignalKind, message: SignalMessage)
      requires Valid()
      modifies this
      ensures Valid()
      ensures users == old(users) && connected == old(connected)
      ensures outbox == old(outbox) +
                (if message.target in connected then [Emission({message.target}, Relayed(kind), Signal(message))] else [])
      ensures forall x :: Inbox(outbox, x) ==
                Inbox(old(outbox), x) +
                (if x == message.target && x in connected then [Notice(Relayed(kind), Signal(message))] else [])
    {
      var t := message.target;
      assert {t} * connected == if t in connected then {t} else {};
      forall x
        ensures Inbox(outbox + Emit({t} * connected, Relayed(kind), Signal(message)), x) ==
                Inbox(outbox, x) + (if x == t && x in connected then [Notice(Relayed(kind), Signal(message))] else [])
      {
        EmitInbox(outbox, {t} * connected, Relayed(kind), Signal(message), x);
      }
      outbox := outbox + Emit({t} * connected, Relayed(kind), Signal(message));
    }

    /** `disconnect` of socket `s`: the socket is gone and its key is deleted,
        the other keys keep their order, and nothing is sent.  No later join
        can pick `s` as partner while it stays out of `users`. */
    method Disconnect(s: string)
      requires Valid() && s in connected
      modifies this
      ensures Valid()
      ensures users == Remove(old(users), s) && s !in users
      ensures s !in old(users) ==> users == old(users)
      ensures connected == old(connected) - {s}
      ensures outbox == old(outbox)
      ensures forall q :: FirstOther(Put(users, q), q) != Some(s)
    {
      connected := connected - {s};
      users := Remove(users, s);
      forall q ensures FirstOther(Put(users, q), q) != Some(s) {
        AbsentNeverPartner(users, s, q);
      }
    }

    /** The interval timer: the id `simulated-<stamp>` becomes a key and every
        live socket is told it joined.  The id never belongs to a live socket. */
    method SimAdd(stamp: nat) returns (u: string)
      requires Valid()
      modifies this
      ensures Valid()
      ensures u == SimulatedId(stamp) && u !in connected
      ensures users == Put(old(users), u) && connected == old(connected)
      ensures u !in old(users) ==> users == old(users) + [u]
      ensures outbox == old(outbox) + Emit(connected, UserJoined, Peer(u))
      ensures forall x :: Inbox(outbox, x) ==
                Inbox(old(outbox), x) + (if x in connected then [Notice(UserJoined, Peer(u))] else [])
    {
      u := SimulatedId(stamp);
      users := Put(users, u);
      forall x
        ensures Inbox(outbox + Emit(connected, UserJoined, Peer(u)), x) ==
                Inbox(outbox, x) + (if x in connected then [Notice(UserJoined, Peer(u))] else [])
      {
        EmitInbox(outbox, connected, UserJoined, Peer(u), x);
      }
      outbox := outbox + Emit(connected, UserJoined, Peer(u));
    }

    /** The timeout set by the interval for `stamp`: the id `simulated-<stamp>`
        is deleted, no other key moves, and every live socket is told it left. */
    method SimRemove(stamp: nat) returns (u: string)
      requires Valid()
      modifies this
      ensures Valid()
      ensures u == SimulatedId(stamp)
      ensures users == Remove(old(users), u) && connected == old(connected)
      ensures outbox == old(outbox) + Emit(connected, UserLeft, Peer(u))
      ensures forall x :: Inbox(outbox, x) ==
                Inbox(old(outbox), x) + (if x in connected then [Notice(UserLeft, Peer(u))] else [])
    {
      u := SimulatedId(stamp);
      users := Remove(users, u);
      forall x
        ensures Inbox(outbox + Emit(connected, UserLeft, Peer(u)), x) ==
                Inbox(outbox, x) + (if x in connected then [Notice(UserLeft, Peer(u))] else [])
      {
        EmitInbox(outbox, connected, UserLeft, Peer(u), x);
      }
      outbox := outbox + Emit(connected, UserLeft, Peer(u));
    }
  }

  /** Three sockets join one after the other: the second and the third are both
      paired with the first, so a participant can have two partners at once. */
  method ThreeJoinersShareOnePartner()
  {
    var srv := new SignalServer();
    srv.Connect("A");
    srv.Connect("B");
    srv.Connect("C");
    var pa := srv.Join("A");
    assert srv.users == ["A"];
    assert pa == None;
    var pb := srv.Join("B");
    assert srv.users == ["A", "B"];
    FirstOtherIsEarliest(srv.users, "B", 0);
    var pc := srv.Join("C");
    assert srv.users == ["A", "B", "C"];
    FirstOtherIsEarliest(srv.users, "C", 0);
    assert pb == pc == Some("A");
  }

  /** The client sends `join room` twice; the second leaves `users` as it was. */
  method RepeatedJoinKeepsOrder()
  {
    var srv := new SignalServer();
    srv.Connect("A");
    srv.Connect("B");
    var _ := srv.Join("A");
    var _ := srv.Join("B");
    var p := srv.Join("A");
    assert srv.users == ["A", "B"];
    assert p == Some("B");
  }

  /** A simulated id can be handed to a real socket as its partner, but the
      `user joined` meant for it reaches nobody, and neither does an offer. */
  method SimulatedPartnerIsUnreachable(stamp: nat)
  {
    var srv := new SignalServer();
    srv.Connect("A");
    var u := srv.SimAdd(stamp);
    var p := srv.Join("A");
    assert srv.users == [u, "A"];
    assert p == Some(u);
    assert Inbox(srv.outbox, u) == [];
    srv.Relay(Offer, SignalMessage(u, "sdp"));
    assert Inbox(srv.outbox, u) == [];
  }

  /** After `B` disconnects, a candidate that `A` addresses to `B` is dropped. */
  method RelayToDepartedIsDropped()
  {
    var srv := new SignalServer();
    srv.Connect("A");
    srv.Connect("B");
    var _ := srv.Join("A");
    var _ := srv.Join("B");
    srv.Disconnect("B");
    var before := srv.outbox;
    srv.Relay(IceCandidate, SignalMessage("B", "candidate"));
    assert srv.outbox == before;
    assert srv.users == ["A"];
  }
}
