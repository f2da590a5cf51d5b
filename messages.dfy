/** What the signalling server sends: socket.io events, their payloads, and the
    log of emissions from which each socket's inbox is read off. */
module Messages {

  /** The three negotiation messages the server relays. */
  datatype SignalKind = Offer | Answer | IceCandidate

  /** Event names the server emits: `other user`, `user joined`, `user left`,
      and a relayed `offer`, `answer` or `ice-candidate` under its own name. */
  datatype Event = OtherUser | UserJoined | UserLeft | Relayed(kind: SignalKind)

  /** The object a client sends with a negotiation message.  The server reads
      only `target`; everything else (`caller`, `sdp`, `candidate`) stands here
      as an opaque `body` that is passed on untouched. */
  datatype SignalMessage = SignalMessage(target: string, body: string)

  /** A payload is either a participant id or a relayed client object. */
  datatype Payload = Peer(id: string) | Signal(message: SignalMessage)

  /** One `emit` call as it leaves the server: the set of sockets it reaches,
      the event name and the payload. */
  datatype Emission = Emission(to: set<string>, event: Event, payload: Payload)

  /** What a socket receives: an event name and its payload. */
  datatype Notice = Notice(event: Event, payload: Payload)

  /** The notices a socket `id` receives from a log of emissions, in order.
      A socket that no emission addresses receives nothing, and one that every
      emission addresses receives one notice per emission. */
  function Inbox(log: seq<Emission>, id: string): (r: seq<Notice>)
    ensures |r| <= |log|
    ensures (forall i :: 0 <= i < |log| ==> id !in log[i].to) ==> r == []
    ensures (forall i :: 0 <= i < |log| ==> id in log[i].to) ==> |r| == |log|
  {
    if log == [] then []
    else (if id in log[0].to then [Notice(log[0].event, log[0].payload)] else []) + Inbox(log[1..], id)
  }

  /** The inbox of a socket over two consecutive stretches of the log is the
      inbox of the first stretch followed by that of the second. */
  lemma {:induction false} InboxAppend(a: seq<Emission>, b: seq<Emission>, id: string)
    ensures Inbox(a + b, id) == Inbox(a, id) + Inbox(b, id)
  {
    if a == [] {
      assert a + b == b;
    } else {
      var e := a[0];
      var head := if id in e.to then [Notice(e.event, e.payload)] else [];
      assert (a + b)[0] == e;
      assert (a + b)[1..] == a[1..] + b;
      assert Inbox(a + b, id) == head + Inbox(a[1..] + b, id);
      assert Inbox(a, id) == head + Inbox(a[1..], id);
      InboxAppend(a[1..], b, id);
    }
  }

  /** One `emit` towards the sockets `to`.  When it reaches nobody (a room with
      no live socket) nothing is logged. */
  function Emit(to: set<string>, event: Event, payload: Payload): (r: seq<Emission>)
    ensures to == {} <==> r == []
    ensures |r| <= 1
  {
    if to == {} then [] else [Emission(to, event, payload)]
  }

  /** After one more `emit`, a socket's inbox grows by that notice exactly when
      the socket is among the recipients, and is unchanged otherwise. */
  lemma EmitInbox(log: seq<Emission>, to: set<string>, event: Event, payload: Payload, id: string)
    ensures Inbox(log + Emit(to, event, payload), id) ==
            Inbox(log, id) + (if id in to then [Notice(event, payload)] else [])
  {
    InboxAppend(log, Emit(to, event, payload), id);
  }

  /** The decimal digits of `n`, no leading zeros: JavaScript's rendering of a
      non-negative integer in a template string. */
  function Decimal(n: nat): (r: string)
    ensures |r| >= 1
    ensures forall i :: 0 <= i < |r| ==> '0' <= r[i] <= '9'
    ensures r[0] == '0' ==> n == 0
  {
    if n < 10 then [Digit(n)] else Decimal(n / 10) + [Digit(n % 10)]
  }

  function Digit(d: nat): (c: char)
    requires d < 10
    ensures '0' <= c <= '9' && c as int - '0' as int == d
  {
    ('0' as int + d) as char
  }

  /** Reads a string of decimal digits back as a number. */
  function DecimalValue(s: string): nat
    requires forall i :: 0 <= i < |s| ==> '0' <= s[i] <= '9'
  {
    if s == [] then 0 else 10 * DecimalValue(s[..|s| - 1]) + (s[|s| - 1] as int - '0' as int)
  }

  /** Rendering a number in decimal loses nothing. */
  lemma {:induction false} DecimalRoundTrip(n: nat)
    ensures DecimalValue(Decimal(n)) == n
  {
    if n >= 10 {
      var r := Decimal(n);
      assert r[..|r| - 1] == Decimal(n / 10);
      assert r[|r| - 1] as int - '0' as int == n % 10;
      DecimalRoundTrip(n / 10);
      assert DecimalValue(r) == 10 * (n / 10) + n % 10;
    }
  }

  const SimulatedPrefix: string := "simulated-"

  /** Ids the simulator makes up begin with `simulated-`. */
  predicate IsSimulated(id: string)
  {
    |SimulatedPrefix| <= |id| && id[..|SimulatedPrefix|] == SimulatedPrefix
  }

  /** `simulated-${Date.now()}` for the clock reading `stamp`. */
  function SimulatedId(stamp: nat): (u: string)
    ensures IsSimulated(u)
    ensures u != ""
  {
    SimulatedPrefix + Decimal(stamp)
  }

  /** Distinct stamps give distinct simulated ids. */
  lemma {:induction false} SimulatedIdInjective(a: nat, b: nat)
    requires SimulatedId(a) == SimulatedId(b)
    ensures a == b
  {
    assert SimulatedId(a)[|SimulatedPrefix|..] == Decimal(a);
    assert SimulatedId(b)[|SimulatedPrefix|..] == Decimal(b);
    DecimalRoundTrip(a);
    DecimalRoundTrip(b);
  }
}
