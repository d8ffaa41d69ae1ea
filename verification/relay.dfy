/** The rendezvous server's pairing logic, `RelayServer.handleConn`
    (server.go:42-106).

    A handler is a state machine over the shared pairing table `connMappings`
    and an outbox recording which response was written on which connection.
    Its steps are: decode and register under MyID; wait until PeerID is in
    the table (the sleep-poll loop, a step that is enabled only then); answer
    its own connection; answer the peer's stored connection; evict PeerID.
    Connections are identified by abstract ids. `Step` is the specification
    of one step; the class `RelayServer` performs the same steps in place on
    its fields; `MirroredHandlersPair` proves the matching rule for two
    handlers under any interleaving of their steps. */
module Relay {
  import opened Wrappers
  import opened Messages

  /** A control connection, by identity. */
  type ConnId = nat

  /** An entry of the pairing table (the `Mapping` struct). */
  datatype Mapping = Mapping(publicAddr: string, privateAddr: string, conn: ConnId)

  /** A response written on a connection. */
  datatype Delivery = Delivery(to: ConnId, resp: DialResp)

  /** The shared state: the pairing table and everything written so far. */
  datatype ServerState = ServerState(connMappings: map<string, Mapping>, outbox: seq<Delivery>)

  /** Why a handler returned an error. */
  datatype HandlerError = DecodeFailed | OwnSendFailed | PeerSendFailed

  /** Where a handler is in handleConn, with what it has learned so far. */
  datatype Handler =
    | Accepted(conn: ConnId, remoteAddr: string, incoming: Option<DialReq>)
    | Waiting(conn: ConnId, req: DialReq, mine: Mapping)
    | Paired(conn: ConnId, req: DialReq, mine: Mapping, peer: Mapping)
    | AnsweredSelf(conn: ConnId, req: DialReq, mine: Mapping, peer: Mapping)
    | AnsweredBoth(conn: ConnId, req: DialReq, mine: Mapping, peer: Mapping)
    | Finished
    | Aborted(reason: HandlerError)

  /** The response written on the handler's own connection: the peer's addresses. */
  function ToSelf(req: DialReq, peer: Mapping): DialResp {
    DialResp(req.peerId, peer.publicAddr, peer.privateAddr)
  }

  /** The response written on the peer's connection: this handler's addresses. */
  function ToPeer(req: DialReq, mine: Mapping): DialResp {
    DialResp(req.myId, mine.publicAddr, mine.privateAddr)
  }

  /** Registration (server.go:61-63): `id` now maps to `m`, whatever it mapped
      to before; every other key keeps its entry; nothing is written. */
  function Register(s: ServerState, id: string, m: Mapping): (r: ServerState)
    ensures r.connMappings.Keys == s.connMappings.Keys + {id}
    ensures r.connMappings[id] == m
    ensures forall k :: k in s.connMappings && k != id ==> r.connMappings[k] == s.connMappings[k]
    ensures r.outbox == s.outbox
  {
    s.(connMappings := s.connMappings[id := m])
  }

  /** Eviction (server.go:101-103): only `id` leaves the table. */
  function Evict(s: ServerState, id: string): (r: ServerState)
    ensures r.connMappings.Keys == s.connMappings.Keys - {id}
    ensures forall k :: k in r.connMappings ==> r.connMappings[k] == s.connMappings[k]
    ensures r.outbox == s.outbox
  {
    s.(connMappings := s.connMappings - {id})
  }

  /** One step of a handler; `sendOk` says whether the encoder's write
      succeeds, when the step writes. None: the handler has no step (it is
      waiting for an absent peer, or it has returned). */
  function Step(s: ServerState, h: Handler, sendOk: bool): (r: Option<(ServerState, Handler)>)
    // a decode failure returns before any table change or write
    ensures h.Accepted? && h.incoming.None? ==> r == Some((s, Aborted(DecodeFailed)))
    // a decoded request is registered under MyID with the connection's
    // remote address, the reported private address and the connection
    ensures h.Accepted? && h.incoming.Some? ==>
      var req := h.incoming.value;
      var mine := Mapping(h.remoteAddr, req.myPrivateAddr, h.conn);
      r == Some((Register(s, req.myId, mine), Waiting(h.conn, req, mine)))
    // the wait ends only when PeerID is registered, with the entry found
    ensures h.Waiting? ==> (r.Some? <==> h.req.peerId in s.connMappings)
    ensures h.Waiting? && r.Some? ==>
      r.value == (s, Paired(h.conn, h.req, h.mine, s.connMappings[h.req.peerId]))
    // the first write goes to the own connection and describes the peer
    ensures h.Paired? && sendOk ==>
      r == Some((s.(outbox := s.outbox + [Delivery(h.conn, DialResp(h.req.peerId, h.peer.publicAddr, h.peer.privateAddr))]),
                 AnsweredSelf(h.conn, h.req, h.mine, h.peer)))
    // the second write goes to the peer's stored connection and describes
    // this handler's own registration
    ensures h.AnsweredSelf? && sendOk ==>
      r == Some((s.(outbox := s.outbox + [Delivery(h.peer.conn, DialResp(h.req.myId, h.mine.publicAddr, h.mine.privateAddr))]),
                 AnsweredBoth(h.conn, h.req, h.mine, h.peer)))
    // a failed write ends the handler with nothing changed: no further
    // write, no eviction
    ensures h.Paired? && !sendOk ==> r == Some((s, Aborted(OwnSendFailed)))
    ensures h.AnsweredSelf? && !sendOk ==> r == Some((s, Aborted(PeerSendFailed)))
    // after both writes, PeerID alone is evicted; MyID stays
    ensures h.AnsweredBoth? ==> r == Some((Evict(s, h.req.peerId), Finished))
    // a handler that has returned takes no further step
    ensures h.Finished? || h.Aborted? ==> r.None?
  {
    match h
    case Accepted(conn, remoteAddr, incoming) =>
      (match incoming
       case None => Some((s, Aborted(DecodeFailed)))
       case Some(req) =>
         var mine := Mapping(remoteAddr, req.myPrivateAddr, conn);
         Some((Register(s, req.myId, mine), Waiting(conn, req, mine))))
    case Waiting(conn, req, mine) =>
      if req.peerId in s.connMappings
      then Some((s, Paired(conn, req, mine, s.connMappings[req.peerId])))
      else None
    case Paired(conn, req, mine, peer) =>
      if sendOk
      then Some((s.(outbox := s.outbox + [Delivery(conn, ToSelf(req, peer))]), AnsweredSelf(conn, req, mine, peer)))
      else Some((s, Aborted(OwnSendFailed)))
    case AnsweredSelf(conn, req, mine, peer) =>
      if sendOk
      then Some((s.(outbox := s.outbox + [Delivery(peer.conn, ToPeer(req, mine))]), AnsweredBoth(conn, req, mine, peer)))
      else Some((s, Aborted(PeerSendFailed)))
    case AnsweredBoth(conn, req, mine, peer) =>
      Some((Evict(s, req.peerId), Finished))
    case Finished => None
    case Aborted(_) => None
  }

  /** The server object: its pairing table, and the responses it has written. */
  class RelayServer {
    var connMappings: map<string, Mapping>
    var outbox: seq<Delivery>

    /** A server with an empty table (main.go:41-43). */
    constructor ()
      ensures connMappings == map[] && outbox == []
    {
      connMappings := map[];
      outbox := [];
    }

    function State(): ServerState
      reads this
    {
      ServerState(connMappings, outbox)
    }

    /** Decode the request and register it under MyID (server.go:43-63). */
    method Accept(conn: ConnId, remoteAddr: string, incoming: Option<DialReq>) returns (h: Handler)
      modifies this
      ensures Step(old(State()), Accepted(conn, remoteAddr, incoming), true) == Some((State(), h))
    {
      match incoming {
        case None =>
          h := Aborted(DecodeFailed);
        case Some(req) =>
          var mine := Mapping(remoteAddr, req.myPrivateAddr, conn);
          connMappings := connMappings[req.myId := mine];
          h := Waiting(conn, req, mine);
      }
    }

    /** One pass of the polling loop (server.go:67-78): the entry for PeerID
        if there is one; otherwise the handler keeps waiting. */
    method Poll(h: Handler) returns (next: Handler)
      requires h.Waiting?
      ensures h.req.peerId in connMappings ==> Step(State(), h, true) == Some((State(), next))
      ensures h.req.peerId !in connMappings ==> next == h
    {
      if h.req.peerId in connMappings {
        next := Paired(h.conn, h.req, h.mine, connMappings[h.req.peerId]);
      } else {
        next := h;
      }
    }

    /** Write the peer's addresses on the own connection (server.go:80-88). */
    method AnswerSelf(h: Handler, sendOk: bool) returns (next: Handler)
      requires h.Paired?
      modifies this
      ensures Step(old(State()), h, sendOk) == Some((State(), next))
    {
      if sendOk {
        outbox := outbox + [Delivery(h.conn, ToSelf(h.req, h.peer))];
        next := AnsweredSelf(h.conn, h.req, h.mine, h.peer);
      } else {
        next := Aborted(OwnSendFailed);
      }
    }

    /** Write this handler's addresses on the peer's connection (server.go:90-99). */
    method AnswerPeer(h: Handler, sendOk: bool) returns (next: Handler)
      requires h.AnsweredSelf?
      modifies this
      ensures Step(old(State()), h, sendOk) == Some((State(), next))
    {
      if sendOk {
        outbox := outbox + [Delivery(h.peer.conn, ToPeer(h.req, h.mine))];
        next := AnsweredBoth(h.conn, h.req, h.mine, h.peer);
      } else {
        next := Aborted(PeerSendFailed);
      }
    }

    /** Remove the peer's entry (server.go:101-105). */
    method EvictPeer(h: Handler) returns (next: Handler)
      requires h.AnsweredBoth?
      modifies this
      ensures Step(old(State()), h, true) == Some((State(), next))
    {
      connMappings := connMappings - {h.req.peerId};
      next := Finished;
    }
  }

  // =====================================================================
  // Two mirrored handlers

  /** One side of a pairing: its identifier, its control connection, the
      address the server observes for it, and the address it reports. */
  datatype Party = Party(id: string, conn: ConnId, remoteAddr: string, privateAddr: string)

  /** The request a party sends to reach `other`. */
  function RequestOf(me: Party, other: Party): DialReq {
    DialReq(other.id, me.id, me.privateAddr)
  }

  /** The table entry the server makes for a party. */
  function EntryOf(me: Party): Mapping {
    Mapping(me.remoteAddr, me.privateAddr, me.conn)
  }

  /** The response that tells its reader about `me`. */
  function Describe(me: Party): DialResp {
    DialResp(me.id, me.remoteAddr, me.privateAddr)
  }

  /** Two handlers and the state they share. */
  datatype Pair = Pair(s: ServerState, a: Handler, b: Handler)

  /** A step of the first (`first`) or the second handler, writes succeeding. */
  function Move(p: Pair, first: bool): Option<Pair> {
    if first then
      match Step(p.s, p.a, true)
      case None => None
      case Some((s', a')) => Some(Pair(s', a', p.b))
    else
      match Step(p.s, p.b, true)
      case None => None
      case Some((s', b')) => Some(Pair(s', p.a, b'))
  }

  /** The state after the steps the schedule names, in order; None if the
      schedule names a handler that has no step at that point. */
  function Interleave(p: Pair, schedule: seq<bool>): Option<Pair>
    decreases |schedule|
  {
    if schedule == [] then Some(p)
    else
      match Move(p, schedule[0])
      case None => None
      case Some(q) => Interleave(q, schedule[1..])
  }

  /** Two handlers for A->B and B->A on their freshly accepted connections. */
  function Start(t: ServerState, x: Party, y: Party): Pair {
    Pair(t, Accepted(x.conn, x.remoteAddr, Some(RequestOf(x, y))), Accepted(y.conn, y.remoteAddr, Some(RequestOf(y, x))))
  }

  /** How far a handler has gone: 0 accepted .. 5 finished, 6 aborted. */
  function Phase(h: Handler): nat {
    match h
    case Accepted(_, _, _) => 0
    case Waiting(_, _, _) => 1
    case Paired(_, _, _, _) => 2
    case AnsweredSelf(_, _, _, _) => 3
    case AnsweredBoth(_, _, _, _) => 4
    case Finished => 5
    case Aborted(_) => 6
  }

  /** The handler of `me` (wanting `other`) at phase `n`. */
  function HandlerAt(n: nat, me: Party, other: Party): Handler
    requires n <= 5
  {
    var req, mine, peer := RequestOf(me, other), EntryOf(me), EntryOf(other);
    if n == 0 then Accepted(me.conn, me.remoteAddr, Some(req))
    else if n == 1 then Waiting(me.conn, req, mine)
    else if n == 2 then Paired(me.conn, req, mine, peer)
    else if n == 3 then AnsweredSelf(me.conn, req, mine, peer)
    else if n == 4 then AnsweredBoth(me.conn, req, mine, peer)
    else Finished
  }

  /** The table holds `t`'s entries, plus x's entry exactly when `inX`, plus
      y's exactly when `inY`. */
  ghost predicate TableIs(m: map<string, Mapping>, t: map<string, Mapping>, x: Party, inX: bool, y: Party, inY: bool) {
    && (forall k :: k in m <==> k in t || (inX && k == x.id) || (inY && k == y.id))
    && (forall k :: k in t ==> m[k] == t[k])
    && (inX ==> m[x.id] == EntryOf(x))
    && (inY ==> m[y.id] == EntryOf(y))
  }

  /** What the handler of `me` at phase `n` has written. */
  function Written(me: Party, other: Party, n: nat): multiset<Delivery> {
    (if n >= 3 then multiset{Delivery(me.conn, Describe(other))} else multiset{})
    + (if n >= 4 then multiset{Delivery(other.conn, Describe(me))} else multiset{})
  }

  /** The state of a run of the handlers of x and y, started on table `t`. */
  ghost predicate PairInv(t: ServerState, x: Party, y: Party, s: ServerState, hx: Handler, hy: Handler) {
    var nx, ny := Phase(hx), Phase(hy);
    && nx <= 5 && ny <= 5
    && hx == HandlerAt(nx, x, y) && hy == HandlerAt(ny, y, x)
    // a handler pairs only with a registered peer
    && (nx >= 2 ==> ny >= 1) && (ny >= 2 ==> nx >= 1)
    // an entry is present from its registration until the other side evicts it
    && TableIs(s.connMappings, t.connMappings, x, nx >= 1 && ny < 5, y, ny >= 1 && nx < 5)
    && |t.outbox| <= |s.outbox| && s.outbox[..|t.outbox|] == t.outbox
    && multiset(s.outbox[|t.outbox|..]) == Written(x, y, nx) + Written(y, x, ny)
  }

  lemma AppendWritten(t: seq<Delivery>, o: seq<Delivery>, d: Delivery)
    requires |t| <= |o| && o[..|t|] == t
    ensures |t| <= |o + [d]| && (o + [d])[..|t|] == t
    ensures multiset((o + [d])[|t|..]) == multiset(o[|t|..]) + multiset{d}
  {
    assert (o + [d])[|t|..] == o[|t|..] + [d];
    assert (o + [d])[..|t|] == o[..|t|];
  }

  /** Registration keeps the invariant. */
  lemma RegisterKeepsPairInv(t: ServerState, x: Party, y: Party, s: ServerState, hx: Handler, hy: Handler)
    requires x.id != y.id && x.id !in t.connMappings && y.id !in t.connMappings
    requires PairInv(t, x, y, s, hx, hy) && Phase(hx) == 0
    ensures PairInv(t, x, y, Register(s, x.id, EntryOf(x)), HandlerAt(1, x, y), hy)
  {
  }

  /** Finding the peer keeps the invariant. */
  lemma PairingKeepsPairInv(t: ServerState, x: Party, y: Party, s: ServerState, hx: Handler, hy: Handler)
    requires x.id != y.id && x.id !in t.connMappings && y.id !in t.connMappings
    requires PairInv(t, x, y, s, hx, hy) && Phase(hx) == 1 && y.id in s.connMappings
    ensures s.connMappings[y.id] == EntryOf(y)
    ensures PairInv(t, x, y, s, HandlerAt(2, x, y), hy)
  {
  }

  /** A write keeps the invariant. */
  lemma WriteKeepsPairInv(t: ServerState, x: Party, y: Party, s: ServerState, hx: Handler, hy: Handler, d: Delivery)
    requires PairInv(t, x, y, s, hx, hy) && (Phase(hx) == 2 || Phase(hx) == 3)
    requires d == (if Phase(hx) == 2 then Delivery(x.conn, Describe(y)) else Delivery(y.conn, Describe(x)))
    ensures PairInv(t, x, y, s.(outbox := s.outbox + [d]), HandlerAt(Phase(hx) + 1, x, y), hy)
  {
    AppendWritten(t.outbox, s.outbox, d);
  }

  /** Eviction keeps the invariant. */
  lemma EvictKeepsPairInv(t: ServerState, x: Party, y: Party, s: ServerState, hx: Handler, hy: Handler)
    requires x.id != y.id && x.id !in t.connMappings && y.id !in t.connMappings
    requires PairInv(t, x, y, s, hx, hy) && Phase(hx) == 4
    ensures PairInv(t, x, y, Evict(s, y.id), Finished, hy)
  {
  }

  /** A step of x's handler keeps the invariant and advances x by one phase. */
  lemma StepKeepsPairInv(t: ServerState, x: Party, y: Party, s: ServerState, hx: Handler, hy: Handler)
    requires x.id != y.id && x.id !in t.connMappings && y.id !in t.connMappings
    requires PairInv(t, x, y, s, hx, hy)
    requires Step(s, hx, true).Some?
    ensures var (s', hx') := Step(s, hx, true).value;
      PairInv(t, x, y, s', hx', hy) && Phase(hx') == Phase(hx) + 1
  {
    var n := Phase(hx);
    if n == 0 {
      RegisterKeepsPairInv(t, x, y, s, hx, hy);
    } else if n == 1 {
      PairingKeepsPairInv(t, x, y, s, hx, hy);
    } else if n == 2 {
      WriteKeepsPairInv(t, x, y, s, hx, hy, Delivery(x.conn, Describe(y)));
    } else if n == 3 {
      WriteKeepsPairInv(t, x, y, s, hx, hy, Delivery(y.conn, Describe(x)));
    } else {
      EvictKeepsPairInv(t, x, y, s, hx, hy);
    }
  }

  /** The invariant does not depend on which handler is called first. */
  lemma PairInvSymmetric(t: ServerState, x: Party, y: Party, s: ServerState, hx: Handler, hy: Handler)
    requires PairInv(t, x, y, s, hx, hy)
    ensures PairInv(t, y, x, s, hy, hx)
  {
  }

  lemma MoveKeepsPairInv(t: ServerState, x: Party, y: Party, p: Pair, first: bool)
    requires x.id != y.id && x.id !in t.connMappings && y.id !in t.connMappings
    requires PairInv(t, x, y, p.s, p.a, p.b)
    requires Move(p, first).Some?
    ensures var q := Move(p, first).value;
      PairInv(t, x, y, q.s, q.a, q.b) && Phase(q.a) + Phase(q.b) == Phase(p.a) + Phase(p.b) + 1
  {
    if first {
      StepKeepsPairInv(t, x, y, p.s, p.a, p.b);
    } else {
      PairInvSymmetric(t, x, y, p.s, p.a, p.b);
      StepKeepsPairInv(t, y, x, p.s, p.b, p.a);
      var q := Move(p, first).value;
      PairInvSymmetric(t, y, x, q.s, q.b, q.a);
    }
  }

  /** No deadlock: until both have finished, one of the handlers has a step. */
  lemma PairProgress(t: ServerState, x: Party, y: Party, p: Pair)
    requires x.id != y.id && x.id !in t.connMappings && y.id !in t.connMappings
    requires PairInv(t, x, y, p.s, p.a, p.b)
    requires Move(p, true).None? && Move(p, false).None?
    ensures p.a == Finished && p.b == Finished
  {
  }

  /** When both have finished, the table is back to what it was and four
      responses were written: two identical ones on each connection, each
      describing the other side. */
  lemma PairOutcome(t: ServerState, x: Party, y: Party, p: Pair)
    requires PairInv(t, x, y, p.s, p.a, p.b)
    requires p.a == Finished && p.b == Finished
    ensures p.s.connMappings == t.connMappings
    ensures |p.s.outbox| == |t.outbox| + 4 && p.s.outbox[..|t.outbox|] == t.outbox
    ensures multiset(p.s.outbox[|t.outbox|..])
         == multiset{Delivery(x.conn, Describe(y)), Delivery(x.conn, Describe(y)),
                     Delivery(y.conn, Describe(x)), Delivery(y.conn, Describe(x))}
  {
    assert p.s.connMappings.Keys == t.connMappings.Keys;
    var delta := p.s.outbox[|t.outbox|..];
    assert |multiset(delta)| == 4;
  }

  lemma {:induction false} InterleaveKeepsPairInv(t: ServerState, x: Party, y: Party, p: Pair, schedule: seq<bool>)
    requires x.id != y.id && x.id !in t.connMappings && y.id !in t.connMappings
    requires PairInv(t, x, y, p.s, p.a, p.b)
    requires Interleave(p, schedule).Some?
    ensures var q := Interleave(p, schedule).value;
      PairInv(t, x, y, q.s, q.a, q.b) && Phase(q.a) + Phase(q.b) == Phase(p.a) + Phase(p.b) + |schedule|
    decreases |schedule|
  {
    if schedule != [] {
      MoveKeepsPairInv(t, x, y, p, schedule[0]);
      InterleaveKeepsPairInv(t, x, y, Move(p, schedule[0]).value, schedule[1..]);
    }
  }

  /** The matching rule. Handlers for A->B and B->A start on a table holding
      neither A nor B. Every interleaving of their steps is at most ten steps
      long, and every interleaving that cannot be extended ends with both
      handlers finished, the table exactly as it was before, and two
      identical responses on each connection, each describing the other side. */
  lemma MirroredHandlersPair(t: ServerState, x: Party, y: Party, schedule: seq<bool>)
    requires x.id != y.id && x.id !in t.connMappings && y.id !in t.connMappings
    requires Interleave(Start(t, x, y), schedule).Some?
    ensures |schedule| <= 10
    ensures var q := Interleave(Start(t, x, y), schedule).value;
      Move(q, true).None? && Move(q, false).None? ==>
        && q.a == Finished && q.b == Finished
        && q.s.connMappings == t.connMappings
        && |q.s.outbox| == |t.outbox| + 4 && q.s.outbox[..|t.outbox|] == t.outbox
        && multiset(q.s.outbox[|t.outbox|..])
           == multiset{Delivery(x.conn, Describe(y)), Delivery(x.conn, Describe(y)),
                       Delivery(y.conn, Describe(x)), Delivery(y.conn, Describe(x))}
  {
    var p := Start(t, x, y);
    assert PairInv(t, x, y, p.s, p.a, p.b) by {
      assert t.outbox[|t.outbox|..] == [];
    }
    InterleaveKeepsPairInv(t, x, y, p, schedule);
    var q := Interleave(p, schedule).value;
    if Move(q, true).None? && Move(q, false).None? {
      PairProgress(t, x, y, q);
      PairOutcome(t, x, y, q);
    }
  }
}
