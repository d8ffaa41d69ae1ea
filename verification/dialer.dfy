/** The peer side of hole punching: `Dial` (dial.go:14-223) and
    `newReusableSocket` (dial.go:225-256).

    Syscalls are answered by oracles and recorded in a trace; file
    descriptors are handed out by a counter. The two attempt loops share a
    one-slot result (`peerConCh`, capacity 1) and the `dialed` flag. A
    schedule of turns interleaves each loop's `dialed` check, the rest of
    its iteration, and the steps of `Dial`'s own goroutine (receive from the
    slot, then set `dialed`). The pure functions specify each piece; the
    class `DialRace` and the method `Dial` perform the same steps in place. */
module Dialer {
  import opened Wrappers
  import opened Messages
  import opened Endpoint

  type Fd = nat

  /** Which of the two attempt loops: towards the peer's public or private address. */
  datatype Side = Public | Private

  /** A syscall issued on behalf of an attempt. */
  datatype Syscall =
    | Socket
    | SetReuseAddr(fd: Fd)
    | SetReusePort(fd: Fd)
    | Bind(fd: Fd, ip: IPv4, port: int)
    | Connect(fd: Fd, ip: IPv4, port: int)
    | Close(fd: Fd)

  datatype Event = Event(side: Side, call: Syscall)

  /** What socket, the two setsockopt calls and bind answer. */
  datatype SocketAnswers = SocketAnswers(socketOk: bool, reuseAddrOk: bool, reusePortOk: bool, bindOk: bool)

  /** What connect answers: a connection, or an error with its text. */
  datatype ConnectAnswer = Established | Refused(text: string)

  /** The answers one iteration of an attempt loop receives. */
  datatype AttemptAnswers = AttemptAnswers(socket: SocketAnswers, connect: ConnectAnswer, fileConnOk: bool)

  /** A connection to the peer, by the descriptor it was made on. */
  datatype Conn = Conn(fd: Fd, side: Side)

  /** Why an attempt loop returned. */
  datatype LoopExit = SawDialed | AddressInUse | Published | Dropped

  /** The text of the one connect error that ends a loop. */
  const ADDRESS_IN_USE: string := "address already in use"

  /** The state the loops share: the one-slot result, the flag, the syscalls
      issued so far, the next descriptor, and every connection ever placed
      in the slot. */
  datatype Race = Race(slot: Option<Conn>, dialed: bool, trace: seq<Event>, nextFd: Fd, published: seq<Conn>)

  /** The first descriptor handed out to an attempt socket. */
  const FIRST_FD: Fd := 3

  function InitRace(): Race {
    Race(None, false, [], FIRST_FD, [])
  }

  // =====================================================================
  // newReusableSocket

  /** The syscalls newReusableSocket issues when everything succeeds:
      socket, SO_REUSEADDR, SO_REUSEPORT, then (once `addr` parses) bind
      to that address. */
  function FullSetup(side: Side, fd: Fd, local: Parsed): seq<Event> {
    [Event(side, Socket), Event(side, SetReuseAddr(fd)), Event(side, SetReusePort(fd))]
    + (if local.err.None? then [Event(side, Bind(fd, local.ip, local.port))] else [])
  }

  /** Every step of newReusableSocket succeeds, given the parse of the local address. */
  predicate SetupOk(local: Parsed, a: SocketAnswers) {
    a.socketOk && a.reuseAddrOk && a.reusePortOk && local.err.None? && a.bindOk
  }

  /** The syscalls issued, the descriptor returned, and whether it succeeded. */
  datatype Setup = Setup(calls: seq<Event>, fd: Fd, ok: bool)

  /** newReusableSocket on the descriptor `fd` the kernel would hand out,
      `local` being the parse of the address to bind. */
  function SocketCalls(side: Side, fd: Fd, local: Parsed, a: SocketAnswers): (r: Setup)
    // the calls follow the fixed order, stopping at the first failure
    ensures 1 <= |r.calls| && r.calls <= FullSetup(side, fd, local)
    ensures |r.calls| == if !a.socketOk then 1
                         else if !a.reuseAddrOk then 2
                         else if !a.reusePortOk || local.err.Some? then 3
                         else 4
    // the descriptor is returned only when every step succeeded, and then
    // it has been bound to `addr`
    ensures r.ok <==> SetupOk(local, a)
    ensures r.ok ==> r.fd == fd && |r.calls| == 4 && r.calls == FullSetup(side, fd, local)
    // a failure returns 0 and closes nothing, even a created socket
    ensures !r.ok ==> r.fd == 0
    ensures forall i :: 0 <= i < |r.calls| ==> !r.calls[i].call.Close?
  {
    var opts := [Event(side, Socket), Event(side, SetReuseAddr(fd)), Event(side, SetReusePort(fd))];
    if !a.socketOk then Setup([Event(side, Socket)], 0, false)
    else if !a.reuseAddrOk then Setup(opts[..2], 0, false)
    else if !a.reusePortOk || local.err.Some? then Setup(opts, 0, false)
    else if !a.bindOk then Setup(opts + [Event(side, Bind(fd, local.ip, local.port))], 0, false)
    else Setup(opts + [Event(side, Bind(fd, local.ip, local.port))], fd, true)
  }

  // =====================================================================
  // One iteration of an attempt loop

  /** A syscall aims where the loop should: binds at the local address,
      connects at the loop's target. */
  predicate AimedCall(c: Syscall, local: Parsed, dest: Parsed) {
    match c
    case Bind(_, ip, port) => local == Parsed(ip, port, None)
    case Connect(_, ip, port) => dest == Parsed(ip, port, None)
    case _ => true
  }

  /** Events of one loop: all on its side, all aimed where they should be. */
  predicate Aimed(events: seq<Event>, side: Side, local: Parsed, dest: Parsed) {
    forall i :: 0 <= i < |events| ==> events[i].side == side && AimedCall(events[i].call, local, dest)
  }

  /** The answers that make an iteration retry. */
  predicate Transient(a: AttemptAnswers, local: Parsed, dest: Parsed) {
    || !SetupOk(local, a.socket)
    || dest.err.Some?
    || (a.connect.Refused? && a.connect.text != ADDRESS_IN_USE)
    || (a.connect.Established? && !a.fileConnOk)
  }

  /** One iteration after the `dialed` check (dial.go:122-163): None means
      `continue`. */
  function Attempt(r: Race, side: Side, local: Parsed, dest: Parsed, a: AttemptAnswers): (out: (Race, Option<LoopExit>))
    ensures out.0.dialed == r.dialed && out.1 != Some(SawDialed)
    ensures r.trace <= out.0.trace && Aimed(out.0.trace[|r.trace|..], side, local, dest)
    // descriptors are handed out only by a successful socket call
    ensures out.0.nextFd == r.nextFd + (if a.socket.socketOk then 1 else 0)
    // socket, address or FileConn failures and foreign connect errors retry;
    // only "address already in use" and an established connection return
    ensures out.1.None? <==> Transient(a, local, dest)
    ensures out.1 == Some(AddressInUse) <==>
      SetupOk(local, a.socket) && dest.err.None? && a.connect == Refused(ADDRESS_IN_USE)
    // an established connection is published when the slot is empty and
    // dropped, unclosed, otherwise
    ensures out.1 == Some(Published) <==> !Transient(a, local, dest) && a.connect.Established? && r.slot.None?
    ensures out.1 == Some(Published) ==>
      out.0.slot == Some(Conn(r.nextFd, side)) && out.0.published == r.published + [Conn(r.nextFd, side)]
    ensures out.1 != Some(Published) ==> out.0.slot == r.slot && out.0.published == r.published
    ensures out.1 == Some(Dropped) ==> r.slot.Some?
  {
    var fd := r.nextFd;
    var setup := SocketCalls(side, fd, local, a.socket);
    var r1 := r.(trace := r.trace + setup.calls, nextFd := if a.socket.socketOk then fd + 1 else fd);
    if !setup.ok then (r1, None)
    else
      var p := dest;
      if p.err.Some? then (r1.(trace := r1.trace + [Event(side, Close(fd))]), None)
      else
        var r2 := r1.(trace := r1.trace + [Event(side, Connect(fd, p.ip, p.port))]);
        match a.connect
        case Refused(text) =>
          var r3 := r2.(trace := r2.trace + [Event(side, Close(fd))]);
          if text == ADDRESS_IN_USE then (r3, Some(AddressInUse)) else (r3, None)
        case Established =>
          if !a.fileConnOk then (r2.(trace := r2.trace + [Event(side, Close(fd))]), None)
          else if r.slot.None? then (r2.(slot := Some(Conn(fd, side)), published := r2.published + [Conn(fd, side)]), Some(Published))
          else (r2, Some(Dropped))
  }

  /** An iteration closes its socket exactly when the socket was set up and
      a later step failed (the target did not parse, connect failed, or
      FileConn failed), and the close is the last thing it does. A socket
      whose setup failed is never closed; neither is a connection dropped
      because the slot was full. */
  lemma AttemptCloses(r: Race, side: Side, local: Parsed, dest: Parsed, a: AttemptAnswers)
    ensures var events := Attempt(r, side, local, dest, a).0.trace[|r.trace|..];
      && (forall i :: 0 <= i < |events| && events[i].call.Close? ==> events[i].call.fd == r.nextFd && i == |events| - 1)
      && (Event(side, Close(r.nextFd)) in events <==>
            SetupOk(local, a.socket) && (dest.err.Some? || a.connect.Refused? || !a.fileConnOk))
  {
    var fd := r.nextFd;
    var setup := SocketCalls(side, fd, local, a.socket);
    var events := Attempt(r, side, local, dest, a).0.trace[|r.trace|..];
    var close := Event(side, Close(fd));
    if !setup.ok {
      assert events == setup.calls;
    } else if dest.err.Some? {
      assert events == setup.calls + [close];
    } else {
      var connect := Event(side, Connect(fd, dest.ip, dest.port));
      if a.connect.Refused? || !a.fileConnOk {
        assert events == setup.calls + [connect, close];
      } else {
        assert events == setup.calls + [connect];
      }
    }
  }

  // =====================================================================
  // A burst of iterations of an attempt loop

  /** The loop (dial.go:117-164) run on one answer per iteration: it checks
      `dialed` first in every iteration. None: it is still running when the
      answers run out. */
  function LoopRun(r: Race, side: Side, local: Parsed, dest: Parsed, answers: seq<AttemptAnswers>): (out: (Race, Option<LoopExit>))
    ensures r.dialed ==> out == (r, Some(SawDialed))
    ensures out.0.dialed == r.dialed
    ensures r.trace <= out.0.trace && Aimed(out.0.trace[|r.trace|..], side, local, dest)
    ensures r.nextFd <= out.0.nextFd
    // at most one connection is published, and only into an empty slot;
    // publishing ends the loop
    ensures out.1 == Some(Published) ==>
      r.slot.None? && out.0.slot.Some? && out.0.slot.value.side == side
      && out.0.published == r.published + [out.0.slot.value]
    ensures out.1 != Some(Published) ==> out.0.slot == r.slot && out.0.published == r.published
    decreases |answers|
  {
    if r.dialed then (r, Some(SawDialed))
    else if answers == [] then (r, None)
    else
      var (r', exit) := Attempt(r, side, local, dest, answers[0]);
      if exit.Some? then (r', exit)
      else LoopRun(r', side, local, dest, answers[1..])
  }

  /** Failures of socket creation, address parsing, FileConn, and connect
      errors other than "address already in use" never end a loop. */
  lemma {:induction false} TransientFailuresNeverExit(r: Race, side: Side, local: Parsed, dest: Parsed, answers: seq<AttemptAnswers>)
    requires !r.dialed
    requires forall i :: 0 <= i < |answers| ==> Transient(answers[i], local, dest)
    ensures LoopRun(r, side, local, dest, answers).1.None?
    decreases |answers|
  {
    if answers != [] {
      var (r', exit) := Attempt(r, side, local, dest, answers[0]);
      TransientFailuresNeverExit(r', side, local, dest, answers[1..]);
    }
  }

  /** A loop that is not told `dialed` returns exactly at the first
      iteration whose answers are not transient, with that iteration's exit. */
  lemma {:induction false} LoopExitsAtFirstDecisive(r: Race, side: Side, local: Parsed, dest: Parsed, answers: seq<AttemptAnswers>, k: nat)
    requires !r.dialed && k < |answers|
    requires forall i :: 0 <= i < k ==> Transient(answers[i], local, dest)
    requires !Transient(answers[k], local, dest)
    ensures var out := LoopRun(r, side, local, dest, answers);
      out.1.Some? && out.1.value != SawDialed
      && (out.1 == Some(AddressInUse) <==> answers[k].connect == Refused(ADDRESS_IN_USE))
    decreases k
  {
    var (r', exit) := Attempt(r, side, local, dest, answers[0]);
    if k > 0 {
      LoopExitsAtFirstDecisive(r', side, local, dest, answers[1..], k - 1);
    }
  }

  // =====================================================================
  // The shared state, in place

  /** The channel `peerConCh`, the flag `dialed`, and the recorded syscalls. */
  class DialRace {
    var slot: Option<Conn>
    var dialed: bool
    var trace: seq<Event>
    var nextFd: Fd
    var published: seq<Conn>

    /** A fresh channel and flag (dial.go:15-16). */
    constructor ()
      ensures State() == InitRace()
    {
      slot, dialed, trace, nextFd, published := None, false, [], FIRST_FD, [];
    }

    function State(): Race
      reads this
    {
      Race(slot, dialed, trace, nextFd, published)
    }

    /** newReusableSocket (dial.go:225-256), issuing its syscalls on `side`'s behalf. */
    method NewReusableSocket(side: Side, addr: string, a: SocketAnswers) returns (fd: Fd, ok: bool)
      modifies this
      ensures var setup := SocketCalls(side, old(nextFd), IpPortToBytes(addr), a);
        && fd == setup.fd && ok == setup.ok
        && State() == old(State()).(trace := old(trace) + setup.calls,
                                    nextFd := if a.socketOk then old(nextFd) + 1 else old(nextFd))
    {
      ghost var t0, setup := trace, SocketCalls(side, nextFd, IpPortToBytes(addr), a);
      fd, ok := 0, false;
      if !a.socketOk {
        trace := trace + [Event(side, Socket)];
        return;
      }
      var s := nextFd;
      nextFd := nextFd + 1;
      trace := trace + [Event(side, Socket), Event(side, SetReuseAddr(s))];
      if !a.reuseAddrOk {
        return;
      }
      trace := trace + [Event(side, SetReusePort(s))];
      assert trace == t0 + [Event(side, Socket), Event(side, SetReuseAddr(s)), Event(side, SetReusePort(s))];
      if !a.reusePortOk {
        return;
      }
      var p := IpPortToBytes(addr);
      if p.err.Some? {
        return;
      }
      trace := trace + [Event(side, Bind(s, p.ip, p.port))];
      assert trace == t0 + setup.calls;
      if !a.bindOk {
        return;
      }
      fd, ok := s, true;
    }

    /** An attempt loop running with nothing interleaved (dial.go:116-165
        for the public side, dial.go:168-217 for the private side); see
        `BurstIsLoopRun` for the same run as a sequence of turns. */
    method AttemptLoop(side: Side, myAddr: string, target: string, answers: seq<AttemptAnswers>) returns (exit: Option<LoopExit>)
      modifies this
      ensures (State(), exit) == LoopRun(old(State()), side, IpPortToBytes(myAddr), IpPortToBytes(target), answers)
    {
      var i := 0;
      while true
        invariant 0 <= i <= |answers|
        invariant LoopRun(State(), side, IpPortToBytes(myAddr), IpPortToBytes(target), answers[i..])
               == LoopRun(old(State()), side, IpPortToBytes(myAddr), IpPortToBytes(target), answers)
        decreases |answers| - i
      {
        if dialed {
          return Some(SawDialed);
        }
        if i == |answers| {
          return None;
        }
        assert answers[i..][0] == answers[i] && answers[i..][1..] == answers[i + 1..];
        exit := Iteration(side, myAddr, target, answers[i]);
        if exit.Some? {
          return;
        }
        i := i + 1;
      }
    }

    /** One iteration after the `dialed` check: a fresh socket bound to
        `myAddr`, the target's parse, connect, FileConn, and the
        non-blocking send into the slot. None means `continue`. */
    method Iteration(side: Side, myAddr: string, target: string, a: AttemptAnswers) returns (exit: Option<LoopExit>)
      modifies this
      ensures (State(), exit) == Attempt(old(State()), side, IpPortToBytes(myAddr), IpPortToBytes(target), a)
    {
      var fd, ok := NewReusableSocket(side, myAddr, a.socket);
      if !ok {
        return None;
      }
      var p := IpPortToBytes(target);
      if p.err.Some? {
        trace := trace + [Event(side, Close(fd))];
        return None;
      }
      trace := trace + [Event(side, Connect(fd, p.ip, p.port))];
      match a.connect {
        case Refused(text) =>
          trace := trace + [Event(side, Close(fd))];
          if text == ADDRESS_IN_USE {
            return Some(AddressInUse);
          }
          return None;
        case Established =>
          if !a.fileConnOk {
            trace := trace + [Event(side, Close(fd))];
            return None;
          }
          if slot.None? {
            slot := Some(Conn(fd, side));
            published := published + [Conn(fd, side)];
            return Some(Published);
          }
          return Some(Dropped);
      }
    }

    /** The receive `<-peerConCh` (dial.go:219), when the slot holds a connection. */
    method Take() returns (c: Conn)
      requires slot.Some?
      modifies this
      ensures c == old(slot).value && State() == old(State()).(slot := None)
    {
      c := slot.value;
      slot := None;
    }

    /** `dialed.Store(true)` (dial.go:220). */
    method Store()
      modifies this
      ensures State() == old(State()).(dialed := true)
    {
      dialed := true;
    }
  }

  // =====================================================================
  // Dial: the handshake with the server, then the race

  /** The answers to Dial's own calls: connecting to the server, the local
      address of that connection, the raw-connection and option calls, the
      request's encoding, and the response (None if it fails to decode). */
  datatype ControlEnv = ControlEnv(
    serverDialOk: bool, localAddr: string, syscallConnOk: bool, controlOk: bool,
    reuseAddrOk: bool, reusePortOk: bool, encodeOk: bool, response: Option<DialResp>)

  datatype DialError =
    | ServerDialFailed | SyscallConnFailed | ControlFailed | ReuseAddrFailed
    | ReusePortFailed | EncodeFailed | DecodeFailed

  /** Dial's own goroutine: waiting on the slot, holding the connection it
      received, or done after setting `dialed`. */
  datatype MainStep = Receiving | Received(conn: Conn) | Stored(conn: Conn)

  /** Where an attempt loop is: at the `dialed` check that opens an
      iteration, past that check in the middle of an iteration, or returned. */
  datatype LoopPos = AtCheck | InIteration | Returned(exit: LoopExit)

  /** A turn of the schedule: a loop's `dialed` check, the rest of a loop's
      iteration, or a step of Dial's goroutine. */
  datatype Turn = Check(side: Side) | Iterate(side: Side, answers: AttemptAnswers) | RunMain

  datatype DialState = DialState(race: Race, main: MainStep, publicPos: LoopPos, privatePos: LoopPos)

  function Pos(d: DialState, side: Side): LoopPos {
    match side
    case Public => d.publicPos
    case Private => d.privatePos
  }

  function WithPos(d: DialState, side: Side, p: LoopPos): DialState {
    match side
    case Public => d.(publicPos := p)
    case Private => d.(privatePos := p)
  }

  /** The parsed local address and the parsed targets of the two loops. */
  datatype Targets = Targets(local: Parsed, publicDest: Parsed, privateDest: Parsed)

  function TargetsOf(myAddr: string, resp: DialResp): Targets {
    Targets(IpPortToBytes(myAddr), IpPortToBytes(resp.peerPublicAddr), IpPortToBytes(resp.peerPrivateAddr))
  }

  function Dest(tg: Targets, side: Side): Parsed {
    match side
    case Public => tg.publicDest
    case Private => tg.privateDest
  }

  /** One turn. A loop at its check returns if `dialed` is set and otherwise
      enters the iteration; a loop inside an iteration finishes it, whatever
      `dialed` has become meanwhile; Dial's goroutine blocks while the slot
      is empty, then sets `dialed`. A turn of a loop that is elsewhere does
      nothing. */
  function TurnStep(d: DialState, tg: Targets, t: Turn): DialState {
    match t
    case Check(side) =>
      if Pos(d, side).AtCheck?
      then WithPos(d, side, if d.race.dialed then Returned(SawDialed) else InIteration)
      else d
    case Iterate(side, a) =>
      if !Pos(d, side).InIteration? then d
      else
        var (r', exit) := Attempt(d.race, side, tg.local, Dest(tg, side), a);
        WithPos(d.(race := r'), side, if exit.Some? then Returned(exit.value) else AtCheck)
    case RunMain =>
      match d.main
      case Receiving =>
        if d.race.slot.Some? then d.(race := d.race.(slot := None), main := Received(d.race.slot.value)) else d
      case Received(c) => d.(race := d.race.(dialed := true), main := Stored(c))
      case Stored(_) => d
  }

  function RunTurns(d: DialState, tg: Targets, turns: seq<Turn>): DialState
    decreases |turns|
  {
    if turns == [] then d else RunTurns(TurnStep(d, tg, turns[0]), tg, turns[1..])
  }

  lemma {:induction false} RunTurnsAppend(d: DialState, tg: Targets, turns: seq<Turn>, more: seq<Turn>)
    ensures RunTurns(d, tg, turns + more) == RunTurns(RunTurns(d, tg, turns), tg, more)
    decreases |turns|
  {
    if turns == [] {
      assert turns + more == more;
    } else {
      assert (turns + more)[0] == turns[0] && (turns + more)[1..] == turns[1..] + more;
      RunTurnsAppend(TurnStep(d, tg, turns[0]), tg, turns[1..], more);
    }
  }

  function InitDial(): DialState {
    DialState(InitRace(), Receiving, AtCheck, AtCheck)
  }

  // ---------------------------------------------------------------------
  // A loop running alone

  /** The turns of one loop running uninterrupted on the given answers: a
      check, then for each answer the rest of an iteration and the next
      check. */
  function Burst(side: Side, answers: seq<AttemptAnswers>): seq<Turn>
    decreases |answers|
  {
    [Check(side)] + if answers == [] then [] else [Iterate(side, answers[0])] + Burst(side, answers[1..])
  }

  /** A returned loop's turns do nothing. */
  lemma {:induction false} ReturnedBurstIdle(d: DialState, tg: Targets, side: Side, answers: seq<AttemptAnswers>)
    requires Pos(d, side).Returned?
    ensures RunTurns(d, tg, Burst(side, answers)) == d
    decreases |answers|
  {
    var rest := if answers == [] then [] else [Iterate(side, answers[0])] + Burst(side, answers[1..]);
    RunTurnsAppend(d, tg, [Check(side)], rest);
    assert RunTurns(d, tg, [Check(side)]) == d;
    if answers != [] {
      RunTurnsAppend(d, tg, [Iterate(side, answers[0])], Burst(side, answers[1..]));
      assert RunTurns(d, tg, [Iterate(side, answers[0])]) == d;
      ReturnedBurstIdle(d, tg, side, answers[1..]);
    }
  }

  /** A loop whose turns follow each other with nothing in between does what
      `LoopRun` specifies: the race ends as `LoopRun` leaves it, and the loop
      has returned with `LoopRun`'s exit, or is still inside an iteration
      when the answers run out. Nothing else changes. */
  lemma {:induction false} BurstIsLoopRun(d: DialState, tg: Targets, side: Side, answers: seq<AttemptAnswers>)
    requires Pos(d, side).AtCheck?
    ensures var (r, exit) := LoopRun(d.race, side, tg.local, Dest(tg, side), answers);
      RunTurns(d, tg, Burst(side, answers))
        == WithPos(d.(race := r), side, if exit.Some? then Returned(exit.value) else InIteration)
    decreases |answers|
  {
    var rest := if answers == [] then [] else [Iterate(side, answers[0])] + Burst(side, answers[1..]);
    RunTurnsAppend(d, tg, [Check(side)], rest);
    var d1 := TurnStep(d, tg, Check(side));
    assert RunTurns(d, tg, [Check(side)]) == d1;
    if d.race.dialed {
      if answers != [] {
        ReturnedBurstIdle(d1, tg, side, answers);
        RunTurnsAppend(d1, tg, [Iterate(side, answers[0])], Burst(side, answers[1..]));
        assert RunTurns(d1, tg, [Iterate(side, answers[0])]) == d1;
        ReturnedBurstIdle(d1, tg, side, answers[1..]);
      }
    } else if answers != [] {
      RunTurnsAppend(d1, tg, [Iterate(side, answers[0])], Burst(side, answers[1..]));
      var d2 := TurnStep(d1, tg, Iterate(side, answers[0]));
      assert RunTurns(d1, tg, [Iterate(side, answers[0])]) == d2;
      var (r', exit) := Attempt(d.race, side, tg.local, Dest(tg, side), answers[0]);
      if exit.Some? {
        ReturnedBurstIdle(d2, tg, side, answers[1..]);
      } else {
        BurstIsLoopRun(d2, tg, side, answers[1..]);
      }
    }
  }

  // ---------------------------------------------------------------------
  // The race

  /** Sides of published connections are distinct and their loops have
      returned; Dial's goroutine holds the first connection ever published,
      the slot holds the second if there is one, and `dialed` is set only
      after the receive. */
  ghost predicate DialInv(d: DialState) {
    var ps := d.race.published;
    && |ps| <= 2
    && (|ps| == 2 ==> ps[0].side != ps[1].side)
    && (forall i :: 0 <= i < |ps| ==> Pos(d, ps[i].side).Returned?)
    && match d.main
       case Receiving =>
         !d.race.dialed && |ps| <= 1 && d.race.slot == (if ps == [] then None else Some(ps[0]))
       case Received(c) =>
         !d.race.dialed && 1 <= |ps| && c == ps[0] && d.race.slot == (if |ps| == 2 then Some(ps[1]) else None)
       case Stored(c) =>
         d.race.dialed && 1 <= |ps| && c == ps[0] && d.race.slot == (if |ps| == 2 then Some(ps[1]) else None)
  }

  /** Every event of a side's loop is aimed at the local address and that
      side's target. */
  ghost predicate TraceAimed(trace: seq<Event>, tg: Targets) {
    forall i :: 0 <= i < |trace| ==> AimedCall(trace[i].call, tg.local, Dest(tg, trace[i].side))
  }

  lemma AimedAppend(trace: seq<Event>, more: seq<Event>, side: Side, tg: Targets)
    requires TraceAimed(trace, tg)
    requires Aimed(more, side, tg.local, Dest(tg, side))
    ensures TraceAimed(trace + more, tg)
  {
    forall i | 0 <= i < |trace + more|
      ensures AimedCall((trace + more)[i].call, tg.local, Dest(tg, (trace + more)[i].side))
    {
      if i >= |trace| {
        assert (trace + more)[i] == more[i - |trace|];
      }
    }
  }

  lemma TurnKeepsDialInv(d: DialState, tg: Targets, t: Turn)
    requires DialInv(d) && TraceAimed(d.race.trace, tg)
    ensures var d' := TurnStep(d, tg, t);
      DialInv(d') && TraceAimed(d'.race.trace, tg) && d.race.trace <= d'.race.trace
  {
    if t.Iterate? && Pos(d, t.side).InIteration? {
      var (r', exit) := Attempt(d.race, t.side, tg.local, Dest(tg, t.side), t.answers);
      assert r'.trace == d.race.trace + r'.trace[|d.race.trace|..];
      AimedAppend(d.race.trace, r'.trace[|d.race.trace|..], t.side, tg);
    }
  }

  lemma {:induction false} RunKeepsDialInv(d: DialState, tg: Targets, turns: seq<Turn>)
    requires DialInv(d) && TraceAimed(d.race.trace, tg)
    ensures var d' := RunTurns(d, tg, turns);
      DialInv(d') && TraceAimed(d'.race.trace, tg) && d.race.trace <= d'.race.trace
    decreases |turns|
  {
    if turns != [] {
      TurnKeepsDialInv(d, tg, turns[0]);
      RunKeepsDialInv(TurnStep(d, tg, turns[0]), tg, turns[1..]);
    }
  }

  /** The number of loops past their `dialed` check, inside an iteration. */
  function InFlight(d: DialState): nat {
    (if d.publicPos.InIteration? then 1 else 0) + (if d.privatePos.InIteration? then 1 else 0)
  }

  /** After `dialed.Store(true)`: a loop at its check returns, so no loop
      enters a new iteration; a loop already inside one finishes it, with at
      most one socket and one publish; once no loop is inside an iteration,
      nothing changes any more. */
  lemma {:induction false} StoreEndsLoops(d: DialState, tg: Targets, turns: seq<Turn>)
    requires d.main.Stored? && d.race.dialed
    ensures var d' := RunTurns(d, tg, turns);
      && d'.main == d.main && d'.race.dialed
      && (forall side :: Pos(d', side).InIteration? ==> Pos(d, side).InIteration?)
      && InFlight(d') <= InFlight(d)
      && d'.race.nextFd + InFlight(d') <= d.race.nextFd + InFlight(d)
      && |d'.race.published| + InFlight(d') <= |d.race.published| + InFlight(d)
      && (InFlight(d') == InFlight(d) ==> d'.race == d.race)
    decreases |turns|
  {
    if turns != [] {
      var t := turns[0];
      var d1 := TurnStep(d, tg, t);
      if t.Iterate? && Pos(d, t.side).InIteration? {
        var (r', exit) := Attempt(d.race, t.side, tg.local, Dest(tg, t.side), t.answers);
        assert |r'.published| <= |d.race.published| + 1;
        assert InFlight(d1) + 1 == InFlight(d);
      } else {
        assert d1.race == d.race && InFlight(d1) == InFlight(d);
      }
      assert forall side :: Pos(d1, side).InIteration? ==> Pos(d, side).InIteration?;
      StoreEndsLoops(d1, tg, turns[1..]);
    }
  }

  /** The outcome of Dial: a connection, an error, or still blocked on the
      slot when the schedule ends. */
  datatype DialOutcome = Connected(conn: Conn) | Failed(err: DialError) | Blocked

  /** What Dial does: the request it sends (if it gets that far), the outcome,
      and the state of the race (if it started). */
  datatype DialRun = DialRun(sent: Option<DialReq>, outcome: DialOutcome, final: Option<DialState>)

  /** The first handshake error, in the order the calls are made. */
  function HandshakeError(env: ControlEnv): Option<DialError> {
    if !env.serverDialOk then Some(ServerDialFailed)
    else if !env.syscallConnOk then Some(SyscallConnFailed)
    else if !env.controlOk then Some(ControlFailed)
    else if !env.reuseAddrOk then Some(ReuseAddrFailed)
    else if !env.reusePortOk then Some(ReusePortFailed)
    else None
  }

  function DialSpec(req: DialReq, env: ControlEnv, turns: seq<Turn>): DialRun {
    match HandshakeError(env)
    case Some(e) => DialRun(None, Failed(e), None)
    case None =>
      var sent := req.(myPrivateAddr := env.localAddr);
      if !env.encodeOk then DialRun(Some(sent), Failed(EncodeFailed), None)
      else
        match env.response
        case None => DialRun(Some(sent), Failed(DecodeFailed), None)
        case Some(resp) =>
          var d := RunTurns(InitDial(), TargetsOf(env.localAddr, resp), turns);
          DialRun(Some(sent), if d.main.Stored? then Connected(d.main.conn) else Blocked, Some(d))
  }

  /** The handshake: the request is sent once the control connection is
      configured, with only MyPrivateAddr rewritten to the connection's local
      address; no loop starts unless the request is sent and a response read,
      and the first failing call decides the error. */
  lemma DialHandshake(req: DialReq, env: ControlEnv, turns: seq<Turn>)
    ensures var run := DialSpec(req, env, turns);
      && (run.sent.Some? <==> HandshakeError(env).None?)
      && (run.sent.Some? ==>
            run.sent.value.myPrivateAddr == env.localAddr
            && run.sent.value.myId == req.myId && run.sent.value.peerId == req.peerId)
      && (run.final.Some? <==> run.sent.Some? && env.encodeOk && env.response.Some?)
      && (HandshakeError(env).Some? ==> run.outcome == Failed(HandshakeError(env).value))
      && (run.sent.Some? && !env.encodeOk ==> run.outcome == Failed(EncodeFailed))
      && (run.sent.Some? && env.encodeOk && env.response.None? ==> run.outcome == Failed(DecodeFailed))
      && (run.outcome.Connected? ==> run.final.Some?)
  {
  }

  /** The race. At most two connections are ever placed in the slot, one per
      side, and each loop publishes at most once. Dial returns the first one
      placed there, and `dialed` is set only after it was taken. Every attempt
      socket is bound to the control connection's local address, and each
      loop connects only to its own target. */
  lemma RaceOutcome(req: DialReq, env: ControlEnv, turns: seq<Turn>)
    requires DialSpec(req, env, turns).final.Some?
    ensures var run := DialSpec(req, env, turns);
      var d := run.final.value;
      var ps := d.race.published;
      && |ps| <= 2 && (|ps| == 2 ==> ps[0].side != ps[1].side)
      && (d.race.dialed <==> run.outcome.Connected?)
      && (run.outcome.Connected? ==> 1 <= |ps| && run.outcome.conn == ps[0])
      && (d.race.slot.Some? ==> |ps| == 2 || run.outcome.Blocked?)
      && TraceAimed(d.race.trace, TargetsOf(env.localAddr, env.response.value))
  {
    var resp := env.response.value;
    RunKeepsDialInv(InitDial(), TargetsOf(env.localAddr, resp), turns);
  }

  /** The answers of an iteration in which every call succeeds. */
  function AllSucceed(): AttemptAnswers {
    AttemptAnswers(SocketAnswers(true, true, true, true), Established, true)
  }

  /** Dial's goroutine empties the slot before it sets `dialed`, so the
      other loop can still publish in between. With both loops connecting on
      their first attempt, one before and one after the receive, two
      connections are published: Dial returns the first, and the second
      stays in the slot, never taken and never closed. */
  lemma LatePublishStaysInSlot(tg: Targets)
    requires tg.local.err.None? && tg.publicDest.err.None? && tg.privateDest.err.None?
    ensures var ok := AllSucceed();
      var d := RunTurns(InitDial(), tg, [Check(Public), Iterate(Public, ok), RunMain,
                                         Check(Private), Iterate(Private, ok), RunMain]);
      && d.race.published == [Conn(FIRST_FD, Public), Conn(FIRST_FD + 1, Private)]
      && d.main == Stored(Conn(FIRST_FD, Public)) && d.race.dialed
      && d.race.slot == Some(Conn(FIRST_FD + 1, Private))
      && Event(Private, Close(FIRST_FD + 1)) !in d.race.trace
  {
    var ok := AllSucceed();
    var turns := [Check(Public), Iterate(Public, ok), RunMain, Check(Private), Iterate(Private, ok), RunMain];
    var d0 := InitDial();
    var d1 := TurnStep(d0, tg, turns[0]);
    var d2 := TurnStep(d1, tg, turns[1]);
    assert d2.race.slot == Some(Conn(FIRST_FD, Public)) && d2.race.nextFd == FIRST_FD + 1;
    var d3 := TurnStep(d2, tg, turns[2]);
    assert d3.main == Received(Conn(FIRST_FD, Public)) && d3.race.slot.None?;
    var d4 := TurnStep(d3, tg, turns[3]);
    var d5 := TurnStep(d4, tg, turns[4]);
    assert d5.race.slot == Some(Conn(FIRST_FD + 1, Private));
    AttemptCloses(d4.race, Private, tg.local, tg.privateDest, ok);
    var d6 := TurnStep(d5, tg, turns[5]);
    assert turns[1..][1..] == turns[2..] && turns[2..][1..] == turns[3..] && turns[3..][1..] == turns[4..];
    assert turns[4..][1..] == turns[5..] && turns[5..][1..] == [];
    calc {
      RunTurns(d0, tg, turns);
      RunTurns(d1, tg, turns[1..]);
      RunTurns(d2, tg, turns[2..]);
      RunTurns(d3, tg, turns[3..]);
      RunTurns(d4, tg, turns[4..]);
      RunTurns(d5, tg, turns[5..]);
      RunTurns(d6, tg, []);
    }
    assert Event(Private, Close(FIRST_FD + 1)) !in d5.race.trace[|d4.race.trace|..];
    assert d5.race.trace == d4.race.trace + d5.race.trace[|d4.race.trace|..];
  }

  /** `dialed` stops a loop only at its next check. A loop that passed its
      check before `dialed.Store(true)` still creates a socket, connects and
      publishes afterwards: here the private loop wins, Dial takes its
      connection and sets `dialed`, and only then does the public loop's
      iteration run, placing a second connection in the emptied slot. */
  lemma PublishAfterStore(tg: Targets)
    requires tg.local.err.None? && tg.publicDest.err.None? && tg.privateDest.err.None?
    ensures var ok := AllSucceed();
      var mid := RunTurns(InitDial(), tg, [Check(Public), Check(Private), Iterate(Private, ok), RunMain, RunMain]);
      var d := RunTurns(mid, tg, [Iterate(Public, ok)]);
      && mid.main == Stored(Conn(FIRST_FD, Private)) && mid.race.dialed && mid.race.slot.None?
      && mid.publicPos.InIteration? && mid.race.trace <= d.race.trace
      && Event(Public, Connect(FIRST_FD + 1, tg.publicDest.ip, tg.publicDest.port)) in d.race.trace[|mid.race.trace|..]
      && d.race.published == [Conn(FIRST_FD, Private), Conn(FIRST_FD + 1, Public)]
      && d.race.slot == Some(Conn(FIRST_FD + 1, Public))
  {
    var ok := AllSucceed();
    var turns := [Check(Public), Check(Private), Iterate(Private, ok), RunMain, RunMain];
    var d0 := InitDial();
    var d1 := TurnStep(d0, tg, turns[0]);
    var d2 := TurnStep(d1, tg, turns[1]);
    var d3 := TurnStep(d2, tg, turns[2]);
    assert d3.race.slot == Some(Conn(FIRST_FD, Private)) && d3.race.nextFd == FIRST_FD + 1;
    var d4 := TurnStep(d3, tg, turns[3]);
    var d5 := TurnStep(d4, tg, turns[4]);
    assert d5.main == Stored(Conn(FIRST_FD, Private)) && d5.race.slot.None? && d5.publicPos.InIteration?;
    assert turns[1..][1..] == turns[2..] && turns[2..][1..] == turns[3..] && turns[3..][1..] == turns[4..];
    assert turns[4..][1..] == [];
    calc {
      RunTurns(d0, tg, turns);
      RunTurns(d1, tg, turns[1..]);
      RunTurns(d2, tg, turns[2..]);
      RunTurns(d3, tg, turns[3..]);
      RunTurns(d4, tg, turns[4..]);
      RunTurns(d5, tg, []);
    }
    var d6 := TurnStep(d5, tg, Iterate(Public, ok));
    assert RunTurns(d5, tg, [Iterate(Public, ok)]) == d6;
    var setup := SocketCalls(Public, FIRST_FD + 1, tg.local, ok.socket);
    assert d6.race.trace[|d5.race.trace|..] == setup.calls + [Event(Public, Connect(FIRST_FD + 1, tg.publicDest.ip, tg.publicDest.port))];
  }

  /** Dial (dial.go:14-223): a fresh channel and flag, the handshake, then the
      turns of the schedule. */
  method Dial(req: DialReq, env: ControlEnv, turns: seq<Turn>) returns (outcome: DialOutcome, sent: Option<DialReq>, race: DialRace)
    ensures fresh(race)
    ensures var run := DialSpec(req, env, turns);
      && outcome == run.outcome && sent == run.sent
      && race.State() == (if run.final.Some? then run.final.value.race else InitRace())
  {
    race := new DialRace();
    sent := None;
    if !env.serverDialOk {
      return Failed(ServerDialFailed), sent, race;
    }
    var myAddress := env.localAddr;
    if !env.syscallConnOk {
      return Failed(SyscallConnFailed), sent, race;
    }
    var request := req.(myPrivateAddr := myAddress);
    if !env.controlOk {
      return Failed(ControlFailed), sent, race;
    }
    if !env.reuseAddrOk {
      return Failed(ReuseAddrFailed), sent, race;
    }
    if !env.reusePortOk {
      return Failed(ReusePortFailed), sent, race;
    }
    sent := Some(request);
    if !env.encodeOk {
      return Failed(EncodeFailed), sent, race;
    }
    if env.response.None? {
      return Failed(DecodeFailed), sent, race;
    }
    var resp := env.response.value;
    var main, publicPos, privatePos := Receiving, AtCheck, AtCheck;
    var i := 0;
    while i < |turns|
      invariant 0 <= i <= |turns|
      invariant RunTurns(DialState(race.State(), main, publicPos, privatePos), TargetsOf(myAddress, resp), turns[i..])
             == RunTurns(InitDial(), TargetsOf(myAddress, resp), turns)
      decreases |turns| - i
    {
      assert turns[i..][1..] == turns[i + 1..];
      match turns[i] {
        case Check(side) =>
          if side == Public && publicPos.AtCheck? {
            publicPos := if race.dialed then Returned(SawDialed) else InIteration;
          } else if side == Private && privatePos.AtCheck? {
            privatePos := if race.dialed then Returned(SawDialed) else InIteration;
          }
        case Iterate(side, a) =>
          if side == Public && publicPos.InIteration? {
            var exit := race.Iteration(Public, myAddress, resp.peerPublicAddr, a);
            publicPos := if exit.Some? then Returned(exit.value) else AtCheck;
          } else if side == Private && privatePos.InIteration? {
            var exit := race.Iteration(Private, myAddress, resp.peerPrivateAddr, a);
            privatePos := if exit.Some? then Returned(exit.value) else AtCheck;
          }
        case RunMain =>
          match main {
            case Receiving =>
              if race.slot.Some? {
                var c := race.Take();
                main := Received(c);
              }
            case Received(c) =>
              race.Store();
              main := Stored(c);
            case Stored(_) =>
          }
      }
      i := i + 1;
    }
    assert turns[|turns|..] == [];
    outcome := if main.Stored? then Connected(main.conn) else Blocked;
  }
}
