// Keystrokes and pastes from a viewer, on their way through a bridge into a
// terminal that may stop reading. The input is a state with three moves; the
// bridge is a machine over it, whose runs are arbitrary schedules of arriving
// messages, reads, terminal progress and time; and the class and the loop of
// the program are proved against the two.
module AttachInputs {
  import opened Basics

  const ATTACH_MAX_MESSAGE: nat := 65536
  const WRITE_PIECE: nat := ATTACH_MAX_MESSAGE
  const HELD_MAX: nat := 16 * WRITE_PIECE

  // --- The input ----------------------------------------------------------------

  datatype State = State(
    idle: bool,
    writing: Option<Bytes>,
    rest: Bytes,
    held: seq<Bytes>,
    heldBytes: nat,
    deadline: nat)

  function InFlight(s: State): Bytes {
    if s.writing.Some? then s.writing.value else []
  }

  // All that waits, in the order it is to be written.
  function Pending(s: State): Bytes {
    InFlight(s) + s.rest + Concat(s.held)
  }

  predicate HasRoom(s: State) {
    s.heldBytes < HELD_MAX
  }

  predicate Counted(s: State) {
    s.heldBytes == |Concat(s.held)| && forall i :: 0 <= i < |s.held| ==> s.held[i] != []
  }

  // Idle exactly when no write is in flight, and then nothing waits.
  predicate Sound(s: State) {
    && Counted(s)
    && (s.idle <==> s.writing.None?)
    && (s.idle ==> s.rest == [] && s.held == [])
    && (s.writing.Some? ==> 1 <= |s.writing.value| <= WRITE_PIECE)
  }

  function AfterStart(s: State, stall: nat, now: nat): State {
    var n := Min(|s.rest|, WRITE_PIECE);
    s.(writing := Some(s.rest[..n]), rest := s.rest[n..], deadline := now + stall)
  }

  function AfterPush(s: State, bytes: Bytes, stall: nat, now: nat): State {
    if bytes == [] then s
    else if s.idle then AfterStart(s.(idle := false, rest := bytes), stall, now)
    else s.(held := s.held + [bytes], heldBytes := s.heldBytes + |bytes|)
  }

  // The message at the head of the queue becomes the rest.
  function TakeUp(s: State): State
    requires Counted(s)
  {
    if s.rest == [] && s.held != [] then
      s.(rest := s.held[0], held := s.held[1..], heldBytes := s.heldBytes - |s.held[0]|)
    else s
  }

  // The write in flight is done.
  function AfterWrite(s: State, stall: nat, now: nat): State
    requires Counted(s)
  {
    var t := TakeUp(s.(writing := None));
    if t.rest == [] then t.(idle := true) else AfterStart(t, stall, now)
  }

  lemma Cut(a: Bytes, n: nat)
    requires n <= |a|
    ensures a[..n] + a[n..] == a
  {
  }

  lemma Broken(a: Bytes, p: Bytes, q: Bytes, n: nat)
    requires n <= |p|
    ensures a + p[..n] <= a + (p + q)
  {
  }

  // A message goes behind all that waits.
  lemma AfterPushQueues(s: State, bytes: Bytes, stall: nat, now: nat)
    requires Sound(s)
    ensures var v := AfterPush(s, bytes, stall, now);
      && Sound(v) && Pending(v) == Pending(s) + bytes
      && v.heldBytes <= s.heldBytes + |bytes|
      && (s.writing.Some? ==> v.writing == s.writing && v.deadline == s.deadline)
      && (s.writing.None? && bytes != [] ==> v.writing.Some? && v.deadline == now + stall)
  {
    if bytes != [] {
      if s.idle {
        Cut(bytes, Min(|bytes|, WRITE_PIECE));
      } else {
        ConcatOne(s.held, bytes);
        Assoc(InFlight(s) + s.rest, Concat(s.held), bytes);
      }
    }
  }

  lemma TakeUpKeeps(s: State)
    requires Counted(s)
    ensures Counted(TakeUp(s)) && TakeUp(s).rest + Concat(TakeUp(s).held) == s.rest + Concat(s.held)
    ensures TakeUp(s).heldBytes <= s.heldBytes
    ensures TakeUp(s).rest == [] ==> TakeUp(s).held == []
  {
  }

  // A finished write leaves exactly what was behind it, and the next piece of
  // that is in flight unless nothing was.
  lemma AfterWriteShortens(s: State, stall: nat, now: nat)
    requires Sound(s) && s.writing.Some?
    ensures var v := AfterWrite(s, stall, now);
      && Sound(v) && Pending(s) == s.writing.value + Pending(v) && |Pending(v)| < |Pending(s)|
      && v.heldBytes <= s.heldBytes
      && (v.writing.Some? ==> v.deadline == now + stall)
      && (v.idle <==> Pending(v) == [])
  {
    var t := TakeUp(s.(writing := None));
    TakeUpKeeps(s.(writing := None));
    if t.rest != [] {
      Cut(t.rest, Min(|t.rest|, WRITE_PIECE));
    }
    Assoc(s.writing.value, s.rest, Concat(s.held));
  }

  // Idle is exactly: nothing waits.
  lemma IdleIsDone(s: State)
    requires Sound(s)
    ensures s.idle <==> Pending(s) == []
  {
    if !s.idle {
      assert |Pending(s)| >= |InFlight(s)| > 0;
    }
  }

  // --- The bridge ------------------------------------------------------------------

  // `CloseOrGone` is also what the socket makes of a message over its limit.
  datatype Message = Binary(bytes: Bytes) | Resize | ZeroSized | Malformed | CloseOrGone | Other

  datatype End = Open | Ended | Failed | Stalled

  // A bridge and its two ends: the input, the messages that wait in the socket,
  // and how the bridge ended.
  // History: when the write in flight began and how much of it the terminal
  // has, what it had before, what a failed write lost, and all that arrived.
  datatype World = World(
    input: State,
    unread: seq<Message>,
    end: End,
    now: nat,
    started: nat,
    taken: nat,
    written: Bytes,
    lost: Bytes,
    arrived: seq<Message>)

  datatype Event =
    | Tick(dt: nat)
    | Arrive(m: Message)
    | TerminalTakes(n: nat)
    | WriteReturns(ok: bool)
    | DeadlinePasses
    | Poll
    | OutboundDone

  function Begin(stall: nat, now: nat): World {
    World(State(true, None, [], [], 0, now + stall), [], Open, now, now, 0, [], [], [])
  }

  function Received(m: Message): Message {
    if m.Binary? && |m.bytes| > ATTACH_MAX_MESSAGE then CloseOrGone else m
  }

  // A message is read from the socket.
  function Handle(b: World, m: Message, stall: nat): World {
    match m
    case Binary(bytes) =>
      b.(input := AfterPush(b.input, bytes, stall, b.now),
        started := if b.input.writing.None? && bytes != [] then b.now else b.started)
    case Malformed => b.(end := Ended)
    case CloseOrGone => b.(end := Ended)
    case _ => b
  }

  function Wrote(b: World, stall: nat): World
    requires b.input.writing.Some?
  {
    if !Counted(b.input) then b
    else b.(input := AfterWrite(b.input, stall, b.now), written := b.written + b.input.writing.value, taken := 0,
      started := b.now)
  }

  function WriteFailed(b: World): World
    requires b.input.writing.Some? && b.taken <= |b.input.writing.value|
  {
    b.(input := b.input.(writing := None), end := Failed, taken := 0,
      written := b.written + b.input.writing.value[..b.taken], lost := b.input.writing.value[b.taken..])
  }

  predicate WriteMayReturn(b: World, ok: bool) {
    && b.end == Open && b.input.writing.Some? && b.taken <= |b.input.writing.value|
    && (ok ==> b.taken == |b.input.writing.value|)
  }

  // What an event makes of the bridge; one that cannot happen now changes
  // nothing. The socket is polled only while the input has room.
  function Step(b: World, e: Event, stall: nat): World {
    match e
    case Tick(dt) => b.(now := b.now + dt)
    case Arrive(m) => b.(unread := b.unread + [Received(m)], arrived := b.arrived + [Received(m)])
    case TerminalTakes(n) =>
      if b.input.writing.Some? then b.(taken := Min(b.taken + n, |b.input.writing.value|)) else b
    case WriteReturns(ok) =>
      if !WriteMayReturn(b, ok) then b else if ok then Wrote(b, stall) else WriteFailed(b)
    case DeadlinePasses =>
      if b.end == Open && b.input.writing.Some? && b.now >= b.input.deadline then b.(end := Stalled) else b
    case Poll =>
      if b.end == Open && HasRoom(b.input) && b.unread != [] then
        Handle(b.(unread := b.unread[1..]), b.unread[0], stall)
      else b
    case OutboundDone => if b.end == Open then b.(end := Ended) else b
  }

  function Run(b: World, events: seq<Event>, stall: nat): World {
    if events == [] then b else Step(Run(b, events[..|events| - 1], stall), events[|events| - 1], stall)
  }

  // --- What every schedule keeps ----------------------------------------------------

  function BytesIn(m: Message): Bytes {
    if m.Binary? then m.bytes else []
  }

  // The stream some messages carry.
  function Stream(ms: seq<Message>): Bytes {
    if ms == [] then [] else BytesIn(ms[0]) + Stream(ms[1..])
  }

  lemma {:induction false} StreamOne(ms: seq<Message>, m: Message)
    ensures Stream(ms + [m]) == Stream(ms) + BytesIn(m)
  {
    if ms == [] {
      assert (ms + [m])[1..] == [];
    } else {
      StreamOne(ms[1..], m);
      assert (ms + [m])[1..] == ms[1..] + [m];
      Assoc(BytesIn(ms[0]), Stream(ms[1..]), BytesIn(m));
    }
  }

  predicate Fits(m: Message) {
    m.Binary? ==> |m.bytes| <= ATTACH_MAX_MESSAGE
  }

  // Written, lost to a failed write, waiting in the input, and unread in the
  // socket: in this order, all that arrived.
  predicate Conserved(b: World) {
    b.written + (b.lost + (Pending(b.input) + Stream(b.unread))) == Stream(b.arrived)
  }

  ghost predicate Good(b: World, stall: nat) {
    && Conserved(b)
    && Counted(b.input) && b.input.heldBytes < HELD_MAX + ATTACH_MAX_MESSAGE
    && (forall i :: 0 <= i < |b.unread| ==> Fits(b.unread[i]))
    && (if b.end == Failed then b.input.writing.None? else Sound(b.input) && b.lost == [])
    && (if b.input.writing.Some?
      then b.taken <= |b.input.writing.value| && b.input.deadline == b.started + stall
      else b.taken == 0)
    && (b.end == Stalled ==> b.input.writing.Some? && b.now >= b.started + stall)
  }

  // What is in the terminal.
  function Terminal(b: World): Bytes {
    if b.taken <= |InFlight(b.input)| then b.written + InFlight(b.input)[..b.taken] else b.written
  }

  lemma ArriveIsGood(b: World, m: Message, stall: nat)
    requires Good(b, stall)
    ensures Good(Step(b, Arrive(m), stall), stall)
  {
    StreamOne(b.unread, Received(m));
    StreamOne(b.arrived, Received(m));
    var waits, more := Pending(b.input), BytesIn(Received(m));
    Appended(b.written, b.lost, waits, Stream(b.unread), more);
  }

  lemma Appended(a: Bytes, b: Bytes, c: Bytes, d: Bytes, e: Bytes)
    ensures a + (b + (c + (d + e))) == a + (b + (c + d)) + e
  {
  }

  lemma BinaryIsGood(b: World, bytes: Bytes, rest: seq<Message>, stall: nat)
    requires Good(b, stall) && b.end == Open && HasRoom(b.input) && b.unread == [Binary(bytes)] + rest
    ensures Good(Handle(b.(unread := rest), Binary(bytes), stall), stall)
  {
    assert Fits(b.unread[0]);
    assert b.unread[1..] == rest;
    assert forall i :: 0 <= i < |rest| ==> rest[i] == b.unread[i + 1];
    AfterPushQueues(b.input, bytes, stall, b.now);
    Assoc(Pending(b.input), bytes, Stream(rest));
    assert Conserved(Handle(b.(unread := rest), Binary(bytes), stall));
  }

  // A message that carries nothing leaves the stream.
  lemma SkippedIsGood(b: World, end: End, stall: nat)
    requires Good(b, stall) && b.end == Open && (end == Open || end == Ended)
    requires b.unread != [] && !b.unread[0].Binary?
    ensures Good(b.(unread := b.unread[1..], end := end), stall)
  {
    var rest := b.unread[1..];
    assert Stream(b.unread) == [] + Stream(rest) == Stream(rest);
    assert forall i :: 0 <= i < |rest| ==> rest[i] == b.unread[i + 1];
  }

  lemma HandleIsGood(b: World, stall: nat)
    requires Good(b, stall) && b.end == Open && HasRoom(b.input) && b.unread != []
    ensures Good(Step(b, Poll, stall), stall)
  {
    var m, rest := b.unread[0], b.unread[1..];
    if m.Binary? {
      assert b.unread == [m] + rest;
      BinaryIsGood(b, m.bytes, rest, stall);
    } else {
      SkippedIsGood(b, Handle(b, m, stall).end, stall);
      assert Step(b, Poll, stall) == b.(unread := rest, end := Handle(b, m, stall).end);
    }
  }

  lemma WroteIsGood(b: World, stall: nat)
    requires Good(b, stall) && WriteMayReturn(b, true)
    ensures Good(Wrote(b, stall), stall)
    ensures |Pending(Wrote(b, stall).input)| < |Pending(b.input)|
  {
    AfterWriteShortens(b.input, stall, b.now);
    var piece, after := b.input.writing.value, Pending(Wrote(b, stall).input);
    Moved(b.written, piece, after, Stream(b.unread));
  }

  lemma Moved(a: Bytes, p: Bytes, q: Bytes, r: Bytes)
    ensures a + ([] + ((p + q) + r)) == (a + p) + ([] + (q + r))
  {
    assert [] + ((p + q) + r) == p + (q + r);
    assert [] + (q + r) == q + r;
  }

  lemma WriteFailedIsGood(b: World, stall: nat)
    requires Good(b, stall) && WriteMayReturn(b, false)
    ensures Good(WriteFailed(b), stall)
  {
    var piece := b.input.writing.value;
    var behind := b.input.rest + Concat(b.input.held);
    Cut(piece, b.taken);
    Assoc(piece, b.input.rest, Concat(b.input.held));
    assert Pending(WriteFailed(b).input) == behind;
    Lost(b.written, piece[..b.taken], piece[b.taken..], behind, Stream(b.unread));
  }

  lemma Lost(a: Bytes, p: Bytes, q: Bytes, r: Bytes, t: Bytes)
    ensures a + ([] + (((p + q) + r) + t)) == (a + p) + (q + (r + t))
  {
    assert [] + (((p + q) + r) + t) == p + (q + (r + t));
  }

  lemma StepIsGood(b: World, e: Event, stall: nat)
    requires Good(b, stall)
    ensures Good(Step(b, e, stall), stall)
  {
    match e
    case Arrive(m) => ArriveIsGood(b, m, stall);
    case WriteReturns(ok) =>
      if WriteMayReturn(b, ok) {
        if ok {
          WroteIsGood(b, stall);
        } else {
          WriteFailedIsGood(b, stall);
        }
      }
    case Poll =>
      if b.end == Open && HasRoom(b.input) && b.unread != [] {
        HandleIsGood(b, stall);
      }
    case _ =>
  }

  lemma {:induction false} RunIsGood(b: World, events: seq<Event>, stall: nat)
    requires Good(b, stall)
    ensures Good(Run(b, events, stall), stall)
    decreases |events|
  {
    if events != [] {
      RunIsGood(b, events[..|events| - 1], stall);
      StepIsGood(Run(b, events[..|events| - 1], stall), events[|events| - 1], stall);
    }
  }

  // What arrived, told from the events: a message over the limit arrives as the
  // socket's end.
  function Arrivals(events: seq<Event>): seq<Message> {
    if events == [] then []
    else
      var e := events[|events| - 1];
      Arrivals(events[..|events| - 1])
      + if !e.Arrive? then [] else if e.m.Binary? && |e.m.bytes| > ATTACH_MAX_MESSAGE then [CloseOrGone] else [e.m]
  }

  lemma {:induction false} ArrivalsAreRecorded(events: seq<Event>, stall: nat, now: nat)
    ensures Run(Begin(stall, now), events, stall).arrived == Arrivals(events)
    decreases |events|
  {
    if events != [] {
      ArrivalsAreRecorded(events[..|events| - 1], stall, now);
    }
  }

  // At every moment of every schedule: nothing that arrived is lost or out of
  // order but what a failed write dropped; the terminal has a front of it; the
  // queue is bounded; and the bridge stalls only after a write has been in
  // flight for the whole stall bound.
  lemma EveryScheduleKeepsTheStream(events: seq<Event>, stall: nat, now: nat)
    ensures var b := Run(Begin(stall, now), events, stall);
      && b.written + (b.lost + (Pending(b.input) + Stream(b.unread))) == Stream(Arrivals(events))
      && (b.end != Failed ==> b.lost == [])
      && Terminal(b) <= Stream(Arrivals(events))
      && b.input.heldBytes == |Concat(b.input.held)| < HELD_MAX + ATTACH_MAX_MESSAGE
      && (b.end == Stalled ==> b.input.writing.Some? && b.now >= b.started + stall)
  {
    ArrivalsAreRecorded(events, stall, now);
    RunIsGood(Begin(stall, now), events, stall);
    TerminalIsAFront(Run(Begin(stall, now), events, stall), stall);
  }

  // A write that has been in flight for the whole stall bound is given up when
  // its deadline is looked at, with nothing else changed; and not before.
  lemma TheDeadlineEndsTheBridge(b: World, stall: nat)
    requires Good(b, stall) && b.end == Open && b.input.writing.Some?
    ensures Step(b, DeadlinePasses, stall) == if b.now >= b.started + stall then b.(end := Stalled) else b
  {
  }

  // A message that closes, and one that is malformed, ends the bridge when it
  // is read, with the input as it was; any other leaves it open.
  lemma AMessageEndsTheBridgeIfItCloses(b: World, stall: nat)
    requires b.end == Open && HasRoom(b.input) && b.unread != []
    ensures var v := Step(b, Poll, stall);
      && v.unread == b.unread[1..]
      && (v.end == Ended <==> b.unread[0] == Malformed || b.unread[0] == CloseOrGone)
      && (v.end == Open || v.end == Ended)
      && (v.end == Ended ==> v.input == b.input)
  {
  }

  // Once ended a bridge stays so, and writes, reads and starts nothing more.
  lemma {:induction false} AnEndIsAnEnd(b: World, events: seq<Event>, stall: nat)
    requires b.end != Open
    ensures var v := Run(b, events, stall);
      v.end == b.end && v.input == b.input && v.written == b.written && b.unread <= v.unread
    decreases |events|
  {
    if events != [] {
      AnEndIsAnEnd(b, events[..|events| - 1], stall);
    }
  }

  lemma TerminalIsAFront(b: World, stall: nat)
    requires Good(b, stall)
    ensures Terminal(b) <= Stream(b.arrived)
  {
    var all := Stream(b.arrived);
    assert b.written <= all;
    if b.input.writing.Some? {
      var piece := InFlight(b.input);
      var behind := b.input.rest + Concat(b.input.held);
      Assoc(piece, b.input.rest, Concat(b.input.held));
      Moved(b.written, piece, behind, Stream(b.unread));
      assert all == (b.written + piece) + ([] + (behind + Stream(b.unread)));
      assert b.written + piece <= all;
      assert b.written + piece[..b.taken] == (b.written + piece)[..|b.written| + b.taken];
    }
  }

  // --- Left to itself it drains ------------------------------------------------------

  predicate Harmless(m: Message) {
    !m.Malformed? && !m.CloseOrGone?
  }

  // With a terminal that reads: the write in flight goes through, or the next
  // message is read.
  function Turn(b: World, stall: nat): World {
    if b.input.writing.Some? then
      Step(Step(b, TerminalTakes(|b.input.writing.value|), stall), WriteReturns(true), stall)
    else Step(b, Poll, stall)
  }

  function Turns(b: World, n: nat, stall: nat): World
    decreases n
  {
    if n == 0 then b else Turns(Turn(b, stall), n - 1, stall)
  }

  function Work(b: World): nat {
    |Pending(b.input)| + |Stream(b.unread)| + |b.unread|
  }

  lemma WriteTurnWorks(b: World, stall: nat)
    requires Good(b, stall) && b.end == Open && b.input.writing.Some?
    ensures var v := Turn(b, stall);
      Good(v, stall) && v.end == Open && v.arrived == b.arrived && v.unread == b.unread && Work(v) < Work(b)
  {
    var t := Step(b, TerminalTakes(|b.input.writing.value|), stall);
    StepIsGood(b, TerminalTakes(|b.input.writing.value|), stall);
    WroteIsGood(t, stall);
  }

  lemma ReadTurnWorks(b: World, stall: nat)
    requires Good(b, stall) && b.end == Open && b.input.writing.None? && b.unread != [] && Harmless(b.unread[0])
    ensures var v := Turn(b, stall);
      Good(v, stall) && v.end == Open && v.arrived == b.arrived && v.unread == b.unread[1..] && Work(v) < Work(b)
  {
    HandleIsGood(b, stall);
    if b.unread[0].Binary? {
      AfterPushQueues(b.input, b.unread[0].bytes, stall, b.now);
    }
  }

  lemma TurnWorks(b: World, stall: nat)
    requires Good(b, stall) && b.end == Open && forall i :: 0 <= i < |b.unread| ==> Harmless(b.unread[i])
    ensures var v := Turn(b, stall);
      && Good(v, stall) && v.end == Open && v.arrived == b.arrived
      && (forall i :: 0 <= i < |v.unread| ==> Harmless(v.unread[i]))
      && (Work(b) > 0 ==> Work(v) < Work(b))
      && (Work(b) == 0 ==> v == b)
  {
    IdleIsDone(b.input);
    if b.input.writing.Some? {
      WriteTurnWorks(b, stall);
    } else if b.unread != [] {
      ReadTurnWorks(b, stall);
      assert forall i :: 0 <= i < |b.unread| - 1 ==> b.unread[1..][i] == b.unread[i + 1];
    }
  }

  // In at most as many turns as there are bytes and messages waiting, the
  // terminal has everything that arrived.
  lemma {:induction false} EverythingReachesTheTerminal(b: World, n: nat, stall: nat)
    requires Good(b, stall) && b.end == Open && forall i :: 0 <= i < |b.unread| ==> Harmless(b.unread[i])
    requires n >= Work(b)
    ensures var v := Turns(b, n, stall);
      v.end == Open && v.input.idle && v.unread == [] && v.arrived == b.arrived && Terminal(v) == Stream(b.arrived)
    decreases n
  {
    TurnWorks(b, stall);
    if n == 0 {
      IdleIsDone(b.input);
      assert Pending(b.input) == [] && Stream(b.unread) == [];
    } else {
      EverythingReachesTheTerminal(Turn(b, stall), n - 1, stall);
    }
  }

  // --- The program's input -----------------------------------------------------------

  // How a wait on the write in flight ends: the write returns, having taken
  // its whole piece or failed after `took` bytes, or the deadline passes with
  // `took` bytes of it in the terminal.
  datatype Outcome = AllWritten | WriteBroke(took: nat) | DeadlinePassed(took: nat)

  datatype Progress = Advanced | StuckFailed | StuckStalled

  class Input {
    const stall: nat
    var idle: bool
    var writing: Option<Bytes>
    var rest: Bytes
    var held: seq<Bytes>
    var heldBytes: nat
    var deadline: nat
    // What was pushed, what the pieces gone before put in the terminal and how
    // much of the one in flight has, and whether a write failed.
    ghost var pushed: Bytes
    ghost var written: Bytes
    ghost var taken: nat
    ghost var started: nat
    ghost var broken: bool

    function View(): State
      reads this
    {
      State(idle, writing, rest, held, heldBytes, deadline)
    }

    ghost function InTheTerminal(): Bytes
      reads this
    {
      written + if taken <= |InFlight(View())| then InFlight(View())[..taken] else []
    }

    ghost predicate Valid()
      reads this
    {
      && Counted(View())
      && (if broken then !idle && writing.None? && written <= pushed
        else Sound(View()) && written + Pending(View()) == pushed)
      && (if writing.Some? then taken <= |writing.value| && deadline == started + stall else taken == 0)
    }

    constructor (stall: nat, now: nat)
      ensures Valid() && !broken && this.stall == stall
      ensures pushed == [] && written == []
      ensures View() == Begin(stall, now).input
    {
      this.stall := stall;
      idle := true;
      writing := None;
      rest := [];
      held := [];
      heldBytes := 0;
      deadline := now + stall;
      pushed := [];
      written := [];
      taken := 0;
      started := now;
      broken := false;
    }

    predicate IsBusy()
      reads this
    {
      writing.Some?
    }

    // Idle is exactly: all that was pushed is written.
    lemma IdleIsAllWritten()
      requires Valid() && !broken
      ensures idle <==> written == pushed
    {
      IdleIsDone(View());
      if written == pushed {
        assert |Pending(View())| == 0;
      }
    }

    method Start(now: nat)
      requires writing.None? && rest != []
      modifies this`writing, this`rest, this`deadline, this`started, this`taken
      ensures View() == AfterStart(old(View()), stall, now)
      ensures writing.Some? && writing.value + rest == old(rest) && |writing.value| == Min(|old(rest)|, WRITE_PIECE)
      ensures started == now && deadline == now + stall && taken == 0
    {
      var n := Min(|rest|, WRITE_PIECE);
      Cut(rest, n);
      writing := Some(rest[..n]);
      rest := rest[n..];
      deadline := now + stall;
      started := now;
      taken := 0;
    }

    method Push(bytes: Bytes, now: nat)
      requires Valid() && !broken
      modifies this
      ensures Valid() && !broken
      ensures View() == AfterPush(old(View()), bytes, stall, now)
      ensures pushed == old(pushed) + bytes && written == old(written)
      ensures Pending(View()) == old(Pending(View())) + bytes
      ensures old(IsBusy()) ==> heldBytes == old(heldBytes) + |bytes| && writing == old(writing) && rest == old(rest)
      ensures !old(IsBusy()) ==> heldBytes == 0
    {
      ghost var before := View();
      AfterPushQueues(before, bytes, stall, now);
      Assoc(written, Pending(before), bytes);
      pushed := pushed + bytes;
      if bytes != [] {
        if idle {
          idle := false;
          rest := bytes;
          Start(now);
        } else {
          heldBytes := heldBytes + |bytes|;
          held := held + [bytes];
        }
      }
      assert View() == AfterPush(before, bytes, stall, now);
    }

    // The writer is back: the next message is taken up when the last is
    // through, and the next piece started, if any.
    method Next(now: nat)
      requires writing.None? && !idle && Counted(View())
      modifies this`idle, this`writing, this`rest, this`held, this`heldBytes, this`deadline, this`started, this`taken
      ensures View() == AfterWrite(old(View()), stall, now)
      ensures writing.Some? ==> started == now && deadline == now + stall
      ensures taken == 0 || taken == old(taken)
      ensures writing.Some? ==> taken == 0
    {
      if rest == [] && held != [] {
        rest := held[0];
        held := held[1..];
        heldBytes := heldBytes - |rest|;
      }
      if rest == [] {
        idle := true;
      } else {
        Start(now);
      }
    }

    // The piece in flight ends as `outcome` says, and the next is started.
    method Progress(outcome: Outcome, now: nat) returns (r: Progress)
      requires Valid() && IsBusy()
      requires !outcome.AllWritten? ==> outcome.took <= |writing.value|
      requires outcome.DeadlinePassed? ==> now >= deadline
      modifies this
      ensures Valid() && pushed == old(pushed) && heldBytes <= old(heldBytes)
      ensures r == match outcome
        case AllWritten => Advanced
        case WriteBroke(_) => StuckFailed
        case DeadlinePassed(_) => StuckStalled
      ensures r == Advanced ==>
        && !broken && View() == AfterWrite(old(View()), stall, now)
        && written == old(written) + old(writing.value)
        && old(Pending(View())) == old(writing.value) + Pending(View())
        && |Pending(View())| < |old(Pending(View()))|
        && (Pending(View()) != [] ==> IsBusy() && started == now)
      ensures r == StuckStalled ==>
        && View() == old(View()) && written == old(written) && now >= started + stall
        && InTheTerminal() == old(written) + old(writing.value)[..outcome.took]
      ensures r == StuckFailed ==>
        && broken && View() == old(View()).(writing := None) && written == InTheTerminal()
        && InTheTerminal() == old(written) + old(writing.value)[..outcome.took]
    {
      if outcome.DeadlinePassed? {
        taken := outcome.took;
        return StuckStalled;
      }
      if outcome.WriteBroke? {
        Break(outcome.took);
        return StuckFailed;
      }
      Finish(now);
      return Advanced;
    }

    // The write failed after `took` bytes of its piece.
    method Break(took: nat)
      requires Valid() && IsBusy() && took <= |writing.value|
      modifies this`writing, this`written, this`taken, this`broken
      ensures Valid() && broken && View() == old(View()).(writing := None)
      ensures written == old(written) + old(writing.value)[..took]
    {
      Assoc(writing.value, rest, Concat(held));
      Broken(written, writing.value, rest + Concat(held), took);
      written := written + writing.value[..took];
      writing := None;
      taken := 0;
      broken := true;
    }

    // The write put its whole piece in the terminal.
    method Finish(now: nat)
      requires Valid() && IsBusy()
      modifies this
      ensures Valid() && !broken && pushed == old(pushed) && written == old(written) + old(writing.value)
      ensures View() == AfterWrite(old(View()), stall, now)
      ensures old(Pending(View())) == old(writing.value) + Pending(View())
      ensures |Pending(View())| < |old(Pending(View()))| && heldBytes <= old(heldBytes)
      ensures Pending(View()) != [] ==> IsBusy() && started == now
    {
      AfterWriteShortens(View(), stall, now);
      Assoc(written, writing.value, Pending(AfterWrite(View(), stall, now)));
      written := written + writing.value;
      writing := None;
      taken := 0;
      Next(now);
      IdleIsDone(View());
    }

    // With nothing more pushed and no write failing or stalling, everything
    // pushed is written: at most one write for each byte waiting.
    method Drain(now: nat)
      requires Valid() && !broken
      modifies this
      ensures Valid() && idle && !broken
      ensures pushed == old(pushed) && written == pushed
    {
      while IsBusy()
        invariant Valid() && !broken && pushed == old(pushed)
        decreases |Pending(View())|
      {
        var _ := Progress(AllWritten, now);
      }
      IdleIsAllWritten();
    }
  }

  // --- The program's bridge ----------------------------------------------------------

  // The program's input is the machine's.
  ghost predicate Shows(input: Input, b: World, stall: nat)
    reads input
  {
    && input.Valid() && input.stall == stall
    && input.View() == b.input && input.written == b.written
    && (input.broken <==> b.end == Failed)
    && Good(b, stall)
  }

  method WriteArm(input: Input, ok: bool, end: End, taken: nat, ghost b: World, stall: nat, now: nat)
    returns (newEnd: End, newTaken: nat)
    requires Shows(input, b, stall) && end == b.end && taken == b.taken && now == b.now
    modifies input
    ensures var v := Step(b, WriteReturns(ok), stall);
      Shows(input, v, stall) && newEnd == v.end && newTaken == v.taken
  {
    StepIsGood(b, WriteReturns(ok), stall);
    if end != Open || !input.IsBusy() || (ok && taken != |input.writing.value|) {
      return end, taken;
    }
    var p := input.Progress(if ok then AllWritten else WriteBroke(taken), now);
    return if p == StuckFailed then Failed else end, 0;
  }

  method DeadlineArm(input: Input, end: End, taken: nat, ghost b: World, stall: nat, now: nat) returns (newEnd: End)
    requires Shows(input, b, stall) && end == b.end && taken == b.taken && now == b.now
    modifies input
    ensures var v := Step(b, DeadlinePasses, stall); Shows(input, v, stall) && newEnd == v.end
  {
    StepIsGood(b, DeadlinePasses, stall);
    if end != Open || !input.IsBusy() || now < input.deadline {
      return end;
    }
    var _ := input.Progress(DeadlinePassed(taken), now);
    return Stalled;
  }

  method PollArm(input: Input, end: End, unread: seq<Message>, ghost b: World, stall: nat, now: nat)
    returns (newEnd: End, left: seq<Message>)
    requires Shows(input, b, stall) && end == b.end && unread == b.unread && now == b.now
    modifies input
    ensures var v := Step(b, Poll, stall); Shows(input, v, stall) && newEnd == v.end && left == v.unread
  {
    StepIsGood(b, Poll, stall);
    if end != Open || !HasRoom(input.View()) || unread == [] {
      return end, unread;
    }
    newEnd, left := end, unread[1..];
    match unread[0] {
      case Binary(bytes) => input.Push(bytes, now);
      case Malformed => newEnd := Ended;
      case CloseOrGone => newEnd := Ended;
      case _ =>
    }
  }

  // What the environment does leaves the input alone.
  lemma OutsideShows(input: Input, b: World, e: Event, stall: nat)
    requires Shows(input, b, stall) && (e.Tick? || e.Arrive? || e.TerminalTakes? || e.OutboundDone?)
    ensures Shows(input, Step(b, e, stall), stall)
  {
    StepIsGood(b, e, stall);
    assert Step(b, e, stall).input == b.input && Step(b, e, stall).written == b.written;
  }

  // What the program holds besides the input: the messages left in the socket,
  // how the bridge ended, the clock, and what the terminal has of the write.
  datatype Locals = Locals(unread: seq<Message>, end: End, now: nat, taken: nat)

  function LocalsOf(b: World): Locals {
    Locals(b.unread, b.end, b.now, b.taken)
  }

  method Arm(input: Input, e: Event, l: Locals, ghost b: World, stall: nat) returns (v: Locals)
    requires Shows(input, b, stall) && l == LocalsOf(b)
    modifies input
    ensures Shows(input, Step(b, e, stall), stall) && v == LocalsOf(Step(b, e, stall))
  {
    v := l;
    match e {
      case WriteReturns(ok) =>
        var end, taken := WriteArm(input, ok, l.end, l.taken, b, stall, l.now);
        v := l.(end := end, taken := taken);
        UnreadStays(b, e, stall);
      case DeadlinePasses =>
        var end := DeadlineArm(input, l.end, l.taken, b, stall, l.now);
        v := l.(end := end);
      case Poll =>
        var end, unread := PollArm(input, l.end, l.unread, b, stall, l.now);
        v := l.(end := end, unread := unread);
      case _ =>
        v := Outside(input, e, l, b, stall);
    }
  }

  lemma UnreadStays(b: World, e: Event, stall: nat)
    requires e.WriteReturns?
    ensures Step(b, e, stall).unread == b.unread && Step(b, e, stall).now == b.now
  {
  }

  method Outside(input: Input, e: Event, l: Locals, ghost b: World, stall: nat) returns (v: Locals)
    requires Shows(input, b, stall) && l == LocalsOf(b)
    requires e.Tick? || e.Arrive? || e.TerminalTakes? || e.OutboundDone?
    ensures Shows(input, Step(b, e, stall), stall) && v == LocalsOf(Step(b, e, stall))
  {
    OutsideShows(input, b, e, stall);
    match e {
      case Tick(dt) =>
        v := l.(now := l.now + dt);
      case Arrive(m) =>
        v := l.(unread := l.unread + [Received(m)]);
      case TerminalTakes(n) =>
        v := if input.writing.Some? then l.(taken := Min(l.taken + n, |input.writing.value|)) else l;
      case _ =>
        v := if l.end == Open then l.(end := Ended) else l;
    }
  }

  // The bridge's loop over a schedule does what the machine does: the same
  // input, the same messages left in the socket, the same end.
  method Bridge(events: seq<Event>, stall: nat, now: nat) returns (input: Input, l: Locals)
    ensures var b := Run(Begin(stall, now), events, stall);
      input.View() == b.input && input.written == b.written && l == LocalsOf(b)
    ensures input.Valid()
  {
    input := new Input(stall, now);
    l := Locals([], Open, now, 0);
    ghost var b := Begin(stall, now);
    for i := 0 to |events|
      invariant fresh(input) && Shows(input, b, stall) && l == LocalsOf(b)
      invariant b == Run(Begin(stall, now), events[..i], stall)
    {
      assert events[..i + 1][..i] == events[..i];
      l := Arm(input, events[i], l, b, stall);
      b := Step(b, events[i], stall);
    }
    assert events[..|events|] == events;
  }
}
