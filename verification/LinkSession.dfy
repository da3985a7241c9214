// One connection after another from a sidecar to its daemon, as a machine
// with reconnection behind a backoff. On each connection the current status goes
// out first; requests run on tasks of their own and are answered through the
// connection's queue; a status goes out on every change; and a connection
// that has carried nothing for the idle limit is given up, also by a send
// that is blocked. The daemon, the runner, the publisher of statuses and the
// clock are arbitrary: each run is a sequence of events.
module LinkSessions {
  import opened Basics
  import opened Backoffs

  const RECONNECT_MIN: nat := SECOND
  const RECONNECT_MAX: nat := 30 * SECOND

  // A status frame carries the number of the published status it holds.
  datatype Frame = Status(version: nat) | Reply(id: nat) | Pong

  // Where the link's task stands: sleeping out the backoff, connecting, in
  // the select, or in a send.
  datatype Phase = Asleep(until: nat) | Connecting | Selecting | Sending(frame: Frame)

  // A message from the daemon: a request, any other text or binary frame, a
  // ping, a close, or the end of the stream.
  datatype Message = Request(id: nat) | Other | Ping | Close | Broken

  datatype Link = Link(
    now: nat,
    phase: Phase,
    backoff: nat,
    // since the last connect that succeeded
    sleeps: nat,
    // published statuses, and the number of the last one taken
    version: nat,
    seen: nat,
    closed: bool,
    deadline: nat,
    // requests at work: this connection's, and those of connections before
    tasks: multiset<nat>,
    stale: multiset<nat>,
    queue: seq<nat>,
    // history of this connection
    first: nat,
    heard: nat,
    received: multiset<nat>,
    sent: seq<Frame>)

  datatype Event =
    | Tick(dt: nat)
    | Publish
    | ClosePublisher
    | TaskDone(id: nat, stale: bool)
    | Wake
    | Connected
    | Refused
    | Poll(message: Option<Message>)
    | PollSend(taken: bool)
    | SendFails

  const START: Link :=
    Link(0, Connecting, RECONNECT_MIN, 0, 0, 0, false, 0, multiset{}, multiset{}, [], 0, 0, multiset{}, [])

  // The backoff is slept out, and doubled for the next time.
  function Sleep(l: Link): Link {
    l.(phase := Asleep(l.now + l.backoff), backoff := Min(2 * l.backoff, RECONNECT_MAX), sleeps := l.sleeps + 1)
  }

  // A session starts: a queue of its own, the current status to send first.
  function Open(l: Link, idle: nat): Link {
    l.(phase := Sending(Status(l.version)), backoff := RECONNECT_MIN, sleeps := 0, seen := l.version,
      deadline := l.now + idle, tasks := multiset{}, stale := l.stale + l.tasks, queue := [],
      first := l.version, heard := l.now, received := multiset{}, sent := [])
  }

  // A frame of the daemon's arrived.
  function Hear(l: Link, idle: nat): Link {
    l.(deadline := l.now + idle, heard := l.now)
  }

  function Receive(l: Link, m: Message, idle: nat): Link {
    match m
    case Broken => Sleep(l)
    case Close => Sleep(Hear(l, idle))
    case Ping => Hear(l, idle).(phase := Sending(Pong))
    case Other => Hear(l, idle)
    case Request(id) => Hear(l, idle).(tasks := l.tasks + multiset{id}, received := l.received + multiset{id})
  }

  // The select, in its order: a message that is here, the deadline, a status
  // not seen yet, a reply in the queue.
  function Select(l: Link, message: Option<Message>, idle: nat): Link {
    if message.Some? then Receive(l, message.value, idle)
    else if l.now >= l.deadline then Sleep(l)
    else if l.seen != l.version then l.(seen := l.version, phase := Sending(Status(l.version)))
    else if l.closed then Sleep(l)
    else if l.queue != [] then l.(queue := l.queue[1..], phase := Sending(Reply(l.queue[0])))
    else l
  }

  predicate Up(l: Link) {
    l.phase.Selecting? || l.phase.Sending?
  }

  // What an event makes of the link; None when it cannot happen now.
  function Step(l: Link, e: Event, idle: nat): Option<Link> {
    match e
    case Tick(dt) => Some(l.(now := l.now + dt))
    case Publish => if l.closed then None else Some(l.(version := l.version + 1))
    case ClosePublisher => Some(l.(closed := true))
    case TaskDone(id, stale) =>
      if stale then
        if id in l.stale then Some(l.(stale := l.stale - multiset{id})) else None
      else if id !in l.tasks then None
      // the queue's reader is gone with the connection
      else if !Up(l) then Some(l.(tasks := l.tasks - multiset{id}))
      else Some(l.(tasks := l.tasks - multiset{id}, queue := l.queue + [id]))
    case Wake => if l.phase.Asleep? && l.now >= l.phase.until then Some(l.(phase := Connecting)) else None
    case Connected => if l.phase.Connecting? then Some(Open(l, idle)) else None
    case Refused => if l.phase.Connecting? then Some(Sleep(l)) else None
    case Poll(message) => if l.phase.Selecting? then Some(Select(l, message, idle)) else None
    case PollSend(taken) =>
      if !l.phase.Sending? then None
      else if taken then Some(l.(sent := l.sent + [l.phase.frame], phase := Selecting))
      else if l.now >= l.deadline then Some(Sleep(l))
      else Some(l)
    case SendFails => if l.phase.Sending? then Some(Sleep(l)) else None
  }

  function Run(l: Link, events: seq<Event>, idle: nat): Link
    decreases |events|
  {
    if events == [] then l else
      match Step(l, events[0], idle)
      case Some(next) => Run(next, events[1..], idle)
      case None => Run(l, events[1..], idle)
  }

  // --- What every connection keeps ---------------------------------------------

  // The ids answered among some frames.
  function Answered(frames: seq<Frame>): multiset<nat> {
    if frames == [] then multiset{}
    else Answered(frames[..|frames| - 1]) + AnsweredBy(frames[|frames| - 1])
  }

  function AnsweredBy(f: Frame): multiset<nat> {
    if f.Reply? then multiset{f.id} else multiset{}
  }

  // The last status among some frames.
  function LastStatus(frames: seq<Frame>): Option<nat> {
    if frames == [] then None
    else match frames[|frames| - 1]
      case Status(v) => Some(v)
      case _ => LastStatus(frames[..|frames| - 1])
  }

  // The frames sent, and the one being sent.
  function Outgoing(l: Link): seq<Frame> {
    if l.phase.Sending? then l.sent + [l.phase.frame] else l.sent
  }

  ghost predicate StatusesIncrease(frames: seq<Frame>) {
    forall i, j :: 0 <= i < j < |frames| && frames[i].Status? && frames[j].Status? ==>
      frames[i].version < frames[j].version
  }

  // Every request of this connection is at work, queued, or answered; no
  // answer is to anything else.
  ghost predicate Conserved(l: Link) {
    Answered(Outgoing(l)) + multiset(l.queue) + l.tasks == l.received
  }

  // The statuses going out: the current one first, then newer ones, the last
  // of them the one last taken.
  ghost predicate Informed(l: Link) {
    && Outgoing(l) != []
    && Outgoing(l)[0] == Status(l.first)
    && LastStatus(Outgoing(l)) == Some(l.seen)
    && StatusesIncrease(Outgoing(l))
    && (forall i :: 0 <= i < |Outgoing(l)| && Outgoing(l)[i].Status? ==> Outgoing(l)[i].version <= l.seen)
  }

  ghost predicate Good(l: Link, idle: nat) {
    && l.seen <= l.version
    && l.backoff == Nth(l.sleeps, RECONNECT_MAX)
    && (Up(l) ==> Conserved(l) && Informed(l) && l.deadline == l.heard + idle && l.heard <= l.now)
  }

  lemma AnsweredOneMore(frames: seq<Frame>, f: Frame)
    ensures Answered(frames + [f]) == Answered(frames) + AnsweredBy(f)
    ensures LastStatus(frames + [f]) == if f.Status? then Some(f.version) else LastStatus(frames)
  {
    assert (frames + [f])[..|frames|] == frames;
  }

  lemma SleepIsGood(l: Link, idle: nat)
    requires l.seen <= l.version && l.backoff == Nth(l.sleeps, RECONNECT_MAX)
    ensures Good(Sleep(l), idle)
  {
    NextNth(l.sleeps, RECONNECT_MAX);
  }

  // A new connection has nothing asked of it and its status on the way.
  lemma OpenStartsAnew(l: Link, idle: nat)
    ensures Conserved(Open(l, idle)) && Informed(Open(l, idle))
  {
    AnsweredOneMore([], Status(l.version));
    assert Outgoing(Open(l, idle)) == [] + [Status(l.version)];
  }

  lemma OneMoreFrameInforms(l: Link, v: Link, f: Frame)
    requires Informed(l) && Outgoing(v) == Outgoing(l) + [f] && v.first == l.first
    requires if f.Status? then l.seen < f.version && v.seen == f.version else v.seen == l.seen
    ensures Informed(v)
  {
    AnsweredOneMore(Outgoing(l), f);
    var n := |Outgoing(l)|;
    assert forall i :: 0 <= i < n ==> Outgoing(v)[i] == Outgoing(l)[i];
  }

  // A frame starts on its way out.
  lemma SendIsGood(l: Link, v: Link, f: Frame, idle: nat)
    requires Good(l, idle) && l.phase.Selecting?
    requires v == l.(phase := Sending(f), queue := v.queue, seen := v.seen, deadline := v.deadline, heard := v.heard)
    requires v.deadline == v.heard + idle && v.heard <= v.now
    requires match f
      case Status(n) => n == l.version && l.seen < n && v.seen == n && v.queue == l.queue
      case Reply(id) => l.queue == [id] + v.queue && v.seen == l.seen
      case Pong => v.queue == l.queue && v.seen == l.seen
    ensures Good(v, idle)
  {
    OneMoreFrameInforms(l, v, f);
    AnsweredOneMore(l.sent, f);
    assert multiset(l.queue) == AnsweredBy(f) + multiset(v.queue);
  }

  lemma ReceiveIsGood(l: Link, m: Message, idle: nat)
    requires Good(l, idle) && l.phase.Selecting?
    ensures Good(Receive(l, m, idle), idle)
  {
    match m
    case Broken => SleepIsGood(l, idle);
    case Close => SleepIsGood(Hear(l, idle), idle);
    case Ping => SendIsGood(l, Receive(l, m, idle), Pong, idle);
    case Other => assert Outgoing(Hear(l, idle)) == Outgoing(l);
    case Request(id) => assert Outgoing(Receive(l, m, idle)) == Outgoing(l);
  }

  lemma SelectIsGood(l: Link, message: Option<Message>, idle: nat)
    requires Good(l, idle) && l.phase.Selecting?
    ensures Good(Select(l, message, idle), idle)
  {
    if message.Some? {
      ReceiveIsGood(l, message.value, idle);
    } else if l.now >= l.deadline {
      SleepIsGood(l, idle);
    } else if l.seen != l.version {
      SendIsGood(l, Select(l, message, idle), Status(l.version), idle);
    } else if l.closed {
      SleepIsGood(l, idle);
    } else if l.queue != [] {
      assert l.queue == [l.queue[0]] + l.queue[1..];
      SendIsGood(l, Select(l, message, idle), Reply(l.queue[0]), idle);
    }
  }

  lemma TaskDoneIsGood(l: Link, id: nat, stale: bool, idle: nat)
    requires Good(l, idle) && Step(l, TaskDone(id, stale), idle).Some?
    ensures Good(Step(l, TaskDone(id, stale), idle).value, idle)
  {
    var v := Step(l, TaskDone(id, stale), idle).value;
    assert Outgoing(v) == Outgoing(l);
    if Up(l) {
      assert Informed(v);
      if !stale {
        assert multiset(v.queue) == multiset(l.queue) + multiset{id};
        MovedOver(Answered(Outgoing(l)), multiset(l.queue), l.tasks, id);
      }
    }
  }

  lemma MovedOver(a: multiset<nat>, b: multiset<nat>, c: multiset<nat>, x: nat)
    requires x in c
    ensures a + (b + multiset{x}) + (c - multiset{x}) == a + b + c
  {
  }

  // Events of the environment that leave the connection alone.
  lemma OutsideIsGood(l: Link, e: Event, idle: nat)
    requires Good(l, idle) && (e.Tick? || e.Publish? || e.ClosePublisher?) && Step(l, e, idle).Some?
    ensures Good(Step(l, e, idle).value, idle)
  {
    assert Outgoing(Step(l, e, idle).value) == Outgoing(l);
  }

  lemma PollSendIsGood(l: Link, taken: bool, idle: nat)
    requires Good(l, idle) && l.phase.Sending?
    ensures Good(Step(l, PollSend(taken), idle).value, idle)
  {
    if taken {
      assert Outgoing(Step(l, PollSend(taken), idle).value) == Outgoing(l);
    } else if l.now >= l.deadline {
      SleepIsGood(l, idle);
    }
  }

  lemma StepIsGood(l: Link, e: Event, idle: nat)
    requires Good(l, idle) && Step(l, e, idle).Some?
    ensures Good(Step(l, e, idle).value, idle)
  {
    if e.TaskDone? {
      TaskDoneIsGood(l, e.id, e.stale, idle);
    } else if e.Connected? {
      OpenStartsAnew(l, idle);
    } else if e.Refused? || e.SendFails? {
      SleepIsGood(l, idle);
    } else if e.Poll? {
      SelectIsGood(l, e.message, idle);
    } else if e.PollSend? {
      PollSendIsGood(l, e.taken, idle);
    } else if !e.Wake? {
      OutsideIsGood(l, e, idle);
    }
  }

  lemma {:induction false} RunIsGood(l: Link, events: seq<Event>, idle: nat)
    requires Good(l, idle)
    ensures Good(Run(l, events, idle), idle)
    decreases |events|
  {
    if events != [] {
      match Step(l, events[0], idle)
      case Some(next) =>
        StepIsGood(l, events[0], idle);
        RunIsGood(next, events[1..], idle);
      case None =>
        RunIsGood(l, events[1..], idle);
    }
  }

  // --- What the daemon and the publisher did, told from the events -----------------

  function Next(l: Link, e: Event, idle: nat): Link {
    match Step(l, e, idle) case Some(v) => v case None => l
  }

  lemma {:induction false} RunLast(l: Link, events: seq<Event>, e: Event, idle: nat)
    ensures var s := Run(l, events, idle);
      Run(l, events + [e], idle) == Next(s, e, idle)
    decreases |events|
  {
    var all := events + [e];
    if events == [] {
      assert all == [e] && all[1..] == [];
    } else {
      assert all[0] == events[0] && all[1..] == events[1..] + [e];
      match Step(l, events[0], idle)
      case Some(next) => RunLast(next, events[1..], e, idle);
      case None => RunLast(l, events[1..], e, idle);
    }
  }

  // A connection comes up by the last event.
  predicate ComesUp(before: Link, e: Event) {
    e.Connected? && before.phase.Connecting?
  }

  // The last event brings a message of the daemon's to the select.
  predicate Brings(before: Link, e: Event) {
    e.Poll? && before.phase.Selecting? && e.message.Some? && !e.message.value.Broken?
  }

  // The ids of the requests the daemon sent on the connection last up.
  function Requests(events: seq<Event>, idle: nat): multiset<nat> {
    if events == [] then multiset{}
    else
      var front, e := events[..|events| - 1], events[|events| - 1];
      var before := Run(START, front, idle);
      if ComesUp(before, e) then multiset{}
      else if Brings(before, e) && e.message.value.Request? then Requests(front, idle) + multiset{e.message.value.id}
      else Requests(front, idle)
  }

  // When the daemon was last heard: its connection coming up, or a message.
  function HeardAt(events: seq<Event>, idle: nat): nat {
    if events == [] then 0
    else
      var front, e := events[..|events| - 1], events[|events| - 1];
      var before := Run(START, front, idle);
      if ComesUp(before, e) || Brings(before, e) then Clock(front) else HeardAt(front, idle)
  }

  function Clock(events: seq<Event>): nat {
    if events == [] then 0
    else
      var e := events[|events| - 1];
      Clock(events[..|events| - 1]) + if e.Tick? then e.dt else 0
  }

  // The number of the latest status, each publishing making a new one as long
  // as the publisher is there; and the one current when the connection came up.
  function Published(events: seq<Event>): nat {
    if events == [] then 0
    else
      var front, e := events[..|events| - 1], events[|events| - 1];
      Published(front) + if e.Publish? && ClosePublisher !in front then 1 else 0
  }

  function CurrentAtStart(events: seq<Event>, idle: nat): nat {
    if events == [] then 0
    else
      var front, e := events[..|events| - 1], events[|events| - 1];
      if ComesUp(Run(START, front, idle), e) then Published(front) else CurrentAtStart(front, idle)
  }

  // How often in a row the link has gone to sleep since a connection came up.
  function Sleeps(events: seq<Event>, idle: nat): nat {
    if events == [] then 0
    else
      var front, e := events[..|events| - 1], events[|events| - 1];
      var before, after := Run(START, front, idle), Run(START, events, idle);
      if ComesUp(before, e) then 0
      else if after.phase.Asleep? && !before.phase.Asleep? then Sleeps(front, idle) + 1
      else Sleeps(front, idle)
  }

  // The machine's own record is of what happened.
  ghost predicate Recorded(l: Link, events: seq<Event>, idle: nat) {
    && l.now == Clock(events)
    && l.version == Published(events)
    && (l.closed <==> ClosePublisher in events)
    && l.sleeps == Sleeps(events, idle)
    && l.received == Requests(events, idle)
    && l.heard == HeardAt(events, idle)
    && l.first == CurrentAtStart(events, idle)
  }

  // What one event writes into the record.
  lemma WhatAStepRecordsOfTime(l: Link, e: Event, idle: nat)
    ensures var v := Next(l, e, idle);
      && v.now == l.now + (if e.Tick? then e.dt else 0)
      && v.version == l.version + (if e.Publish? && !l.closed then 1 else 0)
      && (v.closed <==> l.closed || e.ClosePublisher?)
  {
  }

  lemma WhatAStepRecordsOfTheStart(l: Link, e: Event, idle: nat)
    ensures var v := Next(l, e, idle);
      && v.first == (if ComesUp(l, e) then l.version else l.first)
      && v.sleeps == (if ComesUp(l, e) then 0 else if v.phase.Asleep? && !l.phase.Asleep? then l.sleeps + 1 else l.sleeps)
  {
  }

  lemma WhatAStepRecordsOfTheDaemon(l: Link, e: Event, idle: nat)
    ensures var v := Next(l, e, idle);
      && v.received == (if ComesUp(l, e) then multiset{}
        else if Brings(l, e) && e.message.value.Request? then l.received + multiset{e.message.value.id}
        else l.received)
      && v.heard == (if ComesUp(l, e) || Brings(l, e) then l.now else l.heard)
  {
  }

  lemma TimesRecorded(front: seq<Event>, e: Event, idle: nat)
    ensures Clock(front + [e]) == Clock(front) + (if e.Tick? then e.dt else 0)
    ensures Published(front + [e]) == Published(front) + if e.Publish? && ClosePublisher !in front then 1 else 0
    ensures ClosePublisher in front + [e] <==> ClosePublisher in front || e.ClosePublisher?
  {
    assert (front + [e])[..|front|] == front;
  }

  lemma DaemonRecorded(front: seq<Event>, e: Event, idle: nat)
    ensures var before := Run(START, front, idle);
      && Requests(front + [e], idle) == (if ComesUp(before, e) then multiset{}
        else if Brings(before, e) && e.message.value.Request? then Requests(front, idle) + multiset{e.message.value.id}
        else Requests(front, idle))
      && HeardAt(front + [e], idle) == (if ComesUp(before, e) || Brings(before, e) then Clock(front) else HeardAt(front, idle))
      && CurrentAtStart(front + [e], idle) == (if ComesUp(before, e) then Published(front) else CurrentAtStart(front, idle))
  {
    assert (front + [e])[..|front|] == front;
  }

  lemma SleepsRecorded(front: seq<Event>, e: Event, idle: nat)
    ensures var before, after := Run(START, front, idle), Run(START, front + [e], idle);
      Sleeps(front + [e], idle) == if ComesUp(before, e) then 0
        else if after.phase.Asleep? && !before.phase.Asleep? then Sleeps(front, idle) + 1
        else Sleeps(front, idle)
  {
    assert (front + [e])[..|front|] == front;
  }

  lemma RecordOfOneStep(front: seq<Event>, e: Event, idle: nat)
    requires Recorded(Run(START, front, idle), front, idle)
    ensures Recorded(Run(START, front + [e], idle), front + [e], idle)
  {
    RunLast(START, front, e, idle);
    WhatAStepRecordsOfTime(Run(START, front, idle), e, idle);
    WhatAStepRecordsOfTheStart(Run(START, front, idle), e, idle);
    WhatAStepRecordsOfTheDaemon(Run(START, front, idle), e, idle);
    TimesRecorded(front, e, idle);
    DaemonRecorded(front, e, idle);
    SleepsRecorded(front, e, idle);
  }

  lemma {:induction false} EveryRunIsRecorded(events: seq<Event>, idle: nat)
    ensures Recorded(Run(START, events, idle), events, idle)
    decreases |events|
  {
    if events != [] {
      var front, e := events[..|events| - 1], events[|events| - 1];
      assert events == front + [e];
      EveryRunIsRecorded(front, idle);
      RecordOfOneStep(front, e, idle);
    }
  }

  // In every run, on every connection: the first frame is the status current
  // when it came up, what is answered was asked on it and no more often, the
  // statuses only get newer, and the deadline is when the daemon was last heard
  // plus the idle limit.
  lemma EveryConnectionIsSound(events: seq<Event>, idle: nat)
    ensures var l := Run(START, events, idle); Up(l) ==>
      && (l.sent != [] ==> l.sent[0] == Status(CurrentAtStart(events, idle)))
      && Answered(l.sent) <= Requests(events, idle)
      && StatusesIncrease(l.sent)
      && (forall i :: 0 <= i < |l.sent| && l.sent[i].Status? ==> l.sent[i].version <= Published(events))
      && l.deadline == HeardAt(events, idle) + idle
  {
    EveryRunIsGood(events, idle);
    EveryRunIsRecorded(events, idle);
    if Up(Run(START, events, idle)) {
      SentIsSound(Run(START, events, idle), idle);
    }
  }

  lemma EveryRunIsGood(events: seq<Event>, idle: nat)
    ensures Good(Run(START, events, idle), idle)
  {
    assert Nth(0, RECONNECT_MAX) == RECONNECT_MIN;
    RunIsGood(START, events, idle);
  }

  lemma SentIsSound(l: Link, idle: nat)
    requires Good(l, idle) && Up(l)
    ensures l.sent != [] ==> l.sent[0] == Status(l.first)
    ensures Answered(l.sent) <= l.received
    ensures StatusesIncrease(l.sent)
    ensures forall i :: 0 <= i < |l.sent| && l.sent[i].Status? ==> l.sent[i].version <= l.version
  {
    if l.phase.Sending? {
      AnsweredOneMore(l.sent, l.phase.frame);
    }
    assert forall i :: 0 <= i < |l.sent| ==> l.sent[i] == Outgoing(l)[i];
  }

  // A link that goes to sleep does so for as long as its sleeps in a row say,
  // and it connects again only when that time is over.
  lemma LossesAreSleptOut(events: seq<Event>, e: Event, idle: nat)
    ensures var l, v := Run(START, events, idle), Run(START, events + [e], idle);
      && (v.phase.Asleep? && !l.phase.Asleep? ==>
        v.phase.until == Clock(events) + Nth(Sleeps(events, idle), RECONNECT_MAX))
      && (l.phase.Asleep? && v.phase != l.phase ==> v.phase.Connecting? && Clock(events) >= l.phase.until)
  {
    EveryRunIsGood(events, idle);
    EveryRunIsRecorded(events, idle);
    RunLast(START, events, e, idle);
    SleepsAreLong(Run(START, events, idle), e, idle);
  }

  lemma SleepsAreLong(l: Link, e: Event, idle: nat)
    ensures var v := Next(l, e, idle);
      && (v.phase.Asleep? && !l.phase.Asleep? ==> v.phase.until == l.now + l.backoff)
      && (l.phase.Asleep? && v.phase != l.phase ==> v.phase.Connecting? && l.now >= l.phase.until)
  {
  }

  // What ends a session at its select: a close, a stream that is gone, silence
  // up to the deadline, or a publisher that is gone with nothing left to tell;
  // nothing else does, and a message that is here counts before the deadline.
  lemma WhatEndsASession(l: Link, message: Option<Message>, idle: nat)
    requires l.phase.Selecting?
    ensures var v := Next(l, Poll(message), idle);
      && (v.phase.Asleep? <==>
        || message == Some(Close) || message == Some(Broken)
        || (message.None? && (l.now >= l.deadline || (l.seen == l.version && l.closed))))
      && (message.Some? && !v.phase.Asleep? ==> v.deadline == l.now + idle)
      && (message == Some(Ping) ==> v.phase == Sending(Pong))
    ensures var v := Next(l, Poll(message), idle); message.None? && !v.phase.Asleep? ==> (
        && v.deadline == l.deadline
        && (l.seen != l.version ==> v.phase == Sending(Status(l.version)))
        && (l.seen == l.version && l.queue != [] ==> v.phase == Sending(Reply(l.queue[0]))))
  {
  }

  // Nothing to send, nothing at work.
  predicate Quiet(l: Link) {
    l.phase.Selecting? && l.seen == l.version && l.queue == [] && l.tasks == multiset{}
  }

  // At rest, every request of the connection is answered, each once, and
  // the daemon's last status is the latest published.
  lemma AtRestAllIsTold(events: seq<Event>, idle: nat)
    requires Quiet(Run(START, events, idle))
    ensures var l := Run(START, events, idle);
      Answered(l.sent) == Requests(events, idle) && LastStatus(l.sent) == Some(Published(events))
  {
    EveryRunIsGood(events, idle);
    EveryRunIsRecorded(events, idle);
  }

  // A request is never at once forgotten: it is at work, queued, on its way or
  // answered.
  lemma NoRequestIsForgotten(events: seq<Event>, idle: nat)
    ensures var l := Run(START, events, idle); Up(l) ==>
      Answered(Outgoing(l)) + multiset(l.queue) + l.tasks == Requests(events, idle)
  {
    EveryRunIsGood(events, idle);
    EveryRunIsRecorded(events, idle);
  }

  // One step of a send: nothing but its end moves the phase, the deadline or
  // what was sent, and polled at or past the deadline it is over.
  lemma SendingStep(l: Link, e: Event, idle: nat)
    requires l.phase.Sending? && Step(l, e, idle).Some?
    ensures var v := Step(l, e, idle).value;
      && (v.phase.Sending? ==> v.phase == l.phase && v.deadline == l.deadline && v.sent == l.sent)
      && (e.PollSend? && l.now >= l.deadline ==> !v.phase.Sending?)
  {
  }

  // The link is in the send it started in, and stays there through the events.
  ghost predicate Blocked(l: Link, events: seq<Event>, idle: nat) {
    forall i :: 0 <= i <= |events| ==> Run(l, events[..i], idle).phase.Sending?
  }

  // No send outlives the deadline: however long a send stays blocked, its
  // deadline is the one it started with, and it was never polled at or past
  // it.
  lemma {:induction false} NoSendOutlivesTheDeadline(l: Link, events: seq<Event>, idle: nat)
    requires Blocked(l, events, idle)
    ensures forall i :: 0 <= i <= |events| ==>
      var v := Run(l, events[..i], idle);
      && v.deadline == l.deadline && v.phase == l.phase && v.sent == l.sent
      && (i < |events| && events[i].PollSend? ==> v.now < l.deadline)
    decreases |events|
  {
    assert l.phase.Sending? by {
      assert Run(l, events[..0], idle) == l;
    }
    if events != [] {
      var step := Step(l, events[0], idle);
      var next := if step.Some? then step.value else l;
      forall i | 0 <= i <= |events| - 1
        ensures Run(next, events[1..][..i], idle) == Run(l, events[..i + 1], idle)
      {
        assert events[..i + 1][0] == events[0] && events[..i + 1][1..] == events[1..][..i];
      }
      assert Run(next, events[1..][..0], idle) == next;
      assert next.phase.Sending?;
      if step.Some? {
        SendingStep(l, events[0], idle);
      }
      NoSendOutlivesTheDeadline(next, events[1..], idle);
      forall i | 0 <= i <= |events|
        ensures var v := Run(l, events[..i], idle);
          && v.deadline == l.deadline && v.phase == l.phase && v.sent == l.sent
          && (i < |events| && events[i].PollSend? ==> v.now < l.deadline)
      {
        if i == 0 {
          assert events[..0] == [];
        } else {
          assert Run(next, events[1..][..i - 1], idle) == Run(l, events[..i], idle);
          assert i < |events| ==> events[1..][i - 1] == events[i];
        }
      }
    }
  }

  // What is left to send.
  function Backlog(l: Link): nat {
    |l.queue| + if l.seen != l.version then 1 else 0
  }

  // The link's own two moves: with no message here, before the deadline and
  // with the daemon reading, each turn of the select sends one thing that
  // waits, so the backlog drains.
  function Turn(l: Link, idle: nat): Link
    requires l.phase.Selecting?
  {
    var chosen := Select(l, None, idle);
    match Step(chosen, PollSend(true), idle)
    case Some(v) => v
    case None => chosen
  }

  lemma TurnDrains(l: Link, idle: nat)
    requires Good(l, idle) && l.phase.Selecting? && l.now < l.deadline && !l.closed && Backlog(l) > 0
    ensures var v := Turn(l, idle);
      v.phase.Selecting? && Backlog(v) == Backlog(l) - 1 && v.now < v.deadline && !v.closed && v.tasks == l.tasks
  {
  }

  function Turns(l: Link, n: nat, idle: nat): Link
    decreases n
  {
    if n == 0 || !l.phase.Selecting? then l
    else Turns(Turn(l, idle), n - 1, idle)
  }

  lemma {:induction false} TheBacklogDrains(l: Link, idle: nat)
    requires Good(l, idle) && l.phase.Selecting? && l.now < l.deadline && !l.closed && l.tasks == multiset{}
    ensures Quiet(Turns(l, Backlog(l), idle)) && Good(Turns(l, Backlog(l), idle), idle)
    decreases Backlog(l)
  {
    if Backlog(l) > 0 {
      TurnDrains(l, idle);
      SelectIsGood(l, None, idle);
      PollSendIsGood(Select(l, None, idle), true, idle);
      TheBacklogDrains(Turn(l, idle), idle);
    }
  }
}
