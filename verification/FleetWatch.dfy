// `FleetWatch::next` as a machine: lists come over a socket that is reopened
// behind a backoff, and the caller may drop the future at any await. A step takes the future from one await to the next; cancelling
// forgets where it stood and keeps the watch's own fields.
module FleetWatches {
  import opened Basics
  import opened Backoffs

  const BACKOFF_MIN: nat := SECOND
  const BACKOFF_MAX: nat := 10 * SECOND

  // The await the future stands at; `Idle` when there is no future.
  datatype Await = Idle | Connecting | Reading | Sleeping(until: nat)

  // A loss the watch saw, the wait it set for it, how many waits it had set
  // since the last list, and how many lists had arrived by then.
  datatype Loss = Loss(at: nat, wait: nat, nth: nat, lists: nat)

  // A connect attempt, and how many losses had been seen by then.
  datatype Attempt = Attempt(at: nat, after: nat)

  datatype Watch = Watch(
    socket: bool,
    backoff: nat,
    retryAt: Option<nat>,
    await: Await,
    now: nat,
    waits: nat,
    lists: nat,
    losses: seq<Loss>,
    attempts: seq<Attempt>)

  datatype Event =
    | Tick(dt: nat)
    | Call
    | Cancel
    | Connected
    | Refused
    | List
    | Skipped
    | Bad
    | Closed
    | Wake

  const START: Watch := Watch(false, BACKOFF_MIN, None, Idle, 0, 0, 0, [], [])

  // `wait` up to its sleep: a deadline already owed is kept.
  function BeginWait(w: Watch): Watch {
    match w.retryAt
    case Some(t) => w.(await := Sleeping(t))
    case None =>
      var t := w.now + w.backoff;
      w.(retryAt := Some(t), await := Sleeping(t), backoff := Min(w.backoff * 2, BACKOFF_MAX),
        waits := w.waits + 1, losses := w.losses + [Loss(w.now, w.backoff, w.waits, w.lists)])
  }

  function StartConnect(w: Watch): Watch {
    w.(await := Connecting, attempts := w.attempts + [Attempt(w.now, |w.losses|)])
  }

  // From the top of the loop to the first await.
  function LoopTop(w: Watch): Watch {
    if w.socket then w.(await := Reading)
    else if w.retryAt.Some? then BeginWait(w)
    else StartConnect(w)
  }

  // What an event makes of the watch; None when it cannot happen now.
  function Step(w: Watch, e: Event): Option<Watch> {
    match (e, w.await)
    case (Tick(dt), _) => Some(w.(now := w.now + dt))
    case (Call, Idle) => Some(LoopTop(w))
    case (Cancel, Connecting) => Some(w.(await := Idle))
    case (Cancel, Reading) => Some(w.(await := Idle))
    case (Cancel, Sleeping(_)) => Some(w.(await := Idle))
    case (Connected, Connecting) => Some(w.(socket := true, await := Reading))
    case (Refused, Connecting) => Some(BeginWait(w))
    case (List, Reading) => Some(w.(backoff := BACKOFF_MIN, await := Idle, waits := 0, lists := w.lists + 1))
    case (Skipped, Reading) => Some(w)
    case (Bad, Reading) => Some(BeginWait(w.(socket := false)))
    case (Closed, Reading) => Some(BeginWait(w.(socket := false)))
    case (Wake, Sleeping(until)) => if w.now >= until then Some(StartConnect(w.(retryAt := None))) else None
    case _ => None
  }

  // The events in order; those that cannot happen are passed over.
  function Run(w: Watch, events: seq<Event>): Watch
    decreases |events|
  {
    if events == [] then w else
      match Step(w, events[0])
      case Some(next) => Run(next, events[1..])
      case None => Run(w, events[1..])
  }

  // --- What every run keeps ------------------------------------------------

  // The await stands where the fields say; a wait still owed means no socket.
  ghost predicate Placed(w: Watch) {
    && (w.retryAt.Some? ==> !w.socket)
    && (w.await.Connecting? ==> !w.socket && w.retryAt.None?)
    && (w.await.Reading? ==> w.socket)
    && (w.await.Sleeping? ==> w.retryAt == Some(w.await.until))
    && w.backoff == Nth(w.waits, BACKOFF_MAX)
  }

  function Due(l: Loss): nat {
    l.at + l.wait
  }

  // How many waits precede one in its row, a list starting a new row.
  function After(last: Loss, lists: nat): nat {
    if lists == last.lists then last.nth + 1 else 0
  }

  predicate WaitOk(l: Loss) {
    l.wait == Nth(l.nth, BACKOFF_MAX)
  }

  // The next wait of a row, set no earlier than the one before was due.
  predicate Follows(last: Loss, l: Loss) {
    && l.at >= Due(last)
    && l.lists >= last.lists
    && l.nth == After(last, l.lists)
  }

  predicate FollowsAt(losses: seq<Loss>, i: nat)
    requires 0 < i < |losses|
  {
    Follows(losses[i - 1], losses[i])
  }

  ghost predicate Paced(losses: seq<Loss>) {
    && (forall i {:trigger WaitOk(losses[i])} :: 0 <= i < |losses| ==> WaitOk(losses[i]))
    && (losses != [] ==> losses[0].nth == 0)
    && (forall i {:trigger FollowsAt(losses, i)} :: 0 < i < |losses| ==> FollowsAt(losses, i))
  }

  // The wait for the last loss is owed or served.
  ghost predicate Served(w: Watch) {
    w.losses != [] ==>
      var last := w.losses[|w.losses| - 1];
      && w.lists >= last.lists
      && w.waits == After(last, w.lists)
      && match w.retryAt
        case Some(t) => t == Due(last)
        case None => w.now >= Due(last)
  }

  // No attempt starts before the last loss it knew of was due.
  ghost predicate Throttled(w: Watch) {
    forall i :: 0 <= i < |w.attempts| ==>
      && w.attempts[i].after <= |w.losses|
      && w.attempts[i].at <= w.now
      && (w.attempts[i].after > 0 ==> w.attempts[i].at >= Due(w.losses[w.attempts[i].after - 1]))
  }

  ghost predicate Past(w: Watch) {
    forall i :: 0 <= i < |w.losses| ==> w.losses[i].at <= w.now
  }

  ghost predicate Good(w: Watch) {
    && Placed(w)
    && Paced(w.losses)
    && Served(w)
    && Throttled(w)
    && Past(w)
    && (w.losses == [] ==> w.retryAt.None? && w.waits == 0)
  }

  lemma OneMoreLossIsPaced(losses: seq<Loss>, l: Loss)
    requires Paced(losses) && WaitOk(l)
    requires losses == [] ==> l.nth == 0
    requires losses != [] ==> Follows(losses[|losses| - 1], l)
    ensures Paced(losses + [l])
  {
    var all := losses + [l];
    forall i | 0 <= i < |all| ensures WaitOk(all[i]) {
      if i < |losses| {
        assert WaitOk(losses[i]);
      }
    }
    forall i | 0 < i < |all| ensures FollowsAt(all, i) {
      if i < |losses| {
        assert FollowsAt(losses, i);
      }
    }
  }

  lemma OneMoreLossIsThrottled(w: Watch, v: Watch, l: Loss)
    requires Throttled(w) && v.losses == w.losses + [l] && v.attempts == w.attempts && v.now == w.now
    ensures Throttled(v)
  {
    forall i | 0 <= i < |v.attempts| && v.attempts[i].after > 0
      ensures v.losses[v.attempts[i].after - 1] == w.losses[v.attempts[i].after - 1]
    {
      assert w.attempts[i].after <= |w.losses|;
    }
  }

  // A new loss: nothing was owed, and the wait it sets is the next.
  lemma BeginWaitIsGood(w: Watch)
    requires Good(w) && !w.socket && w.retryAt.None?
    ensures Good(BeginWait(w))
  {
    NextNth(w.waits, BACKOFF_MAX);
    var l := Loss(w.now, w.backoff, w.waits, w.lists);
    OneMoreLossIsPaced(w.losses, l);
    OneMoreLossIsThrottled(w, BeginWait(w), l);
  }

  lemma LosingTheSocketIsGood(w: Watch)
    requires Good(w) && w.await.Reading?
    ensures Good(BeginWait(w.(socket := false)))
  {
    BeginWaitIsGood(w.(socket := false, await := Idle));
  }

  // An attempt starts only when nothing is owed, so the last loss is due.
  lemma StartConnectIsGood(w: Watch)
    requires Good(w) && !w.socket && w.retryAt.None?
    ensures Good(StartConnect(w))
  {
    var v := StartConnect(w);
    forall i | 0 <= i < |v.attempts|
      ensures v.attempts[i].after <= |v.losses| && v.attempts[i].at <= v.now
      ensures v.attempts[i].after > 0 ==> v.attempts[i].at >= Due(v.losses[v.attempts[i].after - 1])
    {
      if i < |w.attempts| {
        assert v.attempts[i] == w.attempts[i];
      }
    }
  }

  // Serving the wait: its deadline has come.
  lemma WakeIsGood(w: Watch)
    requires Good(w) && w.await.Sleeping? && w.now >= w.await.until
    ensures Good(StartConnect(w.(retryAt := None)))
  {
    var awake := w.(retryAt := None, await := Idle);
    assert Throttled(awake);
    StartConnectIsGood(awake);
  }

  lemma TickIsGood(w: Watch, dt: nat)
    requires Good(w)
    ensures Good(w.(now := w.now + dt))
  {
    assert Throttled(w.(now := w.now + dt));
  }

  lemma LoopTopIsGood(w: Watch)
    requires Good(w) && w.await.Idle?
    ensures Good(LoopTop(w))
  {
    if w.socket {
      assert Throttled(w.(await := Reading));
    } else if w.retryAt.Some? {
      assert Throttled(BeginWait(w));
    } else {
      StartConnectIsGood(w);
    }
  }

  // Dropping the future leaves the fields, and so all of this, alone.
  lemma CancelIsGood(w: Watch)
    requires Good(w)
    ensures Good(w.(await := Idle))
  {
  }

  lemma ConnectedIsGood(w: Watch)
    requires Good(w) && w.await.Connecting?
    ensures Good(w.(socket := true, await := Reading))
  {
  }

  lemma ListIsGood(w: Watch)
    requires Good(w) && w.await.Reading?
    ensures Good(w.(backoff := BACKOFF_MIN, await := Idle, waits := 0, lists := w.lists + 1))
  {
    assert Nth(0, BACKOFF_MAX) == BACKOFF_MIN;
  }

  lemma RefusedIsGood(w: Watch)
    requires Good(w) && w.await.Connecting?
    ensures Good(BeginWait(w))
  {
    BeginWaitIsGood(w);
  }

  lemma StepIsGood(w: Watch, e: Event)
    requires Good(w) && Step(w, e).Some?
    ensures Good(Step(w, e).value)
  {
    if e.Tick? {
      TickIsGood(w, e.dt);
    } else if e.Call? {
      LoopTopIsGood(w);
    } else if e.Cancel? {
      CancelIsGood(w);
    } else if e.Connected? {
      ConnectedIsGood(w);
    } else if e.Refused? {
      RefusedIsGood(w);
    } else if e.List? {
      ListIsGood(w);
    } else if e.Bad? || e.Closed? {
      LosingTheSocketIsGood(w);
    } else if e.Wake? {
      WakeIsGood(w);
    }
  }

  lemma {:induction false} RunIsGood(w: Watch, events: seq<Event>)
    requires Good(w)
    ensures Good(Run(w, events))
    decreases |events|
  {
    if events != [] {
      match Step(w, events[0])
      case Some(next) =>
        StepIsGood(w, events[0]);
        RunIsGood(next, events[1..]);
      case None =>
        RunIsGood(w, events[1..]);
    }
  }

  // Whatever happens, cancellations at any await among it: no attempt is
  // ahead of the backoff of the last loss seen, the k-th wait of a row is
  // min(2^k s, 10 s) counting from zero at the last list, and a wait still owed means that
  // there is no socket.
  lemma EveryRunIsThrottled(events: seq<Event>)
    ensures var w := Run(START, events);
      && (forall i :: 0 <= i < |w.attempts| && w.attempts[i].after > 0 ==>
        w.attempts[i].after <= |w.losses| && w.attempts[i].at >= Due(w.losses[w.attempts[i].after - 1]))
      && Paced(w.losses)
      && (w.retryAt.Some? ==> !w.socket)
  {
    assert Nth(0, BACKOFF_MAX) == BACKOFF_MIN;
    RunIsGood(START, events);
  }

  // Losses in a row cannot storm: the n-th is at least n - 1 seconds in.
  lemma {:induction false} PacedLossesSpread(losses: seq<Loss>)
    requires Paced(losses) && losses != []
    ensures losses[|losses| - 1].at >= (|losses| - 1) * BACKOFF_MIN
    decreases |losses|
  {
    if |losses| > 1 {
      var n := |losses| - 1;
      var fewer := losses[..n];
      forall i | 0 <= i < n ensures WaitOk(fewer[i]) {
        assert WaitOk(losses[i]);
      }
      forall i | 0 < i < n ensures FollowsAt(fewer, i) {
        assert FollowsAt(losses, i);
      }
      PacedLossesSpread(fewer);
      assert FollowsAt(losses, n) && WaitOk(losses[n - 1]);
      NextNth(losses[|losses| - 2].nth, BACKOFF_MAX);
    }
  }

  // --- Told from the events -------------------------------------------------

  function Next(w: Watch, e: Event): Watch {
    match Step(w, e) case Some(v) => v case None => w
  }

  lemma {:induction false} RunLast(w: Watch, events: seq<Event>, e: Event)
    ensures Run(w, events + [e]) == Next(Run(w, events), e)
    decreases |events|
  {
    var all := events + [e];
    if events == [] {
      assert all == [e] && all[1..] == [];
    } else {
      assert all[0] == events[0] && all[1..] == events[1..] + [e];
      match Step(w, events[0])
      case Some(next) => RunLast(next, events[1..], e);
      case None => RunLast(w, events[1..], e);
    }
  }

  // The watch is told of a loss: a connect refused, a socket gone or babbling.
  predicate IsLoss(before: Watch, e: Event) {
    (e.Refused? && before.await.Connecting?) || ((e.Bad? || e.Closed?) && before.await.Reading?)
  }

  predicate IsList(before: Watch, e: Event) {
    e.List? && before.await.Reading?
  }

  function Clock(events: seq<Event>): nat {
    if events == [] then 0
    else
      var e := events[|events| - 1];
      Clock(events[..|events| - 1]) + if e.Tick? then e.dt else 0
  }

  // How many losses there were, and how many since the last list.
  function Losses(events: seq<Event>): nat {
    if events == [] then 0
    else
      var front, e := events[..|events| - 1], events[|events| - 1];
      Losses(front) + if IsLoss(Run(START, front), e) then 1 else 0
  }

  function Row(events: seq<Event>): nat {
    if events == [] then 0
    else
      var front, e := events[..|events| - 1], events[|events| - 1];
      if IsLoss(Run(START, front), e) then Row(front) + 1
      else if IsList(Run(START, front), e) then 0
      else Row(front)
  }

  // A loss with `row` before it in its row is waited for min(2^row s, 10 s).
  function WaitFrom(now: nat, row: nat): nat {
    now + Nth(row, 10 * SECOND)
  }

  // When the wait for the last loss is over.
  function WaitOver(events: seq<Event>): Option<nat> {
    if events == [] then None
    else
      var front, e := events[..|events| - 1], events[|events| - 1];
      if IsLoss(Run(START, front), e) then Some(WaitFrom(Clock(front), Row(front))) else WaitOver(front)
  }

  ghost predicate Recorded(w: Watch, events: seq<Event>) {
    && w.now == Clock(events)
    && w.waits == Row(events)
    && |w.losses| == Losses(events)
    && match w.retryAt
      case Some(t) => WaitOver(events) == Some(t)
      case None => WaitOver(events).Some? ==> w.now >= WaitOver(events).value
  }

  lemma WhatAStepRecords(w: Watch, e: Event)
    requires Good(w)
    ensures var v := Next(w, e);
      && v.now == w.now + (if e.Tick? then e.dt else 0)
      && v.waits == (if IsLoss(w, e) then w.waits + 1 else if IsList(w, e) then 0 else w.waits)
      && |v.losses| == |w.losses| + (if IsLoss(w, e) then 1 else 0)
      && (if IsLoss(w, e) then v.retryAt == Some(WaitFrom(w.now, w.waits))
        else v.retryAt == w.retryAt || (v.retryAt.None? && w.now >= w.retryAt.value))
  {
  }

  lemma LastTick(front: seq<Event>, e: Event)
    ensures Clock(front + [e]) == Clock(front) + (if e.Tick? then e.dt else 0)
  {
    assert (front + [e])[..|front|] == front;
  }

  lemma LastLoss(front: seq<Event>, e: Event)
    ensures Losses(front + [e]) == Losses(front) + (if IsLoss(Run(START, front), e) then 1 else 0)
  {
    assert (front + [e])[..|front|] == front;
  }

  lemma LastOfTheRow(front: seq<Event>, e: Event)
    ensures Row(front + [e]) ==
      if IsLoss(Run(START, front), e) then Row(front) + 1 else if IsList(Run(START, front), e) then 0 else Row(front)
  {
    assert (front + [e])[..|front|] == front;
  }

  lemma LastWait(front: seq<Event>, e: Event)
    ensures WaitOver(front + [e]) == if IsLoss(Run(START, front), e)
      then Some(WaitFrom(Clock(front), Row(front))) else WaitOver(front)
  {
    var events := front + [e];
    assert events[..|events| - 1] == front && events[|events| - 1] == e;
  }

  lemma {:induction false} EveryRunIsRecorded(events: seq<Event>)
    ensures Good(Run(START, events)) && Recorded(Run(START, events), events)
    decreases |events|
  {
    assert Nth(0, BACKOFF_MAX) == BACKOFF_MIN;
    RunIsGood(START, events);
    if events != [] {
      var front, e := events[..|events| - 1], events[|events| - 1];
      assert events == front + [e];
      EveryRunIsRecorded(front);
      RunLast(START, front, e);
      WhatAStepRecords(Run(START, front), e);
      LastTick(front, e);
      LastLoss(front, e);
      LastOfTheRow(front, e);
      LastWait(front, e);
    }
  }

  // No event of any run starts a connect before the wait for the last loss is
  // over, whatever was cancelled since.
  lemma EveryConnectHasWaited(events: seq<Event>, e: Event)
    ensures var w := Run(START, events);
      var starts := Step(w, e).Some? && Step(w, e).value.await.Connecting? && !e.Tick?;
      starts && WaitOver(events).Some? ==> Clock(events) >= WaitOver(events).value
  {
    EveryRunIsRecorded(events);
  }

  // Losses cannot storm: n of them take at least n - 1 seconds.
  lemma NoStorm(events: seq<Event>)
    ensures Losses(events) * BACKOFF_MIN <= Clock(events) + BACKOFF_MIN
  {
    EveryRunIsRecorded(events);
    var w := Run(START, events);
    if w.losses != [] {
      PacedLossesSpread(w.losses);
    }
  }

  // --- And it does connect ---------------------------------------------------

  // A call, and what the world has to do for it to come back: let the wait that
  // is owed pass, take the connection, send a list.
  function Obliging(w: Watch): seq<Event> {
    if w.socket then [Call, List]
    else match w.retryAt
      case None => [Call, Connected, List]
      case Some(t) => [Call] + ([Tick(if t > w.now then t - w.now else 0)] + [Wake, Connected, List])
  }

  lemma RunFirst(w: Watch, e: Event, events: seq<Event>)
    requires Step(w, e).Some?
    ensures Run(w, [e] + events) == Run(Step(w, e).value, events)
  {
    assert ([e] + events)[1..] == events;
  }

  // From wherever it stands between calls, the watch connects as soon as
  // nothing is owed, once, and the next list reaches the caller; after it the
  // backoff starts anew.
  lemma TheNextListArrives(w: Watch)
    requires Good(w) && w.await.Idle?
    ensures var v := Run(w, Obliging(w));
      && v.await.Idle? && v.socket && v.retryAt.None? && v.lists == w.lists + 1 && v.backoff == BACKOFF_MIN
      && |v.attempts| == |w.attempts| + (if w.socket then 0 else 1)
      && v.losses == w.losses
  {
    if w.socket {
      RunFirst(w, Call, [List]);
      RunFirst(w.(await := Reading), List, []);
      assert [Call] + [List] == [Call, List] && [List] + [] == [List];
    } else if w.retryAt.None? {
      ConnectsAndLists(StartConnect(w));
      RunFirst(w, Call, [Connected, List]);
      assert [Call] + [Connected, List] == [Call, Connected, List];
    } else {
      WaitsAndConnects(w, w.retryAt.value);
    }
  }

  lemma WaitsAndConnects(w: Watch, t: nat)
    requires w.await.Idle? && !w.socket && w.retryAt == Some(t)
    ensures var now := if t > w.now then t else w.now;
      Run(w, Obliging(w)) == w.(socket := true, backoff := BACKOFF_MIN, retryAt := None, waits := 0,
        lists := w.lists + 1, now := now, attempts := w.attempts + [Attempt(now, |w.losses|)])
  {
    var dt := if t > w.now then t - w.now else 0;
    WaitsOut(w, t, dt, [Wake, Connected, List]);
    Wakes(w.(await := Sleeping(t), now := w.now + dt), t);
  }

  lemma WaitsOut(w: Watch, t: nat, dt: nat, events: seq<Event>)
    requires w.await.Idle? && !w.socket && w.retryAt == Some(t)
    ensures Run(w, [Call] + ([Tick(dt)] + events)) == Run(w.(await := Sleeping(t), now := w.now + dt), events)
  {
    TimePasses(w.(await := Sleeping(t)), dt, events);
    CallSleeps(w, t, [Tick(dt)] + events);
  }

  lemma CallSleeps(w: Watch, t: nat, events: seq<Event>)
    requires w.await.Idle? && !w.socket && w.retryAt == Some(t)
    ensures Run(w, [Call] + events) == Run(w.(await := Sleeping(t)), events)
  {
    RunFirst(w, Call, events);
  }

  lemma TimePasses(w: Watch, dt: nat, events: seq<Event>)
    ensures Run(w, [Tick(dt)] + events) == Run(w.(now := w.now + dt), events)
  {
    RunFirst(w, Tick(dt), events);
  }

  lemma Wakes(w: Watch, t: nat)
    requires w.await == Sleeping(t) && w.now >= t
    ensures Run(w, [Wake, Connected, List]) == w.(socket := true, backoff := BACKOFF_MIN, await := Idle, retryAt := None,
      waits := 0, lists := w.lists + 1, attempts := w.attempts + [Attempt(w.now, |w.losses|)])
  {
    ConnectsAndLists(StartConnect(w.(retryAt := None)));
    RunFirst(w, Wake, [Connected, List]);
    assert [Wake] + [Connected, List] == [Wake, Connected, List];
  }

  lemma ConnectsAndLists(w: Watch)
    requires w.await.Connecting?
    ensures Run(w, [Connected, List])
      == w.(socket := true, backoff := BACKOFF_MIN, await := Idle, waits := 0, lists := w.lists + 1)
  {
    RunFirst(w, Connected, [List]);
    RunFirst(w.(socket := true, await := Reading), List, []);
    assert [Connected] + [List] == [Connected, List] && [List] + [] == [List];
  }
}
