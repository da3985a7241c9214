// Atomic file writes: a temp file beside the path, written and then renamed
// over it, by any number of concurrent calls on one path in one process.
// Each file-system effect is one step, any step may fail, and the steps of
// different calls interleave as they please.
module AtomicWrites {
  import opened Basics

  type Dir = map<string, Bytes>

  // `.{name}.tmp-{pid}-{n}`
  function TempName(name: string, pid: nat, n: nat): string {
    "." + name + ".tmp-" + Decimal(pid) + "-" + Decimal(n)
  }

  lemma TempNameInjective(name: string, pid: nat, m: nat, n: nat)
    requires TempName(name, pid, m) == TempName(name, pid, n)
    ensures m == n
  {
    var head := "." + name + ".tmp-" + Decimal(pid) + "-";
    assert TempName(name, pid, m)[|head|..] == Decimal(m);
    assert TempName(name, pid, n)[|head|..] == Decimal(n);
    DecimalInjective(m, n);
  }

  lemma TempNameIsNotTheName(name: string, pid: nat, n: nat)
    ensures TempName(name, pid, n) != name
  {
    assert |TempName(name, pid, n)| > |name|;
  }

  // Where a call stands: what it does next.
  datatype Stage =
    | TakeNumber
    | RemoveLeftover
    | Create
    | Write(done: nat)
    | Settle
    | Rename
    | CleanUp
    | Returned(ok: bool)

  // `inherited`: a dead process's file had the call's temp name, and removing
  // it failed. `abandoned`: removing the call's own file failed. `failed`: some
  // step of the call's own failed before it gave up.
  datatype Call = Call(contents: Bytes, n: nat, stage: Stage, inherited: bool, abandoned: bool, failed: bool)

  // The directory, the process-wide counter, the calls so far, and those
  // whose rename went through, in order.
  datatype Sys = Sys(dir: Dir, next: nat, calls: seq<Call>, installed: seq<nat>)

  // A call starts, or call `i` takes its next step: it fails or goes well,
  // and a write gets as far as `upTo`.
  datatype Event = Spawn(contents: Bytes) | Act(i: nat, ok: bool, upTo: nat)

  datatype Place = Place(name: string, pid: nat) {
    function Temp(c: Call): string {
      TempName(name, pid, c.n)
    }
  }

  // `remove_file`, its result ignored.
  function Remove(dir: Dir, tmp: string, ok: bool): Dir {
    if ok then dir - {tmp} else dir
  }

  // What one step of call `c` makes of the directory and of the call.
  function ActOn(p: Place, dir: Dir, c: Call, ok: bool, upTo: nat): (Dir, Call) {
    var tmp := p.Temp(c);
    match c.stage
    case TakeNumber => (dir, c)
    case RemoveLeftover =>
      var stays := tmp in dir && !ok;
      (Remove(dir, tmp, ok), c.(stage := Create, inherited := stays, failed := stays))
    case Create =>
      if ok && tmp !in dir then (dir[tmp := []], c.(stage := Write(0)))
      else (dir, c.(stage := Returned(false), failed := c.failed || !ok))
    case Write(done) =>
      if done <= upTo <= |c.contents| then
        (dir[tmp := c.contents[..upTo]],
          if !ok then c.(stage := CleanUp, failed := true)
          else c.(stage := if upTo == |c.contents| then Settle else Write(upTo)))
      else (dir, c)
    case Settle => (dir, if ok then c.(stage := Rename) else c.(stage := CleanUp, failed := true))
    case Rename =>
      if ok && tmp in dir then ((dir - {tmp})[p.name := dir[tmp]], c.(stage := Returned(true)))
      else (dir, c.(stage := CleanUp, failed := c.failed || !ok))
    case CleanUp => (Remove(dir, tmp, ok), c.(stage := Returned(false), abandoned := tmp in dir && !ok))
    case Returned(_) => (dir, c)
  }

  function Step(p: Place, s: Sys, e: Event): Sys {
    match e
    case Spawn(contents) => s.(calls := s.calls + [Call(contents, 0, TakeNumber, false, false, false)])
    case Act(i, ok, upTo) =>
      if i >= |s.calls| then s
      else if s.calls[i].stage.TakeNumber? then
        s.(next := s.next + 1, calls := s.calls[i := s.calls[i].(n := s.next, stage := RemoveLeftover)])
      else
        var (dir, c) := ActOn(p, s.dir, s.calls[i], ok, upTo);
        var renamed := s.calls[i].stage.Rename? && c.stage == Returned(true);
        s.(dir := dir, calls := s.calls[i := c], installed := s.installed + if renamed then [i] else [])
  }

  function Run(p: Place, s: Sys, events: seq<Event>): Sys
    decreases |events|
  {
    if events == [] then s else Step(p, Run(p, s, events[..|events| - 1]), events[|events| - 1])
  }

  function Begin(dir: Dir): Sys {
    Sys(dir, 0, [], [])
  }

  // --- What every interleaving keeps ------------------------------------------

  function At(dir: Dir, name: string): Option<Bytes> {
    if name in dir then Some(dir[name]) else None
  }

  predicate Numbered(c: Call) {
    !c.stage.TakeNumber?
  }

  // What a call's temp file holds, by where the call stands.
  ghost predicate TempAsExpected(was: Dir, dir: Dir, tmp: string, c: Call) {
    match c.stage
    case TakeNumber => Unhurt(c)
    case RemoveLeftover => At(dir, tmp) == At(was, tmp) && Unhurt(c)
    case Create =>
      c.failed == c.inherited && !c.abandoned && if c.inherited then Inherits(was, dir, tmp) else tmp !in dir
    case Write(done) => done <= |c.contents| && At(dir, tmp) == Some(c.contents[..done]) && Unhurt(c)
    case Settle => At(dir, tmp) == Some(c.contents) && Unhurt(c)
    case Rename => At(dir, tmp) == Some(c.contents) && Unhurt(c)
    case CleanUp => tmp in dir && !c.inherited && !c.abandoned && c.failed
    case Returned(ok) =>
      && (tmp in dir <==> c.inherited || c.abandoned)
      && (c.inherited ==> Inherits(was, dir, tmp) && !c.abandoned)
      && (if ok then Unhurt(c) else c.failed)
  }

  // The file of a dead process is still there, as it was.
  ghost predicate Inherits(was: Dir, dir: Dir, tmp: string) {
    tmp in was && At(dir, tmp) == At(was, tmp)
  }

  predicate Unhurt(c: Call) {
    !c.inherited && !c.abandoned && !c.failed
  }

  // No two calls share a number, and so a temp file.
  ghost predicate NumbersDistinct(s: Sys) {
    && (forall i :: 0 <= i < |s.calls| && Numbered(s.calls[i]) ==> s.calls[i].n < s.next)
    && (forall i, j :: 0 <= i < j < |s.calls| && Numbered(s.calls[i]) && Numbered(s.calls[j]) ==>
      s.calls[i].n != s.calls[j].n)
  }

  ghost predicate TempsAsExpected(p: Place, was: Dir, s: Sys) {
    forall i :: 0 <= i < |s.calls| ==> TempAsExpected(was, s.dir, p.Temp(s.calls[i]), s.calls[i])
  }

  // Only the path and the calls' temp files are touched.
  ghost predicate OthersUntouched(p: Place, was: Dir, s: Sys) {
    forall f :: f != p.name && (forall n :: 0 <= n < s.next ==> f != TempName(p.name, p.pid, n)) ==>
      At(s.dir, f) == At(was, f)
  }

  // The path holds what it held, or the whole contents of the call that
  // renamed last; those that returned well are those that renamed.
  ghost predicate PathWhole(p: Place, was: Dir, s: Sys) {
    && (forall k :: 0 <= k < |s.installed| ==>
      s.installed[k] < |s.calls| && s.calls[s.installed[k]].stage == Returned(true))
    && (forall i :: 0 <= i < |s.calls| && s.calls[i].stage == Returned(true) ==> i in s.installed)
    && At(s.dir, p.name) ==
      if s.installed == [] then At(was, p.name)
      else Some(s.calls[s.installed[|s.installed| - 1]].contents)
  }

  ghost predicate Good(p: Place, was: Dir, s: Sys) {
    NumbersDistinct(s) && TempsAsExpected(p, was, s) && OthersUntouched(p, was, s) && PathWhole(p, was, s)
  }

  // One step of one call touches its own temp file and, renaming, the path.
  lemma ActIsLocal(p: Place, dir: Dir, c: Call, ok: bool, upTo: nat, f: string)
    requires f != p.Temp(c)
    requires f != p.name || !(c.stage.Rename? && ActOn(p, dir, c, ok, upTo).1.stage == Returned(true))
    ensures At(ActOn(p, dir, c, ok, upTo).0, f) == At(dir, f)
  {
  }

  lemma ActKeepsItsTemp(p: Place, was: Dir, dir: Dir, c: Call, ok: bool, upTo: nat)
    requires Numbered(c) && TempAsExpected(was, dir, p.Temp(c), c)
    ensures var (dir', c') := ActOn(p, dir, c, ok, upTo);
      && c'.n == c.n && c'.contents == c.contents && Numbered(c')
      && TempAsExpected(was, dir', p.Temp(c), c')
      && (c'.stage == Returned(true) && c.stage != Returned(true) ==>
        c.stage.Rename? && At(dir', p.name) == Some(c.contents))
      && (c.stage == Returned(true) ==> c' == c)
  {
    TempNameIsNotTheName(p.name, p.pid, c.n);
    if c.stage.Write? {
      assert c.contents[..|c.contents|] == c.contents;
    }
  }

  lemma ActKeepsTemps(p: Place, was: Dir, s: Sys, i: nat, ok: bool, upTo: nat)
    requires Good(p, was, s) && i < |s.calls| && Numbered(s.calls[i])
    ensures TempsAsExpected(p, was, Step(p, s, Act(i, ok, upTo)))
  {
    var v := Step(p, s, Act(i, ok, upTo));
    ActKeepsItsTemp(p, was, s.dir, s.calls[i], ok, upTo);
    forall j | 0 <= j < |v.calls| ensures TempAsExpected(was, v.dir, p.Temp(v.calls[j]), v.calls[j]) {
      if j != i && Numbered(s.calls[j]) {
        var f := p.Temp(s.calls[j]);
        if f == p.Temp(s.calls[i]) {
          TempNameInjective(p.name, p.pid, s.calls[j].n, s.calls[i].n);
        }
        TempNameIsNotTheName(p.name, p.pid, s.calls[j].n);
        ActIsLocal(p, s.dir, s.calls[i], ok, upTo, f);
      }
    }
  }

  lemma ActKeepsOthers(p: Place, was: Dir, s: Sys, i: nat, ok: bool, upTo: nat)
    requires Good(p, was, s) && i < |s.calls| && Numbered(s.calls[i])
    ensures OthersUntouched(p, was, Step(p, s, Act(i, ok, upTo)))
  {
    var v := Step(p, s, Act(i, ok, upTo));
    forall f | f != p.name && (forall n :: 0 <= n < v.next ==> f != TempName(p.name, p.pid, n))
      ensures At(v.dir, f) == At(was, f)
    {
      assert f != TempName(p.name, p.pid, s.calls[i].n);
      ActIsLocal(p, s.dir, s.calls[i], ok, upTo, f);
    }
  }

  lemma ActKeepsThePath(p: Place, was: Dir, s: Sys, i: nat, ok: bool, upTo: nat)
    requires Good(p, was, s) && i < |s.calls| && Numbered(s.calls[i])
    ensures PathWhole(p, was, Step(p, s, Act(i, ok, upTo)))
  {
    var v := Step(p, s, Act(i, ok, upTo));
    var c, c' := s.calls[i], v.calls[i];
    ActKeepsItsTemp(p, was, s.dir, c, ok, upTo);
    TempNameIsNotTheName(p.name, p.pid, c.n);
    assert forall j :: 0 <= j < |s.calls| && j != i ==> v.calls[j] == s.calls[j];
    if c.stage.Rename? && c'.stage == Returned(true) {
      RenameInstalls(s, v, i);
    } else {
      assert v.installed == s.installed;
      ActIsLocal(p, s.dir, c, ok, upTo, p.name);
    }
  }

  lemma RenameInstalls(s: Sys, v: Sys, i: nat)
    requires |v.calls| == |s.calls| && i < |s.calls| && v.calls[i].stage == Returned(true)
    requires v.installed == s.installed + [i]
    requires forall j :: 0 <= j < |s.calls| && j != i ==> v.calls[j] == s.calls[j]
    requires forall j :: 0 <= j < |s.calls| && s.calls[j].stage == Returned(true) ==> j in s.installed
    ensures forall j :: 0 <= j < |v.calls| && v.calls[j].stage == Returned(true) ==> j in v.installed
  {
  }

  // Nobody in this process has had the next number.
  lemma NextTempIsUntouched(p: Place, was: Dir, s: Sys)
    requires OthersUntouched(p, was, s)
    ensures At(s.dir, TempName(p.name, p.pid, s.next)) == At(was, TempName(p.name, p.pid, s.next))
  {
    var tmp := TempName(p.name, p.pid, s.next);
    TempNameIsNotTheName(p.name, p.pid, s.next);
    forall n | 0 <= n < s.next ensures tmp != TempName(p.name, p.pid, n) {
      if tmp == TempName(p.name, p.pid, n) {
        TempNameInjective(p.name, p.pid, s.next, n);
      }
    }
  }

  lemma TakingANumberKeepsTemps(p: Place, was: Dir, s: Sys, i: nat, ok: bool, upTo: nat)
    requires Good(p, was, s) && i < |s.calls| && !Numbered(s.calls[i])
    ensures TempsAsExpected(p, was, Step(p, s, Act(i, ok, upTo)))
  {
    var v := Step(p, s, Act(i, ok, upTo));
    NextTempIsUntouched(p, was, s);
    assert forall j :: 0 <= j < |v.calls| && j != i ==> v.calls[j] == s.calls[j];
    assert TempAsExpected(was, s.dir, p.Temp(s.calls[i]), s.calls[i]);
  }

  lemma TakingANumberKeepsThePath(p: Place, was: Dir, s: Sys, i: nat, ok: bool, upTo: nat)
    requires PathWhole(p, was, s) && i < |s.calls| && !Numbered(s.calls[i])
    ensures PathWhole(p, was, Step(p, s, Act(i, ok, upTo)))
  {
    var v := Step(p, s, Act(i, ok, upTo));
    assert forall j :: 0 <= j < |v.calls| && j != i ==> v.calls[j] == s.calls[j];
  }

  lemma TakingANumberIsGood(p: Place, was: Dir, s: Sys, i: nat, ok: bool, upTo: nat)
    requires Good(p, was, s) && i < |s.calls| && !Numbered(s.calls[i])
    ensures Good(p, was, Step(p, s, Act(i, ok, upTo)))
  {
    TakingANumberKeepsTemps(p, was, s, i, ok, upTo);
    TakingANumberKeepsThePath(p, was, s, i, ok, upTo);
    var v := Step(p, s, Act(i, ok, upTo));
    assert NumbersDistinct(v);
    assert OthersUntouched(p, was, v);
  }

  lemma SpawnIsGood(p: Place, was: Dir, s: Sys, contents: Bytes)
    requires Good(p, was, s)
    ensures Good(p, was, Step(p, s, Spawn(contents)))
  {
    var v := Step(p, s, Spawn(contents));
    assert forall j :: 0 <= j < |s.calls| ==> v.calls[j] == s.calls[j];
    assert TempsAsExpected(p, was, v);
    assert PathWhole(p, was, v);
  }

  lemma StepIsGood(p: Place, was: Dir, s: Sys, e: Event)
    requires Good(p, was, s)
    ensures Good(p, was, Step(p, s, e))
  {
    match e
    case Spawn(contents) => SpawnIsGood(p, was, s, contents);
    case Act(i, ok, upTo) =>
      if i < |s.calls| {
        if Numbered(s.calls[i]) {
          ActKeepsItsTemp(p, was, s.dir, s.calls[i], ok, upTo);
          ActKeepsTemps(p, was, s, i, ok, upTo);
          ActKeepsOthers(p, was, s, i, ok, upTo);
          ActKeepsThePath(p, was, s, i, ok, upTo);
        } else {
          TakingANumberIsGood(p, was, s, i, ok, upTo);
        }
      }
  }

  lemma {:induction false} EveryInterleavingIsGood(p: Place, was: Dir, events: seq<Event>)
    ensures Good(p, was, Run(p, Begin(was), events))
    decreases |events|
  {
    if events != [] {
      EveryInterleavingIsGood(p, was, events[..|events| - 1]);
      StepIsGood(p, was, Run(p, Begin(was), events[..|events| - 1]), events[|events| - 1]);
    }
  }

  // What the calls were to write, told from the events.
  function Spawned(events: seq<Event>): seq<Bytes> {
    if events == [] then []
    else
      var e := events[|events| - 1];
      Spawned(events[..|events| - 1]) + if e.Spawn? then [e.contents] else []
  }

  lemma {:induction false} CallsAreTheSpawned(p: Place, was: Dir, events: seq<Event>)
    ensures var calls := Run(p, Begin(was), events).calls;
      |calls| == |Spawned(events)| && forall i :: 0 <= i < |calls| ==> calls[i].contents == Spawned(events)[i]
    decreases |events|
  {
    if events != [] {
      CallsAreTheSpawned(p, was, events[..|events| - 1]);
      StepKeepsContents(p, Run(p, Begin(was), events[..|events| - 1]), events[|events| - 1]);
    }
  }

  lemma StepKeepsContents(p: Place, s: Sys, e: Event)
    ensures var v := Step(p, s, e);
      && |v.calls| == |s.calls| + (if e.Spawn? then 1 else 0)
      && (forall i :: 0 <= i < |s.calls| ==> v.calls[i].contents == s.calls[i].contents)
      && (e.Spawn? ==> v.calls[|s.calls|].contents == e.contents)
  {
  }

  // At every moment the path holds its initial contents or one call's whole
  // contents, and no two calls have the same temp file.
  lemma ThePathIsNeverPartial(p: Place, was: Dir, events: seq<Event>)
    ensures var s := Run(p, Begin(was), events);
      At(s.dir, p.name) == At(was, p.name) || (exists i :: IsInstalled(p, s, events, i))
    ensures var s := Run(p, Begin(was), events);
      forall i, j :: 0 <= i < j < |s.calls| && Numbered(s.calls[i]) && Numbered(s.calls[j]) ==>
        p.Temp(s.calls[i]) != p.Temp(s.calls[j])
  {
    EveryInterleavingIsGood(p, was, events);
    CallsAreTheSpawned(p, was, events);
    var s := Run(p, Begin(was), events);
    if s.installed != [] {
      assert IsInstalled(p, s, events, s.installed[|s.installed| - 1]);
    }
    forall i, j | 0 <= i < j < |s.calls| && Numbered(s.calls[i]) && Numbered(s.calls[j])
      ensures p.Temp(s.calls[i]) != p.Temp(s.calls[j])
    {
      if p.Temp(s.calls[i]) == p.Temp(s.calls[j]) {
        TempNameInjective(p.name, p.pid, s.calls[i].n, s.calls[j].n);
      }
    }
  }

  // The path holds all that call `i`, which returned well, was to write.
  ghost predicate IsInstalled(p: Place, s: Sys, events: seq<Event>, i: nat) {
    && i < |s.calls| && s.calls[i].stage == Returned(true)
    && i < |Spawned(events)| && At(s.dir, p.name) == Some(Spawned(events)[i])
  }

  predicate AllReturned(s: Sys) {
    forall i :: 0 <= i < |s.calls| ==> s.calls[i].stage.Returned?
  }

  // The event is a failing removal, call `i`'s next step at `stage`, while the
  // call's temp file is there.
  predicate RemovalFails(p: Place, s: Sys, e: Event, i: nat, stage: Stage) {
    && e.Act? && e.i == i && !e.ok
    && i < |s.calls| && s.calls[i].stage == stage && p.Temp(s.calls[i]) in s.dir
  }

  predicate RemovalFailsAt(p: Place, was: Dir, events: seq<Event>, k: nat, i: nat, stage: Stage) {
    k < |events| && RemovalFails(p, Run(p, Begin(was), events[..k]), events[k], i, stage)
  }

  // The removal of a dead process's file failed.
  ghost predicate LeftoverStays(p: Place, was: Dir, events: seq<Event>, i: nat) {
    SomeRemovalFails(p, was, events, i, RemoveLeftover)
  }

  // The call's removal of its own file failed.
  ghost predicate CleanUpFails(p: Place, was: Dir, events: seq<Event>, i: nat) {
    SomeRemovalFails(p, was, events, i, CleanUp)
  }

  lemma {:induction false} CallsGrow(p: Place, s: Sys, events: seq<Event>, k: nat)
    requires k <= |events|
    ensures |Run(p, s, events[..k]).calls| <= |Run(p, s, events).calls|
    decreases |events|
  {
    if k == |events| {
      assert events[..k] == events;
    } else {
      var before := events[..|events| - 1];
      assert before[..k] == events[..k];
      CallsGrow(p, s, before, k);
    }
  }

  ghost predicate SomeRemovalFails(p: Place, was: Dir, events: seq<Event>, i: nat, stage: Stage) {
    exists k :: RemovalFailsAt(p, was, events, k, i, stage)
  }

  // A failing removal among some events is the last of them, or one of those
  // before it.
  lemma RemovalFailsBefore(p: Place, was: Dir, before: seq<Event>, e: Event, i: nat, stage: Stage)
    ensures SomeRemovalFails(p, was, before + [e], i, stage) <==>
      SomeRemovalFails(p, was, before, i, stage) || RemovalFails(p, Run(p, Begin(was), before), e, i, stage)
  {
    var events := before + [e];
    forall k: nat | k < |before|
      ensures RemovalFailsAt(p, was, events, k, i, stage) <==> RemovalFailsAt(p, was, before, k, i, stage)
    {
      assert events[..k] == before[..k] && events[k] == before[k];
    }
    assert events[..|before|] == before;
    assert RemovalFailsAt(p, was, events, |before|, i, stage)
      <==> RemovalFails(p, Run(p, Begin(was), before), e, i, stage);
    if k: nat :| RemovalFailsAt(p, was, before, k, i, stage) {
      assert RemovalFailsAt(p, was, events, k, i, stage);
    }
    if k: nat :| RemovalFailsAt(p, was, events, k, i, stage) {
      assert k < |before| ==> RemovalFailsAt(p, was, before, k, i, stage);
    }
  }

  lemma NoRemovalBeforeTheCall(p: Place, was: Dir, events: seq<Event>, i: nat, stage: Stage)
    requires i >= |Run(p, Begin(was), events).calls|
    ensures !SomeRemovalFails(p, was, events, i, stage)
  {
    forall k: nat ensures !RemovalFailsAt(p, was, events, k, i, stage) {
      if k < |events| {
        CallsGrow(p, Begin(was), events, k);
      }
    }
  }

  lemma MarksOfOneStep(p: Place, s: Sys, e: Event, i: nat)
    requires i < |s.calls|
    requires s.calls[i].stage == RemoveLeftover ==> !s.calls[i].inherited
    requires s.calls[i].stage == CleanUp ==> !s.calls[i].abandoned
    ensures var c, v := s.calls[i], Step(p, s, e).calls[i];
      && (v.inherited <==> c.inherited || RemovalFails(p, s, e, i, RemoveLeftover))
      && (v.abandoned <==> c.abandoned || RemovalFails(p, s, e, i, CleanUp))
  {
  }

  lemma MarksOfAGoodCall(p: Place, was: Dir, s: Sys, i: nat)
    requires Good(p, was, s) && i < |s.calls|
    ensures s.calls[i].stage == RemoveLeftover ==> !s.calls[i].inherited
    ensures s.calls[i].stage == CleanUp ==> !s.calls[i].abandoned
  {
    assert TempAsExpected(was, s.dir, p.Temp(s.calls[i]), s.calls[i]);
  }

  // A call's marks say which of its removals failed.
  lemma {:induction false} MarksTellTheFailures(p: Place, was: Dir, events: seq<Event>, i: nat)
    requires i < |Run(p, Begin(was), events).calls|
    ensures var c := Run(p, Begin(was), events).calls[i];
      && (c.inherited <==> LeftoverStays(p, was, events, i))
      && (c.abandoned <==> CleanUpFails(p, was, events, i))
    decreases |events|
  {
    if events != [] {
      var before, e := events[..|events| - 1], events[|events| - 1];
      assert events == before + [e];
      var s := Run(p, Begin(was), before);
      RemovalFailsBefore(p, was, before, e, i, RemoveLeftover);
      RemovalFailsBefore(p, was, before, e, i, CleanUp);
      if i < |s.calls| {
        MarksTellTheFailures(p, was, before, i);
        EveryInterleavingIsGood(p, was, before);
        MarksOfAGoodCall(p, was, s, i);
        MarksOfOneStep(p, s, e, i);
      } else {
        NoRemovalBeforeTheCall(p, was, before, i, RemoveLeftover);
        NoRemovalBeforeTheCall(p, was, before, i, CleanUp);
      }
    }
  }

  // Once every call has returned: a temp file is there exactly where a removal
  // of it failed, and is the call's own unless it is a dead process's, still as
  // it was; nothing else but the path has changed; and the path is as the last
  // successful call left it, or as it was if none succeeded.
  lemma NothingIsLeftBehind(p: Place, was: Dir, events: seq<Event>)
    requires AllReturned(Run(p, Begin(was), events))
    ensures var s := Run(p, Begin(was), events);
      && (forall i :: 0 <= i < |s.calls| ==>
        && (p.Temp(s.calls[i]) in s.dir <==> LeftoverStays(p, was, events, i) || CleanUpFails(p, was, events, i))
        && (LeftoverStays(p, was, events, i) ==> Inherits(was, s.dir, p.Temp(s.calls[i]))))
      && OthersUntouched(p, was, s)
      && (s.installed == [] <==> forall i :: 0 <= i < |s.calls| ==> s.calls[i].stage == Returned(false))
      && PathWhole(p, was, s)
  {
    EveryInterleavingIsGood(p, was, events);
    var s := Run(p, Begin(was), events);
    forall i | 0 <= i < |s.calls|
      ensures p.Temp(s.calls[i]) in s.dir <==> LeftoverStays(p, was, events, i) || CleanUpFails(p, was, events, i)
      ensures LeftoverStays(p, was, events, i) ==> Inherits(was, s.dir, p.Temp(s.calls[i]))
    {
      assert s.calls[i].stage.Returned?;
      assert TempAsExpected(was, s.dir, p.Temp(s.calls[i]), s.calls[i]);
      MarksTellTheFailures(p, was, events, i);
    }
  }

  // If no removal fails, no temp file remains, whatever else does.
  lemma RemovalsThatWorkLeaveNothing(p: Place, was: Dir, events: seq<Event>)
    requires AllReturned(Run(p, Begin(was), events))
    requires forall k, i :: !RemovalFailsAt(p, was, events, k, i, RemoveLeftover)
    requires forall k, i :: !RemovalFailsAt(p, was, events, k, i, CleanUp)
    ensures var s := Run(p, Begin(was), events);
      forall i :: 0 <= i < |s.calls| ==> p.Temp(s.calls[i]) !in s.dir
  {
    NothingIsLeftBehind(p, was, events);
  }

  // A call fails exactly when a step of its own does: no call makes another
  // fail.
  lemma NoCallFailsAnother(p: Place, was: Dir, events: seq<Event>, i: nat)
    requires i < |Run(p, Begin(was), events).calls|
    ensures var c := Run(p, Begin(was), events).calls[i];
      c.stage.Returned? ==> (c.failed <==> c.stage == Returned(false))
  {
    EveryInterleavingIsGood(p, was, events);
    var s := Run(p, Begin(was), events);
    assert TempAsExpected(was, s.dir, p.Temp(s.calls[i]), s.calls[i]);
  }

  // --- One call on its own -----------------------------------------------------

  // Which effects go well, and how much a failing write gets out.
  datatype Luck = Luck(removes: bool, creates: bool, writes: bool, wrote: nat, settles: bool, renames: bool,
                       cleansUp: bool)

  // What the call's next effect comes to.
  function Chance(c: Call, luck: Luck): (bool, nat) {
    match c.stage
    case RemoveLeftover => (luck.removes, 0)
    case Create => (luck.creates, 0)
    case Write(_) => (luck.writes, if luck.writes then |c.contents| else Min(luck.wrote, |c.contents|))
    case Settle => (luck.settles, 0)
    case Rename => (luck.renames, 0)
    case CleanUp => (luck.cleansUp, 0)
    case _ => (true, 0)
  }

  // The call's next `n` steps, with no other call's in between.
  function Alone(p: Place, dir: Dir, c: Call, luck: Luck, n: nat): (Dir, Call)
    decreases n
  {
    if n == 0 then (dir, c)
    else
      var (ok, upTo) := Chance(c, luck);
      var (d, v) := ActOn(p, dir, c, ok, upTo);
      Alone(p, d, v, luck, n - 1)
  }

  lemma RunOn(p: Place, s: Sys, e: Event, events: seq<Event>)
    ensures Run(p, s, [e] + events) == Run(p, Step(p, s, e), events)
    decreases |events|
  {
    var all := [e] + events;
    if events == [] {
      assert all == [e] && all[..0] == [];
    } else {
      assert all[..|all| - 1] == [e] + events[..|events| - 1];
      RunOn(p, s, e, events[..|events| - 1]);
    }
  }

  // They are a run of the machine.
  lemma {:induction false} AloneIsARun(p: Place, s: Sys, i: nat, luck: Luck, n: nat) returns (events: seq<Event>)
    requires i < |s.calls| && Numbered(s.calls[i])
    ensures var v := Run(p, s, events);
      && |v.calls| == |s.calls| && v.next == s.next
      && (v.dir, v.calls[i]) == Alone(p, s.dir, s.calls[i], luck, n)
    decreases n
  {
    if n == 0 {
      events := [];
    } else {
      var (ok, upTo) := Chance(s.calls[i], luck);
      var next := Step(p, s, Act(i, ok, upTo));
      var rest := AloneIsARun(p, next, i, luck, n - 1);
      events := [Act(i, ok, upTo)] + rest;
      RunOn(p, s, Act(i, ok, upTo), rest);
    }
  }

  function Fresh(contents: Bytes, n: nat): Call {
    Call(contents, n, RemoveLeftover, false, false, false)
  }

  lemma AloneGivesUp(p: Place, dir: Dir, contents: Bytes, n: nat, luck: Luck)
    requires TempName(p.name, p.pid, n) in Remove(dir, TempName(p.name, p.pid, n), luck.removes) || !luck.creates
    ensures var tmp := TempName(p.name, p.pid, n);
      var (d, c) := Alone(p, dir, Fresh(contents, n), luck, 6);
      d == Remove(dir, tmp, luck.removes) && c.stage == Returned(false) && c.inherited == (tmp in dir && !luck.removes)
  {
    var c0 := Fresh(contents, n);
    var (d1, c1) := ActOn(p, dir, c0, luck.removes, 0);
    var (d2, c2) := ActOn(p, d1, c1, luck.creates, 0);
    ReturnedStays(p, d2, c2, luck, 4);
    assert Alone(p, dir, c0, luck, 6) == Alone(p, d1, c1, luck, 5) == Alone(p, d2, c2, luck, 4);
  }

  lemma {:induction false} ReturnedStays(p: Place, dir: Dir, c: Call, luck: Luck, n: nat)
    requires c.stage.Returned?
    ensures Alone(p, dir, c, luck, n) == (dir, c)
    decreases n
  {
    if n > 0 {
      ReturnedStays(p, dir, c, luck, n - 1);
    }
  }

  lemma AloneCreates(p: Place, dir: Dir, contents: Bytes, n: nat, luck: Luck)
    requires var tmp := TempName(p.name, p.pid, n); luck.creates && tmp !in Remove(dir, tmp, luck.removes)
    ensures var tmp := TempName(p.name, p.pid, n);
      Alone(p, dir, Fresh(contents, n), luck, 6)
        == Alone(p, Remove(dir, tmp, luck.removes)[tmp := []], Fresh(contents, n).(stage := Write(0)), luck, 4)
  {
    var (d1, c1) := ActOn(p, dir, Fresh(contents, n), luck.removes, 0);
    var (d2, c2) := ActOn(p, d1, c1, luck.creates, 0);
    assert Alone(p, dir, Fresh(contents, n), luck, 6) == Alone(p, d1, c1, luck, 5) == Alone(p, d2, c2, luck, 4);
  }

  lemma AloneCleansUp(p: Place, dir: Dir, c: Call, luck: Luck, n: nat)
    requires c.stage == CleanUp && n > 0
    ensures Alone(p, dir, c, luck, n).0 == Remove(dir, p.Temp(c), luck.cleansUp)
    ensures Alone(p, dir, c, luck, n).1.stage == Returned(false)
  {
    var (d, v) := ActOn(p, dir, c, luck.cleansUp, 0);
    ReturnedStays(p, d, v, luck, n - 1);
  }

  lemma AloneFills(p: Place, dir: Dir, c: Call, luck: Luck)
    requires c.stage == Write(0) && p.Temp(c) in dir
    ensures var tmp := p.Temp(c);
      var (d, v) := Alone(p, dir, c, luck, 4);
      if luck.writes && luck.settles && luck.renames then
        d == (dir - {tmp})[p.name := c.contents] && v.stage == Returned(true)
      else
        d == Remove(dir[tmp := c.contents[..Chance(c, luck).1]], tmp, luck.cleansUp) && v.stage == Returned(false)
  {
    var upTo := Chance(c, luck).1;
    var (d1, c1) := ActOn(p, dir, c, luck.writes, upTo);
    assert c.contents[..|c.contents|] == c.contents;
    assert Alone(p, dir, c, luck, 4) == Alone(p, d1, c1, luck, 3);
    if !luck.writes {
      AloneCleansUp(p, d1, c1, luck, 3);
    } else {
      AloneSettles(p, d1, c1, luck);
      assert d1 - {p.Temp(c)} == dir - {p.Temp(c)};
    }
  }

  lemma AloneSettles(p: Place, dir: Dir, c: Call, luck: Luck)
    requires c.stage == Settle && p.Temp(c) in dir
    ensures var tmp := p.Temp(c);
      var (d, v) := Alone(p, dir, c, luck, 3);
      if luck.settles && luck.renames then d == (dir - {tmp})[p.name := dir[tmp]] && v.stage == Returned(true)
      else d == Remove(dir, tmp, luck.cleansUp) && v.stage == Returned(false)
  {
    var (d1, c1) := ActOn(p, dir, c, luck.settles, 0);
    assert Alone(p, dir, c, luck, 3) == Alone(p, d1, c1, luck, 2);
    if !luck.settles {
      AloneCleansUp(p, d1, c1, luck, 2);
    } else {
      var (d2, c2) := ActOn(p, d1, c1, luck.renames, 0);
      assert Alone(p, d1, c1, luck, 2) == Alone(p, d2, c2, luck, 1);
      if luck.renames {
        ReturnedStays(p, d2, c2, luck, 1);
      } else {
        AloneCleansUp(p, d2, c2, luck, 1);
      }
    }
  }

  // A call on its own in a fresh process, as a run of the machine.
  lemma ACallAlone(p: Place, was: Dir, contents: Bytes, luck: Luck) returns (events: seq<Event>)
    ensures var s := Run(p, Begin(was), events);
      |s.calls| == 1 && (s.dir, s.calls[0]) == Alone(p, was, Fresh(contents, 0), luck, 6)
  {
    var spawn, take := Spawn(contents), Act(0, true, 0);
    var s := Step(p, Step(p, Begin(was), spawn), take);
    assert s == Sys(was, 1, [Fresh(contents, 0)], []);
    var rest := AloneIsARun(p, s, 0, luck, 6);
    events := [spawn] + ([take] + rest);
    RunOn(p, Begin(was), spawn, [take] + rest);
    RunOn(p, Step(p, Begin(was), spawn), take, rest);
  }

  // A failed call can leave its own file behind: its write fails, anywhere, and
  // then the removal.
  lemma AFailedCleanUpLeavesTheFile(p: Place, was: Dir, contents: Bytes, luck: Luck) returns (events: seq<Event>)
    requires TempName(p.name, p.pid, 0) !in was && luck.creates && !luck.writes && !luck.cleansUp
    ensures var s := Run(p, Begin(was), events);
      && AllReturned(s) && |s.calls| == 1 && s.calls[0].stage == Returned(false)
      && At(s.dir, p.Temp(s.calls[0])) == Some(contents[..Min(luck.wrote, |contents|)])
      && CleanUpFails(p, was, events, 0) && !LeftoverStays(p, was, events, 0)
  {
    events := ACallAlone(p, was, contents, luck);
    var tmp := TempName(p.name, p.pid, 0);
    assert Remove(was, tmp, luck.removes) == was;
    AloneCreates(p, was, contents, 0, luck);
    AloneFills(p, was[tmp := []], Fresh(contents, 0).(stage := Write(0)), luck);
    AloneKeepsItsNumber(p, was, Fresh(contents, 0), luck, 6);
    NothingIsLeftBehind(p, was, events);
  }

  // And a dead process's file stays when it cannot be removed.
  lemma AFailedRemovalLeavesTheOldFile(p: Place, was: Dir, contents: Bytes, luck: Luck) returns (events: seq<Event>)
    requires TempName(p.name, p.pid, 0) in was && !luck.removes
    ensures var s := Run(p, Begin(was), events);
      && AllReturned(s) && |s.calls| == 1 && s.calls[0].stage == Returned(false)
      && s.dir == was && LeftoverStays(p, was, events, 0)
  {
    events := ACallAlone(p, was, contents, luck);
    AloneGivesUp(p, was, contents, 0, luck);
    MarksTellTheFailures(p, was, events, 0);
  }

  lemma {:induction false} AloneKeepsItsNumber(p: Place, dir: Dir, c: Call, luck: Luck, n: nat)
    ensures Alone(p, dir, c, luck, n).1.n == c.n
    decreases n
  {
    if n > 0 {
      var (ok, upTo) := Chance(c, luck);
      var (d, v) := ActOn(p, dir, c, ok, upTo);
      AloneKeepsItsNumber(p, d, v, luck, n - 1);
    }
  }

  class Disk {
    var dir: Dir
    var next: nat

    // Removes `tmp`; that it may fail is ignored.
    method TryRemove(tmp: string, ok: bool)
      modifies this`dir
      ensures dir == if ok then old(dir) - {tmp} else old(dir)
    {
      if ok {
        dir := dir - {tmp};
      }
    }

    // Writes `contents` to `tmp`, settles it and renames it over `path`.
    method Fill(tmp: string, path: string, contents: Bytes, luck: Luck) returns (ok: bool)
      requires tmp != path && tmp in dir
      modifies this`dir
      ensures ok <==> luck.writes && luck.settles && luck.renames
      ensures ok ==> dir == (old(dir) - {tmp})[path := contents]
      ensures !ok ==>
        dir == old(dir)[tmp := if luck.writes then contents else contents[..Min(luck.wrote, |contents|)]]
    {
      if !luck.writes {
        dir := dir[tmp := contents[..Min(luck.wrote, |contents|)]];
        return false;
      }
      dir := dir[tmp := contents];
      if !luck.settles || !luck.renames {
        return false;
      }
      dir := (dir - {tmp})[path := dir[tmp]];
      return true;
    }

    // A call on its own does what the machine's call does, and so it is all
    // or nothing at the path, whatever fails.
    method WriteAtomic(p: Place, contents: Bytes, luck: Luck) returns (ok: bool)
      modifies this
      ensures next == old(next) + 1
      ensures var (d, c) := Alone(p, old(dir), Fresh(contents, old(next)), luck, 6);
        dir == d && c.stage == Returned(ok)
      ensures var tmp := TempName(p.name, p.pid, old(next));
        ok <==> luck.creates && luck.writes && luck.settles && luck.renames && (luck.removes || tmp !in old(dir))
      ensures At(dir, p.name) == if ok then Some(contents) else At(old(dir), p.name)
    {
      var n := next;
      next := n + 1;
      var tmp := TempName(p.name, p.pid, n);
      TempNameIsNotTheName(p.name, p.pid, n);
      TryRemove(tmp, luck.removes);
      if tmp in dir || !luck.creates {
        AloneGivesUp(p, old(dir), contents, n, luck);
        return false;
      }
      AloneCreates(p, old(dir), contents, n, luck);
      assert At(dir, p.name) == At(old(dir), p.name);
      dir := dir[tmp := []];
      ok := FillOrClean(p, Fresh(contents, n).(stage := Write(0)), luck);
    }

    // From the moment the temp file is there.
    method FillOrClean(p: Place, c: Call, luck: Luck) returns (ok: bool)
      requires c.stage == Write(0) && p.Temp(c) in dir
      modifies this`dir
      ensures var (d, v) := Alone(p, old(dir), c, luck, 4);
        dir == d && v.stage == Returned(ok)
      ensures ok <==> luck.writes && luck.settles && luck.renames
      ensures At(dir, p.name) == if ok then Some(c.contents) else At(old(dir), p.name)
    {
      TempNameIsNotTheName(p.name, p.pid, c.n);
      AloneFills(p, dir, c, luck);
      assert c.contents[..|c.contents|] == c.contents;
      ok := Fill(p.Temp(c), p.name, c.contents, luck);
      if !ok {
        TryRemove(p.Temp(c), luck.cleansUp);
      }
    }
  }
}
