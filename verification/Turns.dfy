/** Tasks run in the order they are made ready, each once, and what one does while it runs is what comes of it. */
module Turns {
  import opened Wrappers
  import opened Ir
  import opened Time
  import opened Waiting
  import opened Simulated
  import opened Delivery

  /** The task an event makes ready: one spawned, one whose timer fires, or one told of a message. */
  function ReadiedBy(e: Event): seq<Runnable> {
    match e
    case Spawned(r) => [r]
    case Fired(entry, _) => if entry.callback.Wake? then [entry.callback.runnable] else []
    case Roused(x) => [x.runnable]
    case _ => []
  }

  /** The task whose turn an event is, to run or, its node killed, to be dropped. */
  function TurnOf(e: Event): seq<Runnable> {
    match e
    case Ran(r) => [r]
    case Discarded(r) => [r]
    case _ => []
  }

  function Readied(log: seq<Event>): seq<Runnable> {
    if log == [] then [] else Readied(log[..|log| - 1]) + ReadiedBy(log[|log| - 1])
  }

  function Turns(log: seq<Event>): seq<Runnable> {
    if log == [] then [] else Turns(log[..|log| - 1]) + TurnOf(log[|log| - 1])
  }

  predicate KilledAt(log: seq<Event>, j: nat, node: nat) {
    j < |log| && log[j] == Killed(node)
  }

  ghost predicate KilledBy(log: seq<Event>, n: nat, node: nat) {
    exists j: nat :: j < n && KilledAt(log, j, node)
  }

  /** Whoever was made ready has had a turn or is ready, in order; those of killed nodes, and no others, are dropped. */
  ghost predicate TurnsKept(w: World, first: Runnable) {
    && [first] + Readied(w.log) == Turns(w.log) + w.ready
    && (forall node: nat :: node in w.killed <==> KilledBy(w.log, |w.log|, node))
    && (forall i: nat | i < |w.log| && w.log[i].Discarded? :: KilledBy(w.log, i, w.log[i].runnable.node))
    && (forall i: nat | i < |w.log| && w.log[i].Ran? :: !KilledBy(w.log, i, w.log[i].runnable.node))
  }

  lemma KilledStays(log: seq<Event>, more: seq<Event>, n: nat, node: nat)
    requires log <= more && n <= |log|
    ensures KilledBy(more, n, node) <==> KilledBy(log, n, node)
  {
    assert forall j: nat | j < n :: KilledAt(more, j, node) == KilledAt(log, j, node);
  }

  /** One event more: what it makes ready joins the others, its turn is the first one's, and its kill is of one more. */
  lemma OneMore(w: World, e: Event, w': World, first: Runnable)
    requires TurnsKept(w, first) && w'.log == w.log + [e]
    requires w.ready + ReadiedBy(e) == TurnOf(e) + w'.ready
    requires w'.killed == w.killed + if e.Killed? then {e.node} else {}
    requires e.Discarded? ==> e.runnable.node in w.killed
    requires e.Ran? ==> e.runnable.node !in w.killed
    ensures TurnsKept(w', first)
  {
    hide KilledBy, ReadiedBy, TurnOf;
    var n := |w.log|;
    assert w'.log[..n] == w.log && w'.log[n] == e;
    assert [first] + Readied(w'.log) == Turns(w.log) + w.ready + ReadiedBy(e);
    assert Turns(w'.log) + w'.ready == Turns(w.log) + (TurnOf(e) + w'.ready);
    forall node: nat ensures node in w'.killed <==> KilledBy(w'.log, |w'.log|, node) {
      KilledNow(w.log, e, node);
    }
    forall i: nat | i < |w'.log| && (w'.log[i].Discarded? || w'.log[i].Ran?)
      ensures KilledBy(w'.log, i, w'.log[i].runnable.node) <==> w'.log[i].Discarded?
    {
      KilledStays(w.log, w'.log, i, w'.log[i].runnable.node);
    }
  }

  lemma KilledNow(log: seq<Event>, e: Event, node: nat)
    ensures KilledBy(log + [e], |log| + 1, node) <==> KilledBy(log, |log|, node) || e == Killed(node)
  {
    var more, n := log + [e], |log|;
    KilledStays(log, more, n, node);
    assert KilledAt(more, n, node) <==> e == Killed(node);
    if KilledBy(more, n + 1, node) {
      var j: nat :| j < n + 1 && KilledAt(more, j, node);
      assert j < n ==> KilledBy(more, n, node);
    }
  }

  lemma NoMore(w: World, w': World, first: Runnable)
    requires TurnsKept(w, first) && w'.log == w.log && w'.ready == w.ready && w'.killed == w.killed
    ensures TurnsKept(w', first)
  {
  }

  lemma RouseTurns(w: World, address: nat, first: Runnable)
    requires TurnsKept(w, first)
    ensures TurnsKept(Rouse(w, address), first)
  {
    hide TurnsKept;
    var k := PlaceOf(w.waiting, address);
    if k < |w.waiting| {
      OneMore(w, Roused(w.waiting[k]), Rouse(w, address), first);
    }
  }

  lemma DepartTurns(w: World, x: Waiter, first: Runnable)
    requires TurnsKept(w, first)
    ensures TurnsKept(Depart(w, x), first)
  {
    hide TurnsKept, Rouse, Leave;
    if x in w.waiting || x !in w.woken {
      NoMore(w, Depart(w, x), first);
    } else {
      NoMore(w, w.(woken := Leave(w.woken, x)), first);
      RouseTurns(w.(woken := Leave(w.woken, x)), x.address, first);
    }
  }

  lemma {:induction false} HandOnTurns(w: World, places: seq<Waiter>, first: Runnable)
    requires TurnsKept(w, first)
    ensures TurnsKept(HandOn(w, places), first)
    decreases |places|
  {
    hide TurnsKept, Rouse;
    if places != [] {
      RouseTurns(w, places[0].address, first);
      HandOnTurns(Rouse(w, places[0].address), places[1..], first);
    }
  }

  lemma ListeningTurns(w: World, address: nat, first: Runnable)
    requires TurnsKept(w, first)
    ensures TurnsKept(Listening(w, address), first)
  {
    hide TurnsKept;
    if address !in w.endpoints {
      OneMore(w, Opened(address), Listening(w, address), first);
    }
  }

  lemma LookTurns(w: World, x: Waiter, first: Runnable)
    requires x.address in w.endpoints && TurnsKept(w, first)
    ensures TurnsKept(Look(w, x), first)
  {
    hide TurnsKept, Depart, Leave;
    if w.endpoints[x.address] != [] {
      TakeTurns(w, x.address, first);
      DepartTurns(Take(w, x.address), x, first);
    } else {
      NoMore(w, Look(w, x), first);
    }
  }

  lemma TakeTurns(w: World, address: nat, first: Runnable)
    requires address in w.endpoints && w.endpoints[address] != [] && TurnsKept(w, first)
    ensures TurnsKept(Take(w, address), first)
  {
    hide TurnsKept;
    OneMore(w, Received(address, w.endpoints[address][0]), Take(w, address), first);
  }

  lemma ArmTurns(w: World, deadline: int, callback: Callback, first: Runnable)
    requires TurnsKept(w, first)
    ensures TurnsKept(Arm(w, deadline, callback), first)
  {
    hide TurnsKept;
    OneMore(w, Armed(Entry(w.armed, deadline, callback), w.now), Arm(w, deadline, callback), first);
  }

  lemma DoTurns(w: World, self: Runnable, e: Effect, first: Runnable)
    requires TurnsKept(w, first) && Do(w, self, e).Some?
    ensures TurnsKept(Do(w, self, e).value, first)
  {
    hide TurnsKept, Arm, Look, Depart, Take, Listening;
    var w' := Do(w, self, e).value;
    match e {
      case Spawn(r) => OneMore(w, Spawned(r), w', first);
      case SleepUntil(deadline) =>
        if w.now < deadline {
          ArmTurns(w, deadline, Wake(self), first);
        }
      case ArmTimer(deadline, r) => ArmTurns(w, deadline, Wake(r), first);
      case Transmit(from, to, tag, data, lost, latency) =>
        var sent := Sent(from, to, tag, data, lost, latency, w.now);
        OneMore(w, sent, Noted(w, sent), first);
        ArmTurns(Noted(w, sent), w.now + latency, Deliver(to, Message(tag, data, from)), first);
      case Kill(node) => OneMore(w, Killed(node), w', first);
      case Listen(address) => ListeningTurns(w, address, first);
      case GiveUp(address) => DepartTurns(w, Waiter(address, self), first);
      case _ => ReceiveTurns(w, self, e, first);
    }
  }

  lemma ReceiveTurns(w: World, self: Runnable, e: Effect, first: Runnable)
    requires TurnsKept(w, first) && (e.Receive? || e.TryReceive?)
    ensures TurnsKept(Do(w, self, e).value, first)
  {
    hide TurnsKept, Look, Take;
    var l := Listening(w, e.address);
    ListeningTurns(w, e.address, first);
    if e.Receive? {
      LookTurns(l, Waiter(e.address, self), first);
    } else if l.endpoints[e.address] != [] {
      TakeTurns(l, e.address, first);
    }
  }

  lemma {:induction false} DoAllTurns(w: World, self: Runnable, effects: seq<Effect>, first: Runnable)
    requires TurnsKept(w, first) && DoAll(w, self, effects).Some?
    ensures TurnsKept(DoAll(w, self, effects).value, first)
    decreases |effects|
  {
    hide TurnsKept, Do;
    if effects != [] {
      DoTurns(w, self, effects[0], first);
      DoAllTurns(Do(w, self, effects[0]).value, self, effects[1..], first);
    }
  }

  lemma FireOneTurns(w: World, e: Entry, at: nat, first: Runnable)
    requires TurnsKept(w, first)
    ensures TurnsKept(FireOne(w, e, at), first)
  {
    hide TurnsKept, Rouse;
    OneMore(w, Fired(e, at), Landed(w, e, at), first);
    if e.callback.Deliver? && e.callback.to in w.endpoints {
      RouseTurns(Landed(w, e, at), e.callback.to, first);
    }
  }

  lemma {:induction false} FireAllTurns(w: World, fired: seq<Entry>, at: nat, first: Runnable)
    requires TurnsKept(w, first)
    ensures TurnsKept(FireAll(w, fired, at), first)
    decreases |fired|
  {
    hide TurnsKept, FireOne;
    if fired != [] {
      FireOneTurns(w, fired[0], at, first);
      FireAllTurns(FireOne(w, fired[0], at), fired[1..], at, first);
    }
  }

  lemma RunsOneTurns(w: World, effects: seq<Effect>, w': World, first: Runnable)
    requires TurnsKept(w, first) && RunsOne(w, effects, w')
    ensures TurnsKept(w', first)
  {
    hide TurnsKept, DoAll, HandOn, Drawn, Only;
    var r, rest := w.ready[0], w.(ready := w.ready[1..]);
    assert w.ready == [r] + rest.ready;
    if r.node in w.killed {
      OneMore(w, Discarded(r), OutOfLine(rest, r), first);
      HandOnTurns(OutOfLine(rest, r), Only(rest.woken, r, true), first);
    } else {
      OneMore(w, Ran(r), rest.(log := w.log + [Ran(r)]), first);
      DoAllTurns(rest.(log := w.log + [Ran(r)]), r, effects, first);
    }
  }

  lemma NextTurns(w: World, w': World, first: Runnable)
    requires TurnsKept(w, first) && Next(w, w')
    ensures TurnsKept(w', first)
  {
    hide TurnsKept, RunsOne, FireAll, Fires;
    if effects :| RunsOne(w, effects, w') {
      RunsOneTurns(w, effects, w', first);
    } else {
      var fired, left :| Advances(w, fired, left, w');
      var due, at := w.(queue := left), Clamp(NextTime(w.queue).value);
      NoMore(w, due, first);
      FireAllTurns(due, fired, at, first);
      NoMore(FireAll(due, fired, at), w', first);
    }
  }

  lemma {:induction false} RunTurns(ws: seq<World>, first: Runnable)
    requires IsRun(ws) && ws[0].ready == [first]
    ensures TurnsKept(ws[|ws| - 1], first)
  {
    hide TurnsKept, Next;
    var n := |ws| - 1;
    if n == 0 {
      StartTurns(ws[0], first);
    } else {
      PrefixIsRun(ws, n);
      RunTurns(ws[..n], first);
      assert Next(ws[n - 1], ws[n - 1 + 1]);
      NextTurns(ws[n - 1], ws[n], first);
    }
  }

  lemma StartTurns(w: World, first: Runnable)
    requires w.ready == [first] && exists f, config, clogged :: w == Start(f, config, clogged)
    ensures TurnsKept(w, first)
  {
  }

  // ---------------------------------------------------------------------------------------------
  // Every run
  // ---------------------------------------------------------------------------------------------

  /**
   * In every run each task that is spawned, whose timer fires or that is told of a message gets its turn, in that
   * order, each once for each; nothing else gets one but the first task; and a turn is spent dropping the task exactly
   * if its node was killed before.
   */
  lemma TurnsInOrder(ws: seq<World>, i: nat)
    requires IsRun(ws)
    ensures |ws[0].ready| == 1
    ensures var w := ws[|ws| - 1]; ws[0].ready + Readied(w.log) == Turns(w.log) + w.ready
    ensures var log := ws[|ws| - 1].log;
      i < |log| && (log[i].Ran? || log[i].Discarded?) ==>
        (log[i].Discarded? <==> KilledBy(log, i, log[i].runnable.node))
  {
    hide Next, KilledBy;
    var first := ws[0].ready[0];
    assert ws[0].ready == [first];
    RunTurns(ws, first);
  }

  // ---------------------------------------------------------------------------------------------
  // What a turn makes
  // ---------------------------------------------------------------------------------------------

  /** What an effect of `self` makes happen at the time, timers without the numbers they are given. */
  function MadeBy(e: Effect, self: Runnable, at: nat): seq<Event> {
    match e
    case Spawn(r) => [Spawned(r)]
    case SleepUntil(deadline) => if at < deadline then [Armed(Entry(0, deadline, Wake(self)), at)] else []
    case ArmTimer(deadline, r) => [Armed(Entry(0, deadline, Wake(r)), at)]
    case Transmit(from, to, tag, data, lost, latency) => [Sent(from, to, tag, data, lost, latency, at)]
    case Kill(node) => [Killed(node)]
    case _ => []
  }

  function AllMade(effects: seq<Effect>, self: Runnable, at: nat): seq<Event> {
    if effects == [] then [] else MadeBy(effects[0], self, at) + AllMade(effects[1..], self, at)
  }

  /** What was made of an event a task makes. */
  function Unnumbered(e: Event): seq<Event> {
    match e
    case Armed(entry, at) => if entry.callback.Wake? then [Armed(entry.(id := 0), at)] else []
    case Spawned(_) => [e]
    case Sent(_, _, _, _, _, _, _) => [e]
    case Killed(_) => [e]
    case _ => []
  }

  function Made(log: seq<Event>): seq<Event> {
    if log == [] then [] else Made(log[..|log| - 1]) + Unnumbered(log[|log| - 1])
  }

  lemma MadeOne(log: seq<Event>, e: Event)
    ensures Made(log + [e]) == Made(log) + Unnumbered(e)
  {
    assert (log + [e])[..|log|] == log;
  }

  lemma {:induction false} NoneMade(log: seq<Event>, more: seq<Event>)
    requires log <= more && forall i | |log| <= i < |more| :: Unnumbered(more[i]) == []
    ensures Made(more) == Made(log)
    decreases |more|
  {
    hide Unnumbered;
    if |more| > |log| {
      NoneMade(log, more[..|more| - 1]);
    } else {
      assert more == log;
    }
  }

  lemma DoMakes(w: World, self: Runnable, e: Effect)
    requires Do(w, self, e).Some?
    ensures var w' := Do(w, self, e).value;
      w'.now == w.now && Made(w'.log) == Made(w.log) + MadeBy(e, self, w.now)
  {
    hide Look, Depart, Take, Made;
    var w' := Do(w, self, e).value;
    match e {
      case Spawn(r) => MadeOne(w.log, Spawned(r));
      case SleepUntil(deadline) => MadeOne(w.log, Armed(Entry(w.armed, deadline, Wake(self)), w.now));
      case ArmTimer(deadline, r) => MadeOne(w.log, Armed(Entry(w.armed, deadline, Wake(r)), w.now));
      case Kill(node) => MadeOne(w.log, Killed(node));
      case Transmit(from, to, tag, data, lost, latency) =>
        var sent := Noted(w, Sent(from, to, tag, data, lost, latency, w.now));
        MadeOne(w.log, Sent(from, to, tag, data, lost, latency, w.now));
        NoneMade(sent.log, w'.log);
      case _ =>
        MailCalm(w, self, e);
        NoneMade(w.log, w'.log);
    }
  }

  /**
   * A task makes happen, in order and at the time the clock shows, just what it spawns, sleeps for, arms, sends and
   * kills: a sleep wakes the task itself, and only one that ends later is one at all.
   */
  lemma {:induction false} EffectsMade(w: World, self: Runnable, effects: seq<Effect>)
    requires DoAll(w, self, effects).Some?
    ensures var w' := DoAll(w, self, effects).value;
      w'.now == w.now && Made(w'.log) == Made(w.log) + AllMade(effects, self, w.now)
    decreases |effects|
  {
    hide Do, Made, MadeBy;
    if effects != [] {
      DoMakes(w, self, effects[0]);
      EffectsMade(Do(w, self, effects[0]).value, self, effects[1..]);
    }
  }

  /** A turn, of the first task that is ready, is logged; what else the task makes is what its effects do. */
  lemma TurnMakes(w: World, effects: seq<Effect>, w': World)
    requires RunsOne(w, effects, w') && w.ready[0].node !in w.killed
    ensures w'.now == w.now && w.log + [Ran(w.ready[0])] <= w'.log
    ensures Made(w'.log) == Made(w.log) + AllMade(effects, w.ready[0], w.now)
  {
    hide Made, DoAll, AllMade, Drawn;
    var r := w.ready[0];
    var ran := w.(ready := w.ready[1..], log := w.log + [Ran(r)]);
    MadeOne(w.log, Ran(r));
    EffectsMade(ran, r, effects);
    DoAllLogs(ran, r, effects);
  }

  lemma {:induction false} DoAllLogs(w: World, self: Runnable, effects: seq<Effect>)
    requires DoAll(w, self, effects).Some?
    ensures w.log <= DoAll(w, self, effects).value.log
    decreases |effects|
  {
    hide Look, Depart;
    if effects != [] {
      if IsMail(effects[0]) {
        MailCalm(w, self, effects[0]);
      }
      DoAllLogs(Do(w, self, effects[0]).value, self, effects[1..]);
    }
  }
}
