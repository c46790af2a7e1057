/** What becomes of every timer and message in a simulated run, and when its clock goes back. */
module Delivery {
  import opened Wrappers
  import opened Time
  import opened Waiting
  import opened Simulated

  /** What was delivered to an address, in order. */
  function Delivered(log: seq<Event>, to: nat): seq<Message> {
    if log == [] then []
    else Delivered(log[..|log| - 1], to) + DeliveredBy(log[|log| - 1], to)
  }

  function DeliveredBy(e: Event, to: nat): seq<Message> {
    if e.Fired? && e.entry.callback.Deliver? && e.entry.callback.to == to then [e.entry.callback.message] else []
  }

  /** What was received at an address, in order. */
  function ReceivedAt(log: seq<Event>, to: nat): seq<Message> {
    if log == [] then []
    else ReceivedAt(log[..|log| - 1], to) + ReceivedBy(log[|log| - 1], to)
  }

  function ReceivedBy(e: Event, to: nat): seq<Message> {
    if e.Received? && e.address == to then [e.message] else []
  }

  /** What waits in the mailbox of an address. */
  function Mail(w: World, to: nat): seq<Message> {
    if to in w.endpoints then w.endpoints[to] else []
  }

  ghost predicate HasFired(log: seq<Event>, e: Entry) {
    exists i: nat :: IsFiring(log, i, e)
  }

  /** Every timer armed is still to fire or has fired. */
  ghost predicate NoneLost(w: World, pending: seq<Entry>) {
    forall j | 0 <= j < |w.log| && w.log[j].Armed? ::
          w.log[j].entry in pending + w.queue || HasFired(w.log, w.log[j].entry)
  }

  /**
   * What was delivered is what was received and then what is in the mailbox; no delivery is to an address without one.
   */
  ghost predicate MailKept(w: World, pending: seq<Entry>) {
    && (forall to: nat :: Delivered(w.log, to) == ReceivedAt(w.log, to) + Mail(w, to))
    && (forall e | e in pending + w.queue && e.callback.Deliver? :: e.callback.to in w.endpoints)
  }

  /** Armed for a moment the clock had passed, as far as the clock can tell. */
  predicate IsLate(e: Event) {
    e.Armed? && Clamp(e.entry.deadline) < e.at
  }

  /** The clock has not passed a timer still to fire, unless it was armed late. */
  ghost predicate Timely(w: World, pending: seq<Entry>) {
    forall j | 0 <= j < |w.log| && w.log[j].Armed? && w.log[j].entry in pending + w.queue ::
      w.now <= Clamp(w.log[j].entry.deadline) || IsLate(w.log[j])
  }

  ghost predicate Accounted(w: World, pending: seq<Entry>) {
    NoneLost(w, pending) && MailKept(w, pending) && Timely(w, pending)
  }

  lemma LogMore(log: seq<Event>, e: Event, to: nat)
    ensures Delivered(log + [e], to) == Delivered(log, to) + DeliveredBy(e, to)
    ensures ReceivedAt(log + [e], to) == ReceivedAt(log, to) + ReceivedBy(e, to)
  {
    assert (log + [e])[..|log|] == log;
  }

  lemma FiredStays(log: seq<Event>, more: seq<Event>, e: Entry)
    requires HasFired(log, e) && log <= more
    ensures HasFired(more, e)
  {
    var i: nat :| IsFiring(log, i, e);
    assert IsFiring(more, i, e);
  }

  /** Nothing armed before is lost when nothing leaves the queue. */
  lemma OldNotLost(w: World, pending: seq<Entry>, w': World, j: nat)
    requires NoneLost(w, pending) && w.log <= w'.log && w.queue <= w'.queue && j < |w.log| && w.log[j].Armed?
    ensures w'.log[j].entry in pending + w'.queue || HasFired(w'.log, w'.log[j].entry)
  {
    hide HasFired;
    if w.log[j].entry in pending + w.queue {
      if w.log[j].entry in w.queue {
        var k :| 0 <= k < |w.queue| && w.queue[k] == w.log[j].entry;
        assert w'.queue[k] == w.queue[k];
      }
    } else {
      FiredStays(w.log, w'.log, w.log[j].entry);
    }
  }

  lemma ArmAccounted(w: World, deadline: int, callback: Callback)
    requires Accounted(w, []) && Kept(w, []) && (callback.Deliver? ==> callback.to in w.endpoints)
    ensures Accounted(Arm(w, deadline, callback), [])
  {
    hide HasFired, Delivered, ReceivedAt, ArmingsKept, FiringsKept, KillsKept, ArmedBefore, IdsDistinct;
    var w', e := Arm(w, deadline, callback), Entry(w.armed, deadline, callback);
    assert [] + w.queue == w.queue && [] + w'.queue == w'.queue;
    forall j | 0 <= j < |w'.log| && w'.log[j].Armed?
      ensures w'.log[j].entry in [] + w'.queue || HasFired(w'.log, w'.log[j].entry)
    {
      if j < |w.log| {
        OldNotLost(w, [], w', j);
      }
    }
    forall to: nat ensures Delivered(w'.log, to) == ReceivedAt(w'.log, to) + Mail(w', to) {
      LogMore(w.log, Armed(e, w.now), to);
    }
    ArmTimely(w, deadline, callback);
  }

  lemma ArmTimely(w: World, deadline: int, callback: Callback)
    requires Timely(w, []) && ArmingsKept(w)
    ensures Timely(Arm(w, deadline, callback), [])
  {
    var w' := Arm(w, deadline, callback);
    assert [] + w.queue == w.queue && [] + w'.queue == w'.queue;
    forall j | 0 <= j < |w'.log| && w'.log[j].Armed? && w'.log[j].entry in w'.queue
      ensures w'.now <= Clamp(w'.log[j].entry.deadline) || IsLate(w'.log[j])
    {
      if j < |w.log| {
        assert w.log[j].entry.id < w.armed;
        assert w.log[j].entry in w.queue;
      }
    }
  }

  /** Nothing is received that was not in a mailbox, and nothing leaves one that is not received, oldest first. */
  ghost predicate SteadyMail(w: World, w': World) {
    && (forall to | to in w.endpoints :: to in w'.endpoints)
    && (forall to: nat :: ReceivedAt(w'.log, to) + Mail(w', to) == ReceivedAt(w.log, to) + Mail(w, to))
  }

  /** What logs no reception and leaves the mailboxes alone. */
  lemma LoggedSteady(w: World, w': World)
    requires w'.endpoints == w.endpoints
    requires w'.log == w.log || exists e: Event :: !e.Received? && w'.log == w.log + [e]
    ensures SteadyMail(w, w')
  {
    hide ReceivedAt;
    forall to: nat ensures ReceivedAt(w'.log, to) == ReceivedAt(w.log, to) {
      if w'.log != w.log {
        LogMore(w.log, w'.log[|w.log|], to);
      }
    }
  }

  lemma RouseSteady(w: World, address: nat)
    ensures SteadyMail(w, Rouse(w, address))
  {
    hide SteadyMail;
    var k := PlaceOf(w.waiting, address);
    if k < |w.waiting| {
      assert !Roused(w.waiting[k]).Received?;
    }
    LoggedSteady(w, Rouse(w, address));
  }

  lemma SteadyBoth(w: World, u: World, w': World)
    requires SteadyMail(w, u) && SteadyMail(u, w')
    ensures SteadyMail(w, w')
  {
    hide ReceivedAt;
    forall to: nat ensures ReceivedAt(w'.log, to) + Mail(w', to) == ReceivedAt(w.log, to) + Mail(w, to) {
    }
  }

  lemma DepartSteady(w: World, x: Waiter)
    ensures SteadyMail(w, Depart(w, x))
  {
    hide Rouse, SteadyMail, Leave;
    if x in w.waiting || x !in w.woken {
      LoggedSteady(w, Depart(w, x));
    } else {
      var left := w.(woken := Leave(w.woken, x));
      LoggedSteady(w, left);
      RouseSteady(left, x.address);
      SteadyBoth(w, left, Depart(w, x));
    }
  }

  lemma TakeSteady(w: World, address: nat)
    requires address in w.endpoints && w.endpoints[address] != []
    ensures SteadyMail(w, Take(w, address))
  {
    hide ReceivedAt;
    var mail, w' := w.endpoints[address], Take(w, address);
    forall to: nat ensures ReceivedAt(w'.log, to) + Mail(w', to) == ReceivedAt(w.log, to) + Mail(w, to) {
      LogMore(w.log, Received(address, mail[0]), to);
      if to == address {
        FirstMoves(ReceivedAt(w.log, to), mail);
      } else {
        assert ReceivedAt(w'.log, to) == ReceivedAt(w.log, to);
      }
    }
  }

  lemma FirstMoves(received: seq<Message>, mail: seq<Message>)
    requires mail != []
    ensures (received + [mail[0]]) + mail[1..] == received + mail
  {
  }

  lemma {:induction false} HandOnSteady(w: World, places: seq<Waiter>)
    ensures SteadyMail(w, HandOn(w, places))
    decreases |places|
  {
    hide Rouse, SteadyMail;
    if places == [] {
      LoggedSteady(w, w);
    } else {
      RouseSteady(w, places[0].address);
      HandOnSteady(Rouse(w, places[0].address), places[1..]);
      SteadyBoth(w, Rouse(w, places[0].address), HandOn(w, places));
    }
  }

  lemma DroppedSteady(w: World, r: Runnable)
    ensures SteadyMail(w, Dropped(w, r))
  {
    hide HandOn, SteadyMail, Only;
    var left := OutOfLine(w, r);
    assert !Discarded(r).Received?;
    LoggedSteady(w, left);
    HandOnSteady(left, Only(w.woken, r, true));
    SteadyBoth(w, left, Dropped(w, r));
  }

  lemma MailSteady(w: World, self: Runnable, e: Effect)
    requires IsMail(e)
    ensures SteadyMail(w, Do(w, self, e).value)
  {
    hide Depart, Take, SteadyMail, Leave;
    if e.GiveUp? {
      DepartSteady(w, Waiter(e.address, self));
    } else {
      var l, w' := Listening(w, e.address), Do(w, self, e).value;
      ListeningSteady(w, e.address);
      if l.endpoints[e.address] != [] && !e.Listen? {
        TakeSteady(l, e.address);
        SteadyBoth(w, l, Take(l, e.address));
        DepartSteady(Take(l, e.address), Waiter(e.address, self));
        SteadyBoth(w, Take(l, e.address), Depart(Take(l, e.address), Waiter(e.address, self)));
      } else {
        LoggedSteady(l, w');
        SteadyBoth(w, l, w');
      }
    }
  }

  lemma ListeningSteady(w: World, address: nat)
    ensures SteadyMail(w, Listening(w, address))
  {
    hide ReceivedAt;
    var w' := Listening(w, address);
    forall to: nat ensures Mail(w', to) == Mail(w, to) && ReceivedAt(w'.log, to) == ReceivedAt(w.log, to) {
      if address !in w.endpoints {
        LogMore(w.log, Opened(address), to);
      }
    }
  }

  lemma {:induction false} DeliveredStays(log: seq<Event>, more: seq<Event>, to: nat)
    requires log <= more && forall i | |log| <= i < |more| :: !more[i].Fired?
    ensures Delivered(more, to) == Delivered(log, to)
    decreases |more|
  {
    if |more| > |log| {
      DeliveredStays(log, more[..|more| - 1], to);
    } else {
      assert more == log;
    }
  }

  /** A step that arms nothing and fires nothing. */
  lemma PlainAccounted(w: World, pending: seq<Entry>, w': World)
    requires Accounted(w, pending) && Plain(w, w') && SteadyMail(w, w')
    ensures Accounted(w', pending)
  {
    hide HasFired, Delivered, ReceivedAt;
    forall j | 0 <= j < |w'.log| && w'.log[j].Armed?
      ensures w'.log[j].entry in pending + w'.queue || HasFired(w'.log, w'.log[j].entry)
    {
      OldNotLost(w, pending, w', j);
    }
    forall to: nat ensures Delivered(w'.log, to) == Delivered(w.log, to) {
      DeliveredStays(w.log, w'.log, to);
    }
  }

  lemma DoAccounted(w: World, self: Runnable, e: Effect)
    requires Accounted(w, []) && Kept(w, []) && Do(w, self, e).Some?
    ensures Accounted(Do(w, self, e).value, [])
  {
    hide Accounted, Kept, Arm, SteadyMail, Take, Depart, Look;
    match e {
      case SleepUntil(deadline) =>
        if w.now < deadline {
          ArmAccounted(w, deadline, Wake(self));
        }
      case ArmTimer(deadline, r) => ArmAccounted(w, deadline, Wake(r));
      case Transmit(from, to, tag, data, lost, latency) =>
        var sent := Noted(w, Sent(from, to, tag, data, lost, latency, w.now));
        assert !sent.log[|w.log|].Received? && sent.log == w.log + [sent.log[|w.log|]];
        LoggedSteady(w, sent);
        PlainAccounted(w, [], sent);
        PlainKept(w, [], sent);
        if to in w.endpoints {
          ArmAccounted(sent, w.now + latency, Deliver(to, Message(tag, data, from)));
        }
      case Kill(node) =>
        assert !Killed(node).Received?;
        LoggedSteady(w, Do(w, self, e).value);
        PlainAccounted(w, [], Do(w, self, e).value);
      case Spawn(r) =>
        assert !Spawned(r).Received?;
        LoggedSteady(w, Do(w, self, e).value);
        PlainAccounted(w, [], Do(w, self, e).value);
      case _ =>
        MailCalm(w, self, e);
        MailSteady(w, self, e);
        PlainAccounted(w, [], Do(w, self, e).value);
    }
  }

  lemma {:induction false} DoAllAccounted(w: World, self: Runnable, effects: seq<Effect>)
    requires Accounted(w, []) && Kept(w, []) && DoAll(w, self, effects).Some?
    requires forall e | e in effects :: Drawn(w.config, e)
    ensures Accounted(DoAll(w, self, effects).value, [])
    decreases |effects|
  {
    hide Accounted, Kept, Do;
    if effects != [] {
      DoAccounted(w, self, effects[0]);
      DoKept(w, self, effects[0]);
      DoAllAccounted(Do(w, self, effects[0]).value, self, effects[1..]);
    }
  }

  lemma RunsOneAccounted(w: World, effects: seq<Effect>, w': World)
    requires Accounted(w, []) && Kept(w, []) && RunsOne(w, effects, w')
    ensures Accounted(w', [])
  {
    hide Accounted, Kept, DoAll, Drawn, SteadyMail, Dropped;
    var r, rest := w.ready[0], w.(ready := w.ready[1..]);
    LoggedSteady(w, rest);
    if r.node in w.killed {
      DroppedCalm(rest, r);
      DroppedSteady(rest, r);
      SteadyBoth(w, rest, w');
      PlainAccounted(w, [], w');
    } else {
      var ran := rest.(log := w.log + [Ran(r)]);
      assert !Ran(r).Received?;
      LoggedSteady(w, ran);
      PlainAccounted(w, [], ran);
      PlainKept(w, [], ran);
      DoAllAccounted(ran, r, effects);
    }
  }

  /** A timer fires, and what it is for is done but for telling who waits. */
  function Landed(w: World, e: Entry, at: nat): World {
    var fired := FiredNow(w, e, at);
    match e.callback
    case Wake(r) => fired.(ready := w.ready + [r])
    case Deliver(to, m) =>
      if to in w.endpoints then fired.(endpoints := w.endpoints[to := w.endpoints[to] + [m]]) else fired
  }

  lemma FireOneAccounted(w: World, pending: seq<Entry>, at: nat)
    requires pending != [] && Accounted(w, pending)
    ensures Accounted(FireOne(w, pending[0], at), pending[1..])
  {
    hide Accounted, Rouse, SteadyMail, Calm;
    var e := pending[0];
    LandedAccounted(w, pending, at);
    if e.callback.Deliver? && e.callback.to in w.endpoints {
      RouseCalm(Landed(w, e, at), e.callback.to);
      RouseSteady(Landed(w, e, at), e.callback.to);
      PlainAccounted(Landed(w, e, at), pending[1..], FireOne(w, e, at));
    }
  }

  lemma LandedAccounted(w: World, pending: seq<Entry>, at: nat)
    requires pending != [] && Accounted(w, pending)
    ensures Accounted(Landed(w, pending[0], at), pending[1..])
  {
    hide HasFired, Delivered, ReceivedAt;
    var e, rest := pending[0], pending[1..];
    var w' := Landed(w, e, at);
    assert pending + w.queue == [e] + (rest + w'.queue);
    assert IsFiring(w'.log, |w.log|, e);
    assert HasFired(w'.log, e) by { FiredAt(w'.log, |w.log|, e); }
    forall j | 0 <= j < |w'.log| && w'.log[j].Armed?
      ensures w'.log[j].entry in rest + w'.queue || HasFired(w'.log, w'.log[j].entry)
    {
      assert w'.log[j] == w.log[j];
      if HasFired(w.log, w.log[j].entry) {
        FiredStays(w.log, w'.log, w.log[j].entry);
      }
    }
    LandedMail(w, pending, at);
  }

  lemma FiredAt(log: seq<Event>, i: nat, e: Entry)
    requires IsFiring(log, i, e)
    ensures HasFired(log, e)
  {
  }

  lemma LandedMail(w: World, pending: seq<Entry>, at: nat)
    requires pending != [] && MailKept(w, pending)
    ensures MailKept(Landed(w, pending[0], at), pending[1..])
  {
    hide Delivered, ReceivedAt;
    var e, w' := pending[0], Landed(w, pending[0], at);
    assert pending + w.queue == [e] + (pending[1..] + w'.queue);
    assert e in pending + w.queue;
    forall to: nat ensures Delivered(w'.log, to) == ReceivedAt(w'.log, to) + Mail(w', to) {
      LogMore(w.log, Fired(e, at), to);
    }
  }

  lemma {:induction false} FireAllAccounted(w: World, fired: seq<Entry>, at: nat)
    requires Accounted(w, fired)
    ensures Accounted(FireAll(w, fired, at), [])
    decreases |fired|
  {
    hide Accounted, FireOne;
    if fired != [] {
      FireOneAccounted(w, fired, at);
      FireAllAccounted(FireOne(w, fired[0], at), fired[1..], at);
    }
  }

  lemma AdvancesAccounted(w: World, fired: seq<Entry>, left: seq<Entry>, w': World)
    requires Accounted(w, []) && Advances(w, fired, left, w')
    ensures Accounted(w', [])
  {
    hide FireAll, NoneLost, MailKept, Timely, Fires;
    var time := NextTime(w.queue).value;
    var due := w.(queue := left);
    DueAccounted(w, time, fired, left);
    FireAllAccounted(due, fired, Clamp(time));
    FireAllQuiet(due, fired, Clamp(time));
    LaterAccounted(FireAll(due, fired, Clamp(time)), time, fired);
  }

  /** What is due is about to fire. */
  lemma DueAccounted(w: World, time: int, fired: seq<Entry>, left: seq<Entry>)
    requires Accounted(w, []) && Fires(w.queue, time, fired, left)
    ensures Accounted(w.(queue := left), fired)
    ensures forall e | e in left :: Clamp(time) <= Clamp(e.deadline)
  {
    hide HasFired, Delivered, ReceivedAt;
    assert [] + w.queue == w.queue;
    assert multiset(w.queue) == multiset(fired + left);
    forall e ensures e in fired + left <==> e in w.queue {
      assert e in multiset(fired + left) <==> e in multiset(w.queue);
    }
  }

  /** The clock is set to a time that everything left is due at or after. */
  lemma LaterAccounted(w: World, time: int, fired: seq<Entry>)
    requires Accounted(w, []) && forall e | e in w.queue :: Clamp(time) <= Clamp(e.deadline)
    ensures Accounted(w.(now := Clamp(time)), [])
  {
    hide HasFired, Delivered, ReceivedAt;
    assert [] + w.queue == w.queue;
  }

  /** Firing moves neither the clock nor what is armed, and logs only firings of these timers and who is told. */
  lemma {:induction false} FireAllQuiet(w: World, fired: seq<Entry>, at: nat)
    ensures var w' := FireAll(w, fired, at);
      && w'.now == w.now && w'.queue == w.queue && w.log <= w'.log
      && (fired != [] ==> |w'.log| > |w.log| && w'.log[|w.log|] == Fired(fired[0], at))
      && (forall i | |w.log| <= i < |w'.log| :: !w'.log[i].Armed?)
      && (forall i | |w.log| <= i < |w'.log| && w'.log[i].Fired? :: w'.log[i].entry in fired)
    decreases |fired|
  {
    hide FireOne;
    if fired != [] {
      var next := FireOne(w, fired[0], at);
      FireOneQuiet(w, fired[0], at);
      FireAllQuiet(next, fired[1..], at);
      var w' := FireAll(w, fired, at);
      forall i | |w.log| <= i < |w'.log| ensures !w'.log[i].Armed? && (w'.log[i].Fired? ==> w'.log[i].entry in fired) {
        if i < |next.log| {
          assert w'.log[i] == next.log[i];
        }
      }
    }
  }

  lemma FireOneQuiet(w: World, e: Entry, at: nat)
    ensures var w' := FireOne(w, e, at);
      && w'.now == w.now && w'.queue == w.queue && w.log <= w'.log
      && |w'.log| > |w.log| && w'.log[|w.log|] == Fired(e, at)
      && (forall i | |w.log| < i < |w'.log| :: !w'.log[i].Armed? && !w'.log[i].Fired?)
  {
    hide CalledBack;
    CalledBackCalm(FiredNow(w, e, at), e.callback);
  }

  lemma {:induction false} RunAccounted(ws: seq<World>)
    requires IsRun(ws)
    ensures Accounted(ws[|ws| - 1], [])
  {
    hide Accounted, Kept, RunsOne, Advances;
    var n := |ws| - 1;
    if n == 0 {
      StartAccounted(ws[0]);
    } else {
      assert IsRun(ws[..n]);
      RunAccounted(ws[..n]);
      RunKept(ws[..n]);
      var w, w' := ws[n - 1], ws[n - 1 + 1];
      assert Next(w, w');
      if effects :| RunsOne(w, effects, w') {
        RunsOneAccounted(w, effects, w');
      } else {
        var fired, left :| Advances(w, fired, left, w');
        AdvancesAccounted(w, fired, left, w');
      }
    }
  }

  lemma StartAccounted(w: World)
    requires exists first, config, clogged :: w == Start(first, config, clogged)
    ensures Accounted(w, [])
  {
  }

  // ---------------------------------------------------------------------------------------------
  // Timers and messages
  // ---------------------------------------------------------------------------------------------

  /** In every run no timer is lost: each armed is still pending or has fired. */
  lemma TimersNeverLost(ws: seq<World>)
    requires IsRun(ws)
    ensures var w := ws[|ws| - 1];
      forall j | 0 <= j < |w.log| && w.log[j].Armed? :: w.log[j].entry in w.queue || HasFired(w.log, w.log[j].entry)
  {
    hide HasFired, MailKept, Timely, Next;
    RunAccounted(ws);
    assert [] + ws[|ws| - 1].queue == ws[|ws| - 1].queue;
  }

  /**
   * In every run what was delivered to an address, in order, is what was received there, in order, and then what
   * its mailbox holds: nothing is received that was not delivered, or twice, or out of order, and nothing is lost.
   */
  lemma ReceivedInOrder(ws: seq<World>)
    requires IsRun(ws)
    ensures var w := ws[|ws| - 1];
      forall to: nat :: Delivered(w.log, to) == ReceivedAt(w.log, to) + Mail(w, to)
  {
    hide NoneLost, Timely, Next, Delivered, ReceivedAt;
    RunAccounted(ws);
  }

  /** How many messages were delivered to an address before event `i`. */
  function DeliveredBefore(log: seq<Event>, i: nat, to: nat): nat
    requires i <= |log|
  {
    |Delivered(log[..i], to)|
  }

  /**
   * The `n`th message delivered to an address has been received there, as the `n`th, or is in its place in the mailbox.
   */
  predicate ReceivedOrWaiting(w: World, to: nat, n: nat, m: Message) {
    var received := ReceivedAt(w.log, to);
    if n < |received| then received[n] == m else n - |received| < |Mail(w, to)| && Mail(w, to)[n - |received|] == m
  }

  /**
   * In every run, once the clock is past the latencies the network takes, an accepted message has been delivered,
   * and exactly once; and that delivery has been received, in its turn, or is still in the mailbox.
   */
  lemma MessagesArriveExactlyOnce(ws: seq<World>, j: nat) returns (i: nat)
    requires IsRun(ws) && j < |ws[|ws| - 1].log|
    requires var e := ws[|ws| - 1].log[j];
      e.Armed? && e.entry.callback.Deliver? && e.at + ws[0].config.high <= ws[|ws| - 1].now
    ensures var w := ws[|ws| - 1];
      var callback := w.log[j].entry.callback;
      && j < i && IsFiring(w.log, i, w.log[j].entry)
      && (forall k: nat | IsFiring(w.log, k, w.log[j].entry) :: k == i)
      && ReceivedOrWaiting(w, callback.to, DeliveredBefore(w.log, i, callback.to), callback.message)
  {
    hide Next, QueueKept, KillsKept, Delivered, ReceivedAt, MailKept;
    var w := ws[|ws| - 1];
    var e := w.log[j].entry;
    RunKept(ws);
    RunAccounted(ws);
    assert InWindow(w.log[j], w.config);
    assert HasFired(w.log, e);
    i :| IsFiring(w.log, i, e);
    assert ArmedBefore(w.log, i, e);
    var k: nat :| k < i && IsArming(w.log, k, e);
    assert k == j;
    ReceivedInOrder(ws);
    FiringDelivers(w.log, i, e);
  }

  /** A firing delivers its message next after those delivered before. */
  lemma {:induction false} FiringDelivers(log: seq<Event>, i: nat, e: Entry)
    requires IsFiring(log, i, e) && e.callback.Deliver?
    ensures var n := DeliveredBefore(log, i, e.callback.to);
      n < |Delivered(log, e.callback.to)| && Delivered(log, e.callback.to)[n] == e.callback.message
    decreases |log|
  {
    var last := |log| - 1;
    if i < last {
      FiringDelivers(log[..last], i, e);
      assert log[..last][..i] == log[..i];
    }
  }

  // ---------------------------------------------------------------------------------------------
  // The clock
  // ---------------------------------------------------------------------------------------------

  /**
   * What a caller arming a timer decides: on a clock that nothing armed is due before, its next move is back
   * exactly when the new timer's deadline is before the clock.
   */
  lemma ArmingSendsBackIff(w: World, deadline: int, callback: Callback, fired: seq<Entry>, left: seq<Entry>, w': World)
    requires Prompt(w.now, w.queue) && Advances(Arm(w, deadline, callback), fired, left, w')
    ensures w'.now < w.now <==> Clamp(deadline) < w.now
  {
    hide FireAll;
    var armed := Arm(w, deadline, callback);
    var k: nat :| IsNext(armed.queue, k) && armed.queue[k].deadline == NextTime(armed.queue).value;
    assert armed.queue[|w.queue|].deadline == deadline;
  }

  /** A timer armed late has fired. */
  ghost predicate LateFired(log: seq<Event>) {
    exists i: nat, j: nat :: i < j && IsLateFiring(log, i, j)
  }

  predicate IsLateFiring(log: seq<Event>, i: nat, j: nat) {
    i < |log| && IsLate(log[i]) && IsFiring(log, j, log[i].entry)
  }

  ghost predicate GoesBack(ws: seq<World>) {
    exists i :: 0 <= i < |ws| - 1 && ws[i + 1].now < ws[i].now
  }

  /** Running a task leaves the clock where it is, fires nothing, and arms only from now. */
  lemma {:induction false} DoAllQuiet(w: World, self: Runnable, effects: seq<Effect>)
    requires DoAll(w, self, effects).Some?
    ensures var w' := DoAll(w, self, effects).value;
      && w'.now == w.now && w.log <= w'.log
      && forall i | |w.log| <= i < |w'.log| :: !w'.log[i].Fired? && (w'.log[i].Armed? ==> w'.log[i].at == w.now)
    decreases |effects|
  {
    hide Do;
    if effects != [] {
      DoQuiet(w, self, effects[0]);
      DoAllQuiet(Do(w, self, effects[0]).value, self, effects[1..]);
    }
  }

  lemma DoQuiet(w: World, self: Runnable, e: Effect)
    requires Do(w, self, e).Some?
    ensures var w' := Do(w, self, e).value;
      && w'.now == w.now && w.log <= w'.log
      && forall i | |w.log| <= i < |w'.log| :: !w'.log[i].Fired? && (w'.log[i].Armed? ==> w'.log[i].at == w.now)
  {
    hide Look, Take, Depart;
    if IsMail(e) {
      MailCalm(w, self, e);
    }
  }

  /** What a step adds to the log, and when it moves the clock. */
  lemma StepAdds(w: World, w': World)
    requires Next(w, w')
    ensures w.log <= w'.log
    ensures w'.now != w.now ==> w.ready == []
    ensures forall i | |w.log| <= i < |w'.log| && w'.log[i].Armed? :: w'.now == w.now == w'.log[i].at
    ensures forall i | |w.log| <= i < |w'.log| && w'.log[i].Fired? :: w'.now == Clamp(w'.log[i].entry.deadline)
  {
    hide DoAll, FireAll, Drawn, Dropped;
    if effects :| RunsOne(w, effects, w') {
      var r, rest := w.ready[0], w.(ready := w.ready[1..]);
      if r.node in w.killed {
        DroppedCalm(rest, r);
      } else {
        DoAllQuiet(rest.(log := w.log + [Ran(r)]), r, effects);
      }
    } else {
      var fired, left :| Advances(w, fired, left, w');
      FiresAtNext(w.queue, fired, left);
      FireAllQuiet(w.(queue := left), fired, Clamp(NextTime(w.queue).value));
    }
  }

  lemma LateStays(log: seq<Event>, more: seq<Event>)
    requires LateFired(log) && log <= more
    ensures LateFired(more)
  {
    var i: nat, j: nat :| i < j && IsLateFiring(log, i, j);
    assert IsLateFiring(more, i, j);
  }

  /** A step back fires a timer that was armed late. */
  lemma BackIsLate(w: World, w': World)
    requires Kept(w, []) && Accounted(w, []) && Next(w, w') && w'.now < w.now
    ensures LateFired(w'.log)
  {
    hide DoAll, FireAll, Drawn, Dropped, NoneLost, MailKept, ArmingsKept, FiringsKept, KillsKept, IdsDistinct;
    if effects :| RunsOne(w, effects, w') {
      StepAdds(w, w');
      assert false;
    }
    var fired, left :| Advances(w, fired, left, w');
    FiresAtNext(w.queue, fired, left);
    FireAllQuiet(w.(queue := left), fired, Clamp(NextTime(w.queue).value));
    var e := fired[0];
    assert e in fired && e in multiset(w.queue);
    assert e in [] + w.queue;
    var i: nat :| i < |w.log| && IsArming(w.log, i, e);
    assert w'.log[i] == w.log[i] && w'.log[|w.log|] == Fired(e, Clamp(e.deadline));
    assert IsLateFiring(w'.log, i, |w.log|);
  }

  /** On a clock that has not gone back, all was armed at or before now, and nothing late has fired. */
  ghost predicate Ahead(w: World) {
    (forall i | 0 <= i < |w.log| && w.log[i].Armed? :: w.log[i].at <= w.now) && !LateFired(w.log)
  }

  lemma StepAhead(w: World, w': World)
    requires Ahead(w) && Next(w, w') && w.now <= w'.now
    ensures Ahead(w')
  {
    hide Next;
    StepAdds(w, w');
    forall i: nat, j: nat | i < j ensures !IsLateFiring(w'.log, i, j) {
      if j < |w.log| {
        assert IsLateFiring(w'.log, i, j) == IsLateFiring(w.log, i, j);
      }
    }
  }

  lemma {:induction false} RunAhead(ws: seq<World>)
    requires IsRun(ws) && !GoesBack(ws)
    ensures Ahead(ws[|ws| - 1])
  {
    hide Next, Ahead;
    var n := |ws| - 1;
    if n == 0 {
      StartAhead(ws[0]);
    } else {
      var before := ws[..n];
      assert IsRun(before);
      assert !GoesBack(before) by {
        forall i | 0 <= i < n - 1 ensures before[i + 1].now >= before[i].now {
          assert ws[i + 1].now >= ws[i].now;
        }
      }
      RunAhead(before);
      assert ws[n - 1 + 1].now >= ws[n - 1].now;
      StepAhead(ws[n - 1], ws[n - 1 + 1]);
    }
  }

  lemma StartAhead(w: World)
    requires exists first, config, clogged :: w == Start(first, config, clogged)
    ensures Ahead(w)
  {
  }

  lemma {:induction false} LogGrows(ws: seq<World>, i: nat)
    requires IsRun(ws) && i < |ws|
    ensures ws[i].log <= ws[|ws| - 1].log
    decreases |ws| - i
  {
    hide Next;
    if i < |ws| - 1 {
      StepAdds(ws[i], ws[i + 1]);
      LogGrows(ws, i + 1);
    }
  }

  lemma PrefixIsRun(ws: seq<World>, n: nat)
    requires IsRun(ws) && 0 < n <= |ws|
    ensures IsRun(ws[..n])
  {
    hide Next;
  }

  /** In every run the clock goes back exactly when some timer fired that was armed for a moment before the clock. */
  lemma ClockGoesBackExactly(ws: seq<World>)
    requires IsRun(ws)
    ensures GoesBack(ws) <==> LateFired(ws[|ws| - 1].log)
  {
    hide Next, LateFired, Kept, Accounted;
    if GoesBack(ws) {
      var i :| 0 <= i < |ws| - 1 && ws[i + 1].now < ws[i].now;
      PrefixIsRun(ws, i + 1);
      RunKept(ws[..i + 1]);
      RunAccounted(ws[..i + 1]);
      assert ws[..i + 1][|ws[..i + 1]| - 1] == ws[i];
      BackIsLate(ws[i], ws[i + 1]);
      LogGrows(ws, i + 1);
      LateStays(ws[i + 1].log, ws[|ws| - 1].log);
    } else {
      RunAhead(ws);
    }
  }

  /** No timer was armed for a moment already past. */
  predicate ArmedAhead(log: seq<Event>) {
    forall i | 0 <= i < |log| && log[i].Armed? :: log[i].at <= log[i].entry.deadline
  }

  /**
   * In every run the clock moves only when nothing is ready; and it never goes back if no timer was armed for a
   * moment already past.
   */
  lemma ClockNeverGoesBack(ws: seq<World>)
    requires IsRun(ws)
    ensures forall i | 0 <= i < |ws| - 1 :: ws[i].now != ws[i + 1].now ==> ws[i].ready == []
    ensures ArmedAhead(ws[|ws| - 1].log) ==> forall i | 0 <= i < |ws| - 1 :: ws[i].now <= ws[i + 1].now
  {
    hide Next;
    forall i | 0 <= i < |ws| - 1 ensures ws[i].now != ws[i + 1].now ==> ws[i].ready == [] {
      StepAdds(ws[i], ws[i + 1]);
    }
    ClockGoesBackExactly(ws);
  }

  /** Sleeping and sending arm nothing for the past, so only a timer armed directly can. */
  lemma SleepAndSendArmAhead(w: World, self: Runnable, e: Effect)
    requires Do(w, self, e).Some? && ArmedAhead(w.log) && !e.ArmTimer?
    ensures ArmedAhead(Do(w, self, e).value.log)
  {
  }

  // ---------------------------------------------------------------------------------------------
  // A run whose clock goes back
  // ---------------------------------------------------------------------------------------------

  /** One task runs, and the run is that much longer. */
  lemma RunTask(ws: seq<World>, effects: seq<Effect>, w: World)
    requires IsRun(ws) && RunsOne(ws[|ws| - 1], effects, w)
    ensures IsRun(ws + [w])
  {
    hide RunsOne, Next;
    RanIsNext(ws[|ws| - 1], effects, w);
    RunLonger(ws, w);
  }

  lemma MoveTime(ws: seq<World>, fired: seq<Entry>, left: seq<Entry>, w: World)
    requires IsRun(ws) && Advances(ws[|ws| - 1], fired, left, w)
    ensures IsRun(ws + [w])
  {
    hide Advances, Next;
    AdvancedIsNext(ws[|ws| - 1], fired, left, w);
    RunLonger(ws, w);
  }

  /** A task that finds one timer armed and nothing else ready, and wakes when it fires. */
  lemma WakesAt(w: World, e: Entry, r: Runnable)
    requires w.ready == [] && w.queue == [e] && e.callback == Wake(r)
    ensures Advances(w, [e], [],
      w.(queue := [], ready := [r], log := w.log + [Fired(e, Clamp(e.deadline))], now := Clamp(e.deadline)))
  {
    assert w.queue[0] in w.queue;
    assert [e][1..] == [];
  }

  lemma RunsWith(w: World, r: Runnable, e: Effect, w': World)
    requires w.ready == [r] && r.node !in w.killed && Drawn(w.config, e)
    requires Do(w.(ready := [], log := w.log + [Ran(r)]), r, e) == Some(w')
    ensures RunsOne(w, [e], w')
  {
    assert [e][1..] == [] && w.ready[1..] == [];
    assert DoAll(w', r, []) == Some(w');
  }

  /** Sleep until 7, and then arm a timer for 5: the clock goes from 7 back to 5. */
  lemma ClockGoesBackExample() returns (ws: seq<World>)
    ensures IsRun(ws) && |ws| == 5 && ws[3].now == 7 && ws[4].now == 5 && GoesBack(ws)
  {
    hide RunsOne, Advances, Next;
    var r := Runnable(0, 0);
    var late, early := Entry(0, 7, Wake(r)), Entry(1, 5, Wake(r));
    var w0 := Start(r, DEFAULT_CONFIG, {});
    var w1 := Arm(w0.(ready := [], log := w0.log + [Ran(r)]), 7, Wake(r));
    var w2 := w1.(queue := [], ready := [r], log := w1.log + [Fired(late, 7)], now := 7);
    var w3 := Arm(w2.(ready := [], log := w2.log + [Ran(r)]), 5, Wake(r));
    var w4 := w3.(queue := [], ready := [r], log := w3.log + [Fired(early, 5)], now := 5);
    ws := [w0];
    RunsWith(w0, r, SleepUntil(7), w1);
    RunTask(ws, [SleepUntil(7)], w1);
    ws := ws + [w1];
    WakesAt(w1, late, r);
    MoveTime(ws, [late], [], w2);
    ws := ws + [w2];
    RunsWith(w2, r, ArmTimer(5, r), w3);
    RunTask(ws, [ArmTimer(5, r)], w3);
    ws := ws + [w3];
    WakesAt(w3, early, r);
    MoveTime(ws, [early], [], w4);
    ws := ws + [w4];
    assert ws[3 + 1].now < ws[3].now;
  }
}
