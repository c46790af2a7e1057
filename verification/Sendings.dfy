/** Which messages the network takes, and that each of those, and no other, arrives. */
module Sendings {
  import opened Wrappers
  import opened Ir
  import opened Time
  import opened Waiting
  import opened Simulated
  import opened Delivery

  // ---------------------------------------------------------------------------------------------
  // What is sent, what is taken, and what is armed for it
  // ---------------------------------------------------------------------------------------------

  /** The address was in use before event `n`. */
  ghost predicate InUse(log: seq<Event>, n: nat, address: nat) {
    exists j: nat :: j < n && OpenedAt(log, j, address)
  }

  predicate OpenedAt(log: seq<Event>, j: nat, address: nat) {
    j < |log| && log[j] == Opened(address)
  }

  /** A message sent to an address in use, with neither end clogged, that is not lost on the way. */
  ghost predicate TakenAt(log: seq<Event>, clogged: set<nat>, i: nat) {
    && i < |log| && log[i].Sent? && InUse(log, i, log[i].to)
    && log[i].from !in clogged && log[i].to !in clogged && !log[i].lost
  }

  predicate IsDelivery(e: Event) {
    e.Armed? && e.entry.callback.Deliver?
  }

  /** A delivery of just what was sent, to where it was sent, from whom, and after its latency. */
  predicate DeliveryOf(e: Event, sent: Event)
    requires sent.Sent?
  {
    && e.Armed? && e.at == sent.at && e.entry.deadline == sent.at + sent.latency
    && e.entry.callback == Deliver(sent.to, Message(sent.tag, sent.data, sent.from))
  }

  /** Addresses in use are those opened; what is taken, and nothing else, has its delivery armed right after. */
  ghost predicate SendsKept(w: World) {
    && (forall a: nat :: a in w.endpoints <==> InUse(w.log, |w.log|, a))
    && (forall i: nat | TakenAt(w.log, w.clogged, i) :: i + 1 < |w.log| && DeliveryOf(w.log[i + 1], w.log[i]))
    && (forall k: nat | k < |w.log| && IsDelivery(w.log[k]) :: k > 0 && TakenAt(w.log, w.clogged, k - 1))
  }

  // ---------------------------------------------------------------------------------------------
  // Every step
  // ---------------------------------------------------------------------------------------------

  lemma InUseStays(log: seq<Event>, more: seq<Event>, n: nat, a: nat)
    requires log <= more && n <= |log|
    ensures InUse(more, n, a) <==> InUse(log, n, a)
  {
    assert forall j: nat | j < n :: OpenedAt(more, j, a) == OpenedAt(log, j, a);
  }

  lemma TakenStays(log: seq<Event>, more: seq<Event>, clogged: set<nat>, i: nat)
    requires log <= more && i < |log|
    ensures TakenAt(more, clogged, i) <==> TakenAt(log, clogged, i)
  {
    hide InUse;
    if log[i].Sent? {
      InUseStays(log, more, i, log[i].to);
    }
  }

  /** Nothing is sent and no delivery armed; what is opened has a mailbox from then on. */
  ghost predicate Silent(w: World, w': World) {
    && w.log <= w'.log && w'.clogged == w.clogged
    && (forall i | |w.log| <= i < |w'.log| :: !w'.log[i].Sent? && !IsDelivery(w'.log[i]))
    && (forall a: nat :: a in w'.endpoints <==> a in w.endpoints || exists j :: |w.log| <= j && OpenedAt(w'.log, j, a))
  }

  lemma SilentKept(w: World, w': World)
    requires SendsKept(w) && Silent(w, w')
    ensures SendsKept(w')
  {
    hide DeliveryOf;
    forall a: nat ensures a in w'.endpoints <==> InUse(w'.log, |w'.log|, a) {
      InUseLater(w.log, w'.log, a);
    }
    forall i: nat | TakenAt(w'.log, w'.clogged, i) ensures i + 1 < |w'.log| && DeliveryOf(w'.log[i + 1], w'.log[i]) {
      TakenStays(w.log, w'.log, w.clogged, i);
    }
    forall k: nat | k < |w'.log| && IsDelivery(w'.log[k]) ensures k > 0 && TakenAt(w'.log, w'.clogged, k - 1) {
      assert w'.log[k] == w.log[k];
      TakenStays(w.log, w'.log, w.clogged, k - 1);
    }
  }

  lemma InUseLater(log: seq<Event>, more: seq<Event>, a: nat)
    requires log <= more
    ensures InUse(more, |more|, a) <==> InUse(log, |log|, a) || exists j: nat :: |log| <= j && OpenedAt(more, j, a)
  {
    InUseStays(log, more, |log|, a);
    if InUse(more, |more|, a) {
      var j: nat :| j < |more| && OpenedAt(more, j, a);
      assert j < |log| ==> OpenedAt(log, j, a);
    }
    if j: nat :| |log| <= j && OpenedAt(more, j, a) {
      assert j < |more|;
    }
  }

  lemma SilentBoth(w: World, u: World, w': World)
    requires Silent(w, u) && Silent(u, w')
    ensures Silent(w, w')
  {
    hide IsDelivery;
    forall a: nat
      ensures a in w'.endpoints <==> a in w.endpoints || exists j: nat :: |w.log| <= j && OpenedAt(w'.log, j, a)
    {
      if j: nat :| |w.log| <= j && OpenedAt(u.log, j, a) {
        assert OpenedAt(w'.log, j, a);
      }
      if j: nat :| |w.log| <= j && OpenedAt(w'.log, j, a) {
        assert j < |u.log| ==> OpenedAt(u.log, j, a);
      }
    }
  }

  /** One event, or none, that is not of sending or listening. */
  lemma OneSilent(w: World, w': World)
    requires w'.endpoints.Keys == w.endpoints.Keys && w'.clogged == w.clogged
    requires w'.log == w.log ||
      exists e: Event :: w'.log == w.log + [e] && !e.Sent? && !IsDelivery(e) && !e.Opened?
    ensures Silent(w, w')
  {
  }

  lemma RouseSilent(w: World, address: nat)
    ensures Silent(w, Rouse(w, address))
  {
    hide Silent;
    var k := PlaceOf(w.waiting, address);
    if k < |w.waiting| {
      assert !Roused(w.waiting[k]).Sent?;
    }
    OneSilent(w, Rouse(w, address));
  }

  lemma DepartSilent(w: World, x: Waiter)
    ensures Silent(w, Depart(w, x))
  {
    hide Silent, Rouse, Leave;
    if x in w.waiting || x !in w.woken {
      OneSilent(w, Depart(w, x));
    } else {
      var left := w.(woken := Leave(w.woken, x));
      OneSilent(w, left);
      RouseSilent(left, x.address);
      SilentBoth(w, left, Depart(w, x));
    }
  }

  lemma TakeSilent(w: World, address: nat)
    requires address in w.endpoints && w.endpoints[address] != []
    ensures Silent(w, Take(w, address))
  {
    hide Silent;
    assert !Received(address, w.endpoints[address][0]).Sent?;
    OneSilent(w, Take(w, address));
  }

  lemma ListeningSilent(w: World, address: nat)
    ensures Silent(w, Listening(w, address))
  {
    var w' := Listening(w, address);
    if address !in w.endpoints {
      assert OpenedAt(w'.log, |w.log|, address);
    }
  }

  lemma {:induction false} HandOnSilent(w: World, places: seq<Waiter>)
    ensures Silent(w, HandOn(w, places))
    decreases |places|
  {
    hide Silent, Rouse;
    if places == [] {
      OneSilent(w, w);
    } else {
      RouseSilent(w, places[0].address);
      HandOnSilent(Rouse(w, places[0].address), places[1..]);
      SilentBoth(w, Rouse(w, places[0].address), HandOn(w, places));
    }
  }

  lemma DroppedSilent(w: World, r: Runnable)
    ensures Silent(w, Dropped(w, r))
  {
    hide Silent, HandOn, Only;
    var left := OutOfLine(w, r);
    assert !Discarded(r).Sent?;
    OneSilent(w, left);
    HandOnSilent(left, Only(w.woken, r, true));
    SilentBoth(w, left, Dropped(w, r));
  }

  lemma MailSilent(w: World, self: Runnable, e: Effect)
    requires IsMail(e)
    ensures Silent(w, Do(w, self, e).value)
  {
    hide Silent, Depart, Take, Leave;
    if e.GiveUp? {
      DepartSilent(w, Waiter(e.address, self));
    } else {
      var l, w' := Listening(w, e.address), Do(w, self, e).value;
      ListeningSilent(w, e.address);
      if l.endpoints[e.address] != [] && !e.Listen? {
        TakeSilent(l, e.address);
        SilentBoth(w, l, Take(l, e.address));
        DepartSilent(Take(l, e.address), Waiter(e.address, self));
        SilentBoth(w, Take(l, e.address), Depart(Take(l, e.address), Waiter(e.address, self)));
      } else {
        OneSilent(l, w');
        SilentBoth(w, l, w');
      }
    }
  }

  lemma WakeSilent(w: World, deadline: int, r: Runnable)
    ensures Silent(w, Arm(w, deadline, Wake(r)))
  {
    hide Silent;
    assert !Armed(Entry(w.armed, deadline, Wake(r)), w.now).Sent?;
    OneSilent(w, Arm(w, deadline, Wake(r)));
  }

  /** Sending: taken exactly if the address is in use, neither end is clogged and it is not lost. */
  lemma SendKept(w: World, from: nat, to: nat, tag: nat, data: seq<Byte>, lost: bool, latency: nat)
    requires SendsKept(w)
    ensures SendsKept(Send(w, from, to, tag, data, lost, latency))
  {
    var w' := Send(w, from, to, tag, data, lost, latency);
    var n := |w.log|;
    assert w'.log[n] == Sent(from, to, tag, data, lost, latency, w.now);
    InUseStays(w.log, w'.log, n, to);
    forall a: nat ensures a in w'.endpoints <==> InUse(w'.log, |w'.log|, a) {
      InUseLater(w.log, w'.log, a);
    }
    forall i: nat | TakenAt(w'.log, w'.clogged, i) ensures i + 1 < |w'.log| && DeliveryOf(w'.log[i + 1], w'.log[i]) {
      if i < n {
        TakenStays(w.log, w'.log, w.clogged, i);
      }
    }
    forall k: nat | k < |w'.log| && IsDelivery(w'.log[k]) ensures k > 0 && TakenAt(w'.log, w'.clogged, k - 1) {
      if k < n {
        TakenStays(w.log, w'.log, w.clogged, k - 1);
      }
    }
  }

  lemma DoSends(w: World, self: Runnable, e: Effect)
    requires SendsKept(w) && Do(w, self, e).Some?
    ensures SendsKept(Do(w, self, e).value)
  {
    hide SendsKept, Silent, Arm, Send, Look, Depart, Take;
    var w' := Do(w, self, e).value;
    match e {
      case Transmit(from, to, tag, data, lost, latency) => SendKept(w, from, to, tag, data, lost, latency);
      case SleepUntil(deadline) =>
        if w.now < deadline {
          WakeSilent(w, deadline, self);
          SilentKept(w, w');
        }
      case ArmTimer(deadline, r) =>
        WakeSilent(w, deadline, r);
        SilentKept(w, w');
      case Spawn(r) =>
        assert !Spawned(r).Sent?;
        OneSilent(w, w');
        SilentKept(w, w');
      case Kill(node) =>
        assert !Killed(node).Sent?;
        OneSilent(w, w');
        SilentKept(w, w');
      case _ =>
        MailSilent(w, self, e);
        SilentKept(w, w');
    }
  }

  lemma {:induction false} DoAllSends(w: World, self: Runnable, effects: seq<Effect>)
    requires SendsKept(w) && DoAll(w, self, effects).Some?
    ensures SendsKept(DoAll(w, self, effects).value)
    decreases |effects|
  {
    hide SendsKept, Do;
    if effects != [] {
      DoSends(w, self, effects[0]);
      DoAllSends(Do(w, self, effects[0]).value, self, effects[1..]);
    }
  }

  lemma FireOneSilent(w: World, e: Entry, at: nat)
    ensures Silent(w, FireOne(w, e, at))
  {
    hide Silent, Rouse;
    var landed := Landed(w, e, at);
    assert !Fired(e, at).Sent?;
    OneSilent(w, landed);
    if e.callback.Deliver? && e.callback.to in w.endpoints {
      RouseSilent(landed, e.callback.to);
      SilentBoth(w, landed, FireOne(w, e, at));
    }
  }

  lemma {:induction false} FireAllSilent(w: World, fired: seq<Entry>, at: nat)
    ensures Silent(w, FireAll(w, fired, at))
    decreases |fired|
  {
    hide Silent, FireOne;
    if fired == [] {
      OneSilent(w, w);
    } else {
      FireOneSilent(w, fired[0], at);
      FireAllSilent(FireOne(w, fired[0], at), fired[1..], at);
      SilentBoth(w, FireOne(w, fired[0], at), FireAll(w, fired, at));
    }
  }

  lemma NextSends(w: World, w': World)
    requires SendsKept(w) && Next(w, w')
    ensures SendsKept(w')
  {
    hide SendsKept, Silent, DoAll, FireAll, Fires, Dropped, Drawn;
    if effects :| RunsOne(w, effects, w') {
      var r, rest := w.ready[0], w.(ready := w.ready[1..]);
      OneSilent(w, rest);
      if r.node in w.killed {
        DroppedSilent(rest, r);
        SilentBoth(w, rest, w');
        SilentKept(w, w');
      } else {
        var ran := rest.(log := w.log + [Ran(r)]);
        assert !Ran(r).Sent?;
        OneSilent(w, ran);
        SilentKept(w, ran);
        DoAllSends(ran, r, effects);
      }
    } else {
      var fired, left :| Advances(w, fired, left, w');
      var due, at := w.(queue := left), Clamp(NextTime(w.queue).value);
      OneSilent(w, due);
      FireAllSilent(due, fired, at);
      SilentBoth(w, due, FireAll(due, fired, at));
      OneSilent(FireAll(due, fired, at), w');
      SilentBoth(w, FireAll(due, fired, at), w');
      SilentKept(w, w');
    }
  }

  lemma {:induction false} RunSends(ws: seq<World>)
    requires IsRun(ws)
    ensures SendsKept(ws[|ws| - 1])
  {
    hide SendsKept, Next;
    var n := |ws| - 1;
    if n == 0 {
      StartSends(ws[0]);
    } else {
      PrefixIsRun(ws, n);
      RunSends(ws[..n]);
      assert Next(ws[n - 1], ws[n - 1 + 1]);
      NextSends(ws[n - 1], ws[n]);
    }
  }

  lemma StartSends(w: World)
    requires exists first, config, clogged :: w == Start(first, config, clogged)
    ensures SendsKept(w)
  {
  }

  // ---------------------------------------------------------------------------------------------
  // Every run
  // ---------------------------------------------------------------------------------------------

  /**
   * In every run a message is taken exactly when it is sent to an address in use, neither end is clogged and it is not
   * lost; its delivery, of what was sent, to where, from whom and after its latency, is armed right then. Nothing else
   * has a delivery.
   */
  lemma SendsArm(ws: seq<World>, i: nat)
    requires IsRun(ws) && i < |ws[|ws| - 1].log|
    ensures var w := ws[|ws| - 1];
      && (w.log[i].Sent? ==>
            (TakenAt(w.log, w.clogged, i) <==> i + 1 < |w.log| && IsDelivery(w.log[i + 1]))
            && (TakenAt(w.log, w.clogged, i) ==> DeliveryOf(w.log[i + 1], w.log[i])))
      && (IsDelivery(w.log[i]) ==> i > 0 && TakenAt(w.log, w.clogged, i - 1) && DeliveryOf(w.log[i], w.log[i - 1]))
  {
    hide Next, InUse;
    RunSends(ws);
  }

  /**
   * So in every run, once the clock is past the latencies the network takes, a message that was taken has been
   * delivered, exactly once, and that delivery has been received in its turn or is still in the mailbox.
   */
  lemma TakenArrives(ws: seq<World>, i: nat) returns (k: nat)
    requires IsRun(ws) && TakenAt(ws[|ws| - 1].log, ws[|ws| - 1].clogged, i)
    requires ws[|ws| - 1].log[i].at + ws[0].config.high <= ws[|ws| - 1].now
    ensures i + 1 < |ws[|ws| - 1].log| && DeliveryOf(ws[|ws| - 1].log[i + 1], ws[|ws| - 1].log[i])
    ensures var w := ws[|ws| - 1];
      var sent, armed := w.log[i], w.log[i + 1].entry;
      && i + 1 < k && IsFiring(w.log, k, armed) && (forall j: nat | IsFiring(w.log, j, armed) :: j == k)
      && ReceivedOrWaiting(w, sent.to, DeliveredBefore(w.log, k, sent.to), Message(sent.tag, sent.data, sent.from))
  {
    hide Next, InUse, ReceivedOrWaiting;
    SendsArm(ws, i);
    k := MessagesArriveExactlyOnce(ws, i + 1);
  }
}
