/** No task waits for a message that is there, unless one told of it has looked elsewhere. */
module Wakeups {
  import opened Wrappers
  import opened Time
  import opened Waiting
  import opened Simulated
  import opened Delivery

  /** Where a task waits, as many as there are messages have been told or, of those `owed`, are about to be. */
  ghost predicate Enough(w: World, owed: seq<Waiter>) {
    forall a: nat :: CountAt(w.waiting, a) > 0 ==> |Mail(w, a)| <= CountAt(w.woken, a) + CountAt(owed, a)
  }

  /** The task ran after it was told. */
  ghost predicate RanSince(log: seq<Event>, x: Waiter) {
    exists i: nat, j: nat :: i < j && RanAfter(log, x, i, j)
  }

  predicate RanAfter(log: seq<Event>, x: Waiter, i: nat, j: nat) {
    i < |log| && j < |log| && log[i] == Roused(x) && log[j] == Ran(x.runnable)
  }

  /** Whoever has been told is ready, or has run since. */
  ghost predicate Heeded(w: World) {
    forall x | x in w.woken :: Roused(x) in w.log && (x.runnable in w.ready || RanSince(w.log, x))
  }

  ghost predicate WakeKept(w: World) {
    Enough(w, []) && Heeded(w)
  }

  // ---------------------------------------------------------------------------------------------
  // Who has been told
  // ---------------------------------------------------------------------------------------------

  /** Whoever is told in a step is made ready. */
  ghost predicate Heeding(w: World, w': World) {
    && w.log <= w'.log
    && (forall r | r in w.ready :: r in w'.ready)
    && (forall x | x in w'.woken :: x in w.woken || (Roused(x) in w'.log && x.runnable in w'.ready))
  }

  lemma RanStays(log: seq<Event>, more: seq<Event>, x: Waiter)
    requires RanSince(log, x) && log <= more
    ensures RanSince(more, x)
  {
    var i: nat, j: nat :| i < j && RanAfter(log, x, i, j);
    assert RanAfter(more, x, i, j);
  }

  lemma HeedingHeeded(w: World, w': World)
    requires Heeded(w) && Heeding(w, w')
    ensures Heeded(w')
  {
    hide RanSince;
    forall x | x in w'.woken ensures Roused(x) in w'.log && (x.runnable in w'.ready || RanSince(w'.log, x)) {
      if x in w.woken {
        InLonger(w.log, w'.log, Roused(x));
        if RanSince(w.log, x) {
          RanStays(w.log, w'.log, x);
        }
      }
    }
  }

  lemma InLonger(log: seq<Event>, more: seq<Event>, e: Event)
    requires log <= more && e in log
    ensures e in more
  {
    var i :| 0 <= i < |log| && log[i] == e;
    assert more[i] == e;
  }

  lemma HeedingBoth(w: World, u: World, w': World)
    requires Heeding(w, u) && Heeding(u, w')
    ensures Heeding(w, w')
  {
    forall x | x in w'.woken ensures x in w.woken || (Roused(x) in w'.log && x.runnable in w'.ready) {
      if x in u.woken && x !in w.woken {
        InLonger(u.log, w'.log, Roused(x));
      }
    }
  }

  lemma RouseHeeding(w: World, address: nat)
    ensures Heeding(w, Rouse(w, address))
  {
  }

  lemma DepartHeeding(w: World, x: Waiter)
    ensures Heeding(w, Depart(w, x))
  {
    hide Heeding, Rouse, Leave;
    var left := w.(woken := Leave(w.woken, x));
    LeaveIn(w.woken, x);
    if x in w.waiting || x !in w.woken {
      FewerHeeding(w, Depart(w, x));
    } else {
      FewerHeeding(w, left);
      RouseHeeding(left, x.address);
      HeedingBoth(w, left, Depart(w, x));
    }
  }

  /** Nobody more is told. */
  lemma FewerHeeding(w: World, w': World)
    requires w.log <= w'.log && w.ready <= w'.ready && forall x | x in w'.woken :: x in w.woken
    ensures Heeding(w, w')
  {
    forall r | r in w.ready ensures r in w'.ready {
      var i :| 0 <= i < |w.ready| && w.ready[i] == r;
      assert w'.ready[i] == r;
    }
  }

  lemma {:induction false} HandOnHeeding(w: World, places: seq<Waiter>)
    ensures Heeding(w, HandOn(w, places))
    decreases |places|
  {
    hide Heeding, Rouse;
    if places == [] {
      FewerHeeding(w, w);
    } else {
      RouseHeeding(w, places[0].address);
      HandOnHeeding(Rouse(w, places[0].address), places[1..]);
      HeedingBoth(w, Rouse(w, places[0].address), HandOn(w, places));
    }
  }

  // ---------------------------------------------------------------------------------------------
  // How many
  // ---------------------------------------------------------------------------------------------

  /** Telling the next in line settles one that is owed. */
  lemma RouseEnough(w: World, owed: seq<Waiter>)
    requires owed != [] && Enough(w, owed)
    ensures Enough(Rouse(w, owed[0].address), owed[1..])
  {
    hide CountAt;
    var address := owed[0].address;
    var w', k := Rouse(w, address), PlaceOf(w.waiting, address);
    forall a: nat | CountAt(w'.waiting, a) > 0 ensures |Mail(w', a)| <= CountAt(w'.woken, a) + CountAt(owed[1..], a) {
      assert owed == [owed[0]] + owed[1..];
      CountBoth([owed[0]], owed[1..], a);
      CountOne(owed[0], a);
      if k < |w.waiting| {
        CountWithout(w.waiting, k, a);
        CountBoth(w.woken, [w.waiting[k]], a);
        CountOne(w.waiting[k], a);
      } else if a == address {
        CountNone(w.waiting, a);
      }
    }
  }

  lemma {:induction false} HandOnEnough(w: World, owed: seq<Waiter>)
    requires Enough(w, owed)
    ensures Enough(HandOn(w, owed), [])
    decreases |owed|
  {
    hide Enough, Rouse;
    if owed != [] {
      RouseEnough(w, owed);
      HandOnEnough(Rouse(w, owed[0].address), owed[1..]);
    }
  }

  lemma DepartEnough(w: World, x: Waiter)
    requires Enough(w, [])
    ensures Enough(Depart(w, x), [])
  {
    hide CountAt, Rouse, Leave;
    if x in w.waiting {
      forall a: nat ensures CountAt(Leave(w.waiting, x), a) <= CountAt(w.waiting, a) {
        CountLeave(w.waiting, x, a);
      }
    } else if x in w.woken {
      var left := w.(woken := Leave(w.woken, x));
      forall a: nat ensures CountAt(w.woken, a) <= CountAt(left.woken, a) + CountAt([x], a) {
        CountLeave(w.woken, x, a);
        CountOne(x, a);
      }
      forall a: nat ensures CountAt([], a) == 0 {
        CountNone([], a);
      }
      assert Enough(left, [x]);
      RouseEnough(left, [x]);
      assert [x][1..] == [];
    }
  }

  lemma TakeEnough(w: World, address: nat)
    requires address in w.endpoints && w.endpoints[address] != [] && Enough(w, [])
    ensures Enough(Take(w, address), [])
  {
    hide CountAt;
    forall a: nat ensures |Mail(Take(w, address), a)| <= |Mail(w, a)| {
    }
  }

  lemma LookEnough(w: World, x: Waiter)
    requires x.address in w.endpoints && Enough(w, [])
    ensures Enough(Look(w, x), [])
  {
    hide CountAt, Depart, Take, Leave;
    if w.endpoints[x.address] != [] {
      TakeEnough(w, x.address);
      DepartEnough(Take(w, x.address), x);
    } else {
      var w' := Look(w, x);
      forall a: nat | CountAt(w'.waiting, a) > 0 ensures |Mail(w', a)| <= CountAt(w'.woken, a) + CountAt([], a) {
        CountBoth(w.waiting, [x], a);
        CountOne(x, a);
        CountLeave(w.woken, x, a);
      }
    }
  }

  lemma LookHeeding(w: World, x: Waiter)
    requires x.address in w.endpoints
    ensures Heeding(w, Look(w, x))
  {
    hide Depart, Leave, Heeding;
    LeaveIn(w.woken, x);
    if w.endpoints[x.address] != [] {
      FewerHeeding(w, Take(w, x.address));
      DepartHeeding(Take(w, x.address), x);
      HeedingBoth(w, Take(w, x.address), Look(w, x));
    } else {
      FewerHeeding(w, Look(w, x));
    }
  }

  /** The lines and the mailboxes stay, but for mailboxes that are new. */
  lemma SameEnough(w: World, w': World, owed: seq<Waiter>)
    requires Enough(w, owed) && w'.waiting == w.waiting && w'.woken == w.woken && forall a: nat ::
        Mail(w', a) == Mail(w, a)
    ensures Enough(w', owed)
  {
    hide CountAt;
  }

  // ---------------------------------------------------------------------------------------------
  // Every step
  // ---------------------------------------------------------------------------------------------

  lemma StepWakes(w: World, w': World)
    requires WakeKept(w) && Heeding(w, w') && Enough(w', [])
    ensures WakeKept(w')
  {
    hide Heeding, Enough, Heeded;
    HeedingHeeded(w, w');
  }

  /** A step that tells nobody and leaves the lines and the mailboxes as they are. */
  lemma QuietWakes(w: World, w': World)
    requires WakeKept(w) && w.log <= w'.log && w.ready <= w'.ready
    requires w'.waiting == w.waiting && w'.woken == w.woken && forall a: nat :: Mail(w', a) == Mail(w, a)
    ensures WakeKept(w')
  {
    hide Enough, Heeded, Heeding;
    SameEnough(w, w', []);
    FewerHeeding(w, w');
    StepWakes(w, w');
  }

  lemma DoWakes(w: World, self: Runnable, e: Effect)
    requires WakeKept(w) && Do(w, self, e).Some?
    ensures WakeKept(Do(w, self, e).value)
  {
    hide WakeKept, Look, Depart;
    match e {
      case Receive(address) =>
        QuietWakes(w, Listening(w, address));
        LookWakes(Listening(w, address), Waiter(address, self));
      case TryReceive(address) =>
        QuietWakes(w, Listening(w, address));
        if Listening(w, address).endpoints[address] != [] {
          TakeWakes(Listening(w, address), address);
        }
      case GiveUp(address) => DepartWakes(w, Waiter(address, self));
      case _ => QuietWakes(w, Do(w, self, e).value);
    }
  }

  lemma LookWakes(w: World, x: Waiter)
    requires WakeKept(w) && x.address in w.endpoints
    ensures WakeKept(Look(w, x))
  {
    hide Look, Enough, Heeded, Heeding;
    LookEnough(w, x);
    LookHeeding(w, x);
    StepWakes(w, Look(w, x));
  }

  lemma TakeWakes(w: World, address: nat)
    requires WakeKept(w) && address in w.endpoints && w.endpoints[address] != []
    ensures WakeKept(Take(w, address))
  {
    hide Enough, Heeded, Heeding;
    TakeEnough(w, address);
    FewerHeeding(w, Take(w, address));
    StepWakes(w, Take(w, address));
  }

  lemma DepartWakes(w: World, x: Waiter)
    requires WakeKept(w)
    ensures WakeKept(Depart(w, x))
  {
    hide Depart, Enough, Heeded, Heeding;
    DepartEnough(w, x);
    DepartHeeding(w, x);
    StepWakes(w, Depart(w, x));
  }

  lemma {:induction false} DoAllWakes(w: World, self: Runnable, effects: seq<Effect>)
    requires WakeKept(w) && DoAll(w, self, effects).Some?
    ensures WakeKept(DoAll(w, self, effects).value)
    decreases |effects|
  {
    hide WakeKept, Do;
    if effects != [] {
      DoWakes(w, self, effects[0]);
      DoAllWakes(Do(w, self, effects[0]).value, self, effects[1..]);
    }
  }

  /** A task dropped unrun hands on what it was told. */
  lemma DroppedWakes(w: World, rest: World, r: Runnable)
    requires WakeKept(w) && w.ready != [] && w.ready[0] == r && rest == w.(ready := w.ready[1..])
    ensures WakeKept(Dropped(rest, r))
  {
    hide CountAt, HandOn, Only, RanSince;
    var left := OutOfLine(rest, r);
    var owed := Only(w.woken, r, true);
    OnlyIn(w.woken, r, false);
    assert w.ready == [r] + rest.ready;
    forall x | x in left.woken ensures Roused(x) in left.log && (x.runnable in left.ready || RanSince(left.log, x)) {
      InLonger(w.log, left.log, Roused(x));
      if RanSince(w.log, x) {
        RanStays(w.log, left.log, x);
      }
    }
    forall a: nat ensures CountAt(left.waiting, a) <= CountAt(w.waiting, a) && Mail(left, a) == Mail(w, a) {
      CountOnly(w.waiting, r, a);
    }
    forall a: nat ensures CountAt(w.woken, a) + CountAt([], a) == CountAt(left.woken, a) + CountAt(owed, a) {
      CountOnly(w.woken, r, a);
      CountNone([], a);
    }
    assert Enough(left, owed);
    HandOnEnough(left, owed);
    HandOnHeeding(left, owed);
    HeedingHeeded(left, Dropped(rest, r));
  }

  /** A task that runs has run since it was told. */
  lemma RanWakes(w: World, r: Runnable)
    requires WakeKept(w) && w.ready != [] && w.ready[0] == r
    ensures WakeKept(w.(ready := w.ready[1..], log := w.log + [Ran(r)]))
  {
    hide Enough, RanSince;
    var w' := w.(ready := w.ready[1..], log := w.log + [Ran(r)]);
    SameEnough(w, w', []);
    assert w.ready == [r] + w'.ready;
    forall x | x in w'.woken ensures Roused(x) in w'.log && (x.runnable in w'.ready || RanSince(w'.log, x)) {
      RanNow(w.log, x, r);
      if RanSince(w.log, x) {
        RanStays(w.log, w'.log, x);
      }
    }
  }

  lemma RanNow(log: seq<Event>, x: Waiter, r: Runnable)
    requires Roused(x) in log
    ensures Roused(x) in log + [Ran(r)]
    ensures x.runnable == r ==> RanSince(log + [Ran(r)], x)
  {
    var i :| 0 <= i < |log| && log[i] == Roused(x);
    assert (log + [Ran(r)])[i] == Roused(x);
    assert x.runnable == r ==> RanAfter(log + [Ran(r)], x, i, |log|);
  }

  lemma FireOneWakes(w: World, e: Entry, at: nat)
    requires WakeKept(w)
    ensures WakeKept(FireOne(w, e, at))
  {
    hide Enough, Heeded, Heeding, Rouse;
    if e.callback.Deliver? && e.callback.to in w.endpoints {
      var landed := Landed(w, e, at);
      var owed := [Waiter(e.callback.to, Runnable(0, 0))];
      LandedEnough(w, e, at, owed[0]);
      FewerHeeding(w, landed);
      RouseEnough(landed, owed);
      RouseHeeding(landed, e.callback.to);
      HeedingBoth(w, landed, FireOne(w, e, at));
      assert owed[1..] == [];
      StepWakes(w, FireOne(w, e, at));
    } else {
      QuietWakes(w, FireOne(w, e, at));
    }
  }

  lemma LandedEnough(w: World, e: Entry, at: nat, x: Waiter)
    requires Enough(w, []) && e.callback.Deliver? && e.callback.to in w.endpoints && x.address == e.callback.to
    ensures Enough(Landed(w, e, at), [x])
  {
    hide CountAt;
    forall a: nat ensures CountAt([], a) == 0 {
      CountNone([], a);
    }
    forall a: nat ensures |Mail(Landed(w, e, at), a)| <= |Mail(w, a)| + CountAt([x], a) {
      CountOne(x, a);
    }
  }

  lemma {:induction false} FireAllWakes(w: World, fired: seq<Entry>, at: nat)
    requires WakeKept(w)
    ensures WakeKept(FireAll(w, fired, at))
    decreases |fired|
  {
    hide WakeKept, FireOne;
    if fired != [] {
      FireOneWakes(w, fired[0], at);
      FireAllWakes(FireOne(w, fired[0], at), fired[1..], at);
    }
  }

  lemma NextWakes(w: World, w': World)
    requires WakeKept(w) && Next(w, w')
    ensures WakeKept(w')
  {
    hide WakeKept, DoAll, FireAll, Fires, Dropped, Drawn;
    if effects :| RunsOne(w, effects, w') {
      var r, rest := w.ready[0], w.(ready := w.ready[1..]);
      if r.node in w.killed {
        DroppedWakes(w, rest, r);
      } else {
        RanWakes(w, r);
        DoAllWakes(rest.(log := w.log + [Ran(r)]), r, effects);
      }
    } else {
      var fired, left :| Advances(w, fired, left, w');
      var at := Clamp(NextTime(w.queue).value);
      QuietWakes(w, w.(queue := left));
      FireAllWakes(w.(queue := left), fired, at);
      QuietWakes(FireAll(w.(queue := left), fired, at), w');
    }
  }

  lemma {:induction false} RunWakes(ws: seq<World>)
    requires IsRun(ws)
    ensures WakeKept(ws[|ws| - 1])
  {
    hide WakeKept, Next;
    var n := |ws| - 1;
    if n == 0 {
      StartWakes(ws[0]);
    } else {
      PrefixIsRun(ws, n);
      RunWakes(ws[..n]);
      assert Next(ws[n - 1], ws[n - 1 + 1]);
      NextWakes(ws[n - 1], ws[n]);
    }
  }

  lemma StartWakes(w: World)
    requires exists first, config, clogged :: w == Start(first, config, clogged)
    ensures WakeKept(w)
  {
  }

  // ---------------------------------------------------------------------------------------------
  // Every run
  // ---------------------------------------------------------------------------------------------

  /**
   * In every run, while a task waits at an address no more messages lie in its mailbox than tasks have been told of
   * one; and each task told is ready, or has run since.
   */
  lemma WakeupsNotLost(ws: seq<World>)
    requires IsRun(ws)
    ensures var w := ws[|ws| - 1];
      && (forall a: nat | CountAt(w.waiting, a) > 0 :: |Mail(w, a)| <= CountAt(w.woken, a))
      && (forall x | x in w.woken :: x.runnable in w.ready || RanSince(w.log, x))
  {
    hide Next, RanSince, CountAt;
    RunWakes(ws);
    var w := ws[|ws| - 1];
    forall a: nat | CountAt(w.waiting, a) > 0 ensures |Mail(w, a)| <= CountAt(w.woken, a) {
      CountNone([], a);
    }
  }

  /**
   * So when time is about to move, with no task ready, a task waits for a message that is there only if another
   * was told of one at that address and, having run since, has neither looked for it nor given up.
   */
  lemma NoneWaitsInVain(ws: seq<World>, a: nat) returns (x: Waiter)
    requires IsRun(ws)
    requires var w := ws[|ws| - 1];
      w.ready == [] && CountAt(w.waiting, a) > 0 && Mail(w, a) != []
    ensures var w := ws[|ws| - 1];
      x in w.woken && x.address == a && RanSince(w.log, x)
  {
    hide Next, RanSince, CountAt;
    WakeupsNotLost(ws);
    var w := ws[|ws| - 1];
    if forall j | 0 <= j < |w.woken| :: w.woken[j].address != a {
      CountNone(w.woken, a);
      assert false;
    }
    var j :| 0 <= j < |w.woken| && w.woken[j].address == a;
    x := w.woken[j];
  }

  // ---------------------------------------------------------------------------------------------
  // One look
  // ---------------------------------------------------------------------------------------------

  lemma {:induction false} LeaveOnce(line: seq<Waiter>, x: Waiter)
    ensures multiset(Leave(line, x)) == multiset(line) - multiset{x}
    decreases |line|
  {
    if line != [] {
      assert line == [line[0]] + line[1..];
      if line[0] != x {
        LeaveOnce(line[1..], x);
      }
    }
  }

  /** Of those in line at an address the first, and nobody else, is told and made ready. */
  lemma FirstIsTold(w: World, address: nat)
    ensures var w' := Rouse(w, address);
      if exists x | x in w.waiting :: x.address == address then
        exists k | 0 <= k < |w.waiting| ::
          && w.waiting[k].address == address && (forall j | 0 <= j < k :: w.waiting[j].address != address)
          && w'.waiting == w.waiting[..k] + w.waiting[k + 1..] && w'.woken == w.woken + [w.waiting[k]]
          && w'.ready == w.ready + [w.waiting[k].runnable]
      else w' == w
  {
    var k := PlaceOf(w.waiting, address);
    if k < |w.waiting| {
      assert w.waiting[k] in w.waiting;
    }
  }

  /** A task that gives up is in line, or told, once less; what it was told the first in line is told in its place. */
  lemma DepartTold(w: World, self: Runnable, address: nat)
    ensures var x, w' := Waiter(address, self), Do(w, self, GiveUp(address)).value;
      if x in w.waiting then
        multiset(w'.waiting) == multiset(w.waiting) - multiset{x} && w'.woken == w.woken && w'.ready == w.ready
      else if x in w.woken then
        exists w1: World :: w' == Rouse(w1, x.address) && w1 == w.(woken := w1.woken)
          && multiset(w1.woken) == multiset(w.woken) - multiset{x}
      else w' == w
  {
    hide Leave, Rouse;
    var x := Waiter(address, self);
    LeaveOnce(w.waiting, x);
    LeaveOnce(w.woken, x);
    if x !in w.waiting && x in w.woken {
      var w1 := w.(woken := Leave(w.woken, x));
      assert Depart(w, x) == Rouse(w1, x.address) && w1 == w.(woken := w1.woken);
    }
  }

  /**
   * A task that looks where a message is takes the oldest, which is received right then; where none is it is in line,
   * at the end if it was not in line before.
   */
  lemma LookTold(w: World, self: Runnable, address: nat)
    ensures var x, w' := Waiter(address, self), Do(w, self, Receive(address)).value;
      if Mail(w, address) != [] then
        && Mail(w', address) == Mail(w, address)[1..]
        && w.log + [Received(address, Mail(w, address)[0])] <= w'.log
      else
        && Mail(w', address) == [] && w'.ready == w.ready
        && w'.waiting == (if x in w.waiting then w.waiting else w.waiting + [x])
        && multiset(w'.woken) == if x in w.waiting then multiset(w.woken) else multiset(w.woken) - multiset{x}
  {
    hide Depart, Leave;
    var x := Waiter(address, self);
    LeaveOnce(w.woken, x);
    if Mail(w, address) != [] {
      DepartKeepsMail(Take(w, address), x);
    }
  }

  lemma DepartKeepsMail(w: World, x: Waiter)
    ensures Depart(w, x).endpoints == w.endpoints && w.log <= Depart(w, x).log
  {
    hide Leave;
  }

  /** A task that takes what there is without waiting takes the oldest, if any, and stays in every line. */
  lemma TryTold(w: World, self: Runnable, address: nat)
    ensures var w' := Do(w, self, TryReceive(address)).value;
      && w'.waiting == w.waiting && w'.woken == w.woken && w'.ready == w.ready
      && if Mail(w, address) != [] then
           && Mail(w', address) == Mail(w, address)[1..]
           && w'.log == w.log + [Received(address, Mail(w, address)[0])]
         else Mail(w', address) == []
  {
  }
}
