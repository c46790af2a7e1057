/** The simulated runtime: tasks run until none is ready, then time moves; messages are timers that deliver. */
module Simulated {
  import opened Wrappers
  import opened Ir
  import opened Time
  import opened Waiting

  const MILLISECOND: nat := 1_000_000

  /** Messages take from `low` up to, but not including, `high`. */
  datatype Config = Config(low: nat, high: nat)

  const DEFAULT_CONFIG: Config := Config(MILLISECOND, 10 * MILLISECOND)

  /** What a task does while it runs, its code being its own affair. */
  datatype Effect =
    | Spawn(runnable: Runnable)
    | SleepUntil(deadline: int)
    | Listen(address: nat)
    | Transmit(from: nat, to: nat, tag: nat, data: seq<Byte>, lost: bool, latency: nat)
    | Receive(address: nat)
    | TryReceive(address: nat)
    | GiveUp(address: nat)
    | ArmTimer(deadline: int, runnable: Runnable)
    | Kill(node: nat)

  datatype Event =
    | Armed(entry: Entry, at: nat)
    | Fired(entry: Entry, at: nat)
    | Ran(runnable: Runnable)
    | Killed(node: nat)
    | Spawned(runnable: Runnable)
    | Discarded(runnable: Runnable)
    | Received(address: nat, message: Message)
    | Roused(waiter: Waiter)
    | Opened(address: nat)
    | Sent(from: nat, to: nat, tag: nat, data: seq<Byte>, lost: bool, latency: nat, at: nat)

  /** `waiting` are in line for a message, `woken` have been told of one and not looked yet. */
  datatype World = World(
    now: nat,
    queue: seq<Entry>,
    armed: nat,
    ready: seq<Runnable>,
    killed: set<nat>,
    endpoints: map<nat, seq<Message>>,
    waiting: seq<Waiter>,
    woken: seq<Waiter>,
    clogged: set<nat>,
    config: Config,
    log: seq<Event>)

  /** Arm a timer; each has a number of its own. */
  function Arm(w: World, deadline: int, callback: Callback): World {
    var e := Entry(w.armed, deadline, callback);
    w.(queue := w.queue + [e], armed := w.armed + 1, log := w.log + [Armed(e, w.now)])
  }

  /**
   * A message sent to an address that is listening, neither end clogged, and not lost, is delivered once its latency
   * passes.
   */
  function Send(w: World, from: nat, to: nat, tag: nat, data: seq<Byte>, lost: bool, latency: nat): World {
    var sent := Noted(w, Sent(from, to, tag, data, lost, latency, w.now));
    if to !in w.endpoints || from in w.clogged || to in w.clogged || lost then sent
    else Arm(sent, w.now + latency, Deliver(to, Message(tag, data, from)))
  }

  function Noted(w: World, e: Event): World {
    w.(log := w.log + [e])
  }

  /** An address in use has a mailbox. */
  function Listening(w: World, address: nat): World {
    if address in w.endpoints then w
    else Noted(w.(endpoints := w.endpoints[address := []]), Opened(address))
  }

  /** Tell the first in line at an address that there is something to look for. */
  function Rouse(w: World, address: nat): World {
    var k := PlaceOf(w.waiting, address);
    if k == |w.waiting| then w
    else
      var x := w.waiting[k];
      w.(waiting := w.waiting[..k] + w.waiting[k + 1..], woken := w.woken + [x], ready := w.ready + [x.runnable],
         log := w.log + [Roused(x)])
  }

  /** A task stops waiting; if it had been told of a message, the next in line is told instead. */
  function Depart(w: World, x: Waiter): World {
    if x in w.waiting then w.(waiting := Leave(w.waiting, x))
    else if x in w.woken then Rouse(w.(woken := Leave(w.woken, x)), x.address)
    else w
  }

  /** The oldest message in a mailbox is taken. */
  function Take(w: World, address: nat): World
    requires address in w.endpoints && w.endpoints[address] != []
  {
    var mail := w.endpoints[address];
    w.(endpoints := w.endpoints[address := mail[1..]], log := w.log + [Received(address, mail[0])])
  }

  /**
   * A task looks for a message: it takes the oldest and waits no more, or waits where it was or at the end of the line.
   */
  function Look(w: World, x: Waiter): World
    requires x.address in w.endpoints
  {
    if w.endpoints[x.address] != [] then Depart(Take(w, x.address), x)
    else if x in w.waiting then w
    else w.(woken := Leave(w.woken, x), waiting := w.waiting + [x])
  }

  /** Each of these places in line is handed to the next who waits at its address. */
  function HandOn(w: World, places: seq<Waiter>): World
    decreases |places|
  {
    if places == [] then w else HandOn(Rouse(w, places[0].address), places[1..])
  }

  /** A task is dropped unrun, and with it every place it has in a line. */
  function Dropped(w: World, r: Runnable): World {
    HandOn(OutOfLine(w, r), Only(w.woken, r, true))
  }

  function OutOfLine(w: World, r: Runnable): World {
    Noted(w.(waiting := Only(w.waiting, r, false), woken := Only(w.woken, r, false)), Discarded(r))
  }

  /** What one effect does, or `None` for the panic of sending from an address that is not listening. */
  function Do(w: World, self: Runnable, e: Effect): Option<World> {
    match e
    case Spawn(r) => Some(Noted(w.(ready := w.ready + [r]), Spawned(r)))
    case SleepUntil(deadline) => Some(if w.now >= deadline then w else Arm(w, deadline, Wake(self)))
    case Listen(address) => Some(Listening(w, address))
    case Receive(address) => Some(Look(Listening(w, address), Waiter(address, self)))
    case TryReceive(address) =>
      var listening := Listening(w, address);
      Some(if listening.endpoints[address] != [] then Take(listening, address) else listening)
    case GiveUp(address) => Some(Depart(w, Waiter(address, self)))
    case Transmit(from, to, tag, data, lost, latency) =>
      if from !in w.endpoints then None else Some(Send(w, from, to, tag, data, lost, latency))
    case ArmTimer(deadline, r) => Some(Arm(w, deadline, Wake(r)))
    case Kill(node) => Some(w.(killed := w.killed + {node}, log := w.log + [Killed(node)]))
  }

  function DoAll(w: World, self: Runnable, effects: seq<Effect>): Option<World>
    decreases |effects|
  {
    if effects == [] then Some(w)
    else
      var next := Do(w, self, effects[0]);
      if next.None? then None else DoAll(next.value, self, effects[1..])
  }

  /** A timer fires, before it does what it is for. */
  function FiredNow(w: World, e: Entry, at: nat): World {
    w.(log := w.log + [Fired(e, at)])
  }

  /** What a timer does when it fires. */
  function CalledBack(w: World, callback: Callback): World {
    match callback
    case Wake(r) => w.(ready := w.ready + [r])
    case Deliver(to, m) =>
      if to in w.endpoints then Rouse(w.(endpoints := w.endpoints[to := w.endpoints[to] + [m]]), to) else w
  }

  function FireOne(w: World, e: Entry, at: nat): World {
    CalledBack(FiredNow(w, e, at), e.callback)
  }

  function FireAll(w: World, fired: seq<Entry>, at: nat): World
    decreases |fired|
  {
    if fired == [] then w else FireAll(FireOne(w, fired[0], at), fired[1..], at)
  }

  // ---------------------------------------------------------------------------------------------
  // Runs
  // ---------------------------------------------------------------------------------------------

  /** Latencies are drawn from what the network is configured to take. */
  predicate Drawn(config: Config, e: Effect) {
    e.Transmit? ==> config.low <= e.latency < config.high
  }

  /** The first ready task runs, whatever it does; one on a killed node is dropped. */
  ghost predicate RunsOne(w: World, effects: seq<Effect>, w': World) {
    && w.ready != []
    && var r, rest := w.ready[0], w.(ready := w.ready[1..]);
    if r.node in w.killed then w' == Dropped(rest, r)
    else
      && (forall e | e in effects :: Drawn(w.config, e))
      && DoAll(rest.(log := w.log + [Ran(r)]), r, effects) == Some(w')
  }

  /** With nothing ready, time moves to the next deadline and what is due fires. */
  ghost predicate Advances(w: World, fired: seq<Entry>, left: seq<Entry>, w': World) {
    && w.ready == [] && w.queue != []
    && var time := NextTime(w.queue).value;
    && Fires(w.queue, time, fired, left)
    && w' == FireAll(w.(queue := left), fired, Clamp(time)).(now := Clamp(time))
  }

  /** The first ready task panics: it is not dropped, and one of the things it does fails. */
  predicate Panics(w: World, effects: seq<Effect>)
    requires w.ready != []
  {
    w.ready[0].node !in w.killed && DoAll(Running(w), w.ready[0], effects).None?
  }

  /** The world when its first ready task starts to run. */
  function Running(w: World): World
    requires w.ready != []
  {
    w.(ready := w.ready[1..], log := w.log + [Ran(w.ready[0])])
  }

  ghost predicate Next(w: World, w': World) {
    || (exists effects :: RunsOne(w, effects, w'))
    || (exists fired, left :: Advances(w, fired, left, w'))
  }

  function Start(first: Runnable, config: Config, clogged: set<nat>): World {
    World(0, [], 0, [first], {}, map[], [], [], clogged, config, [])
  }

  /** A run of the runtime, as far as it has got. */
  ghost predicate IsRun(ws: seq<World>) {
    && ws != []
    && (exists first, config, clogged :: ws[0] == Start(first, config, clogged))
    && forall i | 0 <= i < |ws| - 1 :: Next(ws[i], ws[i + 1])
  }

  // ---------------------------------------------------------------------------------------------
  // What every step keeps
  // ---------------------------------------------------------------------------------------------

  predicate IdsDistinct(queue: seq<Entry>) {
    forall i, j | 0 <= i < j < |queue| :: queue[i].id != queue[j].id
  }

  lemma DistinctOnce(queue: seq<Entry>, e: Entry)
    requires IdsDistinct(queue)
    ensures multiset(queue)[e] <= 1
    decreases |queue|
  {
    if queue != [] {
      var last := |queue| - 1;
      assert queue == queue[..last] + [queue[last]];
      DistinctOnce(queue[..last], e);
      if queue[last] == e {
        assert e !in queue[..last];
      }
    }
  }

  lemma RepeatedTwice(queue: seq<Entry>, i: nat, j: nat)
    requires i < j < |queue| && queue[i] == queue[j]
    ensures multiset(queue)[queue[i]] >= 2
  {
    assert queue == queue[..j] + ([queue[j]] + queue[j + 1..]);
    assert queue[i] in queue[..j];
  }

  /** Timers with different numbers still have them in any other order. */
  lemma SplitDistinct(queue: seq<Entry>, other: seq<Entry>)
    requires IdsDistinct(queue) && multiset(queue) == multiset(other)
    ensures IdsDistinct(other) && forall e :: e in other <==> e in queue
  {
    forall e ensures e in other <==> e in queue {
      assert e in other <==> e in multiset(other);
      assert e in queue <==> e in multiset(queue);
    }
    forall i, j | 0 <= i < j < |other| ensures other[i].id != other[j].id {
      assert other[i] in queue && other[j] in queue;
      DistinctOnce(queue, other[i]);
      if other[i] == other[j] {
        RepeatedTwice(other, i, j);
      }
    }
  }

  predicate IsArming(log: seq<Event>, j: nat, e: Entry) {
    j < |log| && log[j].Armed? && log[j].entry == e
  }

  predicate IsFiring(log: seq<Event>, i: nat, e: Entry) {
    i < |log| && log[i].Fired? && log[i].entry == e
  }

  /** Armed at some point of the first `n`. */
  ghost predicate ArmedBefore(log: seq<Event>, n: nat, e: Entry) {
    exists j: nat :: j < n && IsArming(log, j, e)
  }

  /** A delivery is due at least the lowest and less than the highest latency after it was sent. */
  predicate InWindow(e: Event, config: Config) {
    e.Armed? && e.entry.callback.Deliver? ==> e.at + config.low <= e.entry.deadline < e.at + config.high
  }

  /** Timers armed have numbers of their own, in order, and deliveries among them are due when they should be. */
  ghost predicate ArmingsKept(w: World) {
    && (forall j | 0 <= j < |w.log| :: InWindow(w.log[j], w.config))
    && (forall j | 0 <= j < |w.log| :: w.log[j].Armed? ==> w.log[j].entry.id < w.armed)
    && (forall i, j | 0 <= i < j < |w.log| && w.log[i].Armed? && w.log[j].Armed? ::
          w.log[i].entry.id < w.log[j].entry.id)
  }

  /** Timers still to fire, `pending` about to, are all different and were all armed. */
  ghost predicate QueueKept(w: World, pending: seq<Entry>) {
    && IdsDistinct(pending + w.queue)
    && forall e | e in pending + w.queue :: e.id < w.armed && ArmedBefore(w.log, |w.log|, e)
  }

  /** Timers fired were armed before, fired at their deadline, fired once, and are not still to fire. */
  ghost predicate FiringsKept(w: World, pending: seq<Entry>) {
    && (forall i | 0 <= i < |w.log| && w.log[i].Fired? ::
          && w.log[i].at == Clamp(w.log[i].entry.deadline) && w.log[i].entry.id < w.armed
          && ArmedBefore(w.log, i, w.log[i].entry))
    && (forall i, j | 0 <= i < j < |w.log| && w.log[i].Fired? && w.log[j].Fired? ::
          w.log[i].entry.id != w.log[j].entry.id)
    && (forall i, e | 0 <= i < |w.log| && w.log[i].Fired? && e in pending + w.queue :: w.log[i].entry.id != e.id)
  }

  /** Nothing of a killed node has run since it was killed. */
  ghost predicate KillsKept(w: World) {
    && (forall i | 0 <= i < |w.log| && w.log[i].Killed? :: w.log[i].node in w.killed)
    && (forall i, j | 0 <= i < j < |w.log| && w.log[i].Killed? && w.log[j].Ran? ::
          w.log[j].runnable.node != w.log[i].node)
  }

  ghost predicate Kept(w: World, pending: seq<Entry>) {
    ArmingsKept(w) && QueueKept(w, pending) && FiringsKept(w, pending) && KillsKept(w)
  }

  lemma ArmedStays(log: seq<Event>, more: seq<Event>, n: nat, e: Entry)
    requires ArmedBefore(log, n, e) && log <= more
    ensures ArmedBefore(more, n, e) && ArmedBefore(more, |more|, e)
  {
    var j: nat :| j < n && IsArming(log, j, e);
    assert IsArming(more, j, e);
  }

  lemma ArmKept(w: World, deadline: int, callback: Callback)
    requires Kept(w, []) && (callback.Deliver? ==> w.now + w.config.low <= deadline < w.now + w.config.high)
    ensures Kept(Arm(w, deadline, callback), [])
  {
    hide ArmedBefore, ArmingsKept, KillsKept, FiringsKept;
    var w', e := Arm(w, deadline, callback), Entry(w.armed, deadline, callback);
    ArmedInOrder(w, deadline, callback);
    assert IsArming(w'.log, |w.log|, e);
    assert ArmedBefore(w'.log, |w'.log|, e) by { ArmedNow(w'.log, |w.log|, e); }
    assert [] + w.queue == w.queue && [] + w'.queue == w'.queue;
    forall f | f in w'.queue ensures f.id < w'.armed && ArmedBefore(w'.log, |w'.log|, f) {
      if f in w.queue {
        ArmedStays(w.log, w'.log, |w.log|, f);
      }
    }
    FiringsStay(w, [], w', []);
  }

  lemma ArmedInOrder(w: World, deadline: int, callback: Callback)
    requires ArmingsKept(w) && KillsKept(w)
    requires callback.Deliver? ==> w.now + w.config.low <= deadline < w.now + w.config.high
    ensures ArmingsKept(Arm(w, deadline, callback)) && KillsKept(Arm(w, deadline, callback))
  {
  }

  lemma ArmedNow(log: seq<Event>, j: nat, e: Entry)
    requires IsArming(log, j, e)
    ensures ArmedBefore(log, |log|, e)
  {
  }

  /** Firings are as they were after anything that fires nothing and adds only new timers. */
  lemma FiringsStay(w: World, pending: seq<Entry>, w': World, pending': seq<Entry>)
    requires FiringsKept(w, pending) && w.log <= w'.log && w.armed <= w'.armed
    requires forall i | |w.log| <= i < |w'.log| :: !w'.log[i].Fired?
    requires forall e | e in pending' + w'.queue :: e in pending + w.queue || e.id >= w.armed
    ensures FiringsKept(w', pending')
  {
    hide ArmedBefore;
    forall i | 0 <= i < |w'.log| && w'.log[i].Fired?
      ensures w'.log[i].at == Clamp(w'.log[i].entry.deadline) && w'.log[i].entry.id < w'.armed
        && ArmedBefore(w'.log, i, w'.log[i].entry)
    {
      assert w'.log[i] == w.log[i];
      ArmedStays(w.log, w'.log, i, w.log[i].entry);
    }
  }

  /** A step that only moves messages out of mailboxes, and tasks in and out of line. */
  ghost predicate Calm(w: World, w': World) {
    && w' == w.(ready := w'.ready, endpoints := w'.endpoints, waiting := w'.waiting, woken := w'.woken, log := w'.log)
    && w.log <= w'.log && forall i | |w.log| <= i < |w'.log| ::
         w'.log[i].Received? || w'.log[i].Roused? || w'.log[i].Opened? || w'.log[i].Discarded?
  }

  lemma CalmBoth(w: World, u: World, w': World)
    requires Calm(w, u) && Calm(u, w')
    ensures Calm(w, w')
  {
  }

  lemma RouseCalm(w: World, address: nat)
    ensures Calm(w, Rouse(w, address))
  {
  }

  lemma DepartCalm(w: World, x: Waiter)
    ensures Calm(w, Depart(w, x))
  {
    hide Rouse, Leave;
    RouseCalm(w.(woken := Leave(w.woken, x)), x.address);
  }

  lemma {:induction false} HandOnCalm(w: World, places: seq<Waiter>)
    ensures Calm(w, HandOn(w, places))
    decreases |places|
  {
    hide Rouse, Calm;
    if places == [] {
      CalmItself(w);
    } else {
      RouseCalm(w, places[0].address);
      HandOnCalm(Rouse(w, places[0].address), places[1..]);
      CalmBoth(w, Rouse(w, places[0].address), HandOn(w, places));
    }
  }

  lemma CalmItself(w: World)
    ensures Calm(w, w)
  {
  }

  lemma DroppedCalm(w: World, r: Runnable)
    ensures Calm(w, Dropped(w, r))
  {
    hide HandOn, Only;
    HandOnCalm(OutOfLine(w, r), Only(w.woken, r, true));
    CalmBoth(w, OutOfLine(w, r), Dropped(w, r));
  }

  /** Listening, receiving and giving up. */
  predicate IsMail(e: Effect) {
    e.Listen? || e.Receive? || e.TryReceive? || e.GiveUp?
  }

  lemma MailCalm(w: World, self: Runnable, e: Effect)
    requires IsMail(e)
    ensures Do(w, self, e).Some? && Calm(w, Do(w, self, e).value)
  {
    hide Depart, Leave;
    if e.GiveUp? {
      DepartCalm(w, Waiter(e.address, self));
    } else {
      var l := Listening(w, e.address);
      if e.Receive? && l.endpoints[e.address] != [] {
        DepartCalm(Take(l, e.address), Waiter(e.address, self));
      }
    }
  }

  /** A step that arms and fires nothing: a calm one, or a task that runs, or a node killed. */
  ghost predicate Plain(w: World, w': World) {
    || Calm(w, w')
    || (&& w'.queue == w.queue && w'.armed == w.armed && w'.config == w.config && w.killed <= w'.killed
      && w'.now == w.now
        && w'.endpoints == w.endpoints && |w'.log| == |w.log| + 1 && w.log <= w'.log
        && var e := w'.log[|w.log|];
        (e.Killed? && e.node in w'.killed) || (e.Ran? && e.runnable.node !in w.killed) || e.Sent? || e.Spawned?)
  }

  lemma PlainKept(w: World, pending: seq<Entry>, w': World)
    requires Kept(w, pending) && Plain(w, w')
    ensures Kept(w', pending)
  {
    hide ArmedBefore;
    forall f | f in pending + w'.queue ensures ArmedBefore(w'.log, |w'.log|, f) {
      ArmedStays(w.log, w'.log, |w.log|, f);
    }
    FiringsStay(w, pending, w', pending);
  }

  lemma DoKept(w: World, self: Runnable, e: Effect)
    requires Kept(w, []) && Drawn(w.config, e) && Do(w, self, e).Some?
    ensures Kept(Do(w, self, e).value, []) && Do(w, self, e).value.config == w.config
  {
    hide Kept, Arm;
    match e {
      case SleepUntil(deadline) =>
        if w.now < deadline {
          ArmKept(w, deadline, Wake(self));
          ArmConfig(w, deadline, Wake(self));
        }
      case ArmTimer(deadline, r) =>
        ArmKept(w, deadline, Wake(r));
        ArmConfig(w, deadline, Wake(r));
      case Transmit(from, to, tag, data, lost, latency) =>
        var sent := Noted(w, Sent(from, to, tag, data, lost, latency, w.now));
        PlainKept(w, [], sent);
        ArmKept(sent, w.now + latency, Deliver(to, Message(tag, data, from)));
        ArmConfig(sent, w.now + latency, Deliver(to, Message(tag, data, from)));
      case Spawn(_) =>
        PlainKept(w, [], Do(w, self, e).value);
      case Kill(_) => PlainKept(w, [], Do(w, self, e).value);
      case _ =>
        MailCalm(w, self, e);
        PlainKept(w, [], Do(w, self, e).value);
    }
  }

  lemma ArmConfig(w: World, deadline: int, callback: Callback)
    ensures Arm(w, deadline, callback).config == w.config
  {
  }

  lemma {:induction false} DoAllKept(w: World, self: Runnable, effects: seq<Effect>)
    requires Kept(w, []) && (forall e | e in effects :: Drawn(w.config, e)) && DoAll(w, self, effects).Some?
    ensures Kept(DoAll(w, self, effects).value, []) && DoAll(w, self, effects).value.config == w.config
    decreases |effects|
  {
    hide Kept, Do;
    if effects != [] {
      DoKept(w, self, effects[0]);
      DoAllKept(Do(w, self, effects[0]).value, self, effects[1..]);
    }
  }

  lemma RunsOneKept(w: World, effects: seq<Effect>, w': World)
    requires Kept(w, []) && RunsOne(w, effects, w')
    ensures Kept(w', []) && w'.config == w.config
  {
    hide Kept, DoAll, Drawn;
    var r, rest := w.ready[0], w.(ready := w.ready[1..]);
    if r.node in w.killed {
      DroppedCalm(rest, r);
      PlainKept(w, [], w');
    } else {
      var ran := rest.(log := w.log + [Ran(r)]);
      PlainKept(w, [], ran);
      DoAllKept(ran, r, effects);
    }
  }

  lemma CalledBackCalm(w: World, callback: Callback)
    ensures Calm(w, CalledBack(w, callback))
  {
    hide Rouse;
    if callback.Deliver? && callback.to in w.endpoints {
      RouseCalm(w.(endpoints := w.endpoints[callback.to := w.endpoints[callback.to] + [callback.message]]),
        callback.to);
    }
  }

  lemma FireOneKept(w: World, pending: seq<Entry>, at: nat)
    requires pending != [] && Kept(w, pending) && at == Clamp(pending[0].deadline)
    ensures Kept(FireOne(w, pending[0], at), pending[1..]) && FireOne(w, pending[0], at).config == w.config
  {
    hide Kept, CalledBack;
    FiredKept(w, pending, at);
    CalledBackCalm(FiredNow(w, pending[0], at), pending[0].callback);
    PlainKept(FiredNow(w, pending[0], at), pending[1..], FireOne(w, pending[0], at));
  }

  lemma FiredKept(w: World, pending: seq<Entry>, at: nat)
    requires pending != [] && Kept(w, pending) && at == Clamp(pending[0].deadline)
    ensures Kept(FiredNow(w, pending[0], at), pending[1..])
  {
    hide ArmedBefore;
    var e, rest := pending[0], pending[1..];
    var w' := FiredNow(w, e, at);
    var all := pending + w.queue;
    assert all[0] == e && all[1..] == rest + w'.queue;
    TailDistinct(all);
    forall f | f in rest + w'.queue ensures f.id < w'.armed && ArmedBefore(w'.log, |w'.log|, f) && f.id != e.id {
      assert f in all;
      ArmedStays(w.log, w'.log, |w.log|, f);
    }
    FiredNowKept(w, pending, w', at);
  }

  lemma TailDistinct(all: seq<Entry>)
    requires all != [] && IdsDistinct(all)
    ensures IdsDistinct(all[1..]) && forall f | f in all[1..] :: f.id != all[0].id
  {
  }

  lemma FiredNowKept(w: World, pending: seq<Entry>, w': World, at: nat)
    requires pending != [] && QueueKept(w, pending) && FiringsKept(w, pending) && at == Clamp(pending[0].deadline)
    requires w'.log == w.log + [Fired(pending[0], at)] && w'.queue == w.queue && w'.armed == w.armed
    ensures FiringsKept(w', pending[1..])
  {
    hide ArmedBefore;
    var e, n := pending[0], |w.log|;
    var all := pending + w.queue;
    assert all[0] == e && all[1..] == pending[1..] + w.queue;
    TailDistinct(all);
    assert e in all;
    forall i | 0 <= i < |w'.log| && w'.log[i].Fired?
      ensures w'.log[i].at == Clamp(w'.log[i].entry.deadline) && w'.log[i].entry.id < w'.armed
        && ArmedBefore(w'.log, i, w'.log[i].entry)
    {
      if i < n {
        ArmedStays(w.log, w'.log, i, w.log[i].entry);
      } else {
        ArmedStays(w.log, w'.log, n, e);
      }
    }
    assert forall f | f in pending[1..] + w.queue :: f in all;
  }

  lemma {:induction false} FireAllKept(w: World, fired: seq<Entry>, at: nat)
    requires Kept(w, fired) && forall e | e in fired :: Clamp(e.deadline) == at
    ensures Kept(FireAll(w, fired, at), []) && FireAll(w, fired, at).config == w.config
    decreases |fired|
  {
    hide Kept, FireOne;
    if fired != [] {
      FireOneKept(w, fired, at);
      FireAllKept(FireOne(w, fired[0], at), fired[1..], at);
    }
  }

  lemma AdvancesKept(w: World, fired: seq<Entry>, left: seq<Entry>, w': World)
    requires Kept(w, []) && Advances(w, fired, left, w')
    ensures Kept(w', []) && w'.config == w.config
  {
    hide Kept, FireAll;
    var time := NextTime(w.queue).value;
    FiresAtNext(w.queue, fired, left);
    PendingKept(w, fired, left);
    FireAllKept(w.(queue := left), fired, Clamp(time));
    NowKept(FireAll(w.(queue := left), fired, Clamp(time)), Clamp(time));
  }

  lemma NowKept(w: World, now: nat)
    requires Kept(w, [])
    ensures Kept(w.(now := now), [])
  {
  }

  /** What is due, taken off the queue, is about to fire. */
  lemma PendingKept(w: World, fired: seq<Entry>, left: seq<Entry>)
    requires Kept(w, []) && multiset(w.queue) == multiset(fired) + multiset(left)
    ensures Kept(w.(queue := left), fired)
  {
    hide ArmedBefore;
    assert [] + w.queue == w.queue;
    assert multiset(w.queue) == multiset(fired + left);
    SplitDistinct(w.queue, fired + left);
  }

  lemma NextKept(w: World, w': World)
    requires Kept(w, []) && Next(w, w')
    ensures Kept(w', []) && w'.config == w.config
  {
    hide Kept;
    if effects :| RunsOne(w, effects, w') {
      RunsOneKept(w, effects, w');
    } else {
      var fired, left :| Advances(w, fired, left, w');
      AdvancesKept(w, fired, left, w');
    }
  }

  lemma {:induction false} RunKept(ws: seq<World>)
    requires IsRun(ws)
    ensures Kept(ws[|ws| - 1], []) && ws[|ws| - 1].config == ws[0].config
  {
    hide Kept, Next;
    if |ws| == 1 {
      StartKept(ws[0]);
    } else {
      var before := ws[..|ws| - 1];
      assert IsRun(before);
      RunKept(before);
      NextKept(before[|before| - 1], ws[|ws| - 1]);
    }
  }

  lemma StartKept(w: World)
    requires exists first, config, clogged :: w == Start(first, config, clogged)
    ensures Kept(w, [])
  {
  }

  // ---------------------------------------------------------------------------------------------
  // Every run
  // ---------------------------------------------------------------------------------------------

  /**
   * In every run, whatever the tasks do: a timer fires at most once, after it was armed, and when the clock is
   * set to its deadline and so never before it.
   */
  lemma TimersFireOnce(ws: seq<World>)
    requires IsRun(ws)
    ensures var log := ws[|ws| - 1].log;
      && (forall i, j | 0 <= i < j < |log| && log[i].Fired? && log[j].Fired? :: log[i].entry.id != log[j].entry.id)
      && (forall i | 0 <= i < |log| && log[i].Fired? ::
            && log[i].at == (if log[i].entry.deadline < 0 then 0 else log[i].entry.deadline)
            && ArmedBefore(log, i, log[i].entry))
      && (forall i, j | 0 <= i < j < |log| && log[i].Armed? && log[j].Armed? :: log[i].entry.id != log[j].entry.id)
  {
    hide Next, ArmedBefore, QueueKept, KillsKept;
    RunKept(ws);
  }

  /**
   * In every run, a message that was accepted arrives at most once, and after its latency: on the default
   * network at least one millisecond and less than ten after it was sent.
   */
  lemma MessagesArriveOnce(ws: seq<World>)
    requires IsRun(ws)
    ensures var log, config := ws[|ws| - 1].log, ws[0].config;
      && (forall i, j | 0 <= i < j < |log| && log[i].Fired? && log[j].Fired? :: log[i].entry.id != log[j].entry.id)
      && (forall i | 0 <= i < |log| && log[i].Fired? && log[i].entry.callback.Deliver? ::
            exists j: nat :: j < i && IsArming(log, j, log[i].entry)
              && log[j].at + config.low <= log[i].at < log[j].at + config.high)
      && (config == DEFAULT_CONFIG ==>
            forall i | 0 <= i < |log| && log[i].Fired? && log[i].entry.callback.Deliver? ::
              exists j: nat :: j < i && IsArming(log, j, log[i].entry)
                && 1_000_000 <= log[i].at - log[j].at < 10_000_000)
  {
    hide Next, QueueKept, KillsKept;
    RunKept(ws);
    var log, config := ws[|ws| - 1].log, ws[0].config;
    forall i | 0 <= i < |log| && log[i].Fired? && log[i].entry.callback.Deliver?
      ensures exists j: nat ::
                && j < i && IsArming(log, j, log[i].entry)
                && log[j].at + config.low <= log[i].at < log[j].at + config.high
    {
      assert ArmedBefore(log, i, log[i].entry);
      var j: nat :| j < i && IsArming(log, j, log[i].entry);
      assert InWindow(log[j], config);
    }
  }

  /** Once a node is killed, nothing of it runs. */
  lemma KilledNeverRuns(ws: seq<World>, i: nat, j: nat)
    requires IsRun(ws) && i < j < |ws[|ws| - 1].log|
    requires ws[|ws| - 1].log[i].Killed? && ws[|ws| - 1].log[j].Ran?
    ensures ws[|ws| - 1].log[j].runnable.node != ws[|ws| - 1].log[i].node
  {
    hide Next, ArmingsKept, QueueKept, FiringsKept;
    RunKept(ws);
  }

  // ---------------------------------------------------------------------------------------------
  // The executor
  // ---------------------------------------------------------------------------------------------

  lemma {:induction false} FireAllLater(w: World, fired: seq<Entry>, at: nat, now: nat)
    ensures FireAll(w.(now := now), fired, at) == FireAll(w, fired, at).(now := now)
    decreases |fired|
  {
    if fired != [] {
      assert FireOne(w.(now := now), fired[0], at) == FireOne(w, fired[0], at).(now := now);
      FireAllLater(FireOne(w, fired[0], at), fired[1..], at, now);
    }
  }

  /**
   * Blocking on a future so far, `rounds` to go at first: each task ran with what it does in that round, and time moved
   * only in a round where the future was not done.
   */
  ghost predicate Watched(
    bodies: (nat, Runnable) -> seq<Effect>, done: nat -> bool, rounds: nat, ws: seq<World>)
  {
    |ws| <= rounds + 1 && forall i | 0 <= i < |ws| - 1 :: WatchedAt(bodies, done, rounds - 1 - i, ws[i], ws[i + 1])
  }

  ghost predicate WatchedAt(
    bodies: (nat, Runnable) -> seq<Effect>, done: nat -> bool, round: nat, w: World, w': World)
  {
    if w.ready != [] then RunsOne(w, bodies(round, w.ready[0]), w')
    else !done(round) && exists fired, left :: Advances(w, fired, left, w')
  }

  /** How blocking on a future ended: with its value, with nothing left to wait for, with a task's panic, or not yet. */
  datatype Ending = Finished | Blocked | Panicked | StillGoing

  class Executor {
    const time: TimeRuntime
    const config: Config
    var armed: nat
    var ready: seq<Runnable>
    var killed: set<nat>
    var endpoints: map<nat, seq<Message>>
    var waiting: seq<Waiter>
    var woken: seq<Waiter>
    var clogged: set<nat>
    ghost var log: seq<Event>

    ghost function View(): World
      reads this, time, time.timer
    {
      World(time.clock, time.timer.queue, armed, ready, killed, endpoints, waiting, woken, clogged, config, log)
    }

    constructor (first: Runnable, config: Config, clogged: set<nat>)
      ensures fresh(time) && fresh(time.timer) && View() == Start(first, config, clogged)
    {
      time := new TimeRuntime();
      this.config, this.clogged := config, clogged;
      armed, ready, killed, endpoints, waiting, woken, log := 0, [first], {}, map[], [], [], [];
    }

    method AddTimer(deadline: int, callback: Callback)
      modifies this`armed, this`log, time.timer
      ensures View() == Arm(old(View()), deadline, callback)
    {
      var e := Entry(armed, deadline, callback);
      time.timer.Push(e);
      armed := armed + 1;
      log := log + [Armed(e, time.clock)];
    }

    method SendMessage(from: nat, to: nat, tag: nat, data: seq<Byte>, lost: bool, latency: nat)
      modifies this`armed, this`log, time.timer
      ensures View() == Send(old(View()), from, to, tag, data, lost, latency)
    {
      log := log + [Sent(from, to, tag, data, lost, latency, time.clock)];
      if to !in endpoints || from in clogged || to in clogged || lost {
        return;
      }
      AddTimer(time.clock + latency, Deliver(to, Message(tag, data, from)));
    }

    method RouseNext(address: nat)
      modifies this`ready, this`waiting, this`woken, this`log
      ensures View() == Rouse(old(View()), address)
    {
      var k := PlaceOf(waiting, address);
      if k < |waiting| {
        var x := waiting[k];
        waiting := waiting[..k] + waiting[k + 1..];
        woken, ready, log := woken + [x], ready + [x.runnable], log + [Roused(x)];
      }
    }

    method StopWaiting(x: Waiter)
      modifies this`ready, this`waiting, this`woken, this`log
      ensures View() == Depart(old(View()), x)
    {
      hide Rouse;
      if x in waiting {
        waiting := Leave(waiting, x);
      } else if x in woken {
        woken := Leave(woken, x);
        RouseNext(x.address);
      }
    }

    method StartListening(address: nat)
      modifies this`endpoints, this`log
      ensures View() == Listening(old(View()), address)
    {
      if address !in endpoints {
        endpoints := endpoints[address := []];
        log := log + [Opened(address)];
      }
    }

    /** The oldest message there is at an address, if any. */
    method TakeMessage(address: nat) returns (m: Option<Message>)
      requires address in endpoints
      modifies this`endpoints, this`log
      ensures old(endpoints[address]) == [] ==> m == None && View() == old(View())
      ensures old(endpoints[address]) != [] ==>
          m == Some(old(endpoints[address][0])) && View() == Take(old(View()), address)
    {
      var mail := endpoints[address];
      if mail == [] {
        return None;
      }
      endpoints := endpoints[address := mail[1..]];
      log := log + [Received(address, mail[0])];
      return Some(mail[0]);
    }

    /** Take a message if there is one, and otherwise wait in line for it. */
    method ReceiveMessage(address: nat, self: Runnable) returns (m: Option<Message>)
      modifies this`ready, this`endpoints, this`waiting, this`woken, this`log
      ensures View() == Look(Listening(old(View()), address), Waiter(address, self))
      ensures var mail := Listening(old(View()), address).endpoints[address];
        m == if mail == [] then None else Some(mail[0])
    {
      hide Depart, Take;
      var x := Waiter(address, self);
      StartListening(address);
      m := TakeMessage(address);
      if m.Some? {
        StopWaiting(x);
      } else if x !in waiting {
        woken := Leave(woken, x);
        waiting := waiting + [x];
      }
    }

    /** Drop a task unrun: it leaves every line, and what it was told is told the next. */
    method Drop(r: Runnable)
      modifies this`ready, this`waiting, this`woken, this`log
      ensures View() == Dropped(old(View()), r)
    {
      hide Rouse, Only;
      var places := Only(woken, r, true);
      waiting, woken := Only(waiting, r, false), Only(woken, r, false);
      log := log + [Discarded(r)];
      ghost var w := View();
      assert places[0..] == places;
      for k := 0 to |places|
        invariant HandOn(w, places) == HandOn(View(), places[k..])
      {
        assert places[k..][0] == places[k] && places[k..][1..] == places[k + 1..];
        RouseNext(places[k].address);
      }
    }

    method Perform(self: Runnable, e: Effect) returns (panicked: bool)
      modifies this, time.timer
      ensures match Do(old(View()), self, e)
              case Some(w) => View() == w && !panicked
              case None => panicked
    {
      hide Look, Depart, Take;
      panicked := false;
      match e {
        case Spawn(r) =>
          ready := ready + [r];
          log := log + [Spawned(r)];
        case SleepUntil(deadline) =>
          if time.clock < deadline {
            AddTimer(deadline, Wake(self));
          }
        case Listen(address) => StartListening(address);
        case Receive(address) => var _ := ReceiveMessage(address, self);
        case TryReceive(address) =>
          StartListening(address);
          var _ := TakeMessage(address);
        case GiveUp(address) => StopWaiting(Waiter(address, self));
        case Transmit(from, to, tag, data, lost, latency) =>
          if from !in endpoints {
            return true;
          }
          SendMessage(from, to, tag, data, lost, latency);
        case ArmTimer(deadline, r) => AddTimer(deadline, Wake(r));
        case Kill(node) =>
          killed := killed + {node};
          log := log + [Killed(node)];
      }
    }

    method PerformAll(self: Runnable, effects: seq<Effect>) returns (panicked: bool)
      modifies this, time.timer
      ensures match DoAll(old(View()), self, effects)
              case Some(w) => View() == w && !panicked
              case None => panicked
    {
      hide Do;
      assert effects[0..] == effects;
      for k := 0 to |effects|
        invariant DoAll(old(View()), self, effects) == DoAll(View(), self, effects[k..])
      {
        assert effects[k..][0] == effects[k] && effects[k..][1..] == effects[k + 1..];
        panicked := Perform(self, effects[k]);
        if panicked {
          return true;
        }
      }
      panicked := false;
    }

    /** Take the first ready task and run it, unless its node was killed. */
    method RunNext(effects: seq<Effect>) returns (panicked: bool)
      requires ready != [] && forall e | e in effects :: Drawn(config, e)
      modifies this, time.timer
      ensures panicked <==> Panics(old(View()), effects)
      ensures !panicked ==> RunsOne(old(View()), effects, View())
    {
      hide DoAll, Drawn, Dropped;
      var r := ready[0];
      ready := ready[1..];
      if r.node in killed {
        Drop(r);
        return false;
      }
      log := log + [Ran(r)];
      panicked := PerformAll(r, effects);
    }

    method Callbacks(fired: seq<Entry>, ghost at: nat)
      modifies this`ready, this`endpoints, this`waiting, this`woken, this`log
      ensures View() == FireAll(old(View()), fired, at)
    {
      hide Rouse;
      assert fired[0..] == fired;
      for k := 0 to |fired|
        invariant FireAll(old(View()), fired, at) == FireAll(View(), fired[k..], at)
      {
        assert fired[k..][0] == fired[k] && fired[k..][1..] == fired[k + 1..];
        log := log + [Fired(fired[k], at)];
        match fired[k].callback {
          case Wake(r) => ready := ready + [r];
          case Deliver(to, m) =>
            if to in endpoints {
              endpoints := endpoints[to := endpoints[to] + [m]];
              RouseNext(to);
            }
        }
      }
    }

    method Advance() returns (going: bool, ghost fired: seq<Entry>)
      requires ready == []
      modifies this`ready, this`endpoints, this`waiting, this`woken, this`log, time, time.timer
      ensures going ==> Advances(old(View()), fired, time.timer.queue, View())
      ensures !going ==> View() == old(View()) && time.timer.queue == []
    {
      hide FireAll, Fires;
      ghost var w := View();
      var due: seq<Entry>;
      going, due := time.Advance();
      fired := due;
      if going {
        ghost var at := Clamp(NextTime(w.queue).value);
        FireAllLater(w.(queue := time.timer.queue), due, at, at);
        Callbacks(due, at);
      }
    }

    /**
     * Run tasks until none is ready, poll the future, and if it is still pending let time move; `rounds` bounds how
     * long it is watched. Whatever the tasks do, what it has done so far is a run.
     */
    method BlockOn(bodies: (nat, Runnable) -> seq<Effect>, done: nat -> bool, rounds: nat)
      returns (ending: Ending, ghost ws: seq<World>)
      requires exists first, clogged :: View() == Start(first, config, clogged)
      requires forall n, r, e :: e in bodies(n, r) ==> Drawn(config, e)
      modifies this, time, time.timer
      ensures IsRun(ws) && (ending != Panicked ==> ws[|ws| - 1] == View())
      ensures Watched(bodies, done, rounds, ws)
      ensures ending == StillGoing <==> |ws| == rounds + 1
      ensures ending != StillGoing ==>
                var w := ws[|ws| - 1];
                && (ending == Panicked <==> w.ready != [])
                && (ending == Panicked ==> Panics(w, bodies(rounds - |ws|, w.ready[0])))
                && (ending == Finished <==> w.ready == [] && done(rounds - |ws|))
                && (ending == Blocked ==> w.queue == [])
    {
      hide Next, Drawn, RunsOne, Advances, Panics;
      ws := [View()];
      var left := rounds;
      while left > 0
        invariant IsRun(ws) && ws[|ws| - 1] == View() && |ws| + left == rounds + 1
        invariant Watched(bodies, done, rounds, ws)
      {
        left := left - 1;
        if ready != [] {
          ghost var w := View();
          var panicked := RunNext(bodies(left, ready[0]));
          if panicked {
            return Panicked, ws;
          }
          RanIsNext(w, bodies(left, w.ready[0]), View());
          RunLonger(ws, View());
          ws := ws + [View()];
        } else if done(left) {
          return Finished, ws;
        } else {
          ghost var w := View();
          var going, fired := Advance();
          if !going {
            return Blocked, ws;
          }
          AdvancedIsNext(w, fired, time.timer.queue, View());
          RunLonger(ws, View());
          ws := ws + [View()];
        }
      }
      ending := StillGoing;
    }
  }

  lemma RanIsNext(w: World, effects: seq<Effect>, w': World)
    requires RunsOne(w, effects, w')
    ensures Next(w, w')
  {
    hide RunsOne;
  }

  lemma AdvancedIsNext(w: World, fired: seq<Entry>, left: seq<Entry>, w': World)
    requires Advances(w, fired, left, w')
    ensures Next(w, w')
  {
    hide Advances;
  }

  lemma RunLonger(ws: seq<World>, w: World)
    requires IsRun(ws) && Next(ws[|ws| - 1], w)
    ensures IsRun(ws + [w])
  {
    hide Next;
    var more := ws + [w];
    forall i | 0 <= i < |more| - 1 ensures Next(more[i], more[i + 1]) {
      assert i < |ws| - 1 ==> Next(ws[i], ws[i + 1]);
    }
  }
}
