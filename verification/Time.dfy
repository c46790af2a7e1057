/** Timers in deadline order, and the clock that moves from one deadline to the next. */
module Time {
  import opened Wrappers
  import opened Ir

  /** A task ready to be polled, and the node it runs on. */
  datatype Runnable = Runnable(task: nat, node: nat)

  datatype Message = Message(tag: nat, data: seq<Byte>, from: nat)

  /** What a timer does when it fires: neither looks at the clock nor arms another timer. */
  datatype Callback = Wake(runnable: Runnable) | Deliver(to: nat, message: Message)

  /** An armed timer, its deadline in nanoseconds from where the clock started, which it can be before. */
  datatype Entry = Entry(id: nat, deadline: int, callback: Callback)

  /** No timer is due before the one at `k`. */
  predicate IsNext(queue: seq<Entry>, k: nat) {
    k < |queue| && forall j | 0 <= j < |queue| :: queue[k].deadline <= queue[j].deadline
  }

  function Removed(queue: seq<Entry>, k: nat): seq<Entry>
    requires k < |queue|
  {
    queue[..k] + queue[k + 1..]
  }

  /** The earliest deadline. */
  function NextTime(queue: seq<Entry>): (r: Option<int>)
    ensures r.None? <==> queue == []
    ensures r.Some? ==> forall e | e in queue :: r.value <= e.deadline
    ensures r.Some? ==> exists k: nat :: IsNext(queue, k) && queue[k].deadline == r.value
  {
    if queue == [] then None
    else
      var rest := NextTime(queue[1..]);
      if rest.None? || queue[0].deadline <= rest.value then
        assert forall j | 0 < j < |queue| :: queue[j] in queue[1..];
        assert IsNext(queue, 0);
        Some(queue[0].deadline)
      else
        var k: nat :| IsNext(queue[1..], k) && queue[1..][k].deadline == rest.value;
        assert forall j | 0 < j < |queue| :: queue[j] == queue[1..][j - 1];
        assert IsNext(queue, k + 1);
        rest
  }

  /** Firing splits the queue: what was due at `time`, earliest first, and what was not. */
  ghost predicate Fires(queue: seq<Entry>, time: int, fired: seq<Entry>, left: seq<Entry>) {
    && multiset(queue) == multiset(fired) + multiset(left)
    && (forall e | e in fired :: e.deadline <= time)
    && (forall e | e in left :: e.deadline > time)
    && (forall i, j | 0 <= i < j < |fired| :: fired[i].deadline <= fired[j].deadline)
  }

  lemma RemovedMultiset(queue: seq<Entry>, k: nat)
    requires k < |queue|
    ensures multiset(queue) == multiset{queue[k]} + multiset(Removed(queue, k))
  {
    assert queue == queue[..k] + ([queue[k]] + queue[k + 1..]);
  }

  class Timer {
    var queue: seq<Entry>

    constructor ()
      ensures queue == []
    {
      queue := [];
    }

    method Push(e: Entry)
      modifies this
      ensures queue == old(queue) + [e]
    {
      queue := queue + [e];
    }

    /** Take a timer no other is due before. */
    method Pop() returns (e: Entry)
      requires queue != []
      modifies this
      ensures e in old(queue) && forall other | other in old(queue) :: e.deadline <= other.deadline
      ensures multiset(old(queue)) == multiset{e} + multiset(queue)
    {
      var k := 0;
      for j := 1 to |queue|
        invariant k < |queue| && forall i | 0 <= i < j :: queue[k].deadline <= queue[i].deadline
      {
        if queue[j].deadline < queue[k].deadline {
          k := j;
        }
      }
      e := queue[k];
      RemovedMultiset(queue, k);
      queue := Removed(queue, k);
    }

    method Fire(time: int) returns (fired: seq<Entry>)
      modifies this
      ensures Fires(old(queue), time, fired, queue)
    {
      fired := [];
      while true
        invariant multiset(old(queue)) == multiset(fired) + multiset(queue)
        invariant forall e | e in fired :: e.deadline <= time
        invariant forall i, j | 0 <= i < j < |fired| :: fired[i].deadline <= fired[j].deadline
        invariant forall e, f | e in fired && f in queue :: e.deadline <= f.deadline
        decreases |queue|
      {
        var next := NextTime(queue);
        if next.None? || next.value > time {
          return;
        }
        ghost var before := queue;
        var e := Pop();
        PoppedFrom(before, e, queue);
        fired := fired + [e];
      }
    }
  }

  lemma PoppedFrom(before: seq<Entry>, e: Entry, queue: seq<Entry>)
    requires multiset(before) == multiset{e} + multiset(queue)
    ensures |queue| < |before| && forall f | f in queue :: f in before
  {
    assert |multiset(before)| == |before| && |multiset(queue)| == |queue|;
    forall f | f in queue ensures f in before {
      assert f in multiset(before);
    }
  }

  /** Where the clock is set for an instant: never before where it started. */
  function Clamp(time: int): nat {
    if time < 0 then 0 else time
  }

  /** Firing at the earliest deadline fires what is due exactly then, and nothing else. */
  lemma FiresAtNext(queue: seq<Entry>, fired: seq<Entry>, left: seq<Entry>)
    requires queue != [] && Fires(queue, NextTime(queue).value, fired, left)
    ensures fired != [] && forall e | e in fired :: e.deadline == NextTime(queue).value
    ensures forall e | e in queue :: e in fired <==> e.deadline == NextTime(queue).value
  {
    var time := NextTime(queue).value;
    forall e | e in fired ensures e in queue {
      assert e in multiset(fired);
      assert e in multiset(queue);
    }
    forall e | e in queue ensures e in fired || e in left {
      assert e in multiset(queue);
    }
    var k: nat :| IsNext(queue, k) && queue[k].deadline == time;
    assert queue[k] in queue;
  }

  class TimeRuntime {
    const timer: Timer
    var clock: nat

    constructor ()
      ensures fresh(timer) && timer.queue == [] && clock == 0
    {
      timer := new Timer();
      clock := 0;
    }

    /** Go on to the next deadline, fire what is due, and then set the clock; false if nothing is armed. */
    method Advance() returns (going: bool, fired: seq<Entry>)
      modifies this, timer
      ensures going <==> old(timer.queue) != []
      ensures !going ==> timer.queue == old(timer.queue) && clock == old(clock) && fired == []
      ensures going ==>
        && var time := NextTime(old(timer.queue)).value;
        && Fires(old(timer.queue), time, fired, timer.queue) && clock == Clamp(time)
    {
      var next := NextTime(timer.queue);
      if next.None? {
        return false, [];
      }
      fired := timer.Fire(next.value);
      clock := Clamp(next.value);
      going := true;
    }
  }

  /** No armed timer is due before the clock. */
  predicate Prompt(now: nat, queue: seq<Entry>) {
    forall e | e in queue :: now <= e.deadline
  }
}
