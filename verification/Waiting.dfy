/** Tasks in line for messages, in the order they came. */
module Waiting {
  import opened Time

  /** A task waiting to receive at an address. */
  datatype Waiter = Waiter(address: nat, runnable: Runnable)

  /** How many are in line at an address. */
  function CountAt(line: seq<Waiter>, address: nat): nat {
    if line == [] then 0
    else CountAt(line[..|line| - 1], address) + if line[|line| - 1].address == address then 1 else 0
  }

  /** The place of the first in line at an address, or the length of the line. */
  function PlaceOf(line: seq<Waiter>, address: nat): (k: nat)
    ensures k <= |line|
    ensures k < |line| ==> line[k].address == address
    ensures forall j | 0 <= j < k :: line[j].address != address
  {
    if line == [] || line[0].address == address then 0 else 1 + PlaceOf(line[1..], address)
  }

  /** The line once the first of these in it has left. */
  function Leave(line: seq<Waiter>, x: Waiter): seq<Waiter> {
    if line == [] then [] else if line[0] == x then line[1..] else [line[0]] + Leave(line[1..], x)
  }

  /** Those in line that are, or are not, a task's. */
  function Only(line: seq<Waiter>, r: Runnable, whose: bool): seq<Waiter> {
    if line == [] then []
    else
      var last := line[|line| - 1];
      Only(line[..|line| - 1], r, whose) + if (last.runnable == r) == whose then [last] else []
  }

  lemma {:induction false} CountBoth(a: seq<Waiter>, b: seq<Waiter>, address: nat)
    ensures CountAt(a + b, address) == CountAt(a, address) + CountAt(b, address)
    decreases |b|
  {
    if b == [] {
      assert a + b == a;
    } else {
      assert (a + b)[..|a + b| - 1] == a + b[..|b| - 1];
      CountBoth(a, b[..|b| - 1], address);
    }
  }

  lemma CountOne(x: Waiter, address: nat)
    ensures CountAt([x], address) == if x.address == address then 1 else 0
  {
    assert [x][..0] == [];
  }

  lemma CountWithout(line: seq<Waiter>, k: nat, address: nat)
    requires k < |line|
    ensures CountAt(line, address)
         == CountAt(line[..k] + line[k + 1..], address) + if line[k].address == address then 1 else 0
  {
    hide CountAt;
    assert line == line[..k] + [line[k]] + line[k + 1..];
    CountBoth(line[..k] + [line[k]], line[k + 1..], address);
    CountBoth(line[..k], [line[k]], address);
    CountBoth(line[..k], line[k + 1..], address);
    CountOne(line[k], address);
  }

  /** Nobody is in line at an address exactly when it has no place. */
  lemma {:induction false} CountNone(line: seq<Waiter>, address: nat)
    requires forall j | 0 <= j < |line| :: line[j].address != address
    ensures CountAt(line, address) == 0
    decreases |line|
  {
    if line != [] {
      CountNone(line[..|line| - 1], address);
    }
  }

  lemma {:induction false} CountLeave(line: seq<Waiter>, x: Waiter, address: nat)
    ensures CountAt(Leave(line, x), address) <= CountAt(line, address)
    ensures CountAt(line, address) <= CountAt(Leave(line, x), address) + if x.address == address then 1 else 0
    ensures x in line && x.address == address ==> CountAt(line, address) == CountAt(Leave(line, x), address) + 1
    decreases |line|
  {
    hide CountAt;
    if line != [] {
      assert line == [line[0]] + line[1..];
      CountBoth([line[0]], line[1..], address);
      CountOne(line[0], address);
      if line[0] != x {
        CountLeave(line[1..], x, address);
        CountBoth([line[0]], Leave(line[1..], x), address);
      }
    }
  }

  lemma {:induction false} LeaveIn(line: seq<Waiter>, x: Waiter)
    ensures forall y | y in Leave(line, x) :: y in line
    ensures x !in line ==> Leave(line, x) == line
    decreases |line|
  {
    if line != [] {
      LeaveIn(line[1..], x);
    }
  }

  lemma {:induction false} CountOnly(line: seq<Waiter>, r: Runnable, address: nat)
    ensures CountAt(line, address) == CountAt(Only(line, r, true), address) + CountAt(Only(line, r, false), address)
    decreases |line|
  {
    if line != [] {
      var last := line[|line| - 1];
      CountOnly(line[..|line| - 1], r, address);
      CountBoth(Only(line[..|line| - 1], r, last.runnable == r), [last], address);
      CountOne(last, address);
      assert Only(line[..|line| - 1], r, last.runnable != r) + [] == Only(line[..|line| - 1], r, last.runnable != r);
    }
  }

  lemma {:induction false} OnlyIn(line: seq<Waiter>, r: Runnable, whose: bool)
    ensures forall x | x in Only(line, r, whose) :: x in line && (x.runnable == r) == whose
    decreases |line|
  {
    if line != [] {
      OnlyIn(line[..|line| - 1], r, whose);
    }
  }
}
