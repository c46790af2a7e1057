/** Frames seen where none was asked for: which connection each came on and its message type, in order of both. */
module Sightings {
  import opened Ir

  datatype Sighting = Sighting(connection: nat, messageType: Byte) {
    predicate UpTo(that: Sighting) {
      connection < that.connection || (connection == that.connection && messageType <= that.messageType)
    }
  }

  predicate Ordered(s: seq<Sighting>) {
    forall i, j | 0 <= i < j < |s| :: s[i].UpTo(s[j])
  }

  function Insert(x: Sighting, s: seq<Sighting>): seq<Sighting> {
    if s == [] || x.UpTo(s[0]) then [x] + s else [s[0]] + Insert(x, s[1..])
  }

  function Sort(s: seq<Sighting>): seq<Sighting> {
    if s == [] then [] else Insert(s[0], Sort(s[1..]))
  }

  lemma {:induction false} InsertOrdered(x: Sighting, s: seq<Sighting>)
    requires Ordered(s)
    ensures Ordered(Insert(x, s)) && multiset(Insert(x, s)) == multiset(s) + multiset{x}
    decreases |s|
  {
    hide Ordered;
    if s == [] {
      OrderedFrom(x, s);
    } else if !x.UpTo(s[0]) {
      FirstIsFirst(s);
      InsertOrdered(x, s[1..]);
      assert s == [s[0]] + s[1..];
      var rest := Insert(x, s[1..]);
      forall y | y in rest ensures s[0].UpTo(y) {
        assert y in multiset(rest);
      }
      OrderedFrom(s[0], rest);
    } else {
      FirstIsFirst(s);
      assert s == [s[0]] + s[1..];
      forall y | y in s ensures x.UpTo(y) {
      }
      OrderedFrom(x, s);
    }
  }

  lemma OrderedFrom(x: Sighting, s: seq<Sighting>)
    requires Ordered(s) && forall y | y in s :: x.UpTo(y)
    ensures Ordered([x] + s)
  {
  }

  lemma FirstIsFirst(s: seq<Sighting>)
    requires Ordered(s) && s != []
    ensures Ordered(s[1..]) && forall y | y in s[1..] :: s[0].UpTo(y)
  {
  }

  lemma {:induction false} SortOrdered(s: seq<Sighting>)
    ensures Ordered(Sort(s)) && multiset(Sort(s)) == multiset(s)
    decreases |s|
  {
    if s != [] {
      SortOrdered(s[1..]);
      InsertOrdered(s[0], Sort(s[1..]));
      assert s == [s[0]] + s[1..];
    }
  }

  /** There is one way to put things in order. */
  lemma {:induction false} OrderIsUnique(a: seq<Sighting>, b: seq<Sighting>)
    requires Ordered(a) && Ordered(b) && multiset(a) == multiset(b)
    ensures a == b
    decreases |a|
  {
    hide Ordered;
    assert |multiset(a)| == |a| && |multiset(b)| == |b|;
    if a != [] {
      FirstIsLeast(a, b[0]);
      FirstIsLeast(b, a[0]);
      WithoutFirst(a);
      WithoutFirst(b);
      OrderIsUnique(a[1..], b[1..]);
    }
  }

  lemma FirstIsLeast(s: seq<Sighting>, x: Sighting)
    requires Ordered(s) && x in multiset(s)
    ensures s != [] && s[0].UpTo(x)
  {
    var k :| 0 <= k < |s| && s[k] == x;
    assert k == 0 || s[0].UpTo(s[k]);
  }

  lemma WithoutFirst(s: seq<Sighting>)
    requires s != [] && Ordered(s)
    ensures Ordered(s[1..]) && multiset(s[1..]) == multiset(s) - multiset{s[0]}
  {
    assert s == [s[0]] + s[1..];
  }

  /** In whichever order things are collected, they come to the same in order. */
  lemma SortForgets(a: seq<Sighting>, b: seq<Sighting>)
    requires multiset(a) == multiset(b)
    ensures Sort(a) == Sort(b)
  {
    SortOrdered(a);
    SortOrdered(b);
    OrderIsUnique(Sort(a), Sort(b));
  }

  // ---------------------------------------------------------------------------------------------
  // Collecting from each of some connections
  // ---------------------------------------------------------------------------------------------

  lemma {:induction false} LeastExists(s: set<nat>, y: nat)
    requires y in s
    ensures exists m :: m in s && forall x | x in s :: m <= x
    decreases y
  {
    if x :| x in s && x < y {
      LeastExists(s, x);
    }
  }

  function Least(s: set<nat>): (least: nat)
    requires s != {}
    ensures least in s && forall x | x in s :: least <= x
  {
    assert exists m :: m in s && forall x | x in s :: m <= x by {
      var y :| y in s;
      LeastExists(s, y);
    }
    var m :| m in s && forall x | x in s :: m <= x;
    m
  }

  function Seen(connection: nat, types: seq<Byte>): seq<Sighting> {
    seq(|types|, k requires 0 <= k < |types| => Sighting(connection, types[k]))
  }

  function Collect(left: set<nat>, seen: nat -> seq<Byte>): seq<Sighting>
    decreases |left|
  {
    if left == {} then []
    else var c := Least(left); Seen(c, seen(c)) + Collect(left - {c}, seen)
  }

  lemma CollectNothing(seen: nat -> seq<Byte>)
    ensures Collect({}, seen) == []
  {
  }

  /** Any connection may be the one collected from first. */
  lemma {:induction false} CollectAny(left: set<nat>, seen: nat -> seq<Byte>, c: nat)
    requires c in left
    ensures multiset(Collect(left, seen)) == multiset(Seen(c, seen(c))) + multiset(Collect(left - {c}, seen))
    decreases |left|
  {
    hide Seen;
    var d := Least(left);
    if d != c {
      CollectAny(left - {d}, seen, c);
      assert left - {d} - {c} == left - {c} - {d};
      assert Least(left - {c}) == d;
    }
  }

  /** The same where only some of the connections have anything to collect. */
  lemma CollectOneOf(left: set<nat>, known: set<nat>, seen: nat -> seq<Byte>, c: nat)
    requires c in left
    ensures multiset(Collect(left * known, seen))
         == (if c in known then multiset(Seen(c, seen(c))) else multiset{})
           + multiset(Collect((left - {c}) * known, seen))
  {
    hide Seen, Collect;
    if c in known {
      CollectAny(left * known, seen, c);
      assert left * known - {c} == (left - {c}) * known;
    } else {
      assert left * known == (left - {c}) * known;
    }
  }

  /** What is collected is just what each connection saw. */
  lemma {:induction false} CollectCounts(left: set<nat>, seen: nat -> seq<Byte>, x: Sighting)
    ensures multiset(Collect(left, seen))[x] == if x.connection in left
      then multiset(seen(x.connection))[x.messageType] else 0
    decreases |left|
  {
    hide Seen;
    if left != {} {
      var c := Least(left);
      CollectCounts(left - {c}, seen, x);
      SeenCounts(c, seen(c), x);
    }
  }

  lemma {:induction false} SeenCounts(connection: nat, types: seq<Byte>, x: Sighting)
    ensures multiset(Seen(connection, types))[x] == if x.connection == connection then multiset(types)[x.messageType]
      else 0
    decreases |types|
  {
    if types != [] {
      var last := |types| - 1;
      SeenCounts(connection, types[..last], x);
      assert types == types[..last] + [types[last]];
      assert Seen(connection, types) == Seen(connection, types[..last]) + [Sighting(connection, types[last])];
    }
  }
}
