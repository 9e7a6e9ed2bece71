/** Facts about finite sets and sequences that several modules need. */
module Sets {

  lemma Member<T>(s: set<T>) returns (x: T)
    requires s != {}
    ensures x in s
  {
    x :| x in s;
  }

  lemma {:induction false} SubsetSize<T>(a: set<T>, b: set<T>)
    requires a <= b
    ensures |a| <= |b|
    decreases |a|
  {
    if a != {} {
      var x := Member(a);
      SubsetSize(a - {x}, b - {x});
    }
  }

  /** The members of `s` in the order of `xs`. */
  function Select<T(==)>(xs: seq<T>, s: set<T>): seq<T> {
    if xs == [] then []
    else Select(xs[..|xs| - 1], s) + (if xs[|xs| - 1] in s then [xs[|xs| - 1]] else [])
  }

  lemma {:induction false} SelectMembers<T>(xs: seq<T>, s: set<T>)
    ensures forall x :: x in Select(xs, s) <==> x in xs && x in s
  {
    if xs != [] {
      SelectMembers(xs[..|xs| - 1], s);
      assert xs == xs[..|xs| - 1] + [xs[|xs| - 1]];
    }
  }

  lemma SelectEmpty<T>(xs: seq<T>, s: set<T>)
    requires forall x | x in s :: x in xs
    ensures Select(xs, s) == [] <==> s == {}
  {
    SelectMembers(xs, s);
    if Select(xs, s) != [] {
      assert Select(xs, s)[0] in Select(xs, s);
    } else {
      forall x ensures x !in s {
      }
    }
  }

  lemma {:induction false} SelectFrom<T>(xs: seq<T>, s: set<T>, i: nat) returns (k: nat)
    requires i < |Select(xs, s)|
    ensures k < |xs| && xs[k] == Select(xs, s)[i]
  {
    var n := |xs| - 1;
    if i < |Select(xs[..n], s)| {
      k := SelectFrom(xs[..n], s, i);
    } else {
      k := n;
    }
  }

  ghost predicate Ordered<T>(xs: seq<T>, le: (T, T) -> bool) {
    forall i, j | 0 <= i < j < |xs| :: le(xs[i], xs[j])
  }

  /** Selecting keeps the order. */
  lemma {:induction false} SelectInOrder<T>(xs: seq<T>, s: set<T>, le: (T, T) -> bool)
    requires Ordered(xs, le)
    ensures Ordered(Select(xs, s), le)
  {
    if xs != [] {
      var n := |xs| - 1;
      SelectInOrder(xs[..n], s, le);
      var before := Select(xs[..n], s);
      forall i | 0 <= i < |before|
        ensures le(before[i], xs[n])
      {
        var k := SelectFrom(xs[..n], s, i);
        assert xs[k] == before[i];
      }
    }
  }
}
