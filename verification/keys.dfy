/** Python's order on strings and on tuples of strings, and `sorted` over a set. */
module Keys {
  import opened Sets

  type Key = seq<string>

  predicate StrLeq(a: string, b: string) {
    a == "" || (b != "" && (a[0] < b[0] || (a[0] == b[0] && StrLeq(a[1..], b[1..]))))
  }

  predicate KeyLeq(a: Key, b: Key) {
    a == [] || (b != [] && (if a[0] == b[0] then KeyLeq(a[1..], b[1..]) else StrLeq(a[0], b[0])))
  }

  lemma {:induction false} StrAntisymmetric(a: string, b: string)
    requires StrLeq(a, b) && StrLeq(b, a)
    ensures a == b
  {
    if a != "" && b != "" {
      StrAntisymmetric(a[1..], b[1..]);
      assert a == [a[0]] + a[1..] && b == [b[0]] + b[1..];
    }
  }

  lemma {:induction false} StrTotal(a: string, b: string)
    ensures StrLeq(a, b) || StrLeq(b, a)
  {
    if a != "" && b != "" && a[0] == b[0] {
      StrTotal(a[1..], b[1..]);
    }
  }

  lemma {:induction false} StrTransitive(a: string, b: string, c: string)
    requires StrLeq(a, b) && StrLeq(b, c)
    ensures StrLeq(a, c)
  {
    if a != "" && a[0] == b[0] && b[0] == c[0] {
      StrTransitive(a[1..], b[1..], c[1..]);
    }
  }

  lemma {:induction false} KeyAntisymmetric(a: Key, b: Key)
    requires KeyLeq(a, b) && KeyLeq(b, a)
    ensures a == b
  {
    if a != [] && b != [] {
      if a[0] == b[0] {
        KeyAntisymmetric(a[1..], b[1..]);
      } else {
        StrAntisymmetric(a[0], b[0]);
      }
      assert a == [a[0]] + a[1..] && b == [b[0]] + b[1..];
    }
  }

  lemma {:induction false} KeyTotal(a: Key, b: Key)
    ensures KeyLeq(a, b) || KeyLeq(b, a)
  {
    if a != [] && b != [] {
      if a[0] == b[0] {
        KeyTotal(a[1..], b[1..]);
      } else {
        StrTotal(a[0], b[0]);
      }
    }
  }

  lemma {:induction false} KeyTransitive(a: Key, b: Key, c: Key)
    requires KeyLeq(a, b) && KeyLeq(b, c)
    ensures KeyLeq(a, c)
  {
    if a != [] {
      if a[0] == b[0] && b[0] == c[0] {
        KeyTransitive(a[1..], b[1..], c[1..]);
      } else if a[0] != b[0] && b[0] != c[0] {
        StrTransitive(a[0], b[0], c[0]);
        if a[0] == c[0] {
          StrAntisymmetric(a[0], b[0]);
        }
      }
    }
  }

  predicate IsMin(k: Key, s: set<Key>) {
    k in s && forall x | x in s :: KeyLeq(k, x)
  }

  lemma {:induction false} MinExists(s: set<Key>) returns (k: Key)
    requires s != {}
    ensures IsMin(k, s)
    decreases |s|
  {
    var x := Member(s);
    KeyTotal(x, x);
    var rest := s - {x};
    if rest == {} {
      assert s == {x};
      k := x;
    } else {
      k := MinExists(rest);
      KeyTotal(x, k);
      if KeyLeq(x, k) {
        forall y | y in s ensures KeyLeq(x, y) {
          if y != x {
            KeyTransitive(x, k, y);
          }
        }
        k := x;
      }
    }
  }

  lemma MinUnique(s: set<Key>)
    ensures forall j, k | IsMin(j, s) && IsMin(k, s) :: j == k
  {
    forall j, k | IsMin(j, s) && IsMin(k, s) ensures j == k {
      KeyAntisymmetric(j, k);
    }
  }

  predicate IsSorted(ks: seq<Key>) {
    forall i, j | 0 <= i < j < |ks| :: KeyLeq(ks[i], ks[j]) && ks[i] != ks[j]
  }

  /** `sorted` of a set: its members once each, in order. */
  function SortKeys(s: set<Key>): (ks: seq<Key>)
    ensures forall k :: k in ks <==> k in s
    ensures IsSorted(ks)
    decreases |s|
  {
    if s == {} then []
    else
      LeastExists(s);
      MinUnique(s);
      var k :| k in s && IsMin(k, s);
      [k] + SortKeys(s - {k})
  }

  lemma LeastExists(s: set<Key>)
    requires s != {}
    ensures exists k | k in s :: IsMin(k, s)
  {
    var k := MinExists(s);
  }
}
