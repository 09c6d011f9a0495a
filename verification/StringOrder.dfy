/** The order in which a `BTreeMap` keyed by strings lists its entries. */
module StringOrder {
  predicate Le(a: string, b: string) {
    a == [] || (b != [] && (a[0] < b[0] || (a[0] == b[0] && Le(a[1..], b[1..]))))
  }

  lemma {:induction false} Total(a: string, b: string)
    ensures Le(a, b) || Le(b, a)
  {
    if a != [] && b != [] && a[0] == b[0] {
      Total(a[1..], b[1..]);
    }
  }

  lemma {:induction false} Antisymmetric(a: string, b: string)
    requires Le(a, b) && Le(b, a)
    ensures a == b
  {
    if a != [] {
      Antisymmetric(a[1..], b[1..]);
      assert a == [a[0]] + a[1..] && b == [b[0]] + b[1..];
    }
  }

  lemma {:induction false} Transitive(a: string, b: string, c: string)
    requires Le(a, b) && Le(b, c)
    ensures Le(a, c)
  {
    if a != [] && a[0] == b[0] == c[0] {
      Transitive(a[1..], b[1..], c[1..]);
    }
  }

  predicate IsLeast(s: set<string>, x: string) {
    x in s && forall y :: y in s ==> Le(x, y)
  }

  lemma LeastExists(s: set<string>)
    requires s != {}
    ensures exists x :: IsLeast(s, x)
  {
    var x :| x in s;
    var rest := s - {x};
    Total(x, x);
    if rest == {} {
      assert forall y :: y in s ==> y == x || y in rest;
      assert IsLeast(s, x);
    } else {
      LeastExists(rest);
      var y :| IsLeast(rest, y);
      Total(x, y);
      if Le(x, y) {
        forall z | z in s ensures Le(x, z) {
          if z != x {
            Transitive(x, y, z);
          }
        }
        assert IsLeast(s, x);
      } else {
        assert IsLeast(s, y);
      }
    }
  }

  lemma LeastUnique(s: set<string>, x: string, y: string)
    requires IsLeast(s, x) && IsLeast(s, y)
    ensures x == y
  {
    Antisymmetric(x, y);
  }

  // The first key of a non-empty key set.
  function Least(s: set<string>): (x: string)
    requires s != {}
    ensures IsLeast(s, x)
  {
    LeastExists(s);
    assert forall x, y :: IsLeast(s, x) && IsLeast(s, y) ==> x == y by {
      forall x, y | IsLeast(s, x) && IsLeast(s, y) ensures x == y {
        LeastUnique(s, x, y);
      }
    }
    var x :| x in s && IsLeast(s, x);
    x
  }
}
