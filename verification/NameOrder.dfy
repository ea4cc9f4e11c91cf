/** Member names in code-unit order, as `Object.keys(...).sort()` lists them. */
module NameOrder {

  predicate Le(a: string, b: string) {
    a == [] || (b != [] && (a[0] < b[0] || (a[0] == b[0] && Le(a[1..], b[1..]))))
  }

  lemma {:induction false} LeTotal(a: string, b: string)
    ensures Le(a, b) || Le(b, a)
  {
    if a != [] && b != [] && a[0] == b[0] {
      LeTotal(a[1..], b[1..]);
    }
  }

  lemma {:induction false} LeAntisymmetric(a: string, b: string)
    requires Le(a, b) && Le(b, a)
    ensures a == b
  {
    if a != [] && b != [] {
      LeAntisymmetric(a[1..], b[1..]);
      assert a == [a[0]] + a[1..] && b == [b[0]] + b[1..];
    }
  }

  lemma {:induction false} LeTransitive(a: string, b: string, c: string)
    requires Le(a, b) && Le(b, c)
    ensures Le(a, c)
  {
    if a != [] && a[0] == b[0] && b[0] == c[0] {
      LeTransitive(a[1..], b[1..], c[1..]);
    }
  }

  lemma {:induction false} LeastExists(names: set<string>)
    requires names != {}
    ensures exists m | m in names :: forall k | k in names :: Le(m, k)
  {
    var x :| x in names;
    var rest := names - {x};
    LeTotal(x, x);
    if rest == {} {
      assert names == {x};
    } else {
      LeastExists(rest);
      var m :| m in rest && forall k | k in rest :: Le(m, k);
      LeTotal(x, m);
      var least := if Le(m, x) then m else x;
      forall k | k in names ensures Le(least, k) {
        if k != x && least == x {
          LeTransitive(x, m, k);
        }
      }
    }
  }

  function Least(names: set<string>): (m: string)
    requires names != {}
    ensures m in names
    ensures forall k | k in names :: Le(m, k)
  {
    LeastExists(names);
    assert forall a, b | a in names && b in names
        && (forall k | k in names :: Le(a, k)) && (forall k | k in names :: Le(b, k)) :: a == b by {
      forall a, b | a in names && b in names
          && (forall k | k in names :: Le(a, k)) && (forall k | k in names :: Le(b, k))
        ensures a == b
      {
        LeAntisymmetric(a, b);
      }
    }
    var m :| m in names && forall k | k in names :: Le(m, k);
    m
  }

  /** Every name once, in order. */
  function Sorted(names: set<string>): (order: seq<string>)
    ensures forall k :: k in order <==> k in names
    ensures forall i, j | 0 <= i < j < |order| :: Le(order[i], order[j]) && order[i] != order[j]
  {
    if names == {} then []
    else
      var m := Least(names);
      [m] + Sorted(names - {m})
  }
}
