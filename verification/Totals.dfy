/** Sums over finite sets. */
module Totals {

  ghost function Total<T>(names: set<T>, f: T -> int): int {
    if names == {} then 0
    else
      var x :| x in names;
      f(x) + Total(names - {x}, f)
  }

  lemma {:induction false} TotalRemove<T>(names: set<T>, x: T, f: T -> int)
    requires x in names
    ensures Total(names, f) == f(x) + Total(names - {x}, f)
    decreases |names|
  {
    var y :| y in names && Total(names, f) == f(y) + Total(names - {y}, f);
    if x != y {
      TotalRemove(names - {y}, x, f);
      TotalRemove(names - {x}, y, f);
      assert names - {y} - {x} == names - {x} - {y};
    }
  }

  lemma {:induction false} TotalSame<T>(names: set<T>, f: T -> int, g: T -> int)
    requires forall x | x in names :: f(x) == g(x)
    ensures Total(names, f) == Total(names, g)
    decreases |names|
  {
    if names != {} {
      var x :| x in names;
      TotalRemove(names, x, f);
      TotalRemove(names, x, g);
      TotalSame(names - {x}, f, g);
    }
  }

  /** Changing the function at one point changes the total by as much. */
  lemma TotalUpdate<T>(names: set<T>, x: T, f: T -> int, g: T -> int)
    requires forall y | y in names && y != x :: f(y) == g(y)
    requires x !in names ==> f(x) == 0
    ensures Total(names + {x}, g) == Total(names, f) - f(x) + g(x)
  {
    TotalRemove(names + {x}, x, g);
    assert names + {x} - {x} == names - {x};
    TotalSame(names - {x}, f, g);
    if x in names {
      TotalRemove(names, x, f);
    } else {
      assert names - {x} == names;
    }
  }

  lemma {:induction false} TotalNonNegative<T>(names: set<T>, f: T -> int)
    requires forall x | x in names :: f(x) >= 0
    ensures Total(names, f) >= 0
    ensures forall x | x in names :: f(x) <= Total(names, f)
    decreases |names|
  {
    forall x | x in names ensures 0 <= f(x) <= Total(names, f) {
      TotalRemove(names, x, f);
      TotalNonNegative(names - {x}, f);
    }
  }
}
