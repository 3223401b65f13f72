/** Sums of weights over finite sets. */
module Sums {
  ghost function Sum<T>(s: set<T>, weight: T -> nat): nat {
    if s == {} then 0 else
      var x :| x in s;
      weight(x) + Sum(s - {x}, weight)
  }

  /** Any element may be taken out first. */
  lemma {:induction false} SumTakes<T>(s: set<T>, x: T, weight: T -> nat)
    requires x in s
    ensures Sum(s, weight) == weight(x) + Sum(s - {x}, weight)
  {
    var y :| y in s && Sum(s, weight) == weight(y) + Sum(s - {y}, weight);
    if y != x {
      SumTakes(s - {y}, x, weight);
      SumTakes(s - {x}, y, weight);
      assert s - {y} - {x} == s - {x} - {y};
    }
  }

  /** Weights that an injection does not lower add up to no more in the source than in the target. */
  lemma {:induction false} SumInjects<T(!new), U>(s: set<T>, f: T -> nat, t: set<U>, g: U -> nat, image: T -> U)
    requires forall x :: x in s ==> image(x) in t && f(x) <= g(image(x))
    requires forall x, y :: x in s && y in s && x != y ==> image(x) != image(y)
    ensures Sum(s, f) <= Sum(t, g)
  {
    if s != {} {
      var x :| x in s;
      SumTakes(s, x, f);
      SumTakes(t, image(x), g);
      SumInjects(s - {x}, f, t - {image(x)}, g, image);
    }
  }
}
