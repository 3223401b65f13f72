/** Sizes of finite sets. */
module FiniteSets {
  lemma {:induction false} SmallerSubset<T>(part: set<T>, whole: set<T>)
    requires part <= whole
    ensures |part| <= |whole|
  {
    if part != {} {
      var x :| x in part;
      SmallerSubset(part - {x}, whole - {x});
    }
  }

  lemma FullSubset<T>(part: set<T>, whole: set<T>)
    requires part <= whole && |part| >= |whole|
    ensures part == whole
  {
    if part != whole {
      var x :| x in whole && x !in part;
      SmallerSubset(part, whole - {x});
    }
  }
}
