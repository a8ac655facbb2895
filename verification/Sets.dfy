/** Sizes of finite sets. */
module Sets {

  lemma DisjointSize<T>(a: set<T>, b: set<T>)
    requires a !! b
    ensures |a + b| == |a| + |b|
  {
  }

  lemma SplitSize<T>(whole: set<T>, part: set<T>)
    requires part <= whole
    ensures |whole| == |whole - part| + |part|
    ensures |part| == |whole| ==> part == whole
  {
    assert whole == (whole - part) + part;
  }

  lemma SubsetSize<T>(small: set<T>, big: set<T>)
    requires small <= big
    ensures |small| <= |big|
    ensures |small| == |big| ==> small == big
  {
    SplitSize(big, small);
  }
}
