/** Sizes of finite sets of integers. */
module Sets {
  lemma SubsetSize(small: set<int>, big: set<int>)
    requires small <= big
    ensures |small| <= |big|
  {
    assert big == small + (big - small);
  }

  lemma SubsetOfSameSize(small: set<int>, big: set<int>)
    requires small <= big && |small| == |big|
    ensures small == big
  {
    assert |big - small| == 0;
  }
}
