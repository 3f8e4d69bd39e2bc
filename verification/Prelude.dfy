/** Small vocabulary shared by the other modules. */
module Prelude {

  const U16_MAX: nat := 65535

  datatype Option<+T> = None | Some(value: T)

  function Elems<T>(s: seq<T>): set<T> {
    set x | x in s
  }

  predicate NoDup<T(==)>(s: seq<T>) {
    forall i, j :: 0 <= i < j < |s| ==> s[i] != s[j]
  }

  /** A sequence lists a set: every element once. */
  ghost predicate Lists<T>(s: seq<T>, xs: set<T>) {
    NoDup(s) && Elems(s) == xs
  }

  /** Pigeonhole: a sequence has as many distinct elements as positions exactly
      when it has no repeats. */
  lemma {:induction false} ElemsCount<T>(s: seq<T>)
    ensures |Elems(s)| <= |s|
    ensures |Elems(s)| == |s| <==> NoDup(s)
  {
    if s != [] {
      var init, last := s[..|s| - 1], s[|s| - 1];
      ElemsCount(init);
      assert s == init + [last];
      assert Elems(s) == Elems(init) + {last};
      if last in init {
        var i :| 0 <= i < |init| && init[i] == last;
        assert Elems(s) == Elems(init);
        assert s[i] == s[|s| - 1];
      } else {
        assert NoDup(s) <==> NoDup(init) by {
          if NoDup(s) {
            assert forall i, j :: 0 <= i < j < |init| ==> init[i] == s[i] && init[j] == s[j];
          }
        }
      }
    }
  }

  lemma SubsetCount<T>(a: set<T>, b: set<T>)
    requires a <= b
    ensures |a| <= |b|
    ensures |a| == |b| <==> a == b
  {
    assert b == a + (b - a);
    assert |b| == |a| + |b - a|;
    if |a| == |b| {
      assert b - a == {};
    }
  }
}
