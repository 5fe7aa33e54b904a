/** The two result shapes the rest of the project uses. */
module Options {

  datatype Option<+T> = None | Some(value: T)

  /** The elements of a sequence, forgetting order and multiplicity. */
  ghost function Elems<T>(s: seq<T>): set<T> {
    set x | x in s
  }

  ghost predicate NoDup<T>(s: seq<T>) {
    forall i, j | 0 <= i < j < |s| :: s[i] != s[j]
  }

  lemma {:induction false} ElemsInit<T>(s: seq<T>)
    requires s != [] && NoDup(s)
    ensures NoDup(s[..|s| - 1]) && s[|s| - 1] !in Elems(s[..|s| - 1])
    ensures Elems(s) == Elems(s[..|s| - 1]) + {s[|s| - 1]}
  {
    assert s == s[..|s| - 1] + [s[|s| - 1]];
  }

  /** A duplicate-free sequence has as many elements as it has positions. */
  lemma {:induction false} NoDupCard<T>(s: seq<T>)
    requires NoDup(s)
    ensures |Elems(s)| == |s|
  {
    if s == [] {
      assert Elems(s) == {};
    } else {
      ElemsInit(s);
      NoDupCard(s[..|s| - 1]);
    }
  }

  /** With a repetition it has fewer. */
  lemma {:induction false} ElemsCard<T>(s: seq<T>)
    ensures |Elems(s)| <= |s|
    ensures |Elems(s)| == |s| <==> NoDup(s)
  {
    if s == [] {
      assert Elems(s) == {};
    } else {
      var init, z := s[..|s| - 1], s[|s| - 1];
      assert s == init + [z];
      ElemsCard(init);
      assert Elems(s) == Elems(init) + {z};
      if z in init {
        assert Elems(s) == Elems(init);
        assert !NoDup(s) by {
          var i :| 0 <= i < |init| && init[i] == z;
          assert s[i] == s[|s| - 1];
        }
      } else {
        assert NoDup(s) <==> NoDup(init);
      }
    }
  }

  /** A finite set inside another of the same size is that set. */
  lemma {:induction false} SubsetCard<T>(a: set<T>, b: set<T>)
    requires a <= b
    ensures |a| <= |b|
    ensures |a| == |b| ==> a == b
  {
    assert b == a + (b - a);
    assert |b| == |a| + |b - a|;
  }
}
