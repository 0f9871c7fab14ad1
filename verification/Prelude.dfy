/** Shared by all modules. */
module Prelude {

  datatype Option<+T> = None | Some(value: T)

  datatype Result<T> = Success(value: T) | Failure(error: string)

  function Elements<T(==)>(s: seq<T>): set<T> {
    set x | x in s
  }

  lemma {:induction false} FewElements<T>(s: seq<T>)
    ensures |Elements(s)| <= |s|
  {
    if s == [] {
      assert Elements(s) == {};
    } else {
      var rest := s[..|s| - 1];
      FewElements(rest);
      assert Elements(s) == Elements(rest) + {s[|s| - 1]};
    }
  }

  /** A list has as many elements as entries exactly if none repeats. */
  lemma {:induction false} AllDifferent<T>(s: seq<T>)
    ensures |Elements(s)| == |s| <==> forall i, j :: 0 <= i < j < |s| ==> s[i] != s[j]
  {
    if s == [] {
      assert Elements(s) == {};
    } else {
      var rest, last := s[..|s| - 1], s[|s| - 1];
      AllDifferent(rest);
      FewElements(rest);
      assert Elements(s) == Elements(rest) + {last};
      assert last in Elements(rest) <==> exists i :: 0 <= i < |rest| && rest[i] == last;
    }
  }

  function Min(a: nat, b: nat): nat {
    if a < b then a else b
  }

  lemma SubsetSize<T>(a: set<T>, b: set<T>)
    requires a <= b
    ensures |a| <= |b|
  {
    assert b == a + (b - a);
  }
}
