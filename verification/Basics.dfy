/** Small definitions shared by the models. */
module Basics {

  datatype Option<+T> = None | Some(value: T)

  ghost predicate NoDup<T>(s: seq<T>) { forall i, j :: 0 <= i < j < |s| ==> s[i] != s[j] }

  /** std::remove followed by erase. */
  function Without<T(==)>(s: seq<T>, x: T): seq<T> {
    if s == [] then [] else (if s[0] == x then [] else [s[0]]) + Without(s[1..], x)
  }

  lemma {:induction false} WithoutIsRemoval<T>(s: seq<T>, x: T)
    requires NoDup(s)
    ensures NoDup(Without(s, x))
    ensures forall k :: k in Without(s, x) <==> k in s && k != x
  {
    if s != [] {
      var rest := Without(s[1..], x);
      assert forall k :: k in s <==> k == s[0] || k in s[1..];
      WithoutIsRemoval(s[1..], x);
      assert s[0] !in rest;
      assert NoDup([s[0]] + rest);
      assert [] + rest == rest;
    }
  }

  lemma {:induction false} WithoutAbsent<T>(s: seq<T>, x: T)
    requires x !in s
    ensures Without(s, x) == s
  {
    if s != [] {
      WithoutAbsent(s[1..], x);
      assert [s[0]] + s[1..] == s;
    }
  }

  /** Everyone else keeps their place. */
  lemma {:induction false} WithoutAt<T>(s: seq<T>, x: T, i: nat)
    requires NoDup(s) && i < |s| && s[i] == x
    ensures Without(s, x) == s[..i] + s[i + 1..]
  {
    if i == 0 {
      WithoutAbsent(s[1..], x);
      assert Without(s, x) == [] + s[1..];
    } else {
      WithoutAt(s[1..], x, i - 1);
      assert s[..i] == [s[0]] + s[1..][..i - 1];
      assert s[1..][i..] == s[i + 1..];
    }
  }

  lemma {:induction false} Regroup<T>(a: seq<T>, b: seq<T>, c: seq<T>)
    ensures a + (b + c) == a + b + c && a <= a + b <= a + (b + c) && |a| + |b| + |c| == |a + (b + c)|
  {
  }
}
