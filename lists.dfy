/** List helpers shared by the simulation and post-processing pages. */
module Lists {

  predicate Distinct(xs: seq<string>)
  {
    forall i, j :: 0 <= i < j < |xs| ==> xs[i] != xs[j]
  }

  /** The list comprehension [x for x in xs if x not in excluded]. */
  function Without(xs: seq<string>, excluded: seq<string>): (r: seq<string>)
    ensures |r| <= |xs|
    ensures forall x :: x in r <==> x in xs && x !in excluded
  {
    if |xs| == 0 then []
    else (if xs[0] in excluded then [] else [xs[0]]) + Without(xs[1..], excluded)
  }

  /** The comprehension keeps the order of the kept elements. */
  lemma {:induction false} WithoutAppend(a: seq<string>, b: seq<string>, excluded: seq<string>)
    ensures Without(a + b, excluded) == Without(a, excluded) + Without(b, excluded)
  {
    if |a| == 0 {
      assert a + b == b;
    } else {
      assert (a + b)[1..] == a[1..] + b;
      WithoutAppend(a[1..], b, excluded);
    }
  }

  /** Python's `if x in xs: xs.remove(x)`: the first occurrence goes, nothing else. */
  function RemoveIfPresent(xs: seq<string>, x: string): (r: seq<string>)
    ensures x !in xs ==> r == xs
    ensures x in xs ==> |r| == |xs| - 1 && multiset(r) == multiset(xs) - multiset{x}
  {
    if |xs| == 0 then []
    else
      assert xs == [xs[0]] + xs[1..];
      if xs[0] == x then xs[1..]
      else [xs[0]] + RemoveIfPresent(xs[1..], x)
  }

  /** Removing the first occurrence of x from a list where x occurs once drops exactly x. */
  lemma {:induction false} RemoveDistinct(xs: seq<string>, x: string)
    requires Distinct(xs)
    ensures forall y :: y in RemoveIfPresent(xs, x) <==> y in xs && y != x
    ensures Distinct(RemoveIfPresent(xs, x))
  {
    if |xs| > 0 && xs[0] != x {
      assert Distinct(xs[1..]) by {
        forall i, j | 0 <= i < j < |xs[1..]| ensures xs[1..][i] != xs[1..][j] {
          assert xs[1..][i] == xs[i + 1] && xs[1..][j] == xs[j + 1];
        }
      }
      RemoveDistinct(xs[1..], x);
      var r := RemoveIfPresent(xs[1..], x);
      forall i, j | 0 <= i < j < |[xs[0]] + r| ensures ([xs[0]] + r)[i] != ([xs[0]] + r)[j] {
        if i == 0 {
          assert ([xs[0]] + r)[j] == r[j - 1];
          assert r[j - 1] in xs[1..];
        }
      }
    } else if |xs| > 0 {
      forall y | y in xs[1..] ensures y != x {
        var k :| 0 <= k < |xs[1..]| && xs[1..][k] == y;
        assert xs[k + 1] == y;
      }
      forall i, j | 0 <= i < j < |xs[1..]| ensures xs[1..][i] != xs[1..][j] {
        assert xs[1..][i] == xs[i + 1] && xs[1..][j] == xs[j + 1];
      }
    }
  }
}
