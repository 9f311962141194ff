/** Map-then-drop-missing over a sequence, the shape of coercing a column
    and calling `dropna` on it. */
module Filtering {
  import opened Wrappers

  /** The present results of `f` over `s`, in order. */
  function FilterMap<A, B>(f: A -> Option<B>, s: seq<A>): (r: seq<B>)
    ensures |r| <= |s|
  {
    if s == [] then []
    else
      var rest := FilterMap(f, s[..|s| - 1]);
      match f(s[|s| - 1])
      case Some(x) => rest + [x]
      case None => rest
  }

  /** Exactly the values `f` produces for some element survive. */
  lemma {:induction false} FilterMapMembers<A, B>(f: A -> Option<B>, s: seq<A>)
    ensures forall x :: x in FilterMap(f, s) <==> exists k :: 0 <= k < |s| && f(s[k]) == Some(x)
  {
    if s != [] {
      var n := |s| - 1;
      var init := s[..n];
      FilterMapMembers(f, init);
      forall x
        ensures x in FilterMap(f, s) <==> exists k :: 0 <= k < |s| && f(s[k]) == Some(x)
      {
        if exists k :: 0 <= k < |init| && f(init[k]) == Some(x) {
          var k :| 0 <= k < |init| && f(init[k]) == Some(x);
          assert s[k] == init[k];
        }
        if exists k :: 0 <= k < |s| && f(s[k]) == Some(x) {
          var k :| 0 <= k < |s| && f(s[k]) == Some(x);
          if k < n {
            assert init[k] == s[k];
          }
        }
      }
    }
  }

  /** The indices of `s` at which `f` produces `x`. */
  ghost function Producing<A, B>(f: A -> Option<B>, s: seq<A>, x: B): set<int> {
    set k | 0 <= k < |s| && f(s[k]) == Some(x)
  }

  /** Looking one element further adds that element's index exactly when `f`
      produces `x` there. */
  lemma ProducingLast<A, B>(f: A -> Option<B>, s: seq<A>, x: B)
    requires |s| > 0
    ensures f(s[|s| - 1]) == Some(x) ==>
      Producing(f, s, x) == Producing(f, s[..|s| - 1], x) + {|s| - 1}
    ensures f(s[|s| - 1]) != Some(x) ==>
      Producing(f, s, x) == Producing(f, s[..|s| - 1], x)
  {
    var n := |s| - 1;
    assert forall k :: 0 <= k < n ==> s[..n][k] == s[k];
  }

  /** Every value survives as often as `f` produces it: no element is merged
      with another and none is dropped. */
  lemma {:induction false} FilterMapCounts<A, B>(f: A -> Option<B>, s: seq<A>, x: B)
    ensures multiset(FilterMap(f, s))[x] == |Producing(f, s, x)|
  {
    if s == [] {
      assert Producing(f, s, x) == {};
    } else {
      var n := |s| - 1;
      var rest := FilterMap(f, s[..n]);
      FilterMapCounts(f, s[..n], x);
      ProducingLast(f, s, x);
      match f(s[n])
      case Some(y) =>
        assert multiset(FilterMap(f, s)) == multiset(rest) + multiset{y};
        if y == x {
          assert n !in Producing(f, s[..n], x);
        }
      case None =>
    }
  }
}
