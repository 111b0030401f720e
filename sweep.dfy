/** The game's `forEach((item, index) => { ...; if (gone) list.splice(index, 1) })` pattern.

    A JavaScript forEach fixes the number of visits n at the start, visits index k = 0 .. n-1
    of the CURRENT array, and skips an index that is no longer present. Removing the element
    at index k shifts its follower down to index k, so the next visit (k + 1) passes over it:
    the follower is neither updated nor tested in that pass. `Pass` states that behaviour
    exactly; it does not promise that every element that would be gone is removed. */
module Sweep {

  /** One pass from visit k on. `step` updates the visited element (an update or an identity),
      `gone` decides from the updated value whether it is spliced out; `removed` collects the
      spliced values in visit order. The result is (array after the pass, removed values). */
  function Pass<C, T>(c: C, s: seq<T>, k: nat, n: nat, step: (C, T) -> T, gone: (C, T) -> bool,
                      removed: seq<T>): (r: (seq<T>, seq<T>))
    ensures |r.0| + |r.1| == |s| + |removed|
    ensures |r.0| <= |s|
    ensures forall x :: x in r.1 ==> x in removed || gone(c, x)
    ensures forall x :: x in r.0 ==> x in s || !gone(c, x)
    ensures k >= n || k >= |s| ==> r == (s, removed)
    decreases n - k
  {
    if n <= k then (s, removed)
    else if k < |s| then
      var x := step(c, s[k]);
      if gone(c, x) then Pass(c, s[..k] + s[k + 1..], k + 1, n, step, gone, removed + [x])
      else Pass(c, s[k := x], k + 1, n, step, gone, removed)
    else Pass(c, s, k + 1, n, step, gone, removed)
  }

  /** The pass over a whole array, as one forEach makes it. */
  function Sweep<C, T>(c: C, s: seq<T>, step: (C, T) -> T, gone: (C, T) -> bool): (r: (seq<T>, seq<T>))
  {
    Pass(c, s, 0, |s|, step, gone, [])
  }

  /** When no visited element is gone, the pass removes nothing and updates every element
      from index k on, leaving the prefix alone. */
  lemma {:induction false} PassWhenNoneGone<C, T>(c: C, s: seq<T>, k: nat, step: (C, T) -> T,
                                                   gone: (C, T) -> bool, removed: seq<T>)
    requires k <= |s|
    requires forall i :: k <= i < |s| ==> !gone(c, step(c, s[i]))
    ensures var r := Pass(c, s, k, |s|, step, gone, removed);
            r.1 == removed && |r.0| == |s| &&
            forall i :: 0 <= i < |s| ==> r.0[i] == if i < k then s[i] else step(c, s[i])
    decreases |s| - k
  {
    if k < |s| {
      var s' := s[k := step(c, s[k])];
      assert forall i :: k + 1 <= i < |s'| ==> s'[i] == s[i];
      PassWhenNoneGone(c, s', k + 1, step, gone, removed);
    }
  }

  /** Whole-array form: a pass in which nothing is gone is the element-wise update. */
  lemma SweepWhenNoneGone<C, T>(c: C, s: seq<T>, step: (C, T) -> T, gone: (C, T) -> bool)
    requires forall i :: 0 <= i < |s| ==> !gone(c, step(c, s[i]))
    ensures Sweep(c, s, step, gone).1 == []
    ensures |Sweep(c, s, step, gone).0| == |s|
    ensures forall i :: 0 <= i < |s| ==> Sweep(c, s, step, gone).0[i] == step(c, s[i])
  {
    PassWhenNoneGone(c, s, 0, step, gone, []);
  }

  /** The follower of a removed element is passed over: of two elements that would both be
      gone after their update, only the first is removed, and the second stays un-updated. */
  lemma SweepSkipsFollower<C, T>(c: C, a: T, b: T, step: (C, T) -> T, gone: (C, T) -> bool)
    requires gone(c, step(c, a)) && gone(c, step(c, b))
    ensures Sweep(c, [a, b], step, gone) == ([b], [step(c, a)])
  {
    var s := [a, b];
    assert s[0] == a;
    assert s[..0] + s[1..] == [b];
    assert [] + [step(c, a)] == [step(c, a)];
  }

  /** When every element would be gone after its update, a pass over an array of L elements
      removes only ceil(L/2) of them: each removal shifts the next element past the visit.
      Stated from visit k on, for any number n of planned visits at least the array's length. */
  lemma {:induction false} PassAllGone<C, T>(c: C, s: seq<T>, k: nat, n: nat, step: (C, T) -> T,
                                              gone: (C, T) -> bool, removed: seq<T>)
    requires k <= |s| <= n
    requires forall i :: k <= i < |s| ==> gone(c, step(c, s[i]))
    ensures var r := Pass(c, s, k, n, step, gone, removed);
            |r.1| == |removed| + (|s| - k + 1) / 2 && |r.0| == |s| - (|s| - k + 1) / 2
    decreases n - k
  {
    if k < |s| {
      var x := step(c, s[k]);
      var s' := s[..k] + s[k + 1..];
      assert forall i :: k <= i < |s'| ==> s'[i] == s[i + 1];
      if k + 1 <= |s'| {
        PassAllGone(c, s', k + 1, n, step, gone, removed + [x]);
      }
    }
  }

  /** Whole-array form: of L elements that would all be gone, L / 2 (rounded down) survive. */
  lemma SweepAllGone<C, T>(c: C, s: seq<T>, step: (C, T) -> T, gone: (C, T) -> bool)
    requires forall i :: 0 <= i < |s| ==> gone(c, step(c, s[i]))
    ensures |Sweep(c, s, step, gone).0| == |s| / 2
    ensures |Sweep(c, s, step, gone).1| == (|s| + 1) / 2
  {
    PassAllGone(c, s, 0, |s|, step, gone, []);
  }

  /** Any property of elements that the update keeps holds of everything the pass leaves in the
      array and of everything it removes. */
  lemma {:induction false} PassPreserves<C, T>(c: C, s: seq<T>, k: nat, n: nat, step: (C, T) -> T,
                                                gone: (C, T) -> bool, removed: seq<T>, P: T -> bool)
    requires forall x :: P(x) ==> P(step(c, x))
    requires forall x :: x in s ==> P(x)
    requires forall x :: x in removed ==> P(x)
    ensures var r := Pass(c, s, k, n, step, gone, removed);
            (forall x :: x in r.0 ==> P(x)) && (forall x :: x in r.1 ==> P(x))
    decreases n - k
  {
    if k < n && k < |s| {
      var x := step(c, s[k]);
      if gone(c, x) {
        var s' := s[..k] + s[k + 1..];
        assert forall y :: y in s' ==> y in s;
        PassPreserves(c, s', k + 1, n, step, gone, removed + [x], P);
      } else {
        var s' := s[k := x];
        assert forall y :: y in s' ==> y in s || y == x;
        PassPreserves(c, s', k + 1, n, step, gone, removed, P);
      }
    } else if k < n {
      PassPreserves(c, s, k + 1, n, step, gone, removed, P);
    }
  }

  /** A pass whose update is the identity loses and invents nothing: every element is either
      still in the array or among the removed ones. */
  lemma {:induction false} IdentityPassSplits<C, T>(c: C, s: seq<T>, k: nat, n: nat, step: (C, T) -> T,
                                                    gone: (C, T) -> bool, removed: seq<T>)
    requires forall x :: step(c, x) == x
    ensures var r := Pass(c, s, k, n, step, gone, removed);
            multiset(r.0) + multiset(r.1) == multiset(s) + multiset(removed)
    decreases n - k
  {
    if k < n && k < |s| {
      var x := step(c, s[k]);
      if gone(c, x) {
        assert s == s[..k] + [s[k]] + s[k + 1..];
        IdentityPassSplits(c, s[..k] + s[k + 1..], k + 1, n, step, gone, removed + [x]);
      } else {
        assert s[k := x] == s;
        IdentityPassSplits(c, s[k := x], k + 1, n, step, gone, removed);
      }
    } else if k < n {
      IdentityPassSplits(c, s, k + 1, n, step, gone, removed);
    }
  }

  /** Whole-array form: an identity pass only keeps or removes elements of the array. */
  lemma IdentitySweepKeeps<C, T>(c: C, s: seq<T>, step: (C, T) -> T, gone: (C, T) -> bool)
    requires forall x :: step(c, x) == x
    ensures forall x :: x in Sweep(c, s, step, gone).0 ==> x in s
    ensures forall x :: x in Sweep(c, s, step, gone).1 ==> x in s
  {
    var none: seq<T> := [];
    var r := Sweep(c, s, step, gone);
    IdentityPassSplits(c, s, 0, |s|, step, gone, none);
    assert multiset(none) == multiset{};
    assert multiset(r.0) + multiset(r.1) == multiset(s);
    forall x | x in r.0
      ensures x in s
    {
      assert multiset(r.0)[x] + multiset(r.1)[x] == multiset(s)[x];
    }
    forall x | x in r.1
      ensures x in s
    {
      assert multiset(r.0)[x] + multiset(r.1)[x] == multiset(s)[x];
    }
  }

  /** The pass as the game runs it: an index loop over the array that splices out at the
      visited index, returning the array after the pass and the removed values in order. */
  method RunPass<C, T>(c: C, s: seq<T>, step: (C, T) -> T, gone: (C, T) -> bool)
    returns (r: seq<T>, removed: seq<T>)
    ensures (r, removed) == Sweep(c, s, step, gone)
  {
    var n := |s|;
    r, removed := s, [];
    var k := 0;
    while k < n
      invariant 0 <= k <= n
      invariant Pass(c, r, k, n, step, gone, removed) == Sweep(c, s, step, gone)
    {
      if k < |r| {
        var x := step(c, r[k]);
        if gone(c, x) {
          r := r[..k] + r[k + 1..];
          removed := removed + [x];
        } else {
          r := r[k := x];
        }
      }
      k := k + 1;
    }
  }
}
