/**
 Loops that move one cursor by a fixed rule over finitely many positions. The certificate
 walk and the revocation-list walk are both of this kind, and neither counts its steps.
 */
module Iteration {
  import opened Bytes

  /** A rule gives the next position, or `None` where the loop stops. */
  type Rule = int -> Option<int>

  /** The loop started at `x` takes exactly `k` steps and then stops. */
  ghost predicate StopsIn(next: Rule, x: int, k: nat)
    decreases k
  {
    if next(x).None? then k == 0 else k > 0 && StopsIn(next, next(x).value, k - 1)
  }

  ghost predicate Stops(next: Rule, x: int) {
    exists k: nat :: StopsIn(next, x, k)
  }

  /** A test that can be run: does the loop stop after at most `k` steps? */
  predicate StopsWithin(next: Rule, x: int, k: nat)
    decreases k
  {
    next(x).None? || (k > 0 && StopsWithin(next, next(x).value, k - 1))
  }

  /** The position after `k` steps, if the loop is still running then. */
  function At(next: Rule, x: int, k: nat): Option<int>
    decreases k
  {
    if k == 0 then Some(x)
    else if next(x).None? then None
    else At(next, next(x).value, k - 1)
  }

  /** The loop leaves only positions below `bound`. */
  ghost predicate Confined(next: Rule, bound: nat) {
    forall x :: next(x).Some? ==> 0 <= x < bound
  }

  /** Some position is reached at two different times. */
  ghost predicate Revisits(next: Rule, x: int) {
    exists i: nat, j: nat :: i < j && At(next, x, i).Some? && At(next, x, i) == At(next, x, j)
  }

  /** The positions visited when the loop takes `k` steps. */
  function Trail(next: Rule, x: int, k: nat): (t: seq<int>)
    requires StopsWithin(next, x, k)
    ensures |t| > 0 && t[0] == x
    decreases k
  {
    if next(x).None? then [x] else [x] + Trail(next, next(x).value, k - 1)
  }

  lemma {:induction false} TrailStep(next: Rule, x: int, n: nat)
    requires StopsWithin(next, x, n)
    ensures next(x).None? ==> Trail(next, x, n) == [x]
    ensures next(x).Some? ==> n > 0 && StopsWithin(next, next(x).value, n - 1)
    ensures next(x).Some? ==> Trail(next, x, n) == [x] + Trail(next, next(x).value, n - 1)
  {
  }

  lemma {:induction false} StopsInUnique(next: Rule, x: int, j: nat, k: nat)
    requires StopsIn(next, x, j) && StopsIn(next, x, k)
    ensures j == k
    decreases k
  {
    if next(x).Some? {
      StopsInUnique(next, next(x).value, j - 1, k - 1);
    }
  }

  lemma {:induction false} InOfWithin(next: Rule, x: int, n: nat) returns (k: nat)
    requires StopsWithin(next, x, n)
    ensures k <= n && StopsIn(next, x, k)
    decreases n
  {
    if next(x).None? {
      k := 0;
    } else {
      var j := InOfWithin(next, next(x).value, n - 1);
      k := j + 1;
    }
  }

  lemma {:induction false} TrailLength(next: Rule, x: int, n: nat, k: nat)
    requires StopsWithin(next, x, n) && StopsIn(next, x, k)
    ensures |Trail(next, x, n)| == k + 1
    decreases k
  {
    if next(x).Some? {
      TrailLength(next, next(x).value, n - 1, k - 1);
    }
  }

  /** Entry `i` of the trail still has `k - i` steps to go, and consecutive entries follow the rule. */
  lemma {:induction false} TrailAt(next: Rule, x: int, n: nat, k: nat, i: nat)
    requires StopsWithin(next, x, n) && StopsIn(next, x, k) && i <= k
    ensures |Trail(next, x, n)| == k + 1
    ensures StopsIn(next, Trail(next, x, n)[i], k - i)
    ensures i < k ==> next(Trail(next, x, n)[i]) == Some(Trail(next, x, n)[i + 1])
    decreases k
  {
    TrailLength(next, x, n, k);
    if i > 0 {
      TrailAt(next, next(x).value, n - 1, k - 1, i - 1);
    } else if k > 0 {
      TrailLength(next, next(x).value, n - 1, k - 1);
    }
  }

  /** A loop that stops never returns to a position. */
  lemma {:induction false} TrailDistinct(next: Rule, x: int, n: nat, i: nat, j: nat)
    requires StopsWithin(next, x, n) && i < j < |Trail(next, x, n)|
    ensures Trail(next, x, n)[i] != Trail(next, x, n)[j]
  {
    var k := InOfWithin(next, x, n);
    TrailLength(next, x, n, k);
    TrailAt(next, x, n, k, i);
    TrailAt(next, x, n, k, j);
    if Trail(next, x, n)[i] == Trail(next, x, n)[j] {
      StopsInUnique(next, Trail(next, x, n)[i], k - i, k - j);
    }
  }

  /** Distinct numbers below `bound` are at most `bound` many. */
  lemma {:induction false} Pigeonhole(s: seq<int>, bound: nat)
    requires forall i :: 0 <= i < |s| ==> 0 <= s[i] < bound
    requires forall i, j :: 0 <= i < j < |s| ==> s[i] != s[j]
    ensures |s| <= bound
    decreases bound
  {
    if s != [] {
      var top := bound - 1;
      if exists i :: 0 <= i < |s| && s[i] == top {
        var i :| 0 <= i < |s| && s[i] == top;
        var r := s[..i] + s[i + 1..];
        Pigeonhole(r, top);
      } else {
        assert 0 <= s[0] < bound;
        Pigeonhole(s, top);
      }
    }
  }

  lemma {:induction false} AtDefined(next: Rule, x: int, n: nat, i: nat)
    requires !StopsWithin(next, x, n) && i <= n
    ensures At(next, x, i).Some? && next(At(next, x, i).value).Some?
    decreases n
  {
    if i > 0 {
      AtDefined(next, next(x).value, n - 1, i - 1);
    }
  }

  lemma {:induction false} AtStops(next: Rule, x: int, k: nat, i: nat)
    requires StopsIn(next, x, k) && At(next, x, i).Some?
    ensures i <= k && StopsIn(next, At(next, x, i).value, k - i)
    decreases k
  {
    if i > 0 {
      AtStops(next, next(x).value, k - 1, i - 1);
    }
  }

  /**
   A confined loop stops exactly when it stops within `bound` steps, and that is exactly when
   it never comes back to a position. So counting to `bound` decides an uncounted loop.
   */
  lemma {:induction false} StopsIff(next: Rule, x: int, bound: nat)
    requires Confined(next, bound)
    ensures Stops(next, x) <==> StopsWithin(next, x, bound)
    ensures Stops(next, x) <==> !Revisits(next, x)
  {
    if StopsWithin(next, x, bound) {
      var k := InOfWithin(next, x, bound);
    } else {
      MustRevisit(next, x, bound);
    }
    if Stops(next, x) {
      var k: nat :| StopsIn(next, x, k);
      NoRevisit(next, x, k);
    }
  }

  lemma {:induction false} NoRevisit(next: Rule, x: int, k: nat)
    requires StopsIn(next, x, k)
    ensures !Revisits(next, x)
  {
    if Revisits(next, x) {
      var i: nat, j: nat :| i < j && At(next, x, i).Some? && At(next, x, i) == At(next, x, j);
      AtStops(next, x, k, i);
      AtStops(next, x, k, j);
      StopsInUnique(next, At(next, x, i).value, k - i, k - j);
    }
  }

  lemma {:induction false} MustRevisit(next: Rule, x: int, bound: nat)
    requires Confined(next, bound) && !StopsWithin(next, x, bound)
    ensures Revisits(next, x)
  {
    forall i: nat | i <= bound
      ensures At(next, x, i).Some? && 0 <= At(next, x, i).value < bound
    {
      AtDefined(next, x, bound, i);
    }
    var s := seq(bound + 1, i requires 0 <= i <= bound => At(next, x, i).value);
    if forall i, j :: 0 <= i < j < |s| ==> s[i] != s[j] {
      Pigeonhole(s, bound);
    } else {
      var i, j :| 0 <= i < j < |s| && s[i] == s[j];
      assert At(next, x, i) == At(next, x, j);
    }
  }

  /** No position leads back to itself. */
  ghost predicate Acyclic(next: Rule) {
    forall x, k: nat :: k > 0 ==> At(next, x, k) != Some(x)
  }

  lemma {:induction false} AtSum(next: Rule, x: int, i: nat, j: nat)
    requires At(next, x, i).Some?
    ensures At(next, x, i + j) == At(next, At(next, x, i).value, j)
    decreases i
  {
    if i > 0 {
      AtSum(next, next(x).value, i - 1, j);
    }
  }

  lemma {:induction false} RevisitsCycle(next: Rule, x: int)
    requires Revisits(next, x)
    ensures !Acyclic(next)
  {
    var i: nat, j: nat :| i < j && At(next, x, i).Some? && At(next, x, i) == At(next, x, j);
    AtSum(next, x, i, j - i);
    assert At(next, At(next, x, i).value, j - i) == At(next, x, i);
  }

  lemma {:induction false} AcyclicStops(next: Rule, x: int, bound: nat)
    requires Confined(next, bound) && Acyclic(next)
    ensures StopsWithin(next, x, bound)
  {
    StopsIff(next, x, bound);
    if Revisits(next, x) {
      RevisitsCycle(next, x);
    }
  }
}
