/**
 * The "try each in order, first success wins" fold that every fallback
 * loop and every `a || b || c` lookup chain of the system is an instance of.
 */
module Chains {
  import opened Wrappers

  /** The result of the first element on which `f` succeeds, or `None` when every element fails. */
  function FirstSome<T, R>(xs: seq<T>, f: T -> Option<R>): (r: Option<R>)
    ensures r.None? <==> forall i :: 0 <= i < |xs| ==> f(xs[i]).None?
    ensures r.Some? ==> exists i :: 0 <= i < |xs| && f(xs[i]) == r && IsFirst(xs, f, i)
    decreases |xs|
  {
    if |xs| == 0 then None
    else if f(xs[0]).Some? then
      assert IsFirst(xs, f, 0);
      f(xs[0])
    else
      var rest := FirstSome(xs[1..], f);
      assert rest.Some? ==> exists i :: 0 <= i < |xs| && f(xs[i]) == rest && IsFirst(xs, f, i) by {
        if rest.Some? {
          var i :| 0 <= i < |xs[1..]| && f(xs[1..][i]) == rest && IsFirst(xs[1..], f, i);
          assert IsFirst(xs, f, i + 1);
        }
      }
      rest
  }

  /** Every element before index `i` fails, and the one at `i` succeeds. */
  ghost predicate IsFirst<T, R>(xs: seq<T>, f: T -> Option<R>, i: int)
  {
    0 <= i < |xs| && f(xs[i]).Some? && forall j :: 0 <= j < i ==> f(xs[j]).None?
  }

  /** Trying `a` then `b` is the same as trying `a`, and `b` only when all of `a` failed. */
  lemma {:induction false} FirstSomeAppend<T, R>(a: seq<T>, b: seq<T>, f: T -> Option<R>)
    ensures FirstSome(a + b, f) == (if FirstSome(a, f).Some? then FirstSome(a, f) else FirstSome(b, f))
    decreases |a|
  {
    if |a| == 0 {
      assert a + b == b;
    } else {
      assert (a + b)[0] == a[0];
      assert (a + b)[1..] == a[1..] + b;
      FirstSomeAppend(a[1..], b, f);
    }
  }

  /** Flattens a sequence of sequences, keeping the order of the outer and then the inner loop. */
  function Flatten<T>(xss: seq<seq<T>>): seq<T>
    decreases |xss|
  {
    if |xss| == 0 then [] else xss[0] + Flatten(xss[1..])
  }

  /** A nested loop that returns from the innermost body behaves as one loop over the flattened order. */
  lemma {:induction false} FirstSomeNested<T, R>(xss: seq<seq<T>>, f: T -> Option<R>)
    ensures FirstSome(xss, (xs: seq<T>) => FirstSome(xs, f)) == FirstSome(Flatten(xss), f)
    decreases |xss|
  {
    if |xss| > 0 {
      FirstSomeNested(xss[1..], f);
      FirstSomeAppend(xss[0], Flatten(xss[1..]), f);
    }
  }

}
