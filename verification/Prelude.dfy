/** The option type used across the model for nullable pointers and optional results. */
module Prelude {
  datatype Option<+T> = None | Some(value: T)

  function OptionSeq<T>(o: Option<T>): seq<T> {
    if o.Some? then [o.value] else []
  }

  predicate Any<T>(xs: seq<T>, p: T -> bool) {
    exists i | 0 <= i < |xs| :: p(xs[i])
  }

  predicate AllAfter<T>(xs: seq<T>, i: int, p: T -> bool) {
    forall j | 0 <= j < |xs| && i < j :: p(xs[j])
  }

  lemma AnyLast<T>(xs: seq<T>, p: T -> bool)
    requires xs != []
    ensures Any(xs, p) <==> Any(xs[..|xs| - 1], p) || p(xs[|xs| - 1])
  {
    var front := xs[..|xs| - 1];
    if Any(front, p) {
      var i :| 0 <= i < |front| && p(front[i]);
      assert p(xs[i]);
    }
    if Any(xs, p) {
      var i :| 0 <= i < |xs| && p(xs[i]);
      assert i < |front| ==> front[i] == xs[i];
    }
  }

  lemma AllAfterLast<T>(xs: seq<T>, i: int, p: T -> bool)
    requires xs != []
    ensures i < |xs| - 1 ==> (AllAfter(xs, i, p) <==> AllAfter(xs[..|xs| - 1], i, p) && p(xs[|xs| - 1]))
    ensures i >= |xs| - 1 ==> AllAfter(xs, i, p)
  {
    var front := xs[..|xs| - 1];
    assert forall j | 0 <= j < |front| :: front[j] == xs[j];
    if AllAfter(xs, i, p) {
      forall j | 0 <= j < |front| && i < j ensures p(front[j]) {
        assert p(xs[j]);
      }
    }
    if AllAfter(front, i, p) && p(xs[|xs| - 1]) {
      forall j | 0 <= j < |xs| && i < j ensures p(xs[j]) {
        assert j < |front| ==> p(front[j]);
      }
    }
  }

  lemma EmptyOrNot(ids: set<int>)
    ensures ids == {} || exists id :: id in ids
  {
    if forall id :: id !in ids {
      assert ids == {};
    }
  }
}
