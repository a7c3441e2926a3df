/** The reference aggregator: a left-to-right scan over any number of outcomes
    of one value type. Every fixed-arity combinator of the model is proved to
    agree with it. */
module Aggregation {
  import opened Outcomes

  /** Every outcome in `rs` is a success. */
  predicate AllSucceed<T, E>(rs: seq<Result<T, E>>) {
    forall i :: 0 <= i < |rs| ==> rs[i].Success?
  }

  /** Position `k` is the first failing position of `rs`. */
  predicate FirstFailureAt<T, E>(rs: seq<Result<T, E>>, k: int) {
    0 <= k < |rs| && rs[k].Failure? && forall j :: 0 <= j < k ==> rs[j].Success?
  }

  /** Scans `rs` from the left: the first failure is returned at once;
      if there is none, the success values are collected in order. */
  function Aggregate<T, E>(rs: seq<Result<T, E>>): (r: Result<seq<T>, E>)
    ensures r.Success? <==> AllSucceed(rs)
    ensures r.Success? ==> |r.value| == |rs| && forall i :: 0 <= i < |rs| ==> r.value[i] == rs[i].value
    ensures r.Failure? ==> exists k :: FirstFailureAt(rs, k) && r.error == rs[k].error
  {
    if rs == [] then Success([])
    else
      match rs[0]
      case Failure(e) =>
        assert FirstFailureAt(rs, 0);
        Failure(e)
      case Success(v) =>
        match Aggregate(rs[1..])
        case Failure(e) =>
          assert forall k :: FirstFailureAt(rs[1..], k) ==> FirstFailureAt(rs, k + 1);
          Failure(e)
        case Success(vs) => Success([v] + vs)
  }

  /** One step of the scan: the head decides unless it succeeds, in which case
      the rest is scanned and the head's value is put in front. */
  lemma AggregateCons<T, E>(r: Result<T, E>, rs: seq<Result<T, E>>)
    ensures Aggregate([r] + rs) ==
      match r
      case Failure(e) => Failure(e)
      case Success(v) =>
        match Aggregate(rs)
        case Failure(e) => Failure(e)
        case Success(vs) => Success([v] + vs)
  {
  }

  /** The failure reported is exactly the one at the lowest failing position,
      whatever fails after it. */
  lemma AggregateReportsFirstFailure<T, E>(rs: seq<Result<T, E>>, k: int)
    requires FirstFailureAt(rs, k)
    ensures Aggregate(rs) == Failure(rs[k].error)
  {
  }

  /** Outcomes after the first failure are never looked at: changing them does
      not change the result. */
  lemma AggregateIgnoresRest<T, E>(rs: seq<Result<T, E>>, ss: seq<Result<T, E>>, k: int)
    requires FirstFailureAt(rs, k)
    requires k < |ss| && rs[..k + 1] == ss[..k + 1]
    ensures Aggregate(ss) == Aggregate(rs)
  {
  }

  /** Aggregating a concatenation equals aggregating each part and then
      aggregating those two results: the left part's failure wins, then the
      right part's, and otherwise the value lists are joined. */
  lemma {:induction false} AggregateAppend<T, E>(xs: seq<Result<T, E>>, ys: seq<Result<T, E>>)
    ensures Aggregate(xs + ys) ==
      match Aggregate(xs)
      case Failure(e) => Failure(e)
      case Success(us) =>
        match Aggregate(ys)
        case Failure(e) => Failure(e)
        case Success(vs) => Success(us + vs)
  {
    if xs == [] {
      assert xs + ys == ys;
      assert Aggregate(xs) == Success([]);
      match Aggregate(ys)
      case Failure(_) =>
      case Success(vs) => assert [] + vs == vs;
    } else {
      assert (xs + ys)[0] == xs[0];
      assert (xs + ys)[1..] == xs[1..] + ys;
      AggregateAppend(xs[1..], ys);
      match xs[0]
      case Failure(_) =>
      case Success(v) =>
        match Aggregate(xs[1..])
        case Failure(_) =>
        case Success(us) =>
          match Aggregate(ys)
          case Failure(_) =>
          case Success(vs) =>
            assert [v] + (us + vs) == ([v] + us) + vs;
    }
  }

  /** The scan over a two-element sequence, unfolded. */
  lemma ScanTwo<T, E>(a: Result<T, E>, b: Result<T, E>)
    ensures Aggregate([a, b]) ==
      match a
      case Failure(e) => Failure(e)
      case Success(u) =>
        match b
        case Failure(e) => Failure(e)
        case Success(v) => Success([u, v])
  {
    AggregateCons(a, [b]);
    AggregateCons(b, []);
    assert [a] + [b] == [a, b];
    assert [b] + [] == [b];
    assert Aggregate<T, E>([]) == Success([]);
    match a
    case Failure(_) =>
    case Success(u) =>
      match b
      case Failure(_) =>
      case Success(v) => assert [u] + ([v] + []) == [u, v];
  }

  /** The scan over a three-element sequence: the head, then the two others. */
  lemma ScanThree<T, E>(a: Result<T, E>, b: Result<T, E>, c: Result<T, E>)
    ensures Aggregate([a, b, c]) ==
      match a
      case Failure(e) => Failure(e)
      case Success(u) =>
        match Aggregate([b, c])
        case Failure(e) => Failure(e)
        case Success(vs) => Success([u] + vs)
  {
  }

  /** The scan over a four-element sequence: the head, then the three others. */
  lemma ScanFour<T, E>(a: Result<T, E>, b: Result<T, E>, c: Result<T, E>, d: Result<T, E>)
    ensures Aggregate([a, b, c, d]) ==
      match a
      case Failure(e) => Failure(e)
      case Success(u) =>
        match Aggregate([b, c, d])
        case Failure(e) => Failure(e)
        case Success(vs) => Success([u] + vs)
  {
  }
}
