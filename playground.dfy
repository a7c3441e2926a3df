/** The result aggregators that ParallelUrlRequest_GutHub.playground declares
    again for itself (`combinedSuccess` for two and four results), and the
    eight-request example that nests them: two four-way combinations joined
    by a two-way one. */
module Playground {
  import opened Outcomes
  import opened Aggregation
  import UrlParallelRequest

  /** `combinedSuccess(of:_:)` for two results. */
  function CombinedSuccess2<A, B, E>(a: Result<A, E>, b: Result<B, E>): (r: Result<(A, B), E>)
    ensures r.Success? <==> a.Success? && b.Success?
    ensures Status(r) == Status(Aggregate([Status(a), Status(b)]))
    ensures r.Success? ==> r.value == (a.value, b.value)
  {
    ScanTwo(Status(a), Status(b));
    match a
    case Success(aValue) =>
      (match b
       case Success(bValue) => Success((aValue, bValue))
       case Failure(error) => Failure(error))
    case Failure(error) => Failure(error)
  }

  /** `combinedSuccess(of:_:_:_:)` for four results. */
  function CombinedSuccess4<A, B, C, D, E>(a: Result<A, E>, b: Result<B, E>, c: Result<C, E>, d: Result<D, E>)
    : (r: Result<(A, B, C, D), E>)
    ensures r.Success? <==> a.Success? && b.Success? && c.Success? && d.Success?
    ensures Status(r) == Status(Aggregate([Status(a), Status(b), Status(c), Status(d)]))
    ensures r.Success? ==> r.value == (a.value, b.value, c.value, d.value)
  {
    ScanFour(Status(a), Status(b), Status(c), Status(d));
    ScanThree(Status(b), Status(c), Status(d));
    ScanTwo(Status(c), Status(d));
    match a
    case Success(aValue) =>
      (match b
       case Success(bValue) =>
         (match c
          case Success(cValue) =>
            (match d
             case Success(dValue) => Success((aValue, bValue, cValue, dValue))
             case Failure(error) => Failure(error))
          case Failure(error) => Failure(error))
       case Failure(error) => Failure(error))
    case Failure(error) => Failure(error)
  }

  /** The playground's two-way combinator is the library file's, result for result. */
  lemma CombinedSuccess2AgreesWithLibrary<A, B, E>(a: Result<A, E>, b: Result<B, E>)
    ensures CombinedSuccess2(a, b) == UrlParallelRequest.CombinedSuccess2(a, b)
  {
  }

  /** The playground's four-way combinator is the library file's `combinedSuccessOf`. */
  lemma CombinedSuccess4AgreesWithLibrary<A, B, C, D, E>(a: Result<A, E>, b: Result<B, E>, c: Result<C, E>, d: Result<D, E>)
    ensures CombinedSuccess4(a, b, c, d) == UrlParallelRequest.CombinedSuccessOf4(a, b, c, d)
  {
  }

  /** Four results: the error at the lowest failing position, a before b
      before c before d. */
  lemma CombinedSuccess4FirstFailure<A, B, C, D, E>(a: Result<A, E>, b: Result<B, E>, c: Result<C, E>, d: Result<D, E>)
    ensures a.Failure? ==> CombinedSuccess4(a, b, c, d) == Failure(a.error)
    ensures a.Success? && b.Failure? ==> CombinedSuccess4(a, b, c, d) == Failure(b.error)
    ensures a.Success? && b.Success? && c.Failure? ==> CombinedSuccess4(a, b, c, d) == Failure(c.error)
    ensures a.Success? && b.Success? && c.Success? && d.Failure? ==> CombinedSuccess4(a, b, c, d) == Failure(d.error)
  {
  }

  /** The eight-request example: the two-way combination of two four-way
      combinations. */
  function CombineEight<A, B, C, D, E>(
    a1: Result<A, E>, b1: Result<B, E>, c1: Result<C, E>, d1: Result<D, E>,
    a2: Result<A, E>, b2: Result<B, E>, c2: Result<C, E>, d2: Result<D, E>)
    : (r: Result<((A, B, C, D), (A, B, C, D)), E>)
  {
    CombinedSuccess2(CombinedSuccess4(a1, b1, c1, d1), CombinedSuccess4(a2, b2, c2, d2))
  }

  /** The nested combination behaves as one flat eight-way scan: it succeeds
      exactly when all eight results do, keeps every value in its position,
      and otherwise fails with the error of the leftmost failing result. */
  lemma {:induction false} CombineEightIsFlatScan<A, B, C, D, E>(
    a1: Result<A, E>, b1: Result<B, E>, c1: Result<C, E>, d1: Result<D, E>,
    a2: Result<A, E>, b2: Result<B, E>, c2: Result<C, E>, d2: Result<D, E>)
    ensures var r := CombineEight(a1, b1, c1, d1, a2, b2, c2, d2);
      && (r.Success? <==>
            a1.Success? && b1.Success? && c1.Success? && d1.Success? &&
            a2.Success? && b2.Success? && c2.Success? && d2.Success?)
      && (r.Success? ==>
            r.value == ((a1.value, b1.value, c1.value, d1.value), (a2.value, b2.value, c2.value, d2.value)))
      && Status(r) == Status(Aggregate([Status(a1), Status(b1), Status(c1), Status(d1),
                                        Status(a2), Status(b2), Status(c2), Status(d2)]))
  {
    var left := [Status(a1), Status(b1), Status(c1), Status(d1)];
    var right := [Status(a2), Status(b2), Status(c2), Status(d2)];
    AggregateAppend(left, right);
    assert left + right == [Status(a1), Status(b1), Status(c1), Status(d1),
                            Status(a2), Status(b2), Status(c2), Status(d2)];
    var x := CombinedSuccess4(a1, b1, c1, d1);
    var y := CombinedSuccess4(a2, b2, c2, d2);
    ScanTwo(Status(x), Status(y));
  }

  function Flatten<T>(t: ((T, T, T, T), (T, T, T, T))): seq<T> {
    [t.0.0, t.0.1, t.0.2, t.0.3, t.1.0, t.1.1, t.1.2, t.1.3]
  }

  /** When all eight results share one value type, the nested combination is
      exactly the reference aggregator over the eight in order, its nested
      tuple read as one flat sequence. */
  lemma {:induction false} CombineEightIsAggregate<T, E>(
    a1: Result<T, E>, b1: Result<T, E>, c1: Result<T, E>, d1: Result<T, E>,
    a2: Result<T, E>, b2: Result<T, E>, c2: Result<T, E>, d2: Result<T, E>)
    ensures Aggregate([a1, b1, c1, d1, a2, b2, c2, d2])
         == CombineEight(a1, b1, c1, d1, a2, b2, c2, d2).MapValue(Flatten)
  {
    var left := [a1, b1, c1, d1];
    var right := [a2, b2, c2, d2];
    AggregateAppend(left, right);
    assert left + right == [a1, b1, c1, d1, a2, b2, c2, d2];
    UrlParallelRequest.CombinedSuccessOf4IsAggregate(a1, b1, c1, d1);
    UrlParallelRequest.CombinedSuccessOf4IsAggregate(a2, b2, c2, d2);
    CombinedSuccess4AgreesWithLibrary(a1, b1, c1, d1);
    CombinedSuccess4AgreesWithLibrary(a2, b2, c2, d2);
    var r := CombineEight(a1, b1, c1, d1, a2, b2, c2, d2);
    if r.Success? {
      assert [a1.value, b1.value, c1.value, d1.value] + [a2.value, b2.value, c2.value, d2.value]
          == Flatten(r.value);
    }
  }
}
