/** The result aggregators of UrlParallelRequest.swift: `combinedSuccess` for
    two and three results and `combinedSuccessOf` for four. Each looks at its
    arguments one by one in the order given and stops at the first failure. */
module UrlParallelRequest {
  import opened Outcomes
  import opened Aggregation

  /** `combinedSuccess(of:_:)` for two results. */
  function CombinedSuccess2<A, B, E>(a: Result<A, E>, b: Result<B, E>): (r: Result<(A, B), E>)
    ensures r.Success? <==> a.Success? && b.Success?
    ensures Status(r) == Status(Aggregate([Status(a), Status(b)]))
    ensures r.Success? ==> r.value == (a.value, b.value)
  {
    ScanTwo(Status(a), Status(b));
    match a
    case Success(aValue) =>
      (match b
       case Success(bValue) => Success((aValue, bValue))
       case Failure(error) => Failure(error))
    case Failure(error) => Failure(error)
  }

  /** `combinedSuccess(of:_:_:)` for three results. */
  function CombinedSuccess3<A, B, C, E>(a: Result<A, E>, b: Result<B, E>, c: Result<C, E>): (r: Result<(A, B, C), E>)
    ensures r.Success? <==> a.Success? && b.Success? && c.Success?
    ensures Status(r) == Status(Aggregate([Status(a), Status(b), Status(c)]))
    ensures r.Success? ==> r.value == (a.value, b.value, c.value)
  {
    ScanThree(Status(a), Status(b), Status(c));
    ScanTwo(Status(b), Status(c));
    match a
    case Success(aValue) =>
      (match b
       case Success(bValue) =>
         (match c
          case Success(cValue) => Success((aValue, bValue, cValue))
          case Failure(error) => Failure(error))
       case Failure(error) => Failure(error))
    case Failure(error) => Failure(error)
  }

  /** `combinedSuccessOf(_:_:_:_:)` for four results. */
  function CombinedSuccessOf4<A, B, C, D, E>(a: Result<A, E>, b: Result<B, E>, c: Result<C, E>, d: Result<D, E>)
    : (r: Result<(A, B, C, D), E>)
    ensures r.Success? <==> a.Success? && b.Success? && c.Success? && d.Success?
    ensures Status(r) == Status(Aggregate([Status(a), Status(b), Status(c), Status(d)]))
    ensures r.Success? ==> r.value == (a.value, b.value, c.value, d.value)
  {
    ScanFour(Status(a), Status(b), Status(c), Status(d));
    ScanThree(Status(b), Status(c), Status(d));
    ScanTwo(Status(c), Status(d));
    match a
    case Success(aValue) =>
      (match b
       case Success(bValue) =>
         (match c
          case Success(cValue) =>
            (match d
             case Success(dValue) => Success((aValue, bValue, cValue, dValue))
             case Failure(error) => Failure(error))
          case Failure(error) => Failure(error))
       case Failure(error) => Failure(error))
    case Failure(error) => Failure(error)
  }

  function Pair<T>(t: (T, T)): seq<T> { [t.0, t.1] }
  function Triple<T>(t: (T, T, T)): seq<T> { [t.0, t.1, t.2] }
  function Quadruple<T>(t: (T, T, T, T)): seq<T> { [t.0, t.1, t.2, t.3] }

  /** When all results share one value type, the 2-ary combinator is the
      reference aggregator with the tuple read as a sequence. */
  lemma CombinedSuccess2IsAggregate<T, E>(a: Result<T, E>, b: Result<T, E>)
    ensures Aggregate([a, b]) == CombinedSuccess2(a, b).MapValue(Pair)
  {
    ScanTwo(a, b);
  }

  /** The 3-ary combinator is the reference aggregator over three results. */
  lemma CombinedSuccess3IsAggregate<T, E>(a: Result<T, E>, b: Result<T, E>, c: Result<T, E>)
    ensures Aggregate([a, b, c]) == CombinedSuccess3(a, b, c).MapValue(Triple)
  {
    ScanThree(a, b, c);
    ScanTwo(b, c);
    if a.Success? && b.Success? && c.Success? {
      assert [a.value] + [b.value, c.value] == [a.value, b.value, c.value];
    }
  }

  /** The 4-ary combinator is the reference aggregator over four results. */
  lemma CombinedSuccessOf4IsAggregate<T, E>(a: Result<T, E>, b: Result<T, E>, c: Result<T, E>, d: Result<T, E>)
    ensures Aggregate([a, b, c, d]) == CombinedSuccessOf4(a, b, c, d).MapValue(Quadruple)
  {
    ScanFour(a, b, c, d);
    ScanThree(b, c, d);
    ScanTwo(c, d);
    if a.Success? && b.Success? && c.Success? && d.Success? {
      assert [b.value] + [c.value, d.value] == [b.value, c.value, d.value];
      assert [a.value] + [b.value, c.value, d.value] == [a.value, b.value, c.value, d.value];
    }
  }

  /** Two results: the error of `a` if it fails (whatever `b` is), else the
      error of `b` if it fails. */
  lemma CombinedSuccess2FirstFailure<A, B, E>(a: Result<A, E>, b: Result<B, E>)
    ensures a.Failure? ==> CombinedSuccess2(a, b) == Failure(a.error)
    ensures a.Success? && b.Failure? ==> CombinedSuccess2(a, b) == Failure(b.error)
  {
  }

  /** Three results: the error at the lowest failing position; the results
      after it do not affect the outcome. */
  lemma CombinedSuccess3FirstFailure<A, B, C, E>(a: Result<A, E>, b: Result<B, E>, c: Result<C, E>)
    ensures a.Failure? ==> CombinedSuccess3(a, b, c) == Failure(a.error)
    ensures a.Success? && b.Failure? ==> CombinedSuccess3(a, b, c) == Failure(b.error)
    ensures a.Success? && b.Success? && c.Failure? ==> CombinedSuccess3(a, b, c) == Failure(c.error)
  {
  }

  /** Four results: the error at the lowest failing position; the results
      after it do not affect the outcome. */
  lemma CombinedSuccessOf4FirstFailure<A, B, C, D, E>(a: Result<A, E>, b: Result<B, E>, c: Result<C, E>, d: Result<D, E>)
    ensures a.Failure? ==> CombinedSuccessOf4(a, b, c, d) == Failure(a.error)
    ensures a.Success? && b.Failure? ==> CombinedSuccessOf4(a, b, c, d) == Failure(b.error)
    ensures a.Success? && b.Success? && c.Failure? ==> CombinedSuccessOf4(a, b, c, d) == Failure(c.error)
    ensures a.Success? && b.Success? && c.Success? && d.Failure? ==> CombinedSuccessOf4(a, b, c, d) == Failure(d.error)
  {
  }
}
