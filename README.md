# Result aggregation of ParallelUrlRequest, in Dafny

ParallelUrlRequest runs several API requests in parallel and hands their
`Result<_, Error>` values to one completion. The results are then folded into
one: `combinedSuccess` (two or three results) and `combinedSuccessOf` (four
results) switch over the results one by one, in argument order. If every
result is `.success`, they return `.success` of the tuple of the values. At
the first `.failure` they return that failure, and the later results are
never looked at. The library file `UrlParallelRequest.swift` defines the 2-,
3- and 4-ary versions. The playground `ParallelUrlRequest_GutHub.playground`
declares its own 2- and 4-ary versions and nests them: a 2-ary combination of
two 4-ary combinations aggregates eight requests.

The model:

- `outcomes.dfy` (module `Outcomes`): the generic `Result<T, E>` and `Status`,
  which forgets a success value. `Status` lets results of different value
  types be compared with one reference scan.
- `aggregation.dfy` (module `Aggregation`): `Aggregate`, the reference
  aggregator. It scans a sequence of results of one value type from the left.
  It succeeds with all values in order, or fails with the first failure. Its
  lemmas say which failure is reported, that later results are ignored, and
  how it splits over a concatenation.
- `url_parallel_request.dfy` (module `UrlParallelRequest`): the three
  combinators of the library file, with the same nested case analysis.
- `playground.dfy` (module `Playground`): the playground's two combinators,
  proved equal to the library file's, and the eight-way nesting.

Each fixed-arity function's contract ties its result to the reference scan
over the `Status` of its arguments. It also says the result succeeds exactly
when all arguments do, and that the success tuple holds the argument values
in argument order. When all arguments share one value type, a lemma shows the
combinator equals `Aggregate` over the arguments, with the tuple read as a
sequence.

## Model

| member | source | states |
|---|---|---|
| `Aggregation.Aggregate` | UrlParallelRequest.swift:10-12 | The reference left-to-right scan succeeds iff every result succeeds. Its values are the inputs' values, position by position. A failure carries the error of a first failing position. |
| `Aggregation.AggregateReportsFirstFailure` | UrlParallelRequest.swift:10-12 | When position k is the lowest failing position, the scan fails with exactly the error at k, whatever fails after it. |
| `Aggregation.AggregateIgnoresRest` | UrlParallelRequest.swift:15-22 | Results after the first failure are never inspected: two inputs that agree up to and including the first failure give the same result. |
| `Aggregation.AggregateAppend` | ParallelUrlRequest_GutHub.playground/Contents.swift:205-224 | Scanning a concatenation equals scanning each part and combining the two outcomes: the left failure wins, then the right, else the value lists are joined. |
| `UrlParallelRequest.CombinedSuccess2` | UrlParallelRequest.swift:13-23 | Succeeds iff both results succeed, with `(aValue, bValue)`. Its outcome and error are those of the reference scan over `a, b`. |
| `UrlParallelRequest.CombinedSuccess3` | UrlParallelRequest.swift:28-43 | Succeeds iff all three succeed, with `(aValue, bValue, cValue)`. Its outcome and error are those of the reference scan over `a, b, c`. |
| `UrlParallelRequest.CombinedSuccessOf4` | UrlParallelRequest.swift:48-68 | Succeeds iff all four succeed, with `(aValue, bValue, cValue, dValue)`. Its outcome and error are those of the reference scan over `a, b, c, d`. |
| `UrlParallelRequest.CombinedSuccess2IsAggregate` | UrlParallelRequest.swift:10-23 | With one value type, the 2-ary combinator equals the reference aggregator over `[a, b]`. |
| `UrlParallelRequest.CombinedSuccess3IsAggregate` | UrlParallelRequest.swift:25-43 | With one value type, the 3-ary combinator equals the reference aggregator over `[a, b, c]`. |
| `UrlParallelRequest.CombinedSuccessOf4IsAggregate` | UrlParallelRequest.swift:45-68 | With one value type, the 4-ary combinator equals the reference aggregator over `[a, b, c, d]`. |
| `UrlParallelRequest.CombinedSuccess2FirstFailure` | UrlParallelRequest.swift:15-22 | If `a` fails, the result is `a`'s error whatever `b` is. If only `b` fails, the result is `b`'s error. |
| `UrlParallelRequest.CombinedSuccess3FirstFailure` | UrlParallelRequest.swift:37-41 | The error returned is the one at the first failing position among a, b, c. Later results do not matter. |
| `UrlParallelRequest.CombinedSuccessOf4FirstFailure` | UrlParallelRequest.swift:60-66 | The error returned is the one at the first failing position among a, b, c, d. Later results do not matter. |
| `Playground.CombinedSuccess2` | ParallelUrlRequest_GutHub.playground/Contents.swift:103-113 | Succeeds iff both succeed, with `(aValue, bValue)` in argument order. Its outcome and error are those of the reference scan over `a, b`. |
| `Playground.CombinedSuccess4` | ParallelUrlRequest_GutHub.playground/Contents.swift:115-135 | Succeeds iff all four succeed, with `(aValue, bValue, cValue, dValue)`. Its outcome and error are those of the reference scan over `a, b, c, d`. |
| `Playground.CombinedSuccess2AgreesWithLibrary` | ParallelUrlRequest_GutHub.playground/Contents.swift:103-113 | The playground's 2-ary combinator returns the same result as the library file's on every input. |
| `Playground.CombinedSuccess4AgreesWithLibrary` | ParallelUrlRequest_GutHub.playground/Contents.swift:115-135 | The playground's 4-ary `combinedSuccess` returns the same result as the library file's `combinedSuccessOf` on every input. |
| `Playground.CombinedSuccess4FirstFailure` | ParallelUrlRequest_GutHub.playground/Contents.swift:127-133 | The error returned is the one at the lowest failing position, a before b before c before d. |
| `Playground.CombineEightIsFlatScan` | ParallelUrlRequest_GutHub.playground/Contents.swift:205-224 | The 2-ary combination of two 4-ary combinations succeeds iff all eight results do. It keeps every value in its position. Its outcome and error are those of one flat scan over the eight, left to right. |
| `Playground.CombineEightIsAggregate` | ParallelUrlRequest_GutHub.playground/Contents.swift:205-224 | With one value type, the nested combination equals the reference aggregator over the eight results in order. |

## Left out

- `ParrallelActions.combine` (every arity, in both files): it waits for the requests with `DispatchGroup` enter/leave/notify and delivers on a `DispatchQueue`. That is concurrency on a platform primitive whose code is not part of this model.
- `ParrallelActions.defaultCompletionQueue` and the `completeOnQueue` argument: they only choose where the completion runs.
- `ApiManager`, the request wrappers and the demo `print` code of the playground: they imitate network I/O with random delays and random values. Only the nesting of the eight-way example is modelled, by `Playground.CombineEight`.
- `ApiError`: the error type is a type parameter `E`. Swift's `where Error: Swift.Error` constraint has no counterpart and no effect on the logic.
- Swift's laziness of `switch` is not a separate notion in Dafny. "Later results are never looked at" is stated as independence of the result from them.
