# Pull iterators of silly-kits (`iter.go`), modelled in Dafny

The library defines a pull-based iterator: one method, `Next`, that returns the next
element, or the sentinel error `Done` at the normal end of the sequence, or any other
error as a failure. On top of that it builds:

- an iterator that is always exhausted (`Empty`);
- a cursor over a slice (`SimpleIter`, `Iter`);
- a chain that flattens an iterator of iterators (`SimpleChain`, `Chain`);
- a generator that calls a step function with 0, 1, 2, ... (`forLoopIter`);
- a map combinator (`Wrapper`);
- `Lazy`, which composes generator, map-to-slice-iterator and chain into one flat,
  page-by-page sequence.

Files:

- `protocol.dfy` (module `Protocol`): the result of one `Next` call as
  `Pull<T> = Ok(value) | Done | Err(error)`. Go's test `err == Done` becomes `.Done?`.
  `Propagate` passes an end or a failure on with another element type.
- `traces.dfy` (module `Traces`): value-level descriptions of what iterators yield.
  - `Flatten` gives the output of a chain and `TotalLength` its length.
  - `Batches` and `BatchesStop` give the pages a step function returns and the call that ends them.
  - `Mapped` and `MappedStop` give the output of a map combinator.
  - Lemmas state what each description means.
- `iter.dfy` (module `Iter`): one class per iterator kind, each with a `Next` method.
  - `Empty` has no fields and its `Next` changes nothing.
  - `SimpleIter`, `ForLoopIter` and `IterChain` update their own fields in place (the
    cursor, the generator index, the current inner iterator).
  - `BatchWrapIter` and `WrapIter` keep only constant fields; their `Next` advances the
    upstream they hold.

  Go's `wrapIter` is two classes:
  - `WrapIter`, built by `Wrapper`, with the upstream and map as fields;
  - `BatchWrapIter`, the one `Lazy` builds, whose upstream is a generator and whose map
    (a page becomes a slice iterator) is written out in its `Next` rather than kept in a field.

  `Empty`, `IterChain` and `WrapIter` are described by two ghost views:
  - `Output()`: the values its next calls return with `Ok`, in order;
  - `Stop()`: what the first call after them returns.

  `SimpleIter` has only `Output()`: its end is always `Done`. Their `Next` is proved
  against these views. `ForLoopIter` and `BatchWrapIter` have no views: their `Next` is
  stated directly in terms of the step function and its current index. `Collect` is the consumer loop of the tests: it
  pulls until the first result that is not `Ok`.
- `iter_tests.dfy` (module `IterTests`): the scenarios of `iter_test.go` as methods whose
  `ensures` give the collected values and the final result. It adds scenarios with a
  failing step function and a failing map.

## Model

| member | source | states |
|---|---|---|
| Protocol.Propagate | iter.go:103-107 | an upstream end or failure is passed on unchanged: the result is not `Ok`, it is `Done` exactly when the input is, and a failure keeps its message |
| Iter.Empty.constructor | iter.go:21-24 | `Empty()` builds an iterator that yields nothing and ends with `Done` |
| Iter.Empty.Next | iter.go:17-19 | every call returns `Done`; there is no state, so every later call does too |
| Iter.SimpleIter.constructor | iter.go:34-36 | a new slice iterator has its cursor at 0, its size equal to the slice length, and yields exactly the slice |
| Iter.SimpleIter.Next | iter.go:38-45 | below the end it returns the element at the cursor and moves the cursor by exactly one; at the end it returns `Done` and leaves the cursor unchanged; in terms of `Output`, it yields the head and shrinks by one, or returns `Done` with nothing left; the slice is never written and the cursor never passes the size |
| Iter.SimpleIter.Collect | iter.go:38-45 | pulling until the first non-`Ok` result gives every element left, in order, then `Done` |
| Iter.OutputsPair | iter.go:74-76 | chaining two slice iterators yields what is left of the first followed by what is left of the second |
| Iter.ForLoopIter.constructor | iter.go:111 | a new generator starts at index 0 with the given step function |
| Iter.ForLoopIter.Next | iter.go:88-92 | the result is exactly the step function's result for the current index, and the index moves on by one whatever that result was |
| Iter.BatchWrapIter.constructor | iter.go:112-115 | the page-to-iterator map that `Lazy` builds reads from the given generator |
| Iter.BatchWrapIter.Next | iter.go:112-115 | the generator's index moves on by one; a page becomes a fresh slice iterator over exactly that page; `Done` or a failure of the step function is passed on unchanged |
| Iter.IterChain.SimpleChain | iter.go:74-76 | a chain over the given iterators yields the concatenation of what is left in each, in argument order; nothing is pulled yet: the outer iterator is at the first argument and there is no current inner iterator |
| Iter.IterChain.Chain | iter.go:79-81 | a chain over an outer slice iterator yields the concatenation of what is left in each inner iterator it has still to give |
| Iter.IterChain.Lazy | iter.go:110-117 | `Lazy(meth)` starts its generator at index 0; it yields the pages `meth(0)`, `meth(1)`, ... flattened, up to the first call that returns no page, and ends with that call's `Done` or failure |
| Iter.IterChain.PullOuter | iter.go:61-65 | with no current inner iterator, a pull of the outer iterator either ends the call with the outer's `Done` or failure while `cur` stays null (only when nothing is left to yield), or makes the pulled iterator `cur` without changing what the chain yields; the outer has exactly one fewer iterator left. For `Lazy` the generator moves one index on, and the page it gave is what `cur` yields; for slices `cur` is the next iterator of the slice, and the iterators after it are untouched |
| Iter.IterChain.PullIters | iter.go:61-65 | the outer pull for a chain over a slice of iterators: its end gives `Done`; otherwise the next inner iterator of the slice, the one at the outer cursor, becomes `cur` |
| Iter.IterChain.PullBatches | iter.go:61-65 | the outer pull for `Lazy`: one call of the step function; no page returns that call's `Done` or failure; either way the generator moves one index on, and a page becomes what `cur` yields |
| Iter.IterChain.PullInner | iter.go:66-71 | a pull of the current inner iterator: exactly `Done` discards it (`cur` becomes null), happens only when it was empty, and changes nothing the chain yields; an element is the chain's next element and keeps `cur`; a non-empty inner iterator always gives an element |
| Iter.IterChain.Next | iter.go:59-73 | the chain returns the first element it has still to yield and drops it from its output, skipping empty inner iterators without losing any element; with nothing left it returns the outer iterator's `Done` or failure with `cur` null; after a failure of `Lazy`'s step function the generator has already moved past the failing index. The outer iterator is pulled only once the current inner iterator is exhausted: a non-empty `cur` is kept and the outer iterator stays where it was; when the call pulls, every inner iterator (or `Lazy` page) it pulled and dropped before the one that gave the element was empty, and the inner iterators of a slice still to come are untouched |
| Iter.IterChain.NextOnce | iter.go:60-71 | one pass of the loop: it ends the call with an element or with the outer iterator's end, or drops an inner iterator that was empty and makes progress on (outer iterators left, what is left of `cur`) |
| Iter.IterChain.NextFresh | iter.go:61-71 | the pass that starts without `cur`: pulls the outer iterator, then the new inner one; going on means that inner iterator was empty |
| Iter.IterChain.Collect | iter.go:59-73 | pulling a chain until the first non-`Ok` result gives its whole output, then its stop result; afterwards `cur` is null, a chain over slices has nothing left (so every later call returns `Done`), and `Lazy`'s generator stands one index past the call that returned no page |
| Iter.WrapIter.Wrapper | iter.go:99-101 | the map combinator reads from the given upstream with the given map |
| Iter.WrapIter.Next | iter.go:103-109 | an upstream `Done` or failure is returned as it is, without calling the map, and leaves the upstream chain as its own `Next` does (`cur` null, nothing left over slices, `Lazy`'s generator one index past the stop); otherwise the result is exactly the map of the upstream element, the map's own failure included, that element is consumed and the upstream's end is unchanged |
| Iter.WrapIter.Collect | iter.go:103-109 | collecting a map combinator gives the mapped values up to the first failing map, then that failure, or the upstream's end if no map fails; after a failing map the upstream has consumed exactly the mapped elements and the failing one, and keeps its end; after the upstream's end it stands as after the chain's own run |
| Traces.FlattenAppend | iter.go:59-73 | the output of a chain over two runs of inner iterators is the output over the first run followed by the output over the second |
| Traces.FlattenLength | iter.go:59-73 | a chain yields exactly as many elements as its inner iterators hold together |
| Traces.FlattenAt | iter.go:59-73 | element j of inner iterator i comes right after all elements of the earlier inner iterators: nothing is skipped and both levels keep their order |
| Traces.FlattenPair | iter.go:74-76 | two inner iterators flatten to the first followed by the second |
| Traces.FlattenSkipsEmpty | iter.go:66-68 | an empty inner iterator anywhere in a chain adds nothing to its output |
| Traces.BatchesMeaning | iter.go:110-117 | the pages of `Lazy` are exactly the results of the successful calls `meth(from)`, `meth(from + 1)`, ... in order; the call after them returns no page, and `Lazy` ends with that call's `Done` or failure |
| Traces.MappedMeaning | iter.go:103-109 | the output of a map combinator is the run of successful maps from the front of the upstream output; after it comes the first failing map, or the upstream's own end when every map succeeds |
| Traces.MappedSkip | iter.go:103-109 | after k successful maps, what the map combinator yields from there on and how it ends are those of the remaining upstream elements |
| Traces.MappedTotal | iter.go:103-109 | a map that never fails maps every upstream element in order and passes the upstream's end on unchanged |
| IterTests.TestSimpleIter | iter_test.go:44-48 | a slice iterator over [1, 2, 3, 4] yields 1, 2, 3, 4, then `Done` |
| IterTests.TestSimpleChainPullOrder | iter.go:59-73 | after the first element of `SimpleChain` over [1..4] and [5..9], the outer iterator has given exactly one iterator and the second is untouched |
| IterTests.LazySkipsEmptyPage | iter.go:59-73 | `Lazy` over pages [], [4, 5], then `Done`: the first call drops the empty page and returns 4 from the page of index 1, having asked for indexes 0 and 1 only |
| IterTests.TestLazyPullOrder | iter.go:59-73 | on the same `Lazy`, the second call returns 5 without calling the step function, and the third gets `Done` from index 2 |
| IterTests.TestSimpleChain | iter_test.go:49-52 | `SimpleChain` of slice iterators over [1..4] and [5..9] yields 1 to 9 in order, then `Done`, and `Done` again on the next call |
| IterTests.TestChain | iter_test.go:54-57 | `Chain` over a slice iterator of those two iterators yields 1 to 9 in order, then `Done` |
| IterTests.TestEmpty | iter_test.go:58-60 | `Empty` returns `Done` on the first call and on the next |
| IterTests.SimpleIterFunc | iter_test.go:7-12 | the test's step function gives the page [1, 2, 3] exactly for indexes up to 1, and `Done` otherwise |
| IterTests.SimpleIterFuncBatches | iter_test.go:7-12 | from index 0 the test's step function gives the pages [1, 2, 3] and [1, 2, 3], and then `Done`; from index 3 it gives no page and `Done` |
| IterTests.TestLazy | iter_test.go:33-36 | `Lazy` over the test's step function yields 1, 2, 3, 1, 2, 3, then `Done` |
| IterTests.AsNumber | iter_test.go:39-41 | the test's conversion, on integers: it never fails and keeps each value |
| IterTests.AsNumberMapped | iter_test.go:39-41 | the test's conversion maps each of 1, 2, 3, 1, 2, 3 to itself and never fails |
| IterTests.TestWrapper | iter_test.go:37-43 | `Wrapper` of that conversion over `Lazy` yields 1, 2, 3, 1, 2, 3, then `Done`, and `Done` again on the next call |
| IterTests.FailingPagesBatches | iter.go:88-92 | a step function that fails at index 1 gives one page, then that failure, and returns nothing from index 2 on |
| IterTests.TestLazyFailure | iter.go:110-117 | `Lazy` returns its step function's failure as it is, after the pages before it; the next call asks for the next index and gets `Done` |
| IterTests.RejectTwoMapped | iter.go:103-109 | a map that fails on 2, over 1, 2, 3, 1, 2, 3, maps 1 and then fails |
| IterTests.TestWrapperFailure | iter.go:103-109 | `Wrapper` returns the map's own failure in place of the element, which ends the collected run |
| IterTests.TestWrapperResume | iter.go:103-109 | after the map's failure, the next call maps the element after the failing one: no element is retried or skipped |
| IterTests.RejectTwoMappedRest | iter.go:103-109 | over 3, 1, 2, 3, the map that fails on 2 maps 3 and 1 and then fails |
| IterTests.TestWrapperResumeCollect | iter.go:103-109 | collecting again after the map's failure goes on from the element after the failing one, yields 3 and 1, and ends at the next failing 2 |

## Left out

- `Find`, `ForEach` and `Retry` appear only in `tools_test.go`. Their implementation is not part of this model, and `Retry` sleeps between attempts.
- Go's interface `Iterator[T]` and its dynamic dispatch. Traits are not used, so each iterator kind is its own class.
  - The outer iterator of a chain is the datatype `Outer`: a slice iterator of slice iterators (`SimpleChain`, `Chain`) or the generator pipeline of `Lazy`.
  - `Wrapper`'s upstream is an `IterChain`, the kind the library builds with `Lazy`.
- Iter.IterChain.Next: inner iterators are slice iterators, which never fail. The branch of `iter.go:69-71` that returns a non-`Done` inner error while keeping that inner as `cur` is in the code but cannot be reached in the model.
- Iter.IterChain.Chain: the outer iterator and the inner iterators it has still to give must be distinct objects. An inner iterator given twice would share its cursor between its turns, and that aliasing is not modelled.
- Iter.IterChain.SimpleChain: the same holds for its arguments. Go accepts `SimpleChain(a, a)`, which yields `a`'s elements once because the second turn finds `a` already at `Done`; the model refuses it.
- Iter.IterChain.Next: a nil inner iterator makes Go panic at `iter.go:66`. The model's inner iterators are never null, so that panic is not modelled.
- Iter.SimpleIter.constructor: Go keeps the caller's slice without copying it, so a later write by the caller to an element not yet yielded shows in what the iterator returns. The model holds the contents as a value taken at construction, so such writes are not modelled.
- Iter.IterChain.Lazy: takes a ghost `bound` from which on the step function returns no page. A step function that gives pages forever, and a chain that then never ends, are not modelled. Neither is an outer iterator that yields infinitely many empty inner iterators.
- A value returned beside an error is not modelled: `Done` and `Err` carry no element. This covers the zero value the library's own iterators return with `Done` or a propagated error, and any value a step function or a `Wrapper` map returns together with its error, which Go's `wrapIter.Next` passes on as it is (`iter.go:108`) and the model drops.
- Step and map functions are pure Dafny functions. Go closures with side effects are not modelled.
- Counters (`index`, `cur`) are unbounded integers, so Go's `int` overflow after 2^63 calls is not modelled.
- `SimpleIter` and `Iter` build the same value, so both are the one constructor `Iter.SimpleIter.constructor`.
- The `float32` conversion of `TestWrapper` (and the `Number` constraint) is floating point. It is modelled as the identity on integers (`AsNumber`), which is what it does on the test's small values.
- The test helper `testIterFunc` is the `Collect` methods plus the `ensures` of the test methods.
