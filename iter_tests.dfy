/** The scenarios of iter_test.go, each stated as what a consumer collects: the values
    returned with Ok, in order, and the result of the first call that is not Ok. */
module IterTests {
  import opened Protocol
  import opened Traces
  import opened Iter

  /** The step function of TestLazy: the batch [1, 2, 3] for every index up to 1,
      Done from 2 on. Its contract only spells out the fixture; what the chain makes
      of it is SimpleIterFuncBatches. */
  function SimpleIterFunc(v: int): (r: Pull<seq<int>>)
    ensures r.Ok? <==> v <= 1
    ensures r.Ok? ==> r.value == [1, 2, 3]
    ensures !r.Ok? ==> r.Done?
  {
    if v > 1 then Done else Ok([1, 2, 3])
  }

  /** TestWrapper's conversion to float32, which keeps each value: modelled on int.
      Its contract only spells out the fixture; what the map makes of it is
      AsNumberMapped. */
  function AsNumber(x: int): (r: Pull<int>)
    ensures r.Ok? && r.value == x
  {
    Ok(x)
  }

  method TestSimpleIter() returns (xs: seq<int>, stop: Pull<int>)
    ensures xs == [1, 2, 3, 4] && stop.Done?
  {
    var it := new SimpleIter([1, 2, 3, 4]);
    xs, stop := it.Collect();
  }

  /** The two slice iterators of TestSimpleChain and TestChain. */
  method TwoIters() returns (a: SimpleIter<int>, b: SimpleIter<int>)
    ensures fresh(a) && fresh(b) && a.Valid() && b.Valid()
    ensures a.Output() == [1, 2, 3, 4] && b.Output() == [5, 6, 7, 8, 9]
  {
    a := new SimpleIter([1, 2, 3, 4]);
    b := new SimpleIter([5, 6, 7, 8, 9]);
  }

  /** After the run, the chain keeps returning Done. */
  method TestSimpleChain() returns (xs: seq<int>, stop: Pull<int>, after: Pull<int>)
    ensures xs == [1, 2, 3, 4] + [5, 6, 7, 8, 9] && stop.Done? && after.Done?
  {
    var a, b := TwoIters();
    ObjectsPair(a, b);
    OutputsPair(a, b);
    var c := new IterChain.SimpleChain([a, b]);
    xs, stop := c.Collect();
    after := c.Next();
  }

  method TestChain() returns (xs: seq<int>, stop: Pull<int>)
    ensures xs == [1, 2, 3, 4] + [5, 6, 7, 8, 9] && stop.Done?
  {
    var a, b := TwoIters();
    var outer := new SimpleIter([a, b]);
    ObjectsPair(a, b);
    OutputsPair(a, b);
    assert outer.cache[outer.index..] == [a, b];
    var c := new IterChain.Chain(outer);
    xs, stop := c.Collect();
  }

  method TestEmpty() returns (first: Pull<int>, second: Pull<int>)
    ensures first.Done? && second.Done?
  {
    var e := new Empty<int>();
    first := e.Next();
    second := e.Next();
  }

  /** Batches are pulled one per outer step: [1, 2, 3] for index 0, again for index 1,
      then Done. */
  lemma SimpleIterFuncBatches()
    ensures Flatten(Batches(SimpleIterFunc, 0, 2)) == [1, 2, 3, 1, 2, 3]
    ensures |Batches(SimpleIterFunc, 0, 2)| == 2 && BatchesStop(SimpleIterFunc, 0, 2).Done?
    ensures Batches(SimpleIterFunc, 3, 2) == [] && BatchesStop(SimpleIterFunc, 3, 2).Done?
  {
    assert Batches(SimpleIterFunc, 2, 2) == [];
    assert Batches(SimpleIterFunc, 1, 2) == [[1, 2, 3]];
    assert Batches(SimpleIterFunc, 0, 2) == [[1, 2, 3], [1, 2, 3]];
    FlattenPair([1, 2, 3], [1, 2, 3]);
    assert BatchesStop(SimpleIterFunc, 1, 2) == Done;
  }

  method TestLazy() returns (xs: seq<int>, stop: Pull<int>)
    ensures xs == [1, 2, 3, 1, 2, 3] && stop.Done?
  {
    var it := new IterChain.Lazy(SimpleIterFunc, 2);
    SimpleIterFuncBatches();
    xs, stop := it.Collect();
  }

  /** SimpleChain over the two slice iterators of TestSimpleChain, not yet pulled. */
  method ChainOfTwo() returns (c: IterChain<int>, a: SimpleIter<int>, b: SimpleIter<int>)
    ensures c.Valid() && fresh(c.Repr) && c.its.OfIters? && c.cur == null
    ensures c.its.iters.cache == [a, b] && c.its.iters.index == 0
    ensures a.index == 0 && a.size == 4 && b.index == 0
    ensures c.Output() == [1, 2, 3, 4] + [5, 6, 7, 8, 9]
  {
    a := new SimpleIter([1, 2, 3, 4]);
    b := new SimpleIter([5, 6, 7, 8, 9]);
    ObjectsPair(a, b);
    OutputsPair(a, b);
    c := new IterChain.SimpleChain([a, b]);
  }

  /** The chain pulls its second iterator only once the first is exhausted: after the
      first element the outer iterator has given one iterator, and b is untouched. */
  method TestSimpleChainPullOrder() returns (first: Pull<int>, given: int, untouched: int)
    ensures first == Ok(1) && given == 1 && untouched == 0
  {
    var c, a, b := ChainOfTwo();
    first := c.Next();
    assert c.its.iters.cache[0] == a && c.its.iters.cache[1] == b;
    given, untouched := c.its.iters.index, b.index;
  }

  /** A step function whose first page is empty: [] for index 0, [4, 5] for index 1,
      Done from 2 on. */
  function SparsePages(v: int): Pull<seq<int>>
  {
    if v == 0 then Ok([]) else if v == 1 then Ok([4, 5]) else Done
  }

  /** The empty page adds nothing; the page of index 1 is all there is. */
  lemma SparsePagesBatches()
    ensures Flatten(Batches(SparsePages, 0, 2)) == [4, 5]
    ensures Flatten(Batches(SparsePages, 1, 2)) == [4, 5]
    ensures Batches(SparsePages, 2, 2) == [] && BatchesStop(SparsePages, 2, 2).Done?
  {
    assert Batches(SparsePages, 2, 2) == [];
    assert Batches(SparsePages, 1, 2) == [[4, 5]];
    assert Batches(SparsePages, 0, 2) == [[], [4, 5]];
    FlattenPair([], [4, 5]);
    assert Flatten([[4, 5]]) == [4, 5] + Flatten([]);
  }

  /** From index 0 or 1 on, the pages left hold [4, 5]; from any other index, nothing. */
  lemma SparsePagesFrom(k: int)
    ensures Flatten(Batches(SparsePages, k, 2)) == if k == 0 || k == 1 then [4, 5] else []
  {
    SparsePagesBatches();
    if k < 0 || k > 2 {
      assert Batches(SparsePages, k, 2) == [];
    }
  }

  /** Lazy over SparsePages, not yet pulled. */
  method SparseLazy() returns (it: IterChain<int>)
    ensures it.Valid() && fresh(it.Repr) && it.its.OfBatches?
    ensures it.its.pages.it.meth == SparsePages && it.bound == 2 && it.StepIndex() == 0
    ensures it.Output() == [4, 5] && it.Stop().Done? && it.StopIndex() == 2
  {
    it := new IterChain.Lazy(SparsePages, 2);
    SparsePagesBatches();
  }

  /** Lazy drops the empty page of index 0 and reads the page of index 1: the first
      call asks the step function for index 0, then for index 1, and no further. */
  method LazySkipsEmptyPage() returns (it: IterChain<int>, first: Pull<int>)
    ensures it.Valid() && fresh(it.Repr) && it.its.OfBatches?
    ensures first == Ok(4) && it.StepIndex() == 2 && it.StopIndex() == 2 && it.Stop().Done?
    ensures it.cur != null && it.cur.Output() == [5] && it.Output() == [5]
  {
    it := SparseLazy();
    first := it.Next();
    SparsePagesFrom(it.StepIndex());
    assert it.its.pages.it.meth(1) == Ok([4, 5]);
  }

  /** The second call reads on in the page of index 1 without calling the step
      function; the third finds that page exhausted and gets Done from index 2. */
  method TestLazyPullOrder() returns (first: Pull<int>, second: Pull<int>, third: Pull<int>, steps: seq<int>)
    ensures first == Ok(4) && second == Ok(5) && third.Done? && steps == [2, 2, 3]
  {
    var it;
    it, first := LazySkipsEmptyPage();
    var s1 := it.its.pages.it.cur;
    second := it.Next();
    var s2 := it.its.pages.it.cur;
    third := it.Next();
    steps := [s1, s2, it.its.pages.it.cur];
  }

  /** The conversion never fails: every element is mapped, and the upstream's Done
      follows. */
  lemma AsNumberMapped()
    ensures Mapped(AsNumber, [1, 2, 3, 1, 2, 3]) == [1, 2, 3, 1, 2, 3]
    ensures MappedStop(AsNumber, [1, 2, 3, 1, 2, 3], Done) == Done
  {
    MappedTotal(AsNumber, [1, 2, 3, 1, 2, 3], Done);
  }

  /** Wrapper with the conversion over the chain of TestLazy. */
  method AsNumberWrapper() returns (w: WrapIter<int, int>)
    ensures w.Valid() && fresh(w.it.Repr) && w.wrap == AsNumber
    ensures w.it.Output() == [1, 2, 3, 1, 2, 3] && w.it.Stop().Done?
    ensures w.it.its.OfBatches? && w.it.its.pages.it.meth == SimpleIterFunc && w.it.bound == 2
    ensures w.it.StopIndex() == 2
  {
    var it := new IterChain.Lazy(SimpleIterFunc, 2);
    w := new WrapIter.Wrapper(it, AsNumber);
    SimpleIterFuncBatches();
  }

  /** After the run the generator asks for index 3, which gives Done again. */
  method TestWrapper() returns (xs: seq<int>, stop: Pull<int>, after: Pull<int>)
    ensures xs == [1, 2, 3, 1, 2, 3] && stop.Done? && after.Done?
  {
    var w := AsNumberWrapper();
    AsNumberMapped();
    SimpleIterFuncBatches();
    xs, stop := w.Collect();
    after := w.Next();
  }

  /** A step function whose second page fails: [7] for index 0, a failure for index 1,
      Done from 2 on. */
  function FailingPages(v: int): Pull<seq<int>>
  {
    if v == 0 then Ok([7]) else if v == 1 then Err("page") else Done
  }

  /** The first page, then the failure of index 1; nothing from index 2 on. */
  lemma FailingPagesBatches()
    ensures Flatten(Batches(FailingPages, 0, 2)) == [7]
    ensures BatchesStop(FailingPages, 0, 2) == Err("page")
    ensures Batches(FailingPages, 2, 2) == [] && BatchesStop(FailingPages, 2, 2).Done?
  {
    assert Batches(FailingPages, 1, 2) == [];
    assert Batches(FailingPages, 0, 2) == [[7]];
    assert Flatten([[7]]) == [7] + Flatten([]);
  }

  /** The chain returns the generator's failure as it is, then, because the generator's
      index moved on regardless, the next call asks for index 2 and gets Done. */
  method TestLazyFailure() returns (xs: seq<int>, stop: Pull<int>, after: Pull<int>)
    ensures xs == [7] && stop == Err("page") && after.Done?
  {
    var it := new IterChain.Lazy(FailingPages, 2);
    FailingPagesBatches();
    xs, stop := it.Collect();
    after := it.Next();
  }

  /** A map that fails on 2. */
  function RejectTwo(x: int): Pull<int>
  {
    if x == 2 then Err("two") else Ok(x)
  }

  /** Over the output of TestLazy, the map gives 1 and then fails on the 2 after it. */
  lemma RejectTwoMapped()
    ensures Mapped(RejectTwo, [1, 2, 3, 1, 2, 3]) == [1]
    ensures MappedStop(RejectTwo, [1, 2, 3, 1, 2, 3], Done) == Err("two")
  {
    assert [1, 2, 3, 1, 2, 3][1..] == [2, 3, 1, 2, 3];
    assert Mapped(RejectTwo, [2, 3, 1, 2, 3]) == [];
  }

  /** After the failing 2, the rest maps 3 and 1 and fails on the second 2. */
  lemma RejectTwoMappedRest()
    ensures Mapped(RejectTwo, [3, 1, 2, 3]) == [3, 1]
    ensures MappedStop(RejectTwo, [3, 1, 2, 3], Done) == Err("two")
  {
    assert [3, 1, 2, 3][1..] == [1, 2, 3];
    assert [1, 2, 3][1..] == [2, 3];
    assert Mapped(RejectTwo, [2, 3]) == [];
  }

  /** Wrapper with RejectTwo over the chain of TestLazy. */
  method RejectTwoWrapper() returns (w: WrapIter<int, int>)
    ensures w.Valid() && fresh(w.it.Repr) && w.wrap == RejectTwo
    ensures w.it.Output() == [1, 2, 3, 1, 2, 3] && w.it.Stop().Done?
  {
    var it := new IterChain.Lazy(SimpleIterFunc, 2);
    w := new WrapIter.Wrapper(it, RejectTwo);
    SimpleIterFuncBatches();
  }

  /** Wrapper returns the map's own failure in place of the element and ends the
      collected run there. */
  method TestWrapperFailure() returns (xs: seq<int>, stop: Pull<int>)
    ensures xs == [1] && stop == Err("two")
  {
    var w := RejectTwoWrapper();
    RejectTwoMapped();
    xs, stop := w.Collect();
  }

  /** After the map's failure the next call maps the element after the failing one:
      no element is retried and none is skipped. */
  method TestWrapperResume() returns (first: Pull<int>, second: Pull<int>, third: Pull<int>)
    ensures first == Ok(1) && second == Err("two") && third == Ok(3)
  {
    var w := RejectTwoWrapper();
    first := w.Next();
    second := w.Next();
    third := w.Next();
  }

  /** Collecting again after the failure goes on from the element after the failing
      one, and ends at the next failing element. */
  method TestWrapperResumeCollect() returns (failed: Pull<int>, xs: seq<int>, stop: Pull<int>)
    ensures failed == Err("two") && xs == [3, 1] && stop == Err("two")
  {
    var w := RejectTwoWrapper();
    RejectTwoMapped();
    xs, failed := w.Collect();
    assert w.it.Output() == [3, 1, 2, 3];
    RejectTwoMappedRest();
    xs, stop := w.Collect();
  }
}
