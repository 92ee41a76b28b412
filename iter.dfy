/** The iterators of iter.go. Go's Iterator interface is not a type here: each kind of
    iterator is its own class, and a chain's outer iterator is one of the two kinds the
    library builds chains over (a slice of iterators, or the batches of Lazy).

    Empty, IterChain and WrapIter are described by two ghost views: Output(), the values
    their next calls return with Ok, in order, up to the first call that does not; and
    Stop(), what that call returns (Done or a failure). SimpleIter has only Output(),
    since it always ends with Done. ForLoopIter and BatchWrapIter have no views: their
    Next is stated in terms of the step function and its current index. */
module Iter {
  import opened Protocol
  import opened Traces

  /** `empty`: holds nothing and is exhausted from the start. */
  class Empty<T> {
    /** An empty iterator yields nothing ... */
    ghost function Output(): seq<T>
    {
      []
    }

    /** ... and ends with Done. */
    ghost function Stop(): Pull<T>
    {
      Done
    }

    /** Empty(): an iterator with no state. */
    constructor ()
      ensures Output() == [] && Stop().Done?
    {
    }

    /** Every call returns Done; with no state to change, so does every later call. */
    method Next() returns (r: Pull<T>)
      ensures r.Done? && r == Stop()
    {
      r := Done;
    }
  }

  /** `simpleIter`: a cursor over a slice. The iterator never writes the slice; the model
      holds its contents as a value taken when the iterator is made, where Go keeps the
      caller's slice itself. */
  class SimpleIter<T> {
    const cache: seq<T>
    const size: int
    var index: int

    ghost predicate Valid()
      reads this
    {
      size == |cache| && 0 <= index <= size
    }

    ghost function Output(): seq<T>
      reads this
      requires Valid()
    {
      cache[index..]
    }

    /** SimpleIter(items), and Iter(items), which builds the same value. */
    constructor (items: seq<T>)
      ensures Valid() && cache == items && index == 0
      ensures Output() == items
    {
      cache := items;
      size := |items|;
      index := 0;
    }

    /** Yields the element at the cursor and moves the cursor by one; at the end it
        returns Done and leaves the cursor where it is, on every later call too. */
    method Next() returns (r: Pull<T>)
      requires Valid()
      modifies this`index
      ensures Valid()
      ensures old(index) < size ==> r == Ok(cache[old(index)]) && index == old(index) + 1
      ensures old(index) >= size ==> r.Done? && index == old(index)
      ensures old(Output()) != [] ==> r == Ok(old(Output())[0]) && Output() == old(Output())[1..]
      ensures old(Output()) == [] ==> r.Done? && Output() == []
    {
      if index >= size {
        return Done;
      }
      r := Ok(cache[index]);
      index := index + 1;
    }

    /** Pulls until the first call that does not return Ok, collecting the values. */
    method Collect() returns (xs: seq<T>, stop: Pull<T>)
      requires Valid()
      modifies this`index
      ensures Valid()
      ensures xs == old(Output()) && stop.Done? && Output() == []
    {
      xs := [];
      while true
        invariant Valid()
        invariant xs + Output() == old(Output())
        decreases |Output()|
      {
        ghost var before := Output();
        var r := Next();
        if !r.Ok? {
          stop := r;
          return;
        }
        MoveHead(xs, before);
        xs := xs + [r.value];
      }
    }
  }

  /** The current contents of a list of slice iterators, one batch per iterator. */
  ghost function Outputs<T>(its: seq<SimpleIter<T>>): (r: seq<seq<T>>)
    reads its
    requires forall i :: 0 <= i < |its| ==> its[i].Valid()
    ensures |r| == |its|
  {
    if its == [] then [] else [its[0].Output()] + Outputs(its[1..])
  }

  /** The cursor positions of a list of slice iterators. */
  ghost function Cursors<T>(its: seq<SimpleIter<T>>): (r: seq<int>)
    reads its
    ensures |r| == |its| && forall i :: 0 <= i < |its| ==> r[i] == its[i].index
  {
    if its == [] then [] else [its[0].index] + Cursors(its[1..])
  }

  /** The objects of a list of iterators. */
  ghost function Objects<T>(its: seq<SimpleIter<T>>): set<SimpleIter<T>>
  {
    if its == [] then {} else {its[0]} + Objects(its[1..])
  }

  /** Every iterator of the list is among its objects. */
  lemma {:induction false} ObjectsHas<T>(its: seq<SimpleIter<T>>)
    ensures forall i :: 0 <= i < |its| ==> its[i] in Objects(its)
  {
    if its != [] {
      ObjectsHas(its[1..]);
      forall i | 1 <= i < |its|
        ensures its[i] in Objects(its)
      {
        assert its[i] == its[1..][i - 1];
      }
    }
  }

  lemma ObjectsPair<T>(a: SimpleIter<T>, b: SimpleIter<T>)
    ensures forall o :: o in Objects([a, b]) ==> o == a || o == b
  {
    assert [a, b][1..] == [b];
    assert [b][1..] == [];
    assert Objects([b]) == {b};
  }

  /** Chaining two slice iterators yields what is left of the first, then of the second. */
  lemma OutputsPair<T>(a: SimpleIter<T>, b: SimpleIter<T>)
    requires a.Valid() && b.Valid()
    ensures Flatten(Outputs([a, b])) == a.Output() + b.Output()
  {
    assert [a, b][1..] == [b];
    assert Outputs([a, b]) == [a.Output(), b.Output()];
    FlattenPair(a.Output(), b.Output());
  }

  /** `forLoopIter`: calls its step function with 0, 1, 2, ..., one index per call. */
  class ForLoopIter<T> {
    const meth: int -> Pull<T>
    var cur: int

    constructor (meth: int -> Pull<T>)
      ensures this.meth == meth && cur == 0
    {
      this.meth := meth;
      cur := 0;
    }

    /** Returns whatever the step function returns for the current index, and moves
        the index on by one whatever that was. */
    method Next() returns (r: Pull<T>)
      modifies this`cur
      ensures r == meth(old(cur)) && cur == old(cur) + 1
    {
      r := meth(cur);
      cur := cur + 1;
    }
  }

  /** The `wrapIter` that Lazy builds: its upstream is a ForLoopIter of batches and its
      wrap function turns each batch into a fresh slice iterator with no error. Its Next
      follows the same `wrapIter.Next` as WrapIter below; it is a class of its own because
      its upstream is a generator rather than a chain and its map allocates, so the map
      is written out in Next instead of being a field. */
  class BatchWrapIter<T> {
    const it: ForLoopIter<seq<T>>

    constructor (it: ForLoopIter<seq<T>>)
      ensures this.it == it
    {
      this.it := it;
    }

    /** A batch from upstream becomes a fresh iterator over exactly that batch;
        Done or a failure from upstream is returned as it is. */
    method Next() returns (r: Pull<SimpleIter<T>>)
      modifies it`cur
      ensures it.cur == old(it.cur) + 1
      ensures r.Ok? <==> it.meth(old(it.cur)).Ok?
      ensures r.Ok? ==> fresh(r.value) && r.value.Valid() && r.value.index == 0
                        && r.value.Output() == it.meth(old(it.cur)).value
      ensures !r.Ok? ==> r == Propagate(it.meth(old(it.cur)))
    {
      var rows := it.Next();
      if !rows.Ok? {
        return Propagate(rows);
      }
      var s := new SimpleIter(rows.value);
      r := Ok(s);
    }
  }

  /** The outer iterator of a chain: a slice of iterators (SimpleChain, Chain) or the
      batches of Lazy. */
  datatype Outer<T> = OfIters(iters: SimpleIter<SimpleIter<T>>) | OfBatches(pages: BatchWrapIter<T>)

  /** `iterChain`: flattens the iterators its outer iterator yields into one sequence.
      `cur` is the inner iterator being drained, null when a new one must be pulled. */
  class IterChain<T> {
    const its: Outer<T>
    var cur: SimpleIter?<T>
    /** For Lazy: an index from which on the step function returns no batch. */
    ghost const bound: int
    ghost var Repr: set<object>
    /** The objects the outer iterator's part of the chain lives in: the outer slice
        iterator and the inner iterators it has still to give, or Lazy's generator. */
    ghost var OuterRepr: set<object>

    /** The outer iterator is consistent: the inner iterators still to come are valid,
        pairwise distinct, distinct from the outer one and inside OuterRepr; Lazy's step
        function stops giving batches from `bound` on. */
    ghost predicate OuterValid()
      reads this`OuterRepr, OuterRepr
    {
      match its
      case OfIters(s) =>
        && s in OuterRepr
        && s.Valid()
        && (forall i :: s.index <= i < |s.cache| ==>
              s.cache[i] in OuterRepr && s.cache[i].Valid() && s.cache[i] as object != s)
        && (forall i, j :: s.index <= i < j < |s.cache| ==> s.cache[i] != s.cache[j])
      case OfBatches(b) =>
        && b.it in OuterRepr
        && 0 <= b.it.cur
        && (forall k :: bound <= k ==> !b.it.meth(k).Ok?)
    }

    ghost predicate Valid()
      reads this, Repr
    {
      && this in Repr
      && OuterRepr <= Repr
      && this !in OuterRepr
      && OuterValid()
      && (cur != null ==> cur in Repr && cur.Valid() && cur !in OuterRepr)
    }

    /** Everything the outer iterator has still to give, flattened. */
    ghost function OuterOutput(): seq<T>
      reads this`OuterRepr, OuterRepr
      requires OuterValid()
    {
      match its
      case OfIters(s) =>
        Flatten(Outputs(s.cache[s.index..]))
      case OfBatches(b) => Flatten(Batches(b.it.meth, b.it.cur, bound))
    }

    /** What is left of the current inner iterator, then what the outer one will give. */
    ghost function Output(): seq<T>
      reads this, Repr
      requires Valid()
    {
      (if cur == null then [] else cur.Output()) + OuterOutput()
    }

    /** A chain over slices ends with Done; Lazy ends with whatever the first step that
        returns no batch returns. */
    ghost function Stop(): (r: Pull<T>)
      reads this`OuterRepr, OuterRepr
      requires OuterValid()
      ensures !r.Ok?
    {
      match its
      case OfIters(_) => Done
      case OfBatches(b) => BatchesStop(b.it.meth, b.it.cur, bound)
    }

    /** How many more inner iterators the outer iterator can give. */
    ghost function OuterLeft(): nat
      reads this`OuterRepr, OuterRepr
      requires OuterValid()
    {
      match its
      case OfIters(s) => s.size - s.index
      case OfBatches(b) => if b.it.cur < bound then bound - b.it.cur else 0
    }

    /** For Lazy: the index the next outer pull passes to the step function. */
    ghost function StepIndex(): int
      requires its.OfBatches?
      reads its.pages.it
    {
      its.pages.it.cur
    }

    /** For Lazy: the first index from the current one on for which the step function
        returns no batch; 0 for a chain over slices. */
    ghost function StopIndex(): int
      reads this`OuterRepr, OuterRepr
      requires OuterValid()
    {
      match its
      case OfIters(_) => 0
      case OfBatches(b) => b.it.cur + |Batches(b.it.meth, b.it.cur, bound)|
    }

    /** SimpleChain(its...): a chain over a fresh slice iterator of the given iterators. */
    constructor SimpleChain(iters: seq<SimpleIter<T>>)
      requires forall i :: 0 <= i < |iters| ==> iters[i].Valid()
      requires forall i, j :: 0 <= i < j < |iters| ==> iters[i] != iters[j]
      ensures Valid() && fresh(Repr - Objects(iters))
      ensures its.OfIters? && Output() == Flatten(Outputs(iters))
      ensures its.iters.cache == iters && its.iters.index == 0 && cur == null
    {
      var outer := new SimpleIter(iters);
      its := OfIters(outer);
      cur := null;
      bound := 0;
      OuterRepr := {outer as object} + Objects(iters);
      Repr := {this} + OuterRepr;
      ObjectsHas(iters);
      new;
      assert outer.cache[outer.index..] == iters;
    }

    /** Chain(its): a chain over a given outer iterator of iterators. */
    constructor Chain(outer: SimpleIter<SimpleIter<T>>)
      requires outer.Valid()
      requires forall i :: outer.index <= i < |outer.cache| ==>
                 outer.cache[i].Valid() && outer.cache[i] as object != outer
      requires forall i, j :: outer.index <= i < j < |outer.cache| ==> outer.cache[i] != outer.cache[j]
      ensures Valid() && fresh(Repr - ({outer} + Objects(outer.cache)))
      ensures its.OfIters? && its.iters == outer
      ensures Output() == Flatten(Outputs(outer.cache[outer.index..]))
    {
      its := OfIters(outer);
      cur := null;
      bound := 0;
      OuterRepr := {outer as object} + Objects(outer.cache);
      Repr := {this} + OuterRepr;
      ObjectsHas(outer.cache);
    }

    /** Lazy(meth): generator, then map to slice iterators, then chain. `bound` is an index
        from which on `meth` returns no batch. */
    constructor Lazy(meth: int -> Pull<seq<T>>, ghost bound: int)
      requires forall k :: bound <= k ==> !meth(k).Ok?
      ensures Valid() && fresh(Repr)
      ensures its.OfBatches? && its.pages.it.meth == meth && this.bound == bound && StepIndex() == 0
      ensures Output() == Flatten(Batches(meth, 0, bound))
      ensures Stop() == BatchesStop(meth, 0, bound)
    {
      var loop := new ForLoopIter(meth);
      var wrap := new BatchWrapIter(loop);
      its := OfBatches(wrap);
      cur := null;
      this.bound := bound;
      OuterRepr := {loop};
      Repr := {this, wrap, loop};
    }

    /** One pull of the outer iterator, made when there is no current inner iterator.
        Done or a failure from the outer iterator ends the call with cur still null;
        otherwise the pulled iterator becomes cur and the chain's output is unchanged. */
    method PullOuter() returns (stop: bool, r: Pull<T>)
      requires Valid() && cur == null
      modifies Repr
      ensures Valid() && fresh(Repr - old(Repr))
      ensures stop ==> old(Output()) == [] && r == old(Stop()) && cur == null
      ensures stop && its.OfIters? ==> Output() == []
      ensures !stop ==> cur != null && Output() == old(Output()) && Stop() == old(Stop())
                        && OuterLeft() == old(OuterLeft()) - 1
      ensures !stop ==> StopIndex() == old(StopIndex())
      ensures stop && its.OfBatches? ==> StepIndex() == old(StopIndex()) + 1
      ensures its.OfBatches? ==> StepIndex() == old(StepIndex()) + 1
      ensures its.OfBatches? && !stop ==> its.pages.it.meth(old(StepIndex())) == Ok(cur.Output())
      ensures its.OfIters? && !stop ==>
                its.iters.index == old(its.iters.index) + 1 && cur == its.iters.cache[old(its.iters.index)]
      ensures its.OfIters? ==> forall i :: old(its.iters.index) <= i < |its.iters.cache| ==>
                its.iters.cache[i].index == old(its.iters.cache[i].index)
    {
      if its.OfIters? {
        stop, r := PullIters();
      } else {
        stop, r := PullBatches();
      }
    }

    /** PullOuter for a chain over a slice of iterators. */
    method PullIters() returns (stop: bool, r: Pull<T>)
      requires Valid() && cur == null && its.OfIters?
      modifies its.iters`index, this`cur, this`OuterRepr
      ensures Valid() && Repr == old(Repr)
      ensures stop ==> old(Output()) == [] && r == old(Stop()) && cur == null && Output() == []
      ensures !stop ==> cur != null && Output() == old(Output()) && Stop() == old(Stop())
                        && OuterLeft() == old(OuterLeft()) - 1
      ensures StopIndex() == old(StopIndex())
      ensures !stop ==> cur == its.iters.cache[old(its.iters.index)]
    {
      var s := its.iters;
      ghost var rest := s.cache[s.index..];
      ghost var outer := OuterOutput();
      var o := s.Next();
      if !o.Ok? {
        return true, Done;
      }
      var next := o.value;
      assert next == s.cache[old(s.index)] == rest[0];
      assert s.cache[s.index..] == rest[1..];
      assert Outputs(rest) == [next.Output()] + Outputs(rest[1..]);
      assert outer == next.Output() + OuterOutput();
      stop, r := false, Done;
      cur := next;
      OuterRepr := OuterRepr - {next};
    }

    /** PullOuter for Lazy: one call of the step function. */
    method PullBatches() returns (stop: bool, r: Pull<T>)
      requires Valid() && cur == null && its.OfBatches?
      modifies its.pages.it`cur, this`cur, this`Repr
      ensures Valid() && fresh(Repr - old(Repr))
      ensures stop ==> old(Output()) == [] && r == old(Stop()) && cur == null
      ensures !stop ==> cur != null && Output() == old(Output()) && Stop() == old(Stop())
                        && OuterLeft() == old(OuterLeft()) - 1
      ensures !stop ==> StopIndex() == old(StopIndex())
      ensures stop ==> StepIndex() == old(StopIndex()) + 1
      ensures StepIndex() == old(StepIndex()) + 1
      ensures !stop ==> its.pages.it.meth(old(StepIndex())) == Ok(cur.Output())
    {
      var o := its.pages.Next();
      if !o.Ok? {
        return true, Propagate(o);
      }
      stop, r := false, Done;
      cur := o.value;
      Repr := Repr + {cur};
    }

    /** What is left of the current inner iterator, plus one while there is one. */
    ghost function CurLeft(): nat
      reads this, Repr
      requires Valid()
    {
      if cur == null then 0 else 1 + |cur.Output()|
    }

    /** One pull of the current inner iterator. Exactly Done discards it (cur becomes
        null) and changes nothing the chain yields; an element is the chain's next. */
    method PullInner() returns (x: Pull<T>)
      requires Valid() && cur != null
      modifies this`cur, cur`index
      ensures Valid() && Repr == old(Repr)
      ensures Stop() == old(Stop()) && OuterLeft() == old(OuterLeft())
      ensures StopIndex() == old(StopIndex())
      ensures !x.Ok? ==> x.Done? && cur == null && Output() == old(Output())
                         && CurLeft() < old(CurLeft())
      ensures x.Ok? ==> old(Output()) != [] && x == Ok(old(Output())[0])
                        && Output() == old(Output())[1..] && cur == old(cur)
      ensures old(cur.Output()) != [] ==> x.Ok?
      ensures x.Done? ==> old(cur.Output()) == [] && old(cur).index == old(cur.index) == old(cur).size
      ensures its.OfIters? ==> forall i :: its.iters.index <= i < |its.iters.cache| ==>
                its.iters.cache[i].index == old(its.iters.cache[i].index)
    {
      ghost var before := cur.Output();
      ghost var outer := OuterOutput();
      x := cur.Next();
      assert OuterOutput() == outer;
      if x.Done? {
        cur := null;
      } else {
        assert before + outer == [before[0]] + (before[1..] + outer);
      }
    }

    /** Within one call of Next that started at step index `step` (Lazy), or at outer
        index `index` with the inner iterators' cursors at `starts` (slices): every inner
        iterator pulled and dropped so far was empty, the ones still to come are
        untouched, and a current inner iterator means nothing was pulled yet and that
        the call started with one (`kept`). */
    ghost predicate Skipped(step: int, index: int, starts: seq<int>, kept: bool)
      reads this`cur, this`OuterRepr, OuterRepr
      requires OuterValid()
    {
      && (cur != null ==> kept)
      && match its
      case OfBatches(b) =>
        && step <= b.it.cur
        && (cur != null ==> b.it.cur == step)
        && (forall k :: step <= k < b.it.cur ==> b.it.meth(k) == Ok([]))
      case OfIters(s) =>
        && |starts| == |s.cache|
        && 0 <= index <= s.index
        && (cur != null ==> s.index == index)
        && (forall i :: s.index <= i < |s.cache| ==> s.cache[i].index == starts[i])
        && (forall i :: index <= i < s.index ==> starts[i] == s.cache[i].size)
    }

    /** The pass of Next's loop that starts without an inner iterator: pulls the outer
        iterator, then the inner iterator it gave. When that one returns Done, it was
        empty and is dropped, and the call goes on (not done). */
    method NextFresh(ghost step: int, ghost index: int, ghost starts: seq<int>, ghost kept: bool) returns (done: bool, r: Pull<T>)
      requires Valid() && cur == null && Skipped(step, index, starts, kept)
      modifies Repr
      ensures Valid() && fresh(Repr - old(Repr))
      ensures done && old(Output()) != [] ==>
                r == Ok(old(Output())[0]) && Output() == old(Output())[1..] && Stop() == old(Stop())
                && StopIndex() == old(StopIndex())
      ensures done && old(Output()) == [] ==> r == old(Stop()) && cur == null
      ensures done && old(Output()) == [] && its.OfIters? ==> Output() == []
      ensures done && old(Output()) == [] && its.OfBatches? ==> StepIndex() == old(StopIndex()) + 1
      ensures !done ==> cur == null && Output() == old(Output()) && Stop() == old(Stop())
                        && StopIndex() == old(StopIndex()) && Skipped(step, index, starts, kept)
                        && OuterLeft() < old(OuterLeft())
      ensures r.Ok? && its.OfBatches? ==>
                forall k :: step <= k < StepIndex() - 1 ==> its.pages.it.meth(k) == Ok([])
      ensures r.Ok? && its.OfIters? ==>
                0 <= index && |starts| == |its.iters.cache|
                && forall i :: index <= i < its.iters.index - 1 ==> starts[i] == its.iters.cache[i].size
      ensures r.Ok? && its.OfBatches? ==> step < StepIndex()
      ensures r.Ok? && its.OfIters? ==>
                index < its.iters.index
                && forall i :: its.iters.index <= i < |its.iters.cache| ==> its.iters.cache[i].index == starts[i]
    {
      var stop;
      stop, r := PullOuter();
      if stop {
        return true, r;
      }
      var x := PullInner();
      if !x.Done? {
        return true, x;
      }
      done, r := false, x;
    }

    /** One pass of Next's loop: pulls a new inner iterator if there is none, then
        pulls the inner one. The pass ends the call (done) unless the inner iterator
        returns Done; then it is dropped, and it was empty. */
    method NextOnce(ghost step: int, ghost index: int, ghost starts: seq<int>, ghost kept: bool) returns (done: bool, r: Pull<T>)
      requires Valid() && Skipped(step, index, starts, kept)
      modifies Repr
      ensures Valid() && fresh(Repr - old(Repr))
      ensures done && old(Output()) != [] ==>
                r == Ok(old(Output())[0]) && Output() == old(Output())[1..] && Stop() == old(Stop())
                && StopIndex() == old(StopIndex())
      ensures done && old(Output()) == [] ==> r == old(Stop()) && cur == null
      ensures done && old(Output()) == [] && its.OfIters? ==> Output() == []
      ensures done && old(Output()) == [] && its.OfBatches? ==> StepIndex() == old(StopIndex()) + 1
      ensures !done ==> cur == null && Output() == old(Output()) && Stop() == old(Stop())
                        && StopIndex() == old(StopIndex()) && Skipped(step, index, starts, kept)
      ensures !done ==> OuterLeft() < old(OuterLeft())
                        || (OuterLeft() == old(OuterLeft()) && CurLeft() < old(CurLeft()))
      ensures old(cur) != null && old(cur.Output()) != [] ==>
                done && cur == old(cur)
                && (its.OfBatches? ==> StepIndex() == step)
                && (its.OfIters? ==> its.iters.index == index)
      ensures r.Ok? && its.OfBatches? ==>
                forall k :: step <= k < StepIndex() - 1 ==> its.pages.it.meth(k) == Ok([])
      ensures r.Ok? && its.OfIters? ==>
                0 <= index && |starts| == |its.iters.cache|
                && forall i :: index <= i < its.iters.index - 1 ==> starts[i] == its.iters.cache[i].size
      ensures r.Ok? && old(cur) == null && its.OfBatches? ==> step < StepIndex()
      ensures r.Ok? && old(cur) == null && its.OfIters? ==> index < its.iters.index
      ensures r.Ok? && its.OfIters? ==>
                forall i :: its.iters.index <= i < |its.iters.cache| ==> its.iters.cache[i].index == starts[i]
    {
      if cur == null {
        done, r := NextFresh(step, index, starts, kept);
        return;
      }
      var x := PullInner();
      if !x.Done? {
        return true, x;
      }
      done, r := false, x;
    }

    /** Pulls a new inner iterator whenever there is none, discards the current one
        when it returns Done and pulls again; returns the first element found, or
        whatever the outer iterator returns in place of an iterator. The outer iterator
        is pulled only once the current inner one is exhausted, and every inner iterator
        pulled and discarded during the call was empty. */
    method Next() returns (r: Pull<T>)
      requires Valid()
      modifies Repr
      ensures Valid() && fresh(Repr - old(Repr))
      ensures old(Output()) != [] ==>
                r == Ok(old(Output())[0]) && Output() == old(Output())[1..] && Stop() == old(Stop())
      ensures old(Output()) == [] ==> r == old(Stop()) && cur == null
      ensures old(Output()) == [] && its.OfIters? ==> Output() == []
      ensures old(Output()) != [] ==> StopIndex() == old(StopIndex())
      ensures old(Output()) == [] && its.OfBatches? ==> StepIndex() == old(StopIndex()) + 1
      ensures old(cur) != null && old(cur.Output()) != [] ==>
                cur == old(cur)
                && (its.OfBatches? ==> StepIndex() == old(StepIndex()))
                && (its.OfIters? ==> its.iters.index == old(its.iters.index))
      ensures r.Ok? && its.OfBatches? ==>
                forall k :: old(StepIndex()) <= k < StepIndex() - 1 ==> its.pages.it.meth(k) == Ok([])
      ensures r.Ok? && its.OfIters? ==>
                forall i :: old(its.iters.index) <= i < its.iters.index - 1 ==>
                  old(its.iters.cache[i].index) == its.iters.cache[i].size
      ensures r.Ok? && old(cur) == null && its.OfBatches? ==> old(StepIndex()) < StepIndex()
      ensures r.Ok? && old(cur) == null && its.OfIters? ==> old(its.iters.index) < its.iters.index
      ensures r.Ok? && its.OfIters? ==> forall i :: its.iters.index <= i < |its.iters.cache| ==>
                its.iters.cache[i].index == old(its.iters.cache[i].index)
    {
      ghost var keep := cur != null && cur.Output() != [];
      ghost var out, last, stopIndex := Output(), Stop(), StopIndex();
      ghost var step := if its.OfBatches? then StepIndex() else 0;
      ghost var index := if its.OfIters? then its.iters.index else 0;
      ghost var starts := if its.OfIters? then Cursors(its.iters.cache) else [];
      ghost var kept := cur != null;
      while true
        invariant Valid() && fresh(Repr - old(Repr))
        invariant Output() == out && Stop() == last && StopIndex() == stopIndex
        invariant keep ==> cur == old(cur) && cur.Output() == old(cur.Output())
        invariant Skipped(step, index, starts, kept)
        decreases OuterLeft(), CurLeft()
      {
        var done;
        done, r := NextOnce(step, index, starts, kept);
        if done {
          return;
        }
      }
    }

    /** Pulls until the first call that does not return Ok, collecting the values. */
    method Collect() returns (xs: seq<T>, stop: Pull<T>)
      requires Valid()
      modifies Repr
      ensures Valid() && fresh(Repr - old(Repr))
      ensures xs == old(Output()) && stop == old(Stop()) && cur == null
      ensures its.OfIters? ==> Output() == []
      ensures its.OfBatches? ==> StepIndex() == old(StopIndex()) + 1
    {
      xs := [];
      while true
        invariant Valid() && fresh(Repr - old(Repr))
        invariant xs + Output() == old(Output()) && Stop() == old(Stop())
        invariant StopIndex() == old(StopIndex())
        decreases |Output()|
      {
        ghost var before := Output();
        var r := Next();
        if !r.Ok? {
          stop := r;
          return;
        }
        MoveHead(xs, before);
        xs := xs + [r.value];
      }
    }
  }

  /** `wrapIter` built by Wrapper: maps each element of an upstream chain with `wrap`. */
  class WrapIter<T, R> {
    const it: IterChain<T>
    const wrap: T -> Pull<R>

    constructor Wrapper(it: IterChain<T>, wrap: T -> Pull<R>)
      ensures this.it == it && this.wrap == wrap
    {
      this.it := it;
      this.wrap := wrap;
    }

    ghost predicate Valid()
      reads it, it.Repr
    {
      it.Valid()
    }

    ghost function Output(): seq<R>
      reads it, it.Repr
      requires Valid()
    {
      Mapped(wrap, it.Output())
    }

    ghost function Stop(): (r: Pull<R>)
      reads it, it.Repr
      requires Valid()
      ensures !r.Ok?
    {
      MappedStop(wrap, it.Output(), it.Stop())
    }

    /** Done or a failure from upstream is returned as it is, without calling wrap;
        otherwise the result is exactly wrap of the upstream element, failure included. */
    method Next() returns (r: Pull<R>)
      requires Valid()
      modifies it.Repr
      ensures Valid() && fresh(it.Repr - old(it.Repr))
      ensures old(it.Output()) == [] ==> r == Propagate(old(it.Stop()))
      ensures old(it.Output()) != [] ==>
                r == wrap(old(it.Output())[0]) && it.Output() == old(it.Output())[1..]
      ensures old(Output()) != [] ==>
                r == Ok(old(Output())[0]) && Output() == old(Output())[1..] && Stop() == old(Stop())
      ensures old(Output()) == [] ==> r == old(Stop())
      ensures old(it.Output()) != [] ==> it.Stop() == old(it.Stop()) && it.StopIndex() == old(it.StopIndex())
      ensures old(it.Output()) == [] ==> it.cur == null
      ensures old(it.Output()) == [] && it.its.OfIters? ==> it.Output() == []
      ensures old(it.Output()) == [] && it.its.OfBatches? ==> it.StepIndex() == old(it.StopIndex()) + 1
    {
      var up := it.Next();
      if !up.Ok? {
        return Propagate(up);
      }
      r := wrap(up.value);
    }

    /** Pulls until the first call that does not return Ok, collecting the values. */
    method Collect() returns (xs: seq<R>, stop: Pull<R>)
      requires Valid()
      modifies it.Repr
      ensures Valid() && fresh(it.Repr - old(it.Repr))
      ensures xs == old(Output()) && stop == old(Stop())
      ensures |xs| < |old(it.Output())| ==>
                it.Output() == old(it.Output())[|xs| + 1..] && it.Stop() == old(it.Stop())
      ensures |xs| == |old(it.Output())| ==> it.cur == null
      ensures |xs| == |old(it.Output())| && it.its.OfIters? ==> it.Output() == []
      ensures |xs| == |old(it.Output())| && it.its.OfBatches? ==> it.StepIndex() == old(it.StopIndex()) + 1
    {
      xs := [];
      ghost var taken: seq<T> := [];
      ghost var up, upStop, upStopIndex := it.Output(), it.Stop(), it.StopIndex();
      while true
        invariant Valid() && fresh(it.Repr - old(it.Repr))
        invariant xs + Output() == old(Output()) && Stop() == old(Stop())
        invariant up == taken + it.Output() && |taken| == |xs|
        invariant it.Stop() == upStop && it.StopIndex() == upStopIndex
        decreases |Output()|
      {
        ghost var before, upBefore := Output(), it.Output();
        var r := Next();
        if !r.Ok? {
          stop := r;
          if upBefore != [] {
            MoveHead(taken, upBefore);
            assert up[|xs| + 1..] == it.Output();
          }
          return;
        }
        MoveHead(xs, before);
        MoveHead(taken, upBefore);
        xs, taken := xs + [r.value], taken + [upBefore[0]];
      }
    }
  }
}
