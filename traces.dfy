/** Value-level descriptions of what the iterators yield: the flat sequence of a chain,
    the batches of an index-driven generator, and the output of a map combinator. */
module Traces {
  import opened Protocol

  /** The elements of the batches, batch after batch, each in its own order. */
  function Flatten<T>(xss: seq<seq<T>>): seq<T>
  {
    if xss == [] then [] else xss[0] + Flatten(xss[1..])
  }

  /** The sum of the lengths of the batches. */
  function TotalLength<T>(xss: seq<seq<T>>): nat
  {
    if xss == [] then 0 else |xss[0]| + TotalLength(xss[1..])
  }

  /** Moving the head of `ys` to the end of `xs` keeps the concatenation. */
  lemma MoveHead<T>(xs: seq<T>, ys: seq<T>)
    requires ys != []
    ensures (xs + [ys[0]]) + ys[1..] == xs + ys
  {
    assert ys == [ys[0]] + ys[1..];
  }

  /** Flattening distributes over concatenation of the batch lists. */
  lemma {:induction false} FlattenAppend<T>(a: seq<seq<T>>, b: seq<seq<T>>)
    ensures Flatten(a + b) == Flatten(a) + Flatten(b)
  {
    if a == [] {
      assert a + b == b;
    } else {
      assert (a + b)[1..] == a[1..] + b;
      FlattenAppend(a[1..], b);
    }
  }

  /** The flat sequence has exactly as many elements as all batches together. */
  lemma {:induction false} FlattenLength<T>(xss: seq<seq<T>>)
    ensures |Flatten(xss)| == TotalLength(xss)
  {
    if xss != [] {
      FlattenLength(xss[1..]);
    }
  }

  /** Element j of batch i sits in the flat sequence right after all elements of the
      earlier batches: nothing is skipped and the order of both levels is kept. */
  lemma {:induction false} FlattenAt<T>(xss: seq<seq<T>>, i: nat, j: nat)
    requires i < |xss| && j < |xss[i]|
    ensures TotalLength(xss[..i]) + j < |Flatten(xss)|
    ensures Flatten(xss)[TotalLength(xss[..i]) + j] == xss[i][j]
  {
    if i == 0 {
      assert xss[..i] == [];
    } else {
      FlattenAt(xss[1..], i - 1, j);
      assert xss[..i][1..] == xss[1..][..i - 1];
      assert xss[..i][0] == xss[0];
    }
  }

  /** Two batches flatten to the first followed by the second. */
  lemma FlattenPair<T>(a: seq<T>, b: seq<T>)
    ensures Flatten([a, b]) == a + b
  {
    assert [a, b][1..] == [b];
    assert [b][1..] == [];
    assert Flatten([b]) == b + Flatten([]);
    assert b + [] == b;
  }

  /** An empty batch anywhere in the list contributes nothing. */
  lemma FlattenSkipsEmpty<T>(a: seq<seq<T>>, b: seq<seq<T>>)
    ensures Flatten(a + [[]] + b) == Flatten(a + b)
  {
    FlattenAppend(a + [[]], b);
    FlattenAppend(a, [[]]);
    FlattenAppend(a, b);
    var e: seq<T> := [];
    assert Flatten([e]) == [];
    assert a + [[]] + b == (a + [e]) + b;
  }

  /** The batches that `meth(from)`, `meth(from + 1)`, ... return, up to and not including
      the first call that returns no batch. `bound` is an index from which on `meth`
      returns no batch, so the list is finite. */
  function Batches<T>(meth: int -> Pull<seq<T>>, from: int, bound: int): seq<seq<T>>
    requires forall k :: bound <= k ==> !meth(k).Ok?
    decreases bound - from
  {
    if meth(from).Ok? then [meth(from).value] + Batches(meth, from + 1, bound) else []
  }

  /** The result of that first call that returns no batch, as an element-level result. */
  function BatchesStop<T>(meth: int -> Pull<seq<T>>, from: int, bound: int): (r: Pull<T>)
    requires forall k :: bound <= k ==> !meth(k).Ok?
    ensures !r.Ok?
    decreases bound - from
  {
    if meth(from).Ok? then BatchesStop(meth, from + 1, bound) else Propagate(meth(from))
  }

  /** Batches is exactly the run of successful calls from `from` on, and BatchesStop
      is what the first unsuccessful call returns. */
  lemma {:induction false} BatchesMeaning<T>(meth: int -> Pull<seq<T>>, from: int, bound: int)
    requires forall k :: bound <= k ==> !meth(k).Ok?
    ensures var bs := Batches(meth, from, bound);
      && (forall i :: 0 <= i < |bs| ==> meth(from + i) == Ok(bs[i]))
      && !meth(from + |bs|).Ok?
      && BatchesStop(meth, from, bound) == Propagate(meth(from + |bs|))
    decreases bound - from
  {
    if meth(from).Ok? {
      BatchesMeaning(meth, from + 1, bound);
      var bs := Batches(meth, from, bound);
      var rest := Batches(meth, from + 1, bound);
      assert bs == [meth(from).value] + rest;
      forall i | 0 <= i < |bs|
        ensures meth(from + i) == Ok(bs[i])
      {
        if i > 0 {
          assert bs[i] == rest[i - 1];
          assert from + i == (from + 1) + (i - 1);
        }
      }
      assert from + |bs| == (from + 1) + |rest|;
    }
  }

  /** What a map combinator yields over upstream elements `xs`: the mapped values,
      up to and not including the first element whose mapping fails. */
  function Mapped<T, R>(wrap: T -> Pull<R>, xs: seq<T>): seq<R>
  {
    if xs == [] || !wrap(xs[0]).Ok? then [] else [wrap(xs[0]).value] + Mapped(wrap, xs[1..])
  }

  /** The non-Ok result that follows Mapped: the first failing mapping, or the
      upstream's own end `stop` when every element maps. */
  function MappedStop<T, R>(wrap: T -> Pull<R>, xs: seq<T>, stop: Pull<T>): (r: Pull<R>)
    requires !stop.Ok?
    ensures !r.Ok?
  {
    if xs == [] then Propagate(stop)
    else if wrap(xs[0]).Ok? then MappedStop(wrap, xs[1..], stop)
    else wrap(xs[0])
  }

  /** Mapped is the run of successful mappings from the front of `xs`; after it comes
      either the first failing mapping or, if there is none, the upstream's end. */
  lemma {:induction false} MappedMeaning<T, R>(wrap: T -> Pull<R>, xs: seq<T>, stop: Pull<T>)
    requires !stop.Ok?
    ensures var n := |Mapped(wrap, xs)|;
      && n <= |xs|
      && (forall i :: 0 <= i < n ==> wrap(xs[i]) == Ok(Mapped(wrap, xs)[i]))
      && (n < |xs| ==> !wrap(xs[n]).Ok? && MappedStop(wrap, xs, stop) == wrap(xs[n]))
      && (n == |xs| ==> MappedStop(wrap, xs, stop) == Propagate(stop))
  {
    if xs != [] && wrap(xs[0]).Ok? {
      MappedMeaning(wrap, xs[1..], stop);
      var ms := Mapped(wrap, xs);
      var rest := Mapped(wrap, xs[1..]);
      assert ms == [wrap(xs[0]).value] + rest;
      forall i | 0 <= i < |ms|
        ensures wrap(xs[i]) == Ok(ms[i])
      {
        if i > 0 {
          assert ms[i] == rest[i - 1];
          assert xs[i] == xs[1..][i - 1];
        }
      }
      if |ms| < |xs| {
        assert xs[|ms|] == xs[1..][|rest|];
      }
    }
  }

  /** After the first k mappings have succeeded, what the map yields from there on, and
      how it ends, are those of the rest of the upstream elements. */
  lemma {:induction false} MappedSkip<T, R>(wrap: T -> Pull<R>, xs: seq<T>, k: nat, stop: Pull<T>)
    requires !stop.Ok? && k <= |Mapped(wrap, xs)|
    ensures k <= |xs|
    ensures Mapped(wrap, xs[k..]) == Mapped(wrap, xs)[k..]
    ensures MappedStop(wrap, xs[k..], stop) == MappedStop(wrap, xs, stop)
    decreases k
  {
    if k > 0 {
      MappedSkip(wrap, xs[1..], k - 1, stop);
      assert xs[1..][k - 1..] == xs[k..];
    }
  }

  /** A mapping that never fails maps every element and then passes the upstream's
      end on unchanged. */
  lemma {:induction false} MappedTotal<T, R>(wrap: T -> Pull<R>, xs: seq<T>, stop: Pull<T>)
    requires !stop.Ok?
    requires forall i :: 0 <= i < |xs| ==> wrap(xs[i]).Ok?
    ensures |Mapped(wrap, xs)| == |xs|
    ensures forall i :: 0 <= i < |xs| ==> Mapped(wrap, xs)[i] == wrap(xs[i]).value
    ensures MappedStop(wrap, xs, stop) == Propagate(stop)
  {
    MappedMeaning(wrap, xs, stop);
  }
}
