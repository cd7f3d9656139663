/**
 * Order-preserving list builders shared by the key-resolution code. Each is defined on the
 * prefix of its input and its last element, the way a loop that appends builds its list.
 */
module Collections {
  import opened Results

  /** A non-empty sequence is its prefix followed by its last element. */
  lemma SplitLast<T>(xs: seq<T>)
    requires |xs| > 0
    ensures xs == xs[..|xs| - 1] + [xs[|xs| - 1]]
  {
  }

  /** Appending an empty sequence changes nothing. */
  lemma AppendEmpty<T>(xs: seq<T>, ys: seq<T>)
    requires |ys| == 0
    ensures xs + ys == xs
  {
  }

  /** Concatenation is associative. */
  lemma AppendAssoc<T>(xs: seq<T>, ys: seq<T>, zs: seq<T>)
    ensures (xs + ys) + zs == xs + (ys + zs)
  {
  }

  /** Appending one element keeps the earlier ones as the prefix. */
  lemma SnocPrefix<T>(xs: seq<T>, x: T)
    ensures (xs + [x])[..|xs|] == xs
    ensures (xs + [x])[|xs|] == x
  {
  }

  /** Appending one element to a concatenation appends it to the second part. */
  lemma SnocAssoc<T>(xs: seq<T>, ys: seq<T>, y: T)
    ensures xs + (ys + [y]) == (xs + ys) + [y]
  {
  }

  /** Updating an element of the prefix leaves the last element in place. */
  lemma UpdateSnoc<T>(init: seq<T>, last: T, i: nat, v: T)
    requires i <= |init|
    ensures i < |init| ==> (init + [last])[i := v] == init[i := v] + [last]
    ensures i == |init| ==> (init + [last])[i := v] == init + [v]
  {
  }

  /** The `Some` results of `f` over `xs`, in the order of `xs`; `None` results are dropped. */
  function FilterMap<A, C>(xs: seq<A>, f: A -> Option<C>): (r: seq<C>)
    ensures |r| <= |xs|
  {
    if |xs| == 0 then [] else FilterMap(xs[..|xs| - 1], f) + AsSeq(f(xs[|xs| - 1]))
  }

  /** Exactly the `Some` results of `f` over `xs` appear in the list. */
  lemma {:induction false} FilterMapMember<A, C>(xs: seq<A>, f: A -> Option<C>, c: C)
    ensures c in FilterMap(xs, f) <==> exists i :: 0 <= i < |xs| && f(xs[i]) == Some(c)
  {
    if |xs| > 0 {
      var init := xs[..|xs| - 1];
      FilterMapMember(init, f, c);
      if c in FilterMap(xs, f) && c !in FilterMap(init, f) {
        assert f(xs[|xs| - 1]) == Some(c);
      }
      if exists i :: 0 <= i < |xs| && f(xs[i]) == Some(c) {
        var i :| 0 <= i < |xs| && f(xs[i]) == Some(c);
        if i < |xs| - 1 {
          assert f(init[i]) == Some(c);
        }
      }
    }
  }

  /** One more element appends its result, if any, at the end. */
  lemma FilterMapSnoc<A, C>(xs: seq<A>, x: A, f: A -> Option<C>)
    ensures FilterMap(xs + [x], f) == FilterMap(xs, f) + AsSeq(f(x))
  {
    assert (xs + [x])[..|xs|] == xs;
  }

  /** Filtering a concatenation concatenates the filtered parts, in order. */
  lemma {:induction false} FilterMapConcat<A, C>(xs: seq<A>, ys: seq<A>, f: A -> Option<C>)
    ensures FilterMap(xs + ys, f) == FilterMap(xs, f) + FilterMap(ys, f)
  {
    if |ys| == 0 {
      AppendEmpty(xs, ys);
    } else {
      var init, last := ys[..|ys| - 1], ys[|ys| - 1];
      SplitLast(ys);
      SnocAssoc(xs, init, last);
      FilterMapConcat(xs, init, f);
      FilterMapSnoc(xs + init, last, f);
      FilterMapSnoc(init, last, f);
      AppendAssoc(FilterMap(xs, f), FilterMap(init, f), AsSeq(f(last)));
    }
  }

  /** The indices at which `f` gives a result. */
  function Hits<A, C>(xs: seq<A>, f: A -> Option<C>): set<int>
  {
    set i | 0 <= i < |xs| && f(xs[i]).Some?
  }

  /** The list holds one element per input for which `f` gives a result, and nothing else. */
  lemma {:induction false} FilterMapLength<A, C>(xs: seq<A>, f: A -> Option<C>)
    ensures |FilterMap(xs, f)| == |Hits(xs, f)|
  {
    if |xs| > 0 {
      var n := |xs| - 1;
      var init := xs[..n];
      FilterMapLength(init, f);
      if f(xs[n]).Some? {
        assert Hits(xs, f) == Hits(init, f) + {n};
        assert n !in Hits(init, f);
      } else {
        assert Hits(xs, f) == Hits(init, f);
      }
    }
  }

  /**
   * Runs `f` over `xs` in order and stops at the first failure; otherwise the `Some` results,
   * in order. This is a loop that appends every non-null result and lets exceptions escape.
   */
  function CollectAll<A, C, E>(xs: seq<A>, f: A -> Result<Option<C>, E>): (r: Result<seq<C>, E>)
    ensures r.Ok? ==> |r.value| <= |xs|
    ensures r.Ok? <==> forall i :: 0 <= i < |xs| ==> f(xs[i]).Ok?
  {
    if |xs| == 0 then Ok([])
    else
      match CollectAll(xs[..|xs| - 1], f)
      case Err(e) => Err(e)
      case Ok(cs) =>
        match f(xs[|xs| - 1])
        case Err(e) => Err(e)
        case Ok(o) => Ok(cs + AsSeq(o))
  }

  /** A failure reported by `CollectAll` is the one of the first failing element. */
  lemma {:induction false} CollectAllFirstError<A, C, E>(xs: seq<A>, f: A -> Result<Option<C>, E>)
    requires CollectAll(xs, f).Err?
    ensures exists i :: 0 <= i < |xs| && f(xs[i]) == Err(CollectAll(xs, f).error)
                        && forall j :: 0 <= j < i ==> f(xs[j]).Ok?
  {
    var n := |xs| - 1;
    var init := xs[..n];
    if CollectAll(init, f).Err? {
      CollectAllFirstError(init, f);
      var i :| 0 <= i < |init| && f(init[i]) == Err(CollectAll(init, f).error)
               && forall j :: 0 <= j < i ==> f(init[j]).Ok?;
      assert forall j :: 0 <= j < i ==> f(xs[j]).Ok? by {
        forall j | 0 <= j < i ensures f(xs[j]).Ok? { assert f(init[j]).Ok?; }
      }
      assert f(xs[i]) == Err(CollectAll(xs, f).error);
    } else {
      assert forall j :: 0 <= j < n ==> f(xs[j]).Ok? by {
        forall j | 0 <= j < n ensures f(xs[j]).Ok? { assert f(init[j]).Ok?; }
      }
    }
  }

  /** Once a prefix fails, the whole run fails with the same error. */
  lemma {:induction false} CollectAllPrefixError<A, C, E>(xs: seq<A>, k: nat, f: A -> Result<Option<C>, E>)
    requires k <= |xs|
    requires CollectAll(xs[..k], f).Err?
    ensures CollectAll(xs, f) == CollectAll(xs[..k], f)
    decreases |xs| - k
  {
    if k < |xs| {
      assert xs[..k + 1][..k] == xs[..k];
      CollectAllPrefixError(xs, k + 1, f);
    } else {
      assert xs[..k] == xs;
    }
  }

  /** The indices whose element resolves to a value without failing. */
  function Resolved<A, C, E>(xs: seq<A>, f: A -> Result<Option<C>, E>): set<int>
  {
    set i | 0 <= i < |xs| && f(xs[i]).Ok? && f(xs[i]).value.Some?
  }

  /** A successful run holds one element per input that resolves to a value, and nothing else. */
  lemma {:induction false} CollectAllLength<A, C, E>(xs: seq<A>, f: A -> Result<Option<C>, E>)
    requires CollectAll(xs, f).Ok?
    ensures |CollectAll(xs, f).value| == |Resolved(xs, f)|
  {
    if |xs| > 0 {
      var n := |xs| - 1;
      var init := xs[..n];
      CollectAllLength(init, f);
      if f(xs[n]).value.Some? {
        assert Resolved(xs, f) == Resolved(init, f) + {n};
        assert n !in Resolved(init, f);
      } else {
        assert Resolved(xs, f) == Resolved(init, f);
      }
    }
  }

  /** A successful run yields exactly the non-null results of its elements. */
  lemma {:induction false} CollectAllMember<A, C, E>(xs: seq<A>, f: A -> Result<Option<C>, E>, c: C)
    requires CollectAll(xs, f).Ok?
    ensures c in CollectAll(xs, f).value <==> exists i :: 0 <= i < |xs| && f(xs[i]) == Ok(Some(c))
  {
    if |xs| > 0 {
      var n := |xs| - 1;
      var init := xs[..n];
      CollectAllMember(init, f, c);
      if exists i :: 0 <= i < |xs| && f(xs[i]) == Ok(Some(c)) {
        var i :| 0 <= i < |xs| && f(xs[i]) == Ok(Some(c));
        if i < n {
          assert f(init[i]) == Ok(Some(c));
        }
      }
    }
  }

  /** Runs `f` over `xs` in order and stops at the first failure; otherwise all results, in order. */
  function Traverse<A, B, E>(xs: seq<A>, f: A -> Result<B, E>): (r: Result<seq<B>, E>)
    ensures r.Ok? ==> |r.value| == |xs| && forall i :: 0 <= i < |xs| ==> f(xs[i]) == Ok(r.value[i])
    ensures r.Ok? <==> forall i :: 0 <= i < |xs| ==> f(xs[i]).Ok?
  {
    if |xs| == 0 then Ok([])
    else
      match Traverse(xs[..|xs| - 1], f)
      case Err(e) => Err(e)
      case Ok(bs) =>
        match f(xs[|xs| - 1])
        case Err(e) => Err(e)
        case Ok(b) => Ok(bs + [b])
  }

  /** A failure reported by `Traverse` is the one of the first failing element. */
  lemma {:induction false} TraverseFirstError<A, B, E>(xs: seq<A>, f: A -> Result<B, E>)
    requires Traverse(xs, f).Err?
    ensures exists i :: 0 <= i < |xs| && f(xs[i]) == Err(Traverse(xs, f).error)
                        && forall j :: 0 <= j < i ==> f(xs[j]).Ok?
  {
    var n := |xs| - 1;
    var init := xs[..n];
    if Traverse(init, f).Err? {
      TraverseFirstError(init, f);
      var i :| 0 <= i < |init| && f(init[i]) == Err(Traverse(init, f).error)
               && forall j :: 0 <= j < i ==> f(init[j]).Ok?;
      assert forall j :: 0 <= j < i ==> f(xs[j]).Ok? by {
        forall j | 0 <= j < i ensures f(xs[j]).Ok? { assert f(init[j]).Ok?; }
      }
      assert f(xs[i]) == Err(Traverse(xs, f).error);
    } else {
      assert forall j :: 0 <= j < n ==> f(xs[j]).Ok? by {
        forall j | 0 <= j < n ensures f(xs[j]).Ok? { assert f(init[j]).Ok?; }
      }
    }
  }

  /** Once a prefix fails, the whole traversal fails with the same error. */
  lemma {:induction false} TraversePrefixError<A, B, E>(xs: seq<A>, k: nat, f: A -> Result<B, E>)
    requires k <= |xs|
    requires Traverse(xs[..k], f).Err?
    ensures Traverse(xs, f) == Traverse(xs[..k], f)
    decreases |xs| - k
  {
    if k < |xs| {
      assert xs[..k + 1][..k] == xs[..k];
      TraversePrefixError(xs, k + 1, f);
    } else {
      assert xs[..k] == xs;
    }
  }
}
