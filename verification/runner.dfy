/** The transformation runners `run_transformations` and
    `arun_transformations`: a left fold of an ordered list of steps over a
    batch of nodes. A step is any value `S` together with the function that
    applies it to a whole batch (a `TransformComponent`'s `__call__`, or its
    `acall` awaited to completion). */
module Runner {
  import opened Schema

  /** Reference definition: the first step consumes the whole input batch,
      each following step consumes the whole output of the one before it. */
  function Fold<S>(nodes: seq<Node>, steps: seq<S>, apply: (S, seq<Node>) -> seq<Node>): seq<Node>
    decreases |steps|
  {
    if |steps| == 0 then nodes else Fold(apply(steps[0], nodes), steps[1..], apply)
  }

  /** Running `a` and then `b` is running `a + b`. */
  lemma {:induction false} FoldAppend<S>(nodes: seq<Node>, a: seq<S>, b: seq<S>, apply: (S, seq<Node>) -> seq<Node>)
    ensures Fold(nodes, a + b, apply) == Fold(Fold(nodes, a, apply), b, apply)
    decreases |a|
  {
    if |a| == 0 {
      assert a + b == b;
    } else {
      assert (a + b)[0] == a[0];
      assert (a + b)[1..] == a[1..] + b;
      FoldAppend(apply(a[0], nodes), a[1..], b, apply);
    }
  }

  /** The last step of the list is applied last, to the complete output of
      all the steps before it. */
  lemma FoldLast<S>(nodes: seq<Node>, steps: seq<S>, last: S, apply: (S, seq<Node>) -> seq<Node>)
    ensures Fold(nodes, steps + [last], apply) == apply(last, Fold(nodes, steps, apply))
  {
    FoldAppend(nodes, steps, [last], apply);
    var mid := Fold(nodes, steps, apply);
    assert Fold(mid, [last], apply) == Fold(apply(last, mid), [], apply);
  }

  /** `run_transformations`: apply the steps in list order; `in_place` only
      decides whether the outer list is copied first, which never changes the
      value returned. */
  method RunTransformations<S>(nodes: seq<Node>, steps: seq<S>, call: (S, seq<Node>) -> seq<Node>, inPlace: bool)
    returns (r: seq<Node>)
    ensures r == Fold(nodes, steps, call)
    ensures |steps| == 0 ==> r == nodes
    ensures |steps| > 0 ==> r == call(steps[|steps| - 1], Fold(nodes, steps[..|steps| - 1], call))
  {
    var current := nodes;
    if !inPlace {
      // `list(nodes)`: a sequence is a value, so the copy equals the original.
      current := nodes[..];
    }
    for i := 0 to |steps|
      invariant current == Fold(nodes, steps[..i], call)
    {
      FoldLast(nodes, steps[..i], steps[i], call);
      assert steps[..i + 1] == steps[..i] + [steps[i]];
      current := call(steps[i], current);
    }
    assert steps[..|steps|] == steps;
    if |steps| > 0 {
      FoldLast(nodes, steps[..|steps| - 1], steps[|steps| - 1], call);
      assert steps[..|steps| - 1] + [steps[|steps| - 1]] == steps;
    }
    r := current;
  }

  /** `arun_transformations`: the same fold, awaiting each step's `acall`
      before the next step starts. */
  method ARunTransformations<S>(nodes: seq<Node>, steps: seq<S>, acall: (S, seq<Node>) -> seq<Node>, inPlace: bool)
    returns (r: seq<Node>)
    ensures r == Fold(nodes, steps, acall)
    ensures |steps| == 0 ==> r == nodes
  {
    var current := nodes;
    if !inPlace {
      current := nodes[..];
    }
    var i := 0;
    while i < |steps|
      invariant 0 <= i <= |steps|
      invariant Fold(current, steps[i..], acall) == Fold(nodes, steps, acall)
    {
      assert steps[i..][0] == steps[i];
      assert steps[i..][1..] == steps[i + 1..];
      current := acall(steps[i], current);
      i := i + 1;
    }
    r := current;
  }

  /** Every step's asynchronous call produces what its synchronous call
      produces. */
  ghost predicate AgreeOn<S>(steps: seq<S>, call: (S, seq<Node>) -> seq<Node>, acall: (S, seq<Node>) -> seq<Node>) {
    forall i, batch :: 0 <= i < |steps| ==> call(steps[i], batch) == acall(steps[i], batch)
  }

  /** When each step's `acall` agrees with its `__call__`, the synchronous
      and the asynchronous runner return the same batch. */
  lemma {:induction false} SyncAsyncAgree<S>(nodes: seq<Node>, steps: seq<S>, call: (S, seq<Node>) -> seq<Node>, acall: (S, seq<Node>) -> seq<Node>)
    requires AgreeOn(steps, call, acall)
    ensures Fold(nodes, steps, call) == Fold(nodes, steps, acall)
    decreases |steps|
  {
    if |steps| > 0 {
      assert call(steps[0], nodes) == acall(steps[0], nodes);
      assert forall i :: 0 <= i < |steps[1..]| ==> steps[1..][i] == steps[i + 1];
      SyncAsyncAgree(call(steps[0], nodes), steps[1..], call, acall);
    }
  }
}
