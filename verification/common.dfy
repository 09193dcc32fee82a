/** Failure-compatible wrappers for the compiler's panics and the two list
    traversals every part of the compiler is built from. */
module Common {

  /** Rust's `Option`. */
  datatype Option<+T> = None | Some(value: T) {

    /** `unwrap_or` */
    function GetOr(default: T): T {
      match this
      case Some(v) => v
      case None => default
    }
  }

  /** A value or the panic that aborted the computation. Usable with `:-`. */
  datatype Result<+T, +E> = Ok(value: T) | Err(error: E) {

    predicate IsFailure() {
      Err?
    }

    function PropagateFailure<U>(): Result<U, E>
      requires Err?
    {
      Err(error)
    }

    function Extract(): T
      requires Ok?
    {
      value
    }
  }

  /** The 0-based positions of the elements of `s` satisfying `p`, in
      declaration order: an `iter().enumerate()` fold that appends the index
      of every matching element. */
  function Positions<T>(s: seq<T>, p: T -> bool): (r: seq<nat>)
    ensures ExactPositions(s, p, r)
    decreases |s|
  {
    if |s| == 0 then []
    else
      var rest := Positions(s[..|s| - 1], p);
      if p(s[|s| - 1]) then rest + [|s| - 1] else rest
  }

  /** `r` lists, in increasing order, exactly the positions of `s` whose
      element satisfies `p`: what `Positions` promises. */
  ghost predicate ExactPositions<T>(s: seq<T>, p: T -> bool, r: seq<nat>) {
    && (forall k :: 0 <= k < |r| ==> r[k] < |s| && p(s[r[k]]))
    && (forall i :: 0 <= i < |s| && p(s[i]) ==> i in r)
    && (forall k, l :: 0 <= k < l < |r| ==> r[k] < r[l])
  }

  /** The contract of `Positions` determines its result: any strictly
      increasing list of exactly the positions satisfying `p` is it. */
  lemma {:induction false} PositionsUnique<T>(s: seq<T>, p: T -> bool, expected: seq<nat>)
    requires ExactPositions(s, p, expected)
    ensures Positions(s, p) == expected
    decreases |s|
  {
    if |s| > 0 {
      var n := |s| - 1;
      if p(s[n]) {
        var m := LastPositionTaken(s, p, expected);
        PositionsUnique(s[..n], p, expected[..m]);
        assert Positions(s, p) == Positions(s[..n], p) + [n];
        assert expected == expected[..m] + [n];
      } else {
        LastPositionSkipped(s, p, expected);
        PositionsUnique(s[..n], p, expected);
        assert Positions(s, p) == Positions(s[..n], p);
      }
    } else if |expected| > 0 {
      FirstPositionInRange(s, p, expected);
      assert false;
    }
  }

  lemma FirstPositionInRange<T>(s: seq<T>, p: T -> bool, expected: seq<nat>)
    requires ExactPositions(s, p, expected) && |expected| > 0
    ensures expected[0] < |s|
  {
  }

  /** When the last element satisfies `p`, its position ends the list and
      the rest of the list describes the shorter sequence. */
  lemma LastPositionTaken<T>(s: seq<T>, p: T -> bool, expected: seq<nat>) returns (m: nat)
    requires ExactPositions(s, p, expected)
    requires |s| > 0 && p(s[|s| - 1])
    ensures m == |expected| - 1 && expected[m] == |s| - 1
    ensures ExactPositions(s[..|s| - 1], p, expected[..m])
  {
    var n := |s| - 1;
    assert n in expected;
    m := |expected| - 1;
    assert forall j :: 0 <= j < |expected| ==> expected[j] <= expected[m];
    var k :| 0 <= k < |expected| && expected[k] == n;
    assert n <= expected[m] < |s|;
    var prefix, rest := s[..n], expected[..m];
    forall j | 0 <= j < |rest|
      ensures rest[j] < |prefix| && p(prefix[rest[j]])
    {
      assert expected[j] < expected[m];
    }
    forall i | 0 <= i < |prefix| && p(prefix[i])
      ensures i in rest
    {
      assert p(s[i]) && i in expected;
      var j :| 0 <= j < |expected| && expected[j] == i;
      assert j != m;
    }
  }

  /** When the last element fails `p`, the same list describes the shorter
      sequence. */
  lemma LastPositionSkipped<T>(s: seq<T>, p: T -> bool, expected: seq<nat>)
    requires ExactPositions(s, p, expected)
    requires |s| > 0 && !p(s[|s| - 1])
    ensures ExactPositions(s[..|s| - 1], p, expected)
  {
    var n := |s| - 1;
    var prefix := s[..n];
    forall j | 0 <= j < |expected|
      ensures expected[j] < |prefix| && p(prefix[expected[j]])
    {
      assert expected[j] != n;
    }
    forall i | 0 <= i < |prefix| && p(prefix[i])
      ensures i in expected
    {
      assert p(s[i]);
    }
  }

  /** Applies `f` to the elements of `xs` from first to last and stops at the
      first failure: a fold whose step panics aborts the whole fold. */
  function Traverse<A, B, E>(xs: seq<A>, f: A -> Result<B, E>): (r: Result<seq<B>, E>)
    ensures r.Ok? <==> forall i :: 0 <= i < |xs| ==> f(xs[i]).Ok?
    ensures r.Ok? ==> |r.value| == |xs|
    ensures r.Ok? ==> forall i :: 0 <= i < |xs| ==> f(xs[i]) == Ok(r.value[i])
    ensures r.Err? ==>
      exists i :: 0 <= i < |xs| && f(xs[i]) == Err(r.error) &&
        forall j :: 0 <= j < i ==> f(xs[j]).Ok?
    decreases |xs|
  {
    if |xs| == 0 then Ok([])
    else
      match Traverse(xs[..|xs| - 1], f)
      case Err(e) => Err(e)
      case Ok(ys) =>
        match f(xs[|xs| - 1])
        case Err(e) => Err(e)
        case Ok(y) => Ok(ys + [y])
  }
}
