/** The two free helper functions of dxfgeom.py: _frange, a range over
    real numbers, and find_entities, which locates entity names in the
    lines of a DXF file. */
module Helpers {
  import opened Wrappers

  /** The least integer not below x. */
  function Ceil(x: real): (r: int)
    ensures r as real >= x && (r - 1) as real < x
  {
    -((-x).Floor)
  }

  /** The checks _frange makes before it builds anything, in its order. */
  function RangeCheck(start: real, end: real, step: real): (r: Result<()>)
    ensures r.Success? <==> start != end && step != 0.0 && (start < end ==> step > 0.0) && (start > end ==> step < 0.0)
  {
    if start == end then Failure("Start and end cannot have the same value!")
    else if step == 0.0 then Failure("Step cannot be 0!")
    else if start < end && step <= 0.0 then Failure("Step must be positive if start < end!")
    else if start > end && step >= 0.0 then Failure("Step must negative if start > end!")
    else Success(())
  }

  /** The value after k steps of size step from start. */
  function Advance(start: real, step: real, k: int): real {
    start + k as real * step
  }

  /** _frange: start, then start advanced by step again and again, up to and
      including the first value at or past end. Every value before the last
      is short of end, so the list holds Ceil((end - start) / step) steps. */
  method FRange(start: real, end: real, step: real) returns (r: Result<seq<real>>)
    ensures r.Failure? <==> RangeCheck(start, end, step).Failure?
    ensures r.Failure? ==> r == Failure(RangeCheck(start, end, step).error)
    ensures r.Success? ==> var rv := r.value;
      && |rv| == Ceil((end - start) / step) + 1 && rv[0] == start
      && (forall i :: 0 < i < |rv| ==> rv[i] == rv[i - 1] + step)
      && (step > 0.0 ==> (forall i :: 0 <= i < |rv| - 1 ==> rv[i] < end) && rv[|rv| - 1] >= end)
      && (step < 0.0 ==> (forall i :: 0 <= i < |rv| - 1 ==> rv[i] > end) && rv[|rv| - 1] <= end)
  {
    var check := RangeCheck(start, end, step);
    if check.Failure? {
      return Failure(check.error);
    }
    var rv := [start];
    var a := start;
    ghost var n := Ceil((end - start) / step);
    StepsToEnd(start, end, step, n);
    if step > 0.0 {
      while a < end
        invariant 1 <= |rv| <= n + 1 && rv[0] == start && rv[|rv| - 1] == a
        invariant a == Advance(start, step, |rv| - 1)
        invariant forall i :: 0 < i < |rv| ==> rv[i] == rv[i - 1] + step
        invariant forall i :: 0 <= i < |rv| - 1 ==> rv[i] < end
        decreases n + 1 - |rv|
      {
        AdvanceStep(start, step, |rv| - 1);
        a := a + step;
        rv := rv + [a];
      }
    } else {
      while a > end
        invariant 1 <= |rv| <= n + 1 && rv[0] == start && rv[|rv| - 1] == a
        invariant a == Advance(start, step, |rv| - 1)
        invariant forall i :: 0 < i < |rv| ==> rv[i] == rv[i - 1] + step
        invariant forall i :: 0 <= i < |rv| - 1 ==> rv[i] > end
        decreases n + 1 - |rv|
      {
        AdvanceStep(start, step, |rv| - 1);
        a := a + step;
        rv := rv + [a];
      }
    }
    r := Success(rv);
  }

  lemma AdvanceStep(start: real, step: real, k: int)
    ensures Advance(start, step, k + 1) == Advance(start, step, k) + step
  {
  }

  /** Before n = Ceil((end - start) / step) steps the end has not been
      reached; after n steps it has. */
  lemma StepsToEnd(start: real, end: real, step: real, n: int)
    requires RangeCheck(start, end, step).Success? && n == Ceil((end - start) / step)
    ensures n >= 1
    ensures forall k: int :: 0 <= k < n ==> (if step > 0.0 then Advance(start, step, k) < end
                                              else Advance(start, step, k) > end)
    ensures step > 0.0 ==> Advance(start, step, n) >= end
    ensures step < 0.0 ==> Advance(start, step, n) <= end
  {
    var q := (end - start) / step;
    assert q * step == end - start;
    forall k: int | 0 <= k < n
      ensures if step > 0.0 then Advance(start, step, k) < end else Advance(start, step, k) > end
    {
      assert (k as real) < q;
      if step > 0.0 {
        assert k as real * step < q * step;
      } else {
        assert k as real * step > q * step;
      }
    }
    if step > 0.0 {
      assert n as real * step >= q * step;
    } else {
      assert n as real * step <= q * step;
    }
  }

  /** The indices from i on at which el holds ename, in increasing order. */
  function IndicesFrom(ename: string, el: seq<string>, i: nat): (r: seq<nat>)
    requires i <= |el|
    ensures forall j :: 0 <= j < |r| ==> i <= r[j] < |el| && el[r[j]] == ename
    ensures forall j, j' :: 0 <= j < j' < |r| ==> r[j] < r[j']
    ensures forall x :: i <= x < |el| && el[x] == ename ==> x in r
    decreases |el| - i
  {
    if i == |el| then []
    else
      var rest := IndicesFrom(ename, el, i + 1);
      if el[i] == ename then [i] + rest else rest
  }

  /** There are as many indices as occurrences of ename from i on. */
  lemma {:induction false} IndicesFromCount(ename: string, el: seq<string>, i: nat)
    requires i <= |el|
    ensures |IndicesFrom(ename, el, i)| == multiset(el[i..])[ename]
    decreases |el| - i
  {
    if i < |el| {
      var rest := IndicesFrom(ename, el, i + 1);
      IndicesFromCount(ename, el, i + 1);
      assert el[i..] == [el[i]] + el[i + 1..];
      assert multiset(el[i..]) == multiset{el[i]} + multiset(el[i + 1..]);
      if el[i] == ename {
        assert IndicesFrom(ename, el, i) == [i] + rest;
      } else {
        assert IndicesFrom(ename, el, i) == rest;
      }
    }
  }

  /** find_entities: the indices of el that hold ename, in increasing order;
      there are as many as el.count(ename) reports. */
  function FindEntities(ename: string, el: seq<string>): (r: seq<nat>)
    ensures forall j :: 0 <= j < |r| ==> r[j] < |el| && el[r[j]] == ename
    ensures forall j, j' :: 0 <= j < j' < |r| ==> r[j] < r[j']
    ensures forall x :: 0 <= x < |el| ==> (x in r <==> el[x] == ename)
    ensures |r| == multiset(el)[ename]
  {
    if multiset(el)[ename] > 0 then
      assert el[0..] == el;
      IndicesFromCount(ename, el, 0);
      IndicesFrom(ename, el, 0)
    else []
  }
}
