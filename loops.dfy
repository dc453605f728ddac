/** The loops lesson: linear search with `for ... else` and `while ... else`, a loop that
    breaks at a value, loops that filter with `if` or skip with `continue`, and nested
    loops that enumerate pairs. Printing becomes the sequence of values a loop emits; the
    `else` branch of a loop becomes a flag saying whether it ran. */
module Loops {

  /** range(lo, hi): lo, lo + 1, ..., hi - 1. */
  function Range(lo: int, hi: int): (r: seq<int>)
    decreases hi - lo
    ensures |r| == if hi <= lo then 0 else hi - lo
    ensures forall k :: 0 <= k < |r| ==> r[k] == lo + k
  {
    if hi <= lo then [] else Range(lo, hi - 1) + [hi - 1]
  }

  // ---------------------------------------------------------------------------
  // Searching with an `else` branch on the loop

  /** `for number in numbers: if number == target: break  else: ...`: the else branch
      runs exactly when no break happened, that is when target is not in numbers. */
  method ForElseSearch(numbers: seq<int>, target: int) returns (elseRan: bool)
    ensures elseRan <==> target !in numbers
  {
    var broke := false;
    for k := 0 to |numbers|
      invariant !broke
      invariant forall j :: 0 <= j < k ==> numbers[j] != target
    {
      if numbers[k] == target {
        broke := true;
        break;
      }
    }
    elseRan := !broke;
  }

  /** `i = 0; while i < len(numbers): if numbers[i] == target: break; i += 1  else: ...`:
      the else branch runs exactly when target is not in numbers; otherwise i is the index
      of its first occurrence. When it runs, i == len(numbers). */
  method WhileElseSearch(numbers: seq<int>, target: int) returns (elseRan: bool, i: nat)
    ensures elseRan <==> target !in numbers
    ensures elseRan ==> i == |numbers|
    ensures !elseRan ==> i < |numbers| && numbers[i] == target
    ensures forall j :: 0 <= j < i && j < |numbers| ==> numbers[j] != target
  {
    i := 0;
    elseRan := true;
    while i < |numbers|
      invariant i <= |numbers|
      invariant elseRan
      invariant forall j :: 0 <= j < i ==> numbers[j] != target
    {
      if numbers[i] == target {
        elseRan := false;
        break;
      }
      i := i + 1;
    }
  }

  /** The two searches reach the same verdict. */
  method SearchesAgree(numbers: seq<int>, target: int) returns (viaFor: bool, viaWhile: bool)
    ensures viaFor == viaWhile
    ensures viaFor <==> target !in numbers
  {
    viaFor := ForElseSearch(numbers, target);
    var index;
    viaWhile, index := WhileElseSearch(numbers, target);
  }

  /** The lesson's search for 7 in [1, 2, 3, 4, 5] runs the else branch, both ways. */
  method SearchExample() returns (viaFor: bool, viaWhile: bool)
    ensures viaFor && viaWhile
  {
    viaFor, viaWhile := SearchesAgree([1, 2, 3, 4, 5], 7);
  }

  // ---------------------------------------------------------------------------
  // Breaking at a value

  /** The elements of s before the first occurrence of v (all of s when v does not occur). */
  function PrefixBefore(s: seq<int>, v: int): (r: seq<int>)
    decreases |s|
    ensures |r| <= |s| && r == s[..|r|]
    ensures v !in r
    ensures |r| < |s| ==> s[|r|] == v
  {
    if s == [] then [] else if s[0] == v then [] else [s[0]] + PrefixBefore(s[1..], v)
  }

  /** The three properties above pin PrefixBefore down. */
  lemma {:induction false} PrefixBeforeUnique(s: seq<int>, v: int, p: seq<int>)
    requires |p| <= |s| && p == s[..|p|]
    requires v !in p
    requires |p| < |s| ==> s[|p|] == v
    ensures PrefixBefore(s, v) == p
    decreases |s|
  {
    if s != [] && s[0] != v {
      assert p != [] && p[0] == s[0];
      PrefixBeforeUnique(s[1..], v, p[1..]);
    }
  }

  /** `for number in numbers: if number == stop: break; emit number`: emits the prefix
      before the first stop, and reports whether it stopped on one. */
  method BreakAt(numbers: seq<int>, stop: int) returns (emitted: seq<int>, stopped: bool)
    ensures emitted == PrefixBefore(numbers, stop)
    ensures stopped <==> stop in numbers
  {
    emitted := [];
    stopped := false;
    for k := 0 to |numbers|
      invariant !stopped
      invariant forall j :: 0 <= j < k ==> numbers[j] != stop
      invariant PrefixBefore(numbers, stop) == emitted + PrefixBefore(numbers[k..], stop)
    {
      if numbers[k] == stop {
        stopped := true;
        break;
      }
      assert numbers[k..][1..] == numbers[k + 1..];
      emitted := emitted + [numbers[k]];
    }
  }

  /** The lesson's trace: breaking at 7 in [1, ..., 10] emits 1..6, after which it stops. */
  method BreakAtSevenExample() returns (emitted: seq<int>, stopped: bool)
    ensures emitted == [1, 2, 3, 4, 5, 6] && stopped
  {
    var numbers := [1, 2, 3, 4, 5, 6, 7, 8, 9, 10];
    emitted, stopped := BreakAt(numbers, 7);
    PrefixBeforeUnique(numbers, 7, [1, 2, 3, 4, 5, 6]);
    assert numbers[6] == 7;
  }

  /** The lesson's trace: breaking at 5 in range(10) emits 0..4. */
  method BreakAtFiveExample() returns (emitted: seq<int>)
    ensures emitted == [0, 1, 2, 3, 4]
  {
    var range := Range(0, 10);
    var stopped;
    emitted, stopped := BreakAt(range, 5);
    PrefixBeforeUnique(range, 5, Range(0, 5));
    assert Range(0, 5) == [0, 1, 2, 3, 4];
  }

  // ---------------------------------------------------------------------------
  // Filtering with `if` and skipping with `continue`

  /** The elements of s that keep accepts, in their original order. */
  function Filter(s: seq<int>, keep: int -> bool): (r: seq<int>)
    decreases |s|
    ensures |r| <= |s|
    ensures forall x :: x in r ==> x in s && keep(x)
    ensures forall x :: x in s && keep(x) ==> x in r
  {
    if s == [] then []
    else
      assert s == s[..|s| - 1] + [s[|s| - 1]];
      Filter(s[..|s| - 1], keep) + (if keep(s[|s| - 1]) then [s[|s| - 1]] else [])
  }

  /** `number % 2 == 0`: x is twice some integer. */
  function IsEven(x: int): (r: bool)
    ensures r <==> x == 2 * (x / 2)
  {
    x % 2 == 0
  }

  /** The test `x != v` as a function value: it rejects v and only v. */
  function Differs(v: int): (test: int -> bool)
    ensures !test(v)
    ensures forall x :: x != v ==> test(x)
  {
    x => x != v
  }

  /** `for number in numbers: if number % 2 == 0: emit number` */
  method IfEvenLoop(numbers: seq<int>) returns (out: seq<int>)
    ensures out == Filter(numbers, IsEven)
  {
    out := [];
    for k := 0 to |numbers|
      invariant out == Filter(numbers[..k], IsEven)
    {
      assert numbers[..k + 1][..k] == numbers[..k];
      if numbers[k] % 2 == 0 {
        out := out + [numbers[k]];
      }
    }
    assert numbers[..|numbers|] == numbers;
  }

  /** `for number in numbers: if number % 2 != 0: continue; emit number` */
  method ContinueOddLoop(numbers: seq<int>) returns (out: seq<int>)
    ensures out == Filter(numbers, IsEven)
  {
    out := [];
    for k := 0 to |numbers|
      invariant out == Filter(numbers[..k], IsEven)
    {
      assert numbers[..k + 1][..k] == numbers[..k];
      if numbers[k] % 2 != 0 {
        continue;
      }
      out := out + [numbers[k]];
    }
    assert numbers[..|numbers|] == numbers;
  }

  /** Skipping the odd numbers with `continue` emits the same sequence as keeping the even
      ones with `if`. */
  method EvenLoopsAgree(numbers: seq<int>) returns (viaIf: seq<int>, viaContinue: seq<int>)
    ensures viaIf == viaContinue
    ensures forall i :: 0 <= i < |viaIf| ==> viaIf[i] % 2 == 0
  {
    viaIf := IfEvenLoop(numbers);
    viaContinue := ContinueOddLoop(numbers);
    assert forall i :: 0 <= i < |viaIf| ==> viaIf[i] in viaIf;
  }

  /** `for i in xs: if i == skip: continue; emit i` */
  method ContinueAt(xs: seq<int>, skip: int) returns (out: seq<int>)
    ensures out == Filter(xs, Differs(skip))
  {
    out := [];
    for k := 0 to |xs|
      invariant out == Filter(xs[..k], Differs(skip))
    {
      assert xs[..k + 1][..k] == xs[..k];
      if xs[k] == skip {
        continue;
      }
      out := out + [xs[k]];
    }
    assert xs[..|xs|] == xs;
  }

  /** The lesson's trace: the even numbers of [1, ..., 10] are 2, 4, 6, 8, 10. */
  method EvensExample() returns (evens: seq<int>)
    ensures evens == [2, 4, 6, 8, 10]
  {
    evens := ContinueOddLoop([1, 2, 3, 4, 5, 6, 7, 8, 9, 10]);
    EvensOfOneToTen();
  }

  /** The lesson's trace: skipping 2 in range(5) emits 0, 1, 3, 4. */
  method SkipTwoExample() returns (skipped: seq<int>)
    ensures skipped == [0, 1, 3, 4]
  {
    var range := Range(0, 5);
    assert range == [0, 1, 2, 3, 4];
    skipped := ContinueAt(range, 2);
    SkipTwo();
  }

  lemma EvensOfOneToTen()
    ensures Filter([1, 2, 3, 4, 5, 6, 7, 8, 9, 10], IsEven) == [2, 4, 6, 8, 10]
  {
    FilterPrefixes([1, 2, 3, 4, 5, 6, 7, 8, 9, 10], IsEven,
      [[], [], [2], [2], [2, 4], [2, 4], [2, 4, 6], [2, 4, 6], [2, 4, 6, 8], [2, 4, 6, 8], [2, 4, 6, 8, 10]]);
  }

  lemma SkipTwo()
    ensures Filter([0, 1, 2, 3, 4], Differs(2)) == [0, 1, 3, 4]
  {
    FilterPrefixes([0, 1, 2, 3, 4], Differs(2), [[], [0], [0, 1], [0, 1], [0, 1, 3], [0, 1, 3, 4]]);
  }

  /** Steps through Filter prefix by prefix: if each stage extends the previous one by
      what Filter would add, the last stage is Filter of the whole sequence. */
  lemma {:induction false} FilterPrefixes(s: seq<int>, keep: int -> bool, stages: seq<seq<int>>)
    requires |stages| == |s| + 1 && stages[0] == []
    requires forall k :: 0 <= k < |s| ==>
      stages[k + 1] == stages[k] + (if keep(s[k]) then [s[k]] else [])
    ensures Filter(s, keep) == stages[|s|]
  {
    for k := 0 to |s|
      invariant Filter(s[..k], keep) == stages[k]
    {
      assert s[..k + 1][..k] == s[..k];
    }
    assert s[..|s|] == s;
  }

  // ---------------------------------------------------------------------------
  // Nested loops

  /** The pairs the inner loop emits for one value i of the outer loop. */
  function Row(i: int, inner: seq<int>): (r: seq<(int, int)>)
    ensures |r| == |inner|
    ensures forall k :: 0 <= k < |inner| ==> r[k] == (i, inner[k])
  {
    seq(|inner|, k requires 0 <= k < |inner| => (i, inner[k]))
  }

  /** The pairs nested loops over outer and inner emit: one row per element of outer, in order. */
  function Grid(outer: seq<int>, inner: seq<int>): (r: seq<(int, int)>)
    decreases |outer|
    ensures forall k :: 0 <= k < |r| ==> r[k].0 in outer && r[k].1 in inner
  {
    if outer == [] then [] else Grid(outer[..|outer| - 1], inner) + Row(outer[|outer| - 1], inner)
  }

  /** Every pair (a, b) with a from outer and b from inner is emitted, and nothing else. */
  lemma {:induction false} GridMembers(outer: seq<int>, inner: seq<int>, a: int, b: int)
    ensures (a, b) in Grid(outer, inner) <==> a in outer && b in inner
    decreases |outer|
  {
    if outer != [] {
      var init, last := outer[..|outer| - 1], outer[|outer| - 1];
      assert outer == init + [last];
      GridMembers(init, inner, a, b);
      if (a, b) in Row(last, inner) {
        var k :| 0 <= k < |inner| && Row(last, inner)[k] == (a, b);
        assert b == inner[k];
      }
      if a == last && b in inner {
        var k :| 0 <= k < |inner| && inner[k] == b;
        assert Row(last, inner)[k] == (a, b);
      }
    }
  }

  /** Appending one more outer value appends one more row. */
  lemma GridSnoc(outer: seq<int>, inner: seq<int>, x: int)
    ensures Grid(outer + [x], inner) == Grid(outer, inner) + Row(x, inner)
  {
    assert (outer + [x])[..|outer|] == outer;
  }

  lemma RowSnoc(i: int, inner: seq<int>, j: int)
    ensures Row(i, inner + [j]) == Row(i, inner) + [(i, j)]
  {
  }

  lemma RangeSnoc(lo: int, hi: int)
    requires lo <= hi
    ensures Range(lo, hi + 1) == Range(lo, hi) + [hi]
  {
  }

  /** Row-major order: row p occupies positions p * |inner| to (p + 1) * |inner| - 1. */
  lemma {:induction false} GridRowMajor(outer: seq<int>, inner: seq<int>, p: nat, q: nat)
    requires p < |outer| && q < |inner|
    ensures |Grid(outer, inner)| == |outer| * |inner|
    ensures p * |inner| + q < |Grid(outer, inner)|
    ensures Grid(outer, inner)[p * |inner| + q] == (outer[p], inner[q])
    decreases |outer|
  {
    var n, m := |outer|, |inner|;
    var init := outer[..n - 1];
    if p < n - 1 {
      GridRowMajor(init, inner, p, q);
      assert p * m + q < (n - 1) * m by {
        MulMonotone(p + 1, n - 1, m);
      }
    } else {
      GridLength(init, inner);
    }
  }

  lemma {:induction false} GridLength(outer: seq<int>, inner: seq<int>)
    ensures |Grid(outer, inner)| == |outer| * |inner|
    decreases |outer|
  {
    if outer != [] {
      var n, m := |outer|, |inner|;
      GridLength(outer[..n - 1], inner);
      assert |Grid(outer, inner)| == (n - 1) * m + m;
      assert (n - 1) * m + m == n * m;
    }
  }

  lemma MulMonotone(a: nat, b: nat, m: nat)
    requires a <= b
    ensures a * m <= b * m
  {
  }

  /** `for i in outer: for j in inner: emit (i, j)` */
  method NestedFor(outer: seq<int>, inner: seq<int>) returns (pairs: seq<(int, int)>)
    ensures pairs == Grid(outer, inner)
  {
    pairs := [];
    for a := 0 to |outer|
      invariant pairs == Grid(outer[..a], inner)
    {
      for b := 0 to |inner|
        invariant pairs == Grid(outer[..a], inner) + Row(outer[a], inner[..b])
      {
        assert inner[..b + 1] == inner[..b] + [inner[b]];
        RowSnoc(outer[a], inner[..b], inner[b]);
        pairs := pairs + [(outer[a], inner[b])];
      }
      assert inner[..|inner|] == inner;
      assert outer[..a + 1] == outer[..a] + [outer[a]];
      GridSnoc(outer[..a], inner, outer[a]);
    }
    assert outer[..|outer|] == outer;
  }

  /** One more step of the outer counter adds one more row. */
  lemma GridRangeSnoc(iStart: int, i: int, inner: seq<int>)
    requires iStart <= i
    ensures Grid(Range(iStart, i + 1), inner) == Grid(Range(iStart, i), inner) + Row(i, inner)
  {
    RangeSnoc(iStart, i);
    GridSnoc(Range(iStart, i), inner, i);
  }

  /** One more step of the inner counter adds one more pair to the row. */
  lemma RowRangeSnoc(i: int, jStart: int, j: int)
    requires jStart <= j
    ensures Row(i, Range(jStart, j + 1)) == Row(i, Range(jStart, j)) + [(i, j)]
  {
    RangeSnoc(jStart, j);
    RowSnoc(i, Range(jStart, j), j);
  }

  /** `i = iStart; while i < iStop: j = jStart; while j < jStop: emit (i, j); j += 1; i += 1` */
  method NestedWhile(iStart: int, iStop: int, jStart: int, jStop: int) returns (pairs: seq<(int, int)>)
    ensures pairs == Grid(Range(iStart, iStop), Range(jStart, jStop))
  {
    ghost var inner := Range(jStart, jStop);
    pairs := [];
    var i := iStart;
    while i < iStop
      invariant iStart <= i && (i <= iStop || i == iStart)
      invariant pairs == Grid(Range(iStart, i), inner)
    {
      ghost var rowsSoFar := pairs;
      var j := jStart;
      while j < jStop
        invariant jStart <= j && (j <= jStop || j == jStart)
        invariant pairs == rowsSoFar + Row(i, Range(jStart, j))
      {
        RowRangeSnoc(i, jStart, j);
        pairs := pairs + [(i, j)];
        j := j + 1;
      }
      assert Range(jStart, j) == inner;
      GridRangeSnoc(iStart, i, inner);
      i := i + 1;
    }
    assert Range(iStart, i) == Range(iStart, iStop);
  }

  /** Three outer values give three rows. */
  lemma GridOfThree(a: int, b: int, c: int, inner: seq<int>)
    ensures Grid([a, b, c], inner) == Row(a, inner) + Row(b, inner) + Row(c, inner)
  {
    GridSnoc([], inner, a);
    GridSnoc([a], inner, b);
    GridSnoc([a, b], inner, c);
    assert [] + [a] == [a] && [a] + [b] == [a, b] && [a, b] + [c] == [a, b, c];
    assert Grid([], inner) == [];
  }

  /** The lesson's trace: range(3) by range(2) gives the six pairs (0, 0) ... (2, 1) in
      row-major order. */
  method NestedForExample() returns (pairs: seq<(int, int)>)
    ensures pairs == [(0, 0), (0, 1), (1, 0), (1, 1), (2, 0), (2, 1)]
  {
    assert Range(0, 3) == [0, 1, 2] && Range(0, 2) == [0, 1];
    pairs := NestedFor(Range(0, 3), Range(0, 2));
    GridOfThree(0, 1, 2, [0, 1]);
    assert Row(0, [0, 1]) == [(0, 0), (0, 1)];
    assert Row(1, [0, 1]) == [(1, 0), (1, 1)];
    assert Row(2, [0, 1]) == [(2, 0), (2, 1)];
  }

  /** The lesson's trace: the while version over 1..3 by 1..2 gives (1, 1) ... (3, 2). */
  method NestedWhileExample() returns (pairs: seq<(int, int)>)
    ensures pairs == [(1, 1), (1, 2), (2, 1), (2, 2), (3, 1), (3, 2)]
  {
    pairs := NestedWhile(1, 4, 1, 3);
    assert Range(1, 4) == [1, 2, 3] && Range(1, 3) == [1, 2];
    GridOfThree(1, 2, 3, [1, 2]);
    assert Row(1, [1, 2]) == [(1, 1), (1, 2)];
    assert Row(2, [1, 2]) == [(2, 1), (2, 2)];
    assert Row(3, [1, 2]) == [(3, 1), (3, 2)];
  }
}
