/** The functions lesson: add, sum_all over *args, square and mapping a squaring lambda
    over a list, the recursive factorial and fibonacci, and log_decorator, whose wrapper
    returns what the wrapped function returns. */
module Functions {

  /** add(a, b): taking b back off the sum gives a. */
  function Add(a: int, b: int): (r: int)
    ensures r - b == a
  {
    a + b
  }

  lemma AddExample()
    ensures Add(5, 3) == 8
  {
  }

  /** sum_all(*args) is sum(args): Python's sum folds from the left, starting at 0. One
      argument is its own sum, and non-negative arguments have a non-negative sum that is
      at least each of them. */
  function SumAll(args: seq<int>): (r: int)
    decreases |args|
    ensures |args| == 1 ==> r == args[0]
    ensures (forall i :: 0 <= i < |args| ==> args[i] >= 0) ==>
      r >= 0 && forall i :: 0 <= i < |args| ==> args[i] <= r
  {
    if args == [] then 0 else SumAll(args[..|args| - 1]) + args[|args| - 1]
  }

  /** Summing two argument lists one after the other is summing their concatenation. */
  lemma {:induction false} SumAllAppend(xs: seq<int>, ys: seq<int>)
    ensures SumAll(xs + ys) == SumAll(xs) + SumAll(ys)
    decreases |ys|
  {
    if ys == [] {
      assert xs + ys == xs;
    } else {
      var ys' := ys[..|ys| - 1];
      assert (xs + ys)[..|xs + ys| - 1] == xs + ys';
      SumAllAppend(xs, ys');
    }
  }

  /** sum_all() is 0, sum_all(1, 2, 3, 4) is 10 and sum_all(5, 10) is 15; each
      argument adds exactly itself. */
  lemma SumAllExamples(x: int)
    ensures SumAll([]) == 0
    ensures SumAll([1, 2, 3, 4]) == 10
    ensures SumAll([5, 10]) == 15
    ensures SumAll([x]) == x
  {
    assert [1, 2, 3, 4][..3] == [1, 2, 3];
    assert [1, 2, 3][..2] == [1, 2];
    assert [1, 2][..1] == [1];
    assert [5, 10][..1] == [5];
    assert [x][..0] == [];
  }

  /** square(x) is x ** 2: never negative and never below x. */
  function Square(x: int): (r: int)
    ensures r >= 0
    ensures r >= x
  {
    x * x
  }

  lemma SquareExample(x: int)
    ensures Square(4) == 16
    ensures Square(5) == 25
    ensures Square(-x) == Square(x)
  {
  }

  /** list(map(f, xs)): f applied to each element, in order. */
  function Map<A, B>(f: A -> B, xs: seq<A>): (r: seq<B>)
    decreases |xs|
    ensures |r| == |xs|
    ensures forall i :: 0 <= i < |xs| ==> r[i] == f(xs[i])
  {
    if xs == [] then [] else [f(xs[0])] + Map(f, xs[1..])
  }

  /** Mapping the squaring lambda over [1, 2, 3, 4, 5] gives [1, 4, 9, 16, 25]. */
  lemma SquaredNumbers()
    ensures Map(x => Square(x), [1, 2, 3, 4, 5]) == [1, 4, 9, 16, 25]
  {
    var r := Map(x => Square(x), [1, 2, 3, 4, 5]);
    assert r[0] == 1 && r[1] == 4 && r[2] == 9 && r[3] == 16 && r[4] == 25;
  }

  /** factorial(n): the only base case is n == 1, so the caller must pass n >= 1 (a
      smaller n never reaches the base case). The result is at least n and at least 1. */
  function Factorial(n: int): (r: int)
    requires n >= 1
    decreases n
    ensures r >= n && r >= 1
  {
    if n == 1 then 1 else n * Factorial(n - 1)
  }

  lemma FactorialExample()
    ensures Factorial(5) == 120
  {
  }

  /** fibonacci(n): n itself for n <= 1 (negative n included), otherwise the sum of the
      two previous values. It is never negative for n >= 0. */
  function Fibonacci(n: int): (r: int)
    decreases n
    ensures n <= 1 ==> r == n
    ensures n >= 0 ==> r >= 0
    ensures n >= 1 ==> r >= 1
  {
    if n <= 1 then n else Fibonacci(n - 1) + Fibonacci(n - 2)
  }

  /** A linear-time reference: FibPair(n) walks the pair (fib(k), fib(k + 1)) up to n. */
  function FibPair(n: nat): (int, int)
  {
    if n == 0 then (0, 1) else var p := FibPair(n - 1); (p.1, p.0 + p.1)
  }

  /** The doubly recursive fibonacci agrees with the linear-time pair walk. */
  lemma {:induction false} FibonacciMatchesPair(n: nat)
    ensures FibPair(n) == (Fibonacci(n), Fibonacci(n + 1))
  {
    if n > 0 {
      FibonacciMatchesPair(n - 1);
    }
  }

  lemma FibonacciExample()
    ensures Fibonacci(6) == 8
  {
    FibonacciMatchesPair(6);
    assert FibPair(6) == (8, 13);
  }

  // ---------------------------------------------------------------------------
  // str() of an integer, which the decorator's second log line prints

  function DigitChar(d: nat): (c: char)
    requires d < 10
    ensures '0' <= c <= '9'
    ensures c as int - '0' as int == d
  {
    ('0' as int + d) as char
  }

  /** The decimal digits of n, most significant first, with no leading zeros. */
  function NatToString(n: nat): (s: string)
    decreases n
    ensures |s| >= 1
    ensures forall i :: 0 <= i < |s| ==> '0' <= s[i] <= '9'
    ensures |s| > 1 ==> s[0] != '0'
  {
    if n < 10 then [DigitChar(n)] else NatToString(n / 10) + [DigitChar(n % 10)]
  }

  /** The value of a string of decimal digits. */
  function DigitsValue(s: string): int
    decreases |s|
  {
    if s == [] then 0 else DigitsValue(s[..|s| - 1]) * 10 + (s[|s| - 1] as int - '0' as int)
  }

  /** str(n): the digits of |n|, preceded by '-' when n is negative. */
  function IntToString(n: int): (s: string)
    ensures |s| >= 1
    ensures n < 0 <==> s[0] == '-'
  {
    if n < 0 then "-" + NatToString(-n) else NatToString(n)
  }

  /** int(s) for the strings str produces. */
  function ParseInt(s: string): int
  {
    if |s| > 0 && s[0] == '-' then -DigitsValue(s[1..]) else DigitsValue(s)
  }

  lemma {:induction false} NatToStringRoundTrip(n: nat)
    ensures DigitsValue(NatToString(n)) == n
    decreases n
  {
    if n >= 10 {
      NatToStringRoundTrip(n / 10);
      var s := NatToString(n);
      assert s[..|s| - 1] == NatToString(n / 10);
    } else {
      var s := NatToString(n);
      assert s[..|s| - 1] == [];
    }
  }

  /** int(str(n)) == n: the printed result can be read back. */
  lemma IntToStringRoundTrip(n: int)
    ensures ParseInt(IntToString(n)) == n
  {
    if n < 0 {
      NatToStringRoundTrip(-n);
      assert IntToString(n)[1..] == NatToString(-n);
    } else {
      NatToStringRoundTrip(n);
    }
  }

  // ---------------------------------------------------------------------------
  // log_decorator

  /** What a wrapped call produces: the wrapped function's result and the lines the
      wrapper prints around the call. */
  datatype Logged<R> = Logged(result: R, log: seq<string>)

  /** log_decorator(func): the wrapper prints "Calling <name>", calls func, prints
      "<name> returned <result>" and returns exactly what func returned. The function's
      __name__ and the str() of its results are parameters; the arguments are one tuple. */
  function LogDecorator<A(!new), R>(name: string, func: A -> R, show: R -> string): (wrapper: A -> Logged<R>)
    ensures forall args :: wrapper(args).result == func(args)
    ensures forall args :: |wrapper(args).log| == 2
    ensures forall args :: wrapper(args).log[0] == "Calling " + name
    ensures forall args :: wrapper(args).log[1] == name + " returned " + show(func(args))
  {
    args => var result := func(args); Logged(result, ["Calling " + name, name + " returned " + show(result)])
  }

  /** The decorated add: it still adds. */
  function DecoratedAdd(): (wrapped: ((int, int)) -> Logged<int>)
    ensures forall p: (int, int) :: wrapped(p).result == p.0 + p.1
  {
    LogDecorator("add", (p: (int, int)) => Add(p.0, p.1), IntToString)
  }

  /** The decorated add(3, 5) returns 8 and prints "Calling add" and "add returned 8". */
  lemma DecoratedAddExample()
    ensures DecoratedAdd()((3, 5)) == Logged(8, ["Calling add", "add returned 8"])
  {
    var call := DecoratedAdd()((3, 5));
    assert IntToString(8) == "8";
    assert call.log[0] == "Calling add";
    assert call.log[1] == "add returned 8";
    assert call.log == ["Calling add", "add returned 8"];
  }

  /** For every call of the decorated add, what the second log line reports after
      "add returned " reads back as the result the caller receives. */
  lemma DecoratedAddReportsResult(a: int, b: int)
    ensures var call := DecoratedAdd()((a, b));
      |call.log[1]| > 13 && call.log[1][..13] == "add returned "
      && ParseInt(call.log[1][13..]) == call.result
  {
    var call := DecoratedAdd()((a, b));
    var rest := IntToString(a + b);
    assert call.log[1] == "add returned " + rest;
    assert call.log[1][13..] == rest;
    IntToStringRoundTrip(a + b);
  }
}
