/** The four "sum of 1..n" solutions of src/problem1/sum.js, each proved
    against one mathematical specification, SumTo. The source works on
    JavaScript numbers; here n and every sum are unbounded integers. */
module Sum {

  /** 1 + 2 + ... + n; the empty sum 0 when n <= 0. */
  function SumTo(n: int): int
    decreases if n <= 0 then 0 else n
  {
    if n <= 0 then 0 else SumTo(n - 1) + n
  }

  /** Gauss: twice the sum of 1..n is n * (n + 1). */
  lemma {:induction false} SumToClosedForm(n: nat)
    ensures 2 * SumTo(n) == n * (n + 1)
  {
    if n > 0 {
      SumToClosedForm(n - 1);
    }
  }

  /** The sum grows by exactly n + 1 at each step, so it strictly increases. */
  lemma {:induction false} SumToStrictlyIncreasing(m: nat, n: nat)
    requires m < n
    ensures SumTo(n) >= SumTo(m) + n
    ensures SumTo(m) < SumTo(n)
  {
    if m < n - 1 {
      SumToStrictlyIncreasing(m, n - 1);
    }
  }

  /** Every product of two consecutive integers is even, negative ones too. */
  lemma ConsecutiveProductEven(n: int)
    ensures (n * (n + 1)) % 2 == 0
  {
    if n >= 0 {
      SumToClosedForm(n);
    } else {
      var m := -n - 1;
      SumToClosedForm(m);
      assert n * (n + 1) == m * (m + 1);
    }
  }

  /** Solution A: an accumulating loop over i = 1, 2, ..., n. When n <= 0
      the loop body never runs and the result is the initial 0. */
  method SumLoop(n: int) returns (sum: int)
    ensures sum == SumTo(n)
    ensures n <= 0 ==> sum == 0
  {
    sum := 0;
    var i := 1;
    while i <= n
      invariant 1 <= i && (i <= n + 1 || i == 1)
      invariant sum == SumTo(i - 1)
    {
      sum := sum + i;
      i := i + 1;
    }
  }

  /** Solution B: the closed form n * (n + 1) / 2. The division is exact for
      every integer n, so JavaScript's division and Dafny's agree here. */
  function SumFormula(n: int): (r: int)
    ensures 2 * r == n * (n + 1)
  {
    ConsecutiveProductEven(n);
    n * (n + 1) / 2
  }

  /** For n >= 0 the closed form is the sum of 1..n. */
  lemma SumFormulaAgrees(n: nat)
    ensures SumFormula(n) == SumTo(n)
  {
    SumToClosedForm(n);
  }

  /** For negative n the closed form does not return 0 as the loop does: it
      returns the sum of 1..(-n - 1), which is 0 only at n = -1. */
  lemma SumFormulaNegative(n: int)
    requires n < 0
    ensures SumFormula(n) == SumTo(-n - 1)
    ensures SumFormula(n) == 0 <==> n == -1
  {
    var m := -n - 1;
    SumToClosedForm(m);
    assert n * (n + 1) == m * (m + 1);
    if m > 0 {
      SumToStrictlyIncreasing(0, m);
    }
  }

  /** Solution C: recursion with base case n == 1. For n < 1 the source's
      recursion never reaches its base case, so n >= 1 is required. */
  function SumRecursive(n: int): (r: int)
    requires n >= 1
    ensures r == SumTo(n)
    decreases n
  {
    if n == 1 then 1 else n + SumRecursive(n - 1)
  }

  /** Array.from({ length: n }, (_, i) => i + 1): the array [1, ..., len]
      where len is n converted by ECMAScript's ToLength, which turns a
      negative length into 0. */
  function Range(n: int): seq<int>
  {
    var len := if n < 0 then 0 else n;
    seq(len, i => i + 1)
  }

  /** xs.reduce((a, b) => a + b, acc): a left fold of + from the seed acc. */
  function Reduce(xs: seq<int>, acc: int): int
  {
    if xs == [] then acc else Reduce(xs[1..], acc + xs[0])
  }

  /** Reducing a sequence extended by x gives x more. */
  lemma {:induction false} ReduceSnoc(xs: seq<int>, x: int, acc: int)
    ensures Reduce(xs + [x], acc) == Reduce(xs, acc) + x
  {
    if xs != [] {
      assert (xs + [x])[1..] == xs[1..] + [x];
      ReduceSnoc(xs[1..], x, acc + xs[0]);
    }
  }

  /** Reducing [1, ..., n] from 0 is the sum of 1..n. */
  lemma {:induction false} ReduceRange(n: nat)
    ensures Reduce(Range(n), 0) == SumTo(n)
  {
    if n > 0 {
      assert Range(n) == Range(n - 1) + [n];
      ReduceRange(n - 1);
      ReduceSnoc(Range(n - 1), n, 0);
    }
  }

  /** Solution D: build [1, ..., n] and reduce it with + from the seed 0.
      At n = 0 (and any negative n) the array is empty and the seed 0 is
      returned. */
  function SumReduce(n: int): (r: int)
    ensures r == SumTo(n)
  {
    var len := if n < 0 then 0 else n;
    ReduceRange(len);
    assert Range(n) == Range(len);
    Reduce(Range(n), 0)
  }

  /** The four values the source logs, for n = 5. */
  method LoggedValues() returns (a: int, b: int, c: int, d: int)
    ensures a == 15 && b == 15 && c == 15 && d == 15
  {
    a := SumLoop(5);
    b := SumFormula(5);
    c := SumRecursive(5);
    d := SumReduce(5);
  }
}
