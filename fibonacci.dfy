/**
 * The Fibonacci example of examples/code/examples/example_fibonacci.py: the iterative
 * `fibonacci` loop, proved against the recurrence its docstring states, and the list of the
 * first `count` numbers. Arguments are integers, so the `TypeError` branches cannot arise.
 */
module FibonacciExample {
  import opened Wrappers

  /** F(0) = 0, F(1) = 1, F(n) = F(n-1) + F(n-2) for n > 1. */
  function Fib(n: nat): nat {
    if n <= 1 then n else Fib(n - 1) + Fib(n - 2)
  }

  const NegativeNumberMessage: string := "Fibonacci is not defined for negative numbers"
  const NegativeCountMessage: string := "Count must be non-negative"

  /** `fibonacci(n)`: `ValueError` for a negative `n`, else the n-th number, by the two-variable loop. */
  method Fibonacci(n: int) returns (r: Result<nat, Exception>)
    ensures n < 0 ==> r == Err(ValueError(NegativeNumberMessage))
    ensures n >= 0 ==> r == Ok(Fib(n))
  {
    if n < 0 {
      return Err(ValueError(NegativeNumberMessage));
    }
    if n <= 1 {
      return Ok(n);
    }
    var a: nat, b: nat := 0, 1;
    for i := 2 to n + 1
      invariant a == Fib(i - 2) && b == Fib(i - 1)
    {
      a, b := b, a + b;
    }
    return Ok(b);
  }

  /** `fibonacci_sequence(count)`: `ValueError` for a negative count, else `[fibonacci(i) for i in range(count)]`. */
  function FibonacciSequence(count: int): (r: Result<seq<nat>, Exception>)
    ensures count < 0 <==> r.Err?
    ensures r.Err? ==> r.error == ValueError(NegativeCountMessage)
  {
    if count < 0 then Err(ValueError(NegativeCountMessage))
    else Ok(seq(count, i requires 0 <= i => Fib(i)))
  }

  // ---------------------------------------------------------------------
  // Properties

  /**
   * The list starts 0, 1 and each later element is the sum of the two before it; it has
   * `count` elements and a longer list extends a shorter one.
   */
  lemma SequenceFollowsRecurrence(count: nat, m: nat)
    requires m <= count
    ensures var s := FibonacciSequence(count).value;
            |s| == count
            && (count > 0 ==> s[0] == 0) && (count > 1 ==> s[1] == 1)
            && (forall i :: 2 <= i < count ==> s[i] == s[i - 1] + s[i - 2])
            && FibonacciSequence(m).value == s[..m]
  {
  }

  /** `k` rounds of the loop's `a, b = b, a + b` from the pair (a, b): the resulting `a`. */
  function FibFrom(a: nat, b: nat, k: nat): nat
    decreases k
  {
    if k == 0 then a else FibFrom(b, a + b, k - 1)
  }

  /** Started on two consecutive numbers, `k` rounds advance `k` places. */
  lemma {:induction false} FibFromIsFib(n: nat, k: nat)
    ensures FibFrom(Fib(n), Fib(n + 1), k) == Fib(n + k)
    decreases k
  {
    if k > 0 {
      FibFromIsFib(n + 1, k - 1);
    }
  }

  /** The docstring's and the tests' values: F(5) = 5, F(10) = 55, F(20) = 6765, F(30) = 832040. */
  lemma FibValues()
    ensures Fib(0) == 0 && Fib(1) == 1 && Fib(5) == 5 && Fib(10) == 55 && Fib(20) == 6765 && Fib(30) == 832040
  {
    FibFromIsFib(0, 5);
    FibFromIsFib(0, 10);
    FibFromIsFib(0, 20);
    FibFromIsFib(0, 30);
  }

  /** The docstring's lists: `fibonacci_sequence(5) == [0, 1, 1, 2, 3]` and `fibonacci_sequence(0) == []`. */
  lemma SequenceValues()
    ensures FibonacciSequence(5) == Ok([0, 1, 1, 2, 3])
    ensures FibonacciSequence(0) == Ok([])
  {
    var s := FibonacciSequence(5).value;
    assert s[0] == 0 && s[1] == 1 && s[2] == 1 && s[3] == 2 && s[4] == 3;
    assert s == [0, 1, 1, 2, 3];
    assert FibonacciSequence(0).value == [];
  }
}
