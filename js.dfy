/** JavaScript value semantics that the three components rely on: optional
    strings and their truthiness, the `a || b` fallback on them, and the
    remainder operator `%`, which truncates toward zero. */
module Js {

  /** An optional value: a prop or a document field that may be absent. */
  datatype Option<+T> = None | Some(value: T)

  /** A string-valued field is truthy when it is present and not empty
      (`undefined`, `null` and `""` are all falsy). */
  predicate Truthy(s: Option<string>) {
    s.Some? && s.value != ""
  }

  /** `a || b` on optional strings: `a` when it is truthy, `b` otherwise. */
  function Or(a: Option<string>, b: Option<string>): (r: Option<string>)
    ensures Truthy(r) <==> Truthy(a) || Truthy(b)
    ensures Truthy(a) ==> r == a
    ensures !Truthy(a) ==> r == b
  {
    if Truthy(a) then a else b
  }

  /** `x % n` as JavaScript computes it on integers, for a positive divisor:
      the remainder takes the sign of the dividend. */
  function JsRem(x: int, n: int): (r: int)
    requires n > 0
    ensures -n < r < n
    ensures x >= 0 ==> r >= 0
    ensures x <= 0 ==> r <= 0
    ensures (x - r) % n == 0
  {
    if x >= 0 then
      ModUnique(x - x % n, n, x / n, 0);
      x % n
    else
      ModUnique(x + (-x) % n, n, -((-x) / n), 0);
      -((-x) % n)
  }

  lemma MulAtLeast(a: int, n: int)
    requires a >= 1 && n > 0
    ensures a * n >= n
  {
  }

  /** Quotient and remainder are unique: the division facts every modular
      lemma below is built on. */
  lemma ModUnique(x: int, n: int, q: int, r: int)
    requires 0 < n && 0 <= r < n && x == q * n + r
    ensures x % n == r && x / n == q
  {
    var q', r' := x / n, x % n;
    assert x == q' * n + r';
    assert (q - q') * n == r' - r by {
      assert (q - q') * n == q * n - q' * n;
    }
    if q > q' {
      MulAtLeast(q - q', n);
    }
    if q < q' {
      MulAtLeast(q' - q, n);
    }
  }

  /** Taking one step after reducing modulo n is taking the step first. */
  lemma ModSucc(x: int, n: int)
    requires n > 0
    ensures (x % n + 1) % n == (x + 1) % n
  {
    var q, r := x / n, x % n;
    if r + 1 < n {
      ModUnique(x + 1, n, q, r + 1);
    } else {
      ModUnique(x + 1, n, q + 1, 0);
    }
  }

  /** Stepping back after reducing modulo n is stepping back first. */
  lemma ModPred(x: int, n: int)
    requires n > 0
    ensures (x % n - 1 + n) % n == (x - 1) % n
  {
    var q, r := x / n, x % n;
    if r >= 1 {
      ModUnique(x - 1, n, q, r - 1);
      ModUnique(r - 1 + n, n, 1, r - 1);
    } else {
      ModUnique(x - 1, n, q - 1, n - 1);
    }
  }
}
