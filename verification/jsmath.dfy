/** JavaScript number operations the engine relies on, stated over unbounded
    integers: the truncating remainder operator `%`, the `if (idx < 0) idx += n`
    normalisation that follows it in the source, `Math.round`, and array
    indexing that yields `undefined` outside the bounds. */
module JsMath {

  import opened Wrappers

  /** JavaScript `a % n` for n > 0: the sign follows the dividend
      (truncation toward zero), unlike Dafny's Euclidean `%`. */
  function JsRem(a: int, n: int): (r: int)
    requires n > 0
    ensures -n < r < n
    ensures a >= 0 ==> 0 <= r
    ensures a <= 0 ==> r <= 0
    ensures r >= 0 ==> r == a % n
    ensures r < 0 ==> r + n == a % n
  {
    if a >= 0 then a % n
    else
      var q, r0 := (-a) / n, (-a) % n;
      if r0 == 0 then DivModUnique(a, n, -q, 0); 0
      else DivModUnique(a, n, -q - 1, n - r0); -r0
  }

  lemma {:induction false} MulAtLeast(n: int, d: int)
    requires n > 0 && d >= 1
    ensures n * d >= n
    decreases d
  {
    if d > 1 {
      MulAtLeast(n, d - 1);
    }
  }

  /** Multiplying by a positive number keeps the sign. */
  lemma MulSign(n: int, x: int)
    requires n > 0
    ensures n * x <= 0 <==> x <= 0
    ensures n * x >= 0 <==> x >= 0
  {
    if x >= 1 {
      MulAtLeast(n, x);
    } else if x <= -1 {
      MulAtLeast(n, -x);
    }
  }

  /** Multiplying by a positive number preserves strict order. */
  lemma MulMonotone(n: int, x: int, y: int)
    requires n > 0
    ensures n * x < n * y <==> x < y
  {
    assert n * y - n * x == n * (y - x);
    MulSign(n, y - x);
  }

  /** Reducing modulo an even number keeps the parity. */
  lemma EvenModParity(a: int, h: int)
    requires h > 0
    ensures (a % (2 * h)) % 2 == a % 2
  {
    var q, r := a / (2 * h), a % (2 * h);
    assert a == 2 * (h * q) + r;
    DivModUnique(a, 2, h * q + r / 2, r % 2);
  }

  /** Euclidean division is unique: any quotient/remainder pair with the
      remainder in 0..n-1 is the one `/` and `%` compute. */
  lemma DivModUnique(a: int, n: int, q: int, r: int)
    requires n > 0 && a == n * q + r && 0 <= r < n
    ensures a % n == r && a / n == q
  {
    var q0 := a / n;
    if q > q0 {
      MulAtLeast(n, q - q0);
      assert false;
    }
    if q < q0 {
      MulAtLeast(n, q0 - q);
      assert false;
    }
  }

  /** The source's normalisation step: a negative remainder gets `n` added. */
  function Normalize(idx: int, n: int): int
  {
    if idx < 0 then idx + n else idx
  }

  /** `JsRem` followed by the normalisation lands exactly on the
      mathematical (Euclidean) residue. */
  function Wrap(a: int, n: int): (r: int)
    requires n > 0
    ensures 0 <= r < n
    ensures r == a % n
  {
    Normalize(JsRem(a, n), n)
  }

  /** `Math.round(p / q)` for q > 0: the nearest integer, halves rounded
      up, computed as floor((2p + q) / 2q). */
  function JsRound(p: int, q: int): (r: int)
    requires q > 0
    ensures 2 * q * r - q <= 2 * p < 2 * q * r + q
    ensures 0 <= p <= 100 * q ==> 0 <= r <= 100
  {
    var r := (2 * p + q) / (2 * q);
    MulSign(q, 2 * r - 201);
    MulSign(q, 2 * r + 1);
    r
  }

  /** `a[i]` on a JavaScript array: `undefined` (None) outside 0..|a|-1,
      including every negative index. */
  function JsIndex<T>(a: seq<T>, i: int): (r: Option<T>)
    ensures r.Some? <==> 0 <= i < |a|
    ensures r.Some? ==> r.value == a[i]
  {
    if 0 <= i < |a| then Some(a[i]) else None
  }
}
