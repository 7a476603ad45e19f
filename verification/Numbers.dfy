/** Integer facts shared by the other modules. */
module Numbers {

  function Min(a: int, b: int): int { if a <= b then a else b }
  function Max(a: int, b: int): int { if a >= b then a else b }

  lemma ModUnique(n: int, a: int, q: int, r: int)
    requires a > 0 && n == q * a + r && 0 <= r < a
    ensures n / a == q && n % a == r
  {
    var d := n / a - q;
    assert n == n / a * a + n % a;
    assert d * a == r - n % a;
    assert d >= 1 ==> d * a >= a;
    assert d <= -1 ==> d * a <= -a;
  }

  function Align4(n: nat): (r: nat)
    ensures n <= r <= n + 3 && r % 4 == 0
  {
    (n + 3) / 4 * 4
  }

  // The next multiple of a.
  lemma AlignFacts(n: nat, a: nat)
    requires a > 0
    ensures n <= (n + a - 1) / a * a < n + a && (n + a - 1) / a * a % a == 0
  {
    var q := (n + a - 1) / a;
    assert n + a - 1 == q * a + (n + a - 1) % a;
    ModUnique(q * a, a, q, 0);
  }
}
