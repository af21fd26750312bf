/** The arithmetic helpers of the kernel: rounding up to blocks, and decimal weights. */
module Utils {

  const TWO_TO_THE_32 := 0x1_0000_0000
  const TWO_TO_THE_64 := 0x1_0000_0000_0000_0000
  const MEM_BLOCK_SIZE := 64

  ghost predicate Distinct<T>(s: seq<T>) {
    forall i, j :: 0 <= i < j < |s| ==> s[i] != s[j]
  }

  newtype uint64 = x: int | 0 <= x < TWO_TO_THE_64

  // ---------- blocks ----------

  /** `to_blocks`: a 64-bit sum, the quotient cut to 32 bits. */
  function ToBlocks(bytes: nat): nat
    requires bytes < TWO_TO_THE_64
  {
    ((bytes + 63) % 0x1_0000_0000_0000_0000 / 64) % 0x1_0000_0000
  }

  /** As few blocks as hold that many bytes. */
  predicate JustHold(blocks: nat, bytes: nat) {
    bytes <= blocks * MEM_BLOCK_SIZE < bytes + MEM_BLOCK_SIZE
  }

  /** Exactly the sizes whose number of blocks fits 32 bits are rounded up rightly. */
  lemma RoundsUp(bytes: nat)
    requires bytes < TWO_TO_THE_64
    ensures JustHold(ToBlocks(bytes), bytes) <==> bytes <= (TWO_TO_THE_32 - 1) * MEM_BLOCK_SIZE
  {
    var sum := bytes + 63;
    if sum < 0x1_0000_0000_0000_0000 {
      Below(sum, 0x1_0000_0000_0000_0000);
      if sum / 64 < 0x1_0000_0000 {
        Below(sum / 64, 0x1_0000_0000);
      }
    } else {
      Wrapped(sum);
    }
  }

  /** A remainder leaves alone what is below the divisor. */
  lemma Below(n: nat, d: nat)
    requires n < d
    ensures n % d == n
  {
  }

  /** A sum over 64 bits wraps to a small one. */
  lemma Wrapped(sum: nat)
    requires 0x1_0000_0000_0000_0000 <= sum < 0x1_0000_0000_0000_0000 + 63
    ensures ((sum % 0x1_0000_0000_0000_0000) / 64) % 0x1_0000_0000 == 0
  {
    var rest := sum - 0x1_0000_0000_0000_0000;
    assert sum % 0x1_0000_0000_0000_0000 == rest;
    assert rest / 64 == 0;
  }

  // ---------- decimal numbers ----------

  function Pow10(k: nat): (p: nat)
    ensures p > 0
  {
    if k == 0 then 1 else 10 * Pow10(k - 1)
  }

  lemma Pow10Bounds()
    ensures Pow10(19) < TWO_TO_THE_64 < Pow10(20)
    ensures Pow10(20) % TWO_TO_THE_64 <= Pow10(19)
  {
    assert Pow10(5) == 100000;
    assert Pow10(10) == 100000 * Pow10(5);
    assert Pow10(15) == 100000 * Pow10(10);
    assert Pow10(20) == 100000 * Pow10(15);
  }

  lemma {:induction false} Pow10Grows(j: nat, k: nat)
    requires j <= k
    ensures 1 <= Pow10(j) <= Pow10(k)
  {
    if j < k { Pow10Grows(j, k - 1); } else if j > 0 { Pow10Grows(j - 1, k - 1); }
  }

  /** One decimal place more, with the machine's wrap-around. */
  function TimesTen(weight: uint64): uint64 {
    (weight as int * 10 % TWO_TO_THE_64) as uint64
  }

  /** As long as ten times the weight fits, the wrapped product is the product; when it does not
      fit, the wrapped product is no greater than the weight. */
  lemma OverflowShows(k: nat)
    requires k <= 19
    ensures Pow10(k) < TWO_TO_THE_64
    ensures var next := TimesTen(Pow10(k) as uint64) as int;
      if k < 19 then next == Pow10(k + 1) && next > Pow10(k) else next <= Pow10(k)
  {
    Pow10Bounds();
    Pow10Grows(k, 19);
    if k < 19 { Pow10Grows(k + 1, 19); Pow10Grows(0, k); }
  }

  /** `get_decimal_weight`: the weight of the first digit, also where ten times it overflows. */
  method GetDecimalWeight(number: uint64) returns (weight: uint64, ghost k: nat)
    ensures k <= 19 && weight as int == Pow10(k) && number as int < Pow10(k + 1)
    ensures k > 0 ==> Pow10(k) <= number as int
    ensures number as int < 10 * weight as int && (weight == 1 || weight <= number)
  {
    weight := 1;
    k := 0;
    OverflowShows(0);
    while TimesTen(weight) <= number && TimesTen(weight) > weight
      invariant k <= 19 && weight as int == Pow10(k) && (k > 0 ==> weight <= number)
      decreases 20 - k
    {
      OverflowShows(k);
      weight := TimesTen(weight);
      k := k + 1;
    }
    OverflowShows(k);
    Pow10Bounds();
  }

  lemma DivideTwice(n: nat, p: nat)
    requires p > 0
    ensures n / (10 * p) == (n / p) / 10
  {
    var q := n / p;
    Quotient(n, p);
    TenTimes(p, q / 10, q % 10);
    QuotientIs(n, 10 * p, q / 10, p * (q % 10) + n % p);
  }

  lemma Quotient(n: nat, p: nat)
    requires p > 0
    ensures n == p * (n / p) + n % p && n % p < p
  {
  }

  lemma TenTimes(p: nat, a: nat, b: nat)
    requires b < 10
    ensures p * (10 * a + b) == (10 * p) * a + p * b && p * b <= 9 * p
  {
    TimesMonotone(p, b, 9);
  }

  lemma QuotientIs(n: nat, d: nat, q: nat, r: nat)
    requires d > 0 && n == d * q + r && r < d
    ensures n / d == q
  {
    var m := n / d;
    Quotient(n, d);
    TimesMonotone(d, q, m);
    TimesMonotone(d, m, q);
    TimesMonotone(d, q + 1, m);
    TimesMonotone(d, m + 1, q);
  }

  lemma TimesMonotone(d: nat, a: int, b: int)
    ensures a <= b ==> d * a <= d * b
    ensures d * (a + 1) == d * a + d
  {
  }
}
