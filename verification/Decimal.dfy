/** Base-ten text, and the request ids made from an int64 counter (strconv.FormatInt). */
module Decimal {
  import opened Words

  predicate IsDigit(c: char) { '0' <= c <= '9' }

  function Digit(d: nat): (c: char)
    requires d < 10
    ensures IsDigit(c) && c as int - '0' as int == d
  {
    d as char + '0'
  }

  function Digits(n: nat): (s: string)
    ensures s != "" && forall c | c in s :: IsDigit(c)
  {
    if n < 10 then [Digit(n)] else Digits(n / 10) + [Digit(n % 10)]
  }

  function DecimalValue(s: string): nat
    requires forall c | c in s :: IsDigit(c)
  {
    if s == "" then 0
    else
      assert IsDigit(s[|s| - 1]);
      10 * DecimalValue(s[..|s| - 1]) + (s[|s| - 1] as int - '0' as int)
  }

  lemma {:induction false} DigitsRead(n: nat)
    ensures DecimalValue(Digits(n)) == n
  {
    var s := Digits(n);
    if n < 10 {
      assert s[..0] == "";
    } else {
      DigitsRead(n / 10);
      assert s[..|s| - 1] == Digits(n / 10);
    }
  }

  function FormatInt(n: int): (s: string)
    ensures s != ""
  {
    if n < 0 then "-" + Digits(-n) else Digits(n)
  }

  lemma FormatIntInjective(m: int, n: int)
    requires FormatInt(m) == FormatInt(n)
    ensures m == n
  {
    if m < 0 || n < 0 {
      assert FormatInt(m)[0] in FormatInt(m) && FormatInt(n)[0] in FormatInt(n);
      assert m < 0 && n < 0 by {
        assert !IsDigit('-');
      }
      assert FormatInt(m)[1..] == Digits(-m) && FormatInt(n)[1..] == Digits(-n);
      DigitsRead(-m);
      DigitsRead(-n);
    } else {
      DigitsRead(m);
      DigitsRead(n);
    }
  }

  /** An int64 counter's next value. */
  function Increment(c: int): int {
    if c + 1 < TWO_63 then c + 1 else c + 1 - TWO_64
  }

  /** The value after `n` increments from zero. */
  function Counter(n: nat): (c: int)
    ensures -TWO_63 <= c < TWO_63
  {
    if n == 0 then 0 else Increment(Counter(n - 1))
  }

  lemma {:induction false} CounterLaps(n: nat) returns (laps: int)
    ensures Counter(n) == n - laps * TWO_64
  {
    laps := 0;
    if n == 0 {
    } else {
      laps := CounterLaps(n - 1);
      if Counter(n - 1) + 1 == TWO_63 {
        laps := laps + 1;
      }
    }
  }

  lemma ModUnshifted(x: int, k: int)
    ensures (x + k * TWO_64) % TWO_64 == x % TWO_64
  {
  }

  lemma ModOfSmall(x: int)
    requires -TWO_64 < x < TWO_64
    ensures x % TWO_64 == 0 <==> x == 0
  {
  }

  lemma CountersEqualIff(m: nat, n: nat)
    ensures Counter(m) == Counter(n) <==> (m - n) % TWO_64 == 0
  {
    var p := CounterLaps(m);
    var q := CounterLaps(n);
    var apart := Counter(m) - Counter(n);
    assert m - n == apart + (p - q) * TWO_64;
    ModUnshifted(apart, p - q);
    ModOfSmall(apart);
  }

  /** The id of call number `k`, counting from zero. */
  function RequestId(k: nat): string {
    FormatInt(Counter(k + 1))
  }

  /** Two calls share an id exactly when the counter has gone all the way round between them. */
  lemma RequestIdsEqualIff(j: nat, k: nat)
    ensures RequestId(j) == RequestId(k) <==> (j - k) % TWO_64 == 0
  {
    CountersEqualIff(j + 1, k + 1);
    assert j + 1 - (k + 1) == j - k;
    if RequestId(j) == RequestId(k) {
      FormatIntInjective(Counter(j + 1), Counter(k + 1));
    }
  }

  /** While the counter has not gone round, ids are distinct. */
  lemma RequestIdsDistinct(j: nat, k: nat)
    requires j < TWO_64 && k < TWO_64 && RequestId(j) == RequestId(k)
    ensures j == k
  {
    RequestIdsEqualIff(j, k);
  }
}
