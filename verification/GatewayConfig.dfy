/** The two pool-sizing rules of `src/gateway/config.ts`. */
module GatewayConfig {
  import opened Common

  predicate Digit(c: char) { '0' <= c <= '9' }

  function Decimal(n: nat): string {
    if n < 10 then [('0' as int + n) as char] else Decimal(n / 10) + [('0' as int + n % 10) as char]
  }

  function Number(digits: string): nat
    requires forall i | 0 <= i < |digits| :: Digit(digits[i])
  {
    if digits == "" then 0
    else
      assert Digit(digits[|digits| - 1]);
      10 * Number(digits[..|digits| - 1]) + (digits[|digits| - 1] as int - '0' as int)
  }

  /** Only a plain decimal integer above zero is taken; anything else falls back. */
  function PositiveIntOr(value: Option<string>, fallback: nat): (n: nat)
    ensures n == fallback || (n > 0 && value.Some? && forall i | 0 <= i < |Trim(value.value)| :: Digit(Trim(value.value)[i]))
  {
    if value.None? then fallback
    else
      var s := Trim(value.value);
      if s == "" || exists i | 0 <= i < |s| :: !Digit(s[i]) then fallback
      else if Number(s) > 0 then Number(s) else fallback
  }

  lemma {:induction false} DecimalReads(n: nat)
    ensures Decimal(n) != "" && (forall i | 0 <= i < |Decimal(n)| :: Digit(Decimal(n)[i])) && Number(Decimal(n)) == n
  {
    if n < 10 {
      assert Decimal(n)[..0] == "";
    } else {
      DecimalReads(n / 10);
      assert Decimal(n)[..|Decimal(n)| - 1] == Decimal(n / 10);
    }
  }

  function Zeros(k: nat): string { seq(k, _ => '0') }

  /** The text is the decimal numeral of `n`, leading zeros allowed. */
  ghost predicate Writes(s: string, n: nat) { exists k: nat :: s == Zeros(k) + Decimal(n) }

  /** Every string of digits is the numeral of its number; only zeros have no numeral but zeros. */
  lemma {:induction false} DigitsWrite(s: string)
    requires forall i | 0 <= i < |s| :: Digit(s[i])
    ensures if Number(s) == 0 then s == Zeros(|s|) else Writes(s, Number(s))
  {
    if s != "" {
      assert Digit(s[|s| - 1]);
      var front, d := s[..|s| - 1], s[|s| - 1] as int - '0' as int;
      assert s == front + [s[|s| - 1]] && s[|s| - 1] == ('0' as int + d) as char;
      DigitsWrite(front);
      var n := Number(s);
      assert n == 10 * Number(front) + d;
      if Number(front) == 0 {
        if n > 0 { assert s == Zeros(|front|) + Decimal(n); }
      } else {
        assert n / 10 == Number(front) && n % 10 == d;
        var k: nat :| front == Zeros(k) + Decimal(Number(front));
        assert s == Zeros(k) + Decimal(n);
      }
    }
  }

  lemma {:induction false} ZerosRead(k: nat, s: string)
    requires forall i | 0 <= i < |s| :: Digit(s[i])
    ensures Number(Zeros(k) + s) == Number(s)
    decreases |s|, k
  {
    var t := Zeros(k) + s;
    if s != "" {
      assert t[..|t| - 1] == Zeros(k) + s[..|s| - 1];
      ZerosRead(k, s[..|s| - 1]);
    } else if k > 0 {
      assert t == Zeros(k) && t[..|t| - 1] == Zeros(k - 1) + "";
      ZerosRead(k - 1, "");
    } else {
      assert t == "";
    }
  }

  /** A number other than the fallback comes out exactly when the trimmed text is its numeral. */
  lemma PositiveIntIsExact(value: Option<string>, fallback: nat, n: nat)
    requires n > 0 && n != fallback
    ensures PositiveIntOr(value, fallback) == n <==> value.Some? && Writes(Trim(value.value), n)
  {
    hide Trim;
    if value.Some? {
      var s := Trim(value.value);
      if Writes(s, n) {
        var k: nat :| s == Zeros(k) + Decimal(n);
        DecimalReads(n);
        ZerosRead(k, Decimal(n));
      }
      if s != "" && forall i | 0 <= i < |s| :: Digit(s[i]) { DigitsWrite(s); }
    }
  }

  /** A printed positive integer is read back, whatever the fallback. */
  lemma PositiveIntRoundTrip(n: nat, fallback: nat)
    requires n > 0
    ensures PositiveIntOr(Some(Decimal(n)), fallback) == n
  {
    DecimalReads(n);
    assert Digit(Decimal(n)[0]) && Digit(Decimal(n)[|Decimal(n)| - 1]);
    assert Trim(Decimal(n)) == Decimal(n);
  }

  /** The number `poolSizingError` would require, when it refuses. */
  function PoolSizingError(consumers: nat, perConsumer: nat, max: nat): Option<nat> {
    var required := consumers * perConsumer + 1;
    if max < required then Some(required) else None
  }

  predicate WithinShares(used: nat, consumers: nat, perConsumer: nat) { used <= consumers * perConsumer }

  /** The floor is exact: a pool passes when every consumer's whole share leaves a slot over, and the number asked for is the least that does. */
  lemma FloorIsExact(consumers: nat, perConsumer: nat, max: nat)
    ensures PoolSizingError(consumers, perConsumer, max).None? <==> forall used: nat | WithinShares(used, consumers, perConsumer) :: used < max
    ensures var r := PoolSizingError(consumers, perConsumer, max);
      r.Some? ==> forall m: nat :: PoolSizingError(consumers, perConsumer, m).None? <==> r.value <= m
  {
    var whole: nat := consumers * perConsumer;
    if max <= whole { assert WithinShares(whole, consumers, perConsumer) && !(whole < max); }
  }
}
