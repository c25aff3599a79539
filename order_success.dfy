/**
 * The order confirmation page: a short order number cut from the clock
 * reading, and the text of the message that quotes it.
 */
module OrderSuccess {
  import opened Text

  /** `s.slice(start)`: a negative start counts back from the end. */
  function Slice(s: string, start: int): (r: string)
    ensures |r| <= |s| && r == s[|s| - |r|..]
    ensures start < 0 ==> |r| == (if |s| + start < 0 then |s| else -start)
  {
    var from :=
      if start < 0 then (if |s| + start < 0 then 0 else |s| + start)
      else if start > |s| then |s| else start;
    s[from..]
  }

  /** `UA${Date.now().toString().slice(-6)}` for clock reading `now`. */
  function OrderNumber(now: nat): (r: string)
    ensures |r| >= 2 && r[..2] == "UA"
    ensures var digits := Decimal(now);
            && |r| == 2 + (if |digits| < 6 then |digits| else 6)
            && r[2..] == digits[|digits| - (|r| - 2)..]
    ensures AllDigits(r[2..])
  {
    var digits := Decimal(now);
    var tail := Slice(digits, -6);
    assert forall i :: 0 <= i < |tail| ==> tail[i] == digits[|digits| - |tail| + i];
    "UA" + tail
  }

  function Pow10(k: nat): (p: nat)
    ensures p > 0
  {
    if k == 0 then 1 else 10 * Pow10(k - 1)
  }

  lemma {:induction false} MulAtLeast(d: int, x: int)
    requires d > 0 && x >= 1
    ensures d * x >= d
  {
    if x > 1 {
      MulAtLeast(d, x - 1);
      assert d * x == d * (x - 1) + d;
    }
  }

  lemma ModUnique(n: int, d: int, a: int, r: int)
    requires d > 0 && 0 <= r < d && n == d * a + r
    ensures n % d == r
  {
    var q, m := n / d, n % d;
    assert n == d * q + m;
    assert d * (a - q) == m - r;
    if a > q {
      MulAtLeast(d, a - q);
    } else if a < q {
      MulAtLeast(d, q - a);
    }
  }

  lemma ModStep(n: nat, p: nat)
    requires p > 0
    ensures ((n / 10) % p) * 10 + n % 10 == n % (10 * p)
  {
    var q, r := n / 10, n % 10;
    var a, b := q / p, q % p;
    assert n == 10 * q + r;
    assert q == p * a + b;
    assert n == (10 * p) * a + (10 * b + r);
    ModUnique(n, 10 * p, a, 10 * b + r);
  }

  /** The numeral of `n` is the numeral of `n / 10` followed by the last digit. */
  lemma DecimalSplit(n: nat)
    requires n >= 10
    ensures Decimal(n) == Decimal(n / 10) + [DigitChar(n % 10)]
    ensures DigitValue(DigitChar(n % 10)) == n % 10
  {
  }

  /** The last `k` digits of a numeral spell the number modulo 10^k. */
  lemma {:induction false} LastDigits(n: nat, k: nat)
    requires k <= |Decimal(n)|
    ensures ValueOf(Decimal(n)[|Decimal(n)| - k..]) == n % Pow10(k)
  {
    var d := Decimal(n);
    if k == 0 {
      assert d[|d|..] == [];
    } else if n < 10 {
      assert d[|d| - k..] == d;
    } else {
      var front := Decimal(n / 10);
      DecimalSplit(n);
      var tail := d[|d| - k..];
      var init := tail[..|tail| - 1];
      assert init == front[|front| - (k - 1)..];
      assert tail[|tail| - 1] == DigitChar(n % 10);
      LastDigits(n / 10, k - 1);
      assert ValueOf(init) == (n / 10) % Pow10(k - 1);
      assert ValueOf(tail) == ValueOf(init) * 10 + n % 10;
      ModStep(n, Pow10(k - 1));
    }
  }

  /** A numeral of `k` digits stands for a number below 10^k. */
  lemma {:induction false} DecimalBound(n: nat)
    ensures n < Pow10(|Decimal(n)|)
  {
    if n >= 10 {
      DecimalBound(n / 10);
    }
  }

  lemma {:induction false} Pow10Grows(j: nat, k: nat)
    requires j <= k
    ensures Pow10(j) <= Pow10(k)
  {
    if j < k {
      Pow10Grows(j, k - 1);
    }
  }

  /** The digits after "UA" spell the clock reading modulo one million. */
  lemma OrderNumberEncodesClock(now: nat)
    ensures AllDigits(OrderNumber(now)[2..])
    ensures ValueOf(OrderNumber(now)[2..]) == now % 1000000
  {
    var digits := Decimal(now);
    var m := |OrderNumber(now)| - 2;
    var tail := OrderNumber(now)[2..];
    assert tail == digits[|digits| - m..];
    LastDigits(now, m);
    assert ValueOf(tail) == now % Pow10(m);
    if m == 6 {
      assert Pow10(6) == 1000000;
    } else {
      DecimalBound(now);
      Pow10Grows(m, 6);
      assert m == |digits|;
      assert Pow10(6) == 1000000;
      ModUnique(now, Pow10(m), 0, now);
      ModUnique(now, 1000000, 0, now);
    }
  }

  const MessageHead := "Hi! I just placed an order ("
  const MessageTail := "). Can you confirm my order details?"

  /** The WhatsApp message text of `handleWhatsAppContact`. */
  function ContactMessage(orderNumber: string): (m: string)
    ensures |m| == |MessageHead| + |orderNumber| + |MessageTail|
    ensures m[|MessageHead|..|MessageHead| + |orderNumber|] == orderNumber
    ensures m[..|MessageHead|] == MessageHead
  {
    MessageHead + orderNumber + MessageTail
  }
}
