/**
 Idempotency keys: "schedule_id:sequence_no".  The key is unique across the whole
 database, so two occurrences must never render to the same text.
 */
module Keys {
  function Digit(n: nat): char
    requires n < 10
  {
    '0' + n as char
  }

  function Decimal(n: nat): (s: string)
    ensures |s| >= 1 && forall c | c in s :: '0' <= c <= '9'
  {
    if n < 10 then [Digit(n)] else Decimal(n / 10) + [Digit(n % 10)]
  }

  /** %d */
  function Render(n: int): (s: string)
    ensures ':' !in s
    ensures |s| >= 1 && (s[0] == '-' <==> n < 0)
  {
    if n < 0 then "-" + Decimal(-n)
    else
      assert Decimal(n)[0] in Decimal(n);
      Decimal(n)
  }

  function IdempotencyKey(scheduleId: string, seqNo: int): string {
    scheduleId + ":" + Render(seqNo)
  }

  /** The number a string of decimal digits stands for. */
  function Value(s: string): int {
    if |s| == 0 then 0 else 10 * Value(s[..|s| - 1]) + (s[|s| - 1] as int - '0' as int)
  }

  /** A number is written in decimal, without leading zeros. */
  lemma {:induction false} DecimalReadsBack(n: nat)
    ensures Value(Decimal(n)) == n
    ensures Decimal(n)[0] == '0' <==> n == 0
  {
    if n >= 10 {
      DecimalReadsBack(n / 10);
      var s := Decimal(n);
      assert s[..|s| - 1] == Decimal(n / 10);
    } else {
      assert Decimal(n) == [Digit(n)] && Value([Digit(n)][..0]) == 0;
    }
  }

  /** A key is the schedule's id, a colon, and the sequence number in decimal. */
  lemma KeyFormat(scheduleId: string, seqNo: nat)
    ensures var key, n := IdempotencyKey(scheduleId, seqNo), |scheduleId|;
            && |key| > n + 1 && key[..n] == scheduleId && key[n] == ':'
            && Value(key[n + 1..]) == seqNo && (key[n + 1] == '0' <==> seqNo == 0)
            && forall i :: n < i < |key| ==> '0' <= key[i] <= '9'
  {
    DecimalReadsBack(seqNo);
    var key, n := IdempotencyKey(scheduleId, seqNo), |scheduleId|;
    assert key[n + 1..] == Decimal(seqNo);
    forall i | n < i < |key| ensures '0' <= key[i] <= '9' {
      assert key[i] == Decimal(seqNo)[i - n - 1] && key[i] in Decimal(seqNo);
    }
  }

  lemma DigitInjective(m: nat, n: nat)
    requires m < 10 && n < 10 && Digit(m) == Digit(n)
    ensures m == n
  {
    assert Digit(m) as int == '0' as int + m;
    assert Digit(n) as int == '0' as int + n;
  }

  lemma {:induction false} DecimalInjective(m: nat, n: nat)
    requires Decimal(m) == Decimal(n)
    ensures m == n
  {
    var s, t := Decimal(m), Decimal(n);
    assert s[|s| - 1] == Digit(m % 10) && t[|t| - 1] == Digit(n % 10);
    DigitInjective(m % 10, n % 10);
    if m < 10 || n < 10 {
      assert |s| == 1;
    } else {
      assert Decimal(m / 10) == s[..|s| - 1] == t[..|t| - 1] == Decimal(n / 10);
      DecimalInjective(m / 10, n / 10);
    }
  }

  lemma RenderInjective(m: int, n: int)
    requires Render(m) == Render(n)
    ensures m == n
  {
    var s, t := Render(m), Render(n);
    if m < 0 && n < 0 {
      assert Decimal(-m) == s[1..] == t[1..] == Decimal(-n);
      DecimalInjective(-m, -n);
    } else {
      DecimalInjective(m, n);
    }
  }

  lemma PastTheColon(a: string, x: string, k: nat)
    ensures |a| < k < |a + ":" + x| ==> (a + ":" + x)[k] in x
  {
    assert |a| < k < |a + ":" + x| ==> (a + ":" + x)[k] == x[k - |a| - 1];
  }

  /** The last colon splits a key, whatever the schedule id contains. */
  lemma SplitUnique(a: string, x: string, b: string, y: string)
    requires a + ":" + x == b + ":" + y
    requires ':' !in x && ':' !in y
    ensures a == b && x == y
  {
    var s := a + ":" + x;
    PastTheColon(a, x, |b|);
    PastTheColon(b, y, |a|);
    assert s[|a|] == ':' && s[|b|] == ':';
    assert |a| == |b|;
    assert a == s[..|a|] == b && x == s[|a| + 1..] == y;
  }

  /** Two occurrences share a key exactly when they are the same occurrence. */
  lemma IdempotencyKeyInjective(id1: string, n1: int, id2: string, n2: int)
    ensures IdempotencyKey(id1, n1) == IdempotencyKey(id2, n2) <==> id1 == id2 && n1 == n2
  {
    if IdempotencyKey(id1, n1) == IdempotencyKey(id2, n2) {
      SplitUnique(id1, Render(n1), id2, Render(n2));
      RenderInjective(n1, n2);
    }
  }
}
