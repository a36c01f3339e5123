/**
 The counters are 32-bit integers that wrap around. Exactly how far the progress figures
 nevertheless are what the rest of the model, which counts without bound, says they are.
 */
module Int32 {
  import opened Api
  import opened StatusUpdate
  import opened DrainFold

  const HALF: int := 0x8000_0000
  const WHOLE: int := 0x1_0000_0000

  function Wrap(x: int): (r: int)
    ensures -HALF <= r < HALF
    ensures -HALF <= x < HALF ==> r == x
  {
    (x + HALF) % WHOLE - HALF
  }

  /** Division truncates toward zero. */
  function Quotient(a: int, n: int): int
    requires n > 0
  {
    if a >= 0 then a / n else -((-a) / n)
  }

  function Progress32(initial: int, total: int): int
    requires 0 < initial < HALF && 0 <= total < HALF
  {
    var remaining := if total < initial then total else initial;
    Quotient(Wrap(Wrap(initial - remaining) * 100), initial)
  }

  lemma WrapLosesTurns(x: int) returns (turns: int)
    requires x >= HALF
    ensures turns >= 1 && Wrap(x) == x - turns * WHOLE
  {
    turns := (x + HALF) / WHOLE;
    assert x + HALF == turns * WHOLE + (x + HALF) % WHOLE;
  }

  lemma WrapAdds(a: int, b: int)
    ensures Wrap(Wrap(a) + b) == Wrap(a + b)
  {
    var q, r := (a + HALF) / WHOLE, (a + HALF) % WHOLE;
    assert a + HALF == q * WHOLE + r;
    assert Wrap(a) == a - q * WHOLE;
    SameRemainder(a + b + HALF, q);
  }

  lemma SameRemainder(x: int, q: int)
    ensures (x - q * WHOLE) % WHOLE == x % WHOLE
  {
    var y := x - q * WHOLE;
    assert x == (x / WHOLE) * WHOLE + x % WHOLE;
    assert y == (y / WHOLE) * WHOLE + y % WHOLE;
    assert (x / WHOLE - q - y / WHOLE) * WHOLE == y % WHOLE - x % WHOLE;
  }

  lemma OneMore(a: int, n: int)
    requires a >= 0 && n > 0
    ensures (a + n) / n == a / n + 1
  {
    var q, r := a / n, a % n;
    assert a + n == (q + 1) * n + r;
    Unique(a + n, n, q + 1, r);
  }

  lemma Unique(x: int, n: int, q: int, r: int)
    requires n > 0 && 0 <= r < n && x == q * n + r
    ensures x / n == q
  {
    var p := x / n;
    assert p * n <= x < p * n + n;
    if p < q {
      TimesMonotone(p + 1, q, n);
      assert false;
    } else if q < p {
      TimesMonotone(q + 1, p, n);
      assert false;
    }
  }

  /** A whole turn is more than one divisor. */
  lemma TurnShows(wrapped: int, x: int, n: int)
    requires 0 < n < HALF <= x && wrapped <= x - WHOLE
    ensures Quotient(wrapped, n) < x / n
  {
    if wrapped >= 0 {
      OneMore(wrapped, n);
      QuotientMonotone(wrapped + n, x, n);
    } else {
      QuotientMonotone(n, x, n);
      OneMore(0, n);
      QuotientMonotone(0, -wrapped, n);
    }
  }

  /** Dividing a wrapped number shows the loss, whatever the divisor. */
  lemma LossShows(x: int, n: int)
    requires x >= 0 && 0 < n < HALF
    ensures Quotient(Wrap(x), n) == x / n <==> x < HALF
  {
    if x >= HALF {
      var turns := WrapLosesTurns(x);
      TurnShows(Wrap(x), x, n);
    }
  }

  /** A node's progress is exact if and only if no more than 21,474,836 of its pods are gone. */
  lemma ProgressExactIff(initial: int, total: int)
    requires 0 < initial < HALF && 0 <= total < HALF
    ensures Progress32(initial, total) == Progress(initial, total) <==> initial - Min(total, initial) <= 21_474_836
  {
    LossShows((initial - Min(total, initial)) * 100, initial);
  }

  /** One pod more, and a node that is empty reports -99 per cent. */
  lemma ProgressWraps()
    ensures Progress32(21_474_837, 0) == -99 && Progress(21_474_837, 0) == 100
  {
    assert 21_474_837 * 100 == 2_147_483_700;
    assert Wrap(2_147_483_700) == 2_147_483_700 - WHOLE;
    assert 2_147_483_596 / 21_474_837 == 99;
  }

  /** The plan's average, summed up and divided in 32 bits. */
  method Average32(entries: seq<NodeStatus>) returns (average: int)
    requires |entries| < HALF
    requires forall i :: 0 <= i < |entries| ==> 0 <= entries[i].progress <= 100
    ensures average == SummaryOf(entries).progress <==> TallyOf(entries).progress < HALF
    ensures |entries| <= 21_474_836 ==> average == SummaryOf(entries).progress && 0 <= average <= 100
  {
    var totalProgress := 0;
    for i := 0 to |entries|
      invariant totalProgress == Wrap(TallyOf(entries[..i]).progress)
    {
      assert entries[..i + 1][..i] == entries[..i] && entries[..i + 1][i] == entries[i];
      WrapAdds(TallyOf(entries[..i]).progress, entries[i].progress);
      totalProgress := Wrap(totalProgress + entries[i].progress);
    }
    assert entries[..|entries|] == entries;
    ProgressSum(entries);
    AverageProgress(entries);
    if |entries| > 0 {
      LossShows(TallyOf(entries).progress, |entries|);
      average := Quotient(totalProgress, |entries|);
    } else {
      average := 0;
    }
  }

  /** From 21,474,837 nodes on, all of them done, the average is wrong. */
  lemma {:induction false} AverageWraps(entries: seq<NodeStatus>)
    requires forall i :: 0 <= i < |entries| ==> entries[i].progress == 100
    ensures TallyOf(entries).progress < HALF <==> |entries| <= 21_474_836
  {
    ProgressSum(entries);
  }
}
