/**
 Cron ticks and lease names: epoch-aligned intervals, the least matching minute of a
 field schedule, and one lease per plan among those of the same expression.
 */
module CronSchedules {
  import opened Wrappers
  import opened Text
  import CronLeaders

  const TWO64: int := 0x1_0000_0000_0000_0000

  predicate IsInt64(n: int) {
    MIN_INT64 <= n <= MAX_INT64
  }

  /** The int64 that arithmetic on n leaves. */
  function Wrap64(n: int): (r: int)
    ensures IsInt64(r) && (IsInt64(n) ==> r == n)
    ensures (r - n) % TWO64 == 0
  {
    var m := n % TWO64;
    if m > MAX_INT64 then m - TWO64 else m
  }

  /** Go's integer division and remainder, which truncate toward zero. */
  function Quo(a: int, b: int): int
    requires b > 0
  {
    if a >= 0 then a / b else -(-a / b)
  }

  function Rem(a: int, b: int): int
    requires b > 0
  {
    a - Quo(a, b) * b
  }

  // ---------- @every ----------

  /** The next tick in nanoseconds since the epoch. */
  method EpochAlignedNext(elapsed: int, period: int) returns (next: int)
    requires IsInt64(elapsed) && IsInt64(period) && period > 0
    ensures next == EpochNext(elapsed, period)
  {
    var slot := Quo(elapsed, period);
    if elapsed < 0 && Rem(elapsed, period) != 0 {
      slot := slot - 1;
    }
    QuoIsFloor(elapsed, period);
    next := Wrap64((slot + 1) * period);
  }

  function EpochNext(elapsed: int, period: int): int
    requires period > 0
  {
    Wrap64((elapsed / period + 1) * period)
  }

  lemma QuoIsFloor(a: int, b: int)
    requires b > 0
    ensures a / b == Quo(a, b) - if a < 0 && Rem(a, b) != 0 then 1 else 0
  {
    if a < 0 {
      var q, r := -a / b, -a % b;
      assert -a == q * b + r;
      if r == 0 {
        assert a == -q * b;
        FloorUnique(a, b, -q);
      } else {
        assert a == (-q - 1) * b + (b - r);
        FloorUnique(a, b, -q - 1);
      }
    }
  }

  lemma FloorUnique(a: int, b: int, q: int)
    requires b > 0 && q * b <= a < (q + 1) * b
    ensures a / b == q
  {
    var p := a / b;
    assert p * b <= a < (p + 1) * b;
    assert p < q ==> (p + 1) * b <= q * b;
    assert q < p ==> (q + 1) * b <= p * b;
  }

  /** The least multiple of the period after an instant. */
  predicate IsLeastMultipleAfter(next: int, elapsed: int, period: int)
    requires period > 0
  {
    next % period == 0 && elapsed < next <= elapsed + period
  }

  /**
   Over all int64 instants, before and after the epoch, the next tick is the least
   multiple of the period after the instant exactly when the product does not overflow.
   */
  lemma EpochNextIsLeastMultiple(elapsed: int, period: int)
    requires IsInt64(elapsed) && IsInt64(period) && period > 0
    ensures IsLeastMultipleAfter(EpochNext(elapsed, period), elapsed, period) <==> (elapsed / period + 1) * period <= MAX_INT64
  {
    var slot := elapsed / period;
    var exact := (slot + 1) * period;
    assert slot * period <= elapsed < exact <= elapsed + period;
    if exact <= MAX_INT64 {
      MultipleOf(slot + 1, period);
    }
  }

  lemma MultipleOf(k: int, period: int)
    requires period > 0
    ensures (k * period) % period == 0
  {
    FloorUnique(k * period, period, k);
  }

  /** Replicas whose clocks stand between the same two multiples derive the same tick. */
  lemma SameSlotSameTick(a: int, b: int, period: int)
    requires period > 0 && a <= b
    requires forall m | a < m <= b :: m % period != 0
    ensures EpochNext(a, period) == EpochNext(b, period)
  {
    if a / period != b / period {
      var m := (b / period) * period;
      MultipleOf(b / period, period);
      assert m <= b;
      if m <= a {
        FloorUnique(a, period, b / period);
      }
    }
  }

  /** Where the product does not overflow, every tick lies strictly ahead, which a leadership term relies on. */
  lemma EpochIsForward(period: int, ttl: int)
    requires period > 0
    ensures CronLeaders.Forward(CronLeaders.Schedule(
              at => if IsInt64((at / period + 1) * period) then Some(EpochNext(at, period)) else None, ttl))
  {
  }

  // ---------- lease names and fire keys ----------

  function Occurrences(exprs: seq<string>, expr: string): nat {
    if exprs == [] then 0
    else Occurrences(exprs[..|exprs| - 1], expr) + if exprs[|exprs| - 1] == expr then 1 else 0
  }

  /** `sum` renders the first four bytes of the expression's SHA-256 in hex. */
  function LeaseName(sum: string -> string, expr: string, index: nat): string {
    "cron:" + sum(expr) + ":" + Itoa(index)
  }

  method CronLeaseNamesForPlans(sum: string -> string, exprs: seq<string>) returns (names: seq<string>)
    ensures names == LeaseNames(sum, exprs)
  {
    var occurrences: map<string, nat> := map[];
    names := [];
    for i := 0 to |exprs|
      invariant names == LeaseNames(sum, exprs[..i])
      invariant forall expr :: (if expr in occurrences then occurrences[expr] else 0) == Occurrences(exprs[..i], expr)
    {
      var expr := exprs[i];
      var seen := if expr in occurrences then occurrences[expr] else 0;
      names := names + [LeaseName(sum, expr, seen)];
      occurrences := occurrences[expr := seen + 1];
      assert exprs[..i + 1][..i] == exprs[..i];
    }
    assert exprs[..|exprs|] == exprs;
  }

  function LeaseNames(sum: string -> string, exprs: seq<string>): (names: seq<string>)
    ensures |names| == |exprs|
  {
    if exprs == [] then []
    else
      var rest := exprs[..|exprs| - 1];
      LeaseNames(sum, rest) + [LeaseName(sum, exprs[|exprs| - 1], Occurrences(rest, exprs[|exprs| - 1]))]
  }

  lemma {:induction false} LeaseNameAt(sum: string -> string, exprs: seq<string>, i: nat)
    requires i < |exprs|
    ensures LeaseNames(sum, exprs)[i] == LeaseName(sum, exprs[i], Occurrences(exprs[..i], exprs[i]))
  {
    var n := |exprs| - 1;
    if i < n {
      LeaseNameAt(sum, exprs[..n], i);
      assert exprs[..n][..i] == exprs[..i];
    }
  }

  predicate Distinct(names: seq<string>) {
    forall i, j | 0 <= i < j < |names| :: names[i] != names[j]
  }

  lemma Associate(a: string, b: string, c: string)
    ensures (a + b) + c == a + (b + c)
  {
  }

  lemma NameShape(sum: string -> string, e: string, i: nat)
    ensures LeaseName(sum, e, i) == "cron:" + (sum(e) + (":" + Itoa(i)))
  {
    Associate("cron:" + sum(e), ":", Itoa(i));
    Associate("cron:", sum(e), ":" + Itoa(i));
  }

  lemma NameParts(sum: string -> string, e: string, i: nat, e': string, i': nat)
    requires |sum(e)| == |sum(e')|
    requires LeaseName(sum, e, i) == LeaseName(sum, e', i')
    ensures sum(e) == sum(e') && i == i'
  {
    NameShape(sum, e, i);
    NameShape(sum, e', i');
    hide LeaseName, Itoa;
    var tail, tail' := ":" + Itoa(i), ":" + Itoa(i');
    Behind("cron:", "cron:", sum(e) + tail, sum(e') + tail');
    Behind(sum(e), sum(e'), tail, tail');
    Behind(":", ":", Itoa(i), Itoa(i'));
    ItoaInjective(i, i');
  }

  lemma Behind(a: string, b: string, r: string, s: string)
    requires |a| == |b| && a + r == b + s
    ensures a == b && r == s
  {
    assert a == (a + r)[..|a|] && b == (b + s)[..|b|];
    assert r == (a + r)[|a|..] && s == (b + s)[|b|..];
  }

  lemma {:induction false} OccurrencesGrow(exprs: seq<string>, i: nat, j: nat)
    requires i < j <= |exprs|
    ensures Occurrences(exprs[..i], exprs[i]) < Occurrences(exprs[..j], exprs[i])
    decreases j
  {
    assert exprs[..j][..j - 1] == exprs[..j - 1];
    if i < j - 1 {
      OccurrencesGrow(exprs, i, j - 1);
    }
  }

  /** The plan of an expression that has exactly n others before it. */
  lemma {:induction false} NthOccurrence(exprs: seq<string>, expr: string, n: nat) returns (i: nat)
    requires n < Occurrences(exprs, expr)
    ensures i < |exprs| && exprs[i] == expr && Occurrences(exprs[..i], expr) == n
  {
    var last := |exprs| - 1;
    if n < Occurrences(exprs[..last], expr) {
      i := NthOccurrence(exprs[..last], expr, n);
      assert exprs[..last][..i] == exprs[..i];
    } else {
      i := last;
    }
  }

  /**
   Whatever other plans come, go or move: a plan finds its lease name again in another list
   if and only if that list has more plans of its expression than stood before it; so the
   same plans in any order have the same names.
   */
  lemma NamesSurviveOtherPlans(sum: string -> string, exprs: seq<string>, others: seq<string>, i: nat)
    requires i < |exprs|
    ensures (exists j :: 0 <= j < |others| && others[j] == exprs[i] && LeaseNames(sum, others)[j] == LeaseNames(sum, exprs)[i])
              <==> Occurrences(exprs[..i], exprs[i]) < Occurrences(others, exprs[i])
  {
    hide LeaseNames, LeaseName, Occurrences;
    var expr, n := exprs[i], Occurrences(exprs[..i], exprs[i]);
    LeaseNameAt(sum, exprs, i);
    if n < Occurrences(others, expr) {
      var j := NthOccurrence(others, expr, n);
      LeaseNameAt(sum, others, j);
    }
    forall j | 0 <= j < |others| && others[j] == expr && LeaseNames(sum, others)[j] == LeaseNames(sum, exprs)[i]
      ensures n < Occurrences(others, expr)
    {
      LeaseNameAt(sum, others, j);
      NameParts(sum, expr, n, expr, Occurrences(others[..j], expr));
      OccurrencesGrow(others, j, |others|);
      assert others[..|others|] == others;
    }
  }

  lemma FirstOccurrence(exprs: seq<string>, expr: string) returns (i: nat)
    requires expr in exprs
    ensures i < |exprs| && exprs[i] == expr && Occurrences(exprs[..i], expr) == 0
  {
    SomeOccurrence(exprs, expr);
    i := NthOccurrence(exprs, expr, 0);
  }

  lemma {:induction false} SomeOccurrence(exprs: seq<string>, expr: string)
    requires expr in exprs
    ensures Occurrences(exprs, expr) > 0
  {
    if exprs[|exprs| - 1] != expr {
      SomeOccurrence(exprs[..|exprs| - 1], expr);
    }
  }

  /** Plans share a lease exactly when two different expressions share their four-byte digest. */
  lemma LeasesAreSeparate(sum: string -> string, exprs: seq<string>)
    requires forall e, e' | e in exprs && e' in exprs :: |sum(e)| == |sum(e')|
    ensures Distinct(LeaseNames(sum, exprs)) <==> forall e, e' | e in exprs && e' in exprs && sum(e) == sum(e') :: e == e'
  {
    var names := LeaseNames(sum, exprs);
    if forall e, e' | e in exprs && e' in exprs && sum(e) == sum(e') :: e == e' {
      forall i, j | 0 <= i < j < |names|
        ensures names[i] != names[j]
      {
        LeaseNameAt(sum, exprs, i);
        LeaseNameAt(sum, exprs, j);
        if names[i] == names[j] {
          NameParts(sum, exprs[i], Occurrences(exprs[..i], exprs[i]), exprs[j], Occurrences(exprs[..j], exprs[j]));
          OccurrencesGrow(exprs, i, j);
        }
      }
    } else {
      var e, e' :| e in exprs && e' in exprs && sum(e) == sum(e') && e != e';
      var i := FirstOccurrence(exprs, e);
      var j := FirstOccurrence(exprs, e');
      LeaseNameAt(sum, exprs, i);
      LeaseNameAt(sum, exprs, j);
      assert names[i] == names[j] && i != j;
      assert i < j || j < i;
    }
  }

  /** `format` renders an instant as RFC 3339 with nanoseconds, in UTC. */
  function CronFireKey(format: int -> string, leaseName: string, scheduledAt: int): string {
    "cron_fire:" + leaseName + ":" + format(scheduledAt)
  }

  /** Digits end where a colon stands. */
  lemma DigitsEnd(m: nat, n: nat, r: string, s: string)
    requires Itoa(m) + (":" + r) == Itoa(n) + (":" + s)
    ensures m == n && r == s
  {
    var a, b := Itoa(m), Itoa(n);
    var whole := a + (":" + r);
    assert whole[|a|] == ':' && whole[|b|] == ':';
    assert forall k | 0 <= k < |a| :: whole[k] == a[k] && IsDigit(a[k]);
    assert forall k | 0 <= k < |b| :: whole[k] == b[k] && IsDigit(b[k]);
    assert |a| == |b|;
    Behind(a, b, ":" + r, ":" + s);
    Behind(":", ":", r, s);
    ItoaInjective(m, n);
  }

  lemma KeyShape(sum: string -> string, format: int -> string, expr: string, i: nat, tick: int)
    ensures CronFireKey(format, LeaseName(sum, expr, i), tick) == "cron_fire:" + ("cron:" + (sum(expr) + (":" + (Itoa(i) + (":" + format(tick))))))
  {
    hide Itoa;
    NameShape(sum, expr, i);
    var tail := ":" + format(tick);
    Associate("cron_fire:" + LeaseName(sum, expr, i), ":", format(tick));
    Associate("cron_fire:", LeaseName(sum, expr, i), tail);
    Associate("cron:", sum(expr) + (":" + Itoa(i)), tail);
    Associate(sum(expr), ":" + Itoa(i), tail);
    Associate(":", Itoa(i), tail);
  }

  /**
   Over all leases, two fire keys are equal if and only if the expressions share their
   four-byte digest, the plans their place among equal expressions, and the ticks are equal.
   */
  lemma FireKeysAreSeparate(sum: string -> string, format: int -> string, e: string, i: nat, tick: int, e': string, i': nat, tick': int)
    requires forall a, b | format(a) == format(b) :: a == b
    requires |sum(e)| == |sum(e')|
    ensures (CronFireKey(format, LeaseName(sum, e, i), tick) == CronFireKey(format, LeaseName(sum, e', i'), tick'))
              <==> (sum(e) == sum(e') && i == i' && tick == tick')
  {
    KeyShape(sum, format, e, i, tick);
    KeyShape(sum, format, e', i', tick');
    hide LeaseName, CronFireKey, Itoa;
    var tail, tail' := Itoa(i) + (":" + format(tick)), Itoa(i') + (":" + format(tick'));
    if CronFireKey(format, LeaseName(sum, e, i), tick) == CronFireKey(format, LeaseName(sum, e', i'), tick') {
      Behind("cron_fire:", "cron_fire:", "cron:" + (sum(e) + (":" + tail)), "cron:" + (sum(e') + (":" + tail')));
      Behind("cron:", "cron:", sum(e) + (":" + tail), sum(e') + (":" + tail'));
      Behind(sum(e), sum(e'), ":" + tail, ":" + tail');
      Behind(":", ":", tail, tail');
      DigitsEnd(i, i', format(tick), format(tick'));
    }
  }
}
