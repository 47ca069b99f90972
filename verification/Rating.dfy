/** Call rating: how long a balance may talk (`MaxSecondsForBalance`) and what a
    finished call costs (`ChargeForCall`). The two are computed independently; the
    lemmas below say exactly when the first bounds the second.
    Rates are exact reals in cents a minute. */
module Rating {
  import opened Basics

  datatype Charge = Charge(billedSeconds: int, chargedMinutes: int, chargeCents: int)

  function Ceil(x: real): (n: int)
    ensures (n - 1) as real < x <= n as real
  {
    -((-x).Floor)
  }

  function OrSixty(n: int): int {
    if n <= 0 then 60 else n
  }

  /** The post-rounding duration, for a call that was answered. */
  function RoundUp(billsec: int, billMin: int, billInc: int): int
    requires billInc > 0
  {
    if billsec < billMin then billMin
    else
      var rem := billsec % billInc;
      if rem != 0 then billsec + (billInc - rem) else billsec
  }

  /** Cents for `billed` seconds, rounded up to a whole cent. */
  function Price(billed: int, ratePerMinuteCents: real): int {
    var perSec := ratePerMinuteCents / 60.0;
    Ceil(billed as real * perSec)
  }

  function ChargeForCall(billsec: int, billMinSeconds: int, billIncSeconds: int, ratePerMinuteCents: real): Charge {
    if billsec <= 0 then Charge(0, 0, 0)
    else
      var billed := RoundUp(billsec, OrSixty(billMinSeconds), OrSixty(billIncSeconds));
      Charge(billed, Ceil(billed as real / 60.0), Price(billed, ratePerMinuteCents))
  }

  function SupplierChargeForCall(billsec: int, billMinSeconds: int, billIncSeconds: int, perMinCents: real): int {
    if billsec <= 0 || perMinCents <= 0.0 then 0
    else
      var min := if billMinSeconds <= 0 then 60 else billMinSeconds;
      var inc := if billIncSeconds <= 0 then 60 else billIncSeconds;
      var rem := billsec % inc;
      var billed := if billsec < min then min else if rem != 0 then billsec + (inc - rem) else billsec;
      -((-(billed as real * (perMinCents / 60.0))).Floor)
  }

  const FREE_CALL_SECONDS: int := 4 * 60 * 60

  function MaxSecondsForBalance(balanceCents: int, ratePerMinuteCents: real): int {
    if ratePerMinuteCents <= 0.0 then FREE_CALL_SECONDS
    else
      var wholeMinutes := (balanceCents as real / ratePerMinuteCents).Floor;
      if wholeMinutes < 0 then 0 else wholeMinutes * 60
  }

  function Cents(billsec: int, billMin: int, billInc: int, rate: real): int {
    ChargeForCall(billsec, billMin, billInc, rate).chargeCents
  }

  // ---------- what the rounding means ----------

  /** Rounding meets its definition: at or above the minimum it is the least multiple of the
      increment that covers the call, below it it is the minimum itself. */
  lemma {:induction false} RoundUpIsLeastCover(billsec: int, billMin: int, billInc: int, other: int)
    requires billInc > 0
    ensures billsec < billMin ==> RoundUp(billsec, billMin, billInc) == billMin
    ensures billsec >= billMin && other >= billsec && other % billInc == 0 ==>
              && billsec <= RoundUp(billsec, billMin, billInc) <= other
              && RoundUp(billsec, billMin, billInc) % billInc == 0
  {
    var r := RoundUp(billsec, billMin, billInc);
    var q := billsec / billInc;
    assert billsec == billInc * q + billsec % billInc;
    if billsec >= billMin && other >= billsec && other % billInc == 0 && billsec % billInc != 0 {
      assert r == billInc * (q + 1) by { assert billInc * (q + 1) == billInc * q + billInc; }
      MultipleMod(q + 1, billInc);
      var p := other / billInc;
      assert other == billInc * p;
      if p <= q {
        MulMono(p, q, billInc);
        assert false;
      }
      MulMono(q + 1, p, billInc);
    }
  }

  lemma MultipleMod(q: int, d: int)
    requires d > 0
    ensures (d * q) % d == 0
  {
    var m := d * q;
    var k := m / d;
    assert m == d * k + m % d;
    assert m % d == d * (q - k);
    if q - k >= 1 {
      MulMono(1, q - k, d);
    } else if q - k <= -1 {
      MulMono(q - k, -1, d);
    }
  }

  lemma RealMulMono(a: real, b: real, c: real)
    requires a <= b && 0.0 <= c
    ensures a * c <= b * c
  {
    assert b * c - a * c == (b - a) * c;
  }

  lemma QuotientTimes(b: real, rate: real)
    requires rate > 0.0
    ensures b / rate * rate == b
  {
  }

  lemma RealMulStrict(a: real, b: real, c: real)
    requires a < b && 0.0 < c
    ensures a * c < b * c
  {
    assert b * c - a * c == (b - a) * c;
  }

  /** `k` whole minutes are affordable exactly when `k` is at most the floored quotient. */
  lemma AffordsMinutes(k: int, balance: int, rate: real)
    requires rate > 0.0
    ensures k <= (balance as real / rate).Floor <==> k as real * rate <= balance as real
  {
    var q := balance as real / rate;
    QuotientTimes(balance as real, rate);
    if k <= q.Floor {
      RealMulMono(k as real, q, rate);
    } else {
      assert q < k as real;
      RealMulStrict(q, k as real, rate);
    }
  }

  lemma WholeMinutes(k: int, rate: real)
    ensures (60 * k) as real * (rate / 60.0) == k as real * rate
  {
    var x := rate / 60.0;
    assert rate == 60.0 * x;
    assert (60 * k) as real == 60.0 * k as real;
    TimesSwap(60.0, k as real, x);
  }

  lemma TimesSwap(a: real, b: real, c: real)
    ensures (a * b) * c == b * (a * c)
  {
  }

  /** Seconds inside `k` affordable minutes cost at most the balance. */
  lemma PriceWithin(billed: int, k: int, balance: int, rate: real)
    requires rate > 0.0 && billed <= 60 * k && k as real * rate <= balance as real
    ensures Price(billed, rate) <= balance
  {
    RealMulMono(billed as real, (60 * k) as real, rate / 60.0);
    WholeMinutes(k, rate);
  }

  // ---------- when the admission bound bounds the charge ----------

  /** A billing cycle under which rounding never leaves the whole minutes the gate counted. */
  predicate SafeCycle(billMin: int, billInc: int) {
    OrSixty(billMin) <= 60 && 60 % OrSixty(billInc) == 0
  }

  lemma AllowedCyclesAreSafe(billMin: int, billInc: int)
    requires billMin in {1, 6, 15, 30, 60} && billInc in {1, 6, 15, 30, 60}
    ensures SafeCycle(billMin, billInc)
  {
  }

  function Positive(n: int): int {
    if n < 0 then 0 else n
  }

  /** No call that stays within the seconds granted against a balance costs more than it. */
  lemma {:induction false} NoOverdraft(balance: int, rate: real, billMin: int, billInc: int, billsec: int)
    requires rate >= 0.0
    requires SafeCycle(billMin, billInc)
    requires billsec <= MaxSecondsForBalance(balance, rate)
    ensures 0 <= Cents(billsec, billMin, billInc, rate) <= Positive(balance)
  {
    if billsec > 0 {
      var min, inc := OrSixty(billMin), OrSixty(billInc);
      var billed := RoundUp(billsec, min, inc);
      CoverCovers(billsec, min, inc);
      PriceMonotone(0, billed, rate);
      if rate == 0.0 {
        FreeIsFree(billed);
      } else {
        var k := (balance as real / rate).Floor;
        RoundUpWithin(billsec, min, inc, k);
        AffordsMinutes(k, balance, rate);
        PriceWithin(billed, k, balance, rate);
      }
    }
  }

  lemma FreeIsFree(billed: int)
    ensures Price(billed, 0.0) == 0
  {
    assert billed as real * 0.0 == 0.0;
  }

  lemma RoundUpWithin(billsec: int, min: int, inc: int, k: int)
    requires 0 < min <= 60 && inc > 0 && 60 % inc == 0
    requires k >= 1 && billsec <= 60 * k
    ensures RoundUp(billsec, min, inc) <= 60 * k
  {
    if billsec >= min {
      var n := 60 / inc;
      assert 60 * k == inc * (n * k) by { assert 60 == inc * n; assert inc * (n * k) == (inc * n) * k; }
      MultipleMod(n * k, inc);
      RoundUpIsLeastCover(billsec, min, inc, 60 * k);
    }
  }

  /** Overdraft-freedom of one rate-card cycle, over every balance, rate and duration. */
  ghost predicate NeverOverdraws(billMin: int, billInc: int) {
    forall balance: int, rate: real, billsec: int ::
      rate >= 0.0 && billsec <= MaxSecondsForBalance(balance, rate)
      ==> Cents(billsec, billMin, billInc, rate) <= Positive(balance)
  }

  /** The exact set of billing cycles for which an authorized call cannot overdraw. */
  lemma OverdraftFreeIffSafeCycle(billMin: int, billInc: int)
    ensures NeverOverdraws(billMin, billInc) <==> SafeCycle(billMin, billInc)
  {
    if SafeCycle(billMin, billInc) {
      forall balance: int, rate: real, billsec: int | rate >= 0.0 && billsec <= MaxSecondsForBalance(balance, rate)
        ensures Cents(billsec, billMin, billInc, rate) <= Positive(balance)
      {
        NoOverdraft(balance, rate, billMin, billInc, billsec);
      }
    } else {
      UnsafeCycleOverdraws(billMin, billInc);
    }
  }

  /** At 60 cents a minute and a 60 cent balance, any other cycle charges more than the balance. */
  lemma UnsafeCycleOverdraws(billMin: int, billInc: int)
    requires !SafeCycle(billMin, billInc)
    ensures 60 <= MaxSecondsForBalance(60, 60.0)
    ensures Cents(60, billMin, billInc, 60.0) > 60
  {
    var min, inc := OrSixty(billMin), OrSixty(billInc);
    assert 60 as real / 60.0 == 1.0;
    assert MaxSecondsForBalance(60, 60.0) == 60;
    var billed := RoundUp(60, min, inc);
    assert billed > 60;
    assert 60.0 / 60.0 == 1.0;
    assert Price(billed, 60.0) == billed;
  }

  /** Under the default 60/60 cycle the bound is exact: a call is affordable iff it is within it. */
  lemma {:induction false} MaxSecondsIsExactForWholeMinutes(balance: int, rate: real, billsec: int)
    requires rate > 0.0 && balance >= 0 && billsec > 0
    ensures billsec <= MaxSecondsForBalance(balance, rate) <==> Cents(billsec, 60, 60, rate) <= balance
  {
    if billsec <= MaxSecondsForBalance(balance, rate) {
      NoOverdraft(balance, rate, 60, 60, billsec);
    }
    if Cents(billsec, 60, 60, rate) <= balance {
      var billed := RoundUp(billsec, 60, 60);
      var m := billed / 60;
      assert billed == 60 * m;
      WholeMinutes(m, rate);
      AffordsMinutes(m, balance, rate);
    }
  }

  /** A longer call never costs less. */
  lemma {:induction false} ChargeIsMonotone(shorter: int, longer: int, billMin: int, billInc: int, rate: real)
    requires shorter <= longer && rate >= 0.0
    ensures Cents(shorter, billMin, billInc, rate) <= Cents(longer, billMin, billInc, rate)
  {
    if longer > 0 {
      var min, inc := OrSixty(billMin), OrSixty(billInc);
      CoverCovers(longer, min, inc);
      PriceMonotone(0, RoundUp(longer, min, inc), rate);
      if shorter > 0 {
        RoundUpMonotone(shorter, longer, min, inc);
        PriceMonotone(RoundUp(shorter, min, inc), RoundUp(longer, min, inc), rate);
      }
    }
  }

  lemma PriceMonotone(a: int, b: int, rate: real)
    requires a <= b && rate >= 0.0
    ensures Price(a, rate) <= Price(b, rate)
    ensures Price(0, rate) == 0
  {
    RealMulMono(a as real, b as real, rate / 60.0);
  }

  lemma RoundUpMonotone(shorter: int, longer: int, min: int, inc: int)
    requires shorter <= longer && inc > 0
    ensures RoundUp(shorter, min, inc) <= RoundUp(longer, min, inc)
  {
    CoverCovers(longer, min, inc);
    if shorter >= min {
      RoundUpIsLeastCover(shorter, min, inc, RoundUp(longer, min, inc));
    }
  }

  lemma CoverCovers(billsec: int, min: int, inc: int)
    requires inc > 0
    ensures RoundUp(billsec, min, inc) >= billsec && RoundUp(billsec, min, inc) >= min
    ensures billsec >= min ==> RoundUp(billsec, min, inc) % inc == 0
  {
    var q := billsec / inc;
    assert billsec == inc * q + billsec % inc;
    if billsec >= min && billsec % inc != 0 {
      assert RoundUp(billsec, min, inc) == inc * (q + 1) by { assert inc * (q + 1) == inc * q + inc; }
      MultipleMod(q + 1, inc);
    }
  }

  /** The customer and supplier sides agree on the same card, for any legal rate. */
  lemma SupplierMirrorsCustomer(billsec: int, billMin: int, billInc: int, rate: real)
    requires rate >= 0.0
    ensures SupplierChargeForCall(billsec, billMin, billInc, rate) == Cents(billsec, billMin, billInc, rate)
  {
    if billsec > 0 && rate == 0.0 {
      FreeIsFree(RoundUp(billsec, OrSixty(billMin), OrSixty(billInc)));
    }
  }

  // ---------- the two functions in terms of cents and seconds ----------

  /** What an answered call of `billsec` seconds is billed for: the minimum itself for a shorter call, otherwise the
      least multiple of the increment that covers it. A value that is not positive stands for 60. */
  ghost predicate BilledFor(billsec: int, billMin: int, billInc: int, billed: int) {
    var min, inc := if billMin <= 0 then 60 else billMin, if billInc <= 0 then 60 else billInc;
    if billsec < min then billed == min else billed % inc == 0 && billsec <= billed < billsec + inc
  }

  /** The least whole number of cents that covers the seconds at a rate a minute. */
  ghost predicate LeastCents(cents: int, seconds: int, rate: real) {
    60.0 * (cents - 1) as real < seconds as real * rate <= 60.0 * cents as real
  }

  /** A call that was not answered costs nothing. Any other is billed for its seconds, in the least whole cents and
      minutes that cover them; and these three numbers are the only ones of that kind. */
  lemma ChargeMeans(billsec: int, billMin: int, billInc: int, rate: real)
    ensures var c := ChargeForCall(billsec, billMin, billInc, rate);
      if billsec <= 0 then c == Charge(0, 0, 0)
      else
        && BilledFor(billsec, billMin, billInc, c.billedSeconds)
        && LeastCents(c.chargeCents, c.billedSeconds, rate)
        && 60 * (c.chargedMinutes - 1) < c.billedSeconds <= 60 * c.chargedMinutes
  {
    if billsec > 0 {
      var min, inc := OrSixty(billMin), OrSixty(billInc);
      var billed := RoundUp(billsec, min, inc);
      CoverCovers(billsec, min, inc);
      var x := billed as real * (rate / 60.0);
      SixtyTimes(billed as real, rate);
      assert (Price(billed, rate) - 1) as real < x <= Price(billed, rate) as real;
      assert 60.0 * x == billed as real * rate;
    }
  }

  lemma SixtyTimes(a: real, rate: real)
    ensures 60.0 * (a * (rate / 60.0)) == a * rate
  {
    var x := rate / 60.0;
    assert rate == 60.0 * x;
    TimesSwap(60.0, a, x);
  }

  lemma {:induction false} OneBilling(billsec: int, billMin: int, billInc: int, a: int, b: int)
    requires BilledFor(billsec, billMin, billInc, a) && BilledFor(billsec, billMin, billInc, b)
    ensures a == b
  {
    var min, inc := OrSixty(billMin), OrSixty(billInc);
    if billsec >= min {
      if a < b {
        MultiplesApart(a, b, inc);
      } else if b < a {
        MultiplesApart(b, a, inc);
      }
    }
  }

  lemma MultiplesApart(a: int, b: int, inc: int)
    requires inc > 0 && a % inc == 0 && b % inc == 0 && a < b
    ensures a + inc <= b
  {
    var p, q := a / inc, b / inc;
    Division(a, inc);
    Division(b, inc);
    if p >= q {
      MulMono(q, p, inc);
    }
    MulMono(p + 1, q, inc);
    assert (p + 1) * inc == p * inc + inc;
  }

  lemma Division(a: int, inc: int)
    requires inc > 0 && a % inc == 0
    ensures a == a / inc * inc
  {
    assert a == inc * (a / inc) + a % inc;
  }

  /** A supplier is owed nothing for a call that was not answered or at no rate, and the same least cents else. */
  lemma SupplierChargeMeans(billsec: int, billMin: int, billInc: int, rate: real)
    ensures billsec <= 0 || rate <= 0.0 ==> SupplierChargeForCall(billsec, billMin, billInc, rate) == 0
    ensures billsec > 0 && rate > 0.0 ==>
              exists billed :: BilledFor(billsec, billMin, billInc, billed)
                            && LeastCents(SupplierChargeForCall(billsec, billMin, billInc, rate), billed, rate)
  {
    if billsec > 0 && rate > 0.0 {
      SupplierMirrorsCustomer(billsec, billMin, billInc, rate);
      ChargeMeans(billsec, billMin, billInc, rate);
      var billed := ChargeForCall(billsec, billMin, billInc, rate).billedSeconds;
      assert BilledFor(billsec, billMin, billInc, billed);
    }
  }

  /** A free rate allows four hours; any other allows the most whole minutes the balance covers, and none if it is
      negative. */
  lemma MaxSecondsMeans(balance: int, rate: real)
    ensures var seconds := MaxSecondsForBalance(balance, rate);
      if rate <= 0.0 then seconds == 14400
      else
        && seconds % 60 == 0 && seconds >= 0 && (balance < 0 ==> seconds == 0)
        && (balance >= 0 ==> seconds as real * rate <= 60.0 * balance as real < (seconds + 60) as real * rate)
  {
    if rate > 0.0 {
      var q := (balance as real / rate).Floor;
      if balance >= 0 {
        AffordsMinutes(q, balance, rate);
        AffordsMinutes(q + 1, balance, rate);
        AffordsMinutes(0, balance, rate);
        SixtyMinutes(q, rate);
        SixtyMinutes(q + 1, rate);
      } else {
        AffordsMinutes(0, balance, rate);
      }
    }
  }

  lemma SixtyMinutes(k: int, rate: real)
    ensures (60 * k) as real * rate == 60.0 * (k as real * rate)
  {
    assert (60 * k) as real == 60.0 * k as real;
  }
}
