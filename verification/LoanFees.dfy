/**
 The fee a loan accrues and the ceiling a repayment allows for it
 (web/src/lib/loanFees.ts:12-48). Fees are counted in permil of the principal not prepaid.
 */
module LoanFees {
  import opened Prelude
  import opened Arithmetic

  const MAX_FEE := 1_000
  const LIQUIDATION_DURATION := 315_360_000

  datatype Loan = Loan(amount: nat, prepaidFeePercent: nat, prepaidDuration: nat, createdAt: nat)

  function Elapsed(loan: Loan, now: nat): nat { if now < loan.createdAt then 0 else now - loan.createdAt }

  function Prepaid(loan: Loan): nat { MulDiv(loan.amount, loan.prepaidFeePercent, MAX_FEE) }

  // The permil of the ramp reached after `elapsed` seconds.
  function FeePercent(loan: Loan, elapsed: nat): nat
    requires loan.prepaidDuration < elapsed <= LIQUIDATION_DURATION
  {
    MulDiv(elapsed - loan.prepaidDuration, MAX_FEE, LIQUIDATION_DURATION - loan.prepaidDuration)
  }

  // `currentOutstandingLoanFee`; None once the loan can be liquidated.
  function Fee(loan: Loan, now: nat): Option<nat>
    requires loan.prepaidFeePercent <= MAX_FEE
  {
    var elapsed := Elapsed(loan, now);
    if elapsed <= loan.prepaidDuration then Some(0)
    else if elapsed > LIQUIDATION_DURATION then None
    else
      MulDivAtMost(loan.amount, loan.prepaidFeePercent, MAX_FEE);
      Some(MulDiv(loan.amount - Prepaid(loan), FeePercent(loan, elapsed), MAX_FEE))
  }

  function RepayCeiling(principal: nat, fee: nat): nat { principal + fee + Div(principal, 1_000) }

  /** The fee only grows with time, from zero to at most the principal that was not prepaid. */
  lemma FeeGrows(loan: Loan, now: nat, later: nat)
    requires loan.prepaidFeePercent <= MAX_FEE && now <= later && Fee(loan, later).Some?
    ensures Fee(loan, now).Some? ==> Fee(loan, now).value <= Fee(loan, later).value
    ensures Prepaid(loan) + Fee(loan, later).value <= loan.amount
    ensures Elapsed(loan, later) <= LIQUIDATION_DURATION ==> Fee(loan, now).Some?
  {
    MulDivAtMost(loan.amount, loan.prepaidFeePercent, MAX_FEE);
    var e, f, p := Elapsed(loan, now), Elapsed(loan, later), loan.prepaidDuration;
    var rest := loan.amount - Prepaid(loan);
    if p < f {
      var ramp := LIQUIDATION_DURATION - p;
      MulDivAtMost(MAX_FEE, f - p, ramp);
      MulDivAtMost(rest, FeePercent(loan, f), MAX_FEE);
      if p < e {
        Times(e - p, f - p, MAX_FEE);
        QuotientMonotone((e - p) * MAX_FEE, (f - p) * MAX_FEE, ramp);
        Times(FeePercent(loan, e), FeePercent(loan, f), rest);
        QuotientMonotone(rest * FeePercent(loan, e), rest * FeePercent(loan, f), MAX_FEE);
      }
    }
  }

  /**
   The ends of the ramp: nothing while the prepaid time lasts, everything that was not prepaid in
   the last second before the liquidation, and no fee after it.
   */
  lemma FeeEnds(loan: Loan, now: nat)
    requires loan.prepaidFeePercent <= MAX_FEE && now >= loan.createdAt
    ensures now <= loan.createdAt + loan.prepaidDuration ==> Fee(loan, now) == Some(0)
    ensures now > loan.createdAt + loan.prepaidDuration && now == loan.createdAt + LIQUIDATION_DURATION ==>
              Fee(loan, now) == Some(loan.amount - loan.amount * loan.prepaidFeePercent / 1_000)
    ensures now > loan.createdAt + Max(loan.prepaidDuration, LIQUIDATION_DURATION) <==> Fee(loan, now).None?
  {
    MulDivAtMost(loan.amount, loan.prepaidFeePercent, MAX_FEE);
    var ramp := LIQUIDATION_DURATION - loan.prepaidDuration;
    if ramp > 0 {
      WholeQuotientLeft(MAX_FEE, ramp);
      WholeQuotient(loan.amount - Prepaid(loan), MAX_FEE);
    }
  }

  // Adding at most `c` before dividing by `c` adds at most one.
  lemma OneMore(a: nat, d: nat, c: nat)
    requires c > 0 && d <= c
    ensures (a + d) / c <= a / c + 1
  {
    Quotient(a, c);
    QuotientAtMost(a + d, c, a / c + 1);
  }

  // One more permil costs at most a thousandth of the rest, rounded up.
  lemma OneMorePermil(rest: nat, percent: nat, more: nat)
    requires more <= percent + 1
    ensures MulDiv(rest, more, MAX_FEE) <= MulDiv(rest, percent, MAX_FEE) + rest / MAX_FEE + 1
  {
    Times(more, percent + 1, rest);
    QuotientMonotone(rest * more, rest * percent + rest, MAX_FEE);
    Quotient(rest * percent, MAX_FEE);
    Quotient(rest, MAX_FEE);
    QuotientAtMost(rest * percent + rest, MAX_FEE, rest * percent / MAX_FEE + rest / MAX_FEE + 1);
  }

  lemma PercentStep(loan: Loan, e: nat, f: nat)
    requires loan.prepaidDuration < f <= LIQUIDATION_DURATION && e <= f
    requires (f - e) * MAX_FEE <= LIQUIDATION_DURATION - loan.prepaidDuration
    ensures FeePercent(loan, f) <= (if e <= loan.prepaidDuration then 0 else FeePercent(loan, e)) + 1
  {
    var p := loan.prepaidDuration;
    var ramp := LIQUIDATION_DURATION - p;
    if e <= p {
      QuotientAtMost((f - p) * MAX_FEE, ramp, 1);
    } else {
      OneMore((e - p) * MAX_FEE, (f - e) * MAX_FEE, ramp);
      assert (e - p) * MAX_FEE + (f - e) * MAX_FEE == (f - p) * MAX_FEE;
    }
  }

  // A fortieth prepaid of at least 40000 units leaves at least one thousand out of the ramp.
  lemma PrepaidEnough(loan: Loan)
    requires loan.amount >= 40_000 && 25 <= loan.prepaidFeePercent <= 500
    ensures 1_000 <= Prepaid(loan) <= loan.amount
  {
    Times(25, loan.prepaidFeePercent, loan.amount);
    QuotientAtLeast(loan.amount * loan.prepaidFeePercent, MAX_FEE, 1_000);
    MulDivAtMost(loan.amount, loan.prepaidFeePercent, MAX_FEE);
  }

  // The permil of the ramp reached at a moment, none of it inside the prepaid time.
  function Permil(loan: Loan, now: nat): nat
    requires Elapsed(loan, now) <= Max(loan.prepaidDuration, LIQUIDATION_DURATION)
  {
    var e := Elapsed(loan, now);
    if e <= loan.prepaidDuration then 0 else FeePercent(loan, e)
  }

  function Rest(loan: Loan): nat
    requires loan.prepaidFeePercent <= MAX_FEE
  {
    MulDivAtMost(loan.amount, loan.prepaidFeePercent, MAX_FEE);
    loan.amount - Prepaid(loan)
  }

  // A loan as the contract allows it: at least a fortieth and at most half of the fee prepaid.
  predicate Usual(loan: Loan) {
    && loan.amount >= 40_000 && 25 <= loan.prepaidFeePercent <= 500
    && loan.prepaidDuration < LIQUIDATION_DURATION
  }

  lemma FeeOfPermil(loan: Loan, now: nat)
    requires loan.prepaidFeePercent <= MAX_FEE && Fee(loan, now).Some?
    ensures Elapsed(loan, now) <= Max(loan.prepaidDuration, LIQUIDATION_DURATION)
    ensures Fee(loan, now).value == MulDiv(Rest(loan), Permil(loan, now), MAX_FEE)
  {
    assert MulDiv(Rest(loan), 0, MAX_FEE) == 0;
  }

  lemma PermilGrows(loan: Loan, now: nat, later: nat)
    requires now <= later && Elapsed(loan, later) <= Max(loan.prepaidDuration, LIQUIDATION_DURATION)
    ensures Permil(loan, now) <= Permil(loan, later)
  {
    var e, f, p := Elapsed(loan, now), Elapsed(loan, later), loan.prepaidDuration;
    if p < e {
      Times(e - p, f - p, MAX_FEE);
      QuotientMonotone((e - p) * MAX_FEE, (f - p) * MAX_FEE, LIQUIDATION_DURATION - p);
    }
  }

  // The ceiling quoted at one moment is enough at another.
  predicate Covered(loan: Loan, now: nat, later: nat)
    requires loan.prepaidFeePercent <= MAX_FEE
  {
    Fee(loan, now).Some? && Fee(loan, later).Some? ==>
      loan.amount + Fee(loan, later).value <= RepayCeiling(loan.amount, Fee(loan, now).value)
  }

  // What two more permil cost on top of `percent`.
  function TwoPermil(rest: nat, percent: nat): nat {
    var (carried, cost) := (Mul(rest, percent) % MAX_FEE, 2 * rest);
    cost / MAX_FEE + if carried + cost % MAX_FEE >= MAX_FEE then 1 else 0
  }

  lemma TwoMorePermil(rest: nat, percent: nat)
    ensures MulDiv(rest, percent + 2, MAX_FEE) == MulDiv(rest, percent, MAX_FEE) + TwoPermil(rest, percent)
  {
    Distribute(percent, 2, rest);
    assert Mul(rest, percent + 2) == Mul(rest, percent) + 2 * rest;
    SumOfQuotients(Mul(rest, percent), 2 * rest);
  }

  lemma SumOfQuotients(a: nat, b: nat)
    ensures (a + b) / MAX_FEE
         == a / MAX_FEE + b / MAX_FEE + if a % MAX_FEE + b % MAX_FEE >= MAX_FEE then 1 else 0
  {
  }

  // Three more permil always cost more than a thousandth of the principal.
  lemma ThreeMorePermil(loan: Loan, percent: nat, more: nat)
    requires Usual(loan) && percent + 3 <= more
    ensures MulDiv(Rest(loan), more, MAX_FEE) > MulDiv(Rest(loan), percent, MAX_FEE) + loan.amount / 1_000
  {
    var rest := Rest(loan);
    RestAtLeast(loan, 500);
    Times(percent + 3, more, rest);
    Distribute(percent, 3, rest);
    SumOfQuotients(Mul(rest, percent), 3 * rest);
    QuotientMonotone(Mul(rest, percent) + 3 * rest, Mul(rest, more), MAX_FEE);
    QuotientAtLeast(3 * rest, MAX_FEE, loan.amount / 1_000 + 1);
  }

  lemma RestAtLeast(loan: Loan, most: nat)
    requires loan.prepaidFeePercent <= most <= MAX_FEE
    ensures 1_000 * Rest(loan) >= (1_000 - most) * loan.amount
  {
    MulDivAtMost(loan.amount, loan.prepaidFeePercent, MAX_FEE);
    Times(loan.prepaidFeePercent, most, loan.amount);
    Quotient(loan.amount * loan.prepaidFeePercent, MAX_FEE);
    Distribute(1_000 - most, most, loan.amount);
  }

  /**
   When the ceiling is enough, exactly: the ramp advanced by at most one permil, or by two when
   these two cost no more than a thousandth of the principal. Up to 487 permil prepaid they
   always cost more, so there the ceiling is enough exactly within one permil.
   */
  lemma CeilingExact(loan: Loan, now: nat, later: nat)
    requires Usual(loan) && now <= later && Fee(loan, now).Some? && Fee(loan, later).Some?
    ensures var q, r := Permil(loan, now), Permil(loan, later);
            Covered(loan, now, later) <==> r <= q + 1 || (r == q + 2 && TwoPermil(Rest(loan), q) <= loan.amount / 1_000)
    ensures loan.prepaidFeePercent <= 487 ==>
              (Covered(loan, now, later) <==> Permil(loan, later) <= Permil(loan, now) + 1)
  {
    var q, r := Permil(loan, now), Permil(loan, later);
    FeeOfPermil(loan, now);
    FeeOfPermil(loan, later);
    if r <= q + 1 {
      WithinOne(loan, q, r);
    } else if r == q + 2 {
      TwoMorePermil(Rest(loan), q);
      if loan.prepaidFeePercent <= 487 {
        TwoTooMuch(loan, q);
      }
    } else {
      ThreeMorePermil(loan, q, r);
    }
  }

  lemma WithinOne(loan: Loan, percent: nat, more: nat)
    requires Usual(loan) && more <= percent + 1
    ensures MulDiv(Rest(loan), more, MAX_FEE) <= MulDiv(Rest(loan), percent, MAX_FEE) + loan.amount / 1_000
  {
    var rest := Rest(loan);
    PrepaidEnough(loan);
    OneMorePermil(rest, percent, more);
    Quotient(rest, MAX_FEE);
    QuotientAtLeast(loan.amount, MAX_FEE, rest / MAX_FEE + 1);
  }

  lemma TwoTooMuch(loan: Loan, percent: nat)
    requires Usual(loan) && loan.prepaidFeePercent <= 487
    ensures TwoPermil(Rest(loan), percent) > loan.amount / 1_000
  {
    RestAtLeast(loan, 487);
    QuotientAtLeast(2 * Rest(loan), MAX_FEE, loan.amount / 1_000 + 1);
  }

  /**
   The ceiling quoted now covers the repayment for a thousandth of the ramp: from any moment to
   any other at most (D - P) / 1000 seconds later, not past the liquidation.
   */
  lemma CeilingCovers(loan: Loan, now: nat, later: nat)
    requires Usual(loan) && now <= later && (later - now) * MAX_FEE <= LIQUIDATION_DURATION - loan.prepaidDuration
    ensures Covered(loan, now, later)
  {
    if Fee(loan, now).Some? && Fee(loan, later).Some? {
      var e, f := Elapsed(loan, now), Elapsed(loan, later);
      if loan.prepaidDuration < f {
        Times(f - e, later - now, MAX_FEE);
        PercentStep(loan, e, f);
      }
      CeilingExact(loan, now, later);
    }
  }

  // Every quote is still enough this long after it was made.
  ghost predicate WindowCovered(loan: Loan, seconds: nat)
    requires loan.prepaidFeePercent <= MAX_FEE
  {
    forall now: nat, later: nat | now <= later <= now + seconds :: Covered(loan, now, later)
  }

  // The moments a window ends with the liquidation: the last of the ramp was gained in it.
  lemma LastMoments(loan: Loan, seconds: nat) returns (now: nat, later: nat)
    requires Usual(loan) && seconds * MAX_FEE > LIQUIDATION_DURATION - loan.prepaidDuration
    ensures now <= later <= now + seconds && Fee(loan, now).Some? && Fee(loan, later).Some?
    ensures Elapsed(loan, later) == LIQUIDATION_DURATION && Permil(loan, later) == 1_000 && Permil(loan, now) <= 998
    ensures seconds * MAX_FEE > 2 * (LIQUIDATION_DURATION - loan.prepaidDuration) ==> Permil(loan, now) <= 997
  {
    var ramp := LIQUIDATION_DURATION - loan.prepaidDuration;
    later := loan.createdAt + LIQUIDATION_DURATION;
    WholeRamp(ramp);
    if seconds < ramp {
      now := later - seconds;
      Distribute(ramp - seconds, seconds, MAX_FEE);
      QuotientAtMost((ramp - seconds) * MAX_FEE, ramp, 998);
      if seconds * MAX_FEE > 2 * ramp {
        QuotientAtMost((ramp - seconds) * MAX_FEE, ramp, 997);
      }
    } else {
      now := later - ramp;
    }
  }

  lemma WholeRamp(ramp: nat)
    requires ramp > 0
    ensures MulDiv(ramp, MAX_FEE, ramp) == 1_000
  {
    QuotientAtLeast(ramp * MAX_FEE, ramp, 1_000);
    QuotientAtMost(ramp * MAX_FEE, ramp, 1_000);
  }

  /**
   How long a quoted ceiling lasts, exactly: with up to 487 permil prepaid, a thousandth of the
   ramp and not a second more. With more prepaid it lasts at most two thousandths.
   */
  lemma WindowExact(loan: Loan, seconds: nat)
    requires Usual(loan)
    ensures seconds * MAX_FEE <= LIQUIDATION_DURATION - loan.prepaidDuration ==> WindowCovered(loan, seconds)
    ensures loan.prepaidFeePercent <= 487 ==>
              (WindowCovered(loan, seconds) <==> seconds * MAX_FEE <= LIQUIDATION_DURATION - loan.prepaidDuration)
    ensures WindowCovered(loan, seconds) ==> seconds * MAX_FEE <= 2 * (LIQUIDATION_DURATION - loan.prepaidDuration)
  {
    if seconds * MAX_FEE <= LIQUIDATION_DURATION - loan.prepaidDuration {
      forall now: nat, later: nat | now <= later <= now + seconds ensures Covered(loan, now, later) {
        Times(later - now, seconds, MAX_FEE);
        CeilingCovers(loan, now, later);
      }
    } else {
      var now, later := LastMoments(loan, seconds);
      CeilingExact(loan, now, later);
    }
  }

  // The first second after the prepaid time at which the ramp has reached some permil.
  function Reaches(ramp: nat, permil: nat): nat { (permil * ramp + MAX_FEE - 1) / MAX_FEE }

  lemma ReachesFirst(ramp: nat, permil: nat, offset: nat)
    requires ramp > 0
    ensures offset * MAX_FEE / ramp >= permil <==> offset >= Reaches(ramp, permil)
  {
    Quotient(permil * ramp + MAX_FEE - 1, MAX_FEE);
    if offset >= Reaches(ramp, permil) {
      QuotientAtLeast(offset * MAX_FEE, ramp, permil);
    } else {
      Times(offset + 1, Reaches(ramp, permil), MAX_FEE);
      QuotientBelow(offset * MAX_FEE, ramp, permil);
    }
  }

  // Within a window the ramp can advance by `more` permil, starting at the last second of `permil`.
  predicate Leaps(loan: Loan, permil: nat, more: nat, seconds: nat)
    requires loan.prepaidDuration < LIQUIDATION_DURATION
  {
    var ramp := LIQUIDATION_DURATION - loan.prepaidDuration;
    permil + more <= 1_000 && Reaches(ramp, permil + more) <= Reaches(ramp, permil + 1) - 1 + seconds
  }

  // No three permil are gained within a window, and no two that cost too much.
  ghost predicate LeapsCovered(loan: Loan, seconds: nat)
    requires Usual(loan)
  {
    forall q: nat | Leaps(loan, q, 2, seconds) ::
      TwoPermil(Rest(loan), q) <= loan.amount / 1_000 && !Leaps(loan, q, 3, seconds)
  }

  lemma PermilAt(loan: Loan, offset: nat)
    requires loan.prepaidDuration + offset <= LIQUIDATION_DURATION && loan.prepaidDuration < LIQUIDATION_DURATION
    ensures var now := loan.createdAt + loan.prepaidDuration + offset;
            && Elapsed(loan, now) == loan.prepaidDuration + offset
            && Permil(loan, now) == offset * MAX_FEE / (LIQUIDATION_DURATION - loan.prepaidDuration)
  {
    if offset == 0 {
      QuotientAtMost(0, LIQUIDATION_DURATION - loan.prepaidDuration, 0);
    }
  }

  lemma ReachesWithin(ramp: nat, permil: nat, more: nat)
    requires ramp > 0 && permil <= more <= 1_000
    ensures Reaches(ramp, permil) <= Reaches(ramp, more) <= ramp
    ensures permil > 0 ==> Reaches(ramp, permil) > 0
  {
    Times(permil, more, ramp);
    QuotientMonotone(permil * ramp + MAX_FEE - 1, more * ramp + MAX_FEE - 1, MAX_FEE);
    Times(more, 1_000, ramp);
    QuotientAtMost(more * ramp + MAX_FEE - 1, MAX_FEE, ramp);
    if permil > 0 {
      Times(1, permil, ramp);
      QuotientAtLeast(permil * ramp + MAX_FEE - 1, MAX_FEE, 1);
    }
  }

  // A leap that fits into a window is made by two moments of it.
  lemma LeapIsMade(loan: Loan, q: nat, more: nat, seconds: nat) returns (now: nat, later: nat)
    requires Usual(loan) && more >= 2 && Leaps(loan, q, more, seconds)
    ensures now <= later <= now + seconds && Fee(loan, now).Some? && Fee(loan, later).Some?
    ensures Elapsed(loan, later) <= LIQUIDATION_DURATION
    ensures Permil(loan, now) <= q && q + more <= Permil(loan, later)
  {
    var p := loan.prepaidDuration;
    var ramp := LIQUIDATION_DURATION - p;
    ReachesWithin(ramp, q + 1, q + more);
    var a, b := Reaches(ramp, q + 1) - 1, Reaches(ramp, q + more);
    now, later := loan.createdAt + p + a, loan.createdAt + p + b;
    PermilAt(loan, a);
    PermilAt(loan, b);
    ReachesFirst(ramp, q + 1, a);
    ReachesFirst(ramp, q + more, b);
  }

  // Two moments of a window with more than one permil between them are such a leap.
  lemma MadeIsLeap(loan: Loan, now: nat, later: nat, seconds: nat, more: nat)
    requires Usual(loan) && now <= later <= now + seconds && Elapsed(loan, later) <= LIQUIDATION_DURATION
    requires more >= 2 && Permil(loan, now) + more <= Permil(loan, later)
    ensures Leaps(loan, Permil(loan, now), more, seconds)
  {
    var p, e, f, q := loan.prepaidDuration, Elapsed(loan, now), Elapsed(loan, later), Permil(loan, now);
    var ramp := LIQUIDATION_DURATION - p;
    PermilAt(loan, f - p);
    ReachesFirst(ramp, q + more, f - p);
    PermilAtMost(f - p, ramp);
    if e <= p {
      ReachesFirst(ramp, 1, 0);
      QuotientAtMost(0, ramp, 0);
    } else {
      PermilAt(loan, e - p);
      ReachesFirst(ramp, q + 1, e - p);
    }
  }

  lemma PermilAtMost(offset: nat, ramp: nat)
    requires 0 < ramp && offset <= ramp
    ensures offset * MAX_FEE / ramp <= 1_000
  {
    Times(offset, ramp, MAX_FEE);
    QuotientAtMost(offset * MAX_FEE, ramp, 1_000);
  }

  lemma LeapsAreEnough(loan: Loan, now: nat, later: nat, seconds: nat)
    requires Usual(loan) && LeapsCovered(loan, seconds) && now <= later <= now + seconds
    ensures Covered(loan, now, later)
  {
    if Fee(loan, now).Some? && Fee(loan, later).Some? {
      PermilGrows(loan, now, later);
      CeilingExact(loan, now, later);
      var q, r := Permil(loan, now), Permil(loan, later);
      if q + 2 <= r {
        MadeIsLeap(loan, now, later, seconds, 2);
        if q + 3 <= r {
          MadeIsLeap(loan, now, later, seconds, 3);
        }
      }
    }
  }

  /**
   How long a quoted ceiling lasts, exactly, for every usual loan: a window is covered if and only
   if no three permil are gained within it, and no two permil that cost more than a thousandth
   of the principal. That depends only on the permil a window starts from.
   */
  lemma WindowByLeaps(loan: Loan, seconds: nat)
    requires Usual(loan)
    ensures WindowCovered(loan, seconds) <==> LeapsCovered(loan, seconds)
  {
    if LeapsCovered(loan, seconds) {
      forall now: nat, later: nat | now <= later <= now + seconds ensures Covered(loan, now, later) {
        LeapsAreEnough(loan, now, later, seconds);
      }
    }
    if WindowCovered(loan, seconds) {
      forall q: nat | Leaps(loan, q, 2, seconds)
        ensures TwoPermil(Rest(loan), q) <= loan.amount / 1_000 && !Leaps(loan, q, 3, seconds)
      {
        CoveredLeap(loan, q, seconds);
      }
    }
  }

  lemma CoveredLeap(loan: Loan, q: nat, seconds: nat)
    requires Usual(loan) && WindowCovered(loan, seconds) && Leaps(loan, q, 2, seconds)
    ensures TwoPermil(Rest(loan), q) <= loan.amount / 1_000 && !Leaps(loan, q, 3, seconds)
  {
    var now, later := LeapIsMade(loan, q, 2, seconds);
    assert Covered(loan, now, later);
    CeilingExact(loan, now, later);
    if Leaps(loan, q, 3, seconds) {
      var now', later' := LeapIsMade(loan, q, 3, seconds);
      assert Covered(loan, now', later');
      CeilingExact(loan, now', later');
    }
  }

  // 3.6 days, and the prepaid times up to which that is one or two thousandths of the ramp.
  const COMMENTED_WINDOW := 311_040
  const FIFTY_DAYS := 50 * 86_400
  const LATEST_DAY := 1_850 * 86_400

  /**
   The comment next to the ceiling says that it lasts 3.6 days. It does exactly for loans with
   at most fifty days prepaid. Only with more than 487 permil prepaid, and between 50 and 1850
   days, it depends on the permils a window can start from.
   */
  lemma CommentedWindow(loan: Loan)
    requires Usual(loan)
    ensures WindowCovered(loan, COMMENTED_WINDOW) <==> LeapsCovered(loan, COMMENTED_WINDOW)
    ensures loan.prepaidFeePercent <= 487 || !(FIFTY_DAYS < loan.prepaidDuration <= LATEST_DAY) ==>
              (WindowCovered(loan, COMMENTED_WINDOW) <==> loan.prepaidDuration <= FIFTY_DAYS)
  {
    WindowExact(loan, COMMENTED_WINDOW);
    WindowByLeaps(loan, COMMENTED_WINDOW);
  }
}
