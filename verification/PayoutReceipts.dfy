/**
 Checking that a payout reached every configured recipient
 (`verifyPayoutReceipt`, web/src/lib/payout-receipts.ts:41-119). The terminal pays the splits one
 after another, each from what the ones before it left, and takes a fee of at most 2.5%.
 */
module PayoutReceipts {
  import opened Prelude
  import opened Arithmetic

  const SPLITS_TOTAL_PERCENT := 1_000_000_000
  const FEE_DIVISOR := 40

  type Address = nat
  datatype Split = Split(percent: int, projectId: nat, beneficiary: Address, preferAddToBalance: bool, lockedUntil: nat,
      hook: Address)
  datatype Payout = Payout(rulesetId: nat, cycle: nat, owner: Address, amount: nat, amountPaidOut: nat, fee: nat,
      netLeftover: nat)
  datatype SplitPayout = SplitPayout(rulesetId: nat, group: nat, split: Split, amount: nat, netAmount: nat)

  // A decoded event of the terminal, of a project and a caller.
  datatype Kind = Reverted | SendPayouts(payout: Payout) | SendToSplit(sent: SplitPayout) | Other
  datatype Event = Event(projectId: nat, caller: Address, kind: Kind)

  // A log: who emitted it, and what it decodes to if it decodes.
  datatype Log = Log(emitter: Address, event: Option<Event>)

  datatype Expected = Expected(
    terminal: Address,
    projectId: nat,
    rulesetId: nat,
    cycle: nat,
    token: nat,
    owner: Address,
    caller: Address,
    amount: nat,
    minimum: nat,
    splits: seq<Split>)

  // ---------------------------------------------------------------- successive shares

  // What each split gets, and what is left of the amount and of the percentage.
  datatype Walk = Walk(shares: seq<nat>, left: nat, percentLeft: nat)

  function Gross(amount: nat, percent: nat, total: nat): (g: nat)
    requires percent <= total && total > 0
    ensures g <= amount
  {
    GrossWithin(amount, percent, total);
    amount * percent / total
  }

  lemma GrossWithin(amount: nat, percent: nat, total: nat)
    requires percent <= total && total > 0
    ensures 0 <= amount * percent / total <= amount
    ensures amount * percent / total * total <= amount * percent < amount * percent / total * total + total
  {
    Times(percent, total, amount);
    Quotient(amount * percent, total);
    QuotientAtMost(amount * percent, total, amount);
  }

  // None when a percentage is negative or more than what is left.
  function Shares(amount: nat, total: nat, splits: seq<Split>): Option<Walk> {
    if splits == [] then Some(Walk([], amount, total))
    else if splits[0].percent < 0 || splits[0].percent > total || total == 0 then None
    else
      var g := Gross(amount, splits[0].percent, total);
      var rest := Shares(amount - g, total - splits[0].percent, splits[1..]);
      if rest.None? then None else Some(rest.value.(shares := [g] + rest.value.shares))
  }

  function Sum(s: seq<nat>): nat { if s == [] then 0 else s[0] + Sum(s[1..]) }

  /** The shares and the remainder are the whole amount. */
  lemma {:induction false} SharesConserve(amount: nat, total: nat, splits: seq<Split>)
    requires Shares(amount, total, splits).Some?
    ensures var w := Shares(amount, total, splits).value; |w.shares| == |splits| && Sum(w.shares) + w.left == amount
  {
    if splits != [] {
      var g := Gross(amount, splits[0].percent, total);
      SharesConserve(amount - g, total - splits[0].percent, splits[1..]);
      var rest := Shares(amount - g, total - splits[0].percent, splits[1..]).value.shares;
      assert ([g] + rest)[1..] == rest;
    }
  }

  // What is left is at least its part of the whole, and at most `k` units more after `k` splits.
  ghost predicate NearPart(whole: nat, amount: nat, total: nat, k: nat) {
    whole * total <= amount * SPLITS_TOTAL_PERCENT <= whole * total + k * SPLITS_TOTAL_PERCENT
  }

  // The share lies between its part of the whole, rounded down, and that part plus `k`.
  lemma ShareNearPart(whole: nat, amount: nat, total: nat, percent: nat, k: nat)
    requires NearPart(whole, amount, total, k) && percent <= total && total > 0
    ensures var g := Gross(amount, percent, total);
            && whole * percent / SPLITS_TOTAL_PERCENT <= g
            && g * SPLITS_TOTAL_PERCENT <= whole * percent + k * SPLITS_TOTAL_PERCENT
  {
    var s, g := SPLITS_TOTAL_PERCENT, Gross(amount, percent, total);
    GrossWithin(amount, percent, total);
    ShareUpper(whole, amount, total, percent, k, g, s);
    ShareLower(whole, amount, total, percent, g, s);
  }

  lemma ShareUpper(whole: nat, amount: nat, total: nat, percent: nat, k: nat, g: nat, s: nat)
    requires total > 0 && percent <= total && g * total <= amount * percent && amount * s <= whole * total + k * s
    ensures g * s <= whole * percent + k * s
  {
    Times(g * total, amount * percent, s);
    Times(amount * s, whole * total + k * s, percent);
    Times(percent, total, k * s);
    Associate(g, total, s);
    Associate(amount, percent, s);
    Associate(whole, total, percent);
    Distribute(whole * total, k * s, percent);
    Distribute(whole * percent, k * s, total);
    CancelLeft(total, g * s, whole * percent + k * s);
  }

  lemma ShareLower(whole: nat, amount: nat, total: nat, percent: nat, g: nat, s: nat)
    requires total > 0 && s > 0 && amount * percent < g * total + total && whole * total <= amount * s
    ensures whole * percent / s <= g
  {
    Times(whole * total, amount * s, percent);
    Distribute(g, 1, total);
    Times(amount * percent + 1, (g + 1) * total, s);
    Associate(whole, total, percent);
    Associate(g + 1, total, s);
    Distribute(amount * percent, 1, s);
    Associate(amount, percent, s);
    CancelLeftStrict(total, whole * percent, (g + 1) * s);
    QuotientAtMost(whole * percent, s, g);
  }

  lemma RestNearPart(whole: nat, amount: nat, total: nat, percent: nat, k: nat)
    requires NearPart(whole, amount, total, k) && percent <= total && total > 0
    ensures NearPart(whole, amount - Gross(amount, percent, total), total - percent, k + 1)
  {
    var g := Gross(amount, percent, total);
    GrossWithin(amount, percent, total);
    RestLower(whole, amount, total, percent, g, SPLITS_TOTAL_PERCENT);
    RestUpper(whole, amount, total, percent, k, g, SPLITS_TOTAL_PERCENT);
  }

  lemma RestLower(whole: nat, amount: nat, total: nat, percent: nat, g: nat, s: nat)
    requires total > 0 && percent <= total && g <= amount && g * total <= amount * percent
    requires whole * total <= amount * s
    ensures whole * (total - percent) <= (amount - g) * s
  {
    var rest, left := total - percent, amount - g;
    LeftOver(amount, total, percent, g);
    Times(whole * total, amount * s, rest);
    Times(amount * rest, left * total, s);
    Associate(whole, total, rest);
    Associate(amount, rest, s);
    Associate(left, total, s);
    CancelLeft(total, whole * rest, left * s);
  }

  // What is left of the amount and of the percentage, over the same denominator.
  lemma LeftOver(amount: nat, total: nat, percent: nat, g: nat)
    requires percent <= total && g <= amount
    ensures (amount - g) * total + g * total == amount * (total - percent) + amount * percent
  {
    Distribute(amount - g, g, total);
    Distribute(total - percent, percent, amount);
  }

  lemma RestUpper(whole: nat, amount: nat, total: nat, percent: nat, k: nat, g: nat, s: nat)
    requires total > 0 && percent <= total && g <= amount && amount * percent < g * total + total
    requires amount * s <= whole * total + k * s
    ensures (amount - g) * s <= whole * (total - percent) + (k + 1) * s
  {
    var rest, left := total - percent, amount - g;
    LeftOver(amount, total, percent, g);
    Times(left * total, amount * rest + total, s);
    Times(amount * s, whole * total + k * s, rest);
    RestProducts(whole, amount, total, rest, left, k * s, s);
    Times(rest, total, k * s);
    CancelLeft(total, left * s, whole * rest + k * s + s);
  }

  lemma RestProducts(whole: nat, amount: nat, total: nat, rest: nat, left: nat, ks: nat, s: nat)
    ensures left * total * s == total * (left * s)
    ensures (amount * rest + total) * s == amount * s * rest + total * s
    ensures (whole * total + ks) * rest == total * (whole * rest) + rest * ks
    ensures total * (whole * rest + ks + s) == total * (whole * rest) + total * ks + total * s
  {
    Associate(left, total, s);
    Distribute(amount * rest, total, s);
    Associate(amount, rest, s);
    Distribute(whole * total, ks, rest);
    Associate(whole, total, rest);
    Distribute(whole * rest + ks, s, total);
    Distribute(whole * rest, ks, total);
  }

  /** Split `i` gets at least its part of the whole, rounded down, and at most that part plus `i` units. */
  lemma {:induction false} ShareBounds(whole: nat, amount: nat, total: nat, splits: seq<Split>, k: nat, i: nat)
    requires Shares(amount, total, splits).Some? && NearPart(whole, amount, total, k) && i < |splits|
    ensures |Shares(amount, total, splits).value.shares| == |splits| && splits[i].percent >= 0
    ensures var g, p := Shares(amount, total, splits).value.shares[i], splits[i].percent;
            && whole * p / SPLITS_TOTAL_PERCENT <= g
            && g * SPLITS_TOTAL_PERCENT <= whole * p + (k + i) * SPLITS_TOTAL_PERCENT
    decreases splits
  {
    SharesConserve(amount, total, splits);
    var p := splits[0].percent;
    if i == 0 {
      ShareNearPart(whole, amount, total, p, k);
    } else {
      RestNearPart(whole, amount, total, p, k);
      ShareBounds(whole, amount - Gross(amount, p, total), total - p, splits[1..], k + 1, i - 1);
    }
  }

  // ---------------------------------------------------------------- what is accepted

  function Events(logs: seq<Log>, terminal: Address): seq<Event> {
    if logs == [] then []
    else
      var first := if logs[0].emitter == terminal && logs[0].event.Some? then [logs[0].event.value] else [];
      first + Events(logs[1..], terminal)
  }

  predicate Belongs(e: Event, x: Expected) { e.projectId == x.projectId && e.caller == x.caller }

  function Payouts(events: seq<Event>, x: Expected): seq<Payout> {
    if events == [] then []
    else
      var first := if events[0].kind.SendPayouts? && Belongs(events[0], x) then [events[0].kind.payout] else [];
      first + Payouts(events[1..], x)
  }

  function Sent(events: seq<Event>, x: Expected): seq<SplitPayout> {
    if events == [] then []
    else
      var first := if events[0].kind.SendToSplit? && Belongs(events[0], x) then [events[0].kind.sent] else [];
      first + Sent(events[1..], x)
  }

  // Net of a fee of at most a fortieth, rounded down.
  predicate NetOf(net: nat, gross: nat) { gross - gross / FEE_DIVISOR <= net <= gross }

  predicate PayoutMatches(p: Payout, x: Expected) {
    && p.rulesetId == x.rulesetId && p.cycle == x.cycle && p.owner == x.owner && p.amount == x.amount
    && p.amountPaidOut >= x.minimum && p.amountPaidOut > 0 && p.fee <= p.amountPaidOut / FEE_DIVISOR
  }

  predicate SplitMatches(s: SplitPayout, x: Expected, split: Split, gross: nat) {
    && s.rulesetId == x.rulesetId && s.group == x.token && s.split == split && s.amount == gross
    && NetOf(s.netAmount, gross)
  }

  predicate SplitsMatch(sent: seq<SplitPayout>, x: Expected, shares: seq<nat>)
    requires |sent| == |x.splits|
  {
    |shares| <= |sent| && forall i | 0 <= i < |shares| :: SplitMatches(sent[i], x, x.splits[i], shares[i])
  }

  // Every split event is the share the walk gives.
  predicate Fits(sent: seq<SplitPayout>, x: Expected, w: Option<Walk>)
    requires |sent| == |x.splits|
  {
    w.Some? && |w.value.shares| == |sent| && SplitsMatch(sent, x, w.value.shares)
  }

  lemma OneMismatch(sent: seq<SplitPayout>, x: Expected, w: Option<Walk>, k: nat)
    requires |sent| == |x.splits| && k < |sent|
    requires w.Some? ==> k < |w.value.shares| && !SplitMatches(sent[k], x, x.splits[k], w.value.shares[k])
    ensures !Fits(sent, x, w)
  {
  }

  lemma OneMoreMatch(sent: seq<SplitPayout>, x: Expected, done: seq<nat>, g: nat)
    requires |sent| == |x.splits| && |done| < |sent| && SplitsMatch(sent, x, done)
    requires SplitMatches(sent[|done|], x, x.splits[|done|], g)
    ensures SplitsMatch(sent, x, done + [g])
  {
  }

  predicate Accepted(logs: seq<Log>, x: Expected) {
    var events := Events(logs, x.terminal);
    && (forall e | e in events :: !(e.kind.Reverted? && Belongs(e, x)))
    && |Payouts(events, x)| == 1
    && var p, sent := Payouts(events, x)[0], Sent(events, x);
       && PayoutMatches(p, x) && |sent| == |x.splits|
       && var w := Shares(p.amountPaidOut, SPLITS_TOTAL_PERCENT, x.splits);
          && Fits(sent, x, w)
          && NetOf(p.netLeftover, w.value.left)
  }

  // A log of the terminal about this project and this caller.
  predicate Ours(log: Log, x: Expected) {
    && log.emitter == x.terminal && log.event.Some?
    && log.event.value.projectId == x.projectId && log.event.value.caller == x.caller
  }

  // Some log of this call is of this kind.
  ghost predicate Logged(logs: seq<Log>, x: Expected, kind: Kind) {
    exists log | log in logs :: Ours(log, x) && log.event.value.kind == kind
  }

  lemma {:induction false} EventLogged(logs: seq<Log>, x: Expected, kind: Kind)
    ensures (exists e | e in Events(logs, x.terminal) :: Belongs(e, x) && e.kind == kind) <==> Logged(logs, x, kind)
  {
    if logs != [] {
      var rest := Events(logs[1..], x.terminal);
      EventLogged(logs[1..], x, kind);
      assert forall log :: log in logs <==> log == logs[0] || log in logs[1..];
      if logs[0].emitter == x.terminal && logs[0].event.Some? {
        assert Events(logs, x.terminal) == [logs[0].event.value] + rest;
        assert forall e :: e in Events(logs, x.terminal) <==> e == logs[0].event.value || e in rest;
      } else {
        assert Events(logs, x.terminal) == rest;
      }
    }
  }

  lemma {:induction false} PayoutsFiltered(events: seq<Event>, x: Expected, p: Payout)
    ensures p in Payouts(events, x) <==> exists e | e in events :: Belongs(e, x) && e.kind == SendPayouts(p)
  {
    if events != [] {
      PayoutsFiltered(events[1..], x, p);
      assert forall e :: e in events <==> e == events[0] || e in events[1..];
    }
  }

  lemma {:induction false} SentFiltered(events: seq<Event>, x: Expected, s: SplitPayout)
    ensures s in Sent(events, x) <==> exists e | e in events :: Belongs(e, x) && e.kind == SendToSplit(s)
  {
    if events != [] {
      SentFiltered(events[1..], x, s);
      assert forall e :: e in events <==> e == events[0] || e in events[1..];
    }
  }

  /** The events that are looked at are exactly those the terminal logged for this project and caller. */
  lemma {:induction false} EventsOfThisCall(logs: seq<Log>, x: Expected, p: Payout, s: SplitPayout)
    ensures p in Payouts(Events(logs, x.terminal), x) <==> Logged(logs, x, SendPayouts(p))
    ensures s in Sent(Events(logs, x.terminal), x) <==> Logged(logs, x, SendToSplit(s))
  {
    PayoutsFiltered(Events(logs, x.terminal), x, p);
    SentFiltered(Events(logs, x.terminal), x, s);
    EventLogged(logs, x, SendPayouts(p));
    EventLogged(logs, x, SendToSplit(s));
  }

  // A split event pays this split its share, and at most a fortieth of it as a fee.
  predicate PaysShare(s: SplitPayout, x: Expected, split: Split, share: nat) {
    && s.rulesetId == x.rulesetId && s.group == x.token && s.split == split
    && s.amount == share && share - share / 40 <= s.netAmount <= share
  }

  /**
   Which receipts are accepted, exactly: nothing of this call reverted, there is one payout event,
   of the expected ruleset, cycle, owner and amount, which paid out the minimum and something at a
   fee of at most a fortieth, and one event in order for each split, with its successive share.
   */
  lemma {:induction false} AcceptedExactly(logs: seq<Log>, x: Expected)
    ensures Accepted(logs, x) <==>
        && !Logged(logs, x, Reverted)
        && var payouts, sent := Payouts(Events(logs, x.terminal), x), Sent(Events(logs, x.terminal), x);
           && |payouts| == 1 && |sent| == |x.splits|
           && var p := payouts[0];
              && p.rulesetId == x.rulesetId && p.cycle == x.cycle && p.owner == x.owner && p.amount == x.amount
              && Max(1, x.minimum) <= p.amountPaidOut && p.fee <= p.amountPaidOut / 40
              && var w := Shares(p.amountPaidOut, 1_000_000_000, x.splits);
                 && w.Some? && |w.value.shares| == |sent|
                 && (forall i | 0 <= i < |sent| :: PaysShare(sent[i], x, x.splits[i], w.value.shares[i]))
                 && w.value.left - w.value.left / 40 <= p.netLeftover <= w.value.left
  {
    EventLogged(logs, x, Reverted);
    NoneReverted(Events(logs, x.terminal), x);
    ShareMatches();
  }

  lemma NoneReverted(events: seq<Event>, x: Expected)
    ensures (forall e | e in events :: !(e.kind.Reverted? && Belongs(e, x)))
            <==> !exists e | e in events :: Belongs(e, x) && e.kind == Reverted
  {
  }

  lemma ShareMatches()
    ensures forall s, x, split, share ::
              SplitMatches(s, x, split, share) <==> PaysShare(s, x, split, share)
  {
  }

  function Nets(sent: seq<SplitPayout>): seq<nat> { if sent == [] then [] else [sent[0].netAmount] + Nets(sent[1..]) }

  // Rounding down part by part never rounds down less than once at the end.
  lemma {:induction false} NetBounds(sent: seq<SplitPayout>, shares: seq<nat>, net: nat, left: nat)
    requires |sent| == |shares| && NetOf(net, left) && forall i | 0 <= i < |sent| :: NetOf(sent[i].netAmount, shares[i])
    ensures var whole := Sum(shares) + left; whole - whole / FEE_DIVISOR <= Sum(Nets(sent)) + net <= whole
  {
    if sent != [] {
      NetBounds(sent[1..], shares[1..], net, left);
      assert Nets(sent)[1..] == Nets(sent[1..]);
    }
  }

  /** Of every accepted receipt: nothing is lost, every split got its share, and fees stay within a fortieth. */
  lemma {:induction false} AcceptedPaysEveryone(logs: seq<Log>, x: Expected)
    requires Accepted(logs, x)
    ensures var events := Events(logs, x.terminal);
            var p, sent := Payouts(events, x)[0], Sent(events, x);
            var w := Shares(p.amountPaidOut, SPLITS_TOTAL_PERCENT, x.splits).value;
            && Sum(w.shares) + w.left == p.amountPaidOut
            && (forall i: nat | i < |x.splits| ::
                  && sent[i].split == x.splits[i] && x.splits[i].percent >= 0
                  && p.amountPaidOut * x.splits[i].percent / SPLITS_TOTAL_PERCENT <= sent[i].amount
                  && sent[i].amount * SPLITS_TOTAL_PERCENT
                     <= p.amountPaidOut * x.splits[i].percent + i * SPLITS_TOTAL_PERCENT)
            && p.amountPaidOut - p.amountPaidOut / FEE_DIVISOR <= Sum(Nets(sent)) + p.netLeftover <= p.amountPaidOut
  {
    var events := Events(logs, x.terminal);
    var p, sent := Payouts(events, x)[0], Sent(events, x);
    var w := Shares(p.amountPaidOut, SPLITS_TOTAL_PERCENT, x.splits).value;
    SharesConserve(p.amountPaidOut, SPLITS_TOTAL_PERCENT, x.splits);
    forall i: nat | i < |x.splits|
      ensures x.splits[i].percent >= 0 && p.amountPaidOut * x.splits[i].percent / SPLITS_TOTAL_PERCENT <= sent[i].amount
      ensures sent[i].amount * SPLITS_TOTAL_PERCENT <= p.amountPaidOut * x.splits[i].percent + i * SPLITS_TOTAL_PERCENT
    {
      ShareBounds(p.amountPaidOut, p.amountPaidOut, SPLITS_TOTAL_PERCENT, x.splits, 0, i);
      assert SplitMatches(sent[i], x, x.splits[i], w.shares[i]);
    }
    NetBounds(sent, w.shares, p.netLeftover, w.left);
  }

  // ---------------------------------------------------------------- the code

  method AnyReverted(events: seq<Event>, x: Expected) returns (any: bool)
    ensures any <==> exists e :: e in events && e.kind.Reverted? && Belongs(e, x)
  {
    for i := 0 to |events|
      invariant forall k | 0 <= k < i :: !(events[k].kind.Reverted? && Belongs(events[k], x))
    {
      if events[i].kind.Reverted? && Belongs(events[i], x) { return true; }
    }
    any := false;
  }

  // The walk that starts with these shares.
  function Prepend(done: seq<nat>, rest: Option<Walk>): Option<Walk> {
    if rest.None? then None else Some(rest.value.(shares := done + rest.value.shares))
  }

  // `w` is the walk of all splits: these shares, and whatever the rest of the splits give.
  predicate Walked(w: Option<Walk>, done: seq<nat>, amount: nat, percent: nat, splits: seq<Split>) {
    |done| <= |splits| && w == Prepend(done, Shares(amount, percent, splits[|done|..]))
  }

  // The split loop: `remainingAmount` and `remainingPercent` shrink, and it fails early.
  method VerifySplits(sent: seq<SplitPayout>, x: Expected, amount: nat) returns (left: Option<nat>)
    requires |sent| == |x.splits|
    ensures var w := Shares(amount, SPLITS_TOTAL_PERCENT, x.splits);
            && (left.Some? <==> Fits(sent, x, w))
            && (left.Some? ==> w.value.left == left.value)
  {
    var remainingAmount, remainingPercent := amount, SPLITS_TOTAL_PERCENT;
    ghost var w := Shares(amount, SPLITS_TOTAL_PERCENT, x.splits);
    ghost var done: seq<nat> := [];
    WalkStarts(amount, x.splits);
    for index := 0 to |sent|
      invariant |done| == index && remainingPercent >= 0 && remainingAmount >= 0
      invariant Walked(w, done, remainingAmount, remainingPercent, x.splits)
      invariant SplitsMatch(sent, x, done)
    {
      var split, actual := x.splits[index], sent[index];
      if split.percent < 0 || split.percent > remainingPercent || remainingPercent <= 0 {
        WalkFails(w, done, remainingAmount, remainingPercent, x.splits);
        return None;
      }
      var gross := Gross(remainingAmount, split.percent, remainingPercent);
      OneSplit(sent, x, w, done, remainingAmount, remainingPercent, gross);
      if !SplitMatches(actual, x, split, gross) { return None; }
      done := done + [gross];
      remainingAmount := remainingAmount - gross;
      remainingPercent := remainingPercent - split.percent;
    }
    WalkEnds(w, done, remainingAmount, remainingPercent, x.splits);
    left := Some(remainingAmount);
  }

  // One split event is compared with its share.
  lemma OneSplit(
    sent: seq<SplitPayout>, x: Expected, w: Option<Walk>, done: seq<nat>, amount: nat, percent: nat, g: nat)
    requires |sent| == |x.splits| && |done| < |sent| && SplitsMatch(sent, x, done)
    requires Walked(w, done, amount, percent, x.splits) && 0 <= x.splits[|done|].percent <= percent && percent > 0
    requires g == Gross(amount, x.splits[|done|].percent, percent)
    ensures g <= amount && Walked(w, done + [g], amount - g, percent - x.splits[|done|].percent, x.splits)
    ensures if SplitMatches(sent[|done|], x, x.splits[|done|], g) then SplitsMatch(sent, x, done + [g])
            else !Fits(sent, x, w)
  {
    WalkGoesOn(w, done, amount, percent, x.splits, g);
    if SplitMatches(sent[|done|], x, x.splits[|done|], g) {
      OneMoreMatch(sent, x, done, g);
    } else {
      OneMismatch(sent, x, w, |done|);
    }
  }

  lemma WalkEnds(w: Option<Walk>, done: seq<nat>, amount: nat, percent: nat, splits: seq<Split>)
    requires Walked(w, done, amount, percent, splits) && |done| == |splits|
    ensures w == Some(Walk(done, amount, percent))
  {
    assert done + [] == done;
  }

  lemma {:induction false} WalkStarts(amount: nat, splits: seq<Split>)
    ensures Walked(Shares(amount, SPLITS_TOTAL_PERCENT, splits), [], amount, SPLITS_TOTAL_PERCENT, splits)
  {
    assert splits[0..] == splits;
    var w := Shares(amount, SPLITS_TOTAL_PERCENT, splits);
    if w.Some? {
      assert [] + w.value.shares == w.value.shares;
    }
  }

  lemma WalkFails(w: Option<Walk>, done: seq<nat>, amount: nat, percent: nat, splits: seq<Split>)
    requires Walked(w, done, amount, percent, splits) && |done| < |splits|
    requires splits[|done|].percent < 0 || splits[|done|].percent > percent || percent == 0
    ensures w.None?
  {
    assert splits[|done|..][0] == splits[|done|];
  }

  // One split of a walk takes its share.
  lemma WalkGoesOn(w: Option<Walk>, done: seq<nat>, amount: nat, percent: nat, splits: seq<Split>, g: nat)
    requires Walked(w, done, amount, percent, splits) && |done| < |splits|
    requires 0 <= splits[|done|].percent <= percent && percent > 0
    requires g == Gross(amount, splits[|done|].percent, percent)
    ensures Walked(w, done + [g], amount - g, percent - splits[|done|].percent, splits)
    ensures w.Some? ==> |done| < |w.value.shares| && w.value.shares[|done|] == g
  {
    var p, rest := splits[|done|].percent, splits[|done|..];
    assert rest[0] == splits[|done|] && rest[1..] == splits[|done| + 1..];
    PrependShares(done, g, Shares(amount - g, percent - p, rest[1..]));
  }

  lemma PrependShares(done: seq<nat>, g: nat, rest: Option<Walk>)
    ensures Prepend(done, Prepend([g], rest)) == Prepend(done + [g], rest)
    ensures rest.Some? ==> Prepend(done, Prepend([g], rest)).value.shares[|done|] == g
  {
    if rest.Some? {
      assert done + ([g] + rest.value.shares) == done + [g] + rest.value.shares;
    }
  }

  /** True exactly when the receipt is accepted; otherwise the source throws. */
  method VerifyPayoutReceipt(logs: seq<Log>, x: Expected) returns (ok: bool)
    ensures ok <==> Accepted(logs, x)
  {
    var events := Events(logs, x.terminal);
    var reverted := AnyReverted(events, x);
    if reverted { return false; }
    var payouts, sent := Payouts(events, x), Sent(events, x);
    if |payouts| != 1 { return false; }
    var payout := payouts[0];
    if !PayoutMatches(payout, x) { return false; }
    if |sent| != |x.splits| { return false; }
    var left := VerifySplits(sent, x, payout.amountPaidOut);
    ok := left.Some? && NetOf(payout.netLeftover, left.value);
  }
}
