/**
 The states from which `RelayrLimits` goes on are reached.

 These are runs from a browser that has not used Relayr yet, for every authorization and any tabs.
 One bundle is quoted, funded and paid in them, and no other row is there.
 */
module RelayrReached {
  import opened Prelude
  import opened Runs
  import opened Identities
  import opened ActivityStore
  import opened RelayrProtocol
  import opened RelayrRuns
  import opened RelayrLimits

  function QuoteOf(job: Job, u: Uuid): Quote { Quote(u, job.account, job.callKey, job.keys) }

  // The only row is that of the bundle.
  predicate Sole(s: State, u: Uuid, r: Row) { s.rows == map[BundleId(u) := r] && r.bundle == Some(u) }

  function Patched(u: Uuid, r: Row, p: Patch): Rows { map[BundleId(u) := Merge(r, Guard(r, p))] }

  lemma SolePatched(u: Uuid, r: Row, p: Patch)
    ensures UpdateMap(map[BundleId(u) := r], BundleId(u), p, {}) == Patched(u, r, p)
    ensures Complete(p) ==> RecordMap(map[BundleId(u) := r], BundleId(u), p, {}) == map[BundleId(u) := Merge(r, p)]
  {
  }

  // ---------------------------------------------------------------- single steps

  lemma Begins(s: State, t: TabId, job: Job, u: Uuid, r: Row) returns (s': State)
    requires Sole(s, u, r) && Payable(r) && s.funding == map[]
    requires (t, u) in s.quotes && s.quotes[(t, u)] == QuoteOf(job, u) && (t, u) !in s.funded
    ensures Goes(s, Step(FundBegin(t, u), {}), s')
    ensures s' == s.(funding := map[job.callKey := Funding(t, QuoteOf(job, u), Reviewing)])
    ensures CanFundCommit(s', job.callKey)
  {
    s' := DoFundBegin(s, t, u);
  }

  lemma Commits(s: State, t: TabId, job: Job, u: Uuid, r: Row) returns (s': State)
    requires Sole(s, u, r) && CanFundCommit(s, job.callKey)
    requires s.funding == map[job.callKey := Funding(t, QuoteOf(job, u), Reviewing)]
    ensures Goes(s, Step(FundCommit(job.callKey, true), {}), s')
    ensures s' == s.(rows := map[BundleId(u) := Merge(r, SubmittedPatch(QuoteOf(job, u)))],
                     sends := s.sends + [Send(u, None, Unsettled)],
                     funding := map[job.callKey := Funding(t, QuoteOf(job, u), Sent(|s.sends|))],
                     tainted := if r.hash.None? then s.tainted else s.tainted + {u})
  {
    SolePatched(u, r, SubmittedPatch(QuoteOf(job, u)));
    s' := DoFundCommit(s, job.callKey, true, {});
  }

  lemma Hashes(s: State, t: TabId, job: Job, u: Uuid, r: Row, n: nat) returns (s': State)
    requires Sole(s, u, r) && s.funding == map[job.callKey := Funding(t, QuoteOf(job, u), Sent(n))]
    ensures Goes(s, Step(FundHash(job.callKey), {}), s')
    ensures s' == s.(rows := Patched(u, r, HashPatch(n)), funded := s.funded + {(t, u)},
                     funding := map[job.callKey := Funding(t, QuoteOf(job, u), Hashed(n))])
  {
    SolePatched(u, r, HashPatch(n));
    s' := DoFundHash(s, job.callKey, {});
  }

  lemma Ends(s: State, t: TabId, job: Job, u: Uuid, n: nat) returns (s': State)
    requires s.funding == map[job.callKey := Funding(t, QuoteOf(job, u), Hashed(n))]
    ensures Goes(s, Step(FundEnd(job.callKey, false), {}), s')
    ensures s' == s.(funding := map[])
  {
    s' := s.(funding := s.funding - {job.callKey});
    assert s.funding - {job.callKey} == map[];
  }

  lemma Rejects(s: State, t: TabId, job: Job, u: Uuid, r: Row, n: nat) returns (s': State)
    requires Sole(s, u, r) && s.funding == map[job.callKey := Funding(t, QuoteOf(job, u), Sent(n))]
    requires n < |s.sends| && s.sends[n].mined.None?
    ensures Goes(s, Step(FundReject(job.callKey), {}), s')
    ensures s' == s.(rows := Patched(u, r, DECLINED_PATCH), sends := Settle(s.sends, n, RejectedByWallet),
                     funding := map[])
  {
    SolePatched(u, r, DECLINED_PATCH);
    assert s.funding - {job.callKey} == map[];
    s' := DoFundReject(s, job.callKey, {});
  }

  lemma Mines(s: State, n: nat, ok: bool) returns (s': State)
    requires n < |s.sends| && s.sends[n].mined.None? && s.sends[n].settled != RejectedByWallet
    ensures Goes(s, Step(Mine(n, ok), {}), s')
    ensures s' == s.(sends := s.sends[n := s.sends[n].(mined := Some(ok))])
  {
    s' := Next(s, Mine(n, ok), {});
  }

  lemma Verifies(s: State, t: TabId, u: Uuid, r: Row, n: nat) returns (s': State)
    requires Sole(s, u, r) && r.hash == Some(n) && n < |s.sends| && s.sends[n].mined.Some?
    ensures Goes(s, Step(VerifyPayment(t, u), {}), s')
    ensures s.sends[n].mined == Some(true) ==>
              s' == s.(rows := Patched(u, r, CONFIRMED_PATCH), sends := Settle(s.sends, n, VerifiedPaid))
    ensures s.sends[n].mined == Some(false) ==>
              s' == s.(rows := Patched(u, r, REVERTED_PATCH), sends := Settle(s.sends, n, VerifiedReverted),
                       funded := s.funded - {(t, u)})
  {
    SolePatched(u, r, CONFIRMED_PATCH);
    SolePatched(u, r, REVERTED_PATCH);
    s' := DoVerify(s, t, u, {});
  }

  lemma Succeeds(s: State, u: Uuid, r: Row, n: nat) returns (s': State)
    requires Sole(s, u, r) && CanPollSuccess(s, u, n)
    ensures Goes(s, Step(PollSuccess(u, n), {}), s')
    ensures s' == s.(rows := Patched(u, r, SUCCESS_PATCH), resolved := s.resolved[u := n])
  {
    SolePatched(u, r, SUCCESS_PATCH);
    s' := Next(s, PollSuccess(u, n), {});
  }

  lemma Takes(s: State, t: TabId, job: Job, u: Uuid, r: Row) returns (s': State)
    requires Sole(s, u, r) && Reusable(r, job.callKey) && JobOk(job) && job.account !in s.authorizing
    ensures Goes(s, Step(Reuse(t, job, u), {}), s')
    ensures s' == s.(rows := Patched(u, r, MoreKeys(r, job)), quotes := s.quotes[(t, u) := QuoteOf(job, u)])
  {
    SolePatched(u, r, MoreKeys(r, job));
    s' := DoReuse(s, t, job, u, {});
  }

  // ---------------------------------------------------------------- a bundle is quoted

  function QuotedRow(job: Job, u: Uuid): Row {
    Row(BundleId(u), RelayrBundle, Pending, None, Some(job.account), None, None, Some(u), Some(job.callKey),
        job.keys, true, Some(Unfunded))
  }

  // Tab `t` published the job and received bundle `u`; nothing else happened.
  function QuotedState(t: TabId, job: Job, u: Uuid): State {
    INIT.(rows := map[BundleId(u) := QuotedRow(job, u)], quotes := map[(t, u) := QuoteOf(job, u)],
          pubs := [Publication(job, Some(u))], issued := map[u := 0])
  }

  function Quoting(t: TabId, job: Job, u: Uuid): seq<Step> {
    [Step(AuthBegin(t, job), {}), Step(AuthPublish(job.account, true), {}),
     Step(AuthReceive(job.account, u, true), {})]
  }

  function PublishedRow(job: Job): Row {
    Row(PublicationId(job.callKey), RelayrBundle, Pending, None, Some(job.account), None, None, None,
        Some(job.callKey), job.keys, false, Some(Unfunded))
  }

  lemma QuotedRows(job: Job, u: Uuid)
    ensures PublicationRows(map[], job, {}) == map[PublicationId(job.callKey) := PublishedRow(job)]
    ensures var rows := BundleRows(map[PublicationId(job.callKey) := PublishedRow(job)], job, u, {});
            DismissMap(rows, PublicationId(job.callKey), {}) == map[BundleId(u) := QuotedRow(job, u)]
  {
  }

  lemma Quoted(t: TabId, job: Job, u: Uuid) returns (ss: seq<State>)
    requires JobOk(job)
    ensures Path(Goes, ss, Quoting(t, job, u)) && Run(ss, Quoting(t, job, u)) && |ss| == 4
    ensures ss[0] == INIT && ss[3] == QuotedState(t, job, u)
  {
    QuotedRows(job, u);
    var s1 := DoAuthBegin(INIT, t, job);
    var s2 := DoAuthPublish(s1, job.account, true, {});
    var s3 := DoAuthReceive(s2, job.account, u, true, {});
    assert Goes(INIT, Quoting(t, job, u)[0], s1);
    assert Goes(s1, Quoting(t, job, u)[1], s2);
    assert Goes(s2, Quoting(t, job, u)[2], s3);
    assert s3.authorizing == map[];
    ss := [INIT, s1, s2, s3];
  }

  // ---------------------------------------------------------------- whole runs

  lemma Extend(ss: seq<State>, steps: seq<Step>, e: Event, s': State) returns (ss': seq<State>, steps': seq<Step>)
    requires Run(ss, steps) && Goes(ss[|steps|], Step(e, {}), s')
    ensures Run(ss', steps') && |ss'| == |steps'| + 1 == |ss| + 1 && ss'[|steps'|] == s'
  {
    ss', steps' := ss + [s'], steps + [Step(e, {})];
    OneMoreStep(Goes, ss, steps, Step(e, {}), s');
  }

  // A tab asks the wallet to fund the bundle.
  lemma Fund(ss: seq<State>, steps: seq<Step>, t: TabId, job: Job, u: Uuid, r: Row)
    returns (ss': seq<State>, steps': seq<Step>)
    requires Run(ss, steps)
    requires var s := ss[|steps|];
             && Sole(s, u, r) && Payable(r) && s.funding == map[]
             && (t, u) in s.quotes && s.quotes[(t, u)] == QuoteOf(job, u) && (t, u) !in s.funded
    ensures Run(ss', steps')
    ensures var s := ss[|steps|];
            ss'[|steps'|] == s.(rows := map[BundleId(u) := Merge(r, SubmittedPatch(QuoteOf(job, u)))],
                                sends := s.sends + [Send(u, None, Unsettled)],
                                funding := map[job.callKey := Funding(t, QuoteOf(job, u), Sent(|s.sends|))],
                                tainted := if r.hash.None? then s.tainted else s.tainted + {u})
  {
    var s1 := Begins(ss[|steps|], t, job, u, r);
    ss', steps' := Extend(ss, steps, FundBegin(t, u), s1);
    var s2 := Commits(s1, t, job, u, r);
    ss', steps' := Extend(ss', steps', FundCommit(job.callKey, true), s2);
  }

  // The wallet answers with a hash, and the lock is released.
  lemma Answer(ss: seq<State>, steps: seq<Step>, t: TabId, job: Job, u: Uuid, r: Row, n: nat)
    returns (ss': seq<State>, steps': seq<Step>)
    requires Run(ss, steps)
    requires Sole(ss[|steps|], u, r)
    requires ss[|steps|].funding == map[job.callKey := Funding(t, QuoteOf(job, u), Sent(n))]
    ensures Run(ss', steps')
    ensures var s := ss[|steps|];
            ss'[|steps'|] == s.(rows := Patched(u, r, HashPatch(n)), funded := s.funded + {(t, u)}, funding := map[])
  {
    var s1 := Hashes(ss[|steps|], t, job, u, r, n);
    ss', steps' := Extend(ss, steps, FundHash(job.callKey), s1);
    var s2 := Ends(s1, t, job, u, n);
    ss', steps' := Extend(ss', steps', FundEnd(job.callKey, false), s2);
  }

  // The payment is mined, and some tab verifies the receipt of the remembered hash.
  lemma Judge(ss: seq<State>, steps: seq<Step>, t: TabId, u: Uuid, r: Row, n: nat, ok: bool)
    returns (ss': seq<State>, steps': seq<Step>)
    requires Run(ss, steps)
    requires var s := ss[|steps|];
             Sole(s, u, r) && r.hash == Some(n) && n < |s.sends| && s.sends[n] == Send(u, None, Unsettled)
    ensures Run(ss', steps')
    ensures var s := ss[|steps|];
            ss'[|steps'|]
            == s.(rows := Patched(u, r, if ok then CONFIRMED_PATCH else REVERTED_PATCH),
                  sends := s.sends[n := Send(u, Some(ok), if ok then VerifiedPaid else VerifiedReverted)],
                  funded := if ok then s.funded else s.funded - {(t, u)})
  {
    var s := ss[|steps|];
    var s1 := Mines(s, n, ok);
    ss', steps' := Extend(ss, steps, Mine(n, ok), s1);
    var s2 := Verifies(s1, t, u, r, n);
    assert s2.sends == s.sends[n := Send(u, Some(ok), if ok then VerifiedPaid else VerifiedReverted)];
    ss', steps' := Extend(ss', steps', VerifyPayment(t, u), s2);
  }

  // The row of a bundle funded once, with the hash of that payment.
  function HashedRow(job: Job, u: Uuid): Row {
    QuotedRow(job, u).(status := Submitted, hash := Some(0), pay := Some(PaySubmitted))
  }

  // Two tabs have the quote of a bundle, and one of them funded it.
  lemma HashedOnce(t: TabId, other: TabId, job: Job, u: Uuid) returns (ss: seq<State>, steps: seq<Step>)
    requires JobOk(job) && t != other
    ensures Run(ss, steps)
    ensures ss[|steps|] == QuotedState(t, job, u).(
              rows := map[BundleId(u) := HashedRow(job, u)],
              quotes := map[(t, u) := QuoteOf(job, u), (other, u) := QuoteOf(job, u)],
              funded := {(t, u)}, sends := [Send(u, None, Unsettled)])
  {
    var r, q := QuotedRow(job, u), QuoteOf(job, u);
    ss := Quoted(t, job, u);
    var s1 := Takes(ss[3], other, job, u, r);
    assert Merge(r, Guard(r, MoreKeys(r, job))) == r;
    ss, steps := Extend(ss, Quoting(t, job, u), Reuse(other, job, u), s1);
    ss, steps := Fund(ss, steps, t, job, u, r);
    var r1 := Merge(r, SubmittedPatch(q));
    ss, steps := Answer(ss, steps, t, job, u, r1, 0);
    assert Merge(r1, Guard(r1, HashPatch(0))) == HashedRow(job, u);
  }

  // The row of a bundle funded once whose payment reverted.
  function RevertedRow(job: Job, u: Uuid): Row {
    HashedRow(job, u).(status := Failed, manual := Some(true), pay := Some(Reverted))
  }

  // A bundle was quoted, funded once, and its payment was verified as reverted.
  lemma RevertedOnce(t: TabId, other: TabId, job: Job, u: Uuid) returns (ss: seq<State>, steps: seq<Step>)
    requires JobOk(job) && t != other
    ensures Run(ss, steps)
    ensures ss[|steps|] == QuotedState(t, job, u).(
              rows := map[BundleId(u) := RevertedRow(job, u)],
              quotes := map[(t, u) := QuoteOf(job, u), (other, u) := QuoteOf(job, u)],
              sends := [Send(u, Some(false), VerifiedReverted)])
  {
    var r := HashedRow(job, u);
    ss, steps := HashedOnce(t, other, job, u);
    ss, steps := Judge(ss, steps, t, u, r, 0, false);
    assert Merge(r, Guard(r, REVERTED_PATCH)) == RevertedRow(job, u);
  }

  /** A run that ends where a tab is about to refund a bundle after a verified revert. */
  lemma RefundIsReached(t: TabId, other: TabId, job: Job, u: Uuid) returns (ss: seq<State>, steps: seq<Step>)
    requires JobOk(job) && t != other
    ensures Run(ss, steps) && AboutToRefund(ss[|steps|], job.callKey)
    ensures Funded(ss[|steps|], FundCommit(job.callKey, true)) == u
  {
    ss, steps := RevertedOnce(t, other, job, u);
    var s := Begins(ss[|steps|], t, job, u, RevertedRow(job, u));
    ss, steps := Extend(ss, steps, FundBegin(t, u), s);
  }

  /** A run that ends where a bundle was executed and a tab that did not pay remembers its quote. */
  lemma RememberedIsReached(t: TabId, other: TabId, job: Job, u: Uuid) returns (ss: seq<State>, steps: seq<Step>)
    requires JobOk(job) && t != other
    ensures Run(ss, steps) && StillRemembered(ss[|steps|], other, u)
  {
    var r := HashedRow(job, u);
    ss, steps := HashedOnce(t, other, job, u);
    ss, steps := Judge(ss, steps, t, u, r, 0, true);
    var s := Succeeds(ss[|steps|], u, Merge(r, Guard(r, CONFIRMED_PATCH)), 0);
    ss, steps := Extend(ss, steps, PollSuccess(u, 0), s);
  }

  // The row of a bundle executed by send `n`.
  function ExecutedRow(job: Job, u: Uuid, n: nat): Row {
    QuotedRow(job, u).(status := Success, manual := Some(false), hash := Some(n), pay := Some(Confirmed))
  }

  // Bundle `u` was executed by its refund while another tab asks the wallet to fund it again.
  function ExecutedWhileAsking(t: TabId, other: TabId, job: Job, u: Uuid): State {
    QuotedState(t, job, u).(
      rows := map[BundleId(u) := ExecutedRow(job, u, 1)],
      quotes := map[(t, u) := QuoteOf(job, u), (other, u) := QuoteOf(job, u)],
      funded := {(t, u)},
      funding := map[job.callKey := Funding(other, QuoteOf(job, u), Sent(2))],
      sends := [Send(u, Some(false), VerifiedReverted), Send(u, Some(true), VerifiedPaid), Send(u, None, Unsettled)],
      resolved := map[u := 1],
      tainted := {u})
  }

  /**
   And a run that ends there: the refund is asked for, the old hash is verified again and marks
   the row reverted, the wallet returns the new hash, and so another tab may ask too. Then the
   refund succeeds.
   */
  lemma ExecutedWhileAskingIsReached(t: TabId, other: TabId, job: Job, u: Uuid)
    returns (ss: seq<State>, steps: seq<Step>)
    requires JobOk(job) && t != other
    ensures Run(ss, steps) && ss[|steps|] == ExecutedWhileAsking(t, other, job, u)
  {
    ss, steps := RevertedOnce(t, other, job, u);
    var r, q := RevertedRow(job, u), QuoteOf(job, u);
    ss, steps := Fund(ss, steps, t, job, u, r);
    var r1 := Merge(r, SubmittedPatch(q));
    var s1 := Verifies(ss[|steps|], other, u, r1, 0);
    ss, steps := Extend(ss, steps, VerifyPayment(other, u), s1);
    var r2 := Merge(r1, Guard(r1, REVERTED_PATCH));
    ss, steps := Answer(ss, steps, t, job, u, r2, 1);
    var r3 := Merge(r2, Guard(r2, HashPatch(1)));
    ss, steps := Fund(ss, steps, other, job, u, r3);
    var r4 := Merge(r3, SubmittedPatch(q));
    ss, steps := Judge(ss, steps, t, u, r4, 1, true);
    var r5 := Merge(r4, Guard(r4, CONFIRMED_PATCH));
    var s2 := Succeeds(ss[|steps|], u, r5, 1);
    ss, steps := Extend(ss, steps, PollSuccess(u, 1), s2);
    assert Merge(r5, Guard(r5, SUCCESS_PATCH)) == ExecutedRow(job, u, 1);
  }
}
