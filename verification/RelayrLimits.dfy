/**
 Where the guarantees of the Relayr protocol stop, by runs that show it, and what every run has
 in common that gets there. `RelayrRuns.FundingAtMostOnce` leaves two ways to a second payment:
 a funding from a row that still holds the hash of a reverted payment, and a funding of a bundle
 whose row is gone.
 */
module RelayrLimits {
  import opened Prelude
  import opened Runs
  import opened Identities
  import opened ActivityStore
  import opened RelayrProtocol
  import opened RelayrSafety
  import opened RelayrRuns

  // ---------------------------------------------------------------- a hash comes from the wallet

  // A hash in a row was returned by the wallet: that send is not being asked for any more, and
  // was not declined.
  ghost predicate HashAsked(n: nat, funding: map<CallKey, Funding>, sends: seq<Send>) {
    n < |sends| ==>
      && sends[n].settled != RejectedByWallet
      && forall ck | ck in funding && funding[ck].pc.Sent? :: funding[ck].pc.send != n
  }

  ghost predicate RowHashes(rows: Rows, funding: map<CallKey, Funding>, sends: seq<Send>) {
    forall id | id in rows && id.BundleId? && rows[id].hash.Some? :: HashAsked(rows[id].hash.value, funding, sends)
  }

  ghost predicate NoneDeclined(funding: map<CallKey, Funding>, sends: seq<Send>) {
    forall ck | ck in funding && funding[ck].pc.Sent? && funding[ck].pc.send < |sends| ::
      sends[funding[ck].pc.send].settled != RejectedByWallet
  }

  ghost predicate HashesAsked(s: State) {
    RowHashes(s.rows, s.funding, s.sends) && NoneDeclined(s.funding, s.sends)
  }

  // Every hash in these rows was there before.
  ghost predicate OldHashes(rows: Rows, rows': Rows) {
    forall id | id in rows' && id.BundleId? && rows'[id].hash.Some? :: id in rows && rows[id].hash == rows'[id].hash
  }

  ghost predicate FewerRequests(funding: map<CallKey, Funding>, funding': map<CallKey, Funding>) {
    forall ck | ck in funding' && funding'[ck].pc.Sent? :: ck in funding && funding[ck].pc == funding'[ck].pc
  }

  lemma OldHashesPatch(rows: Rows, id: Id, p: Patch, gone: set<Id>)
    requires p.hash.Absent? || !id.BundleId?
    ensures OldHashes(rows, UpdateMap(rows, id, p, gone))
    ensures Complete(p) ==> OldHashes(rows, RecordMap(rows, id, p, gone))
  {
  }

  lemma FewerKeepHashes(s: State, s': State)
    requires HashesAsked(s) && s'.sends == s.sends && OldHashes(s.rows, s'.rows) && FewerRequests(s.funding, s'.funding)
    ensures HashesAsked(s')
  {
    forall id | id in s'.rows && id.BundleId? && s'.rows[id].hash.Some?
      ensures HashAsked(s'.rows[id].hash.value, s'.funding, s'.sends)
    {
      assert HashAsked(s.rows[id].hash.value, s.funding, s.sends);
    }
  }

  lemma AuthorizingHashes(s: State, e: Event, gone: set<Id>)
    requires HashesAsked(s) && Enabled(s, e, gone) && OfAuthorizing(e)
    ensures HashesAsked(Next(s, e, gone))
  {
    match e {
      case Reuse(_, job, u) =>
        OldHashesPatch(s.rows, BundleId(u), MoreKeys(s.rows[BundleId(u)], job), gone);
      case AuthBegin(_, _) =>
      case AuthPublish(a, _) =>
        OldHashesPatch(s.rows, PublicationId(s.authorizing[a].job.callKey), PublicationPatch(s.authorizing[a].job),
          gone);
      case AuthReceive(a, u, _) => OldHashesPatch(s.rows, BundleId(u), BundlePatch(s.authorizing[a].job, u), gone);
      case AuthAbort(_) =>
    }
    FewerKeepHashes(s, Next(s, e, gone));
  }

  lemma CommitHashes(s: State, ck: CallKey, asked: bool, gone: set<Id>)
    requires HashesAsked(s) && RowsOk(s.rows, s.pubs, s.issued, s.resolved, s.sends) && CanFundCommit(s, ck)
    requires FundingOk(s.funding, s.pubs, s.issued, s.sends)
    ensures HashesAsked(DoFundCommit(s, ck, asked, gone))
  {
    var q, s' := s.funding[ck].quote, DoFundCommit(s, ck, asked, gone);
    OldHashesPatch(s.rows, BundleId(q.bundle), SubmittedPatch(q), gone);
    if asked {
      forall id | id in s'.rows && id.BundleId? && s'.rows[id].hash.Some?
        ensures HashAsked(s'.rows[id].hash.value, s'.funding, s'.sends)
      {
        assert HashAsked(s.rows[id].hash.value, s.funding, s.sends);
        assert RowOk(id, s.rows[id], s.pubs, s.issued, s.resolved, s.sends);
      }
    } else {
      FewerKeepHashes(s, s');
    }
  }

  lemma RejectHashes(s: State, ck: CallKey, gone: set<Id>)
    requires HashesAsked(s) && FundingOk(s.funding, s.pubs, s.issued, s.sends) && CanFundReject(s, ck)
    ensures HashesAsked(DoFundReject(s, ck, gone))
  {
    var u, n, s' := s.funding[ck].quote.bundle, s.funding[ck].pc.send, DoFundReject(s, ck, gone);
    OldHashesPatch(s.rows, BundleId(u), DECLINED_PATCH, gone);
    forall id | id in s'.rows && id.BundleId? && s'.rows[id].hash.Some?
      ensures HashAsked(s'.rows[id].hash.value, s'.funding, s'.sends)
    {
      assert HashAsked(s.rows[id].hash.value, s.funding, s.sends);
    }
    forall other | other in s'.funding && s'.funding[other].pc.Sent? ensures s'.funding[other].pc.send != n {
      if s'.funding[other].pc.send == n {
        OneRequestABundle(s, ck, other);
      }
    }
  }

  lemma HashHashes(s: State, ck: CallKey, gone: set<Id>)
    requires HashesAsked(s) && FundingOk(s.funding, s.pubs, s.issued, s.sends)
    requires ck in s.funding && s.funding[ck].pc.Sent?
    ensures HashesAsked(DoFundHash(s, ck, gone))
  {
    var u, n, s' := s.funding[ck].quote.bundle, s.funding[ck].pc.send, DoFundHash(s, ck, gone);
    assert HashAsked(n, s'.funding, s'.sends) by {
      forall other | other in s'.funding && s'.funding[other].pc.Sent? ensures s'.funding[other].pc.send != n {
        if s'.funding[other].pc.send == n {
          OneRequestABundle(s, ck, other);
        }
      }
    }
    forall id | id in s'.rows && id.BundleId? && s'.rows[id].hash.Some?
      ensures HashAsked(s'.rows[id].hash.value, s'.funding, s'.sends)
    {
      if id != BundleId(u) {
        assert HashAsked(s.rows[id].hash.value, s.funding, s.sends);
      }
    }
  }

  lemma ReviewHashes(s: State, e: Event, gone: set<Id>)
    requires HashesAsked(s) && Enabled(s, e, gone) && (e.FundBegin? || e.FundAbort?)
    ensures HashesAsked(Next(s, e, gone))
  {
    FewerKeepHashes(s, Next(s, e, gone));
  }

  lemma EndHashes(s: State, e: Event, gone: set<Id>)
    requires HashesAsked(s) && Enabled(s, e, gone) && (e.FundUncertain? || e.FundEnd?)
    ensures HashesAsked(Next(s, e, gone))
  {
    PatchObserved(s, s.funding[e.callKey].quote.bundle, PENDING_PATCH, gone);
    FewerKeepHashes(s, Next(s, e, gone));
  }

  lemma FundingHashes(s: State, e: Event, gone: set<Id>)
    requires HashesAsked(s) && RowsOk(s.rows, s.pubs, s.issued, s.resolved, s.sends)
    requires FundingOk(s.funding, s.pubs, s.issued, s.sends) && Enabled(s, e, gone) && OfFunding(e)
    ensures HashesAsked(Next(s, e, gone))
  {
    match e
    case FundBegin(_, _) => ReviewHashes(s, e, gone);
    case FundAbort(_) => ReviewHashes(s, e, gone);
    case FundCommit(ck, asked) => CommitHashes(s, ck, asked, gone);
    case FundReject(ck) => RejectHashes(s, ck, gone);
    case FundUncertain(ck) => EndHashes(s, e, gone);
    case FundHash(ck) => HashHashes(s, ck, gone);
    case FundEnd(ck, _) => EndHashes(s, e, gone);
  }

  // Mining or settling a send, other than by the wallet declining it.
  lemma SettledHashes(s: State, s': State)
    requires HashesAsked(s) && OldHashes(s.rows, s'.rows) && s'.funding == s.funding && |s'.sends| == |s.sends|
    requires forall n: nat | n < |s.sends| && s'.sends[n].settled == RejectedByWallet ::
        s.sends[n].settled == RejectedByWallet
    ensures HashesAsked(s')
  {
    forall id | id in s'.rows && id.BundleId? && s'.rows[id].hash.Some?
      ensures HashAsked(s'.rows[id].hash.value, s'.funding, s'.sends)
    {
      assert HashAsked(s.rows[id].hash.value, s.funding, s.sends);
    }
  }

  lemma VerifyHashes(s: State, t: TabId, u: Uuid, gone: set<Id>)
    requires HashesAsked(s) && CanVerify(s, u)
    ensures HashesAsked(DoVerify(s, t, u, gone))
  {
    OldHashesPatch(s.rows, BundleId(u), CONFIRMED_PATCH, gone);
    OldHashesPatch(s.rows, BundleId(u), REVERTED_PATCH, gone);
    SettledHashes(s, DoVerify(s, t, u, gone));
  }

  lemma PatchObserved(s: State, u: Uuid, p: Patch, gone: set<Id>)
    requires p.hash.Absent?
    ensures var s' := UpdateBundle(s, u, p, gone);
            OldHashes(s.rows, s'.rows) && s'.funding == s.funding && s'.sends == s.sends
  {
    OldHashesPatch(s.rows, BundleId(u), p, gone);
  }

  // Steps that only touch rows, and none of their hashes.
  lemma ObservedRows(s: State, e: Event, gone: set<Id>)
    requires Enabled(s, e, gone) && (e.PollStatus? || e.PollSuccess? || e.UserDismiss? || e.Foreign?)
    ensures var s' := Next(s, e, gone); OldHashes(s.rows, s'.rows) && s'.funding == s.funding && s'.sends == s.sends
  {
    match e
    case PollStatus(u, failed) =>
      PatchObserved(s, u, if failed then FAILED_PATCH else PENDING_PATCH, gone);
    case PollSuccess(u, _) => PatchObserved(s, u, SUCCESS_PATCH, gone);
    case UserDismiss(_) =>
    case Foreign(op) =>
      if !op.Dismiss? {
        OldHashesPatch(s.rows, op.id, op.patch, gone);
      }
  }

  lemma CrashHashes(s: State, t: TabId)
    requires HashesAsked(s)
    ensures HashesAsked(CrashTab(s, t))
  {
    FewerKeepHashes(s, CrashTab(s, t));
  }

  lemma ObservingHashes(s: State, e: Event, gone: set<Id>)
    requires HashesAsked(s) && Enabled(s, e, gone) && !OfAuthorizing(e) && !OfFunding(e)
    ensures HashesAsked(Next(s, e, gone))
  {
    if e.Mine? {
      SettledHashes(s, Next(s, e, gone));
    } else if e.VerifyPayment? {
      VerifyHashes(s, e.tab, e.uuid, gone);
    } else if e.Crash? {
      CrashHashes(s, e.tab);
    } else {
      ObservedRows(s, e, gone);
      FewerKeepHashes(s, Next(s, e, gone));
    }
  }

  lemma GoesKeepsHashes(s: State, step: Step, s': State)
    requires Inv(s) && HashesAsked(s) && Goes(s, step, s')
    ensures HashesAsked(s')
  {
    if OfAuthorizing(step.event) {
      AuthorizingHashes(s, step.event, step.gone);
    } else if OfFunding(step.event) {
      FundingHashes(s, step.event, step.gone);
    } else {
      ObservingHashes(s, step.event, step.gone);
    }
  }

  lemma RunKeepsHashes(ss: seq<State>, steps: seq<Step>, k: nat)
    requires Run(ss, steps) && k < |ss|
    ensures HashesAsked(ss[k])
  {
    forall s, step, s' | Inv(s) && HashesAsked(s) && Goes(s, step, s') ensures Inv(s') && HashesAsked(s') {
      GoesKeepsInv(s, step, s');
      GoesKeepsHashes(s, step, s');
    }
    RunKeepsInv(ss, steps, 0);
    Along(Goes, s => Inv(s) && HashesAsked(s), ss, steps, 0, k);
  }

  // ---------------------------------------------------------------- refunding after a revert

  // The row of the bundle remembers a payment that was mined and verified as reverted.
  predicate RemembersRevert(s: State, u: Uuid) {
    && BundleId(u) in s.rows && s.rows[BundleId(u)].hash.Some? && s.rows[BundleId(u)].hash.value < |s.sends|
    && s.sends[s.rows[BundleId(u)].hash.value] == Send(u, Some(false), VerifiedReverted)
  }

  /**
   The first funding of a bundle from a row with a hash is always a refund: the remembered
   payment was mined and verified as reverted. It is still safe itself (`FundingAtMostOnce`).
   */
  lemma HashMeansReverted(ss: seq<State>, steps: seq<Step>, k: nat)
    requires Run(ss, steps) && k < |steps| && Asks(steps[k].event)
    requires steps[k].event.callKey in ss[k].funding
    requires var u := Funded(ss[k], steps[k].event);
             u !in ss[k].tainted && BundleId(u) in ss[k].rows && !Untraced(ss[k].rows, u)
    ensures RemembersRevert(ss[k], Funded(ss[k], steps[k].event))
  {
    var s, q := AskedAbout(ss, steps, k);
    UnblockedPayable(s, q);
    PayableIsOver(s, q.bundle);
    RunKeepsHashes(ss, steps, k);
    RememberedIsReverted(s, q.bundle);
  }

  lemma RememberedIsReverted(s: State, u: Uuid)
    requires RowsOk(s.rows, s.pubs, s.issued, s.resolved, s.sends) && SendsOk(s.sends, s.issued)
    requires RowHashes(s.rows, s.funding, s.sends) && AllOver(s.sends, u)
    requires BundleId(u) in s.rows && s.rows[BundleId(u)].hash.Some?
    ensures RemembersRevert(s, u)
  {
    assert RowOk(BundleId(u), s.rows[BundleId(u)], s.pubs, s.issued, s.resolved, s.sends);
    var n := s.rows[BundleId(u)].hash.value;
    assert HashAsked(n, s.funding, s.sends);
    assert SendOk(s.sends[n], s.issued);
  }

  lemma CommitGoes(s: State, ck: CallKey)
    requires CanFundCommit(s, ck)
    ensures Goes(s, Step(FundCommit(ck, true), {}), DoFundCommit(s, ck, true, {}))
  {
  }

  lemma UncertainGoes(s: State, ck: CallKey)
    requires ck in s.funding && s.funding[ck].pc.Sent?
    ensures Goes(s, Step(FundUncertain(ck), {}), DoFundUncertain(s, ck, {}))
  {
  }

  lemma VerifyGoes(s: State, t: TabId, u: Uuid)
    requires CanVerify(s, u)
    ensures Goes(s, Step(VerifyPayment(t, u), {}), DoVerify(s, t, u, {}))
  {
  }

  lemma BeginGoes(s: State, t: TabId, u: Uuid)
    requires CanFundBegin(s, t, u)
    ensures Goes(s, Step(FundBegin(t, u), {}), DoFundBegin(s, t, u))
  {
  }

  lemma DismissGoes(s: State, id: Id)
    requires id in s.rows && s.rows[id].status == Success
    ensures Goes(s, Step(UserDismiss(id), {}), s.(rows := DismissMap(s.rows, id, {})))
  {
  }

  // Changing only the row of a bundle unblocks its own funding as soon as the row is payable.
  lemma StillUnblocked(rows: Rows, rows': Rows, q: Quote)
    requires Unblocked(rows, Some(q.bundle), q.callKey, q.keys)
    requires forall x | x in rows' && x != BundleId(q.bundle) :: x in rows && rows'[x] == rows[x]
    requires BundleId(q.bundle) in rows' ==>
        rows'[BundleId(q.bundle)].bundle == Some(q.bundle) && Payable(rows'[BundleId(q.bundle)])
    ensures Unblocked(rows', Some(q.bundle), q.callKey, q.keys)
  {
  }

  // The rows a commit and an uncertain answer leave behind, as far as the next steps look.
  lemma CommitThenUncertainRows(rows: Rows, q: Quote)
    requires BundleId(q.bundle) in rows
    ensures var rows' := UpdateMap(SubmittedRows(rows, q, {}), BundleId(q.bundle), PENDING_PATCH, {});
            var id := BundleId(q.bundle);
            && id in rows' && rows'[id].hash == rows[id].hash && rows'[id].bundle == Some(q.bundle)
            && forall x | x in rows' && x != id :: x in rows && rows'[x] == rows[x]
  {
  }

  lemma CommitThenUncertain(s: State, ck: CallKey)
    requires CanFundCommit(s, ck)
    ensures var q, s1 := s.funding[ck].quote, DoFundCommit(s, ck, true, {});
            && ck in s1.funding && s1.funding[ck].pc.Sent?
            && var s2 := DoFundUncertain(s1, ck, {});
               && s2.rows == UpdateMap(SubmittedRows(s.rows, q, {}), BundleId(q.bundle), PENDING_PATCH, {})
               && s2.sends == s.sends + [Send(q.bundle, None, Unsettled)]
               && s2.funded == s.funded && s2.quotes == s.quotes && s2.funding == s.funding - {ck}
  {
    var s1 := DoFundCommit(s, ck, true, {});
    assert s1.funding - {ck} == s.funding - {ck};
  }

  lemma ReverifyRows(rows: Rows, q: Quote)
    requires BundleId(q.bundle) in rows && rows[BundleId(q.bundle)].bundle == Some(q.bundle)
    ensures var rows' := UpdateMap(rows, BundleId(q.bundle), REVERTED_PATCH, {});
            var id := BundleId(q.bundle);
            && id in rows' && rows'[id].bundle == Some(q.bundle) && Payable(rows'[id])
            && forall x | x in rows' && x != id :: x in rows && rows'[x] == rows[x]
  {
  }

  // A tab is about to fund such a bundle with the quote it remembers.
  predicate AboutToRefund(s: State, ck: CallKey) {
    && CanFundCommit(s, ck) && s.funding[ck].quote.callKey == ck
    && var q := s.funding[ck].quote;
       && (s.funding[ck].tab, q.bundle) in s.quotes && s.quotes[(s.funding[ck].tab, q.bundle)] == q
       && RemembersRevert(s, q.bundle)
  }

  /**
   Refunding after a revert is not safe in the long run. Whenever a tab is about to do it, this
   continuation exists: the wallet is asked, its answer stays uncertain, the same tab verifies the old hash again
   and marks the row reverted, and the wallet is asked once more while the first of the two
   sends may still be mined. The recorded row merges over the old one, so the hash stays.
   */
  lemma RefundAfterRevertCanPayTwice(s: State, ck: CallKey) returns (ss: seq<State>)
    requires AboutToRefund(s, ck)
    ensures var t, u := s.funding[ck].tab, s.funding[ck].quote.bundle;
            && Path(Goes, ss,
                    [Step(FundCommit(ck, true), {}), Step(FundUncertain(ck), {}), Step(VerifyPayment(t, u), {}),
                     Step(FundBegin(t, u), {}), Step(FundCommit(ck, true), {})])
            && ss[0] == s
            && ss[5].sends == Settle(s.sends, s.rows[BundleId(u)].hash.value, VerifiedReverted)
                              + [Send(u, None, Unsettled), Send(u, None, Unsettled)]
  {
    var q, t := s.funding[ck].quote, s.funding[ck].tab;
    var u, id := q.bundle, BundleId(q.bundle);
    var n := s.rows[id].hash.value;
    var s1, s2 := RefundUncertain(s, ck, q, n);
    var s3, s4, s5 := RefundAgain(s2, t, q, n);
    ss := [s, s1, s2, s3, s4, s5];
    FiveSteps(Goes, s, Step(FundCommit(ck, true), {}), s1, Step(FundUncertain(ck), {}), s2,
              Step(VerifyPayment(t, u), {}), s3, Step(FundBegin(t, u), {}), s4, Step(FundCommit(ck, true), {}), s5);
  }

  // The refund is asked for and its answer stays uncertain; the row still has the old hash.
  lemma RefundUncertain(s: State, ck: CallKey, q: Quote, n: nat) returns (s1: State, s2: State)
    requires AboutToRefund(s, ck) && q == s.funding[ck].quote && s.rows[BundleId(q.bundle)].hash == Some(n)
    ensures Goes(s, Step(FundCommit(ck, true), {}), s1) && Goes(s1, Step(FundUncertain(ck), {}), s2)
    ensures s2.sends == s.sends + [Send(q.bundle, None, Unsettled)] && s2.funding == s.funding - {ck}
    ensures s2.quotes == s.quotes && CanVerify(s2, q.bundle) && s2.rows[BundleId(q.bundle)].hash == Some(n)
    ensures Unblocked(UpdateMap(s2.rows, BundleId(q.bundle), REVERTED_PATCH, {}), Some(q.bundle), q.callKey, q.keys)
  {
    CommitGoes(s, ck);
    CommitThenUncertain(s, ck);
    s1 := DoFundCommit(s, ck, true, {});
    UncertainGoes(s1, ck);
    s2 := DoFundUncertain(s1, ck, {});
    CommitThenUncertainRows(s.rows, q);
    ReverifyRows(s2.rows, q);
    StillUnblocked(s.rows, UpdateMap(s2.rows, BundleId(q.bundle), REVERTED_PATCH, {}), q);
  }

  lemma RefundAgain(s2: State, t: TabId, q: Quote, n: nat) returns (s3: State, s4: State, s5: State)
    requires CanVerify(s2, q.bundle) && s2.rows[BundleId(q.bundle)].hash == Some(n) && s2.sends[n].mined == Some(false)
    requires (t, q.bundle) in s2.quotes && s2.quotes[(t, q.bundle)] == q && q.callKey !in s2.funding
    requires Unblocked(UpdateMap(s2.rows, BundleId(q.bundle), REVERTED_PATCH, {}), Some(q.bundle), q.callKey, q.keys)
    ensures Goes(s2, Step(VerifyPayment(t, q.bundle), {}), s3)
    ensures Goes(s3, Step(FundBegin(t, q.bundle), {}), s4)
    ensures Goes(s4, Step(FundCommit(q.callKey, true), {}), s5)
    ensures s5.sends == Settle(s2.sends, n, VerifiedReverted) + [Send(q.bundle, None, Unsettled)]
  {
    VerifyGoes(s2, t, q.bundle);
    s3 := DoVerify(s2, t, q.bundle, {});
    assert CanFundBegin(s3, t, q.bundle);
    s4, s5 := FundFromQuote(s3, t, q.bundle);
  }

  // A bundle executed, its success row may be dismissed, and a tab which did not pay it still
  // remembers its quote.
  predicate StillRemembered(s: State, t: TabId, u: Uuid) {
    && u in s.resolved && (t, u) in s.quotes && (t, u) !in s.funded && s.quotes[(t, u)].bundle == u
    && s.quotes[(t, u)].callKey !in s.funding
    && BundleId(u) in s.rows && s.rows[BundleId(u)].status == Success && !Manual(s.rows[BundleId(u)])
    && forall id | id in s.rows && id != BundleId(u) ::
      !Blocks(s.rows[id], Some(u), s.quotes[(t, u)].callKey, s.quotes[(t, u)].keys)
  }

  /**
   A success row is terminal, so the user may dismiss it and the cap may drop it, and only the
   tab that paid keeps the bundle in `fundedBundles`: another tab then funds it again.
   */
  lemma ForgottenSuccessCanBePaidAgain(s: State, t: TabId, u: Uuid) returns (ss: seq<State>)
    requires ResolvedOk(s.resolved, s.sends) && StillRemembered(s, t, u)
    ensures Path(Goes, ss, [Step(UserDismiss(BundleId(u)), {}), Step(FundBegin(t, u), {}),
        Step(FundCommit(s.quotes[(t, u)].callKey, true), {})])
    ensures ss[0] == s && ss[3].sends == s.sends + [Send(u, None, Unsettled)]
    ensures s.sends[s.resolved[u]].settled == VerifiedPaid && s.sends[s.resolved[u]].bundle == u
  {
    DismissGoes(s, BundleId(u));
    var s1 := s.(rows := DismissMap(s.rows, BundleId(u), {}));
    assert forall id | id in s1.rows :: id != BundleId(u) && s1.rows[id] == s.rows[id];
    var s2, s3 := FundFromQuote(s1, t, u);
    ss := [s, s1, s2, s3];
    var steps := [Step(UserDismiss(BundleId(u)), {}), Step(FundBegin(t, u), {}),
      Step(FundCommit(s.quotes[(t, u)].callKey, true), {})];
    assert Goes(ss[0], steps[0], ss[1]) && Goes(ss[1], steps[1], ss[2]) && Goes(ss[2], steps[2], ss[3]);
  }

  lemma FundFromQuote(s: State, t: TabId, u: Uuid) returns (s1: State, s2: State)
    requires CanFundBegin(s, t, u) && s.quotes[(t, u)].bundle == u
    ensures Goes(s, Step(FundBegin(t, u), {}), s1)
    ensures Goes(s1, Step(FundCommit(s.quotes[(t, u)].callKey, true), {}), s2)
    ensures s2.sends == s.sends + [Send(u, None, Unsettled)]
  {
    BeginGoes(s, t, u);
    s1 := DoFundBegin(s, t, u);
    CommitGoes(s1, s.quotes[(t, u)].callKey);
    s2 := DoFundCommit(s1, s.quotes[(t, u)].callKey, true, {});
  }
}
