/** What the Relayr protocol guarantees over whole runs, and exactly where it stops. */
module RelayrRuns {
  import opened Prelude
  import opened Runs
  import opened Identities
  import opened ActivityStore
  import opened RelayrProtocol
  import opened RelayrSafety

  datatype Step = Step(event: Event, gone: set<Id>)

  // A browser that has not used Relayr yet; other activity may already be there.
  ghost predicate Started(s: State) {
    s == INIT.(rows := s.rows) && forall id | id in s.rows ::
      ForeignId(id) && RowOk(id, s.rows[id], [], map[], map[], [])
  }

  // A run: any steps of any tabs, in any order, with any crashes.
  ghost predicate Run(ss: seq<State>, steps: seq<Step>) {
    Path(Goes, ss, steps) && Started(ss[0])
  }

  predicate Goes(s: State, step: Step, s': State) {
    Enabled(s, step.event, step.gone) && s' == Next(s, step.event, step.gone)
  }

  lemma GoesKeepsInv(s: State, step: Step, s': State)
    requires Inv(s) && Goes(s, step, s')
    ensures Inv(s')
  {
    StepKeepsInv(s, step.event, step.gone);
  }

  lemma RunKeepsInv(ss: seq<State>, steps: seq<Step>, k: nat)
    requires Run(ss, steps) && k < |ss|
    ensures Inv(ss[k])
  {
    forall s, step, s' | Inv(s) && Goes(s, step, s') ensures Inv(s') {
      GoesKeepsInv(s, step, s');
    }
    Along(Goes, Inv, ss, steps, 0, k);
  }

  // The wallet is asked to broadcast the funding of a bundle in this step.
  predicate Asks(e: Event) { e.FundCommit? && e.asked }

  // A row from which `requireUnfunded` lets a bundle be funded.
  predicate Payable(r: Row) { r.pay == Some(Unfunded) || r.pay == Some(Reverted) }

  lemma UnblockedPayable(s: State, q: Quote)
    requires Inv(s) && BundleId(q.bundle) in s.rows && Unblocked(s.rows, Some(q.bundle), q.callKey, q.keys)
    ensures Payable(s.rows[BundleId(q.bundle)])
  {
    assert RowOk(BundleId(q.bundle), s.rows[BundleId(q.bundle)], s.pubs, s.issued, s.resolved, s.sends);
    assert !Blocks(s.rows[BundleId(q.bundle)], Some(q.bundle), q.callKey, q.keys);
  }

  // A bundle that Relayr named and whose row is gone was verified as executed before.
  lemma ForgottenIsResolved(s: State, u: Uuid)
    requires Inv(s) && u in s.issued && BundleId(u) !in s.rows
    ensures u in s.resolved
  {
    var p := s.pubs[s.issued[u]];
    assert p in s.pubs && Holder(p) == BundleId(u);
  }

  /**
   Every send of every run starts from a row that says the bundle is unfunded or that its
   payment was verified as reverted, or from no row at all once the bundle was verified as
   executed; and the `submitted` row is persisted by then.
   */
  lemma EverySendStartsPayable(ss: seq<State>, steps: seq<Step>, k: nat)
    requires Run(ss, steps) && k < |steps| && Asks(steps[k].event)
    ensures var ck := steps[k].event.callKey;
            && ck in ss[k].funding
            && var u := ss[k].funding[ck].quote.bundle;
               && |ss[k + 1].sends| == |ss[k].sends| + 1 && ss[k + 1].sends[|ss[k].sends|].bundle == u
               && (if BundleId(u) in ss[k].rows then Payable(ss[k].rows[BundleId(u)]) else u in ss[k].resolved)
               && BundleId(u) in ss[k + 1].rows
               && ss[k + 1].rows[BundleId(u)].status == Submitted
               && ss[k + 1].rows[BundleId(u)].pay == Some(PaySubmitted)
  {
    RunKeepsInv(ss, steps, k);
    assert Goes(ss[k], steps[k], ss[k + 1]);
    var q := ss[k].funding[steps[k].event.callKey].quote;
    if BundleId(q.bundle) in ss[k].rows {
      UnblockedPayable(ss[k], q);
    } else {
      ForgottenIsResolved(ss[k], q.bundle);
    }
  }

  // Every send of the bundle was declined with error 4001 or verified as reverted.
  predicate AllOver(sends: seq<Send>, u: Uuid) {
    forall n: nat | n < |sends| && sends[n].bundle == u :: !Live(sends[n])
  }

  predicate AtMostOne(sends: seq<Send>, u: Uuid) {
    forall i: nat, j: nat | i < j < |sends| && sends[i].bundle == u && sends[j].bundle == u ::
      !(Live(sends[i]) && Live(sends[j]))
  }

  // A payable row is not the row of a send that may still pay.
  lemma PayableIsOver(s: State, u: Uuid)
    requires LiveRows(s.rows, s.sends, s.tainted) && u !in s.tainted
    requires BundleId(u) in s.rows && Payable(s.rows[BundleId(u)])
    ensures AllOver(s.sends, u)
  {
  }

  lemma ResolvedIsNotOver(s: State, u: Uuid)
    requires ResolvedOk(s.resolved, s.sends) && u in s.resolved
    ensures !AllOver(s.sends, u)
  {
    assert s.sends[s.resolved[u]].bundle == u && Live(s.sends[s.resolved[u]]);
  }

  lemma AskedAbout(ss: seq<State>, steps: seq<Step>, k: nat) returns (s: State, q: Quote)
    requires Run(ss, steps) && k < |steps| && Asks(steps[k].event)
    ensures s == ss[k] && Inv(s) && CanFundCommit(s, steps[k].event.callKey)
    ensures q == s.funding[steps[k].event.callKey].quote
    ensures ss[k + 1].sends == s.sends + [Send(q.bundle, None, Unsettled)]
    ensures ss[k + 1].tainted == if Untraced(s.rows, q.bundle) then s.tainted else s.tainted + {q.bundle}
  {
    RunKeepsInv(ss, steps, k);
    assert Goes(ss[k], steps[k], ss[k + 1]);
    s := ss[k];
    q := s.funding[steps[k].event.callKey].quote;
  }

  // The bundle the wallet is asked to fund in a step.
  function Funded(s: State, e: Event): Uuid
    requires e.FundCommit? && e.callKey in s.funding
  {
    s.funding[e.callKey].quote.bundle
  }

  /**
   Funding is at most once, exactly. Until a bundle was funded from a row with a hash or from no
   row, whenever the wallet is asked to fund it: every earlier send was declined with error 4001
   or verified as reverted if and only if the bundle still has its row.
   */
  lemma FundingAtMostOnce(ss: seq<State>, steps: seq<Step>, k: nat)
    requires Run(ss, steps) && k < |steps| && Asks(steps[k].event)
    requires steps[k].event.callKey in ss[k].funding && Funded(ss[k], steps[k].event) !in ss[k].tainted
    ensures var u := Funded(ss[k], steps[k].event); AllOver(ss[k].sends, u) <==> BundleId(u) in ss[k].rows
  {
    var s, q := AskedAbout(ss, steps, k);
    if BundleId(q.bundle) in s.rows {
      UnblockedPayable(s, q);
      PayableIsOver(s, q.bundle);
    } else {
      ForgottenIsResolved(s, q.bundle);
      ResolvedIsNotOver(s, q.bundle);
    }
  }

  /** And then at most one send of it may still pay, if and only if the bundle still had its row. */
  lemma OneLiveSend(ss: seq<State>, steps: seq<Step>, k: nat)
    requires Run(ss, steps) && k < |steps| && Asks(steps[k].event)
    requires steps[k].event.callKey in ss[k].funding && Funded(ss[k], steps[k].event) !in ss[k].tainted
    ensures var u := Funded(ss[k], steps[k].event); AtMostOne(ss[k + 1].sends, u) <==> BundleId(u) in ss[k].rows
  {
    FundingAtMostOnce(ss, steps, k);
    var s, q := AskedAbout(ss, steps, k);
    OneMoreSend(s.sends, q.bundle);
    UntilTainted(s, q.bundle);
  }

  lemma OneMoreSend(sends: seq<Send>, u: Uuid)
    requires AtMostOne(sends, u)
    ensures AtMostOne(sends + [Send(u, None, Unsettled)], u) <==> AllOver(sends, u)
  {
    var next := sends + [Send(u, None, Unsettled)];
    if !AllOver(sends, u) {
      var n: nat :| n < |sends| && sends[n].bundle == u && Live(sends[n]);
      assert next[n] == sends[n] && next[|sends|].bundle == u && Live(next[|sends|]);
    }
  }

  lemma UntilTainted(s: State, u: Uuid)
    requires AtMostOneLive(s.sends, s.tainted)
    ensures u !in s.tainted ==> AtMostOne(s.sends, u)
  {
  }

  /** In every state of every run, a bundle with two sends that may still pay was funded so. */
  lemma TwoLiveMeansTainted(ss: seq<State>, steps: seq<Step>, k: nat, u: Uuid)
    requires Run(ss, steps) && k < |ss| && !AtMostOne(ss[k].sends, u)
    ensures exists j: nat | j < k ::
              && steps[j].event.FundCommit? && steps[j].event.callKey in ss[j].funding
              && Funded(ss[j], steps[j].event) == u && !Untraced(ss[j].rows, u)
  {
    RunKeepsInv(ss, steps, k);
    UntilTainted(ss[k], u);
    TaintHasCause(ss, steps, k, u);
  }

  lemma {:induction false} TaintHasCause(ss: seq<State>, steps: seq<Step>, k: nat, u: Uuid)
    requires Run(ss, steps) && k < |ss| && u in ss[k].tainted
    ensures exists j: nat | j < k ::
              && steps[j].event.FundCommit? && steps[j].event.callKey in ss[j].funding
              && Funded(ss[j], steps[j].event) == u && !Untraced(ss[j].rows, u)
  {
    if k > 0 {
      var e, gone := steps[k - 1].event, steps[k - 1].gone;
      assert Goes(ss[k - 1], steps[k - 1], ss[k]);
      if u in ss[k - 1].tainted {
        TaintHasCause(ss, steps, k - 1, u);
      } else {
        TaintStep(ss[k - 1], e, gone, u);
      }
    }
  }

  lemma TaintStep(s: State, e: Event, gone: set<Id>, u: Uuid)
    requires Enabled(s, e, gone) && u !in s.tainted && u in Next(s, e, gone).tainted
    ensures e.FundCommit? && e.callKey in s.funding && Funded(s, e) == u && !Untraced(s.rows, u)
  {
    if OfAuthorizing(e) {
      AuthorizingTaints(s, e, gone);
    } else if OfFunding(e) {
      FundingTaints(s, e, gone);
    } else {
      ObservingTaints(s, e, gone);
    }
  }

  predicate OfAuthorizing(e: Event) { e.Reuse? || e.AuthBegin? || e.AuthPublish? || e.AuthReceive? || e.AuthAbort? }

  predicate OfFunding(e: Event) {
    || e.FundBegin? || e.FundAbort? || e.FundCommit?
    || e.FundReject? || e.FundUncertain? || e.FundHash? || e.FundEnd?
  }

  lemma AuthorizingTaints(s: State, e: Event, gone: set<Id>)
    requires Enabled(s, e, gone) && OfAuthorizing(e)
    ensures Next(s, e, gone).tainted == s.tainted
  {
  }

  lemma FundingTaints(s: State, e: Event, gone: set<Id>)
    requires Enabled(s, e, gone) && OfFunding(e)
    ensures Next(s, e, gone).tainted
         == if e.FundCommit? && !Untraced(s.rows, Funded(s, e)) then s.tainted + {Funded(s, e)} else s.tainted
  {
    if e.FundCommit? {
      CommitTaints(s, e.callKey, e.asked, gone);
    } else if e.FundReject? || e.FundUncertain? || e.FundHash? {
      AnswerTaints(s, e, gone);
    }
  }

  lemma CommitTaints(s: State, ck: CallKey, asked: bool, gone: set<Id>)
    requires CanFundCommit(s, ck)
    ensures var u := s.funding[ck].quote.bundle;
            DoFundCommit(s, ck, asked, gone).tainted == if Untraced(s.rows, u) then s.tainted else s.tainted + {u}
  {
  }

  lemma AnswerTaints(s: State, e: Event, gone: set<Id>)
    requires Enabled(s, e, gone) && (e.FundReject? || e.FundUncertain? || e.FundHash?)
    ensures Next(s, e, gone).tainted == s.tainted
  {
  }

  lemma ObservingTaints(s: State, e: Event, gone: set<Id>)
    requires Enabled(s, e, gone) && !OfAuthorizing(e) && !OfFunding(e)
    ensures Next(s, e, gone).tainted == s.tainted
  {
    if e.VerifyPayment? {
      VerdictTaints(s, e.tab, e.uuid, gone);
    }
  }

  lemma VerdictTaints(s: State, t: TabId, u: Uuid, gone: set<Id>)
    requires CanVerify(s, u)
    ensures DoVerify(s, t, u, gone).tainted == s.tainted
  {
    PatchTaints(s, u, CONFIRMED_PATCH, gone);
    PatchTaints(s, u, REVERTED_PATCH, gone);
  }

  lemma PatchTaints(s: State, u: Uuid, p: Patch, gone: set<Id>)
    ensures UpdateBundle(s, u, p, gone).tainted == s.tainted
  {
  }

  // ---------------------------------------------------------------- the hash a row remembers

  // The hash a row of this bundle has after a step, when it had one before and is still there.
  predicate SameHash(rows: Rows, rows': Rows, u: Uuid) {
    BundleId(u) in rows && rows[BundleId(u)].hash.Some? && BundleId(u) in rows' ==>
      rows'[BundleId(u)].hash == rows[BundleId(u)].hash
  }

  lemma PatchKeepsHash(rows: Rows, id: Id, p: Patch, gone: set<Id>, u: Uuid)
    requires p.hash.Absent? || id != BundleId(u)
    ensures SameHash(rows, UpdateMap(rows, id, p, gone), u)
    ensures Complete(p) ==> SameHash(rows, RecordMap(rows, id, p, gone), u)
  {
  }

  // The wallet returned a hash for a bundle whose row holds another one.
  predicate Overwrites(s: State, e: Event, u: Uuid) {
    && e.FundHash? && e.callKey in s.funding && s.funding[e.callKey].pc.Sent? && s.funding[e.callKey].quote.bundle == u
    && BundleId(u) in s.rows && s.rows[BundleId(u)].hash.Some?
    && s.rows[BundleId(u)].hash != Some(s.funding[e.callKey].pc.send)
  }

  lemma NewHash(s: State, ck: CallKey, gone: set<Id>, u: Uuid)
    requires ck in s.funding && s.funding[ck].pc.Sent?
    ensures SameHash(s.rows, DoFundHash(s, ck, gone).rows, u) <==> !Overwrites(s, FundHash(ck), u)
  {
    var v := s.funding[ck].quote.bundle;
    if v != u {
      PatchKeepsHash(s.rows, BundleId(v), HashPatch(s.funding[ck].pc.send), gone, u);
    }
  }

  lemma VerdictKeepsHash(s: State, t: TabId, v: Uuid, gone: set<Id>, u: Uuid)
    requires CanVerify(s, v)
    ensures SameHash(s.rows, DoVerify(s, t, v, gone).rows, u)
  {
    PatchKeepsHash(s.rows, BundleId(v), CONFIRMED_PATCH, gone, u);
    PatchKeepsHash(s.rows, BundleId(v), REVERTED_PATCH, gone, u);
  }

  lemma FundingKeepsHash(s: State, e: Event, gone: set<Id>, u: Uuid)
    requires Enabled(s, e, gone) && OfFunding(e)
    ensures SameHash(s.rows, Next(s, e, gone).rows, u) <==> !Overwrites(s, e, u)
  {
    match e
    case FundBegin(_, _) =>
    case FundAbort(_) =>
    case FundCommit(ck, _) =>
      PatchKeepsHash(s.rows, FundTarget(s, ck), SubmittedPatch(s.funding[ck].quote), gone, u);
    case FundReject(ck) => PatchKeepsHash(s.rows, FundTarget(s, ck), DECLINED_PATCH, gone, u);
    case FundUncertain(ck) => PatchKeepsHash(s.rows, FundTarget(s, ck), PENDING_PATCH, gone, u);
    case FundHash(ck) => NewHash(s, ck, gone, u);
    case FundEnd(ck, _) => PatchKeepsHash(s.rows, FundTarget(s, ck), PENDING_PATCH, gone, u);
  }

  lemma AuthorizingKeepsHash(s: State, e: Event, gone: set<Id>, u: Uuid)
    requires Enabled(s, e, gone) && OfAuthorizing(e)
    ensures SameHash(s.rows, Next(s, e, gone).rows, u)
  {
    match e
    case Reuse(_, job, v) =>
      PatchKeepsHash(s.rows, BundleId(v), MoreKeys(s.rows[BundleId(v)], job), gone, u);
    case AuthBegin(_, _) =>
    case AuthPublish(a, _) =>
      PatchKeepsHash(s.rows, PublicationId(s.authorizing[a].job.callKey), PublicationPatch(s.authorizing[a].job), gone,
        u);
    case AuthReceive(a, v, _) => PatchKeepsHash(s.rows, BundleId(v), BundlePatch(s.authorizing[a].job, v), gone, u);
    case AuthAbort(_) =>
  }

  lemma ObservingKeepsHash(s: State, e: Event, gone: set<Id>, u: Uuid)
    requires Enabled(s, e, gone) && !OfAuthorizing(e) && !OfFunding(e)
    ensures SameHash(s.rows, Next(s, e, gone).rows, u)
  {
    match e
    case Mine(_, _) =>
    case VerifyPayment(t, v) => VerdictKeepsHash(s, t, v, gone, u);
    case PollStatus(v, failed) =>
      PatchKeepsHash(s.rows, BundleId(v), if failed then FAILED_PATCH else PENDING_PATCH, gone, u);
    case PollSuccess(v, _) => PatchKeepsHash(s.rows, BundleId(v), SUCCESS_PATCH, gone, u);
    case UserDismiss(_) =>
    case Foreign(op) => if !op.Dismiss? { PatchKeepsHash(s.rows, op.id, op.patch, gone, u); }
    case Crash(_) =>
  }

  /**
   When the hash a row remembers changes, exactly: the wallet returned another hash for its
   bundle, and then the bundle was funded from a row with a hash before. So a tab that read the
   hash, waited for the chain and only then writes the verdict, writes it about the hash the row
   has at that moment, unless the bundle was funded so; reading and writing may be one step.
   */
  lemma HashNeverChanges(s: State, e: Event, gone: set<Id>, u: Uuid)
    requires Inv(s) && Enabled(s, e, gone)
    ensures SameHash(s.rows, Next(s, e, gone).rows, u) <==> !Overwrites(s, e, u)
    ensures Overwrites(s, e, u) ==> u in s.tainted
  {
    if OfFunding(e) {
      FundingKeepsHash(s, e, gone, u);
    } else if OfAuthorizing(e) {
      AuthorizingKeepsHash(s, e, gone, u);
    } else {
      ObservingKeepsHash(s, e, gone, u);
    }
  }

  // ---------------------------------------------------------------- authorizations

  // What one request reserves for its account: its call, its recovery scope, and, unless it is
  // raw, the signer's nonce at the forwarder of its chain.
  predicate KeyFor(account: Account, r: Request, key: Key) {
    || key == CallsKey(RelayrCalls(account, multiset{r.call}))
    || (r.scope.Some? && key == ScopeKey(account, r.scope.value))
    || (!r.raw && key == NonceKey(account, r.call.chain, r.forwarder))
  }

  /** The keys of a set of requests are exactly what its requests reserve. */
  lemma {:induction false} KeysExactly(account: Account, requests: seq<Request>, key: Key)
    ensures key in KeysOf(account, requests) <==> exists r | r in requests :: KeyFor(account, r, key)
  {
    if requests != [] {
      var first := requests[0];
      KeysExactly(account, requests[1..], key);
      assert Calls([first]) == multiset{first.call};
      assert key in KeysOfRequest(account, first) <==> KeyFor(account, first, key);
      assert forall r :: r in requests <==> r == first || r in requests[1..];
    }
  }

  // Two requests that reserve nothing in common.
  predicate Apart(r: Request, q: Request) {
    && r.call != q.call && (r.scope.Some? ==> r.scope != q.scope)
    && (!r.raw && !q.raw ==> r.call.chain != q.call.chain || r.forwarder != q.forwarder)
  }

  lemma {:induction false} DisjointApart(account: Account, rs: seq<Request>, qs: seq<Request>, r: Request, q: Request)
    requires r in rs && q in qs && KeysOf(account, rs) !! KeysOf(account, qs)
    ensures Apart(r, q)
  {
    var call := CallsKey(RelayrCalls(account, multiset{r.call}));
    KeysExactly(account, rs, call);
    KeysExactly(account, qs, call);
    if r.scope.Some? {
      KeysExactly(account, rs, ScopeKey(account, r.scope.value));
      KeysExactly(account, qs, ScopeKey(account, r.scope.value));
    }
    if !r.raw {
      KeysExactly(account, rs, NonceKey(account, r.call.chain, r.forwarder));
      KeysExactly(account, qs, NonceKey(account, r.call.chain, r.forwarder));
    }
  }

  /**
   Authorizations are exclusive. In every state of every run, two publications whose
   destination calls are not both verified as executed share no call, no recovery scope and
   no signer nonce of a forwarder.
   */
  lemma AuthorizationExclusive(ss: seq<State>, steps: seq<Step>, k: nat, i: nat, j: nat)
    requires Run(ss, steps) && k < |ss|
    requires i < |ss[k].pubs| && j < |ss[k].pubs| && i != j
    requires Open(ss[k].pubs[i], ss[k].resolved) && Open(ss[k].pubs[j], ss[k].resolved)
    ensures ss[k].pubs[i].job.callKey != ss[k].pubs[j].job.callKey
    ensures ss[k].pubs[i].job.keys !! ss[k].pubs[j].job.keys
    ensures var a, b := ss[k].pubs[i].job, ss[k].pubs[j].job;
            a.account == b.account ==> forall r, q | r in a.requests && q in b.requests :: Apart(r, q)
  {
    var s := ss[k];
    RunKeepsInv(ss, steps, k);
    assert i < j ==> Disjoint(s.pubs[i], s.pubs[j]);
    assert j < i ==> Disjoint(s.pubs[j], s.pubs[i]);
    var a, b := s.pubs[i].job, s.pubs[j].job;
    assert JobOk(a) && JobOk(b) by { assert s.pubs[i] in s.pubs && s.pubs[j] in s.pubs; }
    forall r, q | a.account == b.account && r in a.requests && q in b.requests ensures Apart(r, q) {
      DisjointApart(a.account, a.requests, b.requests, r, q);
    }
  }

  /**
   Every open publication has a persisted row that blocks its keys: no authorization, no
   recovery scope check and no direct route that asks for one of them passes.
   */
  lemma OpenPublicationBlocks(ss: seq<State>, steps: seq<Step>, k: nat, i: nat, job: Job)
    requires Run(ss, steps) && k < |ss| && i < |ss[k].pubs| && Open(ss[k].pubs[i], ss[k].resolved)
    requires job.callKey == ss[k].pubs[i].job.callKey || job.keys * ss[k].pubs[i].job.keys != {}
    ensures !Unblocked(ss[k].rows, None, job.callKey, job.keys)
    ensures forall a, scope | ScopeKey(a, scope) in ss[k].pubs[i].job.keys :: !ScopeAvailable(ss[k].rows, a, scope)
  {
    var s := ss[k];
    RunKeepsInv(ss, steps, k);
    var p := s.pubs[i];
    var r := s.rows[Holder(p)];
    assert p in s.pubs && Reserves(r, p);
    if job.callKey != p.job.callKey {
      var key :| key in job.keys * p.job.keys;
      assert key in r.keys * job.keys;
    }
    assert Blocks(r, None, job.callKey, job.keys);
    forall a, scope | ScopeKey(a, scope) in p.job.keys ensures !ScopeAvailable(s.rows, a, scope) {
      assert HoldsScope(r, a, scope);
    }
  }
}
