/**
 The keys of a request stay reserved: taking up a saved quote adds the keys of the request to the row
 of its bundle, and no step of any tab takes keys off the row of a bundle that was not executed. So
 until then the guard of the direct route and of the discard path refuses the scopes of every quote.
 */
module RelayrKeys {
  import opened Runs
  import opened Identities
  import opened ActivityStore
  import opened RelayrProtocol
  import opened RelayrSafety
  import opened RelayrRuns

  // The row of the bundle holds these keys, unless the bundle was executed.
  ghost predicate Holds(rows: Rows, resolved: map<Uuid, nat>, u: Uuid, keys: set<Key>) {
    u in resolved || (BundleId(u) in rows && rows[BundleId(u)].keys >= keys)
  }

  // The row of an id is still there and lost no key.
  ghost predicate NoKeyLost(rows: Rows, rows': Rows, id: Id) {
    id in rows && id in rows' && rows'[id].keys >= rows[id].keys
  }

  // The row of a published bundle that was not executed is there and unresolved.
  lemma UnresolvedRow(s: State, u: Uuid)
    requires Inv(s) && u in s.issued && u !in s.resolved
    ensures BundleId(u) in s.rows && InFlight(s.rows[BundleId(u)]) && s.rows[BundleId(u)].status != Success
    ensures s.rows[BundleId(u)].status == Failed ==> Manual(s.rows[BundleId(u)])
  {
    var p := s.pubs[s.issued[u]];
    assert p in s.pubs && Open(p, s.resolved) && Holder(p) == BundleId(u);
    assert Reserves(s.rows[BundleId(u)], p);
    assert RowOk(BundleId(u), s.rows[BundleId(u)], s.pubs, s.issued, s.resolved, s.sends);
  }

  // ---------------------------------------------------------------- the row operations

  lemma UpdateKeepsKeys(rows: Rows, v: Uuid, p: Patch, gone: set<Id>, id: Id)
    requires id in rows && id !in gone
    requires p.keys.Absent? || (BundleId(v) in rows && p.keys.value >= rows[BundleId(v)].keys)
    ensures NoKeyLost(rows, UpdateMap(rows, BundleId(v), p, gone), id)
  {
  }

  lemma RecordKeepsKeys(rows: Rows, x: Id, p: Patch, gone: set<Id>, id: Id)
    requires Complete(p) && id in rows && id !in gone && (x == id ==> p.keys.Absent?)
    ensures NoKeyLost(rows, RecordMap(rows, x, p, gone), id)
  {
  }

  lemma DismissKeepsKeys(rows: Rows, x: Id, gone: set<Id>, id: Id)
    requires id in rows && id !in gone && (x == id ==> Manual(rows[id]))
    ensures NoKeyLost(rows, DismissMap(rows, x, gone), id)
  {
  }

  // ---------------------------------------------------------------- the steps

  lemma AuthKeepsKeys(s: State, e: Event, gone: set<Id>, u: Uuid)
    requires Enabled(s, e, gone) && BundleId(u) in s.rows && BundleId(u) !in gone && u in s.issued
    requires e.Reuse? || e.AuthBegin? || e.AuthPublish? || e.AuthReceive? || e.AuthAbort?
    ensures NoKeyLost(s.rows, Next(s, e, gone).rows, BundleId(u))
  {
    match e
    case Reuse(t, job, v) => UpdateKeepsKeys(s.rows, v, MoreKeys(s.rows[BundleId(v)], job), gone, BundleId(u));
    case AuthPublish(a, _) =>
      var job := s.authorizing[a].job;
      RecordKeepsKeys(s.rows, PublicationId(job.callKey), PublicationPatch(job), gone, BundleId(u));
    case AuthReceive(a, v, _) =>
      var job := s.authorizing[a].job;
      RecordKeepsKeys(s.rows, BundleId(v), BundlePatch(job, v), gone, BundleId(u));
      DismissKeepsKeys(BundleRows(s.rows, job, v, gone), PublicationId(job.callKey), {}, BundleId(u));
    case _ =>
  }

  lemma FundKeepsKeys(s: State, e: Event, gone: set<Id>, u: Uuid)
    requires Enabled(s, e, gone) && BundleId(u) in s.rows && BundleId(u) !in gone
    requires e.FundBegin? || e.FundAbort? || e.FundCommit? || e.FundReject? || e.FundUncertain? || e.FundHash?
        || e.FundEnd?
    ensures NoKeyLost(s.rows, Next(s, e, gone).rows, BundleId(u))
  {
    match e
    case FundCommit(ck, _) =>
      var q := s.funding[ck].quote;
      RecordKeepsKeys(s.rows, BundleId(q.bundle), SubmittedPatch(q), gone, BundleId(u));
    case FundReject(ck) => UpdateKeepsKeys(s.rows, s.funding[ck].quote.bundle, DECLINED_PATCH, gone, BundleId(u));
    case FundUncertain(ck) => UpdateKeepsKeys(s.rows, s.funding[ck].quote.bundle, PENDING_PATCH, gone, BundleId(u));
    case FundHash(ck) =>
      UpdateKeepsKeys(s.rows, s.funding[ck].quote.bundle, HashPatch(s.funding[ck].pc.send), gone, BundleId(u));
    case FundEnd(ck, _) => UpdateKeepsKeys(s.rows, s.funding[ck].quote.bundle, PENDING_PATCH, gone, BundleId(u));
    case _ =>
  }

  lemma VerifyKeepsKeys(s: State, t: TabId, v: Uuid, gone: set<Id>, u: Uuid)
    requires CanVerify(s, v) && BundleId(u) in s.rows && BundleId(u) !in gone
    ensures NoKeyLost(s.rows, DoVerify(s, t, v, gone).rows, BundleId(u))
  {
    UpdateKeepsKeys(s.rows, v, CONFIRMED_PATCH, gone, BundleId(u));
    UpdateKeepsKeys(s.rows, v, REVERTED_PATCH, gone, BundleId(u));
  }

  lemma ChainKeepsKeys(s: State, e: Event, gone: set<Id>, u: Uuid)
    requires Enabled(s, e, gone) && BundleId(u) in s.rows && BundleId(u) !in gone
    requires e.Mine? || e.VerifyPayment? || e.PollStatus? || e.PollSuccess?
    ensures NoKeyLost(s.rows, Next(s, e, gone).rows, BundleId(u))
  {
    match e
    case VerifyPayment(t, v) => VerifyKeepsKeys(s, t, v, gone, u);
    case PollStatus(v, failed) =>
      UpdateKeepsKeys(s.rows, v, if failed then FAILED_PATCH else PENDING_PATCH, gone, BundleId(u));
    case PollSuccess(v, _) => UpdateKeepsKeys(s.rows, v, SUCCESS_PATCH, gone, BundleId(u));
    case _ =>
  }

  lemma OtherKeepsKeys(s: State, e: Event, gone: set<Id>, u: Uuid)
    requires Enabled(s, e, gone) && BundleId(u) in s.rows && BundleId(u) !in gone
    requires s.rows[BundleId(u)].status != Success
    requires s.rows[BundleId(u)].status == Failed ==> Manual(s.rows[BundleId(u)])
    requires e.UserDismiss? || e.Foreign? || e.Crash?
    ensures NoKeyLost(s.rows, Next(s, e, gone).rows, BundleId(u))
  {
    match e
    case UserDismiss(id) => DismissKeepsKeys(s.rows, id, gone, BundleId(u));
    case Foreign(op) =>
    case Crash(_) =>
  }

  /** No step of any tab takes a key off the row of a published bundle that was not executed. */
  lemma StepKeepsKeys(s: State, e: Event, gone: set<Id>, u: Uuid)
    requires Inv(s) && Enabled(s, e, gone) && u in s.issued && u !in s.resolved
    ensures NoKeyLost(s.rows, Next(s, e, gone).rows, BundleId(u))
  {
    UnresolvedRow(s, u);
    if e.Reuse? || e.AuthBegin? || e.AuthPublish? || e.AuthReceive? || e.AuthAbort? {
      AuthKeepsKeys(s, e, gone, u);
    } else if e.Mine? || e.VerifyPayment? || e.PollStatus? || e.PollSuccess? {
      ChainKeepsKeys(s, e, gone, u);
    } else if e.UserDismiss? || e.Foreign? || e.Crash? {
      OtherKeepsKeys(s, e, gone, u);
    } else {
      FundKeepsKeys(s, e, gone, u);
    }
  }

  // ---------------------------------------------------------------- the quotes

  // What a tab remembers or is paying for is held by the row of its bundle.
  ghost predicate QuotesHeld(s: State) {
    && (forall k | k in s.quotes :: Holds(s.rows, s.resolved, s.quotes[k].bundle, s.quotes[k].keys))
    && forall ck | ck in s.funding ::
         Holds(s.rows, s.resolved, s.funding[ck].quote.bundle, s.funding[ck].quote.keys)
  }

  /** A quote that is taken up reserves the keys of the request that takes it up. */
  lemma ReuseReserves(s: State, t: TabId, job: Job, u: Uuid, gone: set<Id>)
    requires CanReuse(s, job, u)
    ensures var before, after := s.rows[BundleId(u)], DoReuse(s, t, job, u, gone).rows;
            BundleId(u) in after && after[BundleId(u)] == before.(keys := before.keys + job.keys)
    ensures var q := Quote(u, job.account, job.callKey, job.keys);
            DoReuse(s, t, job, u, gone).quotes == s.quotes[(t, u) := q]
  {
  }

  lemma ReceiveReserves(s: State, a: Account, u: Uuid, tidied: bool, gone: set<Id>)
    requires CanAuthReceive(s, a, u) && BundleId(u) !in s.rows
    ensures var after := DoAuthReceive(s, a, u, tidied, gone).rows;
            BundleId(u) in after && after[BundleId(u)].keys == s.authorizing[a].job.keys
  {
  }

  // Nothing new is remembered or paid for, and nothing that was executed is forgotten.
  ghost predicate Inherits(s: State, s': State) {
    && (forall k | k in s'.quotes :: k in s.quotes && s'.quotes[k] == s.quotes[k])
    && (forall ck | ck in s'.funding :: ck in s.funding && s'.funding[ck].quote == s.funding[ck].quote)
    && forall u | u in s.resolved :: u in s'.resolved
  }

  lemma PublishInherits(s: State, a: Account, posted: bool, gone: set<Id>)
    requires CanAuthPublish(s, a)
    ensures Inherits(s, DoAuthPublish(s, a, posted, gone))
  {
  }

  lemma CommitInherits(s: State, ck: CallKey, asked: bool, gone: set<Id>)
    requires CanFundCommit(s, ck)
    ensures Inherits(s, DoFundCommit(s, ck, asked, gone))
  {
  }

  lemma VerifyInherits(s: State, t: TabId, u: Uuid, gone: set<Id>)
    requires CanVerify(s, u)
    ensures Inherits(s, DoVerify(s, t, u, gone))
  {
  }

  lemma FundInherits(s: State, e: Event, gone: set<Id>)
    requires Enabled(s, e, gone)
    requires e.FundAbort? || e.FundCommit? || e.FundReject? || e.FundUncertain? || e.FundHash? || e.FundEnd?
    ensures Inherits(s, Next(s, e, gone))
  {
    if e.FundCommit? {
      CommitInherits(s, e.callKey, e.asked, gone);
    }
  }

  lemma OtherInherits(s: State, e: Event, gone: set<Id>)
    requires Enabled(s, e, gone)
    requires e.AuthBegin? || e.AuthPublish? || e.AuthAbort? || e.Mine? || e.VerifyPayment? || e.PollStatus?
        || e.PollSuccess? || e.UserDismiss? || e.Foreign? || e.Crash?
    ensures Inherits(s, Next(s, e, gone))
  {
    if e.AuthPublish? {
      PublishInherits(s, e.account, e.posted, gone);
    } else if e.VerifyPayment? {
      VerifyInherits(s, e.tab, e.uuid, gone);
    }
  }

  lemma HeldByInheritance(s: State, e: Event, gone: set<Id>)
    requires Inv(s) && QuotesHeld(s) && Enabled(s, e, gone) && Inherits(s, Next(s, e, gone))
    ensures QuotesHeld(Next(s, e, gone))
  {
    var s' := Next(s, e, gone);
    forall k | k in s'.quotes ensures Holds(s'.rows, s'.resolved, s'.quotes[k].bundle, s'.quotes[k].keys) {
      HoldsOn(s, e, gone, s.quotes[k].bundle, s.quotes[k].keys);
    }
    forall ck | ck in s'.funding
      ensures Holds(s'.rows, s'.resolved, s'.funding[ck].quote.bundle, s'.funding[ck].quote.keys)
    {
      HoldsOn(s, e, gone, s.funding[ck].quote.bundle, s.funding[ck].quote.keys);
    }
  }

  lemma HoldsOn(s: State, e: Event, gone: set<Id>, u: Uuid, keys: set<Key>)
    requires Inv(s) && Enabled(s, e, gone) && u in s.issued && Holds(s.rows, s.resolved, u, keys)
    requires forall v | v in s.resolved :: v in Next(s, e, gone).resolved
    ensures Holds(Next(s, e, gone).rows, Next(s, e, gone).resolved, u, keys)
  {
    if u !in s.resolved {
      StepKeepsKeys(s, e, gone, u);
    }
  }

  lemma ReuseKeepsHeld(s: State, t: TabId, job: Job, u: Uuid, gone: set<Id>)
    requires Inv(s) && QuotesHeld(s) && Enabled(s, Reuse(t, job, u), gone)
    ensures QuotesHeld(DoReuse(s, t, job, u, gone))
  {
    var e, s' := Reuse(t, job, u), DoReuse(s, t, job, u, gone);
    ReuseReserves(s, t, job, u, gone);
    forall k | k in s'.quotes ensures Holds(s'.rows, s'.resolved, s'.quotes[k].bundle, s'.quotes[k].keys) {
      if k != (t, u) {
        HoldsOn(s, e, gone, s.quotes[k].bundle, s.quotes[k].keys);
      }
    }
    forall ck | ck in s'.funding
      ensures Holds(s'.rows, s'.resolved, s'.funding[ck].quote.bundle, s'.funding[ck].quote.keys)
    {
      HoldsOn(s, e, gone, s.funding[ck].quote.bundle, s.funding[ck].quote.keys);
    }
  }

  lemma ReceivedComponents(s: State, a: Account, u: Uuid, tidied: bool, gone: set<Id>)
    requires CanAuthReceive(s, a, u)
    ensures var s', f := DoAuthReceive(s, a, u, tidied, gone), s.authorizing[a];
            && s'.resolved == s.resolved
            && (forall ck | ck in s'.funding :: ck in s.funding && s'.funding[ck] == s.funding[ck])
            && forall k | k in s'.quotes ::
                 if tidied && k == (f.tab, u) then s'.quotes[k] == Quote(u, a, f.job.callKey, f.job.keys)
                 else k in s.quotes && s'.quotes[k] == s.quotes[k]
  {
  }

  lemma ReceiveKeepsHeld(s: State, a: Account, u: Uuid, tidied: bool, gone: set<Id>)
    requires Inv(s) && QuotesHeld(s) && Enabled(s, AuthReceive(a, u, tidied), gone)
    ensures QuotesHeld(DoAuthReceive(s, a, u, tidied, gone))
  {
    var e, s' := AuthReceive(a, u, tidied), DoAuthReceive(s, a, u, tidied, gone);
    KnownAreIssued(s);
    ReceiveReserves(s, a, u, tidied, gone);
    ReceivedComponents(s, a, u, tidied, gone);
    forall k | k in s'.quotes ensures Holds(s'.rows, s'.resolved, s'.quotes[k].bundle, s'.quotes[k].keys) {
      if !(tidied && k == (s.authorizing[a].tab, u)) {
        HoldsOn(s, e, gone, s.quotes[k].bundle, s.quotes[k].keys);
      }
    }
    forall ck | ck in s'.funding
      ensures Holds(s'.rows, s'.resolved, s'.funding[ck].quote.bundle, s'.funding[ck].quote.keys)
    {
      HoldsOn(s, e, gone, s.funding[ck].quote.bundle, s.funding[ck].quote.keys);
    }
  }

  lemma BeginKeepsHeld(s: State, t: TabId, u: Uuid)
    requires QuotesHeld(s) && CanFundBegin(s, t, u)
    ensures QuotesHeld(DoFundBegin(s, t, u))
  {
  }

  /** Every step of every tab keeps the keys of all quotes reserved. */
  lemma StepKeepsHeld(s: State, e: Event, gone: set<Id>)
    requires Inv(s) && QuotesHeld(s) && Enabled(s, e, gone)
    ensures QuotesHeld(Next(s, e, gone))
  {
    if e.Reuse? {
      ReuseKeepsHeld(s, e.tab, e.job, e.uuid, gone);
    } else if e.AuthReceive? {
      ReceiveKeepsHeld(s, e.account, e.uuid, e.tidied, gone);
    } else if e.FundBegin? {
      BeginKeepsHeld(s, e.tab, e.uuid);
    } else {
      if e.FundAbort? || e.FundCommit? || e.FundReject? || e.FundUncertain? || e.FundHash? || e.FundEnd? {
        FundInherits(s, e, gone);
      } else {
        OtherInherits(s, e, gone);
      }
      HeldByInheritance(s, e, gone);
    }
  }

  // ---------------------------------------------------------------- whole runs

  ghost predicate Reserving(s: State) { Inv(s) && QuotesHeld(s) }

  lemma GoesKeepsReserving(s: State, step: Step, s': State)
    requires Reserving(s) && Goes(s, step, s')
    ensures Reserving(s')
  {
    StepKeepsInv(s, step.event, step.gone);
    StepKeepsHeld(s, step.event, step.gone);
  }

  lemma RunKeepsReserving(ss: seq<State>, steps: seq<Step>, k: nat)
    requires Run(ss, steps) && k < |ss|
    ensures Reserving(ss[k])
  {
    RunKeepsInv(ss, steps, 0);
    forall s, step, s' | Reserving(s) && Goes(s, step, s') ensures Reserving(s') {
      GoesKeepsReserving(s, step, s');
    }
    Along(Goes, Reserving, ss, steps, 0, k);
  }

  // A tab remembers this quote, or is paying for it.
  ghost predicate Remembered(s: State, q: Quote) {
    || (exists k | k in s.quotes :: s.quotes[k] == q)
    || exists ck | ck in s.funding :: s.funding[ck].quote == q
  }

  // The guard of the direct route and of the discard path refuses every scope among the keys.
  lemma ScopesTaken(s: State, u: Uuid, keys: set<Key>)
    requires Inv(s) && u in s.issued && u !in s.resolved && Holds(s.rows, s.resolved, u, keys)
    ensures forall a, scope | ScopeKey(a, scope) in keys :: !ScopeAvailable(s.rows, a, scope)
  {
    UnresolvedRow(s, u);
    forall a, scope | ScopeKey(a, scope) in keys ensures !ScopeAvailable(s.rows, a, scope) {
      assert HoldsScope(s.rows[BundleId(u)], a, scope);
    }
  }

  /**
   In every state of every run: of each quote that a tab remembers or is paying for, the row of
   its bundle holds all keys until the bundle was executed, and until then no scope among them
   is available.
   */
  lemma QuotesStayReserved(ss: seq<State>, steps: seq<Step>, k: nat, q: Quote)
    requires Run(ss, steps) && k < |ss| && Remembered(ss[k], q) && q.bundle !in ss[k].resolved
    ensures BundleId(q.bundle) in ss[k].rows && ss[k].rows[BundleId(q.bundle)].keys >= q.keys
    ensures forall a, scope | ScopeKey(a, scope) in q.keys :: !ScopeAvailable(ss[k].rows, a, scope)
  {
    RunKeepsReserving(ss, steps, k);
    ScopesTaken(ss[k], q.bundle, q.keys);
  }

  /**
   A request that took a saved quote up stays reserved whatever happens to the tab: in every
   later state, until the bundle was executed, its row holds all keys of the request, and no
   recovery scope of the request is available.
   */
  lemma TakenUpStaysReserved(ss: seq<State>, steps: seq<Step>, k: nat, m: nat)
    requires Run(ss, steps) && k < |steps| && steps[k].event.Reuse? && k < m < |ss|
    requires steps[k].event.uuid !in ss[m].resolved
    ensures var u, job := steps[k].event.uuid, steps[k].event.job;
            && BundleId(u) in ss[m].rows && ss[m].rows[BundleId(u)].keys >= job.keys
            && forall r | r in job.requests && r.scope.Some? ::
                 !ScopeAvailable(ss[m].rows, job.account, r.scope.value)
  {
    var u, job := steps[k].event.uuid, steps[k].event.job;
    var keeps := s => Inv(s) && u in s.issued && Holds(s.rows, s.resolved, u, job.keys);
    TakenUp(ss, steps, k);
    forall s, step, s' | keeps(s) && Goes(s, step, s') ensures keeps(s') {
      KeepsOn(s, step, s', u, job.keys);
    }
    Along(Goes, keeps, ss, steps, k + 1, m);
    ScopesTaken(ss[m], u, job.keys);
    assert Goes(ss[k], steps[k], ss[k + 1]);
    forall r | r in job.requests && r.scope.Some? ensures ScopeKey(job.account, r.scope.value) in job.keys {
      KeysExactly(job.account, job.requests, ScopeKey(job.account, r.scope.value));
    }
  }

  lemma TakenUp(ss: seq<State>, steps: seq<Step>, k: nat)
    requires Run(ss, steps) && k < |steps| && steps[k].event.Reuse?
    ensures var u, job := steps[k].event.uuid, steps[k].event.job;
            Inv(ss[k + 1]) && u in ss[k + 1].issued && Holds(ss[k + 1].rows, ss[k + 1].resolved, u, job.keys)
  {
    RunKeepsInv(ss, steps, k);
    RunKeepsInv(ss, steps, k + 1);
    assert Goes(ss[k], steps[k], ss[k + 1]);
    var e := steps[k].event;
    KnownAreIssued(ss[k]);
    ReuseReserves(ss[k], e.tab, e.job, e.uuid, steps[k].gone);
  }

  lemma KeepsOn(s: State, step: Step, s': State, u: Uuid, keys: set<Key>)
    requires Inv(s) && u in s.issued && Holds(s.rows, s.resolved, u, keys) && Goes(s, step, s')
    ensures Inv(s') && u in s'.issued && Holds(s'.rows, s'.resolved, u, keys)
  {
    StepKeepsInv(s, step.event, step.gone);
    RegistryGrows(s, step.event, step.gone);
    HoldsOn(s, step.event, step.gone, u, keys);
  }

  // Every bundle that was named or executed stays so.
  ghost predicate Grows(s: State, s': State) {
    (forall v | v in s.issued :: v in s'.issued) && forall v | v in s.resolved :: v in s'.resolved
  }

  lemma FundGrows(s: State, e: Event, gone: set<Id>)
    requires Enabled(s, e, gone)
    requires e.FundBegin? || e.FundAbort? || e.FundCommit? || e.FundReject? || e.FundUncertain? || e.FundHash?
        || e.FundEnd?
    ensures Grows(s, Next(s, e, gone))
  {
  }

  lemma AuthGrows(s: State, e: Event, gone: set<Id>)
    requires Enabled(s, e, gone)
    requires e.Reuse? || e.AuthBegin? || e.AuthPublish? || e.AuthReceive? || e.AuthAbort?
    ensures Grows(s, Next(s, e, gone))
  {
  }

  lemma RegistryGrows(s: State, e: Event, gone: set<Id>)
    requires Enabled(s, e, gone)
    ensures Grows(s, Next(s, e, gone))
  {
    if e.Reuse? || e.AuthBegin? || e.AuthPublish? || e.AuthReceive? || e.AuthAbort? {
      AuthGrows(s, e, gone);
    } else if !(e.Mine? || e.VerifyPayment? || e.PollStatus? || e.PollSuccess? || e.UserDismiss? || e.Foreign?
                || e.Crash?) {
      FundGrows(s, e, gone);
    }
  }
}
