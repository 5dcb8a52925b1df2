/**
 Bundles that are published and still to be funded, and which steps keep them so.

 A bundle is fundable while it is published, not executed, and its row says unfunded or reverted.
 The cap cannot drop such a row, a receipt can only say that an earlier payment reverted, and a poll
 cannot succeed; so a bundle nobody is paying stays fundable whatever step of any tab comes next
 (`FundableKept`).
 */
module FundableBundles {
  import opened Prelude
  import opened Identities
  import opened ActivityStore
  import opened RelayrProtocol
  import opened RelayrRuns

  // A bundle that is published, not executed, and whose row says it can be funded.
  ghost predicate Fundable(r: State, u: Uuid) {
    u in r.issued && u !in r.resolved && BundleId(u) in r.rows && Payable(r.rows[BundleId(u)])
  }

  // No wallet request or funding review of this bundle is going on.
  predicate Idle(r: State, u: Uuid) {
    forall ck | ck in r.funding :: r.funding[ck].quote.bundle != u
  }

  // The cap drops terminal rows only, so it cannot drop a fundable one.
  lemma FundableRetained(r: State, u: Uuid, gone: set<Id>, id: Id)
    requires RowsOk(r.rows, r.pubs, r.issued, r.resolved, r.sends) && Fundable(r, u) && Evictable(r.rows, gone, id)
    ensures BundleId(u) !in gone
    ensures r.rows[BundleId(u)].status != Success
    ensures r.rows[BundleId(u)].status == Failed ==> Manual(r.rows[BundleId(u)])
  {
    assert RowOk(BundleId(u), r.rows[BundleId(u)], r.pubs, r.issued, r.resolved, r.sends);
  }

  // A verdict on the hash of a fundable, untainted bundle can only be that it reverted.
  lemma FundableVerifies(r: State, u: Uuid)
    requires RowsOk(r.rows, r.pubs, r.issued, r.resolved, r.sends) && SendsOk(r.sends, r.issued)
    requires LiveRows(r.rows, r.sends, r.tainted)
    requires Fundable(r, u) && u !in r.tainted && CanVerify(r, u)
    ensures r.sends[r.rows[BundleId(u)].hash.value].mined == Some(false)
  {
    var n := r.rows[BundleId(u)].hash.value;
    assert RowOk(BundleId(u), r.rows[BundleId(u)], r.pubs, r.issued, r.resolved, r.sends);
    assert SendOk(r.sends[n], r.issued);
    PayableIsOver(r, u);
  }

  lemma FundableUpdate(r: State, v: Uuid, p: Patch, gone: set<Id>, u: Uuid)
    requires Fundable(r, u) && BundleId(u) !in gone
    requires v == u ==> p.pay == Absent || p.pay == Present(Some(Reverted)) || p.pay == Present(Some(Unfunded))
    ensures Fundable(UpdateBundle(r, v, p, gone), u)
  {
  }

  // Fundability reads the rows, the issued and the resolved bundles only.
  lemma FundableFrame(r: State, r': State, u: Uuid)
    requires Fundable(r, u) && r'.rows == r.rows && r'.issued == r.issued && r'.resolved == r.resolved
    ensures Fundable(r', u)
  {
  }

  lemma FundablePublish(r: State, a: Account, posted: bool, gone: set<Id>, u: Uuid)
    requires Fundable(r, u) && BundleId(u) !in gone && CanAuthPublish(r, a)
    ensures Fundable(DoAuthPublish(r, a, posted, gone), u)
  {
  }

  lemma FundableReceive(r: State, a: Account, v: Uuid, tidied: bool, gone: set<Id>, u: Uuid)
    requires Fundable(r, u) && BundleId(u) !in gone && CanAuthReceive(r, a, v)
    ensures Fundable(DoAuthReceive(r, a, v, tidied, gone), u)
  {
    assert v != u;
  }

  lemma FundableCommit(r: State, ck: CallKey, asked: bool, gone: set<Id>, u: Uuid)
    requires Fundable(r, u) && BundleId(u) !in gone && CanFundCommit(r, ck) && r.funding[ck].quote.bundle != u
    ensures Fundable(DoFundCommit(r, ck, asked, gone), u)
  {
  }

  lemma FundableVerify(r: State, t: TabId, v: Uuid, gone: set<Id>, u: Uuid)
    requires Fundable(r, u) && BundleId(u) !in gone && CanVerify(r, v)
    requires v == u ==> r.sends[r.rows[BundleId(u)].hash.value].mined == Some(false)
    ensures Fundable(DoVerify(r, t, v, gone), u)
  {
  }

  lemma FundableDismiss(r: State, id: Id, gone: set<Id>, u: Uuid)
    requires Fundable(r, u) && BundleId(u) !in gone && (id == BundleId(u) ==> Manual(r.rows[id]))
    ensures Fundable(r.(rows := DismissMap(r.rows, id, gone)), u)
  {
  }

  lemma FundableForeign(r: State, op: Op, gone: set<Id>, u: Uuid)
    requires Fundable(r, u) && BundleId(u) !in gone && ForeignOp(op)
    ensures Fundable(r.(rows := ApplyMap(r.rows, op, gone)), u)
  {
  }

  lemma FundableSuccess(r: State, v: Uuid, n: nat, gone: set<Id>, u: Uuid)
    requires Fundable(r, u) && BundleId(u) !in gone && v != u
    ensures Fundable(UpdateBundle(r, v, SUCCESS_PATCH, gone).(resolved := r.resolved[v := n]), u)
  {
  }

  /** A fundable bundle nobody is paying stays fundable whatever step happens next. */
  lemma FundableKept(r: State, e: Event, gone: set<Id>, u: Uuid)
    requires Inv(r) && Enabled(r, e, gone) && Fundable(r, u) && u !in r.tainted && Idle(r, u)
    ensures Fundable(Next(r, e, gone), u)
  {
    FundableRetained(r, u, gone, Target(r, e));
    if e.Reuse? || e.AuthBegin? || e.AuthPublish? || e.AuthReceive? || e.AuthAbort? {
      FundableAuth(r, e, gone, u);
    } else if e.FundBegin? || e.FundAbort? || e.FundCommit? || e.FundReject? || e.FundUncertain? || e.FundHash?
      || e.FundEnd? {
      FundableFund(r, e, gone, u);
    } else if e.Mine? || e.VerifyPayment? || e.PollStatus? || e.PollSuccess? {
      if CanVerify(r, u) {
        FundableVerifies(r, u);
      }
      if e.PollSuccess? && e.uuid == u {
        PayableIsOver(r, u);
      }
      FundableChain(r, e, gone, u);
    } else {
      FundableOther(r, e, gone, u);
    }
  }

  lemma FundableAuth(r: State, e: Event, gone: set<Id>, u: Uuid)
    requires Enabled(r, e, gone) && Fundable(r, u) && BundleId(u) !in gone
    requires e.Reuse? || e.AuthBegin? || e.AuthPublish? || e.AuthReceive? || e.AuthAbort?
    ensures Fundable(Next(r, e, gone), u)
  {
    match e
    case Reuse(t, job, v) => FundableUpdate(r, v, MoreKeys(r.rows[BundleId(v)], job), gone,
      u);
    case AuthBegin(t, job) => FundableFrame(r, Next(r, e, gone), u);
    case AuthPublish(a, posted) => FundablePublish(r, a, posted, gone, u);
    case AuthReceive(a, v, tidied) => FundableReceive(r, a, v, tidied, gone, u);
    case AuthAbort(a) => FundableFrame(r, Next(r, e, gone), u);
  }

  lemma FundableFund(r: State, e: Event, gone: set<Id>, u: Uuid)
    requires Enabled(r, e, gone) && Fundable(r, u) && BundleId(u) !in gone && Idle(r, u)
    requires e.FundBegin? || e.FundAbort? || e.FundCommit? || e.FundReject? || e.FundUncertain? || e.FundHash?
        || e.FundEnd?
    ensures Fundable(Next(r, e, gone), u)
  {
    match e
    case FundBegin(t, v) => FundableFrame(r, Next(r, e, gone), u);
    case FundAbort(ck) => FundableFrame(r, Next(r, e, gone), u);
    case FundCommit(ck, asked) => FundableCommit(r, ck, asked, gone, u);
    case FundReject(ck) => FundableUpdate(r, r.funding[ck].quote.bundle, DECLINED_PATCH, gone, u);
    case FundUncertain(ck) => FundableUpdate(r, r.funding[ck].quote.bundle, PENDING_PATCH, gone, u);
    case FundHash(ck) => FundableUpdate(r, r.funding[ck].quote.bundle, HashPatch(r.funding[ck].pc.send), gone, u);
    case FundEnd(ck, touch) => FundableUpdate(r, r.funding[ck].quote.bundle, PENDING_PATCH, gone, u);
  }

  lemma FundableChain(r: State, e: Event, gone: set<Id>, u: Uuid)
    requires Enabled(r, e, gone) && Fundable(r, u) && BundleId(u) !in gone
    requires CanVerify(r, u) ==> r.sends[r.rows[BundleId(u)].hash.value].mined == Some(false)
    requires e.Mine? || e.VerifyPayment? || e.PollStatus? || (e.PollSuccess? && e.uuid != u)
    ensures Fundable(Next(r, e, gone), u)
  {
    match e
    case Mine(n, ok) => FundableFrame(r, Next(r, e, gone), u);
    case VerifyPayment(t, v) => FundableVerify(r, t, v, gone, u);
    case PollStatus(v, failed) => FundableUpdate(r, v, if failed then FAILED_PATCH else PENDING_PATCH, gone, u);
    case PollSuccess(v, n) => FundableSuccess(r, v, n, gone, u);
  }

  lemma FundableOther(r: State, e: Event, gone: set<Id>, u: Uuid)
    requires Enabled(r, e, gone) && Fundable(r, u) && BundleId(u) !in gone
    requires r.rows[BundleId(u)].status != Success
    requires r.rows[BundleId(u)].status == Failed ==> Manual(r.rows[BundleId(u)])
    requires e.UserDismiss? || e.Foreign? || e.Crash?
    ensures Fundable(Next(r, e, gone), u)
  {
    match e
    case UserDismiss(id) => FundableDismiss(r, id, gone, u);
    case Foreign(op) => FundableForeign(r, op, gone, u);
    case Crash(t) => FundableFrame(r, Next(r, e, gone), u);
  }
}
