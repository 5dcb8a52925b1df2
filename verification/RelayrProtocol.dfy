/**
 The Relayr authorization and funding protocol (web/src/hooks/useReviewedRelayr.ts) as a state
 machine over every tab at once. Each step is one stretch of synchronous code between two
 awaits, so it is one atomic read-modify-write of the activity rows. A step may happen in any
 tab in any order; `Crash` drops a tab with everything it only held in memory.

 The persisted rows are the map view of the activity list (`StoreRefinesMap` below): an
 operation replaces the row under its id, and the cap may drop terminal rows besides.

 `sends`, `pubs`, `issued`, `resolved` record what the wallet, Relayr and the chains saw, and
 `tainted` the bundles funded from a row which had lost or kept the trace of an earlier send.
 No guard reads `resolved` or `tainted`.
 */
module RelayrProtocol {
  import opened Prelude
  import opened Identities
  import opened ActivityStore

  // ---------------------------------------------------------------- requests and their keys

  datatype Request = Request(call: CallTuple, scope: Option<string>, raw: bool, forwarder: string)

  function Calls(requests: seq<Request>): multiset<CallTuple> {
    if requests == [] then multiset{} else multiset{requests[0].call} + Calls(requests[1..])
  }

  function RequestKey(account: Account, requests: seq<Request>): CallKey {
    RelayrCalls(account, Calls(requests))
  }

  function KeysOfRequest(account: Account, r: Request): set<Key> {
    {CallsKey(RequestKey(account, [r]))}
    + (if r.scope.Some? then {ScopeKey(account, r.scope.value)} else {})
    + (if r.raw then {} else {NonceKey(account, r.call.chain, r.forwarder)})
  }

  function KeysOf(account: Account, requests: seq<Request>): set<Key> {
    if requests == [] then {} else KeysOfRequest(account, requests[0]) + KeysOf(account, requests[1..])
  }

  // The authorization a caller asks for: its requests and the two keys computed from them.
  datatype Job = Job(account: Account, requests: seq<Request>, callKey: CallKey, keys: set<Key>)

  function JobOf(account: Account, requests: seq<Request>): Job {
    Job(account, requests, RequestKey(account, requests), KeysOf(account, requests))
  }

  // ---------------------------------------------------------------- state

  type Rows = map<Id, Row>
  type TabId = nat

  // `RememberedQuote`: what a tab needs in memory to fund a bundle. The payment key it is
  // stored under embeds the bundle uuid in the checked calldata, so uuid identifies it.
  datatype Quote = Quote(bundle: Uuid, account: Account, callKey: CallKey, keys: set<Key>)

  datatype Settlement = Unsettled | RejectedByWallet | VerifiedReverted | VerifiedPaid

  // One request to the wallet to broadcast a funding transaction; its index is its hash.
  datatype Send = Send(bundle: Uuid, mined: Option<bool>, settled: Settlement)

  // One POST of executable signatures.
  datatype Publication = Publication(job: Job, bundle: Option<Uuid>)

  datatype FundPc = Reviewing | Sent(send: nat) | Hashed(send: nat)
  datatype Funding = Funding(tab: TabId, quote: Quote, pc: FundPc)

  datatype AuthPc = Signing | Posted(pub: nat)
  datatype Authorizing = Authorizing(tab: TabId, job: Job, pc: AuthPc)

  // `funding` and `authorizing` are also the browser locks: a key is held by its only holder.
  datatype State = State(
    rows: Rows,
    quotes: map<(TabId, Uuid), Quote>,
    funded: set<(TabId, Uuid)>,
    funding: map<CallKey, Funding>,
    authorizing: map<Account, Authorizing>,
    sends: seq<Send>,
    pubs: seq<Publication>,
    issued: map<Uuid, nat>,
    resolved: map<Uuid, nat>,
    tainted: set<Uuid>)

  const INIT := State(map[], map[], {}, map[], map[], [], [], map[], map[], {})

  // ---------------------------------------------------------------- store operations on the map

  // Rows the cap may drop while `id` is written: terminal rows of other ids.
  predicate Evictable(rows: Rows, gone: set<Id>, id: Id) {
    id !in gone && forall x | x in gone :: x in rows && !InFlight(rows[x])
  }

  function Recorded(rows: Rows, id: Id, p: Patch): Row
    requires Complete(p)
  {
    Merge(if id in rows then rows[id] else Blank(id, p), p)
  }

  function RecordMap(rows: Rows, id: Id, p: Patch, gone: set<Id>): Rows
    requires Complete(p)
  {
    (rows - gone)[id := Recorded(rows, id, p)]
  }

  function UpdateMap(rows: Rows, id: Id, p: Patch, gone: set<Id>): Rows {
    if id in rows then (rows - gone)[id := Merge(rows[id], Guard(rows[id], p))] else rows
  }

  function DismissMap(rows: Rows, id: Id, gone: set<Id>): Rows {
    if id in rows && Manual(rows[id]) then rows else rows - gone - {id}
  }

  function ApplyMap(rows: Rows, op: Op, gone: set<Id>): Rows
    requires WellFormed(op)
  {
    match op
    case Record(id, p) => RecordMap(rows, id, p, gone)
    case Update(id, p) => UpdateMap(rows, id, p, gone)
    case Dismiss(id) => DismissMap(rows, id, gone)
  }

  function View(rows: seq<Row>): Rows {
    if rows == [] then map[] else View(rows[1..])[rows[0].id := rows[0]]
  }

  lemma {:induction false} ViewLookup(rows: seq<Row>, id: Id)
    ensures id in View(rows) <==> Find(rows, id).Some?
    ensures id in View(rows) ==> View(rows)[id] == Find(rows, id).value
  {
    if rows != [] {
      ViewLookup(rows[1..], id);
    }
  }

  function At(rows: Rows, id: Id): Option<Row> { if id in rows then Some(rows[id]) else None }

  // What one operation does to the row of any id, on the list.
  lemma {:induction false} RefinesAt(rows: seq<Row>, op: Op, x: Id)
    requires WellFormed(op) && UniqueIds(rows)
    ensures x == op.id ==> At(View(Apply(rows, op)), x) == At(ApplyMap(View(rows), op, {}), x)
    ensures x != op.id ==>
              (|| At(View(Apply(rows, op)), x) == At(View(rows), x)
               || (At(View(Apply(rows, op)), x).None? && At(View(rows), x).Some? && !InFlight(At(View(rows), x).value)))
  {
    OneOperation(rows, op, x);
    ViewLookup(rows, x);
    ViewLookup(Apply(rows, op), x);
  }

  lemma ApplyMapAt(before: Rows, op: Op, gone: set<Id>, x: Id)
    requires WellFormed(op) && Evictable(before, gone, op.id)
    requires op.Dismiss? || op.id in before || op.Record? || gone == {}
    requires op.Dismiss? && op.id in before && Manual(before[op.id]) ==> gone == {}
    ensures At(ApplyMap(before, op, gone), x)
            == if x == op.id then At(ApplyMap(before, op, {}), x) else if x in gone then None else At(before, x)
  {
  }

  /** Every operation on the activity list is the map operation with some terminal rows dropped. */
  lemma StoreRefinesMap(rows: seq<Row>, op: Op) returns (gone: set<Id>)
    requires WellFormed(op) && UniqueIds(rows)
    ensures Evictable(View(rows), gone, op.id)
    ensures View(Apply(rows, op)) == ApplyMap(View(rows), op, gone)
  {
    var before, after := View(rows), View(Apply(rows, op));
    ViewLookup(rows, op.id);
    gone := set x | x in before && x != op.id && x !in after;
    forall x | x in gone ensures !InFlight(before[x]) {
      RefinesAt(rows, op, x);
      assert At(after, x).None? && At(before, x).Some?;
    }
    if Apply(rows, op) == rows {
      assert gone == {};
    }
    forall x: Id ensures At(after, x) == At(ApplyMap(before, op, gone), x) {
      RefinesAt(rows, op, x);
      ApplyMapAt(before, op, gone, x);
    }
    SameMap(after, ApplyMap(before, op, gone));
  }

  lemma SameMap(m: Rows, m': Rows)
    requires forall x: Id :: At(m, x) == At(m', x)
    ensures m == m'
  {
    forall x: Id ensures x in m <==> x in m'
    {
      assert At(m, x) == At(m', x);
    }
    assert m.Keys == m'.Keys;
    forall x | x in m ensures m[x] == m'[x] {
      assert At(m, x) == At(m', x);
    }
  }

  // ---------------------------------------------------------------- guards

  // `requireRelayrRecoveryScopeAvailable` on one row.
  predicate HoldsScope(r: Row, account: Account, scope: string) {
    ScopeKey(account, scope) in r.keys && (r.status != Success || Manual(r))
  }

  predicate ScopeAvailable(rows: Rows, account: Account, scope: string) {
    forall id | id in rows :: !HoldsScope(rows[id], account, scope)
  }

  // The row `requireUnfunded` looks for; a fresh authorization asks with no bundle.
  predicate Blocks(r: Row, bundle: Option<Uuid>, callKey: CallKey, keys: set<Key>) {
    var same := bundle.Some? && r.bundle == bundle;
    && (same || ((r.callKey == Some(callKey) || r.keys * keys != {}) && r.status != Success))
    && !(same && r.pay == Some(Unfunded))
    && !(same && r.pay == Some(Reverted))
  }

  predicate Unblocked(rows: Rows, bundle: Option<Uuid>, callKey: CallKey, keys: set<Key>) {
    forall id | id in rows :: !Blocks(rows[id], bundle, callKey, keys)
  }

  predicate Reusable(r: Row, callKey: CallKey) {
    r.callKey == Some(callKey) && (r.pay == Some(Unfunded) || r.pay == Some(Reverted)) && r.quoted
  }

  // ---------------------------------------------------------------- the rows each step writes

  function PublicationPatch(job: Job): Patch {
    NO_PATCH.(kind := Present(RelayrBundle), status := Present(Pending), account := Present(Some(job.account)),
             callKey := Present(Some(job.callKey)), keys := Present(job.keys), pay := Present(Some(Unfunded)))
  }

  function BundlePatch(job: Job, u: Uuid): Patch {
    PublicationPatch(job).(bundle := Present(Some(u)), quoted := Present(true))
  }

  function SubmittedPatch(q: Quote): Patch {
    NO_PATCH.(kind := Present(RelayrBundle), status := Present(Submitted), account := Present(Some(q.account)),
             bundle := Present(Some(q.bundle)), callKey := Present(Some(q.callKey)), pay := Present(Some(PaySubmitted)))
  }

  const PENDING_PATCH := NO_PATCH.(status := Present(Pending))
  const DECLINED_PATCH := PENDING_PATCH.(pay := Present(Some(Unfunded)))
  const FAILED_PATCH := NO_PATCH.(status := Present(Failed), manual := Present(Some(true)))
  const REVERTED_PATCH := FAILED_PATCH.(pay := Present(Some(Reverted)))
  const CONFIRMED_PATCH := NO_PATCH.(pay := Present(Some(Confirmed)))
  const SUCCESS_PATCH := NO_PATCH.(status := Present(Success), manual := Present(Some(false)))

  function MoreKeys(r: Row, job: Job): Patch { NO_PATCH.(keys := Present(r.keys + job.keys)) }

  function HashPatch(n: nat): Patch { NO_PATCH.(hash := Present(Some(n))) }

  // ---------------------------------------------------------------- steps

  datatype Event =
    // getRelayrTxQuote
    | Reuse(tab: TabId, job: Job, uuid: Uuid)
    | AuthBegin(tab: TabId, job: Job)
    | AuthPublish(account: Account, posted: bool)
    | AuthReceive(account: Account, uuid: Uuid, tidied: bool)
    | AuthAbort(account: Account)
    // sendRelayrTx
    | FundBegin(tab: TabId, uuid: Uuid)
    | FundAbort(callKey: CallKey)
    | FundCommit(callKey: CallKey, asked: bool)
    | FundReject(callKey: CallKey)
    | FundUncertain(callKey: CallKey)
    | FundHash(callKey: CallKey)
    | FundEnd(callKey: CallKey, touch: bool)
    // the chain; verifyPaymentReceipt and waitForRelayrBundle, in any tab at any time
    | Mine(send: nat, ok: bool)
    | VerifyPayment(tab: TabId, uuid: Uuid)
    | PollStatus(uuid: Uuid, failed: bool)
    | PollSuccess(uuid: Uuid, paid: nat)
    // the user, other code and the browser
    | UserDismiss(id: Id)
    | Foreign(op: Op)
    | Crash(tab: TabId)

  predicate ForeignId(id: Id) { !id.BundleId? && !id.PublicationId? }

  predicate ForeignOp(op: Op) {
    && WellFormed(op) && ForeignId(op.id)
    && (!op.Dismiss? ==> op.patch.bundle.Absent? && op.patch.quoted.Absent? && op.patch.keys.Absent?)
  }

  function CrashTab(s: State, t: TabId): State {
    s.(quotes := (map k | k in s.quotes && k.0 != t :: s.quotes[k]),
       funded := (set k | k in s.funded && k.0 != t),
       funding := (map k | k in s.funding && s.funding[k].tab != t :: s.funding[k]),
       authorizing := map k | k in s.authorizing && s.authorizing[k].tab != t :: s.authorizing[k])
  }

  function Settle(sends: seq<Send>, n: nat, how: Settlement): seq<Send>
    requires n < |sends|
  {
    sends[n := sends[n].(settled := how)]
  }

  function UpdateBundle(s: State, u: Uuid, p: Patch, gone: set<Id>): State {
    s.(rows := UpdateMap(s.rows, BundleId(u), p, gone))
  }

  // A saved quote of exactly these calls, still to be funded, is taken again (lines 632-657).
  predicate CanReuse(s: State, job: Job, u: Uuid) {
    && job == JobOf(job.account, job.requests)
    && job.account !in s.authorizing && BundleId(u) in s.rows && Reusable(s.rows[BundleId(u)], job.callKey)
  }

  function DoReuse(s: State, t: TabId, job: Job, u: Uuid, gone: set<Id>): State
    requires CanReuse(s, job, u)
  {
    UpdateBundle(s, u, MoreKeys(s.rows[BundleId(u)], job), gone)
    .(quotes := s.quotes[(t, u) := Quote(u, job.account, job.callKey, job.keys)])
  }

  predicate CanAuthBegin(s: State, job: Job) {
    && job == JobOf(job.account, job.requests)
    && job.account !in s.authorizing
    && (forall id | id in s.rows :: !Reusable(s.rows[id], job.callKey))
    && Unblocked(s.rows, None, job.callKey, job.keys)
  }

  function DoAuthBegin(s: State, t: TabId, job: Job): State {
    s.(authorizing := s.authorizing[job.account := Authorizing(t, job, Signing)])
  }

  // The second check and the write ahead of the POST (lines 884-914); `posted` is false when
  // the tab dies between the write and the POST.
  predicate CanAuthPublish(s: State, a: Account) {
    && a in s.authorizing && s.authorizing[a].pc.Signing?
    && Unblocked(s.rows, None, s.authorizing[a].job.callKey, s.authorizing[a].job.keys)
  }

  function PublicationRows(rows: Rows, job: Job, gone: set<Id>): Rows {
    RecordMap(rows, PublicationId(job.callKey), PublicationPatch(job), gone)
  }

  function DoAuthPublish(s: State, a: Account, posted: bool, gone: set<Id>): State
    requires CanAuthPublish(s, a)
  {
    var f := s.authorizing[a];
    var s := s.(rows := PublicationRows(s.rows, f.job, gone));
    if !posted then CrashTab(s, f.tab)
    else s.(pubs := s.pubs + [Publication(f.job, None)],
            authorizing := s.authorizing[a := f.(pc := Posted(|s.pubs|))])
  }

  // The answer to the POST (lines 921-973). Relayr names every publication by a uuid of its
  // own. `tidied` is false when the tab dies before it drops the publication row.
  predicate CanAuthReceive(s: State, a: Account, u: Uuid) {
    && a in s.authorizing && s.authorizing[a].pc.Posted? && s.authorizing[a].pc.pub < |s.pubs|
    && u !in s.issued
  }

  function BundleRows(rows: Rows, job: Job, u: Uuid, gone: set<Id>): Rows {
    RecordMap(rows, BundleId(u), BundlePatch(job, u), gone)
  }

  function Named(pubs: seq<Publication>, i: nat, u: Uuid): seq<Publication>
    requires i < |pubs|
  {
    pubs[i := pubs[i].(bundle := Some(u))]
  }

  function Received(s: State, a: Account, u: Uuid, gone: set<Id>): State
    requires CanAuthReceive(s, a, u)
  {
    var f := s.authorizing[a];
    s.(rows := BundleRows(s.rows, f.job, u, gone),
       pubs := Named(s.pubs, f.pc.pub, u),
       issued := s.issued[u := f.pc.pub],
       authorizing := s.authorizing - {a})
  }

  function DoAuthReceive(s: State, a: Account, u: Uuid, tidied: bool, gone: set<Id>): State
    requires CanAuthReceive(s, a, u)
  {
    var f := s.authorizing[a];
    var s := Received(s, a, u, gone);
    if !tidied then CrashTab(s, f.tab)
    else s.(rows := DismissMap(s.rows, PublicationId(f.job.callKey), {}),
            quotes := s.quotes[(f.tab, u) := Quote(u, a, f.job.callKey, f.job.keys)])
  }

  predicate CanFundBegin(s: State, t: TabId, u: Uuid) {
    && (t, u) in s.quotes && s.quotes[(t, u)].callKey !in s.funding
    && (t, u) !in s.funded
    && Unblocked(s.rows, Some(u), s.quotes[(t, u)].callKey, s.quotes[(t, u)].keys)
  }

  function DoFundBegin(s: State, t: TabId, u: Uuid): State
    requires CanFundBegin(s, t, u)
  {
    s.(funding := s.funding[s.quotes[(t, u)].callKey := Funding(t, s.quotes[(t, u)], Reviewing)])
  }

  // The second check, the `submitted` row and the wallet request are one synchronous stretch
  // (lines 1081-1112); `asked` is false when the tab dies before the wallet is asked.
  predicate CanFundCommit(s: State, ck: CallKey) {
    && ck in s.funding && s.funding[ck].pc.Reviewing?
    && (s.funding[ck].tab, s.funding[ck].quote.bundle) !in s.funded
    && Unblocked(s.rows, Some(s.funding[ck].quote.bundle), s.funding[ck].quote.callKey, s.funding[ck].quote.keys)
  }

  function SubmittedRows(rows: Rows, q: Quote, gone: set<Id>): Rows {
    RecordMap(rows, BundleId(q.bundle), SubmittedPatch(q), gone)
  }

  // The row a funding starts from exists and does not remember an earlier hash.
  predicate Untraced(rows: Rows, u: Uuid) { BundleId(u) in rows && rows[BundleId(u)].hash.None? }

  function DoFundCommit(s: State, ck: CallKey, asked: bool, gone: set<Id>): State
    requires CanFundCommit(s, ck)
  {
    var f := s.funding[ck];
    var s := s.(tainted := if Untraced(s.rows, f.quote.bundle) then s.tainted else s.tainted + {f.quote.bundle},
                rows := SubmittedRows(s.rows, f.quote, gone));
    if !asked then CrashTab(s, f.tab)
    else s.(sends := s.sends + [Send(f.quote.bundle, None, Unsettled)],
            funding := s.funding[ck := f.(pc := Sent(|s.sends|))])
  }

  // Error 4001 of EIP-1193 says that nothing was broadcast.
  predicate CanFundReject(s: State, ck: CallKey) {
    && ck in s.funding && s.funding[ck].pc.Sent? && s.funding[ck].pc.send < |s.sends|
    && s.sends[s.funding[ck].pc.send].mined.None?
  }

  function DoFundReject(s: State, ck: CallKey, gone: set<Id>): State
    requires CanFundReject(s, ck)
  {
    var f := s.funding[ck];
    UpdateBundle(s, f.quote.bundle, DECLINED_PATCH, gone)
    .(sends := Settle(s.sends, f.pc.send, RejectedByWallet), funding := s.funding - {ck})
  }

  function DoFundUncertain(s: State, ck: CallKey, gone: set<Id>): State
    requires ck in s.funding
  {
    UpdateBundle(s, s.funding[ck].quote.bundle, PENDING_PATCH, gone).(funding := s.funding - {ck})
  }

  function DoFundHash(s: State, ck: CallKey, gone: set<Id>): State
    requires ck in s.funding && s.funding[ck].pc.Sent?
  {
    var f := s.funding[ck];
    UpdateBundle(s, f.quote.bundle, HashPatch(f.pc.send), gone)
    .(funded := s.funded + {(f.tab, f.quote.bundle)}, funding := s.funding[ck := f.(pc := Hashed(f.pc.send))])
  }

  predicate CanVerify(s: State, u: Uuid) {
    && BundleId(u) in s.rows && s.rows[BundleId(u)].hash.Some?
    && s.rows[BundleId(u)].hash.value < |s.sends| && s.sends[s.rows[BundleId(u)].hash.value].mined.Some?
  }

  // `verifyPaymentReceipt` on the hash the row remembers (lines 386-429).
  function DoVerify(s: State, t: TabId, u: Uuid, gone: set<Id>): State
    requires CanVerify(s, u)
  {
    var n := s.rows[BundleId(u)].hash.value;
    if s.sends[n].mined.value then UpdateBundle(s, u, CONFIRMED_PATCH, gone).(sends := Settle(s.sends, n, VerifiedPaid))
    else UpdateBundle(s, u, REVERTED_PATCH, gone)
         .(sends := Settle(s.sends, n, VerifiedReverted), funded := s.funded - {(t, u)})
  }

  // `waitForRelayrBundle` only reports success after the payment receipt was verified.
  predicate CanPollSuccess(s: State, u: Uuid, n: nat) {
    u in s.issued && n < |s.sends| && s.sends[n].bundle == u && s.sends[n].settled == VerifiedPaid
  }

  function Target(s: State, e: Event): Id {
    match e
    case Reuse(_, _, u) => BundleId(u)
    case AuthPublish(a, _) => if a in s.authorizing then PublicationId(s.authorizing[a].job.callKey) else OtherId("")
    case AuthReceive(_, u, _) => BundleId(u)
    case FundCommit(ck, _) => FundTarget(s, ck)
    case FundReject(ck) => FundTarget(s, ck)
    case FundUncertain(ck) => FundTarget(s, ck)
    case FundHash(ck) => FundTarget(s, ck)
    case FundEnd(ck, _) => FundTarget(s, ck)
    case VerifyPayment(_, u) => BundleId(u)
    case PollStatus(u, _) => BundleId(u)
    case PollSuccess(u, _) => BundleId(u)
    case UserDismiss(id) => id
    case Foreign(op) => op.id
    case _ => OtherId("")
  }

  function FundTarget(s: State, ck: CallKey): Id {
    if ck in s.funding then BundleId(s.funding[ck].quote.bundle) else OtherId("")
  }

  predicate Enabled(s: State, e: Event, gone: set<Id>) {
    && Evictable(s.rows, gone, Target(s, e))
    && match e
       case Reuse(t, job, u) => CanReuse(s, job, u)
       case AuthBegin(t, job) => CanAuthBegin(s, job)
       case AuthPublish(a, _) => CanAuthPublish(s, a)
       case AuthReceive(a, u, _) => CanAuthReceive(s, a, u)
       case AuthAbort(a) => a in s.authorizing
       case FundBegin(t, u) => CanFundBegin(s, t, u)
       case FundAbort(ck) => ck in s.funding && s.funding[ck].pc.Reviewing?
       case FundCommit(ck, _) => CanFundCommit(s, ck)
       case FundReject(ck) => CanFundReject(s, ck)
       case FundUncertain(ck) => ck in s.funding && s.funding[ck].pc.Sent?
       case FundHash(ck) => ck in s.funding && s.funding[ck].pc.Sent?
       case FundEnd(ck, _) => ck in s.funding && s.funding[ck].pc.Hashed?
       case Mine(n, _) => n < |s.sends| && s.sends[n].mined.None? && s.sends[n].settled != RejectedByWallet
       case VerifyPayment(t, u) => CanVerify(s, u)
       case PollStatus(u, _) => true
       case PollSuccess(u, n) => CanPollSuccess(s, u, n)
       case UserDismiss(id) => id in s.rows && (s.rows[id].status == Success || s.rows[id].status == Failed)
       case Foreign(op) => ForeignOp(op)
       case Crash(_) => true
  }

  function Next(s: State, e: Event, gone: set<Id>): State
    requires Enabled(s, e, gone)
  {
    match e
    case Reuse(t, job, u) => DoReuse(s, t, job, u, gone)
    case AuthBegin(t, job) => DoAuthBegin(s, t, job)
    case AuthPublish(a, posted) => DoAuthPublish(s, a, posted, gone)
    case AuthReceive(a, u, tidied) => DoAuthReceive(s, a, u, tidied, gone)
    case AuthAbort(a) => s.(authorizing := s.authorizing - {a})
    case FundBegin(t, u) => DoFundBegin(s, t, u)
    case FundAbort(ck) => s.(funding := s.funding - {ck})
    case FundCommit(ck, asked) => DoFundCommit(s, ck, asked, gone)
    case FundReject(ck) => DoFundReject(s, ck, gone)
    case FundUncertain(ck) => DoFundUncertain(s, ck, gone)
    case FundHash(ck) => DoFundHash(s, ck, gone)
    case FundEnd(ck, touch) => if touch then DoFundUncertain(s, ck, gone) else s.(funding := s.funding - {ck})
    case Mine(n, ok) => s.(sends := s.sends[n := s.sends[n].(mined := Some(ok))])
    case VerifyPayment(t, u) => DoVerify(s, t, u, gone)
    case PollStatus(u, failed) => UpdateBundle(s, u, if failed then FAILED_PATCH else PENDING_PATCH, gone)
    case PollSuccess(u, n) => UpdateBundle(s, u, SUCCESS_PATCH, gone).(resolved := s.resolved[u := n])
    case UserDismiss(id) => s.(rows := DismissMap(s.rows, id, gone))
    case Foreign(op) => s.(rows := ApplyMap(s.rows, op, gone))
    case Crash(t) => CrashTab(s, t)
  }

  // ---------------------------------------------------------------- invariant

  // A publication whose destination calls were never verified as all executed.
  ghost predicate Open(p: Publication, resolved: map<Uuid, nat>) {
    p.bundle.None? || p.bundle.value !in resolved
  }

  // The row that reserves the keys of a publication.
  function Holder(p: Publication): Id {
    if p.bundle.None? then PublicationId(p.job.callKey) else BundleId(p.bundle.value)
  }

  ghost predicate Reserves(r: Row, p: Publication) {
    r.callKey == Some(p.job.callKey) && r.keys >= p.job.keys && r.status != Success
  }

  ghost predicate IssuedOk(pubs: seq<Publication>, issued: map<Uuid, nat>) {
    && (forall u | u in issued :: issued[u] < |pubs| && pubs[issued[u]].bundle == Some(u))
    && (forall i | 0 <= i < |pubs| && pubs[i].bundle.Some? ::
          pubs[i].bundle.value in issued && issued[pubs[i].bundle.value] == i)
  }

  ghost predicate ResolvedOk(resolved: map<Uuid, nat>, sends: seq<Send>) {
    forall u | u in resolved ::
      resolved[u] < |sends| && sends[resolved[u]].bundle == u && sends[resolved[u]].settled == VerifiedPaid
  }

  ghost predicate Reserved(rows: Rows, pubs: seq<Publication>, resolved: map<Uuid, nat>) {
    forall p | p in pubs && Open(p, resolved) :: Holder(p) in rows && Reserves(rows[Holder(p)], p)
  }

  ghost predicate Disjoint(p: Publication, q: Publication) {
    p.job.callKey != q.job.callKey && p.job.keys !! q.job.keys
  }

  // Two open publications never share a key.
  ghost predicate Exclusive(pubs: seq<Publication>, resolved: map<Uuid, nat>) {
    forall i: nat, j: nat | i < j < |pubs| && Open(pubs[i], resolved) && Open(pubs[j], resolved) ::
      Disjoint(pubs[i], pubs[j])
  }

  ghost predicate RowOk(id: Id, r: Row, pubs: seq<Publication>, issued: map<Uuid, nat>, resolved: map<Uuid, nat>,
      sends: seq<Send>)
  {
    && r.id == id
    && match id
       case BundleId(u) =>
         && u in issued && issued[u] < |pubs|
         && r.bundle == Some(u) && r.callKey == Some(pubs[issued[u]].job.callKey)
         && (r.status == Failed ==> Manual(r)) && (r.status == Success ==> u in resolved)
         && (r.hash.Some? ==> r.hash.value < |sends| && sends[r.hash.value].bundle == u)
       case PublicationId(ck) =>
         r.bundle.None? && r.callKey == Some(ck) && r.status == Pending && !r.quoted && !Manual(r)
       case _ => r.bundle.None? && !r.quoted
  }

  ghost predicate RowsOk(rows: Rows, pubs: seq<Publication>, issued: map<Uuid, nat>, resolved: map<Uuid, nat>,
      sends: seq<Send>)
  {
    forall id | id in rows :: RowOk(id, rows[id], pubs, issued, resolved, sends)
  }

  ghost predicate QuoteOk(q: Quote, pubs: seq<Publication>, issued: map<Uuid, nat>) {
    q.bundle in issued && issued[q.bundle] < |pubs| && q.callKey == pubs[issued[q.bundle]].job.callKey
  }

  ghost predicate QuotesOk(quotes: map<(TabId, Uuid), Quote>, pubs: seq<Publication>, issued: map<Uuid, nat>) {
    forall k | k in quotes :: quotes[k].bundle == k.1 && QuoteOk(quotes[k], pubs, issued)
  }

  ghost predicate FundingOk(funding: map<CallKey, Funding>, pubs: seq<Publication>, issued: map<Uuid, nat>,
      sends: seq<Send>)
  {
    forall ck | ck in funding ::
      && QuoteOk(funding[ck].quote, pubs, issued) && funding[ck].quote.callKey == ck
      && (!funding[ck].pc.Reviewing? ==>
            funding[ck].pc.send < |sends| && sends[funding[ck].pc.send].bundle == funding[ck].quote.bundle)
  }

  ghost predicate AuthOk(authorizing: map<Account, Authorizing>, pubs: seq<Publication>) {
    forall a | a in authorizing :: authorizing[a].job.account == a && JobOk(authorizing[a].job) &&
      (authorizing[a].pc.Posted? ==>
        authorizing[a].pc.pub < |pubs| && pubs[authorizing[a].pc.pub] == Publication(authorizing[a].job, None))
  }

  ghost predicate JobOk(job: Job) { job == JobOf(job.account, job.requests) }

  ghost predicate JobsOk(pubs: seq<Publication>) { forall p | p in pubs :: JobOk(p.job) }

  ghost predicate SendOk(d: Send, issued: map<Uuid, nat>) {
    && d.bundle in issued
    && match d.settled
       case Unsettled => true
       case RejectedByWallet => d.mined.None?
       case VerifiedReverted => d.mined == Some(false)
       case VerifiedPaid => d.mined == Some(true)
  }

  ghost predicate SendsOk(sends: seq<Send>, issued: map<Uuid, nat>) {
    forall n: nat | n < |sends| :: SendOk(sends[n], issued)
  }

  // A send that was neither declined by the wallet nor verified as reverted.
  predicate Live(d: Send) { d.settled == Unsettled || d.settled == VerifiedPaid }

  ghost predicate AtMostOneLive(sends: seq<Send>, tainted: set<Uuid>) {
    forall i: nat, j: nat | i < j < |sends| && Live(sends[i]) && Live(sends[j]) ::
      sends[i].bundle == sends[j].bundle ==> sends[i].bundle in tainted
  }

  ghost predicate LiveRow(r: Row, n: nat, settled: Settlement) {
    if settled == VerifiedPaid then r.pay == Some(Confirmed) && r.hash == Some(n)
    else r.pay == Some(PaySubmitted) && (r.hash.None? || r.hash == Some(n))
  }

  ghost predicate LiveRows(rows: Rows, sends: seq<Send>, tainted: set<Uuid>) {
    forall n: nat | n < |sends| && Live(sends[n]) && sends[n].bundle !in tainted && BundleId(sends[n].bundle) in rows ::
      LiveRow(rows[BundleId(sends[n].bundle)], n, sends[n].settled)
  }

  // While the wallet is being asked, the row is there and knows no hash.
  ghost predicate SentOk(funding: map<CallKey, Funding>, rows: Rows, sends: seq<Send>, tainted: set<Uuid>) {
    forall ck | ck in funding && funding[ck].pc.Sent? && funding[ck].quote.bundle !in tainted ::
      && (funding[ck].pc.send < |sends| ==> sends[funding[ck].pc.send].settled == Unsettled)
      && Untraced(rows, funding[ck].quote.bundle)
  }

  ghost predicate Inv(s: State) {
    && IssuedOk(s.pubs, s.issued) && ResolvedOk(s.resolved, s.sends)
    && Reserved(s.rows, s.pubs, s.resolved) && Exclusive(s.pubs, s.resolved)
    && RowsOk(s.rows, s.pubs, s.issued, s.resolved, s.sends)
    && QuotesOk(s.quotes, s.pubs, s.issued) && FundingOk(s.funding, s.pubs, s.issued, s.sends)
    && AuthOk(s.authorizing, s.pubs) && JobsOk(s.pubs) && SendsOk(s.sends, s.issued)
    && AtMostOneLive(s.sends, s.tainted) && LiveRows(s.rows, s.sends, s.tainted)
    && SentOk(s.funding, s.rows, s.sends, s.tainted)
  }
}
