/**
 The Relayr route of one saved batch (web/src/hooks/useMultichainBatch.ts:305-418, 481-508),
 running on top of the Relayr protocol: the rounds of the journal, at most one runner at a
 time (the account lock), and around it every step of the protocol in any tab. Other tabs may
 publish, take up or fund the very calls of this batch; only the runner's own call in flight is
 its own. A crash or an error leaves the rounds as last saved.

 `owner` records which publications this batch made and for which round; no guard reads it.
 */
module BatchRunner {
  import opened Prelude
  import opened Identities
  import opened RelayrProtocol
  import opened RelayrRuns

  datatype RoundState = RoundReady | RoundQuoted | RoundFunding | RoundPending | RoundSuccess
  datatype Round = Round(state: RoundState, bundle: Option<Uuid>)

  // Where the runner of `runBatch` is, in round `k`; `busy` while its own call of
  // `getRelayrTxQuote` or `sendRelayrTx` is running.
  datatype Pc =
    | Top(k: nat)
    | Quoting(k: nat, busy: bool)
    | Got(k: nat, uuid: Uuid)
    | Choosing(k: nat)
    | Paying(k: nat, busy: bool)
    | Waiting(k: nat)

  datatype Runner = Runner(tab: TabId, pc: Pc)

  datatype Batch = Batch(
    relayr: State,
    rounds: seq<Round>,
    runner: Option<Runner>,
    owner: map<nat, nat>,
    removed: bool,
    finished: bool)

  // The frozen calls of each round, as the requests they become.
  type Jobs = seq<Job>

  predicate OurKey(jobs: Jobs, ck: CallKey) { exists j | j in jobs :: j.callKey == ck }

  // ---------------------------------------------------------------- steps

  datatype BatchEvent =
    | Env(event: Event, gone: set<Id>)
    | Own(event: Event, gone: set<Id>)
    | Start(tab: TabId)
    | Enter
    | SaveQuoted
    | SaveFunding
    | BackOff
    | SavePending
    | RoundDone
    | Finish
    | Exit
    | Discard

  function Place(b: Batch): Option<Pc> { if b.runner.Some? then Some(b.runner.value.pc) else None }

  function Move(b: Batch, pc: Pc): Batch
    requires b.runner.Some?
  {
    b.(runner := Some(b.runner.value.(pc := pc)))
  }

  function SetRound(b: Batch, k: nat, x: Round): Batch
    requires k < |b.rounds|
  {
    b.(rounds := b.rounds[k := x])
  }

  // `activity?.relayrPaymentStatus` is unfunded or reverted, for the saved bundle of a round.
  predicate RowPayable(r: State, bundle: Option<Uuid>) {
    bundle.Some? && BundleId(bundle.value) in r.rows && Payable(r.rows[BundleId(bundle.value)])
  }

  // A step of the authorization or of the funding the runner waits for.
  predicate OwnCall(jobs: Jobs, b: Batch, e: Event) {
    && b.runner.Some?
    && match b.runner.value.pc
       case Quoting(k, busy) =>
         && busy && k < |jobs|
         && (match e
             case AuthPublish(a, _) => a == jobs[k].account
             case AuthReceive(a, _, _) => a == jobs[k].account
             case AuthAbort(a) => a == jobs[k].account
             case _ => false)
       case Paying(k, busy) => busy && k < |jobs| && AboutFunding(e, jobs[k].callKey)
       case _ => false
  }

  predicate AboutFunding(e: Event, ck: CallKey) {
    match e
    case FundAbort(c) => c == ck
    case FundCommit(c, _) => c == ck
    case FundReject(c) => c == ck
    case FundUncertain(c) => c == ck
    case FundHash(c) => c == ck
    case FundEnd(c, _) => c == ck
    case _ => false
  }

  // The authorization or the funding in flight is the one this runner began.
  predicate OwnFlow(jobs: Jobs, b: Batch, e: Event) {
    match e
    case AuthPublish(a, _) => OwnAuth(jobs, b, a)
    case AuthReceive(a, _, _) => OwnAuth(jobs, b, a)
    case AuthAbort(a) => OwnAuth(jobs, b, a)
    case _ => true
  }

  predicate OwnAuth(jobs: Jobs, b: Batch, a: Account) {
    && b.runner.Some? && b.runner.value.pc.Quoting? && b.runner.value.pc.k < |jobs|
    && a in b.relayr.authorizing && b.relayr.authorizing[a].tab == b.runner.value.tab
    && b.relayr.authorizing[a].job == jobs[b.runner.value.pc.k]
  }

  // The runner calls the hook, or its call goes on.
  predicate CanOwn(jobs: Jobs, b: Batch, e: Event) {
    || (OwnCall(jobs, b, e) && OwnFlow(jobs, b, e))
    || (&& b.runner.Some?
        && match b.runner.value.pc
           case Quoting(k, busy) =>
             && !busy && k < |jobs|
             && (match e
                 case Reuse(t, job, _) => t == b.runner.value.tab && job == jobs[k]
                 case AuthBegin(t, job) => t == b.runner.value.tab && job == jobs[k]
                 case _ => false)
           case Paying(k, busy) =>
             && !busy && k < |jobs| && k < |b.rounds|
             && (match e
                 case FundBegin(t, u) =>
                   && t == b.runner.value.tab && b.rounds[k].bundle == Some(u)
                   && (t, u) in b.relayr.quotes && b.relayr.quotes[(t, u)].callKey == jobs[k].callKey
                 case _ => false)
           case _ => false)
  }

  // The tab that dies in a step.
  function Crashed(r: State, e: Event): Option<TabId> {
    match e
    case AuthPublish(a, posted) => if !posted && a in r.authorizing then Some(r.authorizing[a].tab) else None
    case AuthReceive(a, _, tidied) => if !tidied && a in r.authorizing then Some(r.authorizing[a].tab) else None
    case FundCommit(ck, asked) => if !asked && ck in r.funding then Some(r.funding[ck].tab) else None
    case Crash(t) => Some(t)
    case _ => None
  }

  function Survivor(b: Batch, e: Event): Option<Runner> {
    if b.runner.Some? && Crashed(b.relayr, e) == Some(b.runner.value.tab) then None else b.runner
  }

  // What the runner does once a step of its own call was made.
  function AfterOwn(pc: Pc, e: Event): Pc {
    match e
    case Reuse(_, _, u) => Got(pc.k, u)
    case AuthBegin(_, _) => Quoting(pc.k, true)
    case AuthReceive(_, u, _) => Got(pc.k, u)
    case AuthAbort(_) => Quoting(pc.k, false)
    case FundBegin(_, _) => Paying(pc.k, true)
    case FundAbort(_) => Paying(pc.k, false)
    case FundReject(_) => Paying(pc.k, false)
    case FundUncertain(_) => Paying(pc.k, false)
    case FundEnd(_, _) => Paying(pc.k, false)
    case _ => pc
  }

  function OwnStep(b: Batch, e: Event, gone: set<Id>): Batch
    requires Enabled(b.relayr, e, gone) && b.runner.Some?
  {
    var pc := b.runner.value.pc;
    var owner := if e.AuthPublish? && e.posted then b.owner[|b.relayr.pubs| := pc.k] else b.owner;
    var runner := if Survivor(b, e).None? then None else Some(b.runner.value.(pc := AfterOwn(pc, e)));
    b.(relayr := Next(b.relayr, e, gone), owner := owner, runner := runner)
  }

  ghost predicate CanDiscard(jobs: Jobs, b: Batch) {
    && (forall x | x in b.rounds :: x.state.RoundReady?)
    && (forall job, q | job in jobs && q in job.requests ::
          q.scope.Some? ==> ScopeAvailable(b.relayr.rows, job.account, q.scope.value))
  }

  predicate Idle(pc: Pc) { !((pc.Quoting? || pc.Paying?) && pc.busy) }

  ghost predicate EnabledBatch(jobs: Jobs, b: Batch, e: BatchEvent) {
    match e
    case Env(f, gone) => Enabled(b.relayr, f, gone) && !OwnCall(jobs, b, f)
    case Own(f, gone) => Enabled(b.relayr, f, gone) && CanOwn(jobs, b, f)
    case Start(t) => b.runner.None? && !b.removed && !b.finished
    case Enter => Place(b).Some? && Place(b).value.Top? && Place(b).value.k < |b.rounds|
    case SaveQuoted => Place(b).Some? && Place(b).value.Got? && Place(b).value.k < |b.rounds|
    case SaveFunding => Place(b).Some? && Place(b).value.Choosing? && Place(b).value.k < |b.rounds|
    case BackOff => Place(b).Some? && Place(b).value == Paying(Place(b).value.k, false) && Place(b).value.k < |b.rounds|
    case SavePending => Place(b).Some? && Place(b).value == Paying(Place(b).value.k, false)
      && Place(b).value.k < |b.rounds|
    case RoundDone =>
      && Place(b).Some? && Place(b).value.Waiting? && Place(b).value.k < |b.rounds|
      && b.rounds[Place(b).value.k].bundle.Some? && b.rounds[Place(b).value.k].bundle.value in b.relayr.resolved
    case Finish => Place(b).Some? && Place(b).value.Top? && Place(b).value.k >= |b.rounds|
    case Exit => Place(b).Some? && Idle(Place(b).value)
    case Discard => Place(b).Some? && Idle(Place(b).value) && CanDiscard(jobs, b)
  }

  // Lines 310-328: a confirmed round is skipped, an unpaid funding falls back to its quote.
  function EnterRound(b: Batch, k: nat): Batch
    requires b.runner.Some? && k < |b.rounds|
  {
    var x := b.rounds[k];
    if x.state.RoundSuccess? then Move(b, Top(k + 1))
    else
      var x := if x.state.RoundFunding? && RowPayable(b.relayr, x.bundle) then x.(state := RoundQuoted) else x;
      var b := SetRound(b, k, x);
      if Unpaid(x) then Move(b, Quoting(k, false)) else Move(b, Waiting(k))
  }

  // A round that would be quoted when the batch is resumed.
  predicate Unpaid(x: Round) { x.state.RoundReady? || x.state.RoundQuoted? }

  function NextBatch(jobs: Jobs, b: Batch, e: BatchEvent): Batch
    requires EnabledBatch(jobs, b, e)
  {
    match e
    case Env(f, gone) => b.(relayr := Next(b.relayr, f, gone), runner := Survivor(b, f))
    case Own(f, gone) => OwnStep(b, f, gone)
    case Start(t) => b.(runner := Some(Runner(t, Top(0))))
    case Enter => EnterRound(b, Place(b).value.k)
    case SaveQuoted =>
      var k := Place(b).value.k;
      Move(SetRound(b, k, Round(RoundQuoted, Some(Place(b).value.uuid))), Choosing(k))
    case SaveFunding =>
      var k := Place(b).value.k;
      Move(SetRound(b, k, b.rounds[k].(state := RoundFunding)), Paying(k, false))
    case BackOff =>
      var k := Place(b).value.k;
      (if RowPayable(b.relayr, b.rounds[k].bundle) then SetRound(b, k, b.rounds[k].(state := RoundQuoted)) else b)
      .(runner := None)
    case SavePending =>
      var k := Place(b).value.k;
      Move(SetRound(b, k, b.rounds[k].(state := RoundPending)), Waiting(k))
    case RoundDone =>
      var k := Place(b).value.k;
      Move(SetRound(b, k, b.rounds[k].(state := RoundSuccess)), Top(k + 1))
    case Finish => b.(finished := true, runner := None)
    case Exit => b.(runner := None)
    case Discard => b.(removed := true, runner := None)
  }

  // ---------------------------------------------------------------- invariant

  ghost predicate JobsAgree(jobs: Jobs, n: nat) {
    |jobs| == n && forall j | j in jobs :: JobOk(j)
  }

  ghost predicate OwnerOk(jobs: Jobs, owner: map<nat, nat>, pubs: seq<Publication>) {
    forall p | p in owner :: p < |pubs| && owner[p] < |jobs| && pubs[p].job == jobs[owner[p]]
  }

  predicate Before(rounds: seq<Round>, k: nat) {
    forall i | 0 <= i < k && i < |rounds| :: rounds[i].state.RoundSuccess?
  }

  predicate PcOk(rounds: seq<Round>, pc: Pc) {
    && Before(rounds, pc.k)
    && (!pc.Top? ==> pc.k < |rounds|)
    && match pc
       case Top(_) => true
       case Quoting(k, _) => Unpaid(rounds[k])
       case Got(k, _) => Unpaid(rounds[k])
       case Choosing(k) => rounds[k].state.RoundQuoted?
       case Paying(k, _) => rounds[k].state.RoundFunding?
       case Waiting(k) => rounds[k].state.RoundFunding? || rounds[k].state.RoundPending?
  }

  // Rounds are taken in order: a round that was touched has only successes before it.
  ghost predicate RoundsOk(rounds: seq<Round>, owner: map<nat, nat>, resolved: map<Uuid, nat>) {
    && (forall k: nat | k < |rounds| :: rounds[k].bundle.None? <==> rounds[k].state.RoundReady?)
    && (forall k: nat | k < |rounds| && !rounds[k].state.RoundReady? :: Before(rounds, k))
    && (forall p | p in owner :: Before(rounds, owner[p]))
    && (forall k: nat | k < |rounds| && rounds[k].state.RoundSuccess? ::
          rounds[k].bundle.Some? && rounds[k].bundle.value in resolved)
  }

  // Bundle `u` was published for exactly these calls, by whatever tab.
  ghost predicate Signed(r: State, u: Uuid, ck: CallKey) {
    u in r.issued && r.issued[u] < |r.pubs| && r.pubs[r.issued[u]].job.callKey == ck
  }

  ghost predicate RoundsSigned(jobs: Jobs, b: Batch) {
    && (forall k: nat | k < |b.rounds| && k < |jobs| && b.rounds[k].bundle.Some? ::
          Signed(b.relayr, b.rounds[k].bundle.value, jobs[k].callKey))
    && (b.runner.Some? && b.runner.value.pc.Got? && b.runner.value.pc.k < |jobs| ==>
          Signed(b.relayr, b.runner.value.pc.uuid, jobs[b.runner.value.pc.k].callKey))
  }

  ghost predicate BatchOk(jobs: Jobs, b: Batch) {
    && JobsAgree(jobs, |b.rounds|) && OwnerOk(jobs, b.owner, b.relayr.pubs)
    && RoundsOk(b.rounds, b.owner, b.relayr.resolved) && RoundsSigned(jobs, b)
    && (b.runner.Some? ==> PcOk(b.rounds, b.runner.value.pc))
    && (b.finished ==> b.runner.None? && Before(b.rounds, |b.rounds|))
  }

  ghost predicate BatchInv(jobs: Jobs, b: Batch) { Inv(b.relayr) && BatchOk(jobs, b) }

  // ---------------------------------------------------------------- the bundles of a round

  // Bundle `u` is one of round `k`: saved for it, just quoted for it, or published for it.
  ghost predicate OfRound(b: Batch, k: nat, u: Uuid) {
    || (k < |b.rounds| && b.rounds[k].bundle == Some(u))
    || (b.runner.Some? && b.runner.value.pc == Got(k, u))
    || Owned(b, k, u)
  }

  ghost predicate Owned(b: Batch, k: nat, u: Uuid) {
    u in b.relayr.issued && b.relayr.issued[u] in b.owner && b.owner[b.relayr.issued[u]] == k
  }

  // A publication of round `k` which Relayr has not named yet.
  ghost predicate Unnamed(b: Batch, k: nat, p: nat) {
    p in b.owner && b.owner[p] == k && p < |b.relayr.pubs| && b.relayr.pubs[p].bundle.None?
  }

  // Round `k` has one publication and one bundle at most.
  ghost predicate Single(b: Batch, k: nat) {
    && (forall u, v :: OfRound(b, k, u) && OfRound(b, k, v) ==> u == v)
    && (forall p, q | p in b.owner && q in b.owner && b.owner[p] == k && b.owner[q] == k :: p == q)
    && (forall p: nat, u :: Unnamed(b, k, p) ==> !OfRound(b, k, u))
  }

  // Round `k` is saved as ready or quoted although a bundle of it was executed.
  ghost predicate Preempted(b: Batch, k: nat) {
    && k < |b.rounds| && Unpaid(b.rounds[k])
    && exists u :: OfRound(b, k, u) && u in b.relayr.resolved
  }

  // The runner takes up for round `k` a bundle that was executed before.
  ghost predicate TakesUpExecuted(b: Batch, e: BatchEvent, k: nat) {
    && e.Own? && e.event.Reuse? && e.event.uuid in b.relayr.resolved
    && b.runner.Some? && b.runner.value.pc.k == k
  }

  // No executed bundle of these calls has a row from which it could be funded.
  ghost predicate Clear(jobs: Jobs, r: State) {
    forall u, j | u in r.resolved && j in jobs && Signed(r, u, j.callKey) && BundleId(u) in r.rows ::
      !Payable(r.rows[BundleId(u)])
  }

  // No bundle of these calls that may still be paid has a row from which it could be funded.
  ghost predicate Settled(jobs: Jobs, r: State) {
    forall u, j | j in jobs && Signed(r, u, j.callKey) && BundleId(u) in r.rows && Payable(r.rows[BundleId(u)]) ::
      AllOver(r.sends, u)
  }

  // No bundle of these calls was funded from a row with a hash, or from no row.
  ghost predicate Traced(jobs: Jobs, b: Batch) {
    forall u | u in b.relayr.issued && b.relayr.issued[u] < |b.relayr.pubs| && u in b.relayr.tainted ::
      !OurKey(jobs, b.relayr.pubs[b.relayr.issued[u]].job.callKey)
  }
}
