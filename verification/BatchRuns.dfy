/** What the Relayr route of a saved batch guarantees over whole runs, across any resumes. */
module BatchRuns {
  import opened Prelude
  import opened Runs
  import opened Identities
  import opened RelayrProtocol
  import opened RelayrRuns
  import opened BatchRunner
  import opened BatchSafety

  // A batch just saved. The protocol around it may be in any state it can reach, and its calls
  // may have been published and paid by others before.
  ghost predicate Saved(jobs: Jobs, b: Batch) {
    && Inv(b.relayr) && JobsAgree(jobs, |b.rounds|)
    && (forall x | x in b.rounds :: x == Round(RoundReady, None))
    && b.runner.None? && b.owner == map[] && !b.removed && !b.finished
  }

  ghost predicate Took(jobs: Jobs, b: Batch, e: BatchEvent, b': Batch) {
    EnabledBatch(jobs, b, e) && b' == NextBatch(jobs, b, e)
  }

  // Any steps of the runner and of every other tab, in any order, with any crashes and resumes.
  ghost predicate BatchRun(jobs: Jobs, bs: seq<Batch>, es: seq<BatchEvent>) {
    Path((b, e, b') => Took(jobs, b, e, b'), bs, es) && Saved(jobs, bs[0])
  }

  lemma SavedInv(jobs: Jobs, b: Batch)
    requires Saved(jobs, b)
    ensures BatchInv(jobs, b)
  {
    assert forall k | 0 <= k < |b.rounds| :: b.rounds[k] in b.rounds;
  }

  lemma TookKeepsInv(jobs: Jobs, b: Batch, e: BatchEvent, b': Batch)
    requires Took(jobs, b, e, b') && BatchInv(jobs, b)
    ensures BatchInv(jobs, b')
  {
    BatchStep(jobs, b, e);
  }

  lemma BatchRunKeepsInv(jobs: Jobs, bs: seq<Batch>, es: seq<BatchEvent>, k: nat)
    requires BatchRun(jobs, bs, es) && k < |bs|
    ensures BatchInv(jobs, bs[k])
  {
    forall b, e, b' | BatchInv(jobs, b) && Took(jobs, b, e, b') ensures BatchInv(jobs, b') {
      TookKeepsInv(jobs, b, e, b');
    }
    SavedInv(jobs, bs[0]);
    Along((b, e, b') => Took(jobs, b, e, b'), b => BatchInv(jobs, b), bs, es, 0, k);
  }

  // ---------------------------------------------------------------- traces

  lemma TracedBefore(jobs: Jobs, b: Batch, e: BatchEvent)
    requires BatchInv(jobs, b) && EnabledBatch(jobs, b, e) && Traced(jobs, NextBatch(jobs, b, e))
    ensures Traced(jobs, b)
  {
    if e.Env? || e.Own? {
      ProtocolRest(jobs, b, e);
      EventGrows(b.relayr, e.event, e.gone);
      GrownTraces(jobs, b, NextBatch(jobs, b, e));
    } else {
      LocalRest(jobs, b, e);
    }
  }

  lemma TookTraced(jobs: Jobs, b: Batch, e: BatchEvent, b': Batch)
    requires BatchInv(jobs, b) && Took(jobs, b, e, b') && Traced(jobs, b')
    ensures Traced(jobs, b)
  {
    TracedBefore(jobs, b, e);
  }

  lemma GrownTraces(jobs: Jobs, b: Batch, b': Batch)
    requires Grows(b.relayr, b'.relayr) && Traced(jobs, b')
    ensures Traced(jobs, b)
  {
  }

  lemma TracedEarlier(jobs: Jobs, bs: seq<Batch>, es: seq<BatchEvent>, m: nat, j: nat)
    requires BatchRun(jobs, bs, es) && m <= j < |bs| && Traced(jobs, bs[j])
    ensures Traced(jobs, bs[m])
  {
    if !Traced(jobs, bs[m]) {
      forall b, e, b' | BatchInv(jobs, b) && !Traced(jobs, b) && Took(jobs, b, e, b')
        ensures BatchInv(jobs, b') && !Traced(jobs, b')
      {
        TookKeepsInv(jobs, b, e, b');
        if Traced(jobs, b') {
          TookTraced(jobs, b, e, b');
        }
      }
      BatchRunKeepsInv(jobs, bs, es, m);
      Along((b, e, b') => Took(jobs, b, e, b'), b => BatchInv(jobs, b) && !Traced(jobs, b), bs, es, m, j);
    }
  }

  /** A funding traced in its row is the usual reason why payable bundles are over. */
  lemma TracedIsSettled(jobs: Jobs, b: Batch)
    requires BatchInv(jobs, b) && Traced(jobs, b)
    ensures Settled(jobs, b.relayr)
  {
    var r := b.relayr;
    forall u, j | j in jobs && Signed(r, u, j.callKey) && BundleId(u) in r.rows && Payable(r.rows[BundleId(u)])
      ensures AllOver(r.sends, u)
    {
      PayableIsOver(r, u);
    }
  }

  lemma SettledIsClear(jobs: Jobs, b: Batch)
    requires BatchInv(jobs, b) && Settled(jobs, b.relayr)
    ensures Clear(jobs, b.relayr)
  {
    var r := b.relayr;
    forall u, j | u in r.resolved && j in jobs && Signed(r, u, j.callKey) && BundleId(u) in r.rows
      ensures !Payable(r.rows[BundleId(u)])
    {
      ResolvedIsNotOver(r, u);
    }
  }

  /** So as long as every funding of these calls is traced in its row, they are in every state. */
  lemma TracedRunIsSettled(jobs: Jobs, bs: seq<Batch>, es: seq<BatchEvent>, m: nat, j: nat)
    requires BatchRun(jobs, bs, es) && m <= j < |bs| && Traced(jobs, bs[j])
    ensures Settled(jobs, bs[m].relayr) && Clear(jobs, bs[m].relayr)
  {
    TracedEarlier(jobs, bs, es, m, j);
    BatchRunKeepsInv(jobs, bs, es, m);
    TracedIsSettled(jobs, bs[m]);
    SettledIsClear(jobs, bs[m]);
  }

  // ---------------------------------------------------------------- one bundle a round

  // Before step `j` round `k` was never saved as ready or quoted with an executed bundle.
  ghost predicate Undisturbed(bs: seq<Batch>, j: nat, k: nat) {
    forall m: nat | m < j && m < |bs| :: !Preempted(bs[m], k)
  }

  ghost predicate TookUndisturbed(jobs: Jobs, b: Batch, e: BatchEvent, b': Batch, k: nat) {
    Took(jobs, b, e, b') && !Preempted(b, k)
  }

  lemma SavedSingle(jobs: Jobs, b: Batch, k: nat)
    requires Saved(jobs, b)
    ensures Single(b, k)
  {
    assert forall i | 0 <= i < |b.rounds| :: b.rounds[i] in b.rounds;
  }

  lemma UndisturbedRun(jobs: Jobs, bs: seq<Batch>, es: seq<BatchEvent>, j: nat, k: nat)
    requires BatchRun(jobs, bs, es) && j < |bs| && Undisturbed(bs, j, k)
    ensures Path((b, e, b') => TookUndisturbed(jobs, b, e, b', k), bs[..j + 1], es[..j])
  {
    forall m: nat | m < j ensures TookUndisturbed(jobs, bs[m], es[m], bs[m + 1], k) {
      assert Took(jobs, bs[m], es[m], bs[m + 1]);
    }
    Beginning((b, e, b') => TookUndisturbed(jobs, b, e, b', k), bs, es, j);
  }

  // One publication, and one bundle or else an executed one that the runner just took up.
  ghost predicate SingleOrTaken(b: Batch, k: nat) {
    Single(b, k) || (Preempted(b, k) && OnePublication(b.owner, k))
  }

  ghost predicate OnePublication(owner: map<nat, nat>, k: nat) {
    forall p, q | p in owner && q in owner && owner[p] == k && owner[q] == k :: p == q
  }

  lemma TookExecuted(jobs: Jobs, b: Batch, e: BatchEvent, b': Batch, k: nat)
    requires BatchInv(jobs, b) && Took(jobs, b, e, b') && TakesUpExecuted(b, e, k)
    ensures Preempted(b', k) && b'.owner == b.owner
  {
    TakenUpPreempts(jobs, b, e, k);
  }

  lemma UndisturbedStep(jobs: Jobs, b: Batch, e: BatchEvent, b': Batch, k: nat)
    requires BatchInv(jobs, b) && SingleOrTaken(b, k) && k < |jobs| && TookUndisturbed(jobs, b, e, b', k)
    ensures BatchInv(jobs, b') && SingleOrTaken(b', k)
  {
    BatchStep(jobs, b, e);
    if TakesUpExecuted(b, e, k) {
      TookExecuted(jobs, b, e, b', k);
    } else {
      SingleStep(jobs, b, e, k);
    }
  }

  /**
   Over every interleaving of crashes, resumes and other tabs, whatever was funded and refunded:
   up to the moment a round saved as ready or quoted has an executed bundle, all that was ever
   published, quoted or saved for the round is one publication and one bundle.
   */
  lemma RoundSingle(jobs: Jobs, bs: seq<Batch>, es: seq<BatchEvent>, j: nat, k: nat)
    requires BatchRun(jobs, bs, es) && j < |bs| && k < |jobs| && Undisturbed(bs, j, k)
    ensures Single(bs[j], k) || Preempted(bs[j], k)
    ensures OnePublication(bs[j].owner, k)
  {
    forall b, e, b' | BatchInv(jobs, b) && SingleOrTaken(b, k) && TookUndisturbed(jobs, b, e, b', k)
      ensures BatchInv(jobs, b') && SingleOrTaken(b', k)
    {
      UndisturbedStep(jobs, b, e, b', k);
    }
    SavedInv(jobs, bs[0]);
    SavedSingle(jobs, bs[0], k);
    UndisturbedRun(jobs, bs, es, j, k);
    Along((b, e, b') => TookUndisturbed(jobs, b, e, b', k), b => BatchInv(jobs, b) && SingleOrTaken(b, k),
          bs[..j + 1], es[..j], 0, j);
  }

  /** Then the executable signatures of a round are posted at most once over all resumes. */
  lemma RoundPublishedOnce(jobs: Jobs, bs: seq<Batch>, es: seq<BatchEvent>, j: nat, k: nat, p: nat, q: nat)
    requires BatchRun(jobs, bs, es) && j < |bs| && k < |jobs| && Undisturbed(bs, j, k)
    requires p in bs[j].owner && q in bs[j].owner && bs[j].owner[p] == k && bs[j].owner[q] == k
    ensures p == q
    ensures p < |bs[j].relayr.pubs| && bs[j].relayr.pubs[p].job == jobs[k]
  {
    BatchRunKeepsInv(jobs, bs, es, j);
    RoundSingle(jobs, bs, es, j, k);
  }

  lemma TookSaves(jobs: Jobs, b: Batch, e: BatchEvent, b': Batch, k: nat)
    requires Took(jobs, b, e, b') && k < |b.rounds| && b.rounds[k].bundle.Some? && Single(b, k)
    ensures |b'.rounds| == |b.rounds| && b'.rounds[k].bundle == b.rounds[k].bundle
  {
    SavedBundleStep(jobs, b, e, k);
  }

  // The saved bundle of a round changes only when a quote is saved, to the quote just got.
  lemma SavedBundleStep(jobs: Jobs, b: Batch, e: BatchEvent, k: nat)
    requires EnabledBatch(jobs, b, e) && k < |b.rounds| && b.rounds[k].bundle.Some? && Single(b, k)
    ensures var b' := NextBatch(jobs, b, e); |b'.rounds| == |b.rounds| && b'.rounds[k].bundle == b.rounds[k].bundle
  {
    if e.Env? || e.Own? {
      ProtocolRest(jobs, b, e);
    } else {
      var b' := NextBatch(jobs, b, e);
      SavedStays(jobs, b, e, k);
      LocalBundles(jobs, b, e, k, b'.rounds[k].bundle.value);
      assert OfRound(b, k, b.rounds[k].bundle.value);
    }
  }

  lemma SavedStays(jobs: Jobs, b: Batch, e: BatchEvent, k: nat)
    requires EnabledBatch(jobs, b, e) && Local(e) && k < |b.rounds| && b.rounds[k].bundle.Some?
    ensures |NextBatch(jobs, b, e).rounds| == |b.rounds| && NextBatch(jobs, b, e).rounds[k].bundle.Some?
  {
  }

  ghost predicate Holds(b: Batch, k: nat, u: Uuid) { k < |b.rounds| && b.rounds[k].bundle == Some(u) }

  ghost predicate Keeps(jobs: Jobs, b: Batch, k: nat, u: Uuid) {
    BatchInv(jobs, b) && SingleOrTaken(b, k) && Holds(b, k, u)
  }

  lemma HoldsStep(jobs: Jobs, b: Batch, e: BatchEvent, b': Batch, k: nat, u: Uuid)
    requires Keeps(jobs, b, k, u) && k < |jobs| && TookUndisturbed(jobs, b, e, b', k)
    ensures Keeps(jobs, b', k, u)
  {
    UndisturbedStep(jobs, b, e, b', k);
    TookSaves(jobs, b, e, b', k);
  }

  /** And then no round ever acquires a second bundle, across any number of crashes and resumes. */
  lemma RoundBundleNeverChanges(jobs: Jobs, bs: seq<Batch>, es: seq<BatchEvent>, i: nat, j: nat, k: nat)
    requires BatchRun(jobs, bs, es) && i <= j < |bs| && k < |jobs| && Undisturbed(bs, j, k)
    requires k < |bs[i].rounds| && bs[i].rounds[k].bundle.Some?
    ensures k < |bs[j].rounds| && bs[j].rounds[k].bundle == bs[i].rounds[k].bundle
  {
    var u := bs[i].rounds[k].bundle.value;
    forall b, e, b' | Keeps(jobs, b, k, u) && TookUndisturbed(jobs, b, e, b', k) ensures Keeps(jobs, b', k, u) {
      HoldsStep(jobs, b, e, b', k, u);
    }
    RoundSingle(jobs, bs, es, i, k);
    BatchRunKeepsInv(jobs, bs, es, i);
    UndisturbedRun(jobs, bs, es, j, k);
    Along((b, e, b') => TookUndisturbed(jobs, b, e, b', k), b => Keeps(jobs, b, k, u), bs[..j + 1], es[..j], i, j);
  }

  /**
   And then each round is paid at most once, whoever pays: two sends for its bundles that may
   still pay or did pay are for one bundle, which was funded from a row with a hash or from none.
   */
  lemma RoundPaidOnce(jobs: Jobs, bs: seq<Batch>, es: seq<BatchEvent>, j: nat, k: nat, m: nat, n: nat)
    requires BatchRun(jobs, bs, es) && j < |bs| && k < |jobs| && Undisturbed(bs, j + 1, k)
    requires var sends := bs[j].relayr.sends;
             && m < |sends| && n < |sends| && Live(sends[m]) && Live(sends[n])
             && OfRound(bs[j], k, sends[m].bundle) && OfRound(bs[j], k, sends[n].bundle)
    ensures var sends := bs[j].relayr.sends;
            sends[m].bundle == sends[n].bundle && (m == n || sends[m].bundle in bs[j].relayr.tainted)
  {
    RoundSingle(jobs, bs, es, j, k);
    BatchRunKeepsInv(jobs, bs, es, j);
    UntilTainted(bs[j].relayr, bs[j].relayr.sends[m].bundle);
  }

  // ---------------------------------------------------------------- exactly when

  /**
   The quote a resumed round gets is its saved bundle exactly when that bundle was not executed,
   which the saved row tells: it can still be funded. This needs that no executed bundle of
   these calls can be funded again; `BatchReached.ExecutedIsTakenUp` is the run where one can.
   */
  lemma ReuseIsOurs(jobs: Jobs, b: Batch, e: Event, gone: set<Id>, k: nat, u: Uuid)
    requires BatchInv(jobs, b) && EnabledBatch(jobs, b, Own(e, gone)) && (e.Reuse? || e.AuthReceive?)
    requires Clear(jobs, b.relayr)
    requires k < |b.rounds| && b.runner.value.pc.Quoting? && b.runner.value.pc.k == k && b.rounds[k].bundle == Some(u)
    ensures e.uuid == u <==> u !in b.relayr.resolved
    ensures e.uuid == u <==> RowPayable(b.relayr, b.rounds[k].bundle)
  {
    var r := b.relayr;
    assert OfRound(b, k, u);
    OfRoundSigned(jobs, b, k, u);
    assert jobs[k] in jobs;
    if e.Reuse? {
      ReusedSigned(r, e.job, e.uuid);
      if u !in r.resolved {
        SameOpen(r, u, e.uuid, jobs[k].callKey);
      }
    } else {
      FreshIsAlone(r, u, r.authorizing[e.account].pc.pub, jobs[k].callKey);
    }
  }

  ghost predicate TookUnfunded(jobs: Jobs, b: Batch, e: BatchEvent, b': Batch) {
    Took(jobs, b, e, b') && Settled(jobs, b.relayr) && !FundedElsewhere(jobs, e)
  }

  ghost predicate Unexecuted(jobs: Jobs, b: Batch, k: nat) {
    BatchInv(jobs, b) && Single(b, k) && NotPaid(b, k)
  }

  lemma UnfundedRunStep(jobs: Jobs, b: Batch, e: BatchEvent, b': Batch, k: nat)
    requires Unexecuted(jobs, b, k) && k < |jobs| && TookUnfunded(jobs, b, e, b')
    ensures Unexecuted(jobs, b', k)
  {
    UnfundedNotPreempted(b, k);
    UnfundedStep(jobs, b, e, k);
    UnfundedNotPreempted(b', k);
    UndisturbedStep(jobs, b, e, b', k);
  }

  /**
   A round saved as ready or quoted is executed only by a payment from elsewhere: as long as
   only the runner asks the wallet to fund these calls, and bundles that can be funded are over,
   it never happens, in any run.
   */
  lemma OnlyPaidElsewhere(jobs: Jobs, bs: seq<Batch>, es: seq<BatchEvent>, j: nat, k: nat)
    requires BatchRun(jobs, bs, es) && j < |bs| && k < |jobs|
    requires forall m: nat | m < j :: Settled(jobs, bs[m].relayr) && !FundedElsewhere(jobs, es[m])
    ensures Undisturbed(bs, j + 1, k)
  {
    forall m: nat | m <= j ensures !Preempted(bs[m], k) {
      UnfundedRun(jobs, bs, es, m, k);
      UnfundedNotPreempted(bs[m], k);
    }
  }

  lemma UnfundedRun(jobs: Jobs, bs: seq<Batch>, es: seq<BatchEvent>, j: nat, k: nat)
    requires BatchRun(jobs, bs, es) && j < |bs| && k < |jobs|
    requires forall m: nat | m < j :: Settled(jobs, bs[m].relayr) && !FundedElsewhere(jobs, es[m])
    ensures NotPaid(bs[j], k)
  {
    forall b, e, b' | Unexecuted(jobs, b, k) && TookUnfunded(jobs, b, e, b') ensures Unexecuted(jobs, b', k) {
      UnfundedRunStep(jobs, b, e, b', k);
    }
    SavedInv(jobs, bs[0]);
    SavedSingle(jobs, bs[0], k);
    assert NotPaid(bs[0], k) by {
      assert forall i | 0 <= i < |bs[0].rounds| :: bs[0].rounds[i] in bs[0].rounds;
    }
    forall m: nat | m < j ensures TookUnfunded(jobs, bs[m], es[m], bs[m + 1]) {
      assert Took(jobs, bs[m], es[m], bs[m + 1]);
    }
    Beginning((b, e, b') => TookUnfunded(jobs, b, e, b'), bs, es, j);
    Along((b, e, b') => TookUnfunded(jobs, b, e, b'), b => Unexecuted(jobs, b, k), bs[..j + 1], es[..j], 0, j);
  }

  // ---------------------------------------------------------------- order and completion

  /**
   Successful rounds form a prefix: a round that was published or saved with anything but its
   first state has only confirmed rounds before it, each with a bundle whose funding was
   verified as paid and whose destination calls were verified as executed.
   */
  lemma RoundsInOrder(jobs: Jobs, bs: seq<Batch>, es: seq<BatchEvent>, k: nat, i: nat, j: nat)
    requires BatchRun(jobs, bs, es) && k < |bs| && i < j < |bs[k].rounds|
    requires !bs[k].rounds[j].state.RoundReady? || exists p :: p in bs[k].owner && bs[k].owner[p] == j
    ensures bs[k].rounds[i].state.RoundSuccess?
    ensures Executed(bs[k].relayr, bs[k].rounds[i].bundle)
  {
    BatchRunKeepsInv(jobs, bs, es, k);
    var b := bs[k];
    assert Before(b.rounds, j);
    SuccessIsExecuted(b, i);
  }

  predicate Executed(r: State, bundle: Option<Uuid>) {
    && bundle.Some? && bundle.value in r.resolved
    && var n := r.resolved[bundle.value];
       n < |r.sends| && r.sends[n] == Send(bundle.value, Some(true), VerifiedPaid)
  }

  lemma SuccessIsExecuted(b: Batch, i: nat)
    requires RoundsOk(b.rounds, b.owner, b.relayr.resolved) && i < |b.rounds| && b.rounds[i].state.RoundSuccess?
    requires ResolvedOk(b.relayr.resolved, b.relayr.sends) && SendsOk(b.relayr.sends, b.relayr.issued)
    ensures Executed(b.relayr, b.rounds[i].bundle)
  {
    assert SendOk(b.relayr.sends[b.relayr.resolved[b.rounds[i].bundle.value]], b.relayr.issued);
  }

  /** A batch is reported as a success only when every round was executed. */
  lemma FinishedIsExecuted(jobs: Jobs, bs: seq<Batch>, es: seq<BatchEvent>, k: nat)
    requires BatchRun(jobs, bs, es) && k < |bs| && bs[k].finished
    ensures forall x | x in bs[k].rounds :: x.state.RoundSuccess? && Executed(bs[k].relayr, x.bundle)
  {
    BatchRunKeepsInv(jobs, bs, es, k);
    var b := bs[k];
    forall x | x in b.rounds ensures x.state.RoundSuccess? && Executed(b.relayr, x.bundle) {
      var i :| 0 <= i < |b.rounds| && b.rounds[i] == x;
      SuccessIsExecuted(b, i);
    }
  }

  // ---------------------------------------------------------------- discarding

  // Every request of a batch carries a recovery scope (the call's own or one of its position).
  ghost predicate Scoped(jobs: Jobs) {
    forall j | j in jobs :: |j.requests| > 0 && forall q | q in j.requests :: q.scope.Some?
  }

  ghost predicate NothingOpen(owner: map<nat, nat>, pubs: seq<Publication>, resolved: map<Uuid, nat>) {
    forall p: nat | p in owner && p < |pubs| :: !Open(pubs[p], resolved)
  }

  lemma FirstScope(job: Job)
    requires JobOk(job) && |job.requests| > 0 && job.requests[0].scope.Some?
    ensures ScopeKey(job.account, job.requests[0].scope.value) in job.keys
  {
  }

  lemma OpenHoldsScope(r: State, p: Publication)
    requires Reserved(r.rows, r.pubs, r.resolved) && p in r.pubs && Open(p, r.resolved)
    requires JobOk(p.job) && |p.job.requests| > 0 && p.job.requests[0].scope.Some?
    ensures !ScopeAvailable(r.rows, p.job.account, p.job.requests[0].scope.value)
  {
    FirstScope(p.job);
    assert HoldsScope(r.rows[Holder(p)], p.job.account, p.job.requests[0].scope.value);
  }

  lemma DiscardLeavesNothingOpen(jobs: Jobs, b: Batch)
    requires BatchInv(jobs, b) && Scoped(jobs) && CanDiscard(jobs, b)
    ensures NothingOpen(b.owner, b.relayr.pubs, b.relayr.resolved) && Untouched(b.rounds)
  {
    var r := b.relayr;
    forall x | x in b.rounds ensures x == Round(RoundReady, None) {
      var i: nat :| i < |b.rounds| && b.rounds[i] == x;
    }
    forall p: nat | p in b.owner && p < |r.pubs| ensures !Open(r.pubs[p], r.resolved) {
      var job := jobs[b.owner[p]];
      assert job in jobs && job.requests[0] in job.requests;
      assert ScopeAvailable(r.rows, job.account, job.requests[0].scope.value);
      if Open(r.pubs[p], r.resolved) {
        OpenHoldsScope(r, r.pubs[p]);
      }
    }
  }

  // No round was ever quoted.
  predicate Untouched(rounds: seq<Round>) { forall x | x in rounds :: x == Round(RoundReady, None) }

  ghost predicate Gone(b: Batch) {
    b.removed ==> b.runner.None? && NothingOpen(b.owner, b.relayr.pubs, b.relayr.resolved) && Untouched(b.rounds)
  }

  lemma GrownNothingOpen(owner: map<nat, nat>, r: State, r': State)
    requires (forall p | p in owner :: p < |r.pubs|) && Grows(r, r') && NothingOpen(owner, r.pubs, r.resolved)
    ensures NothingOpen(owner, r'.pubs, r'.resolved)
  {
  }

  lemma RemovedStep(jobs: Jobs, b: Batch, e: BatchEvent)
    requires EnabledBatch(jobs, b, e) && (b.removed ==> b.runner.None?) && !e.Discard?
    ensures NextBatch(jobs, b, e).removed == b.removed
    ensures b.removed ==> e.Env? && NextBatch(jobs, b, e).runner.None? && NextBatch(jobs, b, e).owner == b.owner
    ensures b.removed ==> NextBatch(jobs, b, e).rounds == b.rounds
  {
  }

  lemma GoneStep(jobs: Jobs, b: Batch, e: BatchEvent, b': Batch)
    requires BatchInv(jobs, b) && Scoped(jobs) && Gone(b) && Took(jobs, b, e, b')
    ensures Gone(b')
  {
    if e.Discard? {
      DiscardLeavesNothingOpen(jobs, b);
    } else {
      RemovedStep(jobs, b, e);
      if b.removed {
        ProtocolRest(jobs, b, e);
        EventGrows(b.relayr, e.event, e.gone);
        GrownNothingOpen(b.owner, b.relayr, b'.relayr);
      }
    }
  }

  /**
   A batch leaves the journal only when no round of it was quoted and none of its signatures is
   outstanding, and this stays so: from then on, in every later state, everything it ever
   published was verified as executed.
   */
  lemma RemovedMeansNothingOpen(jobs: Jobs, bs: seq<Batch>, es: seq<BatchEvent>, k: nat)
    requires BatchRun(jobs, bs, es) && Scoped(jobs) && k < |bs|
    ensures bs[k].removed ==>
              Untouched(bs[k].rounds) && NothingOpen(bs[k].owner, bs[k].relayr.pubs, bs[k].relayr.resolved)
  {
    forall b, e, b' | BatchInv(jobs, b) && Gone(b) && Took(jobs, b, e, b') ensures BatchInv(jobs, b') && Gone(b') {
      TookKeepsInv(jobs, b, e, b');
      GoneStep(jobs, b, e, b');
    }
    SavedInv(jobs, bs[0]);
    Along((b, e, b') => Took(jobs, b, e, b'), b => BatchInv(jobs, b) && Gone(b), bs, es, 0, k);
  }
}
