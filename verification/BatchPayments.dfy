/**
 The runner pays what it saved.

 While its own payment of a round is running, the funding in flight is its own and is that of the
 bundle the round is saved with: only its own steps or the death of its tab end that funding, and
 it begins one only for the saved bundle. So in every run each of its wallet requests is for that
 bundle (`RunnerPaysSaved`).
 */
module BatchPayments {
  import opened Prelude
  import opened Runs
  import opened Identities
  import opened RelayrProtocol
  import opened RelayrRuns
  import opened BatchRunner
  import opened BatchRuns

  ghost predicate PaysSaved(jobs: Jobs, b: Batch) {
    b.runner.Some? && b.runner.value.pc.Paying? && b.runner.value.pc.busy ==>
      var k := b.runner.value.pc.k;
      && k < |jobs| && k < |b.rounds| && IsFunding(b.relayr, jobs[k].callKey, b.runner.value.tab, b.rounds[k].bundle)
  }

  ghost predicate IsFunding(r: State, ck: CallKey, t: TabId, u: Option<Uuid>) {
    ck in r.funding && r.funding[ck].tab == t && Some(r.funding[ck].quote.bundle) == u
  }

  lemma CommitStays(r: State, e: Event, gone: set<Id>, ck: CallKey, t: TabId, u: Option<Uuid>)
    requires Enabled(r, e, gone) && IsFunding(r, ck, t, u) && e.FundCommit? && Crashed(r, e) != Some(t)
    ensures IsFunding(Next(r, e, gone), ck, t, u)
  {
  }

  lemma FundingStays(r: State, e: Event, gone: set<Id>, ck: CallKey, t: TabId, u: Option<Uuid>)
    requires Enabled(r, e, gone) && IsFunding(r, ck, t, u)
    requires e.FundBegin? || e.FundAbort? || e.FundReject? || e.FundUncertain? || e.FundHash? || e.FundEnd?
    requires AboutFunding(e, ck) ==> e.FundHash?
    ensures IsFunding(Next(r, e, gone), ck, t, u)
  {
  }

  lemma SigningStays(r: State, e: Event, gone: set<Id>, ck: CallKey, t: TabId, u: Option<Uuid>)
    requires Enabled(r, e, gone) && IsFunding(r, ck, t, u) && Crashed(r, e) != Some(t)
    requires e.Reuse? || e.AuthBegin? || e.AuthPublish? || e.AuthReceive? || e.AuthAbort?
    ensures IsFunding(Next(r, e, gone), ck, t, u)
  {
  }

  lemma VerifyStays(r: State, tab: TabId, v: Uuid, gone: set<Id>, ck: CallKey, t: TabId, u: Option<Uuid>)
    requires CanVerify(r, v) && IsFunding(r, ck, t, u)
    ensures IsFunding(DoVerify(r, tab, v, gone), ck, t, u)
  {
  }

  lemma OtherStays(r: State, e: Event, gone: set<Id>, ck: CallKey, t: TabId, u: Option<Uuid>)
    requires Enabled(r, e, gone) && IsFunding(r, ck, t, u) && Crashed(r, e) != Some(t)
    requires e.Mine? || e.PollStatus? || e.PollSuccess? || e.UserDismiss? || e.Foreign? || e.Crash?
    ensures IsFunding(Next(r, e, gone), ck, t, u)
  {
  }

  // A funding stays in flight through every step that is not its end and not the death of its tab.
  lemma FundingKept(r: State, e: Event, gone: set<Id>, ck: CallKey, t: TabId, u: Option<Uuid>)
    requires Enabled(r, e, gone) && IsFunding(r, ck, t, u) && Crashed(r, e) != Some(t)
    requires AboutFunding(e, ck) ==> e.FundHash? || e.FundCommit?
    ensures IsFunding(Next(r, e, gone), ck, t, u)
  {
    if e.FundCommit? {
      CommitStays(r, e, gone, ck, t, u);
    } else if e.FundBegin? || e.FundAbort? || e.FundReject? || e.FundUncertain? || e.FundHash? || e.FundEnd? {
      FundingStays(r, e, gone, ck, t, u);
    } else if e.Reuse? || e.AuthBegin? || e.AuthPublish? || e.AuthReceive? || e.AuthAbort? {
      SigningStays(r, e, gone, ck, t, u);
    } else if e.VerifyPayment? {
      VerifyStays(r, e.tab, e.uuid, gone, ck, t, u);
    } else {
      OtherStays(r, e, gone, ck, t, u);
    }
  }

  lemma EnvPays(jobs: Jobs, b: Batch, e: Event, gone: set<Id>)
    requires PaysSaved(jobs, b) && Enabled(b.relayr, e, gone) && !OwnCall(jobs, b, e)
    ensures PaysSaved(jobs, b.(relayr := Next(b.relayr, e, gone), runner := Survivor(b, e)))
  {
    if b.runner.Some? && b.runner.value.pc.Paying? && b.runner.value.pc.busy && Survivor(b, e).Some? {
      var k := b.runner.value.pc.k;
      FundingKept(b.relayr, e, gone, jobs[k].callKey, b.runner.value.tab, b.rounds[k].bundle);
    }
  }

  lemma BeginPays(jobs: Jobs, b: Batch, t: TabId, u: Uuid, gone: set<Id>)
    requires BatchInv(jobs, b) && CanOwn(jobs, b, FundBegin(t, u)) && Enabled(b.relayr, FundBegin(t, u), gone)
    ensures PaysSaved(jobs, OwnStep(b, FundBegin(t, u), gone))
  {
    assert b.relayr.quotes[(t, u)].bundle == u;
  }

  // The payment goes on.
  lemma PayingGoesOn(jobs: Jobs, b: Batch, e: Event, gone: set<Id>)
    requires PaysSaved(jobs, b) && CanOwn(jobs, b, e) && Enabled(b.relayr, e, gone)
    requires e.FundCommit? || e.FundHash?
    ensures PaysSaved(jobs, OwnStep(b, e, gone))
  {
    if Survivor(b, e).Some? {
      var k := b.runner.value.pc.k;
      FundingKept(b.relayr, e, gone, jobs[k].callKey, b.runner.value.tab, b.rounds[k].bundle);
    }
  }

  // After any other step of its own the runner does not pay.
  lemma NotPaying(jobs: Jobs, b: Batch, e: Event, gone: set<Id>)
    requires CanOwn(jobs, b, e) && Enabled(b.relayr, e, gone) && !e.FundBegin? && !e.FundCommit? && !e.FundHash?
    ensures PaysSaved(jobs, OwnStep(b, e, gone))
  {
  }

  lemma OwnPays(jobs: Jobs, b: Batch, e: Event, gone: set<Id>)
    requires BatchInv(jobs, b) && PaysSaved(jobs, b) && CanOwn(jobs, b, e) && Enabled(b.relayr, e, gone)
    ensures PaysSaved(jobs, OwnStep(b, e, gone))
  {
    if e.FundBegin? {
      BeginPays(jobs, b, e.tab, e.uuid, gone);
    } else if e.FundCommit? || e.FundHash? {
      PayingGoesOn(jobs, b, e, gone);
    } else {
      NotPaying(jobs, b, e, gone);
    }
  }

  // A step of the runner between its calls.
  lemma BetweenPays(jobs: Jobs, b: Batch, e: BatchEvent)
    requires EnabledBatch(jobs, b, e) && !e.Env? && !e.Own?
    ensures PaysSaved(jobs, NextBatch(jobs, b, e))
  {
  }

  lemma TookPays(jobs: Jobs, b: Batch, e: BatchEvent, b': Batch)
    requires BatchInv(jobs, b) && PaysSaved(jobs, b) && Took(jobs, b, e, b')
    ensures PaysSaved(jobs, b')
  {
    match e
    case Env(f, gone) => EnvPays(jobs, b, f, gone);
    case Own(f, gone) => OwnPays(jobs, b, f, gone);
    case _ => BetweenPays(jobs, b, e);
  }

  /**
   In every run, whenever the runner asks the wallet in its round, it asks for the bundle that the
   round is saved with.
   */
  lemma RunnerPaysSaved(jobs: Jobs, bs: seq<Batch>, es: seq<BatchEvent>, j: nat)
    requires BatchRun(jobs, bs, es) && j < |es| && es[j].Own? && Asks(es[j].event)
    ensures var b := bs[j];
            && Place(b).Some? && Place(b).value.Paying? && Place(b).value.k < |b.rounds|
            && b.rounds[Place(b).value.k].bundle.Some?
            && bs[j + 1].relayr.sends
               == b.relayr.sends + [Send(b.rounds[Place(b).value.k].bundle.value, None, Unsettled)]
  {
    var run := (b, e, b') => Took(jobs, b, e, b');
    var good := b => BatchInv(jobs, b) && PaysSaved(jobs, b);
    SavedInv(jobs, bs[0]);
    forall b, e, b' | good(b) && run(b, e, b') ensures good(b') {
      TookKeepsInv(jobs, b, e, b');
      TookPays(jobs, b, e, b');
    }
    Along(run, good, bs, es, 0, j);
    assert run(bs[j], es[j], bs[j + 1]);
    AskedSaved(jobs, bs[j], es[j].event, es[j].gone);
  }

  lemma AskedSaved(jobs: Jobs, b: Batch, e: Event, gone: set<Id>)
    requires PaysSaved(jobs, b) && CanOwn(jobs, b, e) && Enabled(b.relayr, e, gone) && Asks(e)
    ensures Place(b).Some? && Place(b).value.Paying? && Place(b).value.k < |b.rounds|
    ensures b.rounds[Place(b).value.k].bundle.Some?
    ensures OwnStep(b, e, gone).relayr.sends
         == b.relayr.sends + [Send(b.rounds[Place(b).value.k].bundle.value, None, Unsettled)]
  {
  }
}
