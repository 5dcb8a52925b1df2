/**
 Where a resumed round goes (web/src/hooks/useMultichainBatch.ts:310-418): what is quoted again and
 what is waited for, and runs of the runner's own steps from a round that was saved as funding and
 never paid to the next wallet request for the same bundle, and on to the next round.
 */
module BatchResumes {
  import opened Prelude
  import opened Runs
  import opened Identities
  import opened ActivityStore
  import opened RelayrProtocol
  import opened RelayrRuns
  import opened RelayrReached
  import opened BatchRunner
  import opened BatchRuns
  import opened BatchLimits
  import opened BatchReached

  // The row of a saved bundle says that it still is to be paid.
  predicate SaysUnpaid(rows: Rows, bundle: Option<Uuid>) {
    && bundle.Some? && BundleId(bundle.value) in rows
    && (rows[BundleId(bundle.value)].pay == Some(Unfunded) || rows[BundleId(bundle.value)].pay == Some(Reverted))
  }

  // The runner is here, and of the rounds only round `k` may differ.
  predicate Moved(b: Batch, b': Batch, k: nat, x: Round, pc: Option<Pc>)
    requires k < |b.rounds|
  {
    && b'.rounds == b.rounds[k := x] && Place(b') == pc
    && (b'.runner.Some? && b.runner.Some? ==> b'.runner.value.tab == b.runner.value.tab)
    && b'.relayr == b.relayr && b'.owner == b.owner && b'.removed == b.removed && b'.finished == b.finished
  }

  /**
   Where a round goes when it is its turn. A success is skipped; a round that is ready or quoted
   is quoted; a pending one is waited for. A round saved as funding falls back to its quote if
   and only if the row of its bundle says that it is unfunded or that its payment reverted, and
   is waited for otherwise.
   */
  lemma EnterStep(jobs: Jobs, b: Batch, k: nat)
    requires k < |b.rounds| && Place(b) == Some(Top(k))
    ensures EnabledBatch(jobs, b, Enter)
    ensures var b', x := NextBatch(jobs, b, Enter), b.rounds[k];
            match x.state
            case RoundSuccess => Moved(b, b', k, x, Some(Top(k + 1)))
            case RoundReady => Moved(b, b', k, x, Some(Quoting(k, false)))
            case RoundQuoted => Moved(b, b', k, x, Some(Quoting(k, false)))
            case RoundPending => Moved(b, b', k, x, Some(Waiting(k)))
            case RoundFunding =>
              if SaysUnpaid(b.relayr.rows, x.bundle)
              then Moved(b, b', k, Round(RoundQuoted, x.bundle), Some(Quoting(k, false)))
              else Moved(b, b', k, x, Some(Waiting(k)))
  {
    assert b.rounds[k := b.rounds[k]] == b.rounds;
  }

  /** After an error of the payment the round is quoted again exactly in the same case. */
  lemma BackOffStep(jobs: Jobs, b: Batch, k: nat)
    requires k < |b.rounds| && Place(b) == Some(Paying(k, false))
    ensures EnabledBatch(jobs, b, BackOff)
    ensures var b', x := NextBatch(jobs, b, BackOff), b.rounds[k];
            Moved(b, b', k, if SaysUnpaid(b.relayr.rows, x.bundle) then Round(RoundQuoted, x.bundle) else x, None)
  {
    assert b.rounds[k := b.rounds[k]] == b.rounds;
  }

  /** When the runner's own call ends, however it does, the runner goes on in the same round. */
  lemma OwnCallEnds(jobs: Jobs, b: Batch, e: Event, gone: set<Id>, k: nat)
    requires EnabledBatch(jobs, b, Own(e, gone)) && Place(b).Some? && Place(b).value.k == k
    requires e.AuthAbort? || e.FundAbort? || e.FundReject? || e.FundUncertain? || e.FundEnd?
    ensures var b' := NextBatch(jobs, b, Own(e, gone));
            b'.rounds == b.rounds && Place(b') == Some(if e.AuthAbort? then Quoting(k, false) else Paying(k, false))
  {
  }

  /**
   How a run ends: with every round a success the batch is finished, after a discard it has left
   the journal, and after an error it stays there with its rounds as they were saved.
   */
  lemma RunnerEnds(jobs: Jobs, b: Batch, e: BatchEvent)
    requires BatchInv(jobs, b) && EnabledBatch(jobs, b, e) && (e.Finish? || e.Discard? || e.Exit?)
    ensures var b' := NextBatch(jobs, b, e);
            && b'.runner.None? && b'.rounds == b.rounds && b'.relayr == b.relayr
            && b'.finished == (b.finished || e.Finish?) && b'.removed == (b.removed || e.Discard?)
    ensures e.Finish? ==> forall x | x in b.rounds :: x.state.RoundSuccess?
  {
  }

  /** A runner ends with its tab, and its rounds stay as they were saved. */
  lemma RunnerDies(jobs: Jobs, b: Batch, t: TabId, gone: set<Id>)
    requires Enabled(b.relayr, Crash(t), gone)
    ensures EnabledBatch(jobs, b, Env(Crash(t), gone))
    ensures var b' := NextBatch(jobs, b, Env(Crash(t), gone));
            && b'.rounds == b.rounds && b'.removed == b.removed && b'.finished == b.finished
            && b'.runner == if b.runner.Some? && b.runner.value.tab == t then None else b.runner
  {
  }

  /** It also ends with a tab that dies within its own authorization. */
  lemma RunnerDiesSigning(jobs: Jobs, b: Batch, e: Event, gone: set<Id>)
    requires EnabledBatch(jobs, b, Own(e, gone)) && ((e.AuthPublish? && !e.posted) || (e.AuthReceive? && !e.tidied))
    ensures NextBatch(jobs, b, Own(e, gone)).runner.None? && NextBatch(jobs, b, Own(e, gone)).rounds == b.rounds
  {
  }

  // ---------------------------------------------------------------- to the wallet request

  // A round that was saved as funding and not paid, at its turn: its quote can be taken up
  // again, and nothing stands in the way of its payment.
  ghost predicate Unfinished(jobs: Jobs, b: Batch, k: nat, u: Uuid) {
    && k < |jobs| && k < |b.rounds| && JobOk(jobs[k]) && Place(b) == Some(Top(k))
    && b.rounds[k] == Round(RoundFunding, Some(u)) && CanBePaid(jobs[k], b.relayr, b.runner.value.tab, u)
  }

  ghost predicate CanBePaid(job: Job, r: State, t: TabId, u: Uuid) {
    && SaysUnpaid(r.rows, Some(u)) && r.rows[BundleId(u)].bundle == Some(u)
    && r.rows[BundleId(u)].quoted && r.rows[BundleId(u)].callKey == Some(job.callKey)
    && job.account !in r.authorizing && job.callKey !in r.funding && (t, u) !in r.funded
    && Unblocked(r.rows, Some(u), job.callKey, job.keys)
  }

  lemma TakingIsAllowed(job: Job, r: State, t: TabId, u: Uuid)
    requires JobOk(job) && CanBePaid(job, r, t, u)
    ensures CanReuse(r, job, u)
    ensures var s := DoReuse(r, t, job, u, {});
            && CanFundBegin(s, t, u) && s.quotes[(t, u)] == Quote(u, job.account, job.callKey, job.keys)
            && s.sends == r.sends && s.pubs == r.pubs
  {
    var s := DoReuse(r, t, job, u, {});
    forall id | id in s.rows ensures !Blocks(s.rows[id], Some(u), job.callKey, job.keys) {
      assert id != BundleId(u) ==> !Blocks(r.rows[id], Some(u), job.callKey, job.keys);
    }
  }

  lemma SavesFunding(jobs: Jobs, b: Batch, k: nat) returns (b': Batch)
    requires k < |b.rounds| && Place(b) == Some(Choosing(k))
    ensures Took(jobs, b, SaveFunding, b')
    ensures b' == Move(b, Paying(k, false)).(rounds := b.rounds[k := Round(RoundFunding, b.rounds[k].bundle)])
  {
    b' := NextBatch(jobs, b, SaveFunding);
  }

  lemma BeginsPaying(jobs: Jobs, b: Batch, k: nat, u: Uuid) returns (b': Batch)
    requires k < |jobs| && k < |b.rounds| && Place(b) == Some(Paying(k, false)) && b.rounds[k].bundle == Some(u)
    requires CanFundBegin(b.relayr, b.runner.value.tab, u)
    requires b.relayr.quotes[(b.runner.value.tab, u)].callKey == jobs[k].callKey
    ensures Took(jobs, b, Own(FundBegin(b.runner.value.tab, u), {}), b')
    ensures b' == Move(b, Paying(k, true)).(relayr := DoFundBegin(b.relayr, b.runner.value.tab, u))
  {
    b' := OwnStep(b, FundBegin(b.runner.value.tab, u), {});
  }

  lemma AsksWallet(jobs: Jobs, b: Batch, k: nat) returns (b': Batch)
    requires k < |jobs| && Place(b) == Some(Paying(k, true)) && CanFundCommit(b.relayr, jobs[k].callKey)
    ensures Took(jobs, b, Own(FundCommit(jobs[k].callKey, true), {}), b')
    ensures b' == b.(relayr := DoFundCommit(b.relayr, jobs[k].callKey, true, {}))
  {
    b' := OwnStep(b, FundCommit(jobs[k].callKey, true), {});
  }

  lemma FallsBack(jobs: Jobs, b: Batch, k: nat, u: Uuid) returns (b': Batch)
    requires k < |b.rounds| && Place(b) == Some(Top(k)) && b.rounds[k] == Round(RoundFunding, Some(u))
    requires SaysUnpaid(b.relayr.rows, Some(u))
    ensures Took(jobs, b, Enter, b')
    ensures b' == Move(b, Quoting(k, false)).(rounds := b.rounds[k := Round(RoundQuoted, Some(u))])
  {
    EnterStep(jobs, b, k);
    b' := NextBatch(jobs, b, Enter);
  }

  // The runner's own steps to the request.
  function PayingAgain(t: TabId, job: Job, u: Uuid): seq<BatchEvent> {
    [Enter, Own(Reuse(t, job, u), {}), SaveQuoted, SaveFunding, Own(FundBegin(t, u), {}),
     Own(FundCommit(job.callKey, true), {})]
  }

  // The wallet is asked for round `k` with this send.
  ghost predicate Asking(jobs: Jobs, b: Batch, k: nat, u: Uuid, n: nat) {
    && k < |jobs| && k < |b.rounds| && Place(b) == Some(Paying(k, true)) && b.rounds[k] == Round(RoundFunding, Some(u))
    && n < |b.relayr.sends| && b.relayr.sends[n] == Send(u, None, Unsettled)
    && jobs[k].callKey in b.relayr.funding
    && b.relayr.funding[jobs[k].callKey].tab == b.runner.value.tab
    && b.relayr.funding[jobs[k].callKey].quote.bundle == u && b.relayr.funding[jobs[k].callKey].pc == Sent(n)
    && BundleId(u) in b.relayr.rows
  }

  lemma AskedNow(job: Job, r: State, t: TabId, u: Uuid)
    requires JobOk(job) && CanBePaid(job, r, t, u)
    ensures CanReuse(r, job, u) && CanFundBegin(DoReuse(r, t, job, u, {}), t, u)
    ensures DoReuse(r, t, job, u, {}).quotes[(t, u)].callKey == job.callKey
    ensures CanFundCommit(DoFundBegin(DoReuse(r, t, job, u, {}), t, u), job.callKey)
    ensures var s := DoFundCommit(DoFundBegin(DoReuse(r, t, job, u, {}), t, u), job.callKey, true, {});
            && s.sends == r.sends + [Send(u, None, Unsettled)] && BundleId(u) in s.rows
            && job.callKey in s.funding
            && s.funding[job.callKey] == Funding(t, Quote(u, job.account, job.callKey, job.keys), Sent(|r.sends|))
  {
    TakingIsAllowed(job, r, t, u);
  }

  lemma BackToFunding(rounds: seq<Round>, k: nat, u: Uuid)
    requires k < |rounds| && rounds[k] == Round(RoundFunding, Some(u))
    ensures var quoted := rounds[k := Round(RoundQuoted, Some(u))];
            quoted[k := Round(RoundQuoted, Some(u))] == quoted && quoted[k := Round(RoundFunding, Some(u))] == rounds
  {
  }

  // The states up to the saved funding.
  lemma ToFunding(jobs: Jobs, b: Batch, k: nat, u: Uuid) returns (b1: Batch, b2: Batch, b3: Batch, b4: Batch)
    requires Unfinished(jobs, b, k, u) && CanReuse(b.relayr, jobs[k], u)
    ensures var t := b.runner.value.tab;
            && Took(jobs, b, Enter, b1) && Took(jobs, b1, Own(Reuse(t, jobs[k], u), {}), b2)
            && Took(jobs, b2, SaveQuoted, b3) && Took(jobs, b3, SaveFunding, b4)
            && b4 == Move(b, Paying(k, false)).(relayr := DoReuse(b.relayr, t, jobs[k], u, {}))
  {
    BackToFunding(b.rounds, k, u);
    b1 := FallsBack(jobs, b, k, u);
    b2 := TakesUp(jobs, b1, k, u);
    b3 := SavesRound(jobs, b2, k, u);
    b4 := SavesFunding(jobs, b3, k);
  }

  // And on to the wallet.
  lemma FromFunding(jobs: Jobs, b: Batch, k: nat, u: Uuid, b4: Batch) returns (b5: Batch, b6: Batch)
    requires Unfinished(jobs, b, k, u) && CanReuse(b.relayr, jobs[k], u)
    requires b4 == Move(b, Paying(k, false)).(relayr := DoReuse(b.relayr, b.runner.value.tab, jobs[k], u, {}))
    ensures Took(jobs, b4, Own(FundBegin(b.runner.value.tab, u), {}), b5)
    ensures Took(jobs, b5, Own(FundCommit(jobs[k].callKey, true), {}), b6)
    ensures Asking(jobs, b6, k, u, |b.relayr.sends|) && b6.rounds == b.rounds
    ensures b6.relayr.sends == b.relayr.sends + [Send(u, None, Unsettled)]
  {
    AskedNow(jobs[k], b.relayr, b.runner.value.tab, u);
    b5 := BeginsPaying(jobs, b4, k, u);
    b6 := AsksWallet(jobs, b5, k);
  }

  /**
   A resumed round is paid. Whenever a round saved as funding was not paid, for example because
   the tab died before it asked the wallet, its quote is still there and nothing stands in the
   way, the runner's own next steps are these: it falls back, takes its own quote up, and asks
   the wallet to pay the same bundle.
   */
  lemma ResumedRoundPays(jobs: Jobs, b: Batch, k: nat, u: Uuid) returns (bs: seq<Batch>)
    requires Unfinished(jobs, b, k, u)
    ensures |bs| == 7 && bs[0] == b
    ensures Path((b, e, b') => Took(jobs, b, e, b'), bs, PayingAgain(b.runner.value.tab, jobs[k], u))
    ensures Asking(jobs, bs[6], k, u, |b.relayr.sends|) && bs[6].rounds == b.rounds
    ensures bs[6].relayr.sends == b.relayr.sends + [Send(u, None, Unsettled)]
  {
    var run, t, job := (b, e, b') => Took(jobs, b, e, b'), b.runner.value.tab, jobs[k];
    AskedNow(job, b.relayr, t, u);
    var b1, b2, b3, b4 := ToFunding(jobs, b, k, u);
    var b5, b6 := FromFunding(jobs, b, k, u, b4);
    bs := [b, b1, b2, b3, b4, b5, b6];
    var es := PayingAgain(t, job, u);
    SixSteps(run, b, es[0], b1, es[1], b2, es[2], b3, es[3], b4, es[4], b5, es[5], b6);
  }

  // ---------------------------------------------------------------- to the next round

  // Send `n` is in flight for the runner's funding.
  ghost predicate InFlightSend(s: State, ck: CallKey, t: TabId, u: Uuid, n: nat) {
    && ck in s.funding && s.funding[ck].tab == t && s.funding[ck].quote.bundle == u
    && n < |s.sends| && s.sends[n].bundle == u && s.sends[n].settled == Unsettled && BundleId(u) in s.rows
  }

  lemma ReturnsHash(s: State, ck: CallKey, t: TabId, u: Uuid, n: nat) returns (s': State)
    requires InFlightSend(s, ck, t, u, n) && s.funding[ck].pc == Sent(n)
    ensures Goes(s, Step(FundHash(ck), {}), s') && InFlightSend(s', ck, t, u, n)
    ensures s'.funding[ck].pc == Hashed(n) && s'.rows[BundleId(u)].hash == Some(n)
    ensures s'.sends == s.sends && s'.issued == s.issued
  {
    s' := DoFundHash(s, ck, {});
  }

  lemma GetsMined(s: State, ck: CallKey, t: TabId, u: Uuid, n: nat) returns (s': State)
    requires InFlightSend(s, ck, t, u, n) && s.sends[n].mined.None?
    ensures Goes(s, Step(Mine(n, true), {}), s') && InFlightSend(s', ck, t, u, n)
    ensures s' == s.(sends := s'.sends) && s'.sends[n].mined == Some(true)
  {
    s' := s.(sends := s.sends[n := s.sends[n].(mined := Some(true))]);
  }

  lemma GetsVerified(s: State, ck: CallKey, t: TabId, u: Uuid, n: nat) returns (s': State)
    requires InFlightSend(s, ck, t, u, n) && s.sends[n].mined == Some(true) && s.rows[BundleId(u)].hash == Some(n)
    ensures Goes(s, Step(VerifyPayment(t, u), {}), s')
    ensures s'.funding == s.funding && s'.issued == s.issued && BundleId(u) in s'.rows
    ensures n < |s'.sends| && s'.sends[n] == Send(u, Some(true), VerifiedPaid)
  {
    s' := DoVerify(s, t, u, {});
  }

  lemma CallEnds(s: State, ck: CallKey, n: nat) returns (s': State)
    requires ck in s.funding && s.funding[ck].pc == Hashed(n)
    ensures Goes(s, Step(FundEnd(ck, false), {}), s') && s' == s.(funding := s.funding - {ck})
  {
    s' := s.(funding := s.funding - {ck});
  }

  lemma PaymentSteps(s: State, ck: CallKey, t: TabId, u: Uuid, n: nat)
    returns (s1: State, s2: State, s3: State, s4: State)
    requires InFlightSend(s, ck, t, u, n) && s.funding[ck].pc == Sent(n) && s.sends[n].mined.None?
    ensures Goes(s, Step(FundHash(ck), {}), s1) && Goes(s1, Step(Mine(n, true), {}), s2)
    ensures Goes(s2, Step(VerifyPayment(t, u), {}), s3) && Goes(s3, Step(FundEnd(ck, false), {}), s4)
    ensures s4.issued == s.issued && n < |s4.sends| && s4.sends[n] == Send(u, Some(true), VerifiedPaid)
  {
    s1 := ReturnsHash(s, ck, t, u, n);
    s2 := GetsMined(s1, ck, t, u, n);
    s3 := GetsVerified(s2, ck, t, u, n);
    s4 := CallEnds(s3, ck, n);
  }

  // A step of the payment the runner waits for, and one of the chain or of a poll beside it.
  lemma OwnPayment(jobs: Jobs, b: Batch, k: nat, e: Event, s': State) returns (b': Batch)
    requires k < |jobs| && Place(b) == Some(Paying(k, true)) && Goes(b.relayr, Step(e, {}), s')
    requires e == FundHash(jobs[k].callKey) || e == FundEnd(jobs[k].callKey, false)
    ensures Took(jobs, b, Own(e, {}), b')
    ensures b' == Move(b, Paying(k, e.FundHash?)).(relayr := s')
  {
    b' := NextBatch(jobs, b, Own(e, {}));
  }

  lemma Beside(jobs: Jobs, b: Batch, e: Event, s': State) returns (b': Batch)
    requires (e.Mine? || e.VerifyPayment? || e.PollSuccess?) && Goes(b.relayr, Step(e, {}), s')
    ensures Took(jobs, b, Env(e, {}), b') && b' == b.(relayr := s')
  {
    b' := NextBatch(jobs, b, Env(e, {}));
  }

  lemma PaymentTaken(jobs: Jobs, b: Batch, k: nat, u: Uuid, n: nat, s1: State, s2: State, s3: State, s4: State)
    returns (b1: Batch, b2: Batch, b3: Batch, b4: Batch)
    requires k < |jobs| && Place(b) == Some(Paying(k, true))
    requires var ck, t := jobs[k].callKey, b.runner.value.tab;
             && Goes(b.relayr, Step(FundHash(ck), {}), s1) && Goes(s1, Step(Mine(n, true), {}), s2)
             && Goes(s2, Step(VerifyPayment(t, u), {}), s3) && Goes(s3, Step(FundEnd(ck, false), {}), s4)
    ensures var ck, t := jobs[k].callKey, b.runner.value.tab;
            && Took(jobs, b, Own(FundHash(ck), {}), b1) && Took(jobs, b1, Env(Mine(n, true), {}), b2)
            && Took(jobs, b2, Env(VerifyPayment(t, u), {}), b3) && Took(jobs, b3, Own(FundEnd(ck, false), {}), b4)
    ensures b4 == Move(b, Paying(k, false)).(relayr := s4)
  {
    b1 := OwnPayment(jobs, b, k, FundHash(jobs[k].callKey), s1);
    b2 := Beside(jobs, b1, Mine(n, true), s2);
    b3 := Beside(jobs, b2, VerifyPayment(b.runner.value.tab, u), s3);
    b4 := OwnPayment(jobs, b3, k, FundEnd(jobs[k].callKey, false), s4);
  }

  lemma SavesPending(jobs: Jobs, b: Batch, k: nat) returns (b': Batch)
    requires k < |b.rounds| && Place(b) == Some(Paying(k, false))
    ensures Took(jobs, b, SavePending, b')
    ensures b' == Move(b, Waiting(k)).(rounds := b.rounds[k := Round(RoundPending, b.rounds[k].bundle)])
  {
    b' := NextBatch(jobs, b, SavePending);
  }

  // From the request to a verified payment.
  function Payment(ck: CallKey, t: TabId, u: Uuid, n: nat): seq<BatchEvent> {
    [Own(FundHash(ck), {}), Env(Mine(n, true), {}), Env(VerifyPayment(t, u), {}), Own(FundEnd(ck, false), {}),
     SavePending]
  }

  /**
   A payment that succeeds leaves the round pending: when the wallet returns the hash of its send
   and that is mined and verified, the runner's call ends and the round is saved as pending.
   */
  lemma PaidRoundIsPending(jobs: Jobs, b: Batch, k: nat, u: Uuid, n: nat) returns (bs: seq<Batch>)
    requires Asking(jobs, b, k, u, n)
    ensures |bs| == 6 && bs[0] == b
    ensures Path((b, e, b') => Took(jobs, b, e, b'), bs, Payment(jobs[k].callKey, b.runner.value.tab, u, n))
    ensures Place(bs[5]) == Some(Waiting(k)) && bs[5].rounds == b.rounds[k := Round(RoundPending, Some(u))]
    ensures bs[5].relayr.issued == b.relayr.issued && n < |bs[5].relayr.sends|
    ensures bs[5].relayr.sends[n] == Send(u, Some(true), VerifiedPaid)
  {
    var run, ck, t := (b, e, b') => Took(jobs, b, e, b'), jobs[k].callKey, b.runner.value.tab;
    var s1, s2, s3, s4 := PaymentSteps(b.relayr, ck, t, u, n);
    var b1, b2, b3, b4 := PaymentTaken(jobs, b, k, u, n, s1, s2, s3, s4);
    var b5 := SavesPending(jobs, b4, k);
    bs := [b, b1, b2, b3, b4, b5];
    FiveSteps(run, b, Own(FundHash(ck), {}), b1, Env(Mine(n, true), {}), b2, Env(VerifyPayment(t, u), {}), b3,
              Own(FundEnd(ck, false), {}), b4, SavePending, b5);
  }

  /** A pending round whose payment was verified is done when its destinations are: the next one follows. */
  lemma PendingRoundIsDone(jobs: Jobs, b: Batch, k: nat, u: Uuid, n: nat) returns (bs: seq<Batch>)
    requires k < |b.rounds| && Place(b) == Some(Waiting(k)) && b.rounds[k].bundle == Some(u)
    requires CanPollSuccess(b.relayr, u, n)
    ensures |bs| == 3 && bs[0] == b
    ensures Path((b, e, b') => Took(jobs, b, e, b'), bs, [Env(PollSuccess(u, n), {}), RoundDone])
    ensures Place(bs[2]) == Some(Top(k + 1)) && bs[2].rounds == b.rounds[k := Round(RoundSuccess, Some(u))]
    ensures u in bs[2].relayr.resolved
  {
    var s' := Next(b.relayr, PollSuccess(u, n), {});
    var b1 := Beside(jobs, b, PollSuccess(u, n), s');
    var b2 := NextBatch(jobs, b1, RoundDone);
    TwoSteps((b, e, b') => Took(jobs, b, e, b'), b, Env(PollSuccess(u, n), {}), b1, RoundDone, b2);
    bs := [b, b1, b2];
  }

  // ---------------------------------------------------------------- a tab that dies before it pays

  // The quoted bundle, in a browser whose tab died.
  lemma Forgets(t: TabId, job: Job, u: Uuid) returns (s: State)
    ensures Goes(QuotedState(t, job, u), Step(Crash(t), {}), s)
    ensures s == QuotedState(t, job, u).(quotes := map[])
  {
    s := CrashTab(QuotedState(t, job, u), t);
  }

  lemma StillToBePaid(t: TabId, t0: TabId, job: Job, u: Uuid)
    requires JobOk(job)
    ensures CanBePaid(job, QuotedState(t, job, u).(quotes := map[]), t0, u)
  {
  }

  lemma Dies(job: Job, b: Batch, t: TabId, s': State) returns (b': Batch)
    requires b.runner.Some? && b.runner.value.tab == t && Goes(b.relayr, Step(Crash(t), {}), s')
    ensures Took([job], b, Env(Crash(t), {}), b') && b' == b.(relayr := s', runner := None)
  {
    b' := NextBatch([job], b, Env(Crash(t), {}));
  }

  lemma DiedWhileFunding(t: TabId, t0: TabId, job: Job, u: Uuid) returns (bs: seq<Batch>, es: seq<BatchEvent>)
    requires JobOk(job)
    ensures BatchRun([job], bs, es) && |bs| == |es| + 1 && Unfinished([job], bs[|es|], 0, u)
    ensures bs[|es|].runner.Some? && bs[|es|].runner.value.tab == t0
  {
    var s := QuotedState(t, job, u);
    bs, es := QuotedInRound(t, job, u);
    var b1 := SavesFunding([job], bs[|es|], 0);
    bs, es := Go([job], bs, es, SaveFunding, b1);
    var s' := Forgets(t, job, u);
    var b2 := Dies(job, b1, t, s');
    bs, es := Go([job], bs, es, Env(Crash(t), {}), b2);
    var b3 := Starts([job], b2, t0);
    bs, es := Go([job], bs, es, Start(t0), b3);
    StillToBePaid(t, t0, job, u);
  }

  /**
   From a browser that has not used Relayr yet: a tab signs the calls, saves that it funds their
   bundle, and dies before it asks the wallet. The batch is resumed in any tab, and that tab asks
   the wallet to pay that very bundle.
   */
  lemma DiedBeforePaying(t: TabId, t0: TabId, job: Job, u: Uuid) returns (bs: seq<Batch>, es: seq<BatchEvent>)
    requires JobOk(job)
    ensures BatchRun([job], bs, es) && |bs| == |es| + 1 && |es| >= 6
    ensures es[|es| - 6..] == PayingAgain(t0, job, u) && Unfinished([job], bs[|es| - 6], 0, u)
    ensures exists n: nat :: Asking([job], bs[|es|], 0, u, n)
  {
    bs, es := DiedWhileFunding(t, t0, job, u);
    var more := ResumedRoundPays([job], bs[|es|], 0, u);
    Joined((b, e, b') => Took([job], b, e, b'), bs, es, more, PayingAgain(t0, job, u));
    var n := |bs[|es|].relayr.sends|;
    assert Asking([job], (bs + more[1..])[|es| + 6], 0, u, n);
    bs, es := bs + more[1..], es + PayingAgain(t0, job, u);
  }
}
