/**
 The states from which the guarantees for a round fail are reached, by runs of a batch of one
 round with any calls: `BatchLimits.PaidElsewhereSignsAgain` goes on from `QuotedIsReached`. And
 `ExecutedIsTakenUp` is the run where a resumed round takes up an executed bundle, and
 `StaleRevertExecutes` the one where the runner's own payment executes a round saved as quoted.
 */
module BatchReached {
  import opened Prelude
  import opened Runs
  import opened Identities
  import opened ActivityStore
  import opened RelayrProtocol
  import opened RelayrRuns
  import opened RelayrReached
  import opened BatchRunner
  import opened BatchSafety
  import opened BatchRuns
  import opened BatchLimits

  function Fresh(s: State): Batch { Batch(s, [Round(RoundReady, None)], None, map[], false, false) }

  lemma FreshIsSaved(ss: seq<State>, steps: seq<Step>, job: Job)
    requires Run(ss, steps) && JobOk(job)
    ensures Saved([job], Fresh(ss[|steps|])) && BatchRun([job], [Fresh(ss[|steps|])], [])
  {
    RunKeepsInv(ss, steps, |steps|);
  }

  lemma Go(jobs: Jobs, bs: seq<Batch>, es: seq<BatchEvent>, e: BatchEvent, b': Batch)
    returns (bs': seq<Batch>, es': seq<BatchEvent>)
    requires BatchRun(jobs, bs, es) && Took(jobs, bs[|es|], e, b')
    ensures BatchRun(jobs, bs', es') && es' == es + [e] && bs' == bs + [b']
  {
    bs', es' := bs + [b'], es + [e];
    OneMoreStep((b, e, b') => Took(jobs, b, e, b'), bs, es, e, b');
  }

  lemma Starts(jobs: Jobs, b: Batch, t: TabId) returns (b': Batch)
    requires b.runner.None? && !b.removed && !b.finished
    ensures Took(jobs, b, Start(t), b') && b' == b.(runner := Some(Runner(t, Top(0))))
  {
    b' := NextBatch(jobs, b, Start(t));
  }

  lemma Exits(jobs: Jobs, b: Batch) returns (b': Batch)
    requires b.runner.Some? && Idle(b.runner.value.pc)
    ensures Took(jobs, b, Exit, b') && b' == b.(runner := None)
  {
    b' := NextBatch(jobs, b, Exit);
  }

  // A step of another tab while the runner is stopped.
  lemma Aside(jobs: Jobs, b: Batch, e: Event, s': State) returns (b': Batch)
    requires b.runner.None? && Goes(b.relayr, Step(e, {}), s')
    ensures Took(jobs, b, Env(e, {}), b') && b' == b.(relayr := s')
  {
    b' := NextBatch(jobs, b, Env(e, {}));
  }

  // The batch goes on with a round that is signed and saved as quoted.
  lemma GoQuoted(jobs: Jobs, bs: seq<Batch>, es: seq<BatchEvent>, k: nat, v: Uuid)
    returns (bs': seq<Batch>, es': seq<BatchEvent>)
    requires BatchRun(jobs, bs, es)
    requires var b := bs[|es|];
             && k < |jobs| && k < |b.rounds| && Place(b) == Some(Top(k)) && Unpaid(b.rounds[k])
             && CanAuthBegin(b.relayr, jobs[k]) && v !in b.relayr.issued
    ensures BatchRun(jobs, bs', es') && |es'| == |es| + 5
    ensures var b := bs[|es|];
            && es' == es + Resumption(b.runner.value.tab, jobs[k], v)
            && bs' == bs + RequotedStates(jobs, b, k, v)[1..]
  {
    var b := bs[|es|];
    var more := Requoted(jobs, b, k, v);
    Joined((b, e, b') => Took(jobs, b, e, b'), bs, es, more, Resumption(b.runner.value.tab, jobs[k], v));
    bs', es' := bs + more[1..], es + Resumption(b.runner.value.tab, jobs[k], v);
  }

  // ---------------------------------------------------------------- saved as quoted

  function QuotedBatch(s: State, v: Uuid, p: nat): Batch {
    Batch(s, [Round(RoundQuoted, Some(v))], None, map[p := 0], false, false)
  }

  // The states of a batch that is started, quoted and stopped.
  function QuotedStates(s: State, t: TabId, job: Job, v: Uuid): seq<Batch> {
    [Fresh(s)] + RequotedStates([job], Fresh(s).(runner := Some(Runner(t, Top(0)))), 0, v)
    + [QuotedBatch(Authorized(s, t, job, v), v, |s.pubs|)]
  }

  lemma QuotedFrom(ss: seq<State>, steps: seq<Step>, t: TabId, job: Job, v: Uuid) returns (es: seq<BatchEvent>)
    requires Run(ss, steps) && JobOk(job) && CanAuthBegin(ss[|steps|], job) && v !in ss[|steps|].issued
    ensures BatchRun([job], QuotedStates(ss[|steps|], t, job, v), es) && |es| == 7
  {
    var jobs, s := [job], ss[|steps|];
    FreshIsSaved(ss, steps, job);
    var b := Starts(jobs, Fresh(s), t);
    var bs: seq<Batch>;
    bs, es := Go(jobs, [Fresh(s)], [], Start(t), b);
    bs, es := GoQuoted(jobs, bs, es, 0, v);
    assert bs == [Fresh(s)] + RequotedStates(jobs, b, 0, v);
    var b1 := Exits(jobs, bs[|es|]);
    assert b1 == QuotedBatch(Authorized(s, t, job, v), v, |s.pubs|);
    bs, es := Go(jobs, bs, es, Exit, b1);
  }

  lemma QuotedAt(s: State, t: TabId, job: Job, v: Uuid, m: nat)
    requires m < 8
    ensures |QuotedStates(s, t, job, v)| == 8
    ensures QuotedStates(s, t, job, v)[m]
            == if m == 0 then Fresh(s)
               else if m == 7 then QuotedBatch(Authorized(s, t, job, v), v, |s.pubs|)
               else RequotedStates([job], Fresh(s).(runner := Some(Runner(t, Top(0)))), 0, v)[m - 1]
  {
  }

  lemma StartedAdds(s: State, t: TabId, b: Batch, v: Uuid)
    requires OnlyAdds(Fresh(s).(runner := Some(Runner(t, Top(0)))), b, 0, v)
    ensures OnlyAdds(Fresh(s), b, 0, v)
  {
  }

  lemma QuotedAdds(s: State, t: TabId, job: Job, v: Uuid, m: nat)
    requires m < 8 && IssuedOk(s.pubs, s.issued)
    ensures |QuotedStates(s, t, job, v)| == 8 && OnlyAdds(Fresh(s), QuotedStates(s, t, job, v)[m], 0, v)
  {
    var b := Fresh(s).(runner := Some(Runner(t, Top(0))));
    QuotedAt(s, t, job, v, m);
    if 0 < m < 7 {
      RequotedAdds([job], b, 0, v, m - 1);
      StartedAdds(s, t, RequotedStates([job], b, 0, v)[m - 1], v);
    } else if m == 7 {
      StoppedAdds(s, t, job, v);
    }
  }

  lemma StoppedAdds(s: State, t: TabId, job: Job, v: Uuid)
    requires IssuedOk(s.pubs, s.issued)
    ensures OnlyAdds(Fresh(s), QuotedBatch(Authorized(s, t, job, v), v, |s.pubs|), 0, v)
  {
  }

  lemma QuotedByRunner(t: TabId, job: Job, u: Uuid)
    requires JobOk(job)
    ensures CanAuthBegin(INIT, job) && Authorized(INIT, t, job, u) == QuotedState(t, job, u)
  {
    QuotedRows(job, u);
  }

  /** A run to a round saved as quoted whose bundle another tab remembers and can pay. */
  lemma QuotedIsReached(t: TabId, other: TabId, job: Job, u: Uuid) returns (bs: seq<Batch>, es: seq<BatchEvent>)
    requires JobOk(job) && t != other
    ensures BatchRun([job], bs, es) && AtQuoted([job], bs[|es|], 0, u)
    ensures ToBePaid(bs[|es|].relayr, other, u) && bs[|es|].relayr.quotes[(other, u)].callKey == job.callKey
  {
    QuotedByRunner(t, job, u);
    es := QuotedFrom([INIT], [], t, job, u);
    var b := QuotedBatch(QuotedState(t, job, u), u, 0);
    var s := Takes(b.relayr, other, job, u, QuotedRow(job, u));
    var b1 := Aside([job], b, Reuse(other, job, u), s);
    bs, es := Go([job], QuotedStates(INIT, t, job, u), es, Env(Reuse(other, job, u), {}), b1);
    var b2 := Starts([job], b1, t);
    bs, es := Go([job], bs, es, Start(t), b2);
    ReadyToBePaid(b2, t, other, job, u);
  }

  lemma ReadyToBePaid(b: Batch, t: TabId, other: TabId, job: Job, u: Uuid)
    requires JobOk(job) && t != other && b.rounds == [Round(RoundQuoted, Some(u))]
    requires b.runner == Some(Runner(t, Top(0)))
    requires var r := QuotedRow(job, u);
             b.relayr == QuotedState(t, job, u).(
               rows := Patched(u, r, MoreKeys(r, job)),
               quotes := map[(t, u) := QuoteOf(job, u), (other, u) := QuoteOf(job, u)])
    ensures AtQuoted([job], b, 0, u) && ToBePaid(b.relayr, other, u)
  {
  }

  // ---------------------------------------------------------------- an executed bundle is taken up

  lemma ExecutedUnblocks(t: TabId, other: TabId, job: Job, u: Uuid)
    requires JobOk(job)
    ensures CanAuthBegin(ExecutedWhileAsking(t, other, job, u), job)
  {
  }

  // Next to the row of `v`, the wallet declines the funding that was still asked for.
  function DeclinedLate(s: State, job: Job, u: Uuid): State
    requires BundleId(u) in s.rows && |s.sends| == 3
  {
    s.(rows := s.rows[BundleId(u) := s.rows[BundleId(u)].(status := Pending, pay := Some(Unfunded))],
       sends := Settle(s.sends, 2, RejectedByWallet), funding := map[])
  }

  lemma Declines(s: State, other: TabId, job: Job, u: Uuid)
    requires s.funding == map[job.callKey := Funding(other, QuoteOf(job, u), Sent(2))]
    requires |s.sends| == 3 && s.sends[2].mined.None? && BundleId(u) in s.rows
    ensures Goes(s, Step(FundReject(job.callKey), {}), DeclinedLate(s, job, u))
  {
    assert s.funding - {job.callKey} == map[];
  }

  lemma TakesUp(jobs: Jobs, b: Batch, k: nat, u: Uuid) returns (b': Batch)
    requires k < |jobs| && Place(b) == Some(Quoting(k, false)) && CanReuse(b.relayr, jobs[k], u)
    ensures Took(jobs, b, Own(Reuse(b.runner.value.tab, jobs[k], u), {}), b')
    ensures b' == Move(b, Got(k, u)).(relayr := DoReuse(b.relayr, b.runner.value.tab, jobs[k], u, {}))
  {
    b' := OwnStep(b, Reuse(b.runner.value.tab, jobs[k], u), {});
  }

  lemma LateRow(t: TabId, other: TabId, t0: TabId, job: Job, u: Uuid, v: Uuid)
    requires JobOk(job) && u != v
    ensures var s := DeclinedLate(Authorized(ExecutedWhileAsking(t, other, job, u), t0, job, v), job, u);
            && CanReuse(s, job, u) && u in s.resolved
  {
    AuthorizedElsewhere(ExecutedWhileAsking(t, other, job, u).rows, job, v, BundleId(u));
  }

  // The events of the second half.
  function TakingUp(t0: TabId, job: Job, u: Uuid): seq<BatchEvent> {
    [Env(FundReject(job.callKey), {}), Start(t0), Enter, Own(Reuse(t0, job, u), {}), SaveQuoted]
  }

  // Its states; the runner takes up the executed bundle in the last step but one.
  function TakenUpStates(b: Batch, t0: TabId, job: Job, u: Uuid): seq<Batch>
    requires BundleId(u) in b.relayr.rows && |b.relayr.sends| == 3 && CanReuse(DeclinedLate(b.relayr, job, u), job, u)
  {
    var s := DeclinedLate(b.relayr, job, u);
    var s' := DoReuse(s, t0, job, u, {});
    [b, b.(relayr := s), b.(relayr := s, runner := Some(Runner(t0, Top(0)))),
     b.(relayr := s, runner := Some(Runner(t0, Quoting(0, false)))),
     b.(relayr := s', runner := Some(Runner(t0, Got(0, u)))),
     b.(relayr := s', runner := Some(Runner(t0, Choosing(0))), rounds := [Round(RoundQuoted, Some(u))])]
  }

  lemma TakenUp(b: Batch, t0: TabId, other: TabId, job: Job, u: Uuid, v: Uuid, p: nat)
    requires b == QuotedBatch(b.relayr, v, p) && BundleId(u) in b.relayr.rows && |b.relayr.sends| == 3
    requires b.relayr.funding == map[job.callKey := Funding(other, QuoteOf(job, u), Sent(2))]
    requires b.relayr.sends[2].mined.None? && CanReuse(DeclinedLate(b.relayr, job, u), job, u)
    ensures Path((b, e, b') => Took([job], b, e, b'), TakenUpStates(b, t0, job, u), TakingUp(t0, job, u))
  {
    var jobs, run := [job], (b, e, b') => Took([job], b, e, b');
    Declines(b.relayr, other, job, u);
    var b1 := Aside(jobs, b, FundReject(job.callKey), DeclinedLate(b.relayr, job, u));
    var b2 := Starts(jobs, b1, t0);
    var b3 := EntersRound(jobs, b2, 0);
    var b4 := TakesUp(jobs, b3, 0, u);
    var b5 := SavesRound(jobs, b4, 0, u);
    FiveSteps(run, b, Env(FundReject(job.callKey), {}), b1, Start(t0), b2, Enter, b3,
              Own(Reuse(t0, job, u), {}), b4, SaveQuoted, b5);
    assert b4.rounds[0 := Round(RoundQuoted, Some(u))] == [Round(RoundQuoted, Some(u))];
    assert TakenUpStates(b, t0, job, u) == [b, b1, b2, b3, b4, b5];
  }

  // Both halves together.
  function TakenUpRun(s: State, b: Batch, t0: TabId, job: Job, u: Uuid, v: Uuid): seq<Batch>
    requires BundleId(u) in b.relayr.rows && |b.relayr.sends| == 3 && CanReuse(DeclinedLate(b.relayr, job, u), job, u)
  {
    QuotedStates(s, t0, job, v) + TakenUpStates(b, t0, job, u)[1..]
  }

  lemma TakenUpJoined(s: State, b: Batch, t0: TabId, job: Job, u: Uuid, v: Uuid, first: seq<BatchEvent>)
    requires b == QuotedBatch(Authorized(s, t0, job, v), v, |s.pubs|)
    requires BundleId(u) in b.relayr.rows && |b.relayr.sends| == 3 && CanReuse(DeclinedLate(b.relayr, job, u), job, u)
    requires BatchRun([job], QuotedStates(s, t0, job, v), first) && |first| == 7
    requires Path((b, e, b') => Took([job], b, e, b'), TakenUpStates(b, t0, job, u), TakingUp(t0, job, u))
    ensures BatchRun([job], TakenUpRun(s, b, t0, job, u, v), first + TakingUp(t0, job, u))
  {
    QuotedAt(s, t0, job, v, 0);
    QuotedAt(s, t0, job, v, 7);
    Joined((b, e, b') => Took([job], b, e, b'), QuotedStates(s, t0, job, v), first,
           TakenUpStates(b, t0, job, u), TakingUp(t0, job, u));
  }

  lemma TakenUpEnds(s: State, b: Batch, t0: TabId, job: Job, u: Uuid, v: Uuid, first: seq<BatchEvent>)
    requires b == QuotedBatch(b.relayr, v, |s.pubs|) && |first| == 7 && u in b.relayr.resolved
    requires BundleId(u) in b.relayr.rows && |b.relayr.sends| == 3 && CanReuse(DeclinedLate(b.relayr, job, u), job, u)
    ensures var bs, es := TakenUpRun(s, b, t0, job, u, v), first + TakingUp(t0, job, u);
            && |es| == 12 && |bs| == 13
            && bs[10].rounds == [Round(RoundQuoted, Some(v))] && TakesUpExecuted(bs[10], es[10], 0)
            && bs[12].rounds == [Round(RoundQuoted, Some(u))]
  {
    QuotedAt(s, t0, job, v, 0);
    var bs, es := TakenUpRun(s, b, t0, job, u, v), first + TakingUp(t0, job, u);
    assert bs[10] == TakenUpStates(b, t0, job, u)[3] && bs[12] == TakenUpStates(b, t0, job, u)[5];
    assert es[10] == TakingUp(t0, job, u)[3];
  }

  /**
   A run where a round that was never disturbed loses its bundle. Bundle `u` of the same calls
   was refunded after a revert and executed while another tab asked the wallet for it once more.
   The round is signed and saved as quoted with bundle `v`; then the wallet declines that late
   request, which marks the executed bundle unfunded, and the resumed round takes it up.
   */
  lemma ExecutedIsTakenUp(t: TabId, other: TabId, t0: TabId, job: Job, u: Uuid, v: Uuid)
    returns (bs: seq<Batch>, es: seq<BatchEvent>)
    requires JobOk(job) && t != other && u != v
    ensures BatchRun([job], bs, es) && |es| == 12 && Undisturbed(bs, 11, 0)
    ensures bs[10].rounds == [Round(RoundQuoted, Some(v))] && TakesUpExecuted(bs[10], es[10], 0)
    ensures bs[12].rounds == [Round(RoundQuoted, Some(u))]
  {
    var ss, steps := ExecutedWhileAskingIsReached(t, other, job, u);
    ExecutedUnblocks(t, other, job, u);
    var first := QuotedFrom(ss, steps, t0, job, v);
    bs, es := LateRun(ExecutedWhileAsking(t, other, job, u), t, other, t0, job, u, v, first);
  }

  lemma LateRun(s: State, t: TabId, other: TabId, t0: TabId, job: Job, u: Uuid, v: Uuid, first: seq<BatchEvent>)
    returns (bs: seq<Batch>, es: seq<BatchEvent>)
    requires s == ExecutedWhileAsking(t, other, job, u) && JobOk(job) && u != v
    requires BatchRun([job], QuotedStates(s, t0, job, v), first) && |first| == 7
    ensures BatchRun([job], bs, es) && |es| == 12 && Undisturbed(bs, 11, 0)
    ensures bs[10].rounds == [Round(RoundQuoted, Some(v))] && TakesUpExecuted(bs[10], es[10], 0)
    ensures bs[12].rounds == [Round(RoundQuoted, Some(u))]
  {
    var b := QuotedBatch(Authorized(s, t0, job, v), v, 1);
    LateRow(t, other, t0, job, u, v);
    AuthorizedElsewhere(s.rows, job, v, BundleId(u));
    TakenUp(b, t0, other, job, u, v, 1);
    TakenUpJoined(s, b, t0, job, u, v, first);
    TakenUpEnds(s, b, t0, job, u, v, first);
    bs, es := TakenUpRun(s, b, t0, job, u, v), first + TakingUp(t0, job, u);
    forall m: nat | m < 11 ensures !Preempted(bs[m], 0) {
      UntilTakenUp(s, b, t0, job, u, v, m);
    }
  }

  lemma UntilTakenUp(s: State, b: Batch, t0: TabId, job: Job, u: Uuid, v: Uuid, m: nat)
    requires b == QuotedBatch(Authorized(s, t0, job, v), v, |s.pubs|)
    requires BundleId(u) in b.relayr.rows && |b.relayr.sends| == 3 && CanReuse(DeclinedLate(b.relayr, job, u), job, u)
    requires IssuedOk(s.pubs, s.issued) && s.resolved == map[u := 1] && u != v && m < 11
    ensures |TakenUpRun(s, b, t0, job, u, v)| == 13 && !Preempted(TakenUpRun(s, b, t0, job, u, v)[m], 0)
  {
    QuotedAt(s, t0, job, v, 0);
    if m < 8 {
      QuotedAdds(s, t0, job, v, m);
      OnlyItsOwn(s, QuotedStates(s, t0, job, v)[m], u, v);
    } else {
      LateAdds(s, b, t0, job, u, v, m - 7);
      OnlyItsOwn(s, TakenUpStates(b, t0, job, u)[m - 7], u, v);
    }
  }

  lemma OnlyItsOwn(s: State, b: Batch, u: Uuid, v: Uuid)
    requires OnlyAdds(Fresh(s), b, 0, v) && s.resolved == map[u := 1] && u != v
    ensures !Preempted(b, 0)
  {
  }

  lemma LateAdds(s: State, b: Batch, t0: TabId, job: Job, u: Uuid, v: Uuid, m: nat)
    requires b == QuotedBatch(b.relayr, v, |s.pubs|) && BundleId(u) in b.relayr.rows && |b.relayr.sends| == 3
    requires CanReuse(DeclinedLate(b.relayr, job, u), job, u) && IssuedOk(s.pubs, s.issued) && m < 4
    requires b.relayr.resolved == s.resolved && b.relayr.issued == s.issued[v := |s.pubs|]
    ensures OnlyAdds(Fresh(s), TakenUpStates(b, t0, job, u)[m], 0, v)
  {
  }

  // ---------------------------------------------------------------- a stale revert

  // Nobody but the runner asks the wallet about these calls.
  predicate OnlyRunnerAsks(jobs: Jobs, es: seq<BatchEvent>) { forall e | e in es :: !FundedElsewhere(jobs, e) }

  lemma GoOn(jobs: Jobs, bs: seq<Batch>, es: seq<BatchEvent>, e: BatchEvent, b': Batch)
    returns (bs': seq<Batch>, es': seq<BatchEvent>)
    requires BatchRun(jobs, bs, es) && Took(jobs, bs[|es|], e, b')
    requires OnlyRunnerAsks(jobs, es) && !FundedElsewhere(jobs, e)
    ensures BatchRun(jobs, bs', es') && |bs'| == |es'| + 1 && bs'[|es'|] == b' && OnlyRunnerAsks(jobs, es')
  {
    bs', es' := Go(jobs, bs, es, e, b');
  }

  // A step of the payment the runner waits for.
  lemma GoPaying(job: Job, bs: seq<Batch>, es: seq<BatchEvent>, e: Event, s': State)
    returns (bs': seq<Batch>, es': seq<BatchEvent>)
    requires BatchRun([job], bs, es) && OnlyRunnerAsks([job], es)
    requires var b := bs[|es|];
             && Place(b) == Some(Paying(0, true)) && AboutFunding(e, job.callKey) && (e.FundCommit? ==> e.asked)
             && Goes(b.relayr, Step(e, {}), s')
    ensures BatchRun([job], bs', es') && |bs'| == |es'| + 1 && OnlyRunnerAsks([job], es')
    ensures bs'[|es'|] == Move(bs[|es|], AfterOwn(Paying(0, true), e)).(relayr := s')
  {
    var b := bs[|es|];
    bs', es' := GoOn([job], bs, es, Own(e, {}), Move(b, AfterOwn(Paying(0, true), e)).(relayr := s'));
  }

  // A step of the chain or of a poll, wherever the runner is.
  lemma GoBeside(job: Job, bs: seq<Batch>, es: seq<BatchEvent>, e: Event, s': State)
    returns (bs': seq<Batch>, es': seq<BatchEvent>)
    requires BatchRun([job], bs, es) && OnlyRunnerAsks([job], es)
    requires (e.Mine? || e.VerifyPayment? || e.PollSuccess?) && Goes(bs[|es|].relayr, Step(e, {}), s')
    ensures BatchRun([job], bs', es') && |bs'| == |es'| + 1 && OnlyRunnerAsks([job], es')
    ensures bs'[|es'|] == bs[|es|].(relayr := s')
  {
    bs', es' := GoOn([job], bs, es, Env(e, {}), bs[|es|].(relayr := s'));
  }

  // The runner is in its only round, with bundle `u`.
  function InRound(s: State, t: TabId, x: RoundState, u: Uuid, pc: Option<Pc>): Batch {
    Batch(s, [Round(x, Some(u))], if pc.Some? then Some(Runner(t, pc.value)) else None, map[0 := 0], false, false)
  }

  // The wallet was asked for send `n`, and the row says so.
  function AskedFor(s: State, t: TabId, job: Job, u: Uuid, r: Row): State {
    s.(rows := map[BundleId(u) := Merge(r, SubmittedPatch(QuoteOf(job, u)))],
       sends := s.sends + [Send(u, None, Unsettled)],
       funding := map[job.callKey := Funding(t, QuoteOf(job, u), Sent(|s.sends|))],
       tainted := if r.hash.None? then s.tainted else s.tainted + {u})
  }

  // The runner saves that it funds, and asks the wallet.
  lemma GoFund(t: TabId, job: Job, bs: seq<Batch>, es: seq<BatchEvent>, s: State, u: Uuid, r: Row)
    returns (bs': seq<Batch>, es': seq<BatchEvent>, s': State)
    requires BatchRun([job], bs, es) && OnlyRunnerAsks([job], es)
    requires bs[|es|] == InRound(s, t, RoundQuoted, u, Some(Choosing(0)))
    requires Sole(s, u, r) && Payable(r) && s.funding == map[]
    requires (t, u) in s.quotes && s.quotes[(t, u)] == QuoteOf(job, u) && (t, u) !in s.funded
    ensures BatchRun([job], bs', es') && |bs'| == |es'| + 1 && OnlyRunnerAsks([job], es')
    ensures bs'[|es'|] == InRound(s', t, RoundFunding, u, Some(Paying(0, true)))
    ensures s' == AskedFor(s, t, job, u, r)
  {
    var b := InRound(s, t, RoundFunding, u, Some(Paying(0, false)));
    assert bs[|es|].rounds[0 := Round(RoundFunding, Some(u))] == b.rounds;
    bs', es' := GoOn([job], bs, es, SaveFunding, b);
    var s1 := Begins(s, t, job, u, r);
    var b1 := InRound(s1, t, RoundFunding, u, Some(Paying(0, true)));
    OwnBegins(job, b, t, u, s1);
    bs', es' := GoOn([job], bs', es', Own(FundBegin(t, u), {}), b1);
    s' := Commits(s1, t, job, u, r);
    bs', es' := GoPaying(job, bs', es', FundCommit(job.callKey, true), s');
  }

  lemma OwnBegins(job: Job, b: Batch, t: TabId, u: Uuid, s': State)
    requires b == InRound(b.relayr, t, RoundFunding, u, Some(Paying(0, false)))
    requires Goes(b.relayr, Step(FundBegin(t, u), {}), s') && b.relayr.quotes[(t, u)].callKey == job.callKey
    ensures Took([job], b, Own(FundBegin(t, u), {}), InRound(s', t, RoundFunding, u, Some(Paying(0, true))))
  {
  }

  // The funding ends and falls back to its quote, because the row says reverted.
  lemma GoBack(t: TabId, job: Job, bs: seq<Batch>, es: seq<BatchEvent>, s: State, u: Uuid, r: Row, n: nat)
    returns (bs': seq<Batch>, es': seq<BatchEvent>)
    requires BatchRun([job], bs, es) && OnlyRunnerAsks([job], es)
    requires bs[|es|] == InRound(s, t, RoundFunding, u, Some(Paying(0, true)))
    requires s.funding == map[job.callKey := Funding(t, QuoteOf(job, u), Hashed(n))] && Sole(s, u, r) && Payable(r)
    ensures BatchRun([job], bs', es') && |bs'| == |es'| + 1 && OnlyRunnerAsks([job], es')
    ensures bs'[|es'|] == InRound(s.(funding := map[]), t, RoundQuoted, u, None)
  {
    var s' := Ends(s, t, job, u, n);
    bs', es' := GoPaying(job, bs, es, FundEnd(job.callKey, false), s');
    var b := InRound(s', t, RoundQuoted, u, None);
    assert bs'[|es'|].rounds[0 := Round(RoundQuoted, Some(u))] == b.rounds;
    bs', es' := GoOn([job], bs', es', BackOff, b);
  }

  // The round is resumed and takes up its own quote.
  lemma GoAgain(t: TabId, job: Job, bs: seq<Batch>, es: seq<BatchEvent>, s: State, u: Uuid, r: Row)
    returns (bs': seq<Batch>, es': seq<BatchEvent>)
    requires BatchRun([job], bs, es) && OnlyRunnerAsks([job], es) && JobOk(job)
    requires bs[|es|] == InRound(s, t, RoundQuoted, u, None)
    requires Sole(s, u, r) && Reusable(r, job.callKey) && r.keys == job.keys && s.authorizing == map[]
    requires s.quotes == map[(t, u) := QuoteOf(job, u)]
    ensures BatchRun([job], bs', es') && |bs'| == |es'| + 1 && OnlyRunnerAsks([job], es')
    ensures bs'[|es'|] == InRound(s, t, RoundQuoted, u, Some(Choosing(0)))
  {
    var b1 := Starts([job], bs[|es|], t);
    bs', es' := GoOn([job], bs, es, Start(t), b1);
    var b2 := EntersRound([job], b1, 0);
    bs', es' := GoOn([job], bs', es', Enter, b2);
    var b3 := TakesUp([job], b2, 0, u);
    SameQuote(s, t, job, u, r);
    bs', es' := GoOn([job], bs', es', Own(Reuse(t, job, u), {}), b3);
    var b4 := SavesRound([job], b3, 0, u);
    assert b3.rounds[0 := Round(RoundQuoted, Some(u))] == b3.rounds;
    bs', es' := GoOn([job], bs', es', SaveQuoted, b4);
  }

  lemma SameQuote(s: State, t: TabId, job: Job, u: Uuid, r: Row)
    requires Sole(s, u, r) && Reusable(r, job.callKey) && r.keys == job.keys && JobOk(job) && s.authorizing == map[]
    requires s.quotes == map[(t, u) := QuoteOf(job, u)]
    ensures CanReuse(s, job, u) && DoReuse(s, t, job, u, {}) == s
  {
    SolePatched(u, r, MoreKeys(r, job));
    assert Merge(r, Guard(r, MoreKeys(r, job))) == r;
  }

  lemma ResumptionAsksNothing(job: Job, t: TabId, es: seq<BatchEvent>, v: Uuid)
    requires OnlyRunnerAsks([job], es)
    ensures OnlyRunnerAsks([job], es + Resumption(t, job, v))
  {
    forall e | e in es + Resumption(t, job, v) ensures !FundedElsewhere([job], e) {
      assert e in es || e in Resumption(t, job, v);
    }
  }

  lemma QuotedInRound(t: TabId, job: Job, u: Uuid) returns (bs: seq<Batch>, es: seq<BatchEvent>)
    requires JobOk(job)
    ensures BatchRun([job], bs, es) && |bs| == |es| + 1 && OnlyRunnerAsks([job], es)
    ensures bs[|es|] == InRound(QuotedState(t, job, u), t, RoundQuoted, u, Some(Choosing(0)))
  {
    FreshIsSaved([INIT], [], job);
    QuotedByRunner(t, job, u);
    var b := Starts([job], Fresh(INIT), t);
    bs, es := GoOn([job], [Fresh(INIT)], [], Start(t), b);
    ResumptionAsksNothing(job, t, es, u);
    bs, es := GoQuoted([job], bs, es, 0, u);
    assert b.rounds[0 := Round(RoundQuoted, Some(u))] == [Round(RoundQuoted, Some(u))];
    assert b.owner[0 := 0] == map[0 := 0];
  }

  // The first payment reverted, and the round fell back to its quote.
  function FellBackOnce(t: TabId, job: Job, u: Uuid): State {
    QuotedState(t, job, u).(
      rows := map[BundleId(u) := RevertedRow(job, u)], sends := [Send(u, Some(false), VerifiedReverted)])
  }

  lemma FirstAsked(t: TabId, job: Job, u: Uuid) returns (bs: seq<Batch>, es: seq<BatchEvent>)
    requires JobOk(job)
    ensures BatchRun([job], bs, es) && |bs| == |es| + 1 && OnlyRunnerAsks([job], es)
    ensures bs[|es|] == InRound(AskedFor(QuotedState(t, job, u), t, job, u, QuotedRow(job, u)), t, RoundFunding, u,
                                Some(Paying(0, true)))
  {
    bs, es := QuotedInRound(t, job, u);
    var s: State;
    bs, es, s := GoFund(t, job, bs, es, QuotedState(t, job, u), u, QuotedRow(job, u));
  }

  lemma FirstVerdict(t: TabId, job: Job, u: Uuid) returns (s1: State, s2: State, s3: State)
    ensures var s := AskedFor(QuotedState(t, job, u), t, job, u, QuotedRow(job, u));
            && Goes(s, Step(FundHash(job.callKey), {}), s1) && Goes(s1, Step(Mine(0, false), {}), s2)
            && Goes(s2, Step(VerifyPayment(t, u), {}), s3)
    ensures s3 == FellBackOnce(t, job, u).(
                    funding := map[job.callKey := Funding(t, QuoteOf(job, u), Hashed(0))])
  {
    var r1 := Merge(QuotedRow(job, u), SubmittedPatch(QuoteOf(job, u)));
    s1 := Hashes(AskedFor(QuotedState(t, job, u), t, job, u, QuotedRow(job, u)), t, job, u, r1, 0);
    assert Merge(r1, Guard(r1, HashPatch(0))) == HashedRow(job, u);
    s2 := Mines(s1, 0, false);
    s3 := Verifies(s2, t, u, HashedRow(job, u), 0);
    assert Merge(HashedRow(job, u), Guard(HashedRow(job, u), REVERTED_PATCH)) == RevertedRow(job, u);
  }

  // The wallet returned the first hash, and the payment reverted.
  lemma FirstReverted(t: TabId, job: Job, u: Uuid) returns (bs: seq<Batch>, es: seq<BatchEvent>)
    requires JobOk(job)
    ensures BatchRun([job], bs, es) && |bs| == |es| + 1 && OnlyRunnerAsks([job], es)
    ensures bs[|es|] == InRound(FellBackOnce(t, job, u).(
                                  funding := map[job.callKey := Funding(t, QuoteOf(job, u), Hashed(0))]),
                                t, RoundFunding, u, Some(Paying(0, true)))
  {
    bs, es := FirstAsked(t, job, u);
    var s1, s2, s3 := FirstVerdict(t, job, u);
    bs, es := GoPaying(job, bs, es, FundHash(job.callKey), s1);
    bs, es := GoBeside(job, bs, es, Mine(0, false), s2);
    bs, es := GoBeside(job, bs, es, VerifyPayment(t, u), s3);
  }

  lemma FirstPayment(t: TabId, job: Job, u: Uuid) returns (bs: seq<Batch>, es: seq<BatchEvent>)
    requires JobOk(job)
    ensures BatchRun([job], bs, es) && |bs| == |es| + 1 && OnlyRunnerAsks([job], es)
    ensures bs[|es|] == InRound(FellBackOnce(t, job, u), t, RoundQuoted, u, None)
  {
    var s := FellBackOnce(t, job, u).(funding := map[job.callKey := Funding(t, QuoteOf(job, u), Hashed(0))]);
    bs, es := FirstReverted(t, job, u);
    bs, es := GoBack(t, job, bs, es, s, u, RevertedRow(job, u), 0);
  }

  // The refund has its own hash, and the row still says reverted; the round fell back again.
  function FellBackTwice(t: TabId, job: Job, u: Uuid): State {
    QuotedState(t, job, u).(
      rows := map[BundleId(u) := RevertedRow(job, u).(hash := Some(1))], funded := {(t, u)}, tainted := {u},
      sends := [Send(u, Some(false), VerifiedReverted), Send(u, None, Unsettled)])
  }

  lemma SecondAsked(t: TabId, job: Job, u: Uuid) returns (bs: seq<Batch>, es: seq<BatchEvent>)
    requires JobOk(job)
    ensures BatchRun([job], bs, es) && |bs| == |es| + 1 && OnlyRunnerAsks([job], es)
    ensures bs[|es|] == InRound(AskedFor(FellBackOnce(t, job, u), t, job, u, RevertedRow(job, u)), t, RoundFunding, u,
                                Some(Paying(0, true)))
  {
    var r := RevertedRow(job, u);
    bs, es := FirstPayment(t, job, u);
    bs, es := GoAgain(t, job, bs, es, FellBackOnce(t, job, u), u, r);
    var s: State;
    bs, es, s := GoFund(t, job, bs, es, FellBackOnce(t, job, u), u, r);
  }

  lemma StaleVerdict(t: TabId, job: Job, u: Uuid) returns (s1: State, s2: State)
    ensures var s := AskedFor(FellBackOnce(t, job, u), t, job, u, RevertedRow(job, u));
            && Goes(s, Step(VerifyPayment(t, u), {}), s1) && Goes(s1, Step(FundHash(job.callKey), {}), s2)
    ensures s2 == FellBackTwice(t, job, u).(
                    funding := map[job.callKey := Funding(t, QuoteOf(job, u), Hashed(1))])
  {
    var r := RevertedRow(job, u);
    var r1 := Merge(r, SubmittedPatch(QuoteOf(job, u)));
    s1 := Verifies(AskedFor(FellBackOnce(t, job, u), t, job, u, r), t, u, r1, 0);
    assert Merge(r1, Guard(r1, REVERTED_PATCH)) == r;
    s2 := Hashes(s1, t, job, u, r, 1);
    assert Merge(r, Guard(r, HashPatch(1))) == r.(hash := Some(1));
  }

  lemma SecondHashed(t: TabId, job: Job, u: Uuid) returns (bs: seq<Batch>, es: seq<BatchEvent>)
    requires JobOk(job)
    ensures BatchRun([job], bs, es) && |bs| == |es| + 1 && OnlyRunnerAsks([job], es)
    ensures bs[|es|] == InRound(FellBackTwice(t, job, u).(
                                  funding := map[job.callKey := Funding(t, QuoteOf(job, u), Hashed(1))]),
                                t, RoundFunding, u, Some(Paying(0, true)))
  {
    bs, es := SecondAsked(t, job, u);
    var s1, s2 := StaleVerdict(t, job, u);
    bs, es := GoBeside(job, bs, es, VerifyPayment(t, u), s1);
    bs, es := GoPaying(job, bs, es, FundHash(job.callKey), s2);
  }

  lemma SecondPayment(t: TabId, job: Job, u: Uuid) returns (bs: seq<Batch>, es: seq<BatchEvent>)
    requires JobOk(job)
    ensures BatchRun([job], bs, es) && |bs| == |es| + 1 && OnlyRunnerAsks([job], es)
    ensures bs[|es|] == InRound(FellBackTwice(t, job, u), t, RoundQuoted, u, None)
  {
    var s := FellBackTwice(t, job, u).(funding := map[job.callKey := Funding(t, QuoteOf(job, u), Hashed(1))]);
    bs, es := SecondHashed(t, job, u);
    bs, es := GoBack(t, job, bs, es, s, u, RevertedRow(job, u).(hash := Some(1)), 1);
  }

  /**
   A run where a round saved as quoted is executed although only its runner asked the wallet. The
   first payment reverted. While the runner refunds it, the old hash is verified once more; so
   the row says reverted beside the new hash, the round falls back to its quote with a payment
   that may still pay, and that payment succeeds.
   */
  lemma StaleRevertExecutes(t: TabId, job: Job, u: Uuid) returns (bs: seq<Batch>, es: seq<BatchEvent>)
    requires JobOk(job)
    ensures BatchRun([job], bs, es) && |bs| == |es| + 1
    ensures (forall e | e in es :: !FundedElsewhere([job], e)) && Preempted(bs[|es|], 0)
  {
    var s, r := FellBackTwice(t, job, u), RevertedRow(job, u).(hash := Some(1));
    bs, es := SecondPayment(t, job, u);
    var s1 := Mines(s, 1, true);
    bs, es := GoBeside(job, bs, es, Mine(1, true), s1);
    var s2 := Verifies(s1, t, u, r, 1);
    bs, es := GoBeside(job, bs, es, VerifyPayment(t, u), s2);
    var s3 := Succeeds(s2, u, Merge(r, Guard(r, CONFIRMED_PATCH)), 1);
    bs, es := GoBeside(job, bs, es, PollSuccess(u, 1), s3);
    assert OfRound(bs[|es|], 0, u) && u in bs[|es|].relayr.resolved;
  }
}
