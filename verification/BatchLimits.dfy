/**
 Where the guarantees for a round stop.

 Its bundle is paid and executed from elsewhere while the round is saved as quoted. The success row
 blocks nothing, so the resumed round signs again. `BatchRuns.OnlyPaidElsewhere` says when that
 takes a payment from elsewhere.
 */
module BatchLimits {
  import opened Prelude
  import opened Runs
  import opened Identities
  import opened ActivityStore
  import opened RelayrProtocol
  import opened RelayrRuns
  import opened RelayrLimits
  import opened BatchRunner
  import opened BatchRuns

  // ---------------------------------------------------------------- paid from elsewhere

  // Some tab remembers the quote of a bundle which is still to be funded.
  predicate ToBePaid(s: State, t: TabId, u: Uuid) {
    && CanFundBegin(s, t, u) && s.quotes[(t, u)].bundle == u && u in s.issued
    && BundleId(u) in s.rows && s.rows[BundleId(u)].bundle == Some(u)
  }

  // What a payment from elsewhere leaves as it was, and the row it changes.
  ghost predicate Beside(s: State, s': State, u: Uuid) {
    && s'.pubs == s.pubs && s'.issued == s.issued && s'.authorizing == s.authorizing
    && BundleId(u) in s'.rows
    && forall id | id != BundleId(u) :: At(s'.rows, id) == At(s.rows, id)
  }

  lemma PatchedBeside(rows: Rows, id: Id, p: Patch)
    requires id in rows
    ensures var rows' := UpdateMap(rows, id, p, {});
            && id in rows' && rows'[id] == Merge(rows[id], Guard(rows[id], p))
            && forall x | x != id :: At(rows', x) == At(rows, x)
  {
  }

  lemma Asked(s: State, t: TabId, u: Uuid) returns (s1: State, s2: State)
    requires ToBePaid(s, t, u)
    ensures var ck := s.quotes[(t, u)].callKey;
            && Path(Goes, [s, s1, s2], [Step(FundBegin(t, u), {}), Step(FundCommit(ck, true), {})])
            && Beside(s, s2, u) && s2.sends == s.sends + [Send(u, None, Unsettled)]
            && ck in s2.funding && s2.funding[ck].pc == Sent(|s.sends|) && s2.funding[ck].quote.bundle == u
  {
    var ck := s.quotes[(t, u)].callKey;
    s1 := DoFundBegin(s, t, u);
    BeginGoes(s, t, u);
    CommitGoes(s1, ck);
    s2 := DoFundCommit(s1, ck, true, {});
    TwoSteps(Goes, s, Step(FundBegin(t, u), {}), s1, Step(FundCommit(ck, true), {}), s2);
  }

  lemma Answered(s: State, ck: CallKey, u: Uuid, n: nat) returns (s1: State, s2: State)
    requires ck in s.funding && s.funding[ck].pc == Sent(n) && s.funding[ck].quote.bundle == u && BundleId(u) in s.rows
    requires n < |s.sends| && s.sends[n] == Send(u, None, Unsettled)
    ensures Path(Goes, [s, s1, s2], [Step(FundHash(ck), {}), Step(Mine(n, true), {})])
    ensures Beside(s, s2, u) && s2.rows[BundleId(u)].hash == Some(n)
    ensures |s2.sends| == |s.sends| && s2.sends[n] == Send(u, Some(true), Unsettled)
  {
    s1 := DoFundHash(s, ck, {});
    PatchedBeside(s.rows, BundleId(u), HashPatch(n));
    s2 := s1.(sends := s1.sends[n := s1.sends[n].(mined := Some(true))]);
    TwoSteps(Goes, s, Step(FundHash(ck), {}), s1, Step(Mine(n, true), {}), s2);
  }

  lemma Confirmed(s: State, t: TabId, u: Uuid, n: nat) returns (s1: State, s2: State)
    requires BundleId(u) in s.rows && s.rows[BundleId(u)].hash == Some(n) && u in s.issued
    requires n < |s.sends| && s.sends[n] == Send(u, Some(true), Unsettled)
    ensures Path(Goes, [s, s1, s2], [Step(VerifyPayment(t, u), {}), Step(PollSuccess(u, n), {})])
    ensures Beside(s, s2, u) && u in s2.resolved
    ensures s2.rows[BundleId(u)].status == Success && s2.rows[BundleId(u)].pay == Some(PayStatus.Confirmed)
  {
    VerifyGoes(s, t, u);
    s1 := DoVerify(s, t, u, {});
    PatchedBeside(s.rows, BundleId(u), CONFIRMED_PATCH);
    PatchedBeside(s1.rows, BundleId(u), SUCCESS_PATCH);
    s2 := UpdateBundle(s1, u, SUCCESS_PATCH, {}).(resolved := s1.resolved[u := n]);
    TwoSteps(Goes, s, Step(VerifyPayment(t, u), {}), s1, Step(PollSuccess(u, n), {}), s2);
  }

  lemma BesideTwice(s: State, s': State, s'': State, u: Uuid)
    requires Beside(s, s', u) && Beside(s', s'', u)
    ensures Beside(s, s'', u)
  {
  }

  // ---------------------------------------------------------------- quoted again

  // The runner is at a round saved as quoted, and nothing but its bundle holds the round's calls.
  predicate AtQuoted(jobs: Jobs, b: Batch, k: nat, u: Uuid) {
    && k < |jobs| && k < |b.rounds| && b.rounds[k] == Round(RoundQuoted, Some(u))
    && Place(b) == Some(Top(k)) && jobs[k] == JobOf(jobs[k].account, jobs[k].requests)
    && jobs[k].account !in b.relayr.authorizing
    && forall id | id in b.relayr.rows && id != BundleId(u) ::
         && !Blocks(b.relayr.rows[id], None, jobs[k].callKey, jobs[k].keys)
         && !Reusable(b.relayr.rows[id], jobs[k].callKey)
  }

  predicate Done(s: State, u: Uuid) {
    && u in s.issued && u in s.resolved && BundleId(u) in s.rows
    && s.rows[BundleId(u)].status == Success && s.rows[BundleId(u)].pay == Some(PayStatus.Confirmed)
  }

  lemma DoneUnblocked(jobs: Jobs, b: Batch, k: nat, u: Uuid)
    requires AtQuoted(jobs, b, k, u) && Done(b.relayr, u)
    ensures CanAuthBegin(b.relayr, jobs[k])
  {
  }

  // The rows after one whole authorization of a job, and the protocol.
  function AuthorizedRows(rows: Rows, job: Job, v: Uuid): Rows {
    DismissMap(BundleRows(PublicationRows(rows, job, {}), job, v, {}), PublicationId(job.callKey), {})
  }

  function Authorized(s: State, t: TabId, job: Job, v: Uuid): State {
    s.(rows := AuthorizedRows(s.rows, job, v), pubs := s.pubs + [Publication(job, Some(v))],
       quotes := s.quotes[(t, v) := Quote(v, job.account, job.callKey, job.keys)],
       issued := s.issued[v := |s.pubs|])
  }

  lemma AuthorizedElsewhere(rows: Rows, job: Job, v: Uuid, id: Id)
    requires id != BundleId(v) && id != PublicationId(job.callKey)
    ensures At(AuthorizedRows(rows, job, v), id) == At(rows, id)
  {
  }

  // The only new bundle of the round is `v`.
  ghost predicate OnlyAdds(b: Batch, b': Batch, k: nat, v: Uuid) {
    b'.relayr.resolved == b.relayr.resolved && forall u | OfRound(b', k, u) :: u == v || OfRound(b, k, u)
  }

  lemma EntersRound(jobs: Jobs, b: Batch, k: nat) returns (b': Batch)
    requires k < |b.rounds| && Place(b) == Some(Top(k)) && Unpaid(b.rounds[k])
    ensures Took(jobs, b, Enter, b') && b' == Move(b, Quoting(k, false))
  {
    assert b.rounds[k := b.rounds[k]] == b.rounds;
    b' := EnterRound(b, k);
  }

  lemma BeginsRound(jobs: Jobs, b: Batch, k: nat) returns (b': Batch)
    requires k < |jobs| && Place(b) == Some(Quoting(k, false)) && CanAuthBegin(b.relayr, jobs[k])
    ensures Took(jobs, b, Own(AuthBegin(b.runner.value.tab, jobs[k]), {}), b')
    ensures b' == Move(b, Quoting(k, true)).(relayr := DoAuthBegin(b.relayr, b.runner.value.tab, jobs[k]))
  {
    b' := OwnStep(b, AuthBegin(b.runner.value.tab, jobs[k]), {});
  }

  // The publication row is written and the signatures are posted.
  function PostedState(s: State, t: TabId, job: Job): State {
    s.(rows := PublicationRows(s.rows, job, {}), pubs := s.pubs + [Publication(job, None)],
       authorizing := s.authorizing[job.account := Authorizing(t, job, Posted(|s.pubs|))])
  }

  lemma PostedIs(s: State, t: TabId, job: Job)
    requires CanAuthBegin(s, job)
    ensures CanAuthPublish(DoAuthBegin(s, t, job), job.account)
    ensures DoAuthPublish(DoAuthBegin(s, t, job), job.account, true, {}) == PostedState(s, t, job)
  {
  }

  lemma PostsRound(jobs: Jobs, b: Batch, s: State, k: nat) returns (b': Batch)
    requires k < |jobs| && Place(b) == Some(Quoting(k, true)) && CanAuthBegin(s, jobs[k])
    requires b.relayr == DoAuthBegin(s, b.runner.value.tab, jobs[k])
    ensures Took(jobs, b, Own(AuthPublish(jobs[k].account, true), {}), b')
    ensures b' == b.(relayr := PostedState(s, b.runner.value.tab, jobs[k]), owner := b.owner[|s.pubs| := k])
  {
    PostedIs(s, b.runner.value.tab, jobs[k]);
    b' := OwnStep(b, AuthPublish(jobs[k].account, true), {});
  }

  lemma AuthorizedIs(s: State, t: TabId, job: Job, v: Uuid)
    requires job.account !in s.authorizing && v !in s.issued
    ensures CanAuthReceive(PostedState(s, t, job), job.account, v)
    ensures DoAuthReceive(PostedState(s, t, job), job.account, v, true, {}) == Authorized(s, t, job, v)
  {
    assert s.authorizing[job.account := Authorizing(t, job, Posted(|s.pubs|))] - {job.account} == s.authorizing;
    assert Named(s.pubs + [Publication(job, None)], |s.pubs|, v) == s.pubs + [Publication(job, Some(v))];
  }

  lemma ReceivesRound(jobs: Jobs, b: Batch, s: State, k: nat, v: Uuid) returns (b': Batch)
    requires k < |jobs| && Place(b) == Some(Quoting(k, true)) && jobs[k].account !in s.authorizing && v !in s.issued
    requires b.relayr == PostedState(s, b.runner.value.tab, jobs[k])
    ensures Took(jobs, b, Own(AuthReceive(jobs[k].account, v, true), {}), b')
    ensures b' == Move(b, Got(k, v)).(relayr := Authorized(s, b.runner.value.tab, jobs[k], v))
  {
    AuthorizedIs(s, b.runner.value.tab, jobs[k], v);
    b' := OwnStep(b, AuthReceive(jobs[k].account, v, true), {});
  }

  lemma SavesRound(jobs: Jobs, b: Batch, k: nat, v: Uuid) returns (b': Batch)
    requires k < |b.rounds| && Place(b) == Some(Got(k, v))
    ensures Took(jobs, b, SaveQuoted, b')
    ensures b' == Move(b, Choosing(k)).(rounds := b.rounds[k := Round(RoundQuoted, Some(v))])
  {
    b' := NextBatch(jobs, b, SaveQuoted);
  }

  // ---------------------------------------------------------------- the run

  // The other tab pays.
  function Payment(t: TabId, ck: CallKey, u: Uuid, n: nat): seq<Step> {
    [Step(FundBegin(t, u), {}), Step(FundCommit(ck, true), {})]
    + [Step(FundHash(ck), {}), Step(Mine(n, true), {})]
    + [Step(VerifyPayment(t, u), {}), Step(PollSuccess(u, n), {})]
  }

  // The round is resumed.
  function Resumption(t: TabId, job: Job, v: Uuid): seq<BatchEvent> {
    [Enter, Own(AuthBegin(t, job), {}), Own(AuthPublish(job.account, true), {}),
     Own(AuthReceive(job.account, v, true), {}), SaveQuoted]
  }

  // Nobody's tab dies in such a step.
  predicate Calm(e: Event) { !e.AuthPublish? && !e.AuthReceive? && !e.Crash? && (e.FundCommit? ==> e.asked) }

  function AsEnv(steps: seq<Step>): seq<BatchEvent> {
    seq(|steps|, i requires 0 <= i < |steps| => Env(steps[i].event, steps[i].gone))
  }

  // A run of the protocol beside a runner that is between two rounds.
  lemma Lifted(jobs: Jobs, b: Batch, ss: seq<State>, steps: seq<Step>) returns (bs: seq<Batch>)
    requires Path(Goes, ss, steps) && ss[0] == b.relayr && Place(b).Some? && Place(b).value.Top?
    requires forall step | step in steps :: Calm(step.event)
    ensures Path((b, e, b') => Took(jobs, b, e, b'), bs, AsEnv(steps))
    ensures bs[0] == b && bs[|steps|] == b.(relayr := ss[|steps|])
  {
    bs := seq(|ss|, i requires 0 <= i < |ss| => b.(relayr := ss[i]));
    forall k: nat | k < |steps| ensures Took(jobs, bs[k], AsEnv(steps)[k], bs[k + 1]) {
      assert Goes(ss[k], steps[k], ss[k + 1]) && steps[k] in steps;
    }
  }

  lemma PaidElsewhere(s: State, t: TabId, u: Uuid) returns (ss: seq<State>)
    requires ToBePaid(s, t, u)
    ensures var steps := Payment(t, s.quotes[(t, u)].callKey, u, |s.sends|);
            Path(Goes, ss, steps) && ss[0] == s && |steps| == 6
    ensures Done(ss[6], u) && Beside(s, ss[6], u)
  {
    var ck, n := s.quotes[(t, u)].callKey, |s.sends|;
    var s1, s2 := Asked(s, t, u);
    var s3, s4 := Answered(s2, ck, u, n);
    var s5, s6 := Confirmed(s4, t, u, n);
    BesideTwice(s, s2, s4, u);
    BesideTwice(s, s4, s6, u);
    ss := Three(s, s1, s2, s3, s4, s5, s6,
                [Step(FundBegin(t, u), {}), Step(FundCommit(ck, true), {})],
                [Step(FundHash(ck), {}), Step(Mine(n, true), {})],
                [Step(VerifyPayment(t, u), {}), Step(PollSuccess(u, n), {})]);
  }

  lemma Three(
    s: State, s1: State, s2: State, s3: State, s4: State, s5: State, s6: State,
    a: seq<Step>, b: seq<Step>, c: seq<Step>) returns (ss: seq<State>)
    requires Path(Goes, [s, s1, s2], a) && Path(Goes, [s2, s3, s4], b) && Path(Goes, [s4, s5, s6], c)
    ensures Path(Goes, ss, a + b + c) && ss[0] == s && |ss| == 7 && ss[6] == s6
  {
    Joined(Goes, [s, s1, s2], a, [s2, s3, s4], b);
    ss := [s, s1, s2] + [s2, s3, s4][1..];
    Joined(Goes, ss, a + b, [s4, s5, s6], c);
    ss := ss + [s4, s5, s6][1..];
  }

  lemma BesideAtQuoted(jobs: Jobs, b: Batch, s': State, k: nat, u: Uuid)
    requires AtQuoted(jobs, b, k, u) && Beside(b.relayr, s', u)
    ensures AtQuoted(jobs, b.(relayr := s'), k, u)
  {
    forall id | id in s'.rows && id != BundleId(u) ensures id in b.relayr.rows && b.relayr.rows[id] == s'.rows[id] {
      assert At(s'.rows, id) == At(b.relayr.rows, id);
    }
  }

  // A round that is ready or quoted is taken, signed and saved with another bundle.
  lemma Requoted(jobs: Jobs, b: Batch, k: nat, v: Uuid) returns (bs: seq<Batch>)
    requires k < |jobs| && k < |b.rounds| && Place(b) == Some(Top(k)) && Unpaid(b.rounds[k])
    requires CanAuthBegin(b.relayr, jobs[k]) && v !in b.relayr.issued
    ensures Path((b, e, b') => Took(jobs, b, e, b'), bs, Resumption(b.runner.value.tab, jobs[k], v)) && |bs| == 6
    ensures bs == RequotedStates(jobs, b, k, v)
  {
    var run, s, t, a := (b, e, b') => Took(jobs, b, e, b'), b.relayr, b.runner.value.tab, jobs[k].account;
    var b1 := EntersRound(jobs, b, k);
    var b2 := BeginsRound(jobs, b1, k);
    var b3 := PostsRound(jobs, b2, s, k);
    var b4 := ReceivesRound(jobs, b3, s, k, v);
    var b5 := SavesRound(jobs, b4, k, v);
    bs := [b, b1, b2, b3, b4, b5];
    FiveSteps(run, b, Enter, b1, Own(AuthBegin(t, jobs[k]), {}), b2, Own(AuthPublish(a, true), {}), b3,
              Own(AuthReceive(a, v, true), {}), b4, SaveQuoted, b5);
  }

  function RequotedStates(jobs: Jobs, b: Batch, k: nat, v: Uuid): seq<Batch>
    requires k < |jobs| && k < |b.rounds| && b.runner.Some?
  {
    var s, t, job := b.relayr, b.runner.value.tab, jobs[k];
    var owner, at := b.owner[|s.pubs| := k], Runner(t, Quoting(k, true));
    var rounds := b.rounds[k := Round(RoundQuoted, Some(v))];
    [b, Move(b, Quoting(k, false)),
     b.(relayr := DoAuthBegin(s, t, job), runner := Some(at)),
     b.(relayr := PostedState(s, t, job), runner := Some(at), owner := owner),
     Move(b, Got(k, v)).(relayr := Authorized(s, t, job, v), owner := owner),
     Move(b, Choosing(k)).(relayr := Authorized(s, t, job, v), owner := owner, rounds := rounds)]
  }

  lemma RequotedAdds(jobs: Jobs, b: Batch, k: nat, v: Uuid, m: nat)
    requires k < |jobs| && k < |b.rounds| && b.runner.Some? && m < 6 && IssuedOk(b.relayr.pubs, b.relayr.issued)
    ensures OnlyAdds(b, RequotedStates(jobs, b, k, v)[m], k, v)
  {
    var b' := RequotedStates(jobs, b, k, v)[m];
    forall u | OfRound(b', k, u) ensures u == v || OfRound(b, k, u) {
    }
  }

  /**
   A second bundle. Whenever a round is saved as quoted, another tab remembers the quote of its
   bundle, and nothing else holds the round's calls, this run exists: the other tab pays and
   executes the bundle, and the resumed round signs its calls again and saves another bundle.
   */
  lemma PaidElsewhereSignsAgain(jobs: Jobs, b: Batch, k: nat, u: Uuid, t: TabId, v: Uuid)
    returns (bs: seq<Batch>, es: seq<BatchEvent>)
    requires AtQuoted(jobs, b, k, u) && ToBePaid(b.relayr, t, u) && b.relayr.quotes[(t, u)].callKey == jobs[k].callKey
    requires v !in b.relayr.issued
    ensures es == AsEnv(Payment(t, jobs[k].callKey, u, |b.relayr.sends|)) + Resumption(b.runner.value.tab, jobs[k], v)
    ensures Path((b, e, b') => Took(jobs, b, e, b'), bs, es) && |bs| == 12 && bs[0] == b
    ensures Preempted(bs[6], k)
    ensures k < |bs[11].rounds| && bs[11].rounds[k].bundle == Some(v) && v != u
  {
    var steps := Payment(t, jobs[k].callKey, u, |b.relayr.sends|);
    var ss := PaidElsewhere(b.relayr, t, u);
    var paid := Lifted(jobs, b, ss, steps);
    BesideAtQuoted(jobs, b, ss[6], k, u);
    assert OfRound(paid[6], k, u);
    DoneUnblocked(jobs, paid[6], k, u);
    var resumed := Requoted(jobs, paid[6], k, v);
    Joined((b, e, b') => Took(jobs, b, e, b'), paid, AsEnv(steps), resumed, Resumption(b.runner.value.tab, jobs[k], v));
    bs := paid + resumed[1..];
    es := AsEnv(steps) + Resumption(b.runner.value.tab, jobs[k], v);
  }
}
