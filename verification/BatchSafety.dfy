/**
 Every step of a saved batch on the Relayr route, and of everything around it, keeps the
 invariant `BatchRunner.BatchInv`.

 The protocol's registry only grows (`EventGrows`): publications keep their calls, names and
 executions stay. So a step elsewhere, whatever tab makes it and whatever calls it concerns,
 leaves the batch as it was (`EnvStep`). A step of the runner's own call happens only where the
 runner waits for it: an authorization adds a publication of the round's calls, its answer names
 one, a reuse takes up a bundle that was signed for the same calls (`OwnStepKeeps`). A step of
 the runner itself changes the rounds and its place, and nothing of the protocol (`LocalStep`).

 The second half is about the bundles of one round. Two publications of the same calls are never
 both open (`SameOpen`, `FreshIsAlone`). So while no bundle of a round was executed behind its
 back, the round has one publication and one bundle (`SingleStep`). It can be executed behind its
 back only by a payment that the runner did not make: as long as bundles that can be funded are
 over, a round saved as ready or quoted has no send that may still pay (`UnfundedStep`).
 */
module BatchSafety {
  import opened Prelude
  import opened Identities
  import opened RelayrProtocol
  import opened RelayrSafety
  import opened RelayrRuns
  import opened BatchRunner

  // ---------------------------------------------------------------- the registry grows

  ghost predicate Grows(r: State, r': State) {
    && |r.pubs| <= |r'.pubs|
    && (forall p: nat | p < |r.pubs| :: r'.pubs[p].job == r.pubs[p].job)
    && (forall p: nat | p < |r.pubs| && r.pubs[p].bundle.Some? :: r'.pubs[p].bundle == r.pubs[p].bundle)
    && (forall u | u in r.issued :: u in r'.issued && r'.issued[u] == r.issued[u])
    && (forall u | u in r.resolved :: u in r'.resolved)
    && r.tainted <= r'.tainted
  }

  lemma SameRegistryGrows(r: State, r': State)
    requires r'.pubs == r.pubs && r'.issued == r.issued && r.tainted <= r'.tainted
    requires forall u | u in r.resolved :: u in r'.resolved
    ensures Grows(r, r')
  {
  }

  lemma PublishedRegistry(r: State, a: Account, posted: bool, gone: set<Id>)
    requires CanAuthPublish(r, a)
    ensures var r' := DoAuthPublish(r, a, posted, gone);
            && r'.pubs == r.pubs + (if posted then [Publication(r.authorizing[a].job, None)] else [])
            && r'.issued == r.issued && r'.resolved == r.resolved && r'.sends == r.sends && r'.tainted == r.tainted
  {
  }

  lemma ReceivedRegistry(r: State, a: Account, u: Uuid, tidied: bool, gone: set<Id>)
    requires CanAuthReceive(r, a, u)
    ensures var r' := DoAuthReceive(r, a, u, tidied, gone);
            && r'.issued == r.issued[u := r.authorizing[a].pc.pub]
            && r'.pubs == Named(r.pubs, r.authorizing[a].pc.pub, u)
            && r'.resolved == r.resolved && r'.sends == r.sends && r'.tainted == r.tainted
  {
  }

  // The other steps of an authorization leave the registry alone.
  lemma QuietRegistry(r: State, e: Event, gone: set<Id>)
    requires Enabled(r, e, gone) && (e.Reuse? || e.AuthBegin? || e.AuthAbort?)
    ensures var r' := Next(r, e, gone);
            && r'.pubs == r.pubs && r'.issued == r.issued && r'.resolved == r.resolved
            && r'.sends == r.sends && r'.tainted == r.tainted
  {
  }

  ghost predicate SameRegistry(r: State, r': State) {
    r'.pubs == r.pubs && r'.issued == r.issued && r'.resolved == r.resolved
  }

  lemma AskingRegistry(r: State, e: Event, gone: set<Id>)
    requires Enabled(r, e, gone) && (e.FundBegin? || e.FundAbort? || e.FundCommit?)
    ensures SameRegistry(r, Next(r, e, gone))
  {
  }

  lemma AnsweredRegistry(r: State, e: Event, gone: set<Id>)
    requires Enabled(r, e, gone) && (e.FundReject? || e.FundUncertain? || e.FundHash? || e.FundEnd?)
    ensures SameRegistry(r, Next(r, e, gone))
  {
  }

  lemma ChainRegistry(r: State, e: Event, gone: set<Id>)
    requires Enabled(r, e, gone) && (e.Mine? || e.VerifyPayment? || e.PollStatus?)
    ensures SameRegistry(r, Next(r, e, gone))
  {
  }

  lemma OtherRegistry(r: State, e: Event, gone: set<Id>)
    requires Enabled(r, e, gone) && (e.UserDismiss? || e.Foreign? || e.Crash?)
    ensures SameRegistry(r, Next(r, e, gone))
  {
  }

  lemma SuccessRegistry(r: State, u: Uuid, n: nat, gone: set<Id>)
    requires Enabled(r, PollSuccess(u, n), gone)
    ensures var r' := Next(r, PollSuccess(u, n), gone);
            r'.pubs == r.pubs && r'.issued == r.issued && r'.resolved == r.resolved[u := n] && r'.sends == r.sends
  {
  }

  // Nothing but an authorization changes the publications, nothing but a success what is executed.
  lemma OtherwiseRegistry(r: State, e: Event, gone: set<Id>)
    requires Enabled(r, e, gone) && !OfAuthorizing(e)
    ensures var r' := Next(r, e, gone);
            && r'.pubs == r.pubs && r'.issued == r.issued
            && r'.resolved == if e.PollSuccess? then r.resolved[e.uuid := e.paid] else r.resolved
  {
    if e.FundBegin? || e.FundAbort? || e.FundCommit? {
      AskingRegistry(r, e, gone);
    } else if OfFunding(e) {
      AnsweredRegistry(r, e, gone);
    } else if e.Mine? || e.VerifyPayment? || e.PollStatus? {
      ChainRegistry(r, e, gone);
    } else if e.PollSuccess? {
      SuccessRegistry(r, e.uuid, e.paid, gone);
    } else {
      OtherRegistry(r, e, gone);
    }
  }

  lemma AuthorizingGrows(r: State, e: Event, gone: set<Id>)
    requires AuthOk(r.authorizing, r.pubs) && Enabled(r, e, gone) && OfAuthorizing(e)
    ensures Grows(r, Next(r, e, gone))
  {
    if e.AuthPublish? {
      PublishedRegistry(r, e.account, e.posted, gone);
    } else if e.AuthReceive? {
      ReceivedRegistry(r, e.account, e.uuid, e.tidied, gone);
      NamedJobs(r.pubs, r.authorizing[e.account].pc.pub, e.uuid);
    } else {
      QuietRegistry(r, e, gone);
    }
  }

  lemma OtherwiseGrows(r: State, e: Event, gone: set<Id>)
    requires Enabled(r, e, gone) && !OfAuthorizing(e)
    ensures Grows(r, Next(r, e, gone))
  {
    if OfFunding(e) {
      FundingTaints(r, e, gone);
    } else {
      ObservingTaints(r, e, gone);
    }
    OtherwiseRegistry(r, e, gone);
    SameRegistryGrows(r, Next(r, e, gone));
  }

  lemma EventGrows(r: State, e: Event, gone: set<Id>)
    requires AuthOk(r.authorizing, r.pubs) && Enabled(r, e, gone)
    ensures Grows(r, Next(r, e, gone))
  {
    if OfAuthorizing(e) {
      AuthorizingGrows(r, e, gone);
    } else {
      OtherwiseGrows(r, e, gone);
    }
  }

  // ---------------------------------------------------------------- the invariant of the batch

  lemma GrownOwner(jobs: Jobs, owner: map<nat, nat>, r: State, r': State)
    requires OwnerOk(jobs, owner, r.pubs) && Grows(r, r')
    ensures OwnerOk(jobs, owner, r'.pubs)
  {
  }

  lemma GrownRounds(rounds: seq<Round>, owner: map<nat, nat>, r: State, r': State)
    requires RoundsOk(rounds, owner, r.resolved) && Grows(r, r')
    ensures RoundsOk(rounds, owner, r'.resolved)
  {
  }

  // The registry grew, and the runner is where it was or stopped.
  lemma GrownBatch(jobs: Jobs, b: Batch, b': Batch)
    requires BatchOk(jobs, b) && Grows(b.relayr, b'.relayr) && b'.rounds == b.rounds && b'.owner == b.owner
    requires b'.finished == b.finished && (b'.runner.None? || b'.runner == b.runner)
    ensures BatchOk(jobs, b')
  {
    GrownOwner(jobs, b.owner, b.relayr, b'.relayr);
    GrownRounds(b.rounds, b.owner, b.relayr, b'.relayr);
    GrownBundles(jobs, b, b');
  }

  lemma GrownBundles(jobs: Jobs, b: Batch, b': Batch)
    requires RoundsSigned(jobs, b) && Grows(b.relayr, b'.relayr) && b'.rounds == b.rounds
    requires b'.runner.None? || b'.runner == b.runner || !b'.runner.value.pc.Got?
    ensures RoundsSigned(jobs, b')
  {
  }

  lemma EnvStep(jobs: Jobs, b: Batch, e: Event, gone: set<Id>)
    requires BatchInv(jobs, b) && EnabledBatch(jobs, b, Env(e, gone))
    ensures BatchInv(jobs, NextBatch(jobs, b, Env(e, gone)))
  {
    StepKeepsInv(b.relayr, e, gone);
    EventGrows(b.relayr, e, gone);
    GrownBatch(jobs, b, NextBatch(jobs, b, Env(e, gone)));
  }

  // A quote taken up was signed for the calls it is taken up for.
  lemma ReusedSigned(r: State, job: Job, u: Uuid)
    requires RowsOk(r.rows, r.pubs, r.issued, r.resolved, r.sends) && CanReuse(r, job, u)
    ensures Signed(r, u, job.callKey)
  {
    assert RowOk(BundleId(u), r.rows[BundleId(u)], r.pubs, r.issued, r.resolved, r.sends);
  }

  lemma ReceivedSigned(r: State, a: Account, u: Uuid, tidied: bool, gone: set<Id>)
    requires AuthOk(r.authorizing, r.pubs) && CanAuthReceive(r, a, u)
    ensures Signed(DoAuthReceive(r, a, u, tidied, gone), u, r.authorizing[a].job.callKey)
  {
    ReceivedRegistry(r, a, u, tidied, gone);
  }

  // The bundle the runner got by its own call was signed for the calls of its round.
  lemma OwnGot(jobs: Jobs, b: Batch, e: Event, gone: set<Id>)
    requires RowsOk(b.relayr.rows, b.relayr.pubs, b.relayr.issued, b.relayr.resolved, b.relayr.sends)
    requires AuthOk(b.relayr.authorizing, b.relayr.pubs) && Enabled(b.relayr, e, gone) && CanOwn(jobs, b, e)
    requires e.Reuse? || e.AuthReceive?
    ensures b.runner.value.pc.Quoting? && b.runner.value.pc.k < |jobs|
    ensures Signed(Next(b.relayr, e, gone), e.uuid, jobs[b.runner.value.pc.k].callKey)
  {
    if e.Reuse? {
      ReusedSigned(b.relayr, e.job, e.uuid);
      QuietRegistry(b.relayr, e, gone);
    } else {
      ReceivedSigned(b.relayr, e.account, e.uuid, e.tidied, gone);
    }
  }

  lemma OwnReuse(jobs: Jobs, b: Batch, e: Event, gone: set<Id>)
    requires Enabled(b.relayr, e, gone) && CanOwn(jobs, b, e) && (e.Reuse? || e.AuthReceive?)
    requires RoundsSigned(jobs, b) && Grows(b.relayr, Next(b.relayr, e, gone))
    requires b.runner.value.pc.k < |jobs| && Signed(Next(b.relayr, e, gone), e.uuid, jobs[b.runner.value.pc.k].callKey)
    ensures RoundsSigned(jobs, OwnStep(b, e, gone))
  {
    GrownBundles(jobs, b, OwnStep(b, e, gone).(runner := None));
  }

  lemma OwnPublish(jobs: Jobs, b: Batch, a: Account, gone: set<Id>)
    requires OwnerOk(jobs, b.owner, b.relayr.pubs) && OwnAuth(jobs, b, a)
    requires Enabled(b.relayr, AuthPublish(a, true), gone)
    requires RoundsOk(b.rounds, b.owner, b.relayr.resolved) && PcOk(b.rounds, b.runner.value.pc)
    ensures var b' := OwnStep(b, AuthPublish(a, true), gone);
            OwnerOk(jobs, b'.owner, b'.relayr.pubs) && RoundsOk(b'.rounds, b'.owner, b'.relayr.resolved)
  {
    PublishedRegistry(b.relayr, a, true, gone);
  }

  lemma OwnPlace(jobs: Jobs, b: Batch, e: Event, gone: set<Id>)
    requires BatchOk(jobs, b) && EnabledBatch(jobs, b, Own(e, gone))
    ensures var b' := OwnStep(b, e, gone);
            && b'.rounds == b.rounds && b'.finished == b.finished
            && (b'.runner.Some? ==> PcOk(b'.rounds, b'.runner.value.pc))
            && (b'.runner.Some? && b'.runner.value.pc.Got? ==> e.Reuse? || e.AuthReceive?)
            && (e.AuthPublish? && e.posted ==> OwnAuth(jobs, b, e.account))
            && (!(e.AuthPublish? && e.posted) ==> b'.owner == b.owner)
  {
  }

  lemma OwnStepKeeps(jobs: Jobs, b: Batch, e: Event, gone: set<Id>)
    requires BatchInv(jobs, b) && EnabledBatch(jobs, b, Own(e, gone))
    ensures BatchInv(jobs, NextBatch(jobs, b, Own(e, gone)))
  {
    var b' := OwnStep(b, e, gone);
    StepKeepsInv(b.relayr, e, gone);
    EventGrows(b.relayr, e, gone);
    OwnPlace(jobs, b, e, gone);
    if e.AuthPublish? && e.posted {
      OwnPublish(jobs, b, e.account, gone);
    } else {
      GrownOwner(jobs, b.owner, b.relayr, b'.relayr);
      GrownRounds(b.rounds, b.owner, b.relayr, b'.relayr);
    }
    if e.Reuse? || e.AuthReceive? {
      OwnGot(jobs, b, e, gone);
      OwnReuse(jobs, b, e, gone);
    } else {
      GrownBundles(jobs, b, b');
    }
  }

  predicate Local(e: BatchEvent) { !e.Env? && !e.Own? }

  // A round that is not a success yet is saved again, with a bundle of its calls.
  lemma SetRoundOk(rounds: seq<Round>, owner: map<nat, nat>, resolved: map<Uuid, nat>, k: nat, x: Round)
    requires RoundsOk(rounds, owner, resolved) && k < |rounds| && Before(rounds, k) && !rounds[k].state.RoundSuccess?
    requires !x.state.RoundReady? && x.bundle.Some? && (x.state.RoundSuccess? ==> x.bundle.value in resolved)
    ensures RoundsOk(rounds[k := x], owner, resolved) && Before(rounds[k := x], k)
    ensures x.state.RoundSuccess? ==> Before(rounds[k := x], k + 1)
  {
    var next := rounds[k := x];
    forall j: nat | j < |next| && !next[j].state.RoundReady? ensures Before(next, j) {
      if j != k {
        NotPast(rounds, k, j);
      }
    }
    forall p | p in owner ensures Before(next, owner[p]) {
      NotPast(rounds, k, owner[p]);
    }
  }

  // What comes after successes only does not come after a round that is none.
  lemma NotPast(rounds: seq<Round>, k: nat, j: nat)
    requires Before(rounds, j) && k < |rounds| && !rounds[k].state.RoundSuccess?
    ensures j <= k
  {
  }

  lemma SetRoundSigned(jobs: Jobs, b: Batch, k: nat, x: Round, runner: Option<Runner>)
    requires RoundsSigned(jobs, b) && k < |b.rounds| && k < |jobs| && x.bundle.Some?
    requires Signed(b.relayr, x.bundle.value, jobs[k].callKey) && (runner.Some? ==> !runner.value.pc.Got?)
    ensures RoundsSigned(jobs, b.(rounds := b.rounds[k := x], runner := runner))
  {
  }

  lemma SetRoundStep(jobs: Jobs, b: Batch, k: nat, x: Round, runner: Option<Runner>)
    requires BatchOk(jobs, b) && k < |b.rounds| && Before(b.rounds, k) && !b.rounds[k].state.RoundSuccess?
    requires !b.finished
    requires !x.state.RoundReady? && x.bundle.Some? && (x.state.RoundSuccess? ==> x.bundle.value in b.relayr.resolved)
    requires Signed(b.relayr, x.bundle.value, jobs[k].callKey)
    requires runner.Some? ==>
               && !runner.value.pc.Got? && runner.value.pc.k == k + (if x.state.RoundSuccess? then 1 else 0)
               && PcOk(b.rounds[k := x], runner.value.pc)
    ensures BatchOk(jobs, b.(rounds := b.rounds[k := x], runner := runner))
  {
    SetRoundOk(b.rounds, b.owner, b.relayr.resolved, k, x);
    SetRoundSigned(jobs, b, k, x, runner);
  }

  lemma RoundStep(jobs: Jobs, b: Batch, e: BatchEvent)
    requires BatchOk(jobs, b) && EnabledBatch(jobs, b, e)
    requires e.SaveQuoted? || e.SaveFunding? || e.SavePending? || e.RoundDone?
    ensures BatchOk(jobs, NextBatch(jobs, b, e))
  {
    var k, b' := Place(b).value.k, NextBatch(jobs, b, e);
    SetRoundOk(b.rounds, b.owner, b.relayr.resolved, k, b'.rounds[k]);
    SetRoundStep(jobs, b, k, b'.rounds[k], b'.runner);
  }

  lemma FallBackStep(jobs: Jobs, b: Batch, e: BatchEvent)
    requires BatchOk(jobs, b) && EnabledBatch(jobs, b, e) && (e.Enter? || e.BackOff?)
    ensures BatchOk(jobs, NextBatch(jobs, b, e))
  {
    var k, b' := Place(b).value.k, NextBatch(jobs, b, e);
    if b.rounds[k].state.RoundFunding? && RowPayable(b.relayr, b.rounds[k].bundle) {
      SetRoundOk(b.rounds, b.owner, b.relayr.resolved, k, b'.rounds[k]);
      SetRoundStep(jobs, b, k, b'.rounds[k], b'.runner);
    } else {
      assert b'.rounds == b.rounds;
    }
  }

  lemma IdleStep(jobs: Jobs, b: Batch, e: BatchEvent)
    requires BatchOk(jobs, b) && EnabledBatch(jobs, b, e) && (e.Start? || e.Finish? || e.Exit? || e.Discard?)
    ensures BatchOk(jobs, NextBatch(jobs, b, e))
  {
  }

  lemma LocalRest(jobs: Jobs, b: Batch, e: BatchEvent)
    requires EnabledBatch(jobs, b, e) && Local(e)
    ensures NextBatch(jobs, b, e).relayr == b.relayr && NextBatch(jobs, b, e).owner == b.owner
  {
  }

  lemma LocalStep(jobs: Jobs, b: Batch, e: BatchEvent)
    requires BatchInv(jobs, b) && EnabledBatch(jobs, b, e) && Local(e)
    ensures BatchInv(jobs, NextBatch(jobs, b, e))
  {
    LocalRest(jobs, b, e);
    if e.SaveQuoted? || e.SaveFunding? || e.SavePending? || e.RoundDone? {
      RoundStep(jobs, b, e);
    } else if e.Enter? || e.BackOff? {
      FallBackStep(jobs, b, e);
    } else {
      IdleStep(jobs, b, e);
    }
  }

  /** Every step of the batch and of everything around it keeps the invariant. */
  lemma BatchStep(jobs: Jobs, b: Batch, e: BatchEvent)
    requires BatchInv(jobs, b) && EnabledBatch(jobs, b, e)
    ensures BatchInv(jobs, NextBatch(jobs, b, e))
  {
    match e
    case Env(f, gone) => EnvStep(jobs, b, f, gone);
    case Own(f, gone) => OwnStepKeeps(jobs, b, f, gone);
    case _ => LocalStep(jobs, b, e);
  }

  // ---------------------------------------------------------------- bundles of the same calls

  // Two bundles of the same calls, neither of them executed, are the same bundle.
  lemma SameOpen(r: State, u: Uuid, v: Uuid, ck: CallKey)
    requires IssuedOk(r.pubs, r.issued) && Exclusive(r.pubs, r.resolved)
    requires Signed(r, u, ck) && Signed(r, v, ck) && u !in r.resolved && v !in r.resolved
    ensures u == v
  {
    var i, j := r.issued[u], r.issued[v];
    assert i < j ==> Disjoint(r.pubs[i], r.pubs[j]);
    assert j < i ==> Disjoint(r.pubs[j], r.pubs[i]);
  }

  // Next to a publication without a name every bundle of the same calls was executed.
  lemma FreshIsAlone(r: State, u: Uuid, p: nat, ck: CallKey)
    requires IssuedOk(r.pubs, r.issued) && Exclusive(r.pubs, r.resolved) && Signed(r, u, ck)
    requires p < |r.pubs| && r.pubs[p].bundle.None? && r.pubs[p].job.callKey == ck
    ensures u in r.resolved
  {
    var i := r.issued[u];
    assert i < p && u !in r.resolved ==> Disjoint(r.pubs[i], r.pubs[p]);
    assert p < i && u !in r.resolved ==> Disjoint(r.pubs[p], r.pubs[i]);
  }

  lemma OneUnnamed(r: State, p: nat, q: nat)
    requires Exclusive(r.pubs, r.resolved) && p < |r.pubs| && q < |r.pubs|
    requires r.pubs[p].bundle.None? && r.pubs[q].bundle.None? && r.pubs[p].job.callKey == r.pubs[q].job.callKey
    ensures p == q
  {
    assert p < q ==> Disjoint(r.pubs[p], r.pubs[q]);
    assert q < p ==> Disjoint(r.pubs[q], r.pubs[p]);
  }

  // A quote that can be taken up is over, and was not executed.
  lemma TakenUpIsOver(jobs: Jobs, r: State, job: Job, u: Uuid)
    requires RowsOk(r.rows, r.pubs, r.issued, r.resolved, r.sends) && ResolvedOk(r.resolved, r.sends)
    requires Settled(jobs, r) && CanReuse(r, job, u) && job in jobs
    ensures u !in r.resolved && AllOver(r.sends, u)
  {
    ReusedSigned(r, job, u);
    if u in r.resolved {
      ResolvedIsNotOver(r, u);
    }
  }

  /**
   Signatures of some calls are posted again only when everything posted for these calls before
   was executed: the row of an open publication blocks its calls.
   */
  lemma PublishedOnce(r: State, a: Account, p: nat)
    requires IssuedOk(r.pubs, r.issued) && Reserved(r.rows, r.pubs, r.resolved) && CanAuthPublish(r, a)
    requires p < |r.pubs| && r.pubs[p].job.callKey == r.authorizing[a].job.callKey
    ensures r.pubs[p].bundle.Some? && r.pubs[p].bundle.value in r.resolved && r.issued[r.pubs[p].bundle.value] == p
  {
    assert r.pubs[p] in r.pubs;
    if Open(r.pubs[p], r.resolved) {
      UnblockedDisjoint(r, Publication(r.authorizing[a].job, None), r.pubs[p]);
    }
  }

  // ---------------------------------------------------------------- one bundle a round

  lemma OfRoundSigned(jobs: Jobs, b: Batch, k: nat, u: Uuid)
    requires OwnerOk(jobs, b.owner, b.relayr.pubs) && RoundsSigned(jobs, b) && k < |jobs| && OfRound(b, k, u)
    ensures Signed(b.relayr, u, jobs[k].callKey)
  {
  }

  lemma FewerSingle(b: Batch, b': Batch, k: nat)
    requires Single(b, k) && b'.owner == b.owner
    requires forall u | OfRound(b', k, u) :: OfRound(b, k, u)
    requires forall p: nat | Unnamed(b', k, p) :: Unnamed(b, k, p)
    ensures Single(b', k)
  {
  }

  // A batch whose registry and owners stay as they are, with no new quote.
  lemma QuietSingle(b: Batch, b': Batch, k: nat)
    requires Single(b, k) && b'.owner == b.owner && b'.relayr.pubs == b.relayr.pubs
    requires b'.relayr.issued == b.relayr.issued
    requires |b'.rounds| == |b.rounds| && (k < |b.rounds| ==> b'.rounds[k].bundle == b.rounds[k].bundle)
    requires b'.runner.None? || b'.runner == b.runner || !b'.runner.value.pc.Got?
    ensures Single(b', k)
  {
    FewerSingle(b, b', k);
  }

  lemma EnvPublishSingle(jobs: Jobs, b: Batch, a: Account, posted: bool, gone: set<Id>, k: nat)
    requires OwnerOk(jobs, b.owner, b.relayr.pubs) && Single(b, k)
    requires EnabledBatch(jobs, b, Env(AuthPublish(a, posted), gone))
    ensures Single(NextBatch(jobs, b, Env(AuthPublish(a, posted), gone)), k)
  {
    PublishedRegistry(b.relayr, a, posted, gone);
    FewerSingle(b, NextBatch(jobs, b, Env(AuthPublish(a, posted), gone)), k);
  }

  // A publication gets its name, in whatever tab: of round `k` or not.
  lemma NamedSingle(jobs: Jobs, b: Batch, b': Batch, i: nat, u: Uuid, k: nat)
    requires IssuedOk(b.relayr.pubs, b.relayr.issued) && RoundsSigned(jobs, b) && k < |jobs| && Single(b, k)
    requires i < |b.relayr.pubs| && b.relayr.pubs[i].bundle.None? && u !in b.relayr.issued
    requires b'.relayr.pubs == Named(b.relayr.pubs, i, u) && b'.relayr.issued == b.relayr.issued[u := i]
    requires b'.rounds == b.rounds && b'.owner == b.owner && (b'.runner.None? || b'.runner == b.runner)
    ensures Single(b', k)
  {
    if Unnamed(b, k, i) {
      forall v | OfRound(b', k, v) ensures v == u {
        assert v != u ==> OfRound(b, k, v);
      }
    } else {
      forall v | OfRound(b', k, v) ensures OfRound(b, k, v) {
      }
      FewerSingle(b, b', k);
    }
  }

  lemma EnvReceiveSingle(jobs: Jobs, b: Batch, a: Account, u: Uuid, tidied: bool, gone: set<Id>, k: nat)
    requires BatchInv(jobs, b) && Single(b, k) && k < |jobs|
    requires EnabledBatch(jobs, b, Env(AuthReceive(a, u, tidied), gone))
    ensures Single(NextBatch(jobs, b, Env(AuthReceive(a, u, tidied), gone)), k)
  {
    ReceivedRegistry(b.relayr, a, u, tidied, gone);
    NamedSingle(jobs, b, NextBatch(jobs, b, Env(AuthReceive(a, u, tidied), gone)), b.relayr.authorizing[a].pc.pub, u,
      k);
  }

  lemma EnvSingle(jobs: Jobs, b: Batch, e: Event, gone: set<Id>, k: nat)
    requires BatchInv(jobs, b) && Single(b, k) && k < |jobs| && EnabledBatch(jobs, b, Env(e, gone))
    ensures Single(NextBatch(jobs, b, Env(e, gone)), k)
  {
    if e.AuthPublish? {
      EnvPublishSingle(jobs, b, e.account, e.posted, gone, k);
    } else if e.AuthReceive? {
      EnvReceiveSingle(jobs, b, e.account, e.uuid, e.tidied, gone, k);
    } else {
      if OfAuthorizing(e) {
        QuietRegistry(b.relayr, e, gone);
      } else {
        OtherwiseRegistry(b.relayr, e, gone);
      }
      QuietSingle(b, NextBatch(jobs, b, Env(e, gone)), k);
    }
  }

  // In a round that would be quoted and that nobody executed, no bundle was executed.
  lemma NothingExecuted(b: Batch, k: nat, u: Uuid)
    requires k < |b.rounds| && Unpaid(b.rounds[k]) && !Preempted(b, k) && OfRound(b, k, u)
    ensures u !in b.relayr.resolved
  {
  }

  // The round of the runner has no bundle and no publication when it may publish.
  lemma NothingPublished(jobs: Jobs, b: Batch, a: Account, k: nat)
    requires IssuedOk(b.relayr.pubs, b.relayr.issued) && Reserved(b.relayr.rows, b.relayr.pubs, b.relayr.resolved)
    requires OwnerOk(jobs, b.owner, b.relayr.pubs) && RoundsSigned(jobs, b) && CanAuthPublish(b.relayr, a)
    requires k < |jobs| && b.relayr.authorizing[a].job == jobs[k]
    requires k < |b.rounds| && Unpaid(b.rounds[k]) && !Preempted(b, k)
    ensures forall u :: !OfRound(b, k, u)
    ensures forall p | p in b.owner :: b.owner[p] != k
  {
    forall u ensures !OfRound(b, k, u) {
      if OfRound(b, k, u) {
        OfRoundSigned(jobs, b, k, u);
        PublishedOnce(b.relayr, a, b.relayr.issued[u]);
        NothingExecuted(b, k, u);
      }
    }
    forall p | p in b.owner ensures b.owner[p] != k {
      if b.owner[p] == k {
        PublishedOnce(b.relayr, a, p);
      }
    }
  }

  // One more publication for round `n`.
  lemma AddedSingle(b: Batch, b': Batch, q: Publication, n: nat, k: nat)
    requires Single(b, k) && (forall p | p in b.owner :: p < |b.relayr.pubs|) && b'.rounds == b.rounds
    requires b'.relayr.pubs == b.relayr.pubs + [q] && b'.relayr.issued == b.relayr.issued
    requires b'.owner == b.owner[|b.relayr.pubs| := n] && (b'.runner.Some? ==> !b'.runner.value.pc.Got?)
    requires forall u | u in b.relayr.issued :: b.relayr.issued[u] < |b.relayr.pubs|
    requires n == k ==> (forall u :: !OfRound(b, k, u)) && forall p | p in b.owner :: b.owner[p] != k
    ensures Single(b', k)
  {
    assert forall u :: OfRound(b', k, u) ==> OfRound(b, k, u);
    if n != k {
      assert forall p: nat :: Unnamed(b', k, p) ==> Unnamed(b, k, p);
    }
  }

  lemma OwnPublishSingle(jobs: Jobs, b: Batch, a: Account, gone: set<Id>, k: nat)
    requires BatchInv(jobs, b) && Single(b, k) && k < |jobs| && !Preempted(b, k)
    requires Enabled(b.relayr, AuthPublish(a, true), gone) && OwnAuth(jobs, b, a)
    ensures Single(OwnStep(b, AuthPublish(a, true), gone), k)
  {
    var b', n := OwnStep(b, AuthPublish(a, true), gone), b.runner.value.pc.k;
    PublishedRegistry(b.relayr, a, true, gone);
    if n == k {
      NothingPublished(jobs, b, a, k);
    }
    AddedSingle(b, b', Publication(b.relayr.authorizing[a].job, None), n, k);
  }

  // The round of the runner has no bundle while its publication has no name.
  lemma NothingNamed(jobs: Jobs, b: Batch, i: nat, k: nat)
    requires IssuedOk(b.relayr.pubs, b.relayr.issued) && Exclusive(b.relayr.pubs, b.relayr.resolved)
    requires OwnerOk(jobs, b.owner, b.relayr.pubs) && RoundsSigned(jobs, b) && k < |jobs|
    requires i < |b.relayr.pubs| && b.relayr.pubs[i] == Publication(jobs[k], None)
    requires k < |b.rounds| && Unpaid(b.rounds[k]) && !Preempted(b, k)
    ensures forall u :: !OfRound(b, k, u)
    ensures forall p: nat | Unnamed(b, k, p) :: p == i
  {
    forall u ensures !OfRound(b, k, u) {
      if OfRound(b, k, u) {
        OfRoundSigned(jobs, b, k, u);
        FreshIsAlone(b.relayr, u, i, jobs[k].callKey);
        NothingExecuted(b, k, u);
      }
    }
    forall p: nat | Unnamed(b, k, p) ensures p == i {
      OneUnnamed(b.relayr, p, i);
    }
  }

  // The publication of round `k` is named, and nothing else was there.
  lemma FirstSingle(b: Batch, b': Batch, i: nat, u: Uuid, k: nat)
    requires i < |b.relayr.pubs| && b'.relayr.pubs == Named(b.relayr.pubs, i, u)
    requires b'.relayr.issued == b.relayr.issued[u := i] && b'.owner == b.owner && b'.rounds == b.rounds
    requires b'.runner.Some? && b'.runner.value.pc.Got? ==> b'.runner.value.pc.uuid == u
    requires Single(b, k) && (forall v :: !OfRound(b, k, v)) && forall p: nat | Unnamed(b, k, p) :: p == i
    ensures Single(b', k)
  {
    forall v | OfRound(b', k, v) ensures v == u {
      assert v != u ==> OfRound(b, k, v);
    }
    forall p: nat ensures !Unnamed(b', k, p) {
      assert p != i ==> (Unnamed(b', k, p) ==> Unnamed(b, k, p));
    }
  }

  // The runner gets the name of its own publication.
  lemma OwnReceiveSingle(jobs: Jobs, b: Batch, a: Account, u: Uuid, tidied: bool, gone: set<Id>, k: nat)
    requires BatchInv(jobs, b) && Single(b, k) && k < |jobs| && !Preempted(b, k)
    requires Enabled(b.relayr, AuthReceive(a, u, tidied), gone) && OwnAuth(jobs, b, a)
    ensures Single(OwnStep(b, AuthReceive(a, u, tidied), gone), k)
  {
    var b', i := OwnStep(b, AuthReceive(a, u, tidied), gone), b.relayr.authorizing[a].pc.pub;
    ReceivedRegistry(b.relayr, a, u, tidied, gone);
    if b.runner.value.pc.k == k {
      NothingNamed(jobs, b, i, k);
      FirstSingle(b, b', i, u, k);
    } else {
      NamedSingle(jobs, b, b'.(runner := None), i, u, k);
      FewerSingle(b'.(runner := None), b', k);
    }
  }

  lemma OwnReuseSingle(jobs: Jobs, b: Batch, e: Event, gone: set<Id>, k: nat)
    requires BatchInv(jobs, b) && Single(b, k) && k < |jobs| && !Preempted(b, k)
    requires e.Reuse? && Enabled(b.relayr, e, gone) && CanOwn(jobs, b, e) && !TakesUpExecuted(b, Own(e, gone), k)
    ensures Single(OwnStep(b, e, gone), k)
  {
    var b', r, u := OwnStep(b, e, gone), b.relayr, e.uuid;
    QuietRegistry(r, e, gone);
    if b.runner.value.pc.k == k {
      ReusedSigned(r, e.job, u);
      forall v | OfRound(b', k, v) ensures v == u {
        if v != u {
          assert OfRound(b, k, v);
          OfRoundSigned(jobs, b, k, v);
          NothingExecuted(b, k, v);
          SameOpen(r, u, v, jobs[k].callKey);
        }
      }
      forall p: nat ensures !Unnamed(b', k, p) {
        if Unnamed(b', k, p) {
          FreshIsAlone(r, u, p, jobs[k].callKey);
        }
      }
    } else {
      FewerSingle(b, b', k);
    }
  }

  lemma OwnSingle(jobs: Jobs, b: Batch, e: Event, gone: set<Id>, k: nat)
    requires BatchInv(jobs, b) && Single(b, k) && k < |jobs| && !Preempted(b, k)
    requires EnabledBatch(jobs, b, Own(e, gone)) && !TakesUpExecuted(b, Own(e, gone), k)
    ensures Single(NextBatch(jobs, b, Own(e, gone)), k)
  {
    OwnPlace(jobs, b, e, gone);
    if e.AuthPublish? && e.posted {
      OwnPublishSingle(jobs, b, e.account, gone, k);
    } else if e.AuthReceive? {
      OwnReceiveSingle(jobs, b, e.account, e.uuid, e.tidied, gone, k);
    } else if e.Reuse? {
      OwnReuseSingle(jobs, b, e, gone, k);
    } else {
      if e.AuthPublish? {
        PublishedRegistry(b.relayr, e.account, false, gone);
      } else if OfAuthorizing(e) {
        QuietRegistry(b.relayr, e, gone);
      } else {
        OtherwiseRegistry(b.relayr, e, gone);
      }
      QuietSingle(b, OwnStep(b, e, gone), k);
    }
  }

  // A step of the runner itself only saves the quote it got.
  lemma LocalBundles(jobs: Jobs, b: Batch, e: BatchEvent, k: nat, u: Uuid)
    requires EnabledBatch(jobs, b, e) && Local(e) && OfRound(NextBatch(jobs, b, e), k, u)
    ensures OfRound(b, k, u)
  {
  }

  lemma LocalSingle(jobs: Jobs, b: Batch, e: BatchEvent, k: nat)
    requires Single(b, k) && EnabledBatch(jobs, b, e) && Local(e)
    ensures Single(NextBatch(jobs, b, e), k)
  {
    forall u | OfRound(NextBatch(jobs, b, e), k, u) ensures OfRound(b, k, u) {
      LocalBundles(jobs, b, e, k, u);
    }
    LocalRest(jobs, b, e);
    FewerSingle(b, NextBatch(jobs, b, e), k);
  }

  /**
   While no bundle of a round was executed behind its back, the round has one bundle at most,
   unless its runner takes up an executed one.
   */
  lemma SingleStep(jobs: Jobs, b: Batch, e: BatchEvent, k: nat)
    requires BatchInv(jobs, b) && EnabledBatch(jobs, b, e)
    requires Single(b, k) && k < |jobs| && !Preempted(b, k) && !TakesUpExecuted(b, e, k)
    ensures Single(NextBatch(jobs, b, e), k)
  {
    match e
    case Env(f, gone) => EnvSingle(jobs, b, f, gone, k);
    case Own(f, gone) => OwnSingle(jobs, b, f, gone, k);
    case _ => LocalSingle(jobs, b, e, k);
  }

  // An executed bundle taken up is then a bundle of its round, which is saved as ready or quoted.
  lemma TakenUpPreempts(jobs: Jobs, b: Batch, e: BatchEvent, k: nat)
    requires BatchInv(jobs, b) && EnabledBatch(jobs, b, e) && TakesUpExecuted(b, e, k)
    ensures Preempted(NextBatch(jobs, b, e), k) && NextBatch(jobs, b, e).owner == b.owner
  {
    var b' := OwnStep(b, e.event, e.gone);
    QuietRegistry(b.relayr, e.event, e.gone);
    OwnGetsQuote(jobs, b, e.event, e.gone);
    assert OfRound(b', k, e.event.uuid);
  }

  lemma OwnGetsQuote(jobs: Jobs, b: Batch, e: Event, gone: set<Id>)
    requires CanOwn(jobs, b, e) && Enabled(b.relayr, e, gone) && e.Reuse?
    ensures b.runner.value.pc.Quoting?
    ensures var b' := OwnStep(b, e, gone);
            && b'.rounds == b.rounds && b'.owner == b.owner
            && b'.runner.Some? && b'.runner.value.pc == Got(b.runner.value.pc.k, e.uuid)
  {
  }

  // ---------------------------------------------------------------- who can execute a round

  lemma AuthorizingSends(r: State, e: Event, gone: set<Id>)
    requires Enabled(r, e, gone) && OfAuthorizing(e)
    ensures Next(r, e, gone).sends == r.sends && Next(r, e, gone).resolved == r.resolved
  {
    if e.AuthPublish? {
      PublishedRegistry(r, e.account, e.posted, gone);
    } else if e.AuthReceive? {
      ReceivedRegistry(r, e.account, e.uuid, e.tidied, gone);
    } else {
      QuietRegistry(r, e, gone);
    }
  }

  lemma FundingSends(r: State, e: Event, gone: set<Id>)
    requires Enabled(r, e, gone) && OfFunding(e)
    ensures Next(r, e, gone).sends
         == if Asks(e) then r.sends + [Send(Funded(r, e), None, Unsettled)]
            else if e.FundReject? then Settle(r.sends, r.funding[e.callKey].pc.send, RejectedByWallet)
            else r.sends
  {
  }

  // A send that is over stays over, whatever the chain says about it.
  lemma SettledOver(sends: seq<Send>, issued: map<Uuid, nat>, n: nat, d: Send, u: Uuid)
    requires SendsOk(sends, issued) && AllOver(sends, u) && n < |sends|
    requires d.bundle == sends[n].bundle && (d.bundle == u ==> !Live(d))
    ensures AllOver(sends[n := d], u)
  {
    assert forall m: nat | m < |sends| && m != n :: sends[n := d][m] == sends[m];
  }

  lemma VerifiedOver(r: State, t: TabId, v: Uuid, gone: set<Id>, u: Uuid)
    requires SendsOk(r.sends, r.issued) && CanVerify(r, v) && AllOver(r.sends, u)
    ensures AllOver(DoVerify(r, t, v, gone).sends, u)
  {
    var n := r.rows[BundleId(v)].hash.value;
    assert SendOk(r.sends[n], r.issued);
    SettledOver(r.sends, r.issued, n, DoVerify(r, t, v, gone).sends[n], u);
  }

  lemma ObservedOver(r: State, e: Event, gone: set<Id>, u: Uuid)
    requires SendsOk(r.sends, r.issued) && AllOver(r.sends, u)
    requires Enabled(r, e, gone) && !OfAuthorizing(e) && !OfFunding(e)
    ensures AllOver(Next(r, e, gone).sends, u)
  {
    if e.Mine? {
      SettledOver(r.sends, r.issued, e.send, r.sends[e.send].(mined := Some(e.ok)), u);
    } else if e.VerifyPayment? {
      VerifiedOver(r, e.tab, e.uuid, gone, u);
    } else {
      SameSends(r, e, gone);
    }
  }

  lemma SameSends(r: State, e: Event, gone: set<Id>)
    requires Enabled(r, e, gone) && (e.PollStatus? || e.PollSuccess? || e.UserDismiss? || e.Foreign? || e.Crash?)
    ensures Next(r, e, gone).sends == r.sends
  {
  }

  // A bundle none of whose sends may still pay: only asking the wallet again changes that.
  lemma OverKept(r: State, e: Event, gone: set<Id>, u: Uuid)
    requires SendsOk(r.sends, r.issued) && Enabled(r, e, gone) && AllOver(r.sends, u) && u !in r.resolved
    requires Asks(e) ==> e.callKey in r.funding && Funded(r, e) != u
    ensures AllOver(Next(r, e, gone).sends, u) && u !in Next(r, e, gone).resolved
  {
    if OfAuthorizing(e) {
      AuthorizingSends(r, e, gone);
    } else {
      OtherwiseRegistry(r, e, gone);
      if OfFunding(e) {
        FundingSends(r, e, gone);
        if e.FundReject? {
          var n := r.funding[e.callKey].pc.send;
          SettledOver(r.sends, r.issued, n, r.sends[n].(settled := RejectedByWallet), u);
        }
      } else {
        ObservedOver(r, e, gone, u);
      }
    }
  }

  // A round that would be quoted has no send that may still pay and was not executed.
  ghost predicate NotPaid(b: Batch, k: nat) {
    k < |b.rounds| && Unpaid(b.rounds[k]) ==>
      forall u | OfRound(b, k, u) :: AllOver(b.relayr.sends, u) && u !in b.relayr.resolved
  }

  lemma UnfundedNotPreempted(b: Batch, k: nat)
    requires NotPaid(b, k)
    ensures !Preempted(b, k)
  {
  }

  // Another tab, or code other than this runner, asks the wallet to fund calls of this batch.
  predicate FundedElsewhere(jobs: Jobs, e: BatchEvent) { e.Env? && Asks(e.event) && OurKey(jobs, e.event.callKey) }

  // While the runner pays one round, no other unpaid round has a bundle.
  lemma OthersUntouched(jobs: Jobs, b: Batch, k: nat, u: Uuid)
    requires BatchOk(jobs, b) && b.runner.Some? && b.runner.value.pc.Paying?
    requires k < |b.rounds| && Unpaid(b.rounds[k])
    ensures !OfRound(b, k, u)
  {
    var n := b.runner.value.pc.k;
    if n < k && (!b.rounds[k].state.RoundReady? || Owned(b, k, u)) {
      NotPast(b.rounds, n, k);
    }
  }

  lemma AskedForOthers(r: State, ck: CallKey, u: Uuid, other: CallKey)
    requires FundingOk(r.funding, r.pubs, r.issued, r.sends) && CanFundCommit(r, ck) && Signed(r, u, other)
    requires ck != other
    ensures Funded(r, FundCommit(ck, true)) != u
  {
  }

  lemma OwnAskIsPaying(jobs: Jobs, b: Batch, e: Event)
    requires CanOwn(jobs, b, e) && Asks(e)
    ensures b.runner.Some? && b.runner.value.pc.Paying?
  {
  }

  // Asking the wallet concerns no bundle of an unpaid round, unless it is done elsewhere.
  lemma AskedForAnother(jobs: Jobs, b: Batch, e: BatchEvent, k: nat, u: Uuid)
    requires FundingOk(b.relayr.funding, b.relayr.pubs, b.relayr.issued, b.relayr.sends) && BatchOk(jobs, b)
    requires (e.Env? || e.Own?) && Asks(e.event) && CanFundCommit(b.relayr, e.event.callKey)
    requires (e.Own? ==> CanOwn(jobs, b, e.event)) && !FundedElsewhere(jobs, e)
    requires k < |b.rounds| && Unpaid(b.rounds[k]) && OfRound(b, k, u)
    ensures Funded(b.relayr, e.event) != u
  {
    if e.Own? {
      OwnAskIsPaying(jobs, b, e.event);
      OthersUntouched(jobs, b, k, u);
    } else {
      OfRoundSigned(jobs, b, k, u);
      assert jobs[k] in jobs;
      AskedForOthers(b.relayr, e.event.callKey, u, jobs[k].callKey);
    }
  }

  // A bundle that is new for round `k`: the runner just took it up or got its name.
  lemma NewBundle(jobs: Jobs, b: Batch, e: BatchEvent, k: nat, u: Uuid)
    requires BatchInv(jobs, b) && EnabledBatch(jobs, b, e) && (e.Env? || e.Own?)
    requires OfRound(NextBatch(jobs, b, e), k, u) && !OfRound(b, k, u)
    ensures (e.Own? && e.event.Reuse? && e.event.uuid == u) || (e.event.AuthReceive? && e.event.uuid == u)
  {
    if e.event.AuthPublish? {
      PublishedRegistry(b.relayr, e.event.account, e.event.posted, e.gone);
    } else if e.event.AuthReceive? {
      ReceivedRegistry(b.relayr, e.event.account, e.event.uuid, e.event.tidied, e.gone);
    } else if OfAuthorizing(e.event) {
      QuietRegistry(b.relayr, e.event, e.gone);
    } else {
      OtherwiseRegistry(b.relayr, e.event, e.gone);
    }
  }

  // A bundle Relayr just named was never paid.
  lemma FreshOver(r: State, u: Uuid)
    requires SendsOk(r.sends, r.issued) && ResolvedOk(r.resolved, r.sends) && u !in r.issued
    ensures AllOver(r.sends, u) && u !in r.resolved
  {
    forall n: nat | n < |r.sends| ensures r.sends[n].bundle != u {
      assert SendOk(r.sends[n], r.issued);
    }
  }

  lemma ProtocolUnfunded(jobs: Jobs, b: Batch, e: BatchEvent, k: nat)
    requires BatchInv(jobs, b) && EnabledBatch(jobs, b, e) && Settled(jobs, b.relayr)
    requires (e.Env? || e.Own?) && !FundedElsewhere(jobs, e) && NotPaid(b, k)
    requires NextBatch(jobs, b, e).rounds == b.rounds
    requires NextBatch(jobs, b, e).relayr == Next(b.relayr, e.event, e.gone)
    ensures NotPaid(NextBatch(jobs, b, e), k)
  {
    var b' := NextBatch(jobs, b, e);
    forall u | k < |b.rounds| && Unpaid(b.rounds[k]) && OfRound(b', k, u)
      ensures AllOver(b'.relayr.sends, u) && u !in b'.relayr.resolved
    {
      if OfRound(b, k, u) {
        if Asks(e.event) {
          AskedForAnother(jobs, b, e, k, u);
        }
        OverKept(b.relayr, e.event, e.gone, u);
      } else {
        NewBundle(jobs, b, e, k, u);
        if e.event.Reuse? {
          TakenUpIsOver(jobs, b.relayr, e.event.job, u);
        } else {
          FreshOver(b.relayr, u);
        }
        AuthorizingSends(b.relayr, e.event, e.gone);
      }
    }
  }

  // Falling back to the quote: the row says that the bundle can be paid.
  lemma FellBack(jobs: Jobs, b: Batch, e: BatchEvent, k: nat)
    requires EnabledBatch(jobs, b, e) && (e.Enter? || e.BackOff?)
    ensures var b' := NextBatch(jobs, b, e);
            && |b'.rounds| == |b.rounds|
            && (k < |b'.rounds| && Unpaid(b'.rounds[k]) && !Unpaid(b.rounds[k]) ==>
              RowPayable(b.relayr, b.rounds[k].bundle))
  {
  }

  lemma FallBackUnfunded(jobs: Jobs, b: Batch, e: BatchEvent, k: nat)
    requires EnabledBatch(jobs, b, e) && (e.Enter? || e.BackOff?)
    requires BatchInv(jobs, b) && Settled(jobs, b.relayr) && Single(b, k) && NotPaid(b, k)
    ensures NotPaid(NextBatch(jobs, b, e), k)
  {
    var b' := NextBatch(jobs, b, e);
    FellBack(jobs, b, e, k);
    if k < |b.rounds| && RowPayable(b.relayr, b.rounds[k].bundle) {
      SavedPayable(jobs, b, k);
    }
    FewerUnfunded(jobs, b, e, k);
  }

  // A step of the runner itself leaves a round unpaid only with the bundles it had.
  lemma FewerUnfunded(jobs: Jobs, b: Batch, e: BatchEvent, k: nat)
    requires EnabledBatch(jobs, b, e) && Local(e)
    requires k < |NextBatch(jobs, b, e).rounds| && Unpaid(NextBatch(jobs, b, e).rounds[k]) ==>
               forall u | OfRound(b, k, u) :: AllOver(b.relayr.sends, u) && u !in b.relayr.resolved
    ensures NotPaid(NextBatch(jobs, b, e), k)
  {
    var b' := NextBatch(jobs, b, e);
    LocalRest(jobs, b, e);
    forall u | k < |b'.rounds| && Unpaid(b'.rounds[k]) && OfRound(b', k, u)
      ensures AllOver(b'.relayr.sends, u) && u !in b'.relayr.resolved
    {
      LocalBundles(jobs, b, e, k, u);
    }
  }

  lemma SavedPayable(jobs: Jobs, b: Batch, k: nat)
    requires BatchInv(jobs, b) && Settled(jobs, b.relayr) && Single(b, k) && k < |b.rounds|
    requires RowPayable(b.relayr, b.rounds[k].bundle)
    ensures forall u | OfRound(b, k, u) :: AllOver(b.relayr.sends, u) && u !in b.relayr.resolved
  {
    var u := b.rounds[k].bundle.value;
    assert OfRound(b, k, u);
    OfRoundSigned(jobs, b, k, u);
    assert jobs[k] in jobs;
    if u in b.relayr.resolved {
      ResolvedIsNotOver(b.relayr, u);
    }
  }

  lemma LocalUnfunded(jobs: Jobs, b: Batch, e: BatchEvent, k: nat)
    requires EnabledBatch(jobs, b, e) && Local(e) && !e.Enter? && !e.BackOff? && NotPaid(b, k) && BatchOk(jobs, b)
    ensures NotPaid(NextBatch(jobs, b, e), k)
  {
    UnpaidBefore(jobs, b, e, k);
    FewerUnfunded(jobs, b, e, k);
  }

  lemma UnpaidBefore(jobs: Jobs, b: Batch, e: BatchEvent, k: nat)
    requires EnabledBatch(jobs, b, e) && Local(e) && !e.Enter? && !e.BackOff? && BatchOk(jobs, b)
    ensures var b' := NextBatch(jobs, b, e);
            |b'.rounds| == |b.rounds| && (k < |b'.rounds| && Unpaid(b'.rounds[k]) ==> Unpaid(b.rounds[k]))
  {
  }

  lemma ProtocolRest(jobs: Jobs, b: Batch, e: BatchEvent)
    requires EnabledBatch(jobs, b, e) && (e.Env? || e.Own?)
    ensures NextBatch(jobs, b, e).rounds == b.rounds && NextBatch(jobs, b, e).relayr == Next(b.relayr, e.event, e.gone)
  {
  }

  /**
   A round saved as ready or quoted is executed only by a payment that its runner did not make:
   as long as nobody else funds these calls, it has no send that may still pay.
   */
  lemma UnfundedStep(jobs: Jobs, b: Batch, e: BatchEvent, k: nat)
    requires BatchInv(jobs, b) && EnabledBatch(jobs, b, e) && Settled(jobs, b.relayr)
    requires !FundedElsewhere(jobs, e) && Single(b, k) && NotPaid(b, k)
    ensures NotPaid(NextBatch(jobs, b, e), k)
  {
    if e.Env? || e.Own? {
      ProtocolRest(jobs, b, e);
      ProtocolUnfunded(jobs, b, e, k);
    } else if e.Enter? || e.BackOff? {
      LocalRest(jobs, b, e);
      FallBackUnfunded(jobs, b, e, k);
    } else {
      LocalUnfunded(jobs, b, e, k);
    }
  }
}
