/**
 From a finished batch to the chains: the bundles of its rounds, the identity and receipt checks
 that `waitForRelayrBundle` makes before it reports a success, and the hash of each call.
 */
module BatchHashes {
  import opened Identities
  import opened RelayrProtocol
  import opened BatchRunner
  import opened BatchRuns
  import opened BatchSafety
  import BundleIdentity

  // What Relayr reported for each bundle, and what was signed for it.
  datatype Evidence = Evidence(
    reports: map<Uuid, seq<BundleIdentity.Reported>>,
    signed: map<Uuid, seq<BundleIdentity.Expected>>)

  // The checks on the bundle passed: it is the signed one, and every destination was executed.
  ghost predicate Checked(x: Evidence, chains: BundleIdentity.Chains, u: Uuid) {
    && u in x.reports && u in x.signed && BundleIdentity.Usable(x.signed[u])
    && BundleIdentity.Permutation(x.reports[u], x.signed[u])
    && forall t | t in x.reports[u] :: BundleIdentity.Executed(chains, x.signed[u], t)
  }

  // The calldata of the forwarder's `execute` for a signer, its inner call and the rest of what
  // is signed (gas, nonce, deadline, signature).
  type Execute = (Account, CallTuple, string) -> string

  // The call that is published for a request (lines 716-880 of the hook): itself when it is
  // raw, and otherwise the forwarder's call that executes it for the signer.
  ghost predicate SignedAs(e: BundleIdentity.Expected, account: Account, r: Request, execute: Execute) {
    && e.chain == r.call.chain && e.value == r.call.value
    && (if r.raw then e.target == r.call.to && e.data == r.call.data
        else e.target == r.forwarder && exists rest: string :: e.data == execute(account, r.call, rest))
  }

  // What was signed for a published job: one call for each of its requests.
  ghost predicate SignedFor(expected: seq<BundleIdentity.Expected>, job: Job, execute: Execute) {
    |expected| == |job.requests|
    && forall p | 0 <= p < |expected| :: SignedAs(expected[p], job.account, job.requests[p], execute)
  }

  lemma {:induction false} CallIn(requests: seq<Request>, call: CallTuple)
    ensures call in Calls(requests) <==> exists p :: 0 <= p < |requests| && requests[p].call == call
  {
    if requests != [] {
      CallIn(requests[1..], call);
      if call in Calls(requests[1..]) {
        var p :| 0 <= p < |requests[1..]| && requests[1..][p].call == call;
        assert requests[p + 1].call == call;
      }
    }
  }

  // Jobs with the same key have the same account and calls.
  lemma SameCalls(a: Job, b: Job, q: nat) returns (p: nat)
    requires JobOk(a) && JobOk(b) && a.callKey == b.callKey && q < |a.requests|
    ensures b.account == a.account && p < |b.requests| && b.requests[p].call == a.requests[q].call
  {
    CallIn(a.requests, a.requests[q].call);
    CallIn(b.requests, a.requests[q].call);
    p :| 0 <= p < |b.requests| && b.requests[p].call == a.requests[q].call;
  }

  lemma CheckedCall(x: Evidence, chains: BundleIdentity.Chains, u: Uuid, p: nat) returns (hash: Hash)
    requires Checked(x, chains, u) && p < |x.signed[u]|
    ensures BundleIdentity.ReportedFor(x.reports[u], x.signed[u][p], hash)
    ensures BundleIdentity.ExecutedAs(chains, x.signed[u][p], hash)
  {
    var i := BundleIdentity.EveryCallClaimed(x.reports[u], x.signed[u], p);
    var t := x.reports[u][i];
    assert t in x.reports[u];
    hash := t.hash.value;
    BundleIdentity.RecordedHashExecutedTheCall(x.reports[u], x.signed[u], chains, p, hash);
  }

  /**
   Of a finished batch every call was executed. If a bundle counts as executed only after its
   identity and its receipts were checked, then for each request of each round there is a signed
   call that carries exactly this request's call for the batch's account, and the hash reported
   for it is the hash of a canonical, successful transaction on its chain with exactly the
   signed target, calldata and value.
   */
  lemma FinishedCallsExecuted(
    jobs: Jobs, bs: seq<Batch>, es: seq<BatchEvent>, k: nat, x: Evidence, chains: BundleIdentity.Chains,
    execute: Execute, i: nat, q: nat)
    returns (p: nat, r: Request, hash: Hash)
    requires BatchRun(jobs, bs, es) && k < |bs| && bs[k].finished && i < |jobs| && q < |jobs[i].requests|
    requires forall u | u in bs[k].relayr.resolved :: Checked(x, chains, u)
    requires forall u | u in bs[k].relayr.issued && u in x.signed && bs[k].relayr.issued[u] < |bs[k].relayr.pubs| ::
               SignedFor(x.signed[u], bs[k].relayr.pubs[bs[k].relayr.issued[u]].job, execute)
    ensures i < |bs[k].rounds| && bs[k].rounds[i].bundle.Some?
    ensures var u := bs[k].rounds[i].bundle.value;
            && u in x.signed && u in x.reports && p < |x.signed[u]|
            && r.call == jobs[i].requests[q].call && SignedAs(x.signed[u][p], jobs[i].account, r, execute)
            && BundleIdentity.ReportedFor(x.reports[u], x.signed[u][p], hash)
            && BundleIdentity.ExecutedAs(chains, x.signed[u][p], hash)
  {
    var b := bs[k];
    FinishedIsExecuted(jobs, bs, es, k);
    BatchRunKeepsInv(jobs, bs, es, k);
    assert b.rounds[i] in b.rounds;
    var u := b.rounds[i].bundle.value;
    OfRoundSigned(jobs, b, i, u);
    var job := b.relayr.pubs[b.relayr.issued[u]].job;
    assert jobs[i] in jobs && b.relayr.pubs[b.relayr.issued[u]] in b.relayr.pubs;
    p := SameCalls(jobs[i], job, q);
    r := job.requests[p];
    hash := CheckedCall(x, chains, u, p);
  }
}
