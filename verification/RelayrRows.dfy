/**
 What the guards of the Relayr protocol ask of the rows, and what its steps leave there.

 Each guard and each step is stated in terms of whole rows and of the memory of a tab, and not of
 the patches and tests that the code is made of: which rows let a scope, a funding or a fresh
 authorization through, what the row of a bundle is after each step that writes it, and what a tab
 still knows after a crash, a hash or a verified revert.
 */
module RelayrRows {
  import opened Prelude
  import opened Identities
  import opened ActivityStore
  import opened RelayrProtocol
  import opened RelayrSafety

  // ---------------------------------------------------------------- the guards

  /** A recovery scope is available exactly when every row with its key is a success that is not quarantined. */
  lemma ScopeExactly(rows: Rows, account: Account, scope: string)
    ensures ScopeAvailable(rows, account, scope) <==>
        forall id | id in rows && ScopeKey(account, scope) in rows[id].keys ::
          rows[id].status == Success && rows[id].manual != Some(true)
  {
    forall id | id in rows
      ensures HoldsScope(rows[id], account, scope) <==>
              && ScopeKey(account, scope) in rows[id].keys
              && !(rows[id].status == Success && rows[id].manual != Some(true))
    {
    }
  }

  // The row is about these calls, or has one of these keys.
  ghost predicate Concerns(r: Row, callKey: CallKey, keys: set<Key>) {
    r.callKey == Some(callKey) || exists key :: key in r.keys && key in keys
  }

  lemma KeysMeet(r: Row, callKey: CallKey, keys: set<Key>)
    ensures Concerns(r, callKey, keys) <==> r.callKey == Some(callKey) || r.keys * keys != {}
  {
    if key :| key in r.keys && key in keys {
      assert key in r.keys * keys;
    }
  }

  /**
   `requireUnfunded` passes for a bundle exactly when every row of it says unfunded or reverted, and
   every other row about these calls or with one of these keys is a success.
   */
  lemma UnblockedExactly(rows: Rows, u: Uuid, callKey: CallKey, keys: set<Key>)
    ensures Unblocked(rows, Some(u), callKey, keys) <==>
        forall id | id in rows ::
          if rows[id].bundle == Some(u) then rows[id].pay == Some(Unfunded) || rows[id].pay == Some(Reverted)
          else Concerns(rows[id], callKey, keys) ==> rows[id].status == Success
  {
    forall id | id in rows
      ensures Blocks(rows[id], Some(u), callKey, keys) <==>
              !(if rows[id].bundle == Some(u) then rows[id].pay == Some(Unfunded) || rows[id].pay == Some(Reverted)
                else Concerns(rows[id], callKey, keys) ==> rows[id].status == Success)
    {
      KeysMeet(rows[id], callKey, keys);
    }
  }

  /** For a fresh authorization every row about these calls or with one of these keys is a success. */
  lemma FreshExactly(rows: Rows, callKey: CallKey, keys: set<Key>)
    ensures Unblocked(rows, None, callKey, keys) <==>
        forall id | id in rows && Concerns(rows[id], callKey, keys) :: rows[id].status == Success
  {
    forall id | id in rows
      ensures Blocks(rows[id], None, callKey, keys) <==>
              Concerns(rows[id], callKey, keys) && rows[id].status != Success
    {
      KeysMeet(rows[id], callKey, keys);
    }
  }

  /** A saved quote can be taken up exactly for the same calls, while it is unfunded or its payment reverted. */
  lemma ReusableExactly(s: State, job: Job, u: Uuid)
    requires BundleId(u) in s.rows && job == JobOf(job.account, job.requests) && job.account !in s.authorizing
    ensures CanReuse(s, job, u) <==>
        && s.rows[BundleId(u)].callKey == Some(RelayrCalls(job.account, Calls(job.requests)))
        && s.rows[BundleId(u)].quoted
        && s.rows[BundleId(u)].pay in {Some(Unfunded), Some(Reverted)}
  {
  }

  // ---------------------------------------------------------------- the rows

  // The row of a bundle is this one.
  predicate IsRow(rows: Rows, u: Uuid, r: Row) { BundleId(u) in rows && rows[BundleId(u)] == r }

  /**
   What the answer to a funding leaves in the row of its bundle: a 4001 makes it unfunded again, a
   hash is remembered and nothing else changes, and an uncertain answer leaves the payment open.
   */
  lemma AnswerWrites(s: State, e: Event, gone: set<Id>, u: Uuid, n: nat)
    requires Enabled(s, e, gone) && (e.FundReject? || e.FundUncertain? || e.FundHash?)
    requires s.funding[e.callKey].pc == Sent(n) && s.funding[e.callKey].quote.bundle == u && BundleId(u) in s.rows
    ensures var r := s.rows[BundleId(u)];
            IsRow(Next(s, e, gone).rows, u,
                  if e.FundReject? then r.(status := Pending, pay := Some(Unfunded))
                  else if e.FundHash? then r.(hash := Some(n))
                  else r.(status := Pending))
  {
  }

  /** A verified receipt confirms the payment, or marks it reverted and holds the row for its user. */
  lemma ReceiptWrites(s: State, t: TabId, u: Uuid, gone: set<Id>)
    requires Enabled(s, VerifyPayment(t, u), gone)
    ensures var r := s.rows[BundleId(u)];
            IsRow(Next(s, VerifyPayment(t, u), gone).rows, u,
                  if s.sends[r.hash.value].mined == Some(true) then r.(pay := Some(Confirmed))
                  else r.(status := Failed, manual := Some(true), pay := Some(Reverted)))
  {
  }

  /** A poll that failed holds the row for its user; one that succeeded ends that. */
  lemma PollWrites(s: State, e: Event, gone: set<Id>, u: Uuid)
    requires Enabled(s, e, gone) && ((e.PollStatus? && e.uuid == u) || (e.PollSuccess? && e.uuid == u))
    requires BundleId(u) in s.rows
    ensures var r := s.rows[BundleId(u)];
            IsRow(Next(s, e, gone).rows, u,
                  if e.PollSuccess? then r.(status := Success, manual := Some(false))
                  else if e.failed then r.(status := Failed, manual := Some(true))
                  else r.(status := Pending))
  {
  }

  // What a row says once the wallet is about to be asked.
  function SubmittedOver(r: Row, q: Quote): Row {
    r.(kind := RelayrBundle, status := Submitted, account := Some(q.account), bundle := Some(q.bundle),
       callKey := Some(q.callKey), pay := Some(PaySubmitted))
  }

  /** Before the wallet is asked the row says submitted, also when there was none. */
  lemma CommitWrites(s: State, ck: CallKey, asked: bool, gone: set<Id>)
    requires Enabled(s, FundCommit(ck, asked), gone)
    ensures var q := s.funding[ck].quote;
            var id := BundleId(q.bundle);
            var none := Row(id, RelayrBundle, Submitted, None, None, None, None, None, None, {}, false, None);
            IsRow(Next(s, FundCommit(ck, asked), gone).rows, q.bundle,
                  SubmittedOver(if id in s.rows then s.rows[id] else none, q))
  {
  }

  // The row of a published authorization, before and after its bundle is known.
  function Published(id: Id, job: Job, u: Option<Uuid>): Row {
    Row(id, RelayrBundle, Pending, None, Some(job.account), None, None, u, Some(job.callKey), job.keys, u.Some?,
        Some(Unfunded))
  }

  /** Before signatures are posted their row is there, with every key and unfunded. */
  lemma PublishWrites(s: State, a: Account, posted: bool, gone: set<Id>)
    requires Inv(s) && Enabled(s, AuthPublish(a, posted), gone)
    ensures var job, rows := s.authorizing[a].job, Next(s, AuthPublish(a, posted), gone).rows;
            && PublicationId(job.callKey) in rows
            && rows[PublicationId(job.callKey)] == Published(PublicationId(job.callKey), job, None)
  {
    var job := s.authorizing[a].job;
    if PublicationId(job.callKey) in s.rows {
      HeldPublicationBlocks(s, job.callKey, job.keys);
    }
    PublishedRow(s, a, posted, gone);
  }

  lemma PublishedRow(s: State, a: Account, posted: bool, gone: set<Id>)
    requires CanAuthPublish(s, a) && PublicationId(s.authorizing[a].job.callKey) !in s.rows
    ensures var job, rows := s.authorizing[a].job, DoAuthPublish(s, a, posted, gone).rows;
            && PublicationId(job.callKey) in rows
            && rows[PublicationId(job.callKey)] == Published(PublicationId(job.callKey), job, None)
  {
  }

  lemma ReceivedRow(s: State, a: Account, u: Uuid, gone: set<Id>)
    requires CanAuthReceive(s, a, u) && BundleId(u) !in s.rows
    ensures var job := s.authorizing[a].job;
            IsRow(BundleRows(s.rows, job, u, gone), u, Published(BundleId(u), job, Some(u)))
  {
  }

  lemma TidiedRows(rows: Rows, id: Id, u: Uuid, r: Row)
    requires IsRow(rows, u, r) && id.PublicationId? && (id in rows ==> !Manual(rows[id]))
    ensures IsRow(DismissMap(rows, id, {}), u, r) && id !in DismissMap(rows, id, {})
  {
  }

  lemma PublicationNotHeld(s: State, ck: CallKey, rows: Rows)
    requires RowsOk(s.rows, s.pubs, s.issued, s.resolved, s.sends)
    requires PublicationId(ck) in rows ==>
               PublicationId(ck) in s.rows && rows[PublicationId(ck)] == s.rows[PublicationId(ck)]
    ensures PublicationId(ck) in rows ==> !Manual(rows[PublicationId(ck)])
  {
    if PublicationId(ck) in rows {
      assert RowOk(PublicationId(ck), s.rows[PublicationId(ck)], s.pubs, s.issued, s.resolved, s.sends);
    }
  }

  /** The answer to the POST leaves the row of its bundle instead. */
  lemma ReceiveWrites(s: State, a: Account, u: Uuid, tidied: bool, gone: set<Id>)
    requires Inv(s) && Enabled(s, AuthReceive(a, u, tidied), gone)
    ensures var job, rows := s.authorizing[a].job, Next(s, AuthReceive(a, u, tidied), gone).rows;
            && IsRow(rows, u, Published(BundleId(u), job, Some(u)))
            && (tidied ==> PublicationId(job.callKey) !in rows)
  {
    var job := s.authorizing[a].job;
    var rows := BundleRows(s.rows, job, u, gone);
    KnownAreIssued(s);
    ReceivedRow(s, a, u, gone);
    PublicationNotHeld(s, job.callKey, rows);
    TidiedRows(rows, PublicationId(job.callKey), u, Published(BundleId(u), job, Some(u)));
  }

  // ---------------------------------------------------------------- the memory of the tabs

  /** A tab that dies forgets everything, and no other tab anything. */
  lemma CrashForgets(s: State, t: TabId, tab: TabId, u: Uuid, ck: CallKey, a: Account)
    ensures var s' := CrashTab(s, t);
            && s'.rows == s.rows && s'.sends == s.sends && s'.pubs == s.pubs
            && ((tab, u) in s'.quotes <==> tab != t && (tab, u) in s.quotes)
            && ((tab, u) in s'.quotes ==> s'.quotes[(tab, u)] == s.quotes[(tab, u)])
            && ((tab, u) in s'.funded <==> tab != t && (tab, u) in s.funded)
            && (ck in s'.funding <==> ck in s.funding && s.funding[ck].tab != t)
            && (ck in s'.funding ==> s'.funding[ck] == s.funding[ck])
            && (a in s'.authorizing <==> a in s.authorizing && s.authorizing[a].tab != t)
            && (a in s'.authorizing ==> s'.authorizing[a] == s.authorizing[a])
  {
  }

  /** A tab refuses to pay a bundle again from its hash on, until it verified itself that the payment reverted. */
  lemma FundedIsRemembered(s: State, ck: CallKey, t: TabId, u: Uuid, gone: set<Id>)
    ensures ck in s.funding && s.funding[ck].pc.Sent? ==>
              DoFundHash(s, ck, gone).funded == s.funded + {(s.funding[ck].tab, s.funding[ck].quote.bundle)}
    ensures CanVerify(s, u) ==>
              DoVerify(s, t, u, gone).funded
              == s.funded - if s.sends[s.rows[BundleId(u)].hash.value].mined == Some(false) then {(t, u)} else {}
  {
  }
}
