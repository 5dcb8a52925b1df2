/**
 Every step of the Relayr protocol keeps its invariant, `RelayrProtocol.Inv`.

 The invariant has three layers. The registry says which publication each uuid names and that
 rows, quotes and wallet requests agree with it. Exclusivity says that two open publications
 share no key, and that each is reserved by a row which is not a success: a fresh authorization
 that passed `requireUnfunded` on the rows is therefore disjoint from all of them
 (`UnblockedDisjoint`). The money part says that a bundle has at most one send that may still
 pay, that the row of a live send is submitted or confirmed, and that no row forgets a send in
 flight: a payable row without a hash is therefore not the row of a live send
 (`UntracedHasNoLiveSend`).

 A step replaces at most one row, so each lemma below says that the new row fits
 (`PutKeepsInv`), and what else the step changes is treated one component at a time: the list of
 sends (`SetSends`), the wallet requests (`SetFunding`, `EndFunding`), the list of publications.
 */
module RelayrSafety {
  import opened Prelude
  import opened Identities
  import opened ActivityStore
  import opened RelayrProtocol

  // ---------------------------------------------------------------- replacing one row

  lemma RowsOkPut(rows: Rows, gone: set<Id>, id: Id, r: Row, pubs: seq<Publication>, issued: map<Uuid, nat>,
      resolved: map<Uuid, nat>, sends: seq<Send>)
    requires RowsOk(rows, pubs, issued, resolved, sends) && RowOk(id, r, pubs, issued, resolved, sends)
    ensures RowsOk((rows - gone)[id := r], pubs, issued, resolved, sends)
  {
  }

  // The holder of an open publication is unresolved, so the cap cannot drop it.
  lemma HolderInFlight(s: State, p: Publication)
    requires IssuedOk(s.pubs, s.issued) && Reserved(s.rows, s.pubs, s.resolved)
    requires RowsOk(s.rows, s.pubs, s.issued, s.resolved, s.sends)
    requires p in s.pubs && Open(p, s.resolved)
    ensures InFlight(s.rows[Holder(p)])
  {
    assert RowOk(Holder(p), s.rows[Holder(p)], s.pubs, s.issued, s.resolved, s.sends);
  }

  lemma ReservedPut(s: State, gone: set<Id>, id: Id, r: Row)
    requires IssuedOk(s.pubs, s.issued) && Reserved(s.rows, s.pubs, s.resolved)
    requires RowsOk(s.rows, s.pubs, s.issued, s.resolved, s.sends)
    requires Evictable(s.rows, gone, id)
    requires forall p | p in s.pubs && Open(p, s.resolved) && Holder(p) == id :: Reserves(r, p)
    ensures Reserved((s.rows - gone)[id := r], s.pubs, s.resolved)
  {
    var rows := (s.rows - gone)[id := r];
    forall p | p in s.pubs && Open(p, s.resolved) ensures Holder(p) in rows && Reserves(rows[Holder(p)], p) {
      HolderInFlight(s, p);
    }
  }

  lemma LiveRowsPut(rows: Rows, gone: set<Id>, id: Id, r: Row, sends: seq<Send>, tainted: set<Uuid>)
    requires LiveRows(rows, sends, tainted)
    requires forall n: nat | n < |sends| && Live(sends[n]) && sends[n].bundle !in tainted
        && BundleId(sends[n].bundle) == id ::
               LiveRow(r, n, sends[n].settled)
    ensures LiveRows((rows - gone)[id := r], sends, tainted)
  {
  }

  // While the wallet is asked about an untainted bundle, that bundle is not resolved and its
  // row cannot be dropped by the cap.
  lemma SentInFlight(s: State, ck: CallKey)
    requires RowsOk(s.rows, s.pubs, s.issued, s.resolved, s.sends) && FundingOk(s.funding, s.pubs, s.issued, s.sends)
    requires ResolvedOk(s.resolved, s.sends) && AtMostOneLive(s.sends, s.tainted)
    requires LiveRows(s.rows, s.sends, s.tainted) && SentOk(s.funding, s.rows, s.sends, s.tainted)
    requires ck in s.funding && s.funding[ck].pc.Sent? && s.funding[ck].quote.bundle !in s.tainted
    ensures s.funding[ck].quote.bundle !in s.resolved
    ensures InFlight(s.rows[BundleId(s.funding[ck].quote.bundle)])
  {
    var u, n := s.funding[ck].quote.bundle, s.funding[ck].pc.send;
    assert s.sends[n].settled == Unsettled && s.sends[n].bundle == u;
    if u in s.resolved {
      assert false;
    }
    assert RowOk(BundleId(u), s.rows[BundleId(u)], s.pubs, s.issued, s.resolved, s.sends);
  }

  lemma SentOkPut(s: State, gone: set<Id>, id: Id, r: Row)
    requires Inv(s) && Evictable(s.rows, gone, id)
    requires forall ck | ck in s.funding && s.funding[ck].pc.Sent? && s.funding[ck].quote.bundle !in s.tainted
        && BundleId(s.funding[ck].quote.bundle) == id :: r.hash.None?
    ensures SentOk(s.funding, (s.rows - gone)[id := r], s.sends, s.tainted)
  {
    forall ck | ck in s.funding && s.funding[ck].pc.Sent? && s.funding[ck].quote.bundle !in s.tainted
      ensures Untraced((s.rows - gone)[id := r], s.funding[ck].quote.bundle)
    {
      SentInFlight(s, ck);
    }
  }

  /** What a new row under `id` must satisfy, with nothing else changed. */
  ghost predicate Fits(s: State, id: Id, r: Row) {
    && RowOk(id, r, s.pubs, s.issued, s.resolved, s.sends)
    && (forall p | p in s.pubs && Open(p, s.resolved) && Holder(p) == id :: Reserves(r, p))
    && (forall n: nat | n < |s.sends| && Live(s.sends[n]) && s.sends[n].bundle !in s.tainted
      && BundleId(s.sends[n].bundle) == id ::
          LiveRow(r, n, s.sends[n].settled))
    && (forall ck | ck in s.funding && s.funding[ck].pc.Sent? && s.funding[ck].quote.bundle !in s.tainted
      && BundleId(s.funding[ck].quote.bundle) == id :: r.hash.None?)
  }

  lemma PutKeepsInv(s: State, gone: set<Id>, id: Id, r: Row)
    requires Inv(s) && Evictable(s.rows, gone, id) && Fits(s, id, r)
    ensures Inv(s.(rows := (s.rows - gone)[id := r]))
  {
    RowsOkPut(s.rows, gone, id, r, s.pubs, s.issued, s.resolved, s.sends);
    ReservedPut(s, gone, id, r);
    LiveRowsPut(s.rows, gone, id, r, s.sends, s.tainted);
    SentOkPut(s, gone, id, r);
  }

  // A patch of a bundle row which touches neither its identity nor the payment trace.
  predicate StatusPatch(p: Patch, isResolved: bool) {
    && p.kind.Absent? && p.account.Absent? && p.hash.Absent? && p.bundle.Absent? && p.callKey.Absent? && p.pay.Absent?
    && p.quoted.Absent?
    && (p == PENDING_PATCH || p == FAILED_PATCH || (p == SUCCESS_PATCH && isResolved) || p == NO_PATCH.(keys := p.keys))
  }

  lemma StatusMerge(r: Row, u: Uuid, p: Patch, isResolved: bool)
    requires StatusPatch(p, isResolved) && (p.keys.Present? ==> p.keys.value >= r.keys)
    requires (r.status == Failed ==> Manual(r)) && (r.status == Success ==> isResolved)
    ensures var r' := Merge(r, Guard(r, p));
            && r'.id == r.id && r'.bundle == r.bundle && r'.callKey == r.callKey && r'.hash == r.hash && r'.pay == r.pay
            && r'.keys >= r.keys && (r'.status == Failed ==> Manual(r')) && (r'.status == Success ==> isResolved)
  {
  }

  lemma StatusFits(s: State, u: Uuid, p: Patch)
    requires RowsOk(s.rows, s.pubs, s.issued, s.resolved, s.sends) && Reserved(s.rows, s.pubs, s.resolved)
    requires LiveRows(s.rows, s.sends, s.tainted) && SentOk(s.funding, s.rows, s.sends, s.tainted)
    requires BundleId(u) in s.rows && StatusPatch(p, u in s.resolved)
    requires p.keys.Present? ==> p.keys.value >= s.rows[BundleId(u)].keys
    ensures Fits(s, BundleId(u), Merge(s.rows[BundleId(u)], Guard(s.rows[BundleId(u)], p)))
  {
    var id := BundleId(u);
    var r := s.rows[id];
    assert RowOk(id, r, s.pubs, s.issued, s.resolved, s.sends);
    StatusMerge(r, u, p, u in s.resolved);
    ResembleFits(s, u, Merge(r, Guard(r, p)));
  }

  // A row which kept what the protocol reads of it.
  lemma ResembleFits(s: State, u: Uuid, r': Row)
    requires RowsOk(s.rows, s.pubs, s.issued, s.resolved, s.sends) && Reserved(s.rows, s.pubs, s.resolved)
    requires LiveRows(s.rows, s.sends, s.tainted) && SentOk(s.funding, s.rows, s.sends, s.tainted)
    requires BundleId(u) in s.rows
    requires var r := s.rows[BundleId(u)];
             && r'.id == r.id && r'.bundle == r.bundle && r'.callKey == r.callKey && r'.hash == r.hash
             && r'.pay == r.pay
             && r'.keys >= r.keys && (r'.status == Failed ==> Manual(r')) && (r'.status == Success ==> u in s.resolved)
    ensures Fits(s, BundleId(u), r')
  {
    var id := BundleId(u);
    var r := s.rows[id];
    assert RowOk(id, r, s.pubs, s.issued, s.resolved, s.sends);
    forall p | p in s.pubs && Open(p, s.resolved) && Holder(p) == id ensures Reserves(r', p) {
      assert Reserves(r, p);
    }
    forall n: nat | n < |s.sends| && Live(s.sends[n]) && s.sends[n].bundle !in s.tainted
      && BundleId(s.sends[n].bundle) == id
      ensures LiveRow(r', n, s.sends[n].settled)
    {
      assert LiveRow(r, n, s.sends[n].settled);
    }
  }

  lemma UpdateKeepsInv(s: State, u: Uuid, p: Patch, gone: set<Id>)
    requires Inv(s) && Evictable(s.rows, gone, BundleId(u)) && StatusPatch(p, u in s.resolved)
    requires p.keys.Present? ==> BundleId(u) in s.rows && p.keys.value >= s.rows[BundleId(u)].keys
    ensures Inv(UpdateBundle(s, u, p, gone))
  {
    if BundleId(u) in s.rows {
      StatusFits(s, u, p);
      PutKeepsInv(s, gone, BundleId(u), Merge(s.rows[BundleId(u)], Guard(s.rows[BundleId(u)], p)));
    }
  }

  // Losing rows keeps the invariant as long as no holder and no asked-about row is lost.
  lemma FewerRowsKeepInv(s: State, rows: Rows)
    requires Inv(s) && forall id | id in rows :: id in s.rows && rows[id] == s.rows[id]
    requires Reserved(rows, s.pubs, s.resolved)
    requires forall id | id in s.rows && id.BundleId? && InFlight(s.rows[id]) :: id in rows
    ensures Inv(s.(rows := rows))
  {
    forall ck | ck in s.funding && s.funding[ck].pc.Sent? && s.funding[ck].quote.bundle !in s.tainted
      ensures Untraced(rows, s.funding[ck].quote.bundle)
    {
      SentInFlight(s, ck);
    }
  }

  // Dropping rows that are terminal, or that the protocol does not own.
  lemma DropKeepsInv(s: State, gone: set<Id>)
    requires Inv(s)
    requires forall x | x in gone && x in s.rows :: ForeignId(x) || !InFlight(s.rows[x])
    ensures Inv(s.(rows := s.rows - gone))
  {
    var rows := s.rows - gone;
    forall p | p in s.pubs && Open(p, s.resolved) ensures Holder(p) in rows && Reserves(rows[Holder(p)], p) {
      HolderInFlight(s, p);
    }
    FewerRowsKeepInv(s, rows);
  }

  lemma CrashKeepsInv(s: State, t: TabId)
    requires Inv(s)
    ensures Inv(CrashTab(s, t))
  {
  }

  // ---------------------------------------------------------------- one lemma a step

  lemma ReuseStep(s: State, t: TabId, job: Job, u: Uuid, gone: set<Id>)
    requires Inv(s) && CanReuse(s, job, u) && Evictable(s.rows, gone, BundleId(u))
    ensures Inv(DoReuse(s, t, job, u, gone))
  {
    assert RowOk(BundleId(u), s.rows[BundleId(u)], s.pubs, s.issued, s.resolved, s.sends);
    UpdateKeepsInv(s, u, MoreKeys(s.rows[BundleId(u)], job), gone);
  }

  // A fresh publication is disjoint from every open one: their holders did not block it.
  lemma UnblockedDisjoint(s: State, q: Publication, p: Publication)
    requires Reserved(s.rows, s.pubs, s.resolved) && p in s.pubs && Open(p, s.resolved)
    requires Unblocked(s.rows, None, q.job.callKey, q.job.keys)
    ensures Disjoint(p, q)
  {
    var r := s.rows[Holder(p)];
    assert !Blocks(r, None, q.job.callKey, q.job.keys);
    assert r.keys * q.job.keys == {};
    forall k | k in p.job.keys ensures k !in q.job.keys {
      assert k in r.keys && k !in r.keys * q.job.keys;
    }
  }

  lemma ExclusiveAppend(s: State, q: Publication)
    requires Exclusive(s.pubs, s.resolved)
    requires forall p | p in s.pubs && Open(p, s.resolved) :: Disjoint(p, q)
    ensures Exclusive(s.pubs + [q], s.resolved)
  {
  }

  lemma HeldPublicationBlocks(s: State, ck: CallKey, keys: set<Key>)
    requires RowsOk(s.rows, s.pubs, s.issued, s.resolved, s.sends) && PublicationId(ck) in s.rows
    ensures !Unblocked(s.rows, None, ck, keys)
  {
    assert RowOk(PublicationId(ck), s.rows[PublicationId(ck)], s.pubs, s.issued, s.resolved, s.sends);
    assert Blocks(s.rows[PublicationId(ck)], None, ck, keys);
  }

  lemma PublicationFits(s: State, job: Job)
    requires Inv(s) && PublicationId(job.callKey) !in s.rows
    ensures var r := Recorded(s.rows, PublicationId(job.callKey), PublicationPatch(job));
            Fits(s, PublicationId(job.callKey), r) && Reserves(r, Publication(job, None))
  {
  }

  lemma AppendPublication(s: State, q: Publication)
    requires Inv(s) && q.bundle.None? && Holder(q) in s.rows && Reserves(s.rows[Holder(q)], q) && JobOk(q.job)
    requires forall p | p in s.pubs && Open(p, s.resolved) :: Disjoint(p, q)
    ensures Inv(s.(pubs := s.pubs + [q]))
  {
    ExclusiveAppend(s, q);
    AppendedReserved(s, q);
    AppendedRegistry(s, q);
  }

  lemma AppendedReserved(s: State, q: Publication)
    requires Reserved(s.rows, s.pubs, s.resolved) && Holder(q) in s.rows && Reserves(s.rows[Holder(q)], q)
    ensures Reserved(s.rows, s.pubs + [q], s.resolved)
  {
  }

  lemma AppendedRegistry(s: State, q: Publication)
    requires IssuedOk(s.pubs, s.issued) && RowsOk(s.rows, s.pubs, s.issued, s.resolved, s.sends) && q.bundle.None?
    ensures IssuedOk(s.pubs + [q], s.issued) && RowsOk(s.rows, s.pubs + [q], s.issued, s.resolved, s.sends)
  {
    forall id | id in s.rows ensures RowOk(id, s.rows[id], s.pubs + [q], s.issued, s.resolved, s.sends) {
      assert RowOk(id, s.rows[id], s.pubs, s.issued, s.resolved, s.sends);
    }
  }

  // The publication row is written.
  lemma PublicationKeepsInv(s: State, job: Job, gone: set<Id>)
    requires Inv(s) && JobOk(job) && Unblocked(s.rows, None, job.callKey, job.keys)
    requires Evictable(s.rows, gone, PublicationId(job.callKey))
    ensures Inv(s.(rows := PublicationRows(s.rows, job, gone)))
    ensures Reserves(PublicationRows(s.rows, job, gone)[PublicationId(job.callKey)], Publication(job, None))
  {
    var id := PublicationId(job.callKey);
    assert id !in s.rows by {
      if id in s.rows { HeldPublicationBlocks(s, job.callKey, job.keys); }
    }
    PublicationFits(s, job);
    PutKeepsInv(s, gone, id, Recorded(s.rows, id, PublicationPatch(job)));
  }

  lemma PostKeepsInv(s: State, s1: State, job: Job)
    requires Inv(s1) && JobOk(job) && s1.pubs == s.pubs && s1.resolved == s.resolved
    requires Reserved(s.rows, s.pubs, s.resolved) && Unblocked(s.rows, None, job.callKey, job.keys)
    requires PublicationId(job.callKey) in s1.rows
    requires Reserves(s1.rows[PublicationId(job.callKey)], Publication(job, None))
    ensures Inv(s1.(pubs := s1.pubs + [Publication(job, None)]))
  {
    var q := Publication(job, None);
    forall p | p in s.pubs && Open(p, s.resolved) ensures Disjoint(p, q) {
      UnblockedDisjoint(s, q, p);
    }
    AppendPublication(s1, q);
  }

  // The authorization knows its publication.
  lemma SetPosted(s: State, a: Account, p: nat)
    requires Inv(s) && a in s.authorizing && p < |s.pubs| && s.pubs[p] == Publication(s.authorizing[a].job, None)
    ensures Inv(s.(authorizing := s.authorizing[a := s.authorizing[a].(pc := Posted(p))]))
  {
  }

  lemma PublishStep(s: State, a: Account, posted: bool, gone: set<Id>)
    requires Inv(s) && CanAuthPublish(s, a)
    requires Evictable(s.rows, gone, PublicationId(s.authorizing[a].job.callKey))
    ensures Inv(DoAuthPublish(s, a, posted, gone))
  {
    var job := s.authorizing[a].job;
    var s1 := s.(rows := PublicationRows(s.rows, job, gone));
    PublicationKeepsInv(s, job, gone);
    if posted {
      PostKeepsInv(s, s1, job);
      SetPosted(s1.(pubs := s1.pubs + [Publication(job, None)]), a, |s.pubs|);
    } else {
      CrashKeepsInv(s1, s.authorizing[a].tab);
    }
  }

  // ---- the bundle uuid arrives for publication `i`

  lemma KnownAreIssued(s: State)
    requires RowsOk(s.rows, s.pubs, s.issued, s.resolved, s.sends) && ResolvedOk(s.resolved, s.sends)
    requires SendsOk(s.sends, s.issued)
    ensures forall u | u in s.resolved :: u in s.issued
    ensures forall u | BundleId(u) in s.rows :: u in s.issued
  {
    forall u | u in s.resolved ensures u in s.issued {
      assert SendOk(s.sends[s.resolved[u]], s.issued);
    }
    forall u | BundleId(u) in s.rows ensures u in s.issued {
      assert RowOk(BundleId(u), s.rows[BundleId(u)], s.pubs, s.issued, s.resolved, s.sends);
    }
  }

  lemma NamedIssued(s: State, i: nat, u: Uuid)
    requires IssuedOk(s.pubs, s.issued) && JobsOk(s.pubs) && ResolvedOk(s.resolved, s.sends)
    requires SendsOk(s.sends, s.issued)
    requires RowsOk(s.rows, s.pubs, s.issued, s.resolved, s.sends) && i < |s.pubs| && s.pubs[i].bundle.None?
    requires u !in s.issued
    ensures IssuedOk(Named(s.pubs, i, u), s.issued[u := i]) && JobsOk(Named(s.pubs, i, u))
    ensures SendsOk(s.sends, s.issued[u := i])
    ensures u !in s.resolved && BundleId(u) !in s.rows
  {
    KnownAreIssued(s);
    var pubs := Named(s.pubs, i, u);
    forall p | p in pubs ensures JobOk(p.job) {
      var j :| 0 <= j < |pubs| && pubs[j] == p;
      assert s.pubs[j] in s.pubs && s.pubs[j].job == p.job;
    }
  }

  lemma NamedJobs(pubs: seq<Publication>, i: nat, u: Uuid)
    requires i < |pubs|
    ensures forall j | 0 <= j < |pubs| :: Named(pubs, i, u)[j].job == pubs[j].job
  {
  }

  lemma NamedRows(s: State, i: nat, u: Uuid)
    requires Inv(s) && i < |s.pubs| && u !in s.issued
    ensures RowsOk(s.rows, Named(s.pubs, i, u), s.issued[u := i], s.resolved, s.sends)
  {
    NamedJobs(s.pubs, i, u);
    forall id | id in s.rows ensures RowOk(id, s.rows[id], Named(s.pubs, i, u), s.issued[u := i], s.resolved, s.sends) {
      assert RowOk(id, s.rows[id], s.pubs, s.issued, s.resolved, s.sends);
    }
  }

  lemma NamedQuotes(s: State, i: nat, u: Uuid)
    requires Inv(s) && i < |s.pubs| && u !in s.issued
    ensures QuotesOk(s.quotes, Named(s.pubs, i, u), s.issued[u := i])
    ensures FundingOk(s.funding, Named(s.pubs, i, u), s.issued[u := i], s.sends)
  {
    NamedJobs(s.pubs, i, u);
    forall q: Quote | QuoteOk(q, s.pubs, s.issued) ensures QuoteOk(q, Named(s.pubs, i, u), s.issued[u := i]) {
    }
  }

  lemma NamedExclusive(s: State, i: nat, u: Uuid)
    requires Exclusive(s.pubs, s.resolved) && i < |s.pubs| && s.pubs[i].bundle.None? && u !in s.resolved
    ensures Exclusive(Named(s.pubs, i, u), s.resolved)
    ensures forall p | p in Named(s.pubs, i, u) && Open(p, s.resolved) && p != Named(s.pubs, i, u)[i] ::
              p in s.pubs && p.job.callKey != s.pubs[i].job.callKey
  {
    var pubs := Named(s.pubs, i, u);
    assert forall j | 0 <= j < |pubs| ::
      pubs[j].job.callKey == s.pubs[j].job.callKey && pubs[j].job.keys == s.pubs[j].job.keys;
    forall p | p in pubs && Open(p, s.resolved) && p != pubs[i]
      ensures p in s.pubs && p.job.callKey != s.pubs[i].job.callKey
    {
      var j :| 0 <= j < |pubs| && pubs[j] == p;
      assert s.pubs[j] == p;
      assert j < i ==> Disjoint(s.pubs[j], s.pubs[i]);
      assert i < j ==> Disjoint(s.pubs[i], s.pubs[j]);
    }
  }

  lemma NamedAuthOk(s: State, a: Account, u: Uuid)
    requires CanAuthReceive(s, a, u) && AuthOk(s.authorizing, s.pubs)
    ensures AuthOk(s.authorizing - {a}, Named(s.pubs, s.authorizing[a].pc.pub, u))
  {
    assert s.pubs[s.authorizing[a].pc.pub].job.account == a;
    forall b | b in s.authorizing && b != a && s.authorizing[b].pc.Posted?
      ensures s.authorizing[b].pc.pub != s.authorizing[a].pc.pub
    {
      assert s.pubs[s.authorizing[b].pc.pub].job.account == b;
    }
  }

  lemma ReceivedReserved(s: State, a: Account, u: Uuid, gone: set<Id>)
    requires Inv(s) && CanAuthReceive(s, a, u) && Evictable(s.rows, gone, BundleId(u))
    requires u !in s.resolved && BundleId(u) !in s.rows
    ensures var s' := Received(s, a, u, gone); Reserved(s'.rows, s'.pubs, s'.resolved)
  {
    var s' := Received(s, a, u, gone);
    var i := s.authorizing[a].pc.pub;
    NamedExclusive(s, i, u);
    assert s.pubs[i] == Publication(s.authorizing[a].job, None);
    forall p | p in s'.pubs && Open(p, s'.resolved) ensures Holder(p) in s'.rows && Reserves(s'.rows[Holder(p)], p) {
      if p != s'.pubs[i] {
        HolderInFlight(s, p);
      }
    }
  }

  lemma ReceivedKeepsInv(s: State, a: Account, u: Uuid, gone: set<Id>)
    requires Inv(s) && CanAuthReceive(s, a, u) && Evictable(s.rows, gone, BundleId(u))
    ensures Inv(Received(s, a, u, gone))
  {
    var i := s.authorizing[a].pc.pub;
    var s' := Received(s, a, u, gone);
    assert s.pubs[i] == Publication(s.authorizing[a].job, None);
    NamedIssued(s, i, u);
    NamedRows(s, i, u);
    NamedQuotes(s, i, u);
    NamedExclusive(s, i, u);
    NamedAuthOk(s, a, u);
    ReceivedReserved(s, a, u, gone);
    var r := s'.rows[BundleId(u)];
    RowsOkPut(s.rows, gone, BundleId(u), r, s'.pubs, s'.issued, s'.resolved, s'.sends);
    LiveRowsFresh(s, gone, u, r);
    SentOkPut(s, gone, BundleId(u), r);
  }

  // No send and no wallet request can concern a bundle whose uuid was not issued yet.
  lemma LiveRowsFresh(s: State, gone: set<Id>, u: Uuid, r: Row)
    requires Inv(s) && u !in s.issued
    ensures LiveRows((s.rows - gone)[BundleId(u) := r], s.sends, s.tainted)
    ensures forall ck | ck in s.funding :: s.funding[ck].quote.bundle != u
  {
    forall n: nat | n < |s.sends| ensures s.sends[n].bundle != u {
      assert SendOk(s.sends[n], s.issued);
    }
    LiveRowsPut(s.rows, gone, BundleId(u), r, s.sends, s.tainted);
  }

  // Once publication `i` has its bundle row, its publication row reserves nothing more.
  lemma TidyKeepsInv(s: State, id: Id, i: nat)
    requires Inv(s) && i < |s.pubs| && s.pubs[i].bundle.Some? && Open(s.pubs[i], s.resolved)
    requires id == PublicationId(s.pubs[i].job.callKey)
    ensures Inv(s.(rows := DismissMap(s.rows, id, {})))
  {
    if !(id in s.rows && Manual(s.rows[id])) {
      var rows := s.rows - {id};
      assert DismissMap(s.rows, id, {}) == rows;
      TidyReserved(s, id, i, rows);
      FewerRowsKeepInv(s, rows);
    }
  }

  lemma TidyReserved(s: State, id: Id, i: nat, rows: Rows)
    requires Inv(s) && i < |s.pubs| && s.pubs[i].bundle.Some? && Open(s.pubs[i], s.resolved)
    requires id == PublicationId(s.pubs[i].job.callKey) && rows == s.rows - {id}
    ensures Reserved(rows, s.pubs, s.resolved)
  {
    forall p | p in s.pubs && Open(p, s.resolved) ensures Holder(p) in rows && Reserves(rows[Holder(p)], p) {
      OnlyHolder(s, i, p);
    }
  }

  lemma OnlyHolder(s: State, i: nat, p: Publication)
    requires Exclusive(s.pubs, s.resolved) && i < |s.pubs| && s.pubs[i].bundle.Some? && Open(s.pubs[i], s.resolved)
    requires p in s.pubs && Open(p, s.resolved)
    ensures Holder(p) != PublicationId(s.pubs[i].job.callKey)
  {
    var j: nat :| j < |s.pubs| && s.pubs[j] == p;
    assert j < i ==> Disjoint(s.pubs[j], s.pubs[i]);
    assert i < j ==> Disjoint(s.pubs[i], s.pubs[j]);
  }

  lemma ReceiveStep(s: State, a: Account, u: Uuid, tidied: bool, gone: set<Id>)
    requires Inv(s) && CanAuthReceive(s, a, u) && Evictable(s.rows, gone, BundleId(u))
    ensures Inv(DoAuthReceive(s, a, u, tidied, gone))
  {
    var s1 := Received(s, a, u, gone);
    ReceivedKeepsInv(s, a, u, gone);
    if tidied {
      ReceivedNames(s, a, u, gone);
      TidyKeepsInv(s1, PublicationId(s.authorizing[a].job.callKey), s.authorizing[a].pc.pub);
      QuotedAside(s, s1, a, u);
    } else {
      CrashKeepsInv(s1, s.authorizing[a].tab);
    }
  }

  lemma ReceivedNames(s: State, a: Account, u: Uuid, gone: set<Id>)
    requires Inv(s) && CanAuthReceive(s, a, u)
    ensures var i := s.authorizing[a].pc.pub;
            && Received(s, a, u, gone).pubs[i] == Publication(s.authorizing[a].job, Some(u))
            && u !in s.resolved && Received(s, a, u, gone).resolved == s.resolved
  {
    assert s.pubs[s.authorizing[a].pc.pub] == Publication(s.authorizing[a].job, None);
    NamedIssued(s, s.authorizing[a].pc.pub, u);
  }

  // The tab remembers the quote of a bundle that was issued for its job.
  lemma QuotedAside(s: State, s1: State, a: Account, u: Uuid)
    requires a in s.authorizing && s.authorizing[a].pc.Posted? && s.authorizing[a].pc.pub < |s1.pubs|
    requires QuotesOk(s1.quotes, s1.pubs, s1.issued)
    requires u in s1.issued && s1.issued[u] == s.authorizing[a].pc.pub
    requires s1.pubs[s.authorizing[a].pc.pub].job == s.authorizing[a].job
    ensures var f := s.authorizing[a];
            QuotesOk(s1.quotes[(f.tab, u) := Quote(u, a, f.job.callKey, f.job.keys)], s1.pubs, s1.issued)
  {
  }

  lemma SetFunding(s: State, ck: CallKey, f: Funding)
    requires Inv(s) && QuoteOk(f.quote, s.pubs, s.issued) && f.quote.callKey == ck
    requires !f.pc.Reviewing? ==> f.pc.send < |s.sends| && s.sends[f.pc.send].bundle == f.quote.bundle
    requires f.pc.Sent? && f.quote.bundle !in s.tainted ==>
               s.sends[f.pc.send].settled == Unsettled && Untraced(s.rows, f.quote.bundle)
    ensures Inv(s.(funding := s.funding[ck := f]))
  {
    PutFundingOk(s, ck, f);
    PutSentOk(s, ck, f);
  }

  lemma PutFundingOk(s: State, ck: CallKey, f: Funding)
    requires FundingOk(s.funding, s.pubs, s.issued, s.sends) && QuoteOk(f.quote, s.pubs, s.issued)
    requires f.quote.callKey == ck
    requires !f.pc.Reviewing? ==> f.pc.send < |s.sends| && s.sends[f.pc.send].bundle == f.quote.bundle
    ensures FundingOk(s.funding[ck := f], s.pubs, s.issued, s.sends)
  {
  }

  lemma PutSentOk(s: State, ck: CallKey, f: Funding)
    requires SentOk(s.funding, s.rows, s.sends, s.tainted)
    requires f.pc.Sent? && f.quote.bundle !in s.tainted ==>
               f.pc.send < |s.sends| && s.sends[f.pc.send].settled == Unsettled && Untraced(s.rows, f.quote.bundle)
    ensures SentOk(s.funding[ck := f], s.rows, s.sends, s.tainted)
  {
  }

  lemma FundBeginStep(s: State, t: TabId, u: Uuid)
    requires Inv(s) && CanFundBegin(s, t, u)
    ensures Inv(DoFundBegin(s, t, u))
  {
    SetFunding(s, s.quotes[(t, u)].callKey, Funding(t, s.quotes[(t, u)], Reviewing));
  }

  // ---- the list of sends grows, or one of them is mined or settled

  predicate SameBundles(sends: seq<Send>, sends': seq<Send>) {
    |sends| <= |sends'| && forall n | 0 <= n < |sends| :: sends'[n].bundle == sends[n].bundle
  }

  lemma RowOkSends(id: Id, r: Row, pubs: seq<Publication>, issued: map<Uuid, nat>, resolved: map<Uuid, nat>,
      sends: seq<Send>, sends': seq<Send>)
    requires RowOk(id, r, pubs, issued, resolved, sends) && SameBundles(sends, sends')
    ensures RowOk(id, r, pubs, issued, resolved, sends')
  {
  }

  lemma SendsRegistry(s: State, sends: seq<Send>)
    requires RowsOk(s.rows, s.pubs, s.issued, s.resolved, s.sends) && FundingOk(s.funding, s.pubs, s.issued, s.sends)
    requires SameBundles(s.sends, sends)
    ensures RowsOk(s.rows, s.pubs, s.issued, s.resolved, sends) && FundingOk(s.funding, s.pubs, s.issued, sends)
  {
    forall id | id in s.rows ensures RowOk(id, s.rows[id], s.pubs, s.issued, s.resolved, sends) {
      RowOkSends(id, s.rows[id], s.pubs, s.issued, s.resolved, s.sends, sends);
    }
  }

  ghost predicate MoneyOk(s: State, sends: seq<Send>) {
    && ResolvedOk(s.resolved, sends) && SendsOk(sends, s.issued) && AtMostOneLive(sends, s.tainted)
    && LiveRows(s.rows, sends, s.tainted) && SentOk(s.funding, s.rows, sends, s.tainted)
  }

  lemma SetSends(s: State, sends: seq<Send>)
    requires Inv(s) && SameBundles(s.sends, sends) && MoneyOk(s, sends)
    ensures Inv(s.(sends := sends))
  {
    SendsRegistry(s, sends);
  }

  lemma EndFunding(s: State, ck: CallKey)
    requires Inv(s) && ck in s.funding
    ensures Inv(s.(funding := s.funding - {ck}))
  {
  }

  /**
   A funding that starts from a row without a hash starts with no live send: the unfunded or
   reverted row `requireUnfunded` accepts is not the row of a live send.
   */
  lemma UntracedHasNoLiveSend(s: State, q: Quote, n: nat)
    requires Inv(s) && Untraced(s.rows, q.bundle) && q.bundle !in s.tainted
    requires Unblocked(s.rows, Some(q.bundle), q.callKey, q.keys)
    requires n < |s.sends| && s.sends[n].bundle == q.bundle
    ensures !Live(s.sends[n])
  {
    var id := BundleId(q.bundle);
    assert RowOk(id, s.rows[id], s.pubs, s.issued, s.resolved, s.sends);
    assert !Blocks(s.rows[id], Some(q.bundle), q.callKey, q.keys);
  }

  lemma TaintKeepsInv(s: State, tainted: set<Uuid>)
    requires Inv(s) && s.tainted <= tainted
    ensures Inv(s.(tainted := tainted))
  {
  }

  lemma SubmittedFits(s: State, q: Quote)
    requires RowsOk(s.rows, s.pubs, s.issued, s.resolved, s.sends) && Reserved(s.rows, s.pubs, s.resolved)
    requires QuoteOk(q, s.pubs, s.issued)
    requires q.bundle !in s.tainted ==> Untraced(s.rows, q.bundle)
    requires q.bundle !in s.tainted ==> forall n: nat | n < |s.sends| && s.sends[n].bundle == q.bundle ::
        !Live(s.sends[n])
    ensures Fits(s, BundleId(q.bundle), Recorded(s.rows, BundleId(q.bundle), SubmittedPatch(q)))
  {
    var id := BundleId(q.bundle);
    if id in s.rows {
      assert RowOk(id, s.rows[id], s.pubs, s.issued, s.resolved, s.sends);
    }
    var r := Recorded(s.rows, id, SubmittedPatch(q));
    forall p | p in s.pubs && Open(p, s.resolved) && Holder(p) == id ensures Reserves(r, p) {
      assert Reserves(s.rows[id], p);
    }
  }

  lemma AppendSend(s: State, u: Uuid)
    requires Inv(s) && u in s.issued
    requires u !in s.tainted ==> forall n: nat | n < |s.sends| && s.sends[n].bundle == u :: !Live(s.sends[n])
    requires u !in s.tainted && BundleId(u) in s.rows ==> LiveRow(s.rows[BundleId(u)], |s.sends|, Unsettled)
    ensures Inv(s.(sends := s.sends + [Send(u, None, Unsettled)]))
  {
    var sends := s.sends + [Send(u, None, Unsettled)];
    AppendRegistry(s, u);
    AppendOneLive(s.sends, s.tainted, u);
    AppendLiveRows(s.rows, s.sends, s.tainted, u);
    AppendSentOk(s, u);
    SetSends(s, sends);
  }

  lemma AppendRegistry(s: State, u: Uuid)
    requires ResolvedOk(s.resolved, s.sends) && SendsOk(s.sends, s.issued) && u in s.issued
    ensures var sends := s.sends + [Send(u, None, Unsettled)];
            ResolvedOk(s.resolved, sends) && SendsOk(sends, s.issued) && SameBundles(s.sends, sends)
  {
  }

  lemma AppendOneLive(sends: seq<Send>, tainted: set<Uuid>, u: Uuid)
    requires AtMostOneLive(sends, tainted)
    requires u !in tainted ==> forall n: nat | n < |sends| && sends[n].bundle == u :: !Live(sends[n])
    ensures AtMostOneLive(sends + [Send(u, None, Unsettled)], tainted)
  {
  }

  lemma AppendLiveRows(rows: Rows, sends: seq<Send>, tainted: set<Uuid>, u: Uuid)
    requires LiveRows(rows, sends, tainted)
    requires u !in tainted && BundleId(u) in rows ==> LiveRow(rows[BundleId(u)], |sends|, Unsettled)
    ensures LiveRows(rows, sends + [Send(u, None, Unsettled)], tainted)
  {
  }

  lemma AppendSentOk(s: State, u: Uuid)
    requires SentOk(s.funding, s.rows, s.sends, s.tainted) && FundingOk(s.funding, s.pubs, s.issued, s.sends)
    ensures SentOk(s.funding, s.rows, s.sends + [Send(u, None, Unsettled)], s.tainted)
  {
  }

  // The submitted row is written.
  lemma SubmittedKeepsInv(s: State, ck: CallKey, tainted: set<Uuid>, gone: set<Id>)
    requires Inv(s) && CanFundCommit(s, ck) && Evictable(s.rows, gone, FundTarget(s, ck)) && s.tainted <= tainted
    requires var u := s.funding[ck].quote.bundle; u !in tainted ==> Untraced(s.rows, u)
    ensures Inv(s.(tainted := tainted, rows := SubmittedRows(s.rows, s.funding[ck].quote, gone)))
    ensures var u := s.funding[ck].quote.bundle;
            forall n: nat | u !in tainted && n < |s.sends| && s.sends[n].bundle == u :: !Live(s.sends[n])
  {
    var q := s.funding[ck].quote;
    TaintKeepsInv(s, tainted);
    forall n: nat | q.bundle !in tainted && n < |s.sends| && s.sends[n].bundle == q.bundle
      ensures !Live(s.sends[n])
    {
      UntracedHasNoLiveSend(s, q, n);
    }
    SubmittedFits(s.(tainted := tainted), q);
    PutKeepsInv(s.(tainted := tainted), gone, BundleId(q.bundle),
                Recorded(s.rows, BundleId(q.bundle), SubmittedPatch(q)));
  }

  lemma FundCommitStep(s: State, ck: CallKey, asked: bool, gone: set<Id>)
    requires Inv(s) && CanFundCommit(s, ck) && Evictable(s.rows, gone, FundTarget(s, ck))
    ensures Inv(DoFundCommit(s, ck, asked, gone))
  {
    var f := s.funding[ck];
    var u := f.quote.bundle;
    var tainted := if Untraced(s.rows, u) then s.tainted else s.tainted + {u};
    SubmittedKeepsInv(s, ck, tainted, gone);
    var s2 := s.(tainted := tainted, rows := SubmittedRows(s.rows, f.quote, gone));
    if asked {
      SubmittedIsLiveRow(s, f.quote, gone, tainted, |s.sends|);
      AppendSend(s2, u);
      SetFunding(s2.(sends := s.sends + [Send(u, None, Unsettled)]), ck, f.(pc := Sent(|s.sends|)));
    } else {
      CrashKeepsInv(s2, f.tab);
    }
  }

  lemma SubmittedIsLiveRow(s: State, q: Quote, gone: set<Id>, tainted: set<Uuid>, n: nat)
    requires q.bundle !in tainted ==> Untraced(s.rows, q.bundle)
    ensures var rows := SubmittedRows(s.rows, q, gone);
            q.bundle !in tainted ==> Untraced(rows, q.bundle) && LiveRow(rows[BundleId(q.bundle)], n, Unsettled)
  {
  }

  // Two wallet requests in flight are about two bundles.
  lemma OneRequestABundle(s: State, ck: CallKey, other: CallKey)
    requires FundingOk(s.funding, s.pubs, s.issued, s.sends)
    requires ck in s.funding && other in s.funding && s.funding[ck].quote.bundle == s.funding[other].quote.bundle
    ensures ck == other
  {
  }

  // Settling one send: what the money part of the invariant needs of it.
  lemma SettleMoney(s: State, n: nat, how: Settlement)
    requires ResolvedOk(s.resolved, s.sends) && SendsOk(s.sends, s.issued) && AtMostOneLive(s.sends, s.tainted)
    requires n < |s.sends| && SendOk(Send(s.sends[n].bundle, s.sends[n].mined, how), s.issued)
    requires how != Unsettled && (s.sends[n].settled == VerifiedPaid ==> how == VerifiedPaid)
    requires how == VerifiedPaid ==> Live(s.sends[n])
    ensures var sends := Settle(s.sends, n, how);
            && SameBundles(s.sends, sends) && ResolvedOk(s.resolved, sends) && SendsOk(sends, s.issued)
            && AtMostOneLive(sends, s.tainted)
  {
    var sends := Settle(s.sends, n, how);
    assert forall m: nat | m < |sends| && m != n :: sends[m] == s.sends[m];
    assert Live(sends[n]) ==> Live(s.sends[n]);
  }

  lemma RejectedSentOk(s: State, ck: CallKey)
    requires Inv(s) && CanFundReject(s, ck)
    ensures SentOk(s.funding - {ck}, s.rows, Settle(s.sends, s.funding[ck].pc.send, RejectedByWallet), s.tainted)
  {
    var n := s.funding[ck].pc.send;
    forall other | other in s.funding && other != ck && s.funding[other].pc.Sent?
      ensures s.funding[other].pc.send != n
    {
      if s.funding[other].pc.send == n {
        OneRequestABundle(s, ck, other);
      }
    }
  }

  lemma RejectedLiveRows(s: State, n: nat)
    requires LiveRows(s.rows, s.sends, s.tainted) && n < |s.sends|
    ensures LiveRows(s.rows, Settle(s.sends, n, RejectedByWallet), s.tainted)
  {
    var sends := Settle(s.sends, n, RejectedByWallet);
    assert forall m: nat | m < |sends| && m != n :: sends[m] == s.sends[m];
  }

  lemma RejectSend(s: State, ck: CallKey)
    requires Inv(s) && CanFundReject(s, ck)
    ensures Inv(s.(funding := s.funding - {ck}, sends := Settle(s.sends, s.funding[ck].pc.send, RejectedByWallet)))
  {
    var n := s.funding[ck].pc.send;
    EndFunding(s, ck);
    assert SendOk(s.sends[n], s.issued);
    if s.sends[n].settled != VerifiedPaid {
      SettleMoney(s, n, RejectedByWallet);
      RejectedSentOk(s, ck);
      RejectedLiveRows(s, n);
      SetSends(s.(funding := s.funding - {ck}), Settle(s.sends, n, RejectedByWallet));
    }
  }

  // After the wallet declined the only live send of a bundle, none is left.
  lemma RejectedNoneLive(s: State, ck: CallKey)
    requires Inv(s) && CanFundReject(s, ck)
    ensures var u, sends := s.funding[ck].quote.bundle, Settle(s.sends, s.funding[ck].pc.send, RejectedByWallet);
            forall m: nat | m < |sends| && Live(sends[m]) && sends[m].bundle == u :: u in s.tainted
  {
    var u, n := s.funding[ck].quote.bundle, s.funding[ck].pc.send;
    var sends := Settle(s.sends, n, RejectedByWallet);
    forall m: nat | m < |sends| && Live(sends[m]) && sends[m].bundle == u ensures u in s.tainted {
      assert m != n && s.sends[m] == sends[m];
      if u !in s.tainted {
        assert Live(s.sends[n]);
      }
    }
  }

  lemma DeclinedFits(s: State, u: Uuid)
    requires Inv(s) && BundleId(u) in s.rows
    requires forall m: nat | m < |s.sends| && Live(s.sends[m]) && s.sends[m].bundle == u :: u in s.tainted
    ensures Fits(s, BundleId(u), Merge(s.rows[BundleId(u)], Guard(s.rows[BundleId(u)], DECLINED_PATCH)))
  {
  }

  lemma FundRejectStep(s: State, ck: CallKey, gone: set<Id>)
    requires Inv(s) && CanFundReject(s, ck) && Evictable(s.rows, gone, FundTarget(s, ck))
    ensures Inv(DoFundReject(s, ck, gone))
  {
    var u, n := s.funding[ck].quote.bundle, s.funding[ck].pc.send;
    RejectSend(s, ck);
    var s1 := s.(funding := s.funding - {ck}, sends := Settle(s.sends, n, RejectedByWallet));
    if BundleId(u) in s.rows {
      RejectedNoneLive(s, ck);
      DeclinedFits(s1, u);
      PutKeepsInv(s1, gone, BundleId(u), Merge(s.rows[BundleId(u)], Guard(s.rows[BundleId(u)], DECLINED_PATCH)));
    }
  }

  lemma FundUncertainStep(s: State, ck: CallKey, gone: set<Id>)
    requires Inv(s) && ck in s.funding && Evictable(s.rows, gone, FundTarget(s, ck))
    ensures Inv(DoFundUncertain(s, ck, gone))
  {
    UpdateKeepsInv(s, s.funding[ck].quote.bundle, PENDING_PATCH, gone);
    EndFunding(UpdateBundle(s, s.funding[ck].quote.bundle, PENDING_PATCH, gone), ck);
  }

  lemma FundHashStep(s: State, ck: CallKey, gone: set<Id>)
    requires Inv(s) && ck in s.funding && s.funding[ck].pc.Sent? && Evictable(s.rows, gone, FundTarget(s, ck))
    ensures Inv(DoFundHash(s, ck, gone))
  {
    var f := s.funding[ck];
    SetFunding(s, ck, f.(pc := Hashed(f.pc.send)));
    HashedRowKeepsInv(s, ck, gone);
    FundedAside(DoFundHash(s, ck, gone).(funded := s.funded), s.funded + {(f.tab, f.quote.bundle)});
  }

  // No clause of the invariant is about the bundles a tab remembers as funded.
  lemma FundedAside(s: State, funded: set<(TabId, Uuid)>)
    requires Inv(s)
    ensures Inv(s.(funded := funded))
  {
  }

  // The hash is written into the row, if it is still there.
  lemma HashedRowKeepsInv(s: State, ck: CallKey, gone: set<Id>)
    requires Inv(s) && ck in s.funding && s.funding[ck].pc.Sent? && Evictable(s.rows, gone, FundTarget(s, ck))
    requires Inv(s.(funding := s.funding[ck := s.funding[ck].(pc := Hashed(s.funding[ck].pc.send))]))
    ensures var s1 := s.(funding := s.funding[ck := s.funding[ck].(pc := Hashed(s.funding[ck].pc.send))]);
            Inv(s1.(rows := UpdateMap(s.rows, FundTarget(s, ck), HashPatch(s.funding[ck].pc.send), gone)))
  {
    var id, n := FundTarget(s, ck), s.funding[ck].pc.send;
    var s1 := s.(funding := s.funding[ck := s.funding[ck].(pc := Hashed(n))]);
    if id in s.rows {
      HashFits(s, ck);
      NoneAskedAbout(s, ck);
      PutKeepsInv(s1, gone, id, Merge(s.rows[id], Guard(s.rows[id], HashPatch(n))));
    }
  }

  lemma NoneAskedAbout(s: State, ck: CallKey)
    requires FundingOk(s.funding, s.pubs, s.issued, s.sends) && ck in s.funding && s.funding[ck].pc.Sent?
    ensures var funding := s.funding[ck := s.funding[ck].(pc := Hashed(s.funding[ck].pc.send))];
            forall other | other in funding && funding[other].pc.Sent? ::
              funding[other].quote.bundle != s.funding[ck].quote.bundle
  {
  }

  lemma HashFits(s: State, ck: CallKey)
    requires RowsOk(s.rows, s.pubs, s.issued, s.resolved, s.sends) && Reserved(s.rows, s.pubs, s.resolved)
    requires FundingOk(s.funding, s.pubs, s.issued, s.sends) && AtMostOneLive(s.sends, s.tainted)
    requires LiveRows(s.rows, s.sends, s.tainted) && SentOk(s.funding, s.rows, s.sends, s.tainted)
    requires ck in s.funding && s.funding[ck].pc.Sent? && BundleId(s.funding[ck].quote.bundle) in s.rows
    ensures var u, n := s.funding[ck].quote.bundle, s.funding[ck].pc.send;
            var r := Merge(s.rows[BundleId(u)], Guard(s.rows[BundleId(u)], HashPatch(n)));
            && RowOk(BundleId(u), r, s.pubs, s.issued, s.resolved, s.sends)
            && (forall p | p in s.pubs && Open(p, s.resolved) && Holder(p) == BundleId(u) :: Reserves(r, p))
            && (forall m: nat | m < |s.sends| && Live(s.sends[m]) && s.sends[m].bundle !in s.tainted
              && s.sends[m].bundle == u ::
                  LiveRow(r, m, s.sends[m].settled))
  {
    var u, n := s.funding[ck].quote.bundle, s.funding[ck].pc.send;
    assert RowOk(BundleId(u), s.rows[BundleId(u)], s.pubs, s.issued, s.resolved, s.sends);
    forall m: nat | m < |s.sends| && Live(s.sends[m]) && s.sends[m].bundle !in s.tainted && s.sends[m].bundle == u
      ensures m == n
    {
      assert Live(s.sends[n]) && s.sends[n].bundle == u;
    }
  }

  lemma MineStep(s: State, n: nat, ok: bool)
    requires Inv(s) && n < |s.sends| && s.sends[n].mined.None? && s.sends[n].settled != RejectedByWallet
    ensures Inv(s.(sends := s.sends[n := s.sends[n].(mined := Some(ok))]))
  {
    var sends := s.sends[n := s.sends[n].(mined := Some(ok))];
    MinedSends(s.sends, s.issued, n, ok);
    SameSettlements(s, sends);
    SetSends(s, sends);
  }

  lemma MinedSends(sends: seq<Send>, issued: map<Uuid, nat>, n: nat, ok: bool)
    requires SendsOk(sends, issued) && n < |sends| && sends[n].mined.None? && sends[n].settled != RejectedByWallet
    ensures var sends' := sends[n := sends[n].(mined := Some(ok))];
            && SendsOk(sends', issued) && SameBundles(sends, sends')
            && forall m: nat | m < |sends'| ::
                 sends'[m].bundle == sends[m].bundle && sends'[m].settled == sends[m].settled
  {
    assert SendOk(sends[n], issued);
  }

  lemma SameSettlements(s: State, sends: seq<Send>)
    requires Inv(s) && |sends| == |s.sends| && SendsOk(sends, s.issued)
    requires forall m: nat | m < |sends| ::
        sends[m].bundle == s.sends[m].bundle && sends[m].settled == s.sends[m].settled
    ensures MoneyOk(s, sends)
  {
  }

  // ---- the receipt of the hash the row remembers

  lemma VerifyStep(s: State, t: TabId, u: Uuid, gone: set<Id>)
    requires Inv(s) && CanVerify(s, u) && Evictable(s.rows, gone, BundleId(u))
    ensures Inv(DoVerify(s, t, u, gone))
  {
    var id := BundleId(u);
    var n := s.rows[id].hash.value;
    var paid := s.sends[n].mined.value;
    var how, p := if paid then VerifiedPaid else VerifiedReverted, if paid then CONFIRMED_PATCH else REVERTED_PATCH;
    var sends := Settle(s.sends, n, how);
    var r := Merge(s.rows[id], Guard(s.rows[id], p));
    assert SendOk(s.sends[n], s.issued);
    SettleMoney(s, n, how);
    SendsRegistry(s, sends);
    VerifiedRow(s, u, p);
    RowOkSends(id, r, s.pubs, s.issued, s.resolved, s.sends, sends);
    RowsOkPut(s.rows, gone, id, r, s.pubs, s.issued, s.resolved, sends);
    ReservedPut(s, gone, id, r);
    VerifiedLiveRows(s, u, gone, how, r);
    VerifiedSentOk(s, u, gone, how, r);
  }

  lemma VerifiedRow(s: State, u: Uuid, p: Patch)
    requires Inv(s) && CanVerify(s, u) && (p == CONFIRMED_PATCH || p == REVERTED_PATCH)
    ensures var r := Merge(s.rows[BundleId(u)], Guard(s.rows[BundleId(u)], p));
            && RowOk(BundleId(u), r, s.pubs, s.issued, s.resolved, s.sends)
            && (forall q | q in s.pubs && Open(q, s.resolved) && Holder(q) == BundleId(u) :: Reserves(r, q))
            && s.sends[s.rows[BundleId(u)].hash.value].bundle == u
  {
    assert RowOk(BundleId(u), s.rows[BundleId(u)], s.pubs, s.issued, s.resolved, s.sends);
  }

  lemma VerifiedLiveRows(s: State, u: Uuid, gone: set<Id>, how: Settlement, r: Row)
    requires LiveRows(s.rows, s.sends, s.tainted) && CanVerify(s, u)
    requires how == VerifiedPaid || how == VerifiedReverted
    requires s.sends[s.rows[BundleId(u)].hash.value].bundle == u
    requires how == VerifiedPaid ==> Live(s.sends[s.rows[BundleId(u)].hash.value])
    requires how == VerifiedPaid ==> r.pay == Some(Confirmed) && r.hash == s.rows[BundleId(u)].hash
    ensures LiveRows((s.rows - gone)[BundleId(u) := r], Settle(s.sends, s.rows[BundleId(u)].hash.value, how), s.tainted)
  {
    var n := s.rows[BundleId(u)].hash.value;
    var rows, sends := (s.rows - gone)[BundleId(u) := r], Settle(s.sends, n, how);
    forall m: nat | m < |sends| && Live(sends[m]) && sends[m].bundle !in s.tainted && BundleId(sends[m].bundle) in rows
      ensures LiveRow(rows[BundleId(sends[m].bundle)], m, sends[m].settled)
    {
      assert m != n ==> sends[m] == s.sends[m];
      assert Live(s.sends[m]);
      assert LiveRow(s.rows[BundleId(sends[m].bundle)], m, s.sends[m].settled);
    }
  }

  lemma VerifiedSentOk(s: State, u: Uuid, gone: set<Id>, how: Settlement, r: Row)
    requires RowsOk(s.rows, s.pubs, s.issued, s.resolved, s.sends) && FundingOk(s.funding, s.pubs, s.issued, s.sends)
    requires ResolvedOk(s.resolved, s.sends) && AtMostOneLive(s.sends, s.tainted)
    requires LiveRows(s.rows, s.sends, s.tainted) && SentOk(s.funding, s.rows, s.sends, s.tainted)
    requires CanVerify(s, u) && Evictable(s.rows, gone, BundleId(u))
    requires s.sends[s.rows[BundleId(u)].hash.value].bundle == u
    ensures SentOk(s.funding, (s.rows - gone)[BundleId(u) := r], Settle(s.sends, s.rows[BundleId(u)].hash.value, how),
        s.tainted)
  {
    var n := s.rows[BundleId(u)].hash.value;
    forall ck | ck in s.funding && s.funding[ck].pc.Sent? && s.funding[ck].quote.bundle !in s.tainted
      ensures Untraced((s.rows - gone)[BundleId(u) := r], s.funding[ck].quote.bundle) && s.funding[ck].pc.send != n
    {
      SentInFlight(s, ck);
    }
  }

  // ---- destination results, the user and other code

  lemma PollSuccessStep(s: State, u: Uuid, n: nat, gone: set<Id>)
    requires Inv(s) && CanPollSuccess(s, u, n) && Evictable(s.rows, gone, BundleId(u))
    ensures Inv(UpdateBundle(s, u, SUCCESS_PATCH, gone).(resolved := s.resolved[u := n]))
  {
    var s1 := s.(resolved := s.resolved[u := n]);
    ResolveKeepsInv(s, u, n);
    UpdateKeepsInv(s1, u, SUCCESS_PATCH, gone);
  }

  lemma ResolveKeepsInv(s: State, u: Uuid, n: nat)
    requires Inv(s) && CanPollSuccess(s, u, n)
    ensures Inv(s.(resolved := s.resolved[u := n]))
  {
    ResolvedReserved(s, u, n);
    ResolvedRows(s, u, n);
  }

  lemma ResolvedReserved(s: State, u: Uuid, n: nat)
    requires Reserved(s.rows, s.pubs, s.resolved) && Exclusive(s.pubs, s.resolved)
    ensures Reserved(s.rows, s.pubs, s.resolved[u := n]) && Exclusive(s.pubs, s.resolved[u := n])
  {
    assert forall p :: Open(p, s.resolved[u := n]) ==> Open(p, s.resolved);
  }

  lemma ResolvedRows(s: State, u: Uuid, n: nat)
    requires RowsOk(s.rows, s.pubs, s.issued, s.resolved, s.sends)
    ensures RowsOk(s.rows, s.pubs, s.issued, s.resolved[u := n], s.sends)
  {
    forall id | id in s.rows ensures RowOk(id, s.rows[id], s.pubs, s.issued, s.resolved[u := n], s.sends) {
      assert RowOk(id, s.rows[id], s.pubs, s.issued, s.resolved, s.sends);
    }
  }

  lemma UserDismissStep(s: State, id: Id, gone: set<Id>)
    requires Inv(s) && id in s.rows && (s.rows[id].status == Success || s.rows[id].status == Failed)
    requires Evictable(s.rows, gone, id)
    ensures Inv(s.(rows := DismissMap(s.rows, id, gone)))
  {
    DismissStep(s, id, gone);
  }

  lemma DismissStep(s: State, id: Id, gone: set<Id>)
    requires Inv(s) && Evictable(s.rows, gone, id)
    requires ForeignId(id) || (id in s.rows && (Manual(s.rows[id]) || !InFlight(s.rows[id])))
    ensures Inv(s.(rows := DismissMap(s.rows, id, gone)))
  {
    if !(id in s.rows && Manual(s.rows[id])) {
      var all := gone + {id};
      assert DismissMap(s.rows, id, gone) == s.rows - all;
      DropKeepsInv(s, all);
    }
  }

  lemma ForeignStep(s: State, op: Op, gone: set<Id>)
    requires Inv(s) && ForeignOp(op) && Evictable(s.rows, gone, op.id)
    ensures Inv(s.(rows := ApplyMap(s.rows, op, gone)))
  {
    if op.id in s.rows {
      assert RowOk(op.id, s.rows[op.id], s.pubs, s.issued, s.resolved, s.sends);
    }
    match op
    case Record(id, p) => PutKeepsInv(s, gone, id, Recorded(s.rows, id, p));
    case Update(id, p) => if id in s.rows { PutKeepsInv(s, gone, id, Merge(s.rows[id], Guard(s.rows[id], p))); }
    case Dismiss(id) => DismissStep(s, id, gone);
  }

  // ---------------------------------------------------------------- every step, every run

  lemma AuthSteps(s: State, e: Event, gone: set<Id>)
    requires Inv(s) && Enabled(s, e, gone)
    requires e.Reuse? || e.AuthBegin? || e.AuthPublish? || e.AuthReceive? || e.AuthAbort?
    ensures Inv(Next(s, e, gone))
  {
    match e
    case Reuse(t, job, u) => ReuseStep(s, t, job, u, gone);
    case AuthBegin(t, job) => SetAuthorizing(s, t, job);
    case AuthPublish(a, posted) => PublishStep(s, a, posted, gone);
    case AuthReceive(a, u, tidied) => ReceiveStep(s, a, u, tidied, gone);
    case AuthAbort(a) => EndAuthorizing(s, a);
  }

  lemma SetAuthorizing(s: State, t: TabId, job: Job)
    requires Inv(s) && JobOk(job)
    ensures Inv(DoAuthBegin(s, t, job))
  {
  }

  lemma EndAuthorizing(s: State, a: Account)
    requires Inv(s)
    ensures Inv(s.(authorizing := s.authorizing - {a}))
  {
  }

  lemma FundSteps(s: State, e: Event, gone: set<Id>)
    requires Inv(s) && Enabled(s, e, gone) && (e.FundBegin? || e.FundAbort? || e.FundCommit?)
    ensures Inv(Next(s, e, gone))
  {
    match e
    case FundBegin(t, u) => FundBeginStep(s, t, u);
    case FundAbort(ck) => EndFunding(s, ck);
    case FundCommit(ck, asked) => FundCommitStep(s, ck, asked, gone);
  }

  lemma WalletSteps(s: State, e: Event, gone: set<Id>)
    requires Inv(s) && Enabled(s, e, gone) && (e.FundReject? || e.FundUncertain?)
    ensures Inv(Next(s, e, gone))
  {
    match e
    case FundReject(ck) => FundRejectStep(s, ck, gone);
    case FundUncertain(ck) => FundUncertainStep(s, ck, gone);
  }

  lemma HashSteps(s: State, e: Event, gone: set<Id>)
    requires Inv(s) && Enabled(s, e, gone) && (e.FundHash? || e.FundEnd?)
    ensures Inv(Next(s, e, gone))
  {
    match e
    case FundHash(ck) => FundHashStep(s, ck, gone);
    case FundEnd(ck, touch) => if touch { FundUncertainStep(s, ck, gone); } else { EndFunding(s, ck); }
  }

  lemma ChainSteps(s: State, e: Event, gone: set<Id>)
    requires Inv(s) && Enabled(s, e, gone) && (e.Mine? || e.VerifyPayment?)
    ensures Inv(Next(s, e, gone))
  {
    match e
    case Mine(n, ok) => MineStep(s, n, ok);
    case VerifyPayment(t, u) => VerifyStep(s, t, u, gone);
  }

  lemma PollSteps(s: State, e: Event, gone: set<Id>)
    requires Inv(s) && Enabled(s, e, gone) && (e.PollStatus? || e.PollSuccess?)
    ensures Inv(Next(s, e, gone))
  {
    match e
    case PollStatus(u, failed) => UpdateKeepsInv(s, u, if failed then FAILED_PATCH else PENDING_PATCH, gone);
    case PollSuccess(u, n) => PollSuccessStep(s, u, n, gone);
  }

  lemma OtherSteps(s: State, e: Event, gone: set<Id>)
    requires Inv(s) && Enabled(s, e, gone)
    requires e.UserDismiss? || e.Foreign? || e.Crash?
    ensures Inv(Next(s, e, gone))
  {
    match e
    case UserDismiss(id) => UserDismissStep(s, id, gone);
    case Foreign(op) => ForeignStep(s, op, gone);
    case Crash(t) => CrashKeepsInv(s, t);
  }

  /** Every step of every tab keeps the invariant. */
  lemma StepKeepsInv(s: State, e: Event, gone: set<Id>)
    requires Inv(s) && Enabled(s, e, gone)
    ensures Inv(Next(s, e, gone))
  {
    if e.Reuse? || e.AuthBegin? || e.AuthPublish? || e.AuthReceive? || e.AuthAbort? {
      AuthSteps(s, e, gone);
    } else if e.FundBegin? || e.FundAbort? || e.FundCommit? {
      FundSteps(s, e, gone);
    } else if e.FundReject? || e.FundUncertain? {
      WalletSteps(s, e, gone);
    } else if e.FundHash? || e.FundEnd? {
      HashSteps(s, e, gone);
    } else if e.Mine? || e.VerifyPayment? {
      ChainSteps(s, e, gone);
    } else if e.PollStatus? || e.PollSuccess? {
      PollSteps(s, e, gone);
    } else {
      OtherSteps(s, e, gone);
    }
  }
}
