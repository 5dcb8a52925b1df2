/**
 One browser tab of the Relayr protocol, as the code keeps it: the quotes and funded bundles in
 module variables, everything else in the activity journal (web/src/hooks/useReviewedRelayr.ts).
 Each method is one stretch of synchronous code; its contract says that, when storage works, it
 is a guard of the protocol machine or one of its row operations.
 */
module RelayrTab {
  import opened Prelude
  import opened Identities
  import opened ActivityStore
  import opened RelayrProtocol

  // The journal as the protocol sees it.
  ghost predicate Usable(t: Tab, cell: Cell) { Clean(t) && Parse(cell).Some? && UniqueIds(Parse(cell).value) }

  function RowsOf(cell: Cell): Rows
    requires Parse(cell).Some?
  {
    View(Parse(cell).value)
  }

  // One operation reached storage: the map operation of the protocol, with some terminal rows dropped.
  ghost predicate Wrote(before: Rows, op: Op, after: Rows) {
    WellFormed(op) && exists gone: set<Id> :: Evictable(before, gone, op.id) && after == ApplyMap(before, op, gone)
  }

  // A tab's cached copy is what it last read or wrote, unless a read or a write failed since.
  ghost predicate Coherent(t: Tab) {
    && (t.hydrated && !t.readFailed && !t.writeFailed ==>
          t.persisted.Some? && Parse(t.persisted.value) == Some(t.snapshot))
    && (!t.hydrated ==> t.persisted.None? && !t.readFailed && !t.writeFailed)
  }

  ghost predicate KnownTab(t: Tab, cell: Cell) {
    Coherent(t) && (Parse(cell).Some? ==> UniqueIds(Parse(cell).value))
  }

  // After a reread the tab has no failure exactly when it lost no write and could read.
  lemma RefreshedRows(t: Tab, cell: Cell, io: Io)
    requires Coherent(t)
    ensures var t' := RefreshTab(t, cell, io);
            && Coherent(t')
            && (!t'.readFailed && !t'.writeFailed <==> !t.writeFailed && io.readable && Parse(cell).Some?)
            && (!t'.readFailed && !t'.writeFailed ==> Clean(t') && Parse(cell) == Some(t'.snapshot))
            && (Clean(t) ==> Clean(t'))
  {
  }

  lemma ExecWrites(t: Tab, cell: Cell, op: Op)
    requires WellFormed(op) && Usable(t, cell)
    ensures var (t', cell') := Exec(t, cell, op, WORKS); Usable(t', cell') && Wrote(RowsOf(cell), op, RowsOf(cell'))
  {
    WorkingOperation(t, cell, op);
    var rows := Parse(cell).value;
    OneOperation(rows, op, op.id);
    var gone := StoreRefinesMap(rows, op);
  }

  // The first row of the list that refuses, and the guards of the protocol on the map.
  lemma {:induction false} NoneBlocks(rows: seq<Row>, bundle: Option<Uuid>, callKey: CallKey, keys: set<Key>)
    requires UniqueIds(rows)
    ensures (forall r | r in rows :: !Blocks(r, bundle, callKey, keys)) <==>
        Unblocked(View(rows), bundle, callKey, keys)
  {
    forall r | r in rows ensures r.id in View(rows) && View(rows)[r.id] == r {
      RowInView(rows, r);
    }
    forall id | id in View(rows) ensures View(rows)[id] in rows {
      ViewLookup(rows, id);
      FindMembers(rows, id);
    }
  }

  lemma {:induction false} NoneHolds(rows: seq<Row>, account: Account, scope: string)
    requires UniqueIds(rows)
    ensures (forall r | r in rows :: !HoldsScope(r, account, scope)) <==> ScopeAvailable(View(rows), account, scope)
  {
    forall r | r in rows ensures r.id in View(rows) && View(rows)[r.id] == r {
      RowInView(rows, r);
    }
    forall id | id in View(rows) ensures View(rows)[id] in rows {
      ViewLookup(rows, id);
      FindMembers(rows, id);
    }
  }

  lemma {:induction false} RowInView(rows: seq<Row>, r: Row)
    requires UniqueIds(rows) && r in rows
    ensures r.id in View(rows) && View(rows)[r.id] == r
  {
    if rows[0] != r {
      RowInView(rows[1..], r);
    }
  }

  // What the wallet's answer writes into the row.
  function AnswerPatch(hash: Option<Hash>, rejected: bool): Patch {
    if hash.Some? then HashPatch(hash.value) else if rejected then DECLINED_PATCH else PENDING_PATCH
  }

  // The two row operations after a quote was received.
  function NameThenDrop(t: Tab, cell: Cell, job: Job, u: Uuid, first: Io, second: Io): (Tab, Cell) {
    var (t1, cell1) := Exec(t, cell, Record(BundleId(u), BundlePatch(job, u)), first);
    Exec(t1, cell1, Dismiss(PublicationId(job.callKey)), second)
  }

  // A row of the stored list.
  predicate StoredRow(cell: Cell, id: Id) { Parse(cell).Some? && Find(Parse(cell).value, id).Some? }

  // Naming the bundle and then dropping its publication leaves the bundle row.
  lemma NamedThenDropped(rows: seq<Row>, job: Job, u: Uuid)
    requires UniqueIds(rows)
    ensures var named := RecordRows(rows, BundleId(u), BundlePatch(job, u));
            && Find(named, BundleId(u)).Some? && InFlight(Find(named, BundleId(u)).value) && UniqueIds(named)
            && Find(DismissRows(named, PublicationId(job.callKey)), BundleId(u)).Some?
  {
    OneOperation(rows, Record(BundleId(u), BundlePatch(job, u)), BundleId(u));
    var named := RecordRows(rows, BundleId(u), BundlePatch(job, u));
    OneOperation(named, Dismiss(PublicationId(job.callKey)), BundleId(u));
  }

  // The first operation could not read: nothing is stored, and a reread forgets the bundle.
  lemma FirstUnread(t: Tab, cell: Cell, job: Job, u: Uuid, first: Io, second: Io)
    requires Usable(t, cell) && !StoredRow(cell, BundleId(u)) && !first.readable
    requires var row := Find(Parse(cell).value, PublicationId(job.callKey)); row.Some? && !Manual(row.value)
    ensures var cell' := NameThenDrop(t, cell, job, u, first, second).1;
            if second == WORKS then Parse(cell').Some? && !StoredRow(cell', BundleId(u))
              && !StoredRow(cell', PublicationId(job.callKey))
            else cell' == cell
  {
    var rows, id := Parse(cell).value, PublicationId(job.callKey);
    OneOperation(rows, Dismiss(id), BundleId(u));
    OneOperation(rows, Dismiss(id), id);
    RetainIdempotent(Without(rows, id));
  }

  // The first operation could read and not write: the tab keeps the bundle row and writes it next.
  lemma FirstUnwritten(t: Tab, cell: Cell, job: Job, u: Uuid, second: Io)
    requires Usable(t, cell)
    ensures var cell' := NameThenDrop(t, cell, job, u, Io(true, false), second).1;
            cell' == cell || StoredRow(cell', BundleId(u))
  {
    var rows, id := Parse(cell).value, PublicationId(job.callKey);
    var (t1, cell1) := Exec(t, cell, Record(BundleId(u), BundlePatch(job, u)), Io(true, false));
    var named := RecordRows(rows, BundleId(u), BundlePatch(job, u));
    assert t1.snapshot == named && cell1 == cell && t1.writeFailed && !t1.readFailed && t1.hydrated;
    NamedThenDropped(rows, job, u);
    RetainIdempotent(Without(named, id));
  }

  lemma FirstWritten(t: Tab, cell: Cell, job: Job, u: Uuid, second: Io)
    requires Usable(t, cell)
    ensures StoredRow(NameThenDrop(t, cell, job, u, WORKS, second).1, BundleId(u))
  {
    var rows, id := Parse(cell).value, PublicationId(job.callKey);
    var op := Record(BundleId(u), BundlePatch(job, u));
    var (t1, cell1) := Exec(t, cell, op, WORKS);
    WorkingOperation(t, cell, op);
    NamedThenDropped(rows, job, u);
    if second == WORKS {
      WorkingOperation(t1, cell1, Dismiss(id));
    } else {
      assert NameThenDrop(t, cell, job, u, WORKS, second).1 == cell1;
    }
  }

  /**
   A received quote stays reserved in storage, exactly: afterwards the bundle row or the
   publication row is there, unless the first operation could not read and the second one could
   read and write again. Then the second rereads what is stored, and the bundle row is lost.
   */
  lemma QuoteStaysReserved(t: Tab, cell: Cell, job: Job, u: Uuid, first: Io, second: Io)
    requires Usable(t, cell) && !StoredRow(cell, BundleId(u))
    requires var row := Find(Parse(cell).value, PublicationId(job.callKey)); row.Some? && !Manual(row.value)
    ensures var cell' := NameThenDrop(t, cell, job, u, first, second).1;
            StoredRow(cell', BundleId(u)) || StoredRow(cell', PublicationId(job.callKey))
            <==> first.readable || second != WORKS
  {
    if !first.readable {
      FirstUnread(t, cell, job, u, first, second);
    } else if !first.writable {
      FirstUnwritten(t, cell, job, u, second);
    } else {
      FirstWritten(t, cell, job, u, second);
    }
  }

  // Every saved quote is kept in the row of the bundle it names.
  predicate QuotesNamed(rows: seq<Row>) {
    forall r | r in rows && r.quoted :: r.bundle.Some? && r.id == BundleId(r.bundle.value)
  }

  // Row `i` is the first one with a quote that can be taken up.
  predicate FirstReusable(rows: seq<Row>, callKey: CallKey, i: nat) {
    i < |rows| && Reusable(rows[i], callKey) && forall k | 0 <= k < i :: !Reusable(rows[k], callKey)
  }

  // The stored rows after the keys of a request were added to a row the tab saw.
  ghost predicate ReservesKeys(before: Rows, seen: Row, job: Job, after: Rows) {
    if seen.id in before then Wrote(before, Update(seen.id, MoreKeys(seen, job)), after) else after == before
  }

  // The row the tab saw is the stored one: it gets the keys of the request and keeps all else.
  lemma KeysAdded(before: Rows, seen: Row, job: Job, after: Rows)
    requires seen.id in before && before[seen.id] == seen && ReservesKeys(before, seen, job, after)
    ensures seen.id in after && after[seen.id] == seen.(keys := seen.keys + job.keys)
  {
  }

  // One update, and the persistence check after it.
  lemma CheckedUpdate(t: Tab, cell: Cell, id: Id, p: Patch, io: Io)
    requires Usable(t, cell)
    ensures var (t1, cell1) := Exec(t, cell, Update(id, p), io);
            var t2 := RefreshTab(t1, cell1, io);
            var before := RowsOf(cell);
            && (!t2.writeFailed && !t2.readFailed ==>
                  && io.readable && (id in before ==> io == WORKS) && Usable(t2, cell1)
                  && (if id in before then Wrote(before, Update(id, p), RowsOf(cell1)) else cell1 == cell))
            && (t2.writeFailed || t2.readFailed ==> cell1 == cell && io != WORKS)
  {
    ViewLookup(Parse(cell).value, id);
    if io == WORKS {
      ExecWrites(t, cell, Update(id, p));
    }
  }

  class RelayrTab {
    const activities: ActivityTab
    var quotes: map<Uuid, Quote>
    var fundedBundles: set<Uuid>

    constructor (activities: ActivityTab)
      ensures this.activities == activities && quotes == map[] && fundedBundles == {}
    {
      this.activities, quotes, fundedBundles := activities, map[], {};
    }

    ghost predicate Valid()
      reads this, activities, activities.storage
    {
      Usable(activities.Value(), activities.storage.cell)
    }

    // Any tab, whatever failed before, over stored rows with one row an id.
    ghost predicate Known()
      reads this, activities, activities.storage
    {
      KnownTab(activities.Value(), activities.storage.cell)
    }

    // This tab lost no write, and the stored rows can be read.
    ghost predicate Sees(io: Io)
      reads this, activities, activities.storage
    {
      !activities.Value().writeFailed && io.readable && Parse(activities.storage.cell).Some?
    }

    function Rows(): Rows
      reads this, activities, activities.storage
      requires Parse(activities.storage.cell).Some?
    {
      RowsOf(activities.storage.cell)
    }

    // `requireRelayrRecoveryScopeAvailable`: true when it does not throw.
    method RequireScopeAvailable(account: Account, scope: string, io: Io) returns (ok: bool)
      requires Known()
      modifies activities
      ensures Known() && (ok ==> Valid())
      ensures ok <==> old(Sees(io)) && ScopeAvailable(old(Rows()), account, scope)
    {
      RefreshedRows(activities.Value(), activities.storage.cell, io);
      ok := activities.RequirePersistence(io);
      if !ok { return; }
      var rows := activities.snapshot;
      NoneHolds(rows, account, scope);
      for i := 0 to |rows|
        invariant forall k | 0 <= k < i :: !HoldsScope(rows[k], account, scope)
      {
        if HoldsScope(rows[i], account, scope) { return false; }
      }
    }

    // `requireUnfunded`; a fresh authorization asks with no bundle.
    method RequireUnfunded(bundle: Option<Uuid>, callKey: CallKey, keys: set<Key>, io: Io) returns (ok: bool)
      requires Known()
      modifies activities
      ensures Known() && (ok ==> Valid())
      ensures ok <==>
                && old(Sees(io)) && Unblocked(old(Rows()), bundle, callKey, keys)
                && (bundle.Some? ==> bundle.value !in fundedBundles)
    {
      RefreshedRows(activities.Value(), activities.storage.cell, io);
      ok := activities.RequirePersistence(io);
      if !ok { return; }
      if bundle.Some? && bundle.value in fundedBundles { return false; }
      var rows := activities.snapshot;
      NoneBlocks(rows, bundle, callKey, keys);
      for i := 0 to |rows|
        invariant forall k | 0 <= k < i :: !Blocks(rows[k], bundle, callKey, keys)
      {
        if Blocks(rows[i], bundle, callKey, keys) { return false; }
      }
    }

    /**
     Lines 1081-1105: the last check, the `submitted` row and the persistence check. The wallet
     is asked only after this returns true, so the check passed on the very rows that the
     persisted row was written over.
     */
    method CommitFunding(q: Quote, io: Io) returns (ask: bool)
      requires Known()
      modifies activities, activities.storage
      ensures ask <==>
                && old(Sees(io)) && io.writable && q.bundle !in fundedBundles
                && Unblocked(old(Rows()), Some(q.bundle), q.callKey, q.keys)
      ensures ask ==> Valid() && fundedBundles == old(fundedBundles)
      ensures ask ==> Wrote(old(Rows()), Record(BundleId(q.bundle), SubmittedPatch(q)), Rows())
      ensures !ask ==> activities.storage.cell == old(activities.storage.cell)
    {
      ask := RequireUnfunded(Some(q.bundle), q.callKey, q.keys, io);
      if !ask { return; }
      ExecWrites(activities.Value(), activities.storage.cell, Record(BundleId(q.bundle), SubmittedPatch(q)));
      activities.RecordActivity(BundleId(q.bundle), SubmittedPatch(q), io);
      ask := activities.RequirePersistence(io);
    }

    // One row operation, whatever storage does.
    method Write(op: Op, io: Io)
      requires WellFormed(op)
      modifies activities, activities.storage
      ensures (activities.Value(), activities.storage.cell)
          == old(Exec(activities.Value(), activities.storage.cell, op, io))
      ensures old(Valid()) && io == WORKS ==> Valid() && Wrote(old(Rows()), op, Rows())
    {
      if Valid() {
        ExecWrites(activities.Value(), activities.storage.cell, op);
      }
      match op {
        case Record(id, p) => activities.RecordActivity(id, p, io);
        case Update(id, p) => activities.UpdateActivity(id, p, io);
        case Dismiss(id) => activities.DismissActivity(id, io);
      }
    }

    // The wallet's answer to a funding (lines 1103-1143): only error 4001 makes the bundle
    // unfunded, and a hash makes this tab refuse to pay again even if storage fails.
    method FundingAnswered(q: Quote, hash: Option<Hash>, rejected: bool, io: Io)
      modifies this`fundedBundles, activities, activities.storage
      ensures fundedBundles == old(fundedBundles) + if hash.Some? then {q.bundle} else {}
      ensures var op := Update(BundleId(q.bundle), AnswerPatch(hash, rejected));
              && (activities.Value(), activities.storage.cell)
                == old(Exec(activities.Value(), activities.storage.cell, op, io))
              && (old(Valid()) && io == WORKS ==> Valid() && Wrote(old(Rows()), op, Rows()))
    {
      if hash.Some? {
        fundedBundles := fundedBundles + {q.bundle};
        Write(Update(BundleId(q.bundle), HashPatch(hash.value)), io);
      } else if rejected {
        Write(Update(BundleId(q.bundle), DECLINED_PATCH), io);
      } else {
        Write(Update(BundleId(q.bundle), PENDING_PATCH), io);
      }
    }

    // `verifyPaymentReceipt` once the chain answered; only a verified revert frees the bundle.
    method PaymentVerified(u: Uuid, succeeded: bool, io: Io)
      modifies this`fundedBundles, activities, activities.storage
      ensures fundedBundles == if succeeded then old(fundedBundles) else old(fundedBundles) - {u}
      ensures var op := Update(BundleId(u), if succeeded then CONFIRMED_PATCH else REVERTED_PATCH);
              && (activities.Value(), activities.storage.cell)
                == old(Exec(activities.Value(), activities.storage.cell, op, io))
              && (old(Valid()) && io == WORKS ==> Valid() && Wrote(old(Rows()), op, Rows()))
    {
      if !succeeded {
        fundedBundles := fundedBundles - {u};
        Write(Update(BundleId(u), REVERTED_PATCH), io);
      } else {
        Write(Update(BundleId(u), CONFIRMED_PATCH), io);
      }
    }

    /**
     Lines 884-914: the second check and the publication row, ahead of the POST. The POST is
     made only after this returns true.
     */
    method CommitPublication(job: Job, io: Io) returns (post: bool)
      requires Known()
      modifies activities, activities.storage
      ensures post <==>
                && old(Sees(io)) && io.writable && Unblocked(old(Rows()), None, job.callKey, job.keys)
      ensures post ==> Valid()
      ensures post ==> Wrote(old(Rows()), Record(PublicationId(job.callKey), PublicationPatch(job)), Rows())
      ensures !post ==> activities.storage.cell == old(activities.storage.cell)
    {
      post := RequireUnfunded(None, job.callKey, job.keys, io);
      if !post { return; }
      ExecWrites(activities.Value(), activities.storage.cell,
        Record(PublicationId(job.callKey), PublicationPatch(job)));
      activities.RecordActivity(PublicationId(job.callKey), PublicationPatch(job), io);
      post := activities.RequirePersistence(io);
    }

    // Lines 953-970: the bundle row is written before the publication row is dropped.
    method QuoteReceived(job: Job, u: Uuid, first: Io, second: Io)
      modifies this`quotes, activities, activities.storage
      ensures quotes == old(quotes)[u := Quote(u, job.account, job.callKey, job.keys)]
      ensures (activities.Value(), activities.storage.cell)
           == old(NameThenDrop(activities.Value(), activities.storage.cell, job, u, first, second))
      ensures old(Valid()) && first == WORKS && second == WORKS ==>
                && Valid()
                && exists named: Rows ::
                     && Wrote(old(Rows()), Record(BundleId(u), BundlePatch(job, u)), named)
                     && Wrote(named, Dismiss(PublicationId(job.callKey)), Rows())
    {
      Write(Record(BundleId(u), BundlePatch(job, u)), first);
      Write(Dismiss(PublicationId(job.callKey)), second);
      quotes := quotes[u := Quote(u, job.account, job.callKey, job.keys)];
    }

    // The rows the tab sees when it first looks.
    function Seen(io: Io): seq<Row>
      reads activities, activities.storage
    {
      RefreshTab(activities.Value(), activities.storage.cell, io).snapshot
    }

    /**
     Lines 632-657: the first saved quote of exactly these calls that is still to be funded, if
     the tab sees one; its row then reserves the keys of this request as well, and only when
     that is persisted the quote is used. A tab that cannot read at first looks at its own copy,
     so it may use a quote whose row is gone by now.
     */
    method ReuseQuote(job: Job, first: Io, second: Io) returns (ok: bool, reused: Option<Uuid>)
      requires Valid() && QuotesNamed(Seen(first))
      modifies this`quotes, activities, activities.storage
      ensures ok ==> Valid()
      ensures reused.None? ==> quotes == old(quotes) && activities.storage.cell == old(activities.storage.cell)
      ensures !ok ==> reused.None? && second != WORKS
      ensures !ok ==> exists i: nat :: FirstReusable(old(Seen(first)), job.callKey, i)
      ensures first.readable ==> old(Seen(first)) == old(Parse(activities.storage.cell).value)
      ensures ok && reused.None? ==> forall r | r in old(Seen(first)) :: !Reusable(r, job.callKey)
      ensures reused.Some? ==>
                && ok && quotes == old(quotes)[reused.value := Quote(reused.value, job.account, job.callKey, job.keys)]
                && exists i: nat ::
                     && FirstReusable(old(Seen(first)), job.callKey, i)
                     && old(Seen(first))[i].id == BundleId(reused.value)
                     && ReservesKeys(old(Rows()), old(Seen(first))[i], job, Rows())
      ensures reused.Some? && first.readable ==>
                var id := BundleId(reused.value);
                && id in old(Rows()) && Reusable(old(Rows())[id], job.callKey) && id in Rows()
                && Rows()[id] == old(Rows())[id].(keys := old(Rows())[id].keys + job.keys)
    {
      if first.readable {
        SeenIsStored(activities.Value(), activities.storage.cell, first);
      }
      RefreshedRows(activities.Value(), activities.storage.cell, first);
      activities.Refresh(first);
      var rows := activities.snapshot;
      for i := 0 to |rows|
        invariant forall k | 0 <= k < i :: !Reusable(rows[k], job.callKey)
        invariant Valid() && rows == old(Seen(first))
        invariant activities.storage.cell == old(activities.storage.cell) && quotes == old(quotes)
      {
        if Reusable(rows[i], job.callKey) {
          assert FirstReusable(rows, job.callKey, i);
          if first.readable {
            RowInView(rows, rows[i]);
          }
          CheckedUpdate(activities.Value(), activities.storage.cell, rows[i].id, MoreKeys(rows[i], job), second);
          activities.UpdateActivity(rows[i].id, MoreKeys(rows[i], job), second);
          ok := activities.RequirePersistence(second);
          if !ok { return false, None; }
          var u := rows[i].bundle.value;
          if first.readable {
            KeysAdded(old(Rows()), rows[i], job, Rows());
          }
          quotes := quotes[u := Quote(u, job.account, job.callKey, job.keys)];
          return true, Some(u);
        }
      }
      ok, reused := true, None;
    }
  }

  // A tab that could read saw what was stored.
  lemma SeenIsStored(t: Tab, cell: Cell, io: Io)
    requires Usable(t, cell) && io.readable
    ensures RefreshTab(t, cell, io).snapshot == Parse(cell).value
  {
  }

  // ---------------------------------------------------------------- a tab that lost a write

  // Of the rows in a list, only that of `id` can still refuse a funding or an authorization.
  predicate OnlyRefusedBy(rows: seq<Row>, id: Id, bundle: Option<Uuid>, callKey: CallKey, keys: set<Key>) {
    forall r | r in rows && r.id != id :: !Blocks(r, bundle, callKey, keys)
  }

  lemma {:induction false} OneRefuses(rows: seq<Row>, id: Id, bundle: Option<Uuid>, callKey: CallKey, keys: set<Key>)
    requires UniqueIds(rows) && OnlyRefusedBy(rows, id, bundle, callKey, keys)
    ensures Unblocked(View(rows), bundle, callKey, keys)
            <==> Find(rows, id).None? || !Blocks(Find(rows, id).value, bundle, callKey, keys)
  {
    NoneBlocks(rows, bundle, callKey, keys);
    FindMembers(rows, id);
    forall r | r in rows && r.id == id ensures Find(rows, id) == Some(r) {
      RowInView(rows, r);
      ViewLookup(rows, id);
    }
  }

  /**
   Where the protocol stops when storage fails, exactly. A tab that lost a write stores its own
   copy with its next operation. Afterwards a bundle can be funded (`bundle`), or calls can be
   authorized (None), whatever was stored about them and whatever the wallet was asked, if and only
   if the tab's copy of the row in their way is missing, does not block, or is terminal and
   dropped by the cap.
   */
  lemma {:induction false} LostWriteUnblocks(
    t: Tab, cell: Cell, op: Op, id: Id, bundle: Option<Uuid>, callKey: CallKey, keys: set<Key>)
    requires t.hydrated && t.writeFailed && !t.readFailed && UniqueIds(t.snapshot) && Parse(cell).Some?
    requires WellFormed(op) && Writes(t.snapshot, op) && op.id != id
    requires OnlyRefusedBy(Apply(t.snapshot, op), id, bundle, callKey, keys)
    ensures var cell', copy := Exec(t, cell, op, WORKS).1, Find(t.snapshot, id);
            && Parse(cell').Some?
            && (Unblocked(RowsOf(cell'), bundle, callKey, keys) <==>
                  || copy.None? || !Blocks(copy.value, bundle, callKey, keys)
                  || (!InFlight(copy.value) && id !in RowsOf(cell')))
  {
    LostWriteOperation(t, cell, op, WORKS);
    OneOperation(t.snapshot, op, id);
    OneRefuses(Apply(t.snapshot, op), id, bundle, callKey, keys);
    ViewLookup(Apply(t.snapshot, op), id);
  }

  /**
   The rows and the guard of one funding commit of the machine, from the tab: whenever the
   code goes on to ask the wallet, the machine's `FundCommit` was enabled and writes these rows.
   */
  lemma CommitIsMachineStep(s: State, ck: CallKey, rows: Rows)
    requires ck in s.funding && s.funding[ck].pc.Reviewing?
    requires (s.funding[ck].tab, s.funding[ck].quote.bundle) !in s.funded
    requires var q := s.funding[ck].quote;
             && Unblocked(s.rows, Some(q.bundle), q.callKey, q.keys)
             && Wrote(s.rows, Record(BundleId(q.bundle), SubmittedPatch(q)), rows)
    ensures exists gone :: Enabled(s, FundCommit(ck, true), gone) && Next(s, FundCommit(ck, true), gone).rows == rows
  {
    var q := s.funding[ck].quote;
    var gone: set<Id> :| Evictable(s.rows, gone, BundleId(q.bundle))
                         && rows == ApplyMap(s.rows, Record(BundleId(q.bundle), SubmittedPatch(q)), gone);
    assert Enabled(s, FundCommit(ck, true), gone) && Next(s, FundCommit(ck, true), gone).rows == rows;
  }

  /** The same for a publication: whenever the code posts signatures, `AuthPublish` was enabled. */
  lemma PublicationIsMachineStep(s: State, a: Account, rows: Rows)
    requires a in s.authorizing && s.authorizing[a].pc.Signing?
    requires var job := s.authorizing[a].job;
             && Unblocked(s.rows, None, job.callKey, job.keys)
             && Wrote(s.rows, Record(PublicationId(job.callKey), PublicationPatch(job)), rows)
    ensures exists gone :: Enabled(s, AuthPublish(a, true), gone) && Next(s, AuthPublish(a, true), gone).rows == rows
  {
    var job := s.authorizing[a].job;
    var gone: set<Id> :| Evictable(s.rows, gone, PublicationId(job.callKey))
                         && rows == ApplyMap(s.rows, Record(PublicationId(job.callKey), PublicationPatch(job)), gone);
    assert Enabled(s, AuthPublish(a, true), gone) && Next(s, AuthPublish(a, true), gone).rows == rows;
  }
}
