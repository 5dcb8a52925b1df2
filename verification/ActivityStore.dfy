/**
 The transaction activity journal (web/src/lib/transaction-activity.ts): one list of rows in
 localStorage, newest first, shared by every tab, and a cached copy of it in each tab.
 */
module ActivityStore {
  import opened Prelude
  import opened Identities

  /*
   `RecordRows`, `UpdateRows` and `DismissRows` say what one operation means on the list. The
   classes `LocalStorage` and `ActivityTab` are the code, with its cache, its read and write
   failure flags and its re-read before each write. `NoLostUpdates` says that, while storage
   works, any interleaving of tabs and reloads means those three functions applied one by one.
   */

  datatype Kind = Direct | Safe | RelayrPayment | RelayrBundle
  datatype Status = Submitted | Pending | SafeProposed | Success | Failed
  datatype PayStatus = Unfunded | PaySubmitted | Confirmed | Reverted

  datatype Row = Row(
    id: Id,
    kind: Kind,
    status: Status,
    manual: Option<bool>,
    account: Option<Account>,
    hash: Option<Hash>,
    executionHash: Option<Hash>,
    bundle: Option<Uuid>,
    callKey: Option<CallKey>,
    keys: set<Key>,
    quoted: bool,
    pay: Option<PayStatus>)

  // One property of an object literal that is spread over a row: absent, or present with a
  // value, which for an optional property may be an explicit `undefined` (None).
  datatype Field<+T> = Absent | Present(value: T)

  datatype Patch = Patch(
    kind: Field<Kind>,
    status: Field<Status>,
    manual: Field<Option<bool>>,
    account: Field<Option<Account>>,
    hash: Field<Option<Hash>>,
    executionHash: Field<Option<Hash>>,
    bundle: Field<Option<Uuid>>,
    callKey: Field<Option<CallKey>>,
    keys: Field<set<Key>>,
    quoted: Field<bool>,
    pay: Field<Option<PayStatus>>)

  const NO_PATCH := Patch(Absent, Absent, Absent, Absent, Absent, Absent, Absent, Absent, Absent, Absent, Absent)

  function Or<T>(f: Field<T>, kept: T): T { if f.Present? then f.value else kept }

  function Merge(r: Row, p: Patch): Row {
    Row(r.id, Or(p.kind, r.kind), Or(p.status, r.status), Or(p.manual, r.manual), Or(p.account, r.account),
        Or(p.hash, r.hash), Or(p.executionHash, r.executionHash), Or(p.bundle, r.bundle),
        Or(p.callKey, r.callKey), Or(p.keys, r.keys), Or(p.quoted, r.quoted), Or(p.pay, r.pay))
  }

  // The row an object literal makes when no row has its id yet; kind and status are mandatory.
  predicate Complete(p: Patch) { p.kind.Present? && p.status.Present? }

  function Blank(id: Id, p: Patch): Row
    requires Complete(p)
  {
    Row(id, p.kind.value, p.status.value, None, None, None, None, None, None, {}, false, None)
  }

  const MAX_TERMINAL_ACTIVITIES := 20

  predicate Manual(r: Row) { r.manual == Some(true) }

  predicate InFlight(r: Row) {
    Manual(r) || r.status == Submitted || r.status == Pending || r.status == SafeProposed
  }

  function Find(rows: seq<Row>, id: Id): Option<Row> {
    if rows == [] then None else if rows[0].id == id then Some(rows[0]) else Find(rows[1..], id)
  }

  function Without(rows: seq<Row>, id: Id): seq<Row> {
    if rows == [] then [] else if rows[0].id == id then Without(rows[1..], id) else [rows[0]] + Without(rows[1..], id)
  }

  // What is kept of `rows` when `terminal` terminal rows came before them.
  function Keep(rows: seq<Row>, terminal: nat): seq<Row> {
    if rows == [] then []
    else if InFlight(rows[0]) then [rows[0]] + Keep(rows[1..], terminal)
    else if terminal < MAX_TERMINAL_ACTIVITIES then [rows[0]] + Keep(rows[1..], terminal + 1)
    else Keep(rows[1..], terminal + 1)
  }

  function Retain(rows: seq<Row>): seq<Row> { Keep(rows, 0) }

  function RecordRows(rows: seq<Row>, id: Id, p: Patch): seq<Row>
    requires Complete(p)
  {
    var current := Find(rows, id);
    Retain([Merge(if current.Some? then current.value else Blank(id, p), p)] + Without(rows, id))
  }

  // A quarantined row turns into a success only by a patch that itself clears the quarantine.
  function Guard(current: Row, p: Patch): Patch {
    if Manual(current) && p.status == Present(Success) && p.manual != Present(Some(false))
    then p.(status := Present(current.status)) else p
  }

  function UpdateRows(rows: seq<Row>, id: Id, p: Patch): seq<Row> {
    var current := Find(rows, id);
    if current.None? then rows
    else Retain([Merge(current.value, Guard(current.value, p))] + Without(rows, id))
  }

  function DismissRows(rows: seq<Row>, id: Id): seq<Row> {
    var current := Find(rows, id);
    if current.Some? && Manual(current.value) then rows else Retain(Without(rows, id))
  }

  datatype Op =
    | Record(id: Id, patch: Patch)
    | Update(id: Id, patch: Patch)
    | Dismiss(id: Id)

  predicate WellFormed(op: Op) { op.Record? ==> Complete(op.patch) }

  function Apply(rows: seq<Row>, op: Op): seq<Row>
    requires WellFormed(op)
  {
    match op
    case Record(id, p) => RecordRows(rows, id, p)
    case Update(id, p) => UpdateRows(rows, id, p)
    case Dismiss(id) => DismissRows(rows, id)
  }

  function Fold(rows: seq<Row>, ops: seq<Op>): seq<Row>
    requires forall op | op in ops :: WellFormed(op)
  {
    if ops == [] then rows else Apply(Fold(rows, ops[..|ops| - 1]), ops[|ops| - 1])
  }

  // ---------------------------------------------------------------- what an operation writes

  // One property of a row after a patch: what the patch gives it, and otherwise what it was.
  predicate Property<T(==)>(given: Field<T>, was: T, now: T) {
    match given
    case Present(value) => now == value
    case Absent => now == was
  }

  // Every property except the status.
  predicate Properties(p: Patch, was: Row, now: Row) {
    && now.id == was.id && Property(p.kind, was.kind, now.kind) && Property(p.manual, was.manual, now.manual)
    && Property(p.account, was.account, now.account) && Property(p.hash, was.hash, now.hash)
    && Property(p.executionHash, was.executionHash, now.executionHash) && Property(p.bundle, was.bundle, now.bundle)
    && Property(p.callKey, was.callKey, now.callKey) && Property(p.keys, was.keys, now.keys)
    && Property(p.quoted, was.quoted, now.quoted) && Property(p.pay, was.pay, now.pay)
  }

  // What a record leaves under its id: over a row, or over nothing.
  predicate RecordedOver(p: Patch, was: Option<Row>, now: Row) {
    match was
    case Some(row) => Properties(p, row, now) && Property(p.status, row.status, now.status)
    case None =>
      && p.kind == Present(now.kind) && p.status == Present(now.status)
      && Properties(p, Row(now.id, now.kind, now.status, None, None, None, None, None, None, {}, false, None), now)
  }

  // What an update leaves: the status of a row under manual verification becomes a success
  // only by a patch that also says that the verification is over.
  predicate UpdatedOver(p: Patch, was: Row, now: Row) {
    && Properties(p, was, now)
    && if was.manual == Some(true) && p.status == Present(Success) && p.manual != Present(Some(false))
       then now.status == was.status
       else Property(p.status, was.status, now.status)
  }

  lemma PatchArrives(r: Row, p: Patch)
    ensures Properties(p, r, Merge(r, p)) && Property(p.status, r.status, Merge(r, p).status)
  {
  }

  lemma RecordArrives(was: Option<Row>, id: Id, p: Patch)
    requires Complete(p) && (was.Some? ==> was.value.id == id)
    ensures var now := Merge(if was.Some? then was.value else Blank(id, p), p);
            now.id == id && RecordedOver(p, was, now)
  {
    PatchArrives(if was.Some? then was.value else Blank(id, p), p);
  }

  lemma UpdateArrives(was: Row, p: Patch)
    ensures UpdatedOver(p, was, Merge(was, Guard(was, p)))
  {
    PatchArrives(was, Guard(was, p));
  }

  // The row of the operation's own id before and after it.
  predicate Effect(op: Op, was: Option<Row>, now: Option<Row>) {
    match op
    case Record(id, p) => now.Some? && now.value.id == id && RecordedOver(p, was, now.value)
    case Update(_, p) => was.Some? == now.Some? && (was.Some? ==> UpdatedOver(p, was.value, now.value))
    case Dismiss(_) => now == if was.Some? && was.value.manual == Some(true) then was else None
  }

  // ---------------------------------------------------------------- the code

  // The raw text under the storage key. Serializing is injective, so a text that parses is
  // the rows it parses to.
  datatype Cell = Empty | Stored(rows: seq<Row>) | Garbled(text: string)

  function Parse(cell: Cell): Option<seq<Row>> {
    match cell
    case Empty => Some([])
    case Stored(rows) => Some(Retain(rows))
    case Garbled(_) => None
  }

  // What the browser allows during one operation.
  datatype Io = Io(readable: bool, writable: bool)

  // The module variables of one tab.
  datatype Tab = Tab(snapshot: seq<Row>, hydrated: bool, persisted: Option<Cell>, readFailed: bool, writeFailed: bool)

  const FRESH_TAB := Tab([], false, None, false, false)

  function HydrateTab(t: Tab, cell: Cell, io: Io): Tab {
    if t.hydrated then t
    else if io.readable && Parse(cell).Some? then Tab(Parse(cell).value, true, Some(cell), false, t.writeFailed)
    else t.(hydrated := true, readFailed := true)
  }

  function RefreshTab(t: Tab, cell: Cell, io: Io): Tab {
    var t := HydrateTab(t, cell, io);
    if t.writeFailed then t
    else if !io.readable then t.(readFailed := true)
    else if t.persisted == Some(cell) && !t.readFailed then t
    else if Parse(cell).Some? then t.(persisted := Some(cell), snapshot := Parse(cell).value, readFailed := false)
    else t.(readFailed := true)
  }

  function EmitTab(t: Tab, cell: Cell, next: seq<Row>, io: Io): (Tab, Cell) {
    var kept := Retain(next);
    if t.readFailed then (t.(snapshot := kept), cell)
    else if io.writable then (t.(snapshot := kept, persisted := Some(Stored(kept)), writeFailed := false), Stored(kept))
    else (t.(snapshot := kept, writeFailed := true), cell)
  }

  function Exec(t: Tab, cell: Cell, op: Op, io: Io): (Tab, Cell)
    requires WellFormed(op)
  {
    var t := RefreshTab(t, cell, io);
    var current := Find(t.snapshot, op.id);
    match op
    case Record(id, p) =>
      EmitTab(t, cell, [Merge(if current.Some? then current.value else Blank(id, p), p)] + Without(t.snapshot, id), io)
    case Update(id, p) =>
      if current.None? then (t, cell)
      else EmitTab(t, cell, [Merge(current.value, Guard(current.value, p))] + Without(t.snapshot, id), io)
    case Dismiss(id) =>
      if current.Some? && Manual(current.value) then (t, cell) else EmitTab(t, cell, Without(t.snapshot, id), io)
  }

  class LocalStorage {
    var cell: Cell

    constructor ()
      ensures cell == Empty
    {
      cell := Empty;
    }
  }

  lemma {:induction false} KeepNext(rows: seq<Row>, i: nat, terminal: nat)
    requires i < |rows|
    ensures Keep(rows[i..], terminal)
         == if InFlight(rows[i]) then [rows[i]] + Keep(rows[i + 1..], terminal)
            else if terminal < MAX_TERMINAL_ACTIVITIES then [rows[i]] + Keep(rows[i + 1..], terminal + 1)
            else Keep(rows[i + 1..], terminal + 1)
  {
    assert rows[i..][1..] == rows[i + 1..];
  }

  method RetainActivities(rows: seq<Row>) returns (kept: seq<Row>)
    ensures kept == Retain(rows)
  {
    kept := [];
    var terminalCount := 0;
    for i := 0 to |rows|
      invariant kept + Keep(rows[i..], terminalCount) == Retain(rows)
    {
      KeepNext(rows, i, terminalCount);
      assert forall rest :: kept + ([rows[i]] + rest) == (kept + [rows[i]]) + rest;
      if InFlight(rows[i]) {
        kept := kept + [rows[i]];
      } else {
        if terminalCount < MAX_TERMINAL_ACTIVITIES {
          kept := kept + [rows[i]];
        }
        terminalCount := terminalCount + 1;
      }
    }
  }

  class ActivityTab {
    const storage: LocalStorage
    var snapshot: seq<Row>
    var hydrated: bool
    var persistedValue: Option<Cell>
    var storageReadFailed: bool
    var storageWriteFailed: bool

    function Value(): Tab
      reads this
    {
      Tab(snapshot, hydrated, persistedValue, storageReadFailed, storageWriteFailed)
    }

    constructor (storage: LocalStorage)
      ensures this.storage == storage && Value() == FRESH_TAB
    {
      this.storage := storage;
      snapshot, hydrated, persistedValue := [], false, None;
      storageReadFailed, storageWriteFailed := false, false;
    }

    method Hydrate(io: Io)
      modifies this
      ensures Value() == HydrateTab(old(Value()), storage.cell, io)
    {
      if hydrated { return; }
      hydrated := true;
      var parsed := if io.readable then Parse(storage.cell) else None;
      if parsed.None? {
        storageReadFailed := true;
      } else {
        snapshot, persistedValue, storageReadFailed := parsed.value, Some(storage.cell), false;
      }
    }

    method Refresh(io: Io)
      modifies this
      ensures Value() == RefreshTab(old(Value()), storage.cell, io)
    {
      Hydrate(io);
      if storageWriteFailed { return; }
      if !io.readable {
        storageReadFailed := true;
        return;
      }
      if persistedValue == Some(storage.cell) && !storageReadFailed { return; }
      var parsed := Parse(storage.cell);
      if parsed.None? {
        storageReadFailed := true;
      } else {
        persistedValue, snapshot, storageReadFailed := Some(storage.cell), parsed.value, false;
      }
    }

    method Emit(next: seq<Row>, io: Io)
      modifies this, storage
      ensures (Value(), storage.cell) == EmitTab(old(Value()), old(storage.cell), next, io)
    {
      snapshot := RetainActivities(next);
      if !storageReadFailed {
        if io.writable {
          storage.cell := Stored(snapshot);
          persistedValue := Some(Stored(snapshot));
          storageWriteFailed := false;
        } else {
          storageWriteFailed := true;
        }
      }
    }

    // A row is written in front of the others.
    method EmitFirst(next: Row, io: Io)
      modifies this, storage
      ensures (Value(), storage.cell)
           == EmitTab(old(Value()), old(storage.cell), [next] + Without(old(snapshot), next.id), io)
      ensures Find(snapshot, next.id) == Some(next)
    {
      Emit([next] + Without(snapshot, next.id), io);
      assert ([next] + Without(old(snapshot), next.id))[0] == next;
    }

    // `requireTransactionActivityPersistence`: true when it does not throw.
    method RequirePersistence(io: Io) returns (ok: bool)
      modifies this
      ensures Value() == RefreshTab(old(Value()), storage.cell, io)
      ensures ok <==> !Value().writeFailed && !Value().readFailed
    {
      Refresh(io);
      ok := !storageWriteFailed && !storageReadFailed;
    }

    method RecordActivity(id: Id, p: Patch, io: Io)
      requires Complete(p)
      modifies this, storage
      ensures (Value(), storage.cell) == Exec(old(Value()), old(storage.cell), Record(id, p), io)
      ensures var before := RefreshTab(old(Value()), old(storage.cell), io).snapshot;
              Effect(Record(id, p), Find(before, id), Find(snapshot, id))
    {
      Refresh(io);
      var current := Find(snapshot, id);
      FindMembers(snapshot, id);
      var next := Merge(if current.Some? then current.value else Blank(id, p), p);
      RecordArrives(current, id, p);
      EmitFirst(next, io);
    }

    method UpdateActivity(id: Id, p: Patch, io: Io)
      modifies this, storage
      ensures (Value(), storage.cell) == Exec(old(Value()), old(storage.cell), Update(id, p), io)
      ensures var before := RefreshTab(old(Value()), old(storage.cell), io).snapshot;
              Effect(Update(id, p), Find(before, id), Find(snapshot, id))
    {
      Refresh(io);
      var current := Find(snapshot, id);
      FindMembers(snapshot, id);
      if current.None? { return; }
      UpdateArrives(current.value, p);
      var guardedPatch := p;
      if Manual(current.value) && p.status == Present(Success) && p.manual != Present(Some(false)) {
        guardedPatch := p.(status := Present(current.value.status));
      }
      var next := Merge(current.value, guardedPatch);
      assert next == Merge(current.value, Guard(current.value, p));
      EmitFirst(next, io);
    }

    method DismissActivity(id: Id, io: Io)
      modifies this, storage
      ensures (Value(), storage.cell) == Exec(old(Value()), old(storage.cell), Dismiss(id), io)
      ensures var before := RefreshTab(old(Value()), old(storage.cell), io).snapshot;
              Effect(Dismiss(id), Find(before, id), Find(snapshot, id))
    {
      Refresh(io);
      var current := Find(snapshot, id);
      if current.Some? && Manual(current.value) { return; }
      var rest := Without(snapshot, id);
      MembersKept(snapshot, id, 0);
      MembersKept(rest, id, 0);
      FindMembers(Retain(rest), id);
      Emit(rest, io);
    }
  }

  // ---------------------------------------------------------------- the cap

  // Completed history: a success or a failure that nobody has to verify by hand.
  predicate Settled(r: Row) { r.status in {Success, Failed} && r.manual != Some(true) }

  function Terminals(rows: seq<Row>): seq<Row> {
    if rows == [] then [] else (if Settled(rows[0]) then [rows[0]] else []) + Terminals(rows[1..])
  }

  function Unresolved(rows: seq<Row>): seq<Row> {
    if rows == [] then [] else (if Settled(rows[0]) then [] else [rows[0]]) + Unresolved(rows[1..])
  }

  lemma SettledOrInFlight(r: Row)
    ensures Settled(r) <==> !InFlight(r)
  {
  }

  lemma {:induction false} Parts(rows: seq<Row>)
    requires rows != []
    ensures Terminals(rows) == if InFlight(rows[0]) then Terminals(rows[1..]) else [rows[0]] + Terminals(rows[1..])
    ensures Unresolved(rows) == if InFlight(rows[0]) then [rows[0]] + Unresolved(rows[1..]) else Unresolved(rows[1..])
  {
    SettledOrInFlight(rows[0]);
  }

  // How many terminal rows the cap still takes.
  function Room(terminal: nat): nat { Max(0, MAX_TERMINAL_ACTIVITIES - terminal) }

  function Capped(rows: seq<Row>, room: nat): seq<Row> { rows[..Min(|rows|, room)] }

  lemma CappedCons(r: Row, rest: seq<Row>, room: nat)
    requires room > 0
    ensures Capped([r] + rest, room) == [r] + Capped(rest, room - 1)
  {
  }

  lemma {:induction false} KeepExact(rows: seq<Row>, terminal: nat)
    ensures Unresolved(Keep(rows, terminal)) == Unresolved(rows)
    ensures Terminals(Keep(rows, terminal)) == Capped(Terminals(rows), Room(terminal))
  {
    if rows != [] {
      var r, rest := rows[0], rows[1..];
      var next := if InFlight(r) then terminal else terminal + 1;
      KeepExact(rest, next);
      Parts(rows);
      Parts([r] + Keep(rest, next));
      assert ([r] + Keep(rest, next))[1..] == Keep(rest, next);
      if !InFlight(r) && terminal < MAX_TERMINAL_ACTIVITIES {
        CappedCons(r, Terminals(rest), Room(terminal));
      }
    }
  }

  /** The cap drops no unresolved row and keeps exactly the first 20 terminal rows, in order. */
  lemma {:induction false} RetainExact(rows: seq<Row>)
    ensures Unresolved(Retain(rows)) == Unresolved(rows)
    ensures Terminals(Retain(rows)) == Terminals(rows)[..Min(|Terminals(rows)|, 20)]
  {
    KeepExact(rows, 0);
  }

  lemma {:induction false} KeepIdempotent(rows: seq<Row>, terminal: nat)
    ensures Keep(Keep(rows, terminal), terminal) == Keep(rows, terminal)
    ensures terminal >= MAX_TERMINAL_ACTIVITIES ==> forall t: nat ::
        Keep(Keep(rows, terminal), t) == Keep(rows, terminal)
  {
    if rows != [] {
      var rest := rows[1..];
      if InFlight(rows[0]) || terminal < MAX_TERMINAL_ACTIVITIES {
        var next := if InFlight(rows[0]) then terminal else terminal + 1;
        KeepIdempotent(rest, next);
        assert Keep(rows, terminal)[1..] == Keep(rest, next);
      } else {
        KeepIdempotent(rest, terminal + 1);
      }
    }
  }

  lemma RetainIdempotent(rows: seq<Row>)
    ensures Retain(Retain(rows)) == Retain(rows)
  {
    KeepIdempotent(rows, 0);
  }

  /** Whatever a tab reads is within the cap already. */
  lemma ReadIsCapped(cell: Cell)
    ensures Parse(cell).Some? ==> Retain(Parse(cell).value) == Parse(cell).value
  {
    if cell.Stored? {
      RetainIdempotent(cell.rows);
    }
  }

  // ---------------------------------------------------------------- one row under one operation

  predicate UniqueIds(rows: seq<Row>) {
    forall i, j | 0 <= i < j < |rows| :: rows[i].id != rows[j].id
  }

  lemma UniqueCons(r: Row, rows: seq<Row>)
    requires UniqueIds(rows) && forall other | other in rows :: other.id != r.id
    ensures UniqueIds([r] + rows)
  {
  }

  lemma {:induction false} MembersKept(rows: seq<Row>, id: Id, terminal: nat)
    ensures forall r | r in Keep(rows, terminal) :: r in rows
    ensures forall r | r in Without(rows, id) :: r in rows && r.id != id
    ensures UniqueIds(rows) ==> UniqueIds(Keep(rows, terminal)) && UniqueIds(Without(rows, id))
  {
    if rows != [] {
      var rest := rows[1..];
      MembersKept(rest, id, terminal);
      MembersKept(rest, id, terminal + 1);
      if UniqueIds(rows) {
        assert forall r | r in rest :: r.id != rows[0].id;
        UniqueCons(rows[0], Without(rest, id));
        UniqueCons(rows[0], Keep(rest, terminal));
        UniqueCons(rows[0], Keep(rest, terminal + 1));
      }
    }
  }

  lemma {:induction false} FindMembers(rows: seq<Row>, id: Id)
    ensures Find(rows, id).None? <==> forall r | r in rows :: r.id != id
    ensures Find(rows, id).Some? ==> Find(rows, id).value in rows && Find(rows, id).value.id == id
  {
    if rows != [] {
      FindMembers(rows[1..], id);
    }
  }

  lemma {:induction false} FindWithout(rows: seq<Row>, gone: Id, id: Id)
    ensures Find(Without(rows, gone), id) == if id == gone then None else Find(rows, id)
  {
    if rows != [] {
      FindWithout(rows[1..], gone, id);
      assert rows[0].id != gone ==> Without(rows, gone)[1..] == Without(rows[1..], gone);
    }
  }

  lemma {:induction false} FindKeep(rows: seq<Row>, terminal: nat, id: Id)
    requires UniqueIds(rows)
    ensures Find(rows, id).None? ==> Find(Keep(rows, terminal), id).None?
    ensures Find(rows, id).Some? && InFlight(Find(rows, id).value) ==> Find(Keep(rows, terminal), id) == Find(rows, id)
    ensures Find(Keep(rows, terminal), id).Some? ==> Find(Keep(rows, terminal), id) == Find(rows, id)
  {
    if rows != [] {
      var rest := rows[1..];
      var next := if InFlight(rows[0]) then terminal else terminal + 1;
      FindKeep(rest, next, id);
      if InFlight(rows[0]) || terminal < MAX_TERMINAL_ACTIVITIES {
        assert Keep(rows, terminal)[1..] == Keep(rest, next);
      } else if rows[0].id == id {
        FindMembers(rest, id);
        assert Find(rest, id).None?;
      }
    }
  }

  // The row an operation leaves under its own id.
  function Touched(rows: seq<Row>, op: Op): Option<Row>
    requires WellFormed(op)
  {
    var current := Find(rows, op.id);
    match op
    case Record(id, p) => Some(Merge(if current.Some? then current.value else Blank(id, p), p))
    case Update(_, p) => if current.None? then None else Some(Merge(current.value, Guard(current.value, p)))
    case Dismiss(_) => if current.Some? && Manual(current.value) then current else None
  }

  // The row of an id through the cap, when the rows before it are those of `rows`.
  ghost predicate KeptAs(kept: seq<Row>, rows: seq<Row>, id: Id) {
    && (Find(rows, id).Some? && InFlight(Find(rows, id).value) ==> Find(kept, id) == Find(rows, id))
    && (Find(kept, id).Some? ==> Find(kept, id) == Find(rows, id))
  }

  // A row is written in front of the others.
  lemma {:induction false} WrittenInFront(x: Row, rest: seq<Row>, other: Id)
    requires UniqueIds(rest) && forall r | r in rest :: r.id != x.id
    ensures UniqueIds(Retain([x] + rest)) && Find(Retain([x] + rest), x.id) == Some(x)
    ensures other != x.id ==> KeptAs(Retain([x] + rest), rest, other)
  {
    var next := [x] + rest;
    assert next[1..] == rest;
    UniqueCons(x, rest);
    MembersKept(next, x.id, 0);
    assert Keep(next, 0)[0] == x;
    FindKeep(next, 0, other);
  }

  lemma {:induction false} Dropped(rows: seq<Row>, id: Id, other: Id)
    requires UniqueIds(rows)
    ensures var rest := Without(rows, id);
            && UniqueIds(rest) && (forall r | r in rest :: r.id != id)
            && UniqueIds(Retain(rest)) && Find(Retain(rest), id).None?
            && (other != id ==> Find(rest, other) == Find(rows, other) && KeptAs(Retain(rest), rows, other))
  {
    var rest := Without(rows, id);
    FindWithout(rows, id, id);
    FindWithout(rows, id, other);
    MembersKept(rows, id, 0);
    MembersKept(rest, id, 0);
    FindKeep(rest, 0, id);
    FindKeep(rest, 0, other);
  }

  /**
   What one operation writes under its own id, property by property: everything its patch gives
   arrives, everything else stays, and the only exception is the status of a row that is held
   for manual verification.
   */
  lemma {:induction false} EveryPropertyArrives(rows: seq<Row>, op: Op)
    requires WellFormed(op) && UniqueIds(rows)
    ensures Effect(op, Find(rows, op.id), Find(Apply(rows, op), op.id))
  {
    var was := Find(rows, op.id);
    OneOperation(rows, op, op.id);
    FindMembers(rows, op.id);
    if op.Record? {
      RecordArrives(was, op.id, op.patch);
    } else if op.Update? && was.Some? {
      UpdateArrives(was.value, op.patch);
    }
  }

  /**
   What one operation does to every row: its own id gets `Touched`, every unresolved row of
   another id stays as it was, and a terminal row of another id stays or is dropped by the cap.
   */
  lemma {:induction false} OneOperation(rows: seq<Row>, op: Op, other: Id)
    requires WellFormed(op) && UniqueIds(rows)
    ensures UniqueIds(Apply(rows, op))
    ensures Find(Apply(rows, op), op.id) == Touched(rows, op)
    ensures other != op.id && Find(rows, other).Some? && InFlight(Find(rows, other).value)
            ==> Find(Apply(rows, op), other) == Find(rows, other)
    ensures other != op.id && Find(Apply(rows, op), other).Some? ==> Find(Apply(rows, op), other) == Find(rows, other)
  {
    Dropped(rows, op.id, other);
    FindMembers(rows, op.id);
    if !op.Dismiss? && Touched(rows, op).Some? {
      WrittenInFront(Touched(rows, op).value, Without(rows, op.id), other);
    }
  }

  // ---------------------------------------------------------------- whole histories

  lemma {:induction false} FoldUnique(rows: seq<Row>, ops: seq<Op>)
    requires forall op | op in ops :: WellFormed(op)
    requires UniqueIds(rows)
    ensures UniqueIds(Fold(rows, ops))
  {
    if ops != [] {
      FoldUnique(rows, ops[..|ops| - 1]);
      OneOperation(Fold(rows, ops[..|ops| - 1]), ops[|ops| - 1], ops[|ops| - 1].id);
    }
  }

  /** An unresolved row survives any history which does not name its id. */
  lemma {:induction false} UnresolvedSurvives(rows: seq<Row>, ops: seq<Op>, id: Id)
    requires forall op | op in ops :: WellFormed(op) && op.id != id
    requires UniqueIds(rows) && Find(rows, id).Some? && InFlight(Find(rows, id).value)
    ensures Find(Fold(rows, ops), id) == Find(rows, id)
  {
    if ops != [] {
      var init, op := ops[..|ops| - 1], ops[|ops| - 1];
      UnresolvedSurvives(rows, init, id);
      FoldUnique(rows, init);
      OneOperation(Fold(rows, init), op, id);
    }
  }

  // An operation which leaves the quarantine of `id` alone: it is not a fresh record of that
  // id, and no patch of it assigns anything but `true` to the flag.
  predicate LeavesQuarantine(op: Op, id: Id) {
    op.id == id ==> !op.Record? && (op.Update? ==> op.patch.manual == Absent || op.patch.manual == Present(Some(true)))
  }

  /**
   A quarantined row that is not a success stays quarantined, present and not a success,
   whatever else happens, until an operation explicitly assigns its flag.
   */
  lemma {:induction false} QuarantineHolds(rows: seq<Row>, ops: seq<Op>, id: Id)
    requires forall op | op in ops :: WellFormed(op) && LeavesQuarantine(op, id)
    requires UniqueIds(rows) && Find(rows, id).Some?
    requires Manual(Find(rows, id).value) && Find(rows, id).value.status != Success
    ensures var last := Find(Fold(rows, ops), id);
            last.Some? && Manual(last.value) && last.value.status != Success
  {
    if ops != [] {
      var init, op := ops[..|ops| - 1], ops[|ops| - 1];
      QuarantineHolds(rows, init, id);
      FoldUnique(rows, init);
      OneOperation(Fold(rows, init), op, id);
    }
  }

  // 1 + the index of the last record or update of `id`, 0 when there is none.
  function LastTouch(ops: seq<Op>, id: Id): nat {
    if ops == [] then 0
    else if ops[|ops| - 1].id == id && !ops[|ops| - 1].Dismiss? then |ops|
    else LastTouch(ops[..|ops| - 1], id)
  }

  predicate NewestFirst(rows: seq<Row>, ops: seq<Op>) {
    rows == [] || ((forall r | r in rows[1..] :: LastTouch(ops, r.id) < LastTouch(ops, rows[0].id))
      && NewestFirst(rows[1..], ops))
  }

  lemma {:induction false} NewestFirstKept(rows: seq<Row>, ops: seq<Op>, terminal: nat)
    requires NewestFirst(rows, ops)
    ensures NewestFirst(Keep(rows, terminal), ops)
  {
    if rows != [] {
      var rest, next := rows[1..], if InFlight(rows[0]) then terminal else terminal + 1;
      NewestFirstKept(rest, ops, next);
      MembersKept(rest, rows[0].id, next);
      if InFlight(rows[0]) || terminal < MAX_TERMINAL_ACTIVITIES {
        assert Keep(rows, terminal)[1..] == Keep(rest, next);
      }
    }
  }

  lemma {:induction false} NewestFirstWithout(rows: seq<Row>, ops: seq<Op>, id: Id)
    requires NewestFirst(rows, ops)
    ensures NewestFirst(Without(rows, id), ops)
  {
    if rows != [] {
      NewestFirstWithout(rows[1..], ops, id);
      MembersKept(rows[1..], id, 0);
      assert rows[0].id != id ==> Without(rows, id)[1..] == Without(rows[1..], id);
    }
  }

  lemma {:induction false} NewestFirstElsewhere(rows: seq<Row>, ops: seq<Op>, op: Op)
    requires NewestFirst(rows, ops)
    requires op.Dismiss? || forall r | r in rows :: r.id != op.id
    ensures NewestFirst(rows, ops + [op])
  {
    assert (ops + [op])[..|ops|] == ops;
    if rows != [] {
      NewestFirstElsewhere(rows[1..], ops, op);
    }
  }

  lemma {:induction false} LastTouchBounded(ops: seq<Op>, id: Id)
    ensures LastTouch(ops, id) <= |ops|
  {
    if ops != [] {
      LastTouchBounded(ops[..|ops| - 1], id);
    }
  }

  /**
   The list is ordered by the time each row was last recorded or updated, newest first; with
   `RetainExact` the terminal rows that survive an operation are the 20 touched last.
   */
  lemma {:induction false} RecencyOrder(ops: seq<Op>)
    requires forall op | op in ops :: WellFormed(op)
    ensures NewestFirst(Fold([], ops), ops)
    ensures UniqueIds(Fold([], ops))
  {
    FoldUnique([], ops);
    if ops != [] {
      var init, op := ops[..|ops| - 1], ops[|ops| - 1];
      RecencyOrder(init);
      var rows := Fold([], init);
      var rest := Without(rows, op.id);
      FindMembers(rows, op.id);
      MembersKept(rows, op.id, 0);
      NewestFirstWithout(rows, init, op.id);
      NewestFirstElsewhere(rest, init, op);
      assert init + [op] == ops;
      var touched := Touched(rows, op);
      if op.Dismiss? {
        NewestFirstElsewhere(rows, init, op);
        NewestFirstKept(rest, ops, 0);
      } else if touched.None? {
        NewestFirstElsewhere(rows, init, op);
      } else {
        var next := [touched.value] + rest;
        assert next[1..] == rest;
        forall r | r in rest ensures LastTouch(ops, r.id) < |ops| {
          LastTouchBounded(init, r.id);
        }
        assert LastTouch(ops, op.id) == |ops|;
        assert touched.value.id == op.id;
        assert NewestFirst(next, ops);
        NewestFirstKept(next, ops, 0);
      }
    }
  }

  // ---------------------------------------------------------------- many tabs, one storage

  datatype TabEvent = Do(tab: nat, op: Op) | Reload(tab: nat)

  datatype Browser = Browser(cell: Cell, tabs: map<nat, Tab>)

  const WORKS := Io(true, true)

  function TabOf(b: Browser, i: nat): Tab { if i in b.tabs then b.tabs[i] else FRESH_TAB }

  predicate WellFormedEvent(e: TabEvent) { e.Do? ==> WellFormed(e.op) }

  function StepBrowser(b: Browser, e: TabEvent): Browser
    requires WellFormedEvent(e)
  {
    match e
    case Do(i, op) => var (t, c) := Exec(TabOf(b, i), b.cell, op, WORKS); Browser(c, b.tabs[i := t])
    case Reload(i) => b.(tabs := b.tabs[i := FRESH_TAB])
  }

  function Play(b: Browser, es: seq<TabEvent>): Browser
    requires forall e | e in es :: WellFormedEvent(e)
  {
    if es == [] then b else StepBrowser(Play(b, es[..|es| - 1]), es[|es| - 1])
  }

  function Ops(es: seq<TabEvent>): (ops: seq<Op>)
    requires forall e | e in es :: WellFormedEvent(e)
    ensures forall op | op in ops :: WellFormed(op)
  {
    if es == [] then []
    else
      var init, e := Ops(es[..|es| - 1]), es[|es| - 1];
      assert e in es;
      if e.Do? then
        assert WellFormedEvent(e);
        assert forall op | op in init + [e.op] :: op in init || op == e.op;
        init + [e.op]
      else init
  }

  // A tab that never lost a write, and whose cached copy is what it last read or wrote.
  predicate Clean(t: Tab) {
    && !t.writeFailed
    && (t.hydrated && !t.readFailed ==> t.persisted.Some? && Parse(t.persisted.value) == Some(t.snapshot))
    && (!t.hydrated ==> t.persisted.None? && !t.readFailed)
  }

  lemma WorkingOperation(t: Tab, cell: Cell, op: Op)
    requires WellFormed(op) && Clean(t) && Parse(cell).Some?
    ensures var (t', cell') := Exec(t, cell, op, WORKS);
            Clean(t') && Parse(cell') == Some(Apply(Parse(cell).value, op)) && t'.snapshot == Parse(cell').value
  {
    var t1 := RefreshTab(t, cell, WORKS);
    assert t1.snapshot == Parse(cell).value && Clean(t1) && !t1.readFailed && t1.hydrated;
    var touched := Touched(t1.snapshot, op);
    RetainIdempotent(Without(t1.snapshot, op.id));
    if touched.Some? {
      RetainIdempotent([touched.value] + Without(t1.snapshot, op.id));
    }
  }

  /**
   No lost updates: with working storage, any interleaving of tabs, each with its own stale
   cache, and any reloads, leaves exactly the operations applied one after another.
   */
  lemma {:induction false} NoLostUpdates(b: Browser, es: seq<TabEvent>)
    requires forall e | e in es :: WellFormedEvent(e)
    requires Parse(b.cell).Some? && forall i | i in b.tabs :: Clean(b.tabs[i])
    ensures var b' := Play(b, es);
            && Parse(b'.cell) == Some(Fold(Parse(b.cell).value, Ops(es)))
            && forall i | i in b'.tabs :: Clean(b'.tabs[i])
  {
    if es != [] {
      var init, e := es[..|es| - 1], es[|es| - 1];
      assert e in es;
      NoLostUpdates(b, init);
      OneMoreEvent(Play(b, init), e);
      if e.Do? {
        assert (Ops(init) + [e.op])[..|Ops(init)|] == Ops(init);
      }
    }
  }

  lemma OneMoreEvent(b: Browser, e: TabEvent)
    requires WellFormedEvent(e) && Parse(b.cell).Some? && forall i | i in b.tabs :: Clean(b.tabs[i])
    ensures var b' := StepBrowser(b, e);
            && Parse(b'.cell) == Some(if e.Do? then Apply(Parse(b.cell).value, e.op) else Parse(b.cell).value)
            && forall i | i in b'.tabs :: Clean(b'.tabs[i])
  {
    if e.Do? {
      WorkingOperation(TabOf(b, e.tab), b.cell, e.op);
    }
  }

  // The operation has something to write over these rows.
  predicate Writes(rows: seq<Row>, op: Op) {
    match op
    case Record(_, _) => true
    case Update(id, _) => Find(rows, id).Some?
    case Dismiss(id) => !(Find(rows, id).Some? && Manual(Find(rows, id).value))
  }

  // A tab that lost a write stores what it makes of its own copy, whatever is stored by now.
  lemma LostWriteOperation(t: Tab, cell: Cell, op: Op, io: Io)
    requires WellFormed(op) && t.hydrated && t.writeFailed && Parse(cell).Some?
    ensures var cell' := Exec(t, cell, op, io).1;
            Parse(cell')
            == if !t.readFailed && io.writable && Writes(t.snapshot, op) then Some(Apply(t.snapshot, op))
               else Parse(cell)
  {
    var touched := Touched(t.snapshot, op);
    RetainIdempotent(Without(t.snapshot, op.id));
    if touched.Some? {
      RetainIdempotent([touched.value] + Without(t.snapshot, op.id));
    }
  }

  // A tab that did not lose a write changes nothing, or applies the operation to what is stored.
  lemma CleanOperation(t: Tab, cell: Cell, op: Op, io: Io)
    requires WellFormed(op) && Clean(t) && Parse(cell).Some?
    ensures var cell' := Exec(t, cell, op, io).1;
            Parse(cell') == Parse(cell) || Parse(cell') == Some(Apply(Parse(cell).value, op))
  {
    if io == WORKS {
      WorkingOperation(t, cell, op);
    }
  }

  /**
   When an update of a sibling tab is lost, exactly, whatever storage does: an unresolved row of
   another id survives an operation of this tab unless the tab lost a write before
   (`storageWriteFailed`) and no read since, now writes again, and its copy of that very row is
   missing or stale.
   */
  lemma {:induction false} LostUpdateExactly(t: Tab, cell: Cell, op: Op, io: Io, other: Id)
    requires WellFormed(op) && other != op.id && Parse(cell).Some? && UniqueIds(Parse(cell).value)
    requires t.hydrated && UniqueIds(t.snapshot) && (t.writeFailed || Clean(t))
    requires Find(Parse(cell).value, other).Some? && InFlight(Find(Parse(cell).value, other).value)
    ensures var before, after := Parse(cell), Parse(Exec(t, cell, op, io).1);
            && after.Some?
            && (Find(after.value, other) == Find(before.value, other) <==>
                  || !t.writeFailed || t.readFailed || !io.writable || !Writes(t.snapshot, op)
                  || Find(t.snapshot, other) == Find(before.value, other))
  {
    if t.writeFailed {
      LostWriteOperation(t, cell, op, io);
      OneOperation(t.snapshot, op, other);
    } else {
      CleanOperation(t, cell, op, io);
      OneOperation(Parse(cell).value, op, other);
    }
  }

  /** Storage a tab cannot read or parse is never overwritten by it, whatever the operation. */
  lemma UnreadableStorageKept(t: Tab, cell: Cell, op: Op, io: Io)
    requires WellFormed(op) && !t.writeFailed
    requires t.persisted.Some? ==> Parse(t.persisted.value).Some?
    requires !io.readable || Parse(cell).None?
    ensures Exec(t, cell, op, io).1 == cell && Exec(t, cell, op, io).0.readFailed
  {
  }
}
