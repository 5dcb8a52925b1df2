/**
 The journal of saved batches (web/src/lib/multichain-batch.ts:52-104, 144-189): one list in
 localStorage for every account and every tab. Reading an unusable journal throws, and so does
 a write that did not arrive or is not read back.
 */
module BatchJournal {
  import opened Prelude
  import opened Identities
  import opened Runs

  // What the journal operations look at in a batch. Accounts are compared in lower case.
  datatype Batch = Batch(id: Id, account: Account, scope: string, recoveryScopes: seq<Option<string>>, pending: bool)

  // An absent recovery scope and an empty one are the same to the code.
  function Explicit(b: Batch): set<string> {
    set s | s in b.recoveryScopes && s.Some? && s.value != "" :: s.value
  }

  datatype Cell = Empty | Stored(batches: seq<Batch>) | Garbled

  datatype Result<T> = Ok(value: T) | Err

  function Read(cell: Cell): Result<seq<Batch>> {
    match cell
    case Empty => Ok([])
    case Stored(batches) => Ok(batches)
    case Garbled => Err
  }

  function Others(batches: seq<Batch>, id: Id): seq<Batch> {
    if batches == [] then []
    else if batches[0].id == id then Others(batches[1..], id)
    else [batches[0]] + Others(batches[1..], id)
  }

  function Written(cell: Cell, b: Batch): Cell
    requires Read(cell).Ok?
  {
    Stored([b] + Others(Read(cell).value, b.id))
  }

  // The test `createMultichainBatch` makes on each saved batch.
  predicate Overlaps(saved: Batch, account: Account, scope: string, scopes: set<string>) {
    saved.pending && saved.account == account && (saved.scope == scope || !(Explicit(saved) !! scopes))
  }

  predicate IsPending(b: Batch, account: Account, scope: string) {
    b.account == account && b.scope == scope && b.pending
  }

  class Journal {
    var cell: Cell

    constructor ()
      ensures cell == Empty
    {
      cell := Empty;
    }

    // A write that is not read back as it was fails, although it may have arrived.
    method Save(b: Batch, writable: bool, readBack: bool) returns (ok: bool)
      modifies this
      ensures ok <==> Read(old(cell)).Ok? && writable && readBack
      ensures cell == if Read(old(cell)).Ok? && writable then Written(old(cell), b) else old(cell)
    {
      var previous := Read(cell);
      if previous.Err? || !writable { return false; }
      var others: seq<Batch> := [];
      for i := 0 to |previous.value|
        invariant cell == old(cell) && others + Others(previous.value[i..], b.id) == Others(previous.value, b.id)
      {
        assert previous.value[i..][1..] == previous.value[i + 1..];
        if previous.value[i].id != b.id {
          others := others + [previous.value[i]];
        }
      }
      cell := Stored([b] + others);
      ok := readBack;
    }

    method Remove(id: Id, writable: bool) returns (ok: bool)
      modifies this
      ensures ok <==> Read(old(cell)).Ok? && writable
      ensures cell == if ok then Stored(Others(Read(old(cell)).value, id)) else old(cell)
    {
      var previous := Read(cell);
      if previous.Err? || !writable { return false; }
      cell := Stored(Others(previous.value, id));
      ok := true;
    }

    // Creating only reads: the new batch is saved later, once it was reviewed.
    method Create(id: Id, account: Account, scope: string, recoveryScopes: seq<Option<string>>)
      returns (r: Result<Batch>)
      ensures var b := Batch(id, account, scope, recoveryScopes, true);
              && r == (if MayCreate(cell, b) then Ok(b) else Err)
              && (r.Ok? <==>
                    && scope != "" && recoveryScopes != [] && Read(cell).Ok?
                    && forall saved | saved in Read(cell).value :: Separate(saved, b))
    {
      var previous := Read(cell);
      var b := Batch(id, account, scope, recoveryScopes, true);
      if previous.Ok? {
        OverlapsExactly(previous.value, b);
      }
      if scope == "" || recoveryScopes == [] || previous.Err? { return Err; }
      for i := 0 to |previous.value|
        invariant forall k | 0 <= k < i :: !Overlaps(previous.value[k], account, scope, Explicit(b))
      {
        if Overlaps(previous.value[i], account, scope, Explicit(b)) { return Err; }
      }
      r := Ok(b);
    }

    method FindPending(account: Account, scope: string) returns (r: Result<Option<Batch>>)
      ensures r.Err? <==> Read(cell).Err?
      ensures r.Ok? && r.value.Some? ==> r.value.value in Read(cell).value && IsPending(r.value.value, account, scope)
      ensures r.Ok? && r.value.None? ==> forall b | b in Read(cell).value :: !IsPending(b, account, scope)
    {
      var batches := Read(cell);
      if batches.Err? { return Err; }
      for i := 0 to |batches.value|
        invariant forall k | 0 <= k < i :: !IsPending(batches.value[k], account, scope)
      {
        if IsPending(batches.value[i], account, scope) { return Ok(Some(batches.value[i])); }
      }
      r := Ok(None);
    }
  }

  // The test refuses exactly the batches that are not separate from a saved one.
  lemma OverlapsExactly(batches: seq<Batch>, b: Batch)
    requires b.pending
    ensures (forall k | 0 <= k < |batches| :: !Overlaps(batches[k], b.account, b.scope, Explicit(b)))
            <==> forall saved | saved in batches :: Separate(saved, b)
  {
    forall k | 0 <= k < |batches|
      ensures Overlaps(batches[k], b.account, b.scope, Explicit(b)) <==> !Separate(batches[k], b)
    {
      OverlapsWhen(batches[k], b);
    }
    if forall k | 0 <= k < |batches| :: !Overlaps(batches[k], b.account, b.scope, Explicit(b)) {
      forall saved | saved in batches ensures Separate(saved, b) {
        var k :| 0 <= k < |batches| && batches[k] == saved;
      }
    }
  }

  lemma OverlapsWhen(saved: Batch, b: Batch)
    requires b.pending
    ensures Overlaps(saved, b.account, b.scope, Explicit(b)) <==> !Separate(saved, b)
  {
    if s :| s in Explicit(saved) && s in Explicit(b) {
      assert s != "" && Some(s) in saved.recoveryScopes && Some(s) in b.recoveryScopes;
    }
    forall s | s != "" && Some(s) in saved.recoveryScopes && Some(s) in b.recoveryScopes
      ensures s in Explicit(saved) && s in Explicit(b)
    {
    }
  }

  predicate MayCreate(cell: Cell, b: Batch) {
    && b.scope != "" && b.recoveryScopes != [] && Read(cell).Ok?
    && forall k | 0 <= k < |Read(cell).value| :: !Overlaps(Read(cell).value[k], b.account, b.scope, Explicit(b))
  }

  // ---------------------------------------------------------------- every run of every account

  // `held` is the batch in the memory of the run which holds an account's lock.
  datatype State = State(cell: Cell, held: map<Account, Batch>)

  datatype Event =
    | Draft(batch: Batch)
    | Load(batch: Batch)
    | Save(account: Account, finished: bool, writable: bool)
    | Remove(account: Account, writable: bool)
    | Release(account: Account)

  predicate Enabled(s: State, e: Event) {
    match e
    case Draft(b) => b.account !in s.held && b.pending && MayCreate(s.cell, b)
    case Load(b) => b.account !in s.held && Read(s.cell).Ok? && b in Read(s.cell).value && b.pending
    case Save(a, _, _) => a in s.held
    case Remove(a, _) => a in s.held
    case Release(a) => a in s.held
  }

  function Next(s: State, e: Event): State
    requires Enabled(s, e)
  {
    match e
    case Draft(b) => s.(held := s.held[b.account := b])
    case Load(b) => s.(held := s.held[b.account := b])
    case Save(a, finished, writable) =>
      var b := if finished then s.held[a].(pending := false) else s.held[a];
      State(if Read(s.cell).Ok? && writable then Written(s.cell, b) else s.cell, s.held[a := b])
    case Remove(a, writable) =>
      var cell := if Read(s.cell).Ok? && writable then Stored(Others(Read(s.cell).value, s.held[a].id)) else s.cell;
      State(cell, s.held - {a})
    case Release(a) => s.(held := s.held - {a})
  }

  predicate Goes(s: State, e: Event, s': State) { Enabled(s, e) && s' == Next(s, e) }

  // Two pending batches of one account share neither their scope nor an explicit recovery scope.
  ghost predicate Separate(a: Batch, b: Batch) {
    a.pending && b.pending && a.account == b.account ==> a.scope != b.scope && !ShareScope(a, b)
  }

  ghost predicate ShareScope(a: Batch, b: Batch) {
    exists s: string :: s != "" && Some(s) in a.recoveryScopes && Some(s) in b.recoveryScopes
  }

  ghost predicate AllSeparate(batches: seq<Batch>) {
    forall i, j | 0 <= i < j < |batches| :: batches[i].id != batches[j].id && Separate(batches[i], batches[j])
  }

  ghost predicate Inv(s: State) {
    && (forall a | a in s.held :: s.held[a].account == a)
    && (Read(s.cell).Ok? ==>
          && AllSeparate(Read(s.cell).value)
          && forall a, b | a in s.held && b in Read(s.cell).value && b.id != s.held[a].id :: Separate(b, s.held[a]))
  }

  lemma {:induction false} OthersMembers(batches: seq<Batch>, id: Id)
    ensures forall b | b in Others(batches, id) :: b in batches && b.id != id
    ensures AllSeparate(batches) ==> AllSeparate(Others(batches, id))
  {
    if batches != [] {
      OthersMembers(batches[1..], id);
      if AllSeparate(batches) {
        assert AllSeparate(batches[1..]);
      }
    }
  }

  lemma {:induction false} OthersExactly(batches: seq<Batch>, id: Id, x: Batch)
    ensures x in Others(batches, id) <==> x in batches && x.id != id
  {
    if batches != [] {
      OthersExactly(batches[1..], id, x);
      assert x in batches <==> x == batches[0] || x in batches[1..];
    }
  }

  // The batches of a cell, none when it cannot be read.
  function Batches(cell: Cell): seq<Batch> { if Read(cell).Ok? then Read(cell).value else [] }

  /**
   What a run leaves in the journal. A save that arrives stores its batch, which is pending unless it
   is finished, in the place of any other of its id; a removal that arrives leaves none of its id;
   both leave every other batch, and no other step writes.
   */
  lemma StepWrites(s: State, e: Event, x: Batch)
    requires Enabled(s, e)
    ensures var before, after, arrives := Batches(s.cell), Batches(Next(s, e).cell), Read(s.cell).Ok?;
            match e
            case Save(a, finished, writable) =>
              var b := if finished then s.held[a].(pending := false) else s.held[a];
              if arrives && writable then x in after <==> if x.id == b.id then x == b else x in before
              else Next(s, e).cell == s.cell
            case Remove(a, writable) =>
              if arrives && writable then x in after <==> x in before && x.id != s.held[a].id
              else Next(s, e).cell == s.cell
            case _ => Next(s, e).cell == s.cell
  {
    if (e.Save? || e.Remove?) && Read(s.cell).Ok? {
      OthersExactly(Read(s.cell).value, s.held[e.account].id, x);
    }
  }

  lemma WrittenKeeps(s: State, a: Account, b: Batch)
    requires Inv(s) && a in s.held && Read(s.cell).Ok?
    requires b == s.held[a] || b == s.held[a].(pending := false)
    ensures Inv(State(Written(s.cell, b), s.held[a := b]))
  {
    var rest := Others(Read(s.cell).value, b.id);
    OthersMembers(Read(s.cell).value, b.id);
    assert b.recoveryScopes == s.held[a].recoveryScopes;
    forall x | x in rest ensures Separate(b, x) {
      assert Separate(x, s.held[a]);
    }
  }

  lemma DraftSeparate(cell: Cell, b: Batch, x: Batch)
    requires b.pending && MayCreate(cell, b) && x in Read(cell).value
    ensures Separate(x, b)
  {
    var k :| 0 <= k < |Read(cell).value| && Read(cell).value[k] == x;
    assert !Overlaps(Read(cell).value[k], b.account, b.scope, Explicit(b));
    OverlapsWhen(x, b);
  }

  lemma LoadSeparate(batches: seq<Batch>, b: Batch, x: Batch)
    requires AllSeparate(batches) && b in batches && x in batches && x.id != b.id
    ensures Separate(x, b)
  {
    var i :| 0 <= i < |batches| && batches[i] == b;
    var j :| 0 <= j < |batches| && batches[j] == x;
    assert i < j ==> Separate(batches[i], batches[j]);
    assert j < i ==> Separate(batches[j], batches[i]);
  }

  lemma StepKeepsInv(s: State, e: Event, s': State)
    requires Inv(s) && Goes(s, e, s')
    ensures Inv(s')
  {
    match e
    case Draft(b) =>
      forall x | x in Read(s.cell).value ensures Separate(x, b) {
        DraftSeparate(s.cell, b, x);
      }
    case Load(b) =>
      forall x | x in Read(s.cell).value && x.id != b.id ensures Separate(x, b) {
        LoadSeparate(Read(s.cell).value, b, x);
      }
    case Save(a, finished, writable) =>
      if Read(s.cell).Ok? && writable {
        WrittenKeeps(s, a, if finished then s.held[a].(pending := false) else s.held[a]);
      }
    case Remove(a, writable) =>
      if Read(s.cell).Ok? && writable {
        OthersMembers(Read(s.cell).value, s.held[a].id);
      }
    case Release(a) =>
  }

  /**
   In every state of every run of all accounts and tabs, with storage failing whenever it
   likes, two pending batches of one account have different scopes and share no explicit
   recovery scope; so `findPendingBatch` never has a choice.
   */
  lemma PendingBatchesSeparate(ss: seq<State>, es: seq<Event>, k: nat, a: Batch, b: Batch)
    requires Path(Goes, ss, es) && ss[0] == State(Empty, map[]) && k < |ss|
    requires Read(ss[k].cell).Ok? && a in Read(ss[k].cell).value && b in Read(ss[k].cell).value
    requires a.pending && b.pending && a.account == b.account
    ensures a == b || (a.scope != b.scope && !ShareScope(a, b))
  {
    forall s, e, s' | Inv(s) && Goes(s, e, s') ensures Inv(s') {
      StepKeepsInv(s, e, s');
    }
    Along(Goes, Inv, ss, es, 0, k);
    var batches := Read(ss[k].cell).value;
    var i :| 0 <= i < |batches| && batches[i] == a;
    var j :| 0 <= j < |batches| && batches[j] == b;
    if i < j {
      assert Separate(batches[i], batches[j]);
    } else if j < i {
      assert Separate(batches[j], batches[i]);
    }
  }
}
