/**
 The direct route of a saved batch (web/src/hooks/useMultichainBatch.ts:163-198, 419-508): the
 calls go to the wallet one after another, and the journal is written before every request and
 after every answer.
 */
module DirectRunner {
  import opened Prelude
  import opened Identities

  /*
   `log` is the history outside the tab's memory: what was persisted, what the wallet was asked
   and answered, which receipts were verified. A tab that dies leaves a prefix of what it would
   have logged, and the journal is whatever that prefix saved last. `Campaign` runs a batch any
   number of times, each run cut anywhere, against any wallet, chain and storage.
   */

  datatype CallState = Ready | Submitting | Submitted | Proposed | Success
  datatype Call = Call(state: CallState, hash: Option<Hash>)

  // The saved batch; `done` is its status "success".
  datatype Entry = Entry(calls: seq<Call>, done: bool)

  datatype LogEvent =
    | Saved(entry: Entry)
    | Removed
    | Asked(index: nat)
    | Declined(index: nat)
    | Returned(index: nat, hash: Hash)
    | Verified(index: nat, hash: Hash, execution: Hash)

  // ---------------------------------------------------------------- what a history must be

  function Persisted(log: seq<LogEvent>): Option<Entry> {
    if log == [] then None
    else match log[|log| - 1]
         case Saved(entry) => Some(entry)
         case Removed => None
         case _ => Persisted(log[..|log| - 1])
  }

  // The wallet was asked for call `i` and has not declined since.
  predicate Outstanding(log: seq<LogEvent>, i: nat) {
    log != [] && (log[|log| - 1] == Asked(i) || (log[|log| - 1] != Declined(i) && Outstanding(log[..|log| - 1], i)))
  }

  // A receipt was verified for a request of call `i`, with the hash of what was executed.
  ghost predicate ConfirmedAs(log: seq<LogEvent>, i: nat, execution: Hash) {
    exists h: Hash :: Returned(i, h) in log && Verified(i, h, execution) in log
  }

  ghost predicate Confirmed(log: seq<LogEvent>, i: nat) { exists x: Hash :: ConfirmedAs(log, i, x) }

  // A call as it is kept in memory or in the journal agrees with the history.
  ghost predicate CallOk(log: seq<LogEvent>, i: nat, c: Call) {
    && (c.state.Ready? ==> !Outstanding(log, i))
    && (c.hash.Some? <==> c.state.Submitted? || c.state.Proposed? || c.state.Success?)
    && (c.state.Submitted? || c.state.Proposed? ==> Returned(i, c.hash.value) in log)
    && (c.state.Success? ==> ConfirmedAs(log, i, c.hash.value))
  }

  ghost predicate CallsOk(log: seq<LogEvent>, calls: seq<Call>, n: nat) {
    |calls| == n && forall i: nat | i < n :: CallOk(log, i, calls[i])
  }

  ghost predicate Coherent(log: seq<LogEvent>, n: nat) {
    match Persisted(log)
    case Some(entry) =>
      CallsOk(log, entry.calls, n) && (entry.done ==> forall i | 0 <= i < n :: entry.calls[i].state.Success?)
    case None =>
      forall i: nat | i < n :: !Outstanding(log, i)
  }

  // What must hold when `e` happens after `log`.
  ghost predicate Allowed(log: seq<LogEvent>, e: LogEvent, n: nat) {
    match e
    case Asked(i) =>
      && i < n && !Outstanding(log, i)
      && Persisted(log).Some? && |Persisted(log).value.calls| == n
      && Persisted(log).value.calls[i] == Call(Submitting, None)
      && forall j: nat | j < i :: Confirmed(log, j)
    case Verified(i, h, _) => Returned(i, h) in log
    case Removed => forall i: nat | i < n :: !Outstanding(log, i)
    case _ => true
  }

  // The history up to some moment is coherent; the event of some moment is allowed.
  ghost predicate CoherentAt(log: seq<LogEvent>, t: nat, n: nat)
    requires t <= |log|
  {
    Coherent(log[..t], n)
  }

  ghost predicate AllowedAt(log: seq<LogEvent>, t: nat, n: nat)
    requires t < |log|
  {
    Allowed(log[..t], log[t], n)
  }

  /** A safe history: coherent wherever it is cut, and every request allowed when it is made. */
  ghost predicate Safe(log: seq<LogEvent>, n: nat) {
    && (forall t: nat | t <= |log| :: CoherentAt(log, t, n))
    && (forall t: nat | t < |log| :: AllowedAt(log, t, n))
  }

  lemma CoherentNow(log: seq<LogEvent>, n: nat)
    requires Safe(log, n)
    ensures Coherent(log, n)
  {
    assert CoherentAt(log, |log|, n) && log[..|log|] == log;
  }

  lemma SafeAppend(log: seq<LogEvent>, e: LogEvent, n: nat)
    requires Safe(log, n) && Allowed(log, e, n) && Coherent(log + [e], n)
    ensures Safe(log + [e], n)
  {
    var next := log + [e];
    assert log[..|log|] == log && next[..|next|] == next;
    forall t: nat | t <= |next| ensures CoherentAt(next, t, n) {
      if t <= |log| { assert next[..t] == log[..t] && CoherentAt(log, t, n); }
    }
    forall t: nat | t < |next| ensures AllowedAt(next, t, n) {
      assert next[..t] == log[..t];
      if t < |log| { assert AllowedAt(log, t, n); }
    }
  }

  lemma SafePrefix(log: seq<LogEvent>, cut: nat, n: nat)
    requires Safe(log, n) && cut <= |log|
    ensures Safe(log[..cut], n)
  {
    var begin := log[..cut];
    forall t: nat | t <= cut ensures CoherentAt(begin, t, n) {
      assert begin[..t] == log[..t] && CoherentAt(log, t, n);
    }
    forall t: nat | t < cut ensures AllowedAt(begin, t, n) {
      assert begin[..t] == log[..t] && AllowedAt(log, t, n);
    }
  }

  lemma {:induction false} LogAppend(log: seq<LogEvent>, e: LogEvent)
    ensures (log + [e])[..|log|] == log && (log + [e])[|log|] == e
    ensures Persisted(log + [e])
        == match e { case Saved(entry) => Some(entry) case Removed => None case _ => Persisted(log) }
    ensures forall i: nat :: Outstanding(log + [e], i) == (e == Asked(i) || (e != Declined(i) && Outstanding(log, i)))
  {
    assert (log + [e])[..|log|] == log;
  }

  predicate FromWallet(e: LogEvent) { e.Asked? || e.Declined? || e.Returned? }

  // What went to the wallet and came back.
  function Wallet(log: seq<LogEvent>): seq<LogEvent> {
    if log == [] then []
    else Wallet(log[..|log| - 1]) + if FromWallet(log[|log| - 1]) then [log[|log| - 1]] else []
  }

  lemma {:induction false} WalletAppend(log: seq<LogEvent>, e: LogEvent)
    ensures Wallet(log + [e]) == Wallet(log) + if FromWallet(e) then [e] else []
  {
    assert (log + [e])[..|log|] == log;
  }

  // Whatever happens, other than asking for a call that is ready, calls stay in agreement.
  lemma CallsAppend(log: seq<LogEvent>, e: LogEvent, calls: seq<Call>, n: nat)
    requires CallsOk(log, calls, n)
    requires e.Asked? && e.index < n ==> !calls[e.index].state.Ready?
    ensures CallsOk(log + [e], calls, n)
  {
    LogAppend(log, e);
    forall i: nat | i < n ensures CallOk(log + [e], i, calls[i]) {
      assert CallOk(log, i, calls[i]);
    }
  }

  lemma CallsSet(log: seq<LogEvent>, calls: seq<Call>, n: nat, i: nat, c: Call)
    requires CallsOk(log, calls, n) && i < n && CallOk(log, i, c)
    ensures CallsOk(log, calls[i := c], n)
  {
    var next := calls[i := c];
    forall j: nat | j < n ensures CallOk(log, j, next[j]) {
      assert j != i ==> next[j] == calls[j];
    }
  }

  lemma ConfirmedCall(log: seq<LogEvent>, i: nat, h: Hash, x: Hash)
    requires Returned(i, h) in log
    ensures CallOk(log + [Verified(i, h, x)], i, Call(Success, Some(x)))
  {
    var next := log + [Verified(i, h, x)];
    assert next[|log|] == Verified(i, h, x);
    assert Returned(i, h) in next && Verified(i, h, x) in next;
  }

  // ---------------------------------------------------------------- what a safe history gives

  function Count(log: seq<LogEvent>, e: LogEvent): nat {
    if log == [] then 0 else Count(log[..|log| - 1], e) + if log[|log| - 1] == e then 1 else 0
  }

  /** The wallet is asked for each frozen call at most once, apart from its explicit 4001 answers. */
  lemma {:induction false} AskedAtMostOnce(log: seq<LogEvent>, n: nat, i: nat)
    requires Safe(log, n)
    ensures Count(log, Asked(i)) <= Count(log, Declined(i)) + if Outstanding(log, i) then 1 else 0
  {
    if log != [] {
      var init := log[..|log| - 1];
      SafePrefix(log, |log| - 1, n);
      AskedAtMostOnce(init, n, i);
      assert AllowedAt(log, |log| - 1, n);
    }
  }

  /** Call `j > i` is never put to the wallet before the exact receipt of call `i` was verified. */
  lemma AskedInOrder(log: seq<LogEvent>, n: nat, t: nat, i: nat)
    requires Safe(log, n) && t < |log| && log[t].Asked? && i < log[t].index
    ensures Confirmed(log[..t], i)
  {
    assert AllowedAt(log, t, n);
  }

  /** Every request was announced: the journal that is persisted when it is made says so. */
  lemma AskedAfterSave(log: seq<LogEvent>, n: nat, t: nat)
    requires Safe(log, n) && t < |log| && log[t].Asked?
    ensures var saved := Persisted(log[..t]);
            && saved.Some? && log[t].index < |saved.value.calls|
            && saved.value.calls[log[t].index] == Call(Submitting, None)
  {
    assert AllowedAt(log, t, n);
  }

  /** A batch leaves the journal only when no request of it is outstanding. */
  lemma {:induction false} RemovedOnlyUnsubmitted(log: seq<LogEvent>, n: nat, t: nat, i: nat)
    requires Safe(log, n) && t < |log| && log[t] == Removed && i < n
    ensures !Outstanding(log[..t], i)
    ensures Count(log[..t], Asked(i)) <= Count(log[..t], Declined(i))
  {
    assert AllowedAt(log, t, n);
    SafePrefix(log, t, n);
    AskedAtMostOnce(log[..t], n, i);
  }

  /** The journal says success only when every call has a verified receipt of its own request. */
  lemma DoneIsVerified(log: seq<LogEvent>, n: nat, t: nat, i: nat)
    requires Safe(log, n) && t <= |log| && Persisted(log[..t]).Some? && Persisted(log[..t]).value.done && i < n
    ensures var calls := Persisted(log[..t]).value.calls;
            && |calls| == n && calls[i].hash.Some?
            && ConfirmedAs(log[..t], i, calls[i].hash.value)
  {
    assert CoherentAt(log, t, n);
    assert CallOk(log[..t], i, Persisted(log[..t]).value.calls[i]);
  }

  // ---------------------------------------------------------------- explicit rejections

  // A thrown value and the one it wraps, by address: chains of causes may be cyclic.
  datatype Thrown = Thrown(code: Option<int>, cause: Option<nat>)

  ghost predicate Linked(heap: seq<Thrown>, cause: Option<nat>) {
    && (cause.Some? ==> cause.value < |heap|)
    && forall x | x in heap :: x.cause.Some? ==> x.cause.value < |heap|
  }

  ghost function Wrapped(heap: seq<Thrown>, cause: Option<nat>, depth: nat): (at: Option<nat>)
    requires Linked(heap, cause)
    ensures at.Some? ==> at.value < |heap|
  {
    if depth == 0 then cause
    else
      var outer := Wrapped(heap, cause, depth - 1);
      if outer.None? then None else heap[outer.value].cause
  }

  // Once the chain comes back to an earlier depth it only repeats itself.
  lemma {:induction false} CycleRepeats(heap: seq<Thrown>, cause: Option<nat>, j: nat, k: nat, m: nat)
    requires Linked(heap, cause) && j < k <= m && Wrapped(heap, cause, j) == Wrapped(heap, cause, k)
    ensures Wrapped(heap, cause, m) == Wrapped(heap, cause, m - (k - j))
    decreases m
  {
    if m > k {
      CycleRepeats(heap, cause, j, k, m - 1);
    }
  }

  lemma {:induction false} CycleSeen(heap: seq<Thrown>, cause: Option<nat>, j: nat, k: nat, m: nat)
    requires Linked(heap, cause) && j < k && Wrapped(heap, cause, j) == Wrapped(heap, cause, k)
    ensures exists i: nat :: i < k && Wrapped(heap, cause, i) == Wrapped(heap, cause, m)
    decreases m
  {
    if m >= k {
      CycleRepeats(heap, cause, j, k, m);
      CycleSeen(heap, cause, j, k, m - (k - j));
    } else {
      assert m < k && Wrapped(heap, cause, m) == Wrapped(heap, cause, m);
    }
  }

  lemma {:induction false} NothingBelow(heap: seq<Thrown>, cause: Option<nat>, k: nat, m: nat)
    requires Linked(heap, cause) && k <= m && Wrapped(heap, cause, k).None?
    ensures Wrapped(heap, cause, m).None?
    decreases m
  {
    if m > k {
      NothingBelow(heap, cause, k, m - 1);
    }
  }

  ghost predicate Rejects(heap: seq<Thrown>, cause: Option<nat>, depth: nat)
    requires Linked(heap, cause)
  {
    Wrapped(heap, cause, depth).Some? && heap[Wrapped(heap, cause, depth).value].code == Some(4001)
  }

  // The walk may stop where the chain ends or where it comes back to itself.
  lemma {:induction false} NoneRejects(heap: seq<Thrown>, thrown: Option<nat>, k: nat, m: nat)
    requires Linked(heap, thrown) && forall j: nat | j < k :: !Rejects(heap, thrown, j)
    requires Wrapped(heap, thrown, k).None? || exists j: nat ::
        j < k && Wrapped(heap, thrown, j) == Wrapped(heap, thrown, k)
    ensures !Rejects(heap, thrown, m)
  {
    if Wrapped(heap, thrown, k).None? {
      if m >= k {
        NothingBelow(heap, thrown, k, m);
      }
    } else {
      var j: nat :| j < k && Wrapped(heap, thrown, j) == Wrapped(heap, thrown, k);
      CycleSeen(heap, thrown, j, k, m);
      var i: nat :| i < k && Wrapped(heap, thrown, i) == Wrapped(heap, thrown, m);
      assert !Rejects(heap, thrown, i);
    }
  }

  // The walk went along `path` without a 4001 and is at `cause`.
  ghost predicate Walked(heap: seq<Thrown>, thrown: Option<nat>, path: seq<nat>, cause: Option<nat>)
    requires Linked(heap, thrown)
  {
    && cause == Wrapped(heap, thrown, |path|)
    && forall j: nat | j < |path| :: Wrapped(heap, thrown, j) == Some(path[j]) && !Rejects(heap, thrown, j)
  }

  lemma {:induction false} WalkOn(heap: seq<Thrown>, thrown: Option<nat>, path: seq<nat>, cause: Option<nat>)
    requires Linked(heap, thrown) && Walked(heap, thrown, path, cause) && cause.Some?
    ensures cause.value < |heap|
    ensures heap[cause.value].code == Some(4001) <==> Rejects(heap, thrown, |path|)
    ensures heap[cause.value].code != Some(4001) ==>
              Walked(heap, thrown, path + [cause.value], heap[cause.value].cause)
  {
  }

  lemma OneMoreBelow(seen: set<nat>, x: nat, n: nat)
    requires x !in seen && x < n && forall y | y in seen :: y < n
    ensures |seen + {x}| == |seen| + 1 <= n
  {
    SubsetBounded(seen + {x}, n);
  }

  /** `explicitRejection`: it ends on cyclic chains too and finds a 4001 at whatever depth it is. */
  method ExplicitRejection(heap: seq<Thrown>, thrown: Option<nat>) returns (rejected: bool)
    requires Linked(heap, thrown)
    ensures rejected <==> exists depth: nat :: Rejects(heap, thrown, depth)
  {
    var seen: set<nat> := {};
    var cause := thrown;
    ghost var path: seq<nat> := [];
    while cause.Some? && cause.value !in seen
      invariant Walked(heap, thrown, path, cause)
      invariant forall x | x in seen :: x < |heap| && x in path
      decreases |heap| - |seen|
    {
      WalkOn(heap, thrown, path, cause);
      if heap[cause.value].code == Some(4001) { return true; }
      OneMoreBelow(seen, cause.value, |heap|);
      seen := seen + {cause.value};
      path := path + [cause.value];
      cause := heap[cause.value].cause;
    }
    NothingFound(heap, thrown, path, cause);
    rejected := false;
  }

  // The walk ended: the chain did, or it came back to a place on the way.
  lemma {:induction false} NothingFound(heap: seq<Thrown>, thrown: Option<nat>, path: seq<nat>, cause: Option<nat>)
    requires Linked(heap, thrown) && Walked(heap, thrown, path, cause) && (cause.Some? ==> cause.value in path)
    ensures forall depth: nat :: !Rejects(heap, thrown, depth)
  {
    var k := |path|;
    assert Wrapped(heap, thrown, k).None?
           || exists j: nat :: j < k && Wrapped(heap, thrown, j) == Wrapped(heap, thrown, k) by {
      if cause.Some? {
        var j: nat :| j < k && path[j] == cause.value;
        assert Wrapped(heap, thrown, j) == Some(path[j]);
      }
    }
    forall m: nat ensures !Rejects(heap, thrown, m) {
      NoneRejects(heap, thrown, |path|, m);
    }
  }

  // ---------------------------------------------------------------- the code

  datatype Outcome = Hashed(hash: Hash) | Rejected4001 | Threw
  datatype Check = Passed | CheckRejected | CheckThrew

  // What a run meets, for each call: whether its scope is free, the checks before the request,
  // the wallet's answer, whether it went through a Safe, and the hash of what was executed once
  // its receipt verifies; and whether the scopes and the journal let a batch be removed.
  datatype World = World(
    scopeFree: nat -> bool,
    checks: nat -> Check,
    answers: nat -> Outcome,
    viaSafe: nat -> bool,
    receipts: nat -> Option<Hash>,
    removable: bool)

  // What becomes of a call that is ready: it is held back, its mark cannot be saved, the wallet
  // refuses it with a 4001, the answer is uncertain, or the wallet gives a hash.
  datatype Fate = Held | Unannounced | Refused | Uncertain | Given(hash: Hash)

  // Its fate when its mark can be saved.
  function FateOf(w: World, i: nat): Fate {
    if !w.scopeFree(i) || !w.checks(i).Passed? then Held else Reply(w.answers(i))
  }

  function Reply(answer: Outcome): Fate {
    match answer
    case Hashed(hash) => Given(hash)
    case Rejected4001 => Refused
    case Threw => Uncertain
  }

  predicate WasAsked(fate: Fate) { fate.Refused? || fate.Uncertain? || fate.Given? }

  // The traffic with the wallet about one call.
  function Traffic(i: nat, fate: Fate): seq<LogEvent> {
    match fate
    case Refused => [Asked(i), Declined(i)]
    case Uncertain => [Asked(i)]
    case Given(hash) => [Asked(i), Returned(i, hash)]
    case _ => []
  }

  // The call afterwards: ready again after a 4001, still marked after an uncertain answer, and
  // otherwise as far as the hash and its receipt take it.
  function CallAfter(w: World, i: nat, fate: Fate): Call {
    match fate
    case Held => Call(Ready, None)
    case Refused => Call(Ready, None)
    case Unannounced => Call(Submitting, None)
    case Uncertain => Call(Submitting, None)
    case Given(hash) =>
      Call(if w.viaSafe(i) then Proposed else if w.receipts(i).Some? then Success else Submitted, Some(hash))
  }

  // A run gets past a call that is verified, or has a hash whose receipt verifies, or is ready
  // and is answered with such a hash at once.
  predicate Passes(w: World, i: nat, c: Call) {
    || c.state.Success?
    || (c.hash.Some? && w.receipts(i).Some?)
    || (c.state.Ready? && FateOf(w, i).Given? && !w.viaSafe(i) && w.receipts(i).Some?)
  }

  // Only a call that is ready goes to the wallet.
  function About(i: nat, was: Call, fate: Fate): seq<LogEvent> {
    if was.state.Ready? then Traffic(i, fate) else []
  }

  // The traffic about the first `k` calls of a run that got past them.
  function Sent(w: World, was: seq<Call>, k: nat): seq<LogEvent>
    requires k <= |was|
  {
    if k == 0 then [] else Sent(w, was, k - 1) + About(k - 1, was[k - 1], FateOf(w, k - 1))
  }

  // The traffic of a whole run that stopped at some call, or at none.
  function RunTraffic(w: World, was: seq<Call>, stop: nat, fate: Fate): seq<LogEvent>
    requires stop <= |was|
  {
    Sent(w, was, stop) + if stop < |was| then About(stop, was[stop], fate) else []
  }

  lemma {:induction false} SentLast(w: World, was: seq<Call>, i: nat, fate: Fate, start: seq<LogEvent>)
    requires i < |was|
    ensures start + Sent(w, was, i) + About(i, was[i], fate) == start + RunTraffic(w, was, i, fate)
  {
  }

  lemma SentNext(w: World, was: seq<Call>, i: nat, fate: Fate, start: seq<LogEvent>)
    requires i < |was| && (was[i].state.Ready? ==> fate == FateOf(w, i))
    ensures start + Sent(w, was, i) + About(i, was[i], fate) == start + Sent(w, was, i + 1)
  {
  }

  // A run got past the first `k` calls, and left those from `m` on as they were.
  ghost predicate Through(w: World, was: seq<Call>, now: seq<Call>, k: nat, m: nat) {
    && k <= m && k <= |was| == |now|
    && (forall j: nat | j < k :: Passes(w, j, was[j]) && now[j].state.Success?)
    && forall j: nat | m <= j < |was| :: now[j] == was[j]
  }

  lemma ThroughLast(w: World, was: seq<Call>, now: seq<Call>, i: nat, c: Call)
    requires Through(w, was, now, i, i) && i < |was|
    ensures now[i] == was[i] && Through(w, was, now[i := c], i, i + 1)
  {
  }

  lemma ThroughNext(w: World, was: seq<Call>, now: seq<Call>, i: nat, c: Call)
    requires Through(w, was, now, i, i) && i < |was| && Passes(w, i, was[i]) && c.state.Success?
    ensures Through(w, was, now[i := c], i + 1, i + 1)
  {
  }

  // A run stopped at call `i` although no save failed: the call was not passable, one that was
  // ready is what its fate makes of it, and any other is as it was.
  predicate Halted(w: World, i: nat, was: Call, now: Call, fate: Fate) {
    && !Passes(w, i, was)
    && if was.state.Ready? then fate == FateOf(w, i) && now == CallAfter(w, i, fate) else now == was
  }

  // The journal leaves call `i` as the first that a run asks for; a batch that is not there any
  // more starts anew.
  ghost predicate NextUp(journal: Option<Entry>, n: nat, i: nat) {
    && i < n
    && match journal
       case None => i == 0
       case Some(entry) =>
         && !entry.done && |entry.calls| == n && entry.calls[i] == Call(Ready, None)
         && forall j | 0 <= j < i :: entry.calls[j].state.Success?
  }

  lemma {:induction false} NothingSent(w: World, was: seq<Call>, k: nat)
    requires k <= |was| && forall j | 0 <= j < k :: was[j].state.Success?
    ensures Sent(w, was, k) == []
  {
    if k > 0 {
      NothingSent(w, was, k - 1);
    }
  }

  // A run that gets past call `i` starts its traffic with it, when all before are verified.
  lemma {:induction false} SentFirst(w: World, was: seq<Call>, i: nat, k: nat)
    requires i < k <= |was| && forall j | 0 <= j < i :: was[j].state.Success?
    requires was[i].state.Ready? && FateOf(w, i).Given?
    ensures [Asked(i)] <= Sent(w, was, k)
  {
    if k == i + 1 {
      NothingSent(w, was, i);
    } else {
      SentFirst(w, was, i, k - 1);
    }
  }

  // A run that stopped at a refusal and was saved leaves the refused call next.
  lemma RefusedIsNext(w: World, was: seq<Call>, calls: seq<Call>, stop: nat)
    requires Through(w, was, calls, stop, stop + 1) && stop < |calls| && calls[stop] == Call(Ready, None)
    ensures NextUp(Some(Entry(calls, false)), |calls|, stop)
    ensures (forall i | 0 <= i < |calls| :: calls[i].state.Ready?) ==> NextUp(None, |calls|, stop)
  {
    if stop > 0 {
      assert calls[0].state.Success?;
    }
  }

  // The traffic of a whole run that comes to call `i` first.
  lemma {:induction false} RunAsksFirst(w: World, was: seq<Call>, i: nat, stop: nat, fate: Fate)
    requires i <= stop <= |was| && i < |was| && forall j | 0 <= j < i :: was[j].state.Success?
    requires was[i] == Call(Ready, None)
    requires stop == i ==> fate == FateOf(w, i)
    requires forall j: nat | j < stop :: Passes(w, j, was[j])
    ensures var sent := RunTraffic(w, was, stop, fate);
            if FateOf(w, i).Held? then sent == [] else [Asked(i)] <= sent
  {
    if stop == i {
      NothingSent(w, was, i);
    } else {
      SentFirst(w, was, i, stop);
    }
  }

  lemma UpdateTwice(calls: seq<Call>, i: nat, c: Call, d: Call)
    requires i < |calls|
    ensures calls[i := c][i := d] == calls[i := d] && calls[i := c][i] == c
  {
  }

  class DirectBatch {
    const n: nat
    var calls: seq<Call>
    var journal: Option<Entry>
    var log: seq<LogEvent>
    // How many saves failed so far.
    ghost var failures: nat

    // What is true between any two steps of any run.
    ghost predicate Valid()
      reads this
    {
      Safe(log, n) && journal == Persisted(log)
    }

    // The calls in memory agree with the history as well.
    ghost predicate Running()
      reads this
    {
      Valid() && CallsOk(log, calls, n)
    }

    constructor (n: nat)
      ensures Valid() && this.n == n && log == [] && failures == 0
    {
      this.n, calls, journal, log := n, [], None, [];
      failures := 0;
    }

    // `saveMultichainBatch`: storage may refuse the write, and it may take the write and then
    // fail to read it back; then the save fails although the journal changed.
    method Save(done: bool) returns (ok: bool)
      requires Running() && (done ==> forall i | 0 <= i < n :: calls[i].state.Success?)
      modifies this`journal, this`log, this`failures
      ensures Running()
      ensures log == old(log) || log == old(log) + [Saved(Entry(calls, done))]
      ensures ok ==> log == old(log) + [Saved(Entry(calls, done))] && journal == Some(Entry(calls, done))
      ensures failures == old(failures) + if ok then 0 else 1
      ensures forall i: nat :: Outstanding(log, i) == old(Outstanding(log, i))
      ensures Wallet(log) == old(Wallet(log))
    {
      var stored: bool := *;
      ok := *;
      ok := ok && stored;
      failures := failures + if ok then 0 else 1;
      if stored {
        var e := Saved(Entry(calls, done));
        LogAppend(log, e);
        WalletAppend(log, e);
        CallsAppend(log, e, calls, n);
        SafeAppend(log, e, n);
        journal, log := Some(Entry(calls, done)), log + [e];
      }
    }

    // One call changes its state and the batch is saved.
    method Keep(i: nat, c: Call) returns (ok: bool)
      requires Running() && i < n && CallOk(log, i, c)
      modifies this
      ensures Running() && old(log) <= log && calls == old(calls)[i := c]
      ensures ok ==> journal == Some(Entry(calls, false))
      ensures failures == old(failures) + if ok then 0 else 1
      ensures forall i: nat :: Outstanding(log, i) == old(Outstanding(log, i))
      ensures Wallet(log) == old(Wallet(log))
    {
      CallsSet(log, calls, n, i, c);
      calls := calls[i := c];
      ok := Save(false);
    }

    // The first save of a reviewed batch, every call ready.
    method Create() returns (ok: bool)
      requires Valid() && journal.None?
      modifies this
      ensures Running() && old(log) <= log
      ensures |calls| == n && forall i | 0 <= i < n :: calls[i] == Call(Ready, None)
      ensures ok ==> journal == Some(Entry(calls, false))
      ensures failures == old(failures) + if ok then 0 else 1
      ensures Wallet(log) == old(Wallet(log))
    {
      calls := seq(n, _ => Call(Ready, None));
      CoherentNow(log, n);
      ok := Save(false);
    }

    // `findPendingBatch`: what a new run finds in the journal.
    method Resume() returns (found: bool)
      requires Valid()
      modifies this`calls
      ensures found ==> Running() && journal.Some? && calls == journal.value.calls
      ensures found <==> journal.Some? && !journal.value.done
    {
      CoherentNow(log, n);
      found := journal.Some? && !journal.value.done;
      if found {
        calls := journal.value.calls;
      }
    }

    method Log(e: LogEvent)
      requires Running() && !e.Saved? && !e.Removed? && Allowed(log, e, n)
      requires e.Asked? && e.index < n ==> !calls[e.index].state.Ready?
      modifies this`log
      ensures Running() && log == old(log) + [e]
      ensures forall i: nat :: Outstanding(log, i) == (e == Asked(i) || (e != Declined(i) && old(Outstanding(log, i))))
      ensures Wallet(log) == old(Wallet(log)) + if FromWallet(e) then [e] else []
    {
      LogAppend(log, e);
      WalletAppend(log, e);
      CallsAppend(log, e, calls, n);
      CoherentNow(log, n);
      if journal.Some? {
        CallsAppend(log, e, journal.value.calls, n);
      }
      SafeAppend(log, e, n);
      log := log + [e];
    }

    // Checks the wallet hook makes before it saves: simulation, account, chain, duplicates.
    // Then `beforeSubmission` marks and saves the call, and only then the wallet is asked.
    method WriteContract(w: World, i: nat) returns (r: Outcome, ghost fate: Fate)
      requires Running() && i < n && calls[i].state.Ready? && w.scopeFree(i)
      requires forall j: nat | j < i :: calls[j].state.Success?
      modifies this
      ensures Running() && old(log) <= log && old(failures) <= failures && calls == old(calls)[i := calls[i]]
      ensures if fate.Unannounced? then !FateOf(w, i).Held? && failures > old(failures)
              else fate == FateOf(w, i) && failures == old(failures)
      ensures Wallet(log) == old(Wallet(log)) + Traffic(i, fate)
      ensures calls[i] == if fate.Held? then Call(Ready, None) else Call(Submitting, None)
      ensures WasAsked(fate) ==> journal == Some(Entry(calls, false)) && fate == Reply(r)
      ensures !WasAsked(fate) ==> !r.Hashed? && (fate.Unannounced? ==> r.Threw?)
      ensures r.Rejected4001? ==> !Outstanding(log, i)
      ensures r.Hashed? ==> Returned(i, r.hash) in log
    {
      assert CallOk(log, i, calls[i]);
      if !w.checks(i).Passed? {
        return if w.checks(i).CheckRejected? then Rejected4001 else Threw, Held;
      }
      var saved := Keep(i, Call(Submitting, None));
      if !saved { return Threw, Unannounced; }
      r := AskWallet(w, i);
      fate := Reply(r);
    }

    method AskWallet(w: World, i: nat) returns (r: Outcome)
      requires Running() && i < n && calls[i] == Call(Submitting, None) && journal == Some(Entry(calls, false))
      requires !Outstanding(log, i) && forall j: nat | j < i :: calls[j].state.Success?
      modifies this`log
      ensures Running() && old(log) <= log
      ensures r == w.answers(i) && Wallet(log) == old(Wallet(log)) + Traffic(i, Reply(r))
      ensures r.Rejected4001? ==> !Outstanding(log, i)
      ensures r.Hashed? ==> Returned(i, r.hash) in log
    {
      PredecessorsVerified(i);
      Log(Asked(i));
      r := w.answers(i);
      match r {
        case Rejected4001 => Log(Declined(i));
        case Threw =>
        case Hashed(hash) => Log(Returned(i, hash));
      }
    }

    lemma PredecessorsVerified(i: nat)
      requires Running() && i <= n && forall j: nat | j < i :: calls[j].state.Success?
      ensures forall j: nat | j < i :: Confirmed(log, j)
    {
      forall j: nat | j < i ensures Confirmed(log, j) {
        assert CallOk(log, j, calls[j]);
      }
    }

    // `verifyDirectResult`, then the save of the result: the hash of a Safe proposal becomes
    // the hash of its execution, any other stays.
    method Confirm(w: World, i: nat) returns (ok: bool)
      requires Running() && i < n && (calls[i].state.Submitted? || calls[i].state.Proposed?) && calls[i].hash.Some?
      modifies this
      ensures Running() && old(log) <= log && old(failures) <= failures && Wallet(log) == old(Wallet(log))
      ensures w.receipts(i).None? ==> calls == old(calls)
      ensures w.receipts(i).Some? ==>
                var final := if old(calls[i]).state.Proposed? then w.receipts(i) else old(calls[i]).hash;
                calls == old(calls)[i := Call(Success, final)]
      ensures w.receipts(i).None? ==> failures == old(failures) && journal == old(journal)
      ensures ok ==> w.receipts(i).Some? && journal == Some(Entry(calls, false)) && failures == old(failures)
      ensures w.receipts(i).Some? && !ok ==> failures > old(failures)
    {
      assert CallOk(log, i, calls[i]);
      var execution := w.receipts(i);
      if execution.None? { return false; }
      var final := if calls[i].state.Proposed? then execution.value else calls[i].hash.value;
      Witness(i, final);
      ok := Keep(i, Call(Success, Some(final)));
    }

    // The receipt is verified, and with it the hash of what was executed.
    method Witness(i: nat, final: Hash)
      requires Running() && i < n && calls[i].hash.Some? && Returned(i, calls[i].hash.value) in log
      modifies this`log
      ensures Running() && log == old(log) + [Verified(i, calls[i].hash.value, final)]
      ensures CallOk(log, i, Call(Success, Some(final))) && Wallet(log) == old(Wallet(log))
    {
      ConfirmedCall(log, i, calls[i].hash.value, final);
      Log(Verified(i, calls[i].hash.value, final));
    }

    // One call that was not sent yet: the scope check, the request, and what becomes of it. The
    // call is what its fate makes of it, and the journal says so unless a save failed.
    method SendCall(w: World, i: nat) returns (ok: bool, ghost fate: Fate)
      requires Running() && i < n && calls[i].state.Ready?
      requires forall j: nat | j < i :: calls[j].state.Success?
      modifies this
      ensures Running() && old(log) <= log && old(failures) <= failures && calls == old(calls)[i := calls[i]]
      ensures if fate.Unannounced? then !FateOf(w, i).Held? && failures > old(failures) else fate == FateOf(w, i)
      ensures Wallet(log) == old(Wallet(log)) + Traffic(i, fate)
      ensures || calls[i] == CallAfter(w, i, fate)
              || (fate.Given? && failures > old(failures) && calls[i] == Call(Submitted, Some(fate.hash)))
      ensures WasAsked(fate) && failures == old(failures) ==> journal == Some(Entry(calls, false))
      ensures ok ==> calls[i].state.Success? && failures == old(failures)
      ensures !ok && failures == old(failures) ==> !calls[i].state.Success?
    {
      assert CallOk(log, i, calls[i]);
      if !w.scopeFree(i) { return false, Held; }
      var r, f := WriteContract(w, i);
      fate := f;
      match r {
        case Threw =>
          ok := false;
        case Rejected4001 =>
          var saved := Keep(i, Call(Ready, None));
          ok := false;
        case Hashed(hash) =>
          ok := KeepHash(w, i, hash);
      }
    }

    // A returned hash is kept, and verified at once when it is not a Safe proposal.
    method KeepHash(w: World, i: nat, hash: Hash) returns (ok: bool)
      requires Running() && i < n && Returned(i, hash) in log
      modifies this
      ensures Running() && old(log) <= log && old(failures) <= failures
      ensures Wallet(log) == old(Wallet(log)) && calls == old(calls)[i := calls[i]]
      ensures || calls[i] == CallAfter(w, i, Given(hash))
              || (failures > old(failures) && calls[i] == Call(Submitted, Some(hash)))
      ensures failures == old(failures) ==> journal == Some(Entry(calls, false))
      ensures ok ==> calls[i].state.Success? && failures == old(failures)
      ensures !ok && failures == old(failures) ==> !calls[i].state.Success?
    {
      var c := Call(if w.viaSafe(i) then Proposed else Submitted, Some(hash));
      ok := Keep(i, c);
      assert calls[i] == c;
      if !ok || w.viaSafe(i) { return false; }
      ok := Confirm(w, i);
      UpdateTwice(old(calls), i, c, calls[i]);
    }

    // One turn of the loop over the calls.
    method Turn(w: World, i: nat) returns (ok: bool, ghost fate: Fate)
      requires Running() && i < n && forall j: nat | j < i :: calls[j].state.Success?
      modifies this
      ensures Running() && old(log) <= log && old(failures) <= failures && calls == old(calls)[i := calls[i]]
      ensures Wallet(log) == old(Wallet(log)) + About(i, old(calls[i]), fate)
      ensures ok ==> calls[i].state.Success? && failures == old(failures) && Passes(w, i, old(calls[i]))
      ensures ok && old(calls[i]).state.Ready? ==> fate == FateOf(w, i)
      ensures fate.Refused? ==> !ok && old(calls[i]).state.Ready?
      ensures !ok && failures == old(failures) ==> Halted(w, i, old(calls[i]), calls[i], fate)
      ensures !ok && failures == old(failures) && old(calls[i]).state.Ready? && WasAsked(fate) ==>
                journal == Some(Entry(calls, false))
    {
      ok, fate := true, Held;
      assert CallOk(log, i, calls[i]);
      if !calls[i].state.Success? {
        ok := false;
        if calls[i].hash.Some? {
          ok := Confirm(w, i);
        } else if calls[i].state.Ready? {
          ok, fate := SendCall(w, i);
        }
      }
    }

    // The loop: it stops at the first call that it does not get past.
    method Turns(w: World) returns (stop: nat, ghost fate: Fate)
      requires Running()
      modifies this
      ensures Running() && old(log) <= log && old(failures) <= failures && stop <= n
      ensures stop == n ==> failures == old(failures)
      ensures fate.Refused? ==> stop < n && old(calls)[stop].state.Ready?
      ensures Through(w, old(calls), calls, stop, stop + 1)
      ensures Wallet(log) == old(Wallet(log)) + RunTraffic(w, old(calls), stop, fate)
      ensures stop < n && failures == old(failures) ==> Halted(w, stop, old(calls)[stop], calls[stop], fate)
      ensures stop < n && failures == old(failures) && old(calls)[stop].state.Ready? && WasAsked(fate) ==>
                journal == Some(Entry(calls, false))
    {
      fate := Held;
      for i := 0 to n
        invariant Running() && old(log) <= log && failures == old(failures)
        invariant Through(w, old(calls), calls, i, i) && fate.Held?
        invariant Wallet(log) == old(Wallet(log)) + Sent(w, old(calls), i)
      {
        ghost var before := calls;
        var ok, f := Turn(w, i);
        ThroughLast(w, old(calls), before, i, calls[i]);
        if !ok {
          SentLast(w, old(calls), i, f, old(Wallet(log)));
          return i, f;
        }
        ThroughNext(w, old(calls), before, i, calls[i]);
        SentNext(w, old(calls), i, f, old(Wallet(log)));
      }
      stop := n;
    }

    // The direct branch of `runBatch`; true when every call is confirmed.
    method RunDirect(w: World) returns (success: bool, ghost stop: nat, ghost fate: Fate)
      requires Running()
      modifies this
      ensures Running() && old(log) <= log && old(failures) <= failures && stop <= n
      ensures success ==> journal == Some(Entry(calls, true))
      ensures success <==> stop == n && failures == old(failures)
      ensures fate.Refused? ==> stop < n && old(calls)[stop].state.Ready?
      ensures Through(w, old(calls), calls, stop, stop + 1)
      ensures Wallet(log) == old(Wallet(log)) + RunTraffic(w, old(calls), stop, fate)
      ensures stop < n && failures == old(failures) ==> Halted(w, stop, old(calls)[stop], calls[stop], fate)
      ensures stop < n && failures == old(failures) && old(calls)[stop].state.Ready? && WasAsked(fate) ==>
                journal == Some(Entry(calls, false))
    {
      var first, f := Turns(w);
      stop, fate, success := first, f, false;
      if first == n {
        success := Save(true);
      }
    }

    // After a failure: a batch none of whose calls was submitted may leave the journal.
    method Discard(w: World)
      requires Running()
      modifies this`journal, this`log
      ensures Running() && old(log) <= log && Wallet(log) == old(Wallet(log))
      ensures journal == if (forall i | 0 <= i < n :: calls[i].state.Ready?) && w.removable then None else old(journal)
    {
      if (forall i | 0 <= i < n :: calls[i].state.Ready?) && w.removable {
        forall i: nat | i < n ensures !Outstanding(log, i) {
          assert CallOk(log, i, calls[i]);
        }
        LogAppend(log, Removed);
        WalletAppend(log, Removed);
        CallsAppend(log, Removed, calls, n);
        SafeAppend(log, Removed, n);
        journal, log := None, log + [Removed];
      }
    }

    // What a run starts from: the saved batch, or a new one.
    method Begin() returns (found: bool, ready: bool)
      requires Valid()
      modifies this
      ensures Valid() && old(log) <= log && old(failures) <= failures
      ensures Wallet(log) == old(Wallet(log)) && (ready ==> found)
      ensures found ==> Running()
      ensures forall i: nat | NextUp(old(journal), n, i) && failures == old(failures) ::
                && ready && calls[i] == Call(Ready, None)
                && forall j | 0 <= j < i :: calls[j].state.Success?
    {
      found := Resume();
      ready := found;
      if !found && journal.None? {
        ready := Create();
        found := true;
      }
    }

    // The run itself, and the discard after a failure.
    method Attempt(w: World, ready: bool) returns (ghost stop: nat, ghost fate: Fate)
      requires Running()
      modifies this
      ensures Running() && old(log) <= log && old(failures) <= failures
      ensures ready ==> stop <= n && Through(w, old(calls), calls, stop, stop + 1)
      ensures Wallet(log) == old(Wallet(log)) + if ready then RunTraffic(w, old(calls), stop, fate) else []
      ensures ready && stop < n && failures == old(failures) ==> Halted(w, stop, old(calls)[stop], calls[stop], fate)
      ensures fate.Refused? && failures == old(failures) ==> NextUp(journal, n, stop)
    {
      var success := false;
      stop, fate := n, Held;
      if ready {
        success, stop, fate := RunDirect(w);
        if stop < n && calls[stop] == Call(Ready, None) {
          RefusedIsNext(w, old(calls), calls, stop);
        }
      }
      if !success {
        Discard(w);
      }
    }

    /**
     One run, from the journal back to the journal. The call that the journal leaves next is the
     first that it asks the wallet for, unless it is held back or a save fails; and a call which
     the wallet refuses with a 4001 is left next for the run after it.
     */
    method Run(w: World) returns (ghost stop: nat, ghost fate: Fate)
      requires Valid()
      modifies this
      ensures Valid() && old(log) <= log
      ensures forall i: nat | NextUp(old(journal), n, i) && failures == old(failures) ::
                if FateOf(w, i).Held? then Wallet(log) == old(Wallet(log))
                else old(Wallet(log)) + [Asked(i)] <= Wallet(log)
      ensures fate.Refused? && failures == old(failures) ==> NextUp(journal, n, stop)
    {
      var found, ready := Begin();
      stop, fate := n, Held;
      if found {
        ghost var was := calls;
        stop, fate := Attempt(w, ready);
        forall i: nat | NextUp(old(journal), n, i) && failures == old(failures)
          ensures if FateOf(w, i).Held? then Wallet(log) == old(Wallet(log))
                  else old(Wallet(log)) + [Asked(i)] <= Wallet(log)
        {
          RunAsksFirst(w, was, i, stop, fate);
        }
      }
    }

    // The tab dies and forgets; the history ends somewhere after where it began.
    method Die(cut: nat)
      requires Valid() && cut <= |log|
      modifies this`calls, this`journal, this`log
      ensures Valid() && log == old(log)[..cut]
    {
      SafePrefix(log, cut, n);
      calls, log := [], log[..cut];
      journal := Persisted(log);
    }

    /** Any number of runs of one batch, each cut off anywhere: the whole history is safe. */
    method Campaign(runs: nat, worlds: nat -> World)
      requires Valid() && log == []
      modifies this
      ensures Safe(log, n)
    {
      for k := 0 to runs
        invariant Valid()
      {
        var start := |log|;
        ghost var stop, fate := Run(worlds(k));
        var cut: nat :| start <= cut <= |log|;
        Die(cut);
      }
    }
  }
}
