/**
 Recovering the operator of a revnet from the permission history of its chain
 (`findRevnetOperatorFromPermissionHistory`, web/src/lib/revnetOperator.ts:13-174).
 */
module OperatorHistory {
  import opened Prelude
  import opened Arithmetic

  /*
   A scan from the newest block down, in windows that are halved while a window holds too many
   records, under three work limits. `First` is what it looks for, without windows and without
   limits.
   */

  const MAX_REQUESTS := 32
  const MAX_LOGS_PER_WINDOW := 256
  const MAX_CANDIDATES := 64
  const WINDOW := 50_000

  // An operator is a lower-case address; None when it is missing, malformed or zero.
  type Address = string
  datatype Log = Log(block: nat, index: nat, operator: Option<Address>, removed: bool, packed: nat)

  predicate Newer(a: Log, b: Log) { a.block > b.block || (a.block == b.block && a.index > b.index) }

  // Newest block first, and in a block the highest log index first.
  ghost predicate NewestFirst(logs: seq<Log>) {
    forall i, j | 0 <= i < j < |logs| ::
      logs[i].block > logs[j].block || (logs[i].block == logs[j].block && logs[i].index > logs[j].index)
  }

  predicate Counts(log: Log) { !log.removed && log.operator.Some? }

  // ---------------------------------------------------------------- what is looked for

  // The verdict of the live checks on a candidate; a check that throws counts as no.
  type Verdicts = Address -> Option<bool>

  predicate Accepts(accept: Verdicts, operator: Address) { accept(operator) == Some(true) }

  // The operators among `logs`, besides those in `seen`.
  function Seen(logs: seq<Log>, seen: set<Address>): set<Address> {
    if logs == [] then seen
    else Seen(logs[1..], if Counts(logs[0]) then seen + {logs[0].operator.value} else seen)
  }

  // The first operator, newest record first, whose newest record grants something and who is accepted.
  function First(logs: seq<Log>, seen: set<Address>, accept: Verdicts): Option<Address> {
    if logs == [] then None
    else if !Counts(logs[0]) || logs[0].operator.value in seen then First(logs[1..], seen, accept)
    else if logs[0].packed != 0 && Accepts(accept, logs[0].operator.value) then logs[0].operator
    else First(logs[1..], seen + {logs[0].operator.value}, accept)
  }

  // Record `i` is the newest one of its operator that was not removed.
  ghost predicate IsNewest(logs: seq<Log>, i: nat) {
    && i < |logs| && !logs[i].removed && logs[i].operator.Some?
    && forall j: nat | j < i :: logs[j].removed || logs[j].operator != logs[i].operator
  }

  // Record `i` is the newest of an operator not in `seen`, grants something, and is accepted.
  ghost predicate Wanted(logs: seq<Log>, i: nat, seen: set<Address>, accept: Verdicts) {
    && IsNewest(logs, i) && logs[i].packed != 0 && accept(logs[i].operator.value) == Some(true)
    && logs[i].operator.value !in seen
  }

  function More(log: Log, seen: set<Address>): set<Address> {
    if Counts(log) then seen + {log.operator.value} else seen
  }

  lemma WantedShift(logs: seq<Log>, i: nat, seen: set<Address>, accept: Verdicts)
    requires i + 1 < |logs|
    ensures Wanted(logs, i + 1, seen, accept) <==> Wanted(logs[1..], i, More(logs[0], seen), accept)
  {
    var rest := logs[1..];
    assert rest[i] == logs[i + 1] && forall j: nat | j < i :: rest[j] == logs[j + 1];
    if IsNewest(logs, i + 1) {
      forall j: nat | j < i ensures rest[j].removed || rest[j].operator != rest[i].operator {
        assert rest[j] == logs[j + 1];
      }
    }
  }

  /** `First` is the first wanted record, and it is None exactly when no record is wanted. */
  lemma {:induction false} FirstIsFirstWanted(logs: seq<Log>, seen: set<Address>, accept: Verdicts)
    ensures First(logs, seen, accept).Some? ==>
              exists i: nat :: Wanted(logs, i, seen, accept) && logs[i].operator == First(logs, seen, accept)
                && forall j: nat | j < i :: !Wanted(logs, j, seen, accept)
    ensures First(logs, seen, accept).None? ==> forall i: nat :: !Wanted(logs, i, seen, accept)
  {
    if logs != [] {
      var rest, more := logs[1..], More(logs[0], seen);
      if Counts(logs[0]) && logs[0].operator.value !in seen && logs[0].packed != 0
        && Accepts(accept, logs[0].operator.value)
      {
        assert Wanted(logs, 0, seen, accept);
      } else {
        assert First(logs, seen, accept) == First(rest, more, accept) by {
          assert Counts(logs[0]) && logs[0].operator.value in seen ==> more == seen;
        }
        FirstIsFirstWanted(rest, more, accept);
        forall i: nat | 0 < i < |logs| ensures Wanted(logs, i, seen, accept) <==> Wanted(rest, i - 1, more, accept) {
          WantedShift(logs, i - 1, seen, accept);
        }
        if First(rest, more, accept).Some? {
          var k: nat :| Wanted(rest, k, more, accept) && rest[k].operator == First(rest, more, accept)
                        && forall j: nat | j < k :: !Wanted(rest, j, more, accept);
          assert Wanted(logs, k + 1, seen, accept);
        }
      }
    }
  }

  lemma {:induction false} SeenThrough(a: seq<Log>, b: seq<Log>, seen: set<Address>, accept: Verdicts)
    ensures Seen(a + b, seen) == Seen(b, Seen(a, seen))
    ensures First(a + b, seen, accept)
            == if First(a, seen, accept).Some? then First(a, seen, accept) else First(b, Seen(a, seen), accept)
  {
    if a == [] {
      assert a + b == b;
    } else {
      assert (a + b)[1..] == a[1..] + b;
      var more := More(a[0], seen);
      SeenThrough(a[1..], b, more, accept);
      assert Counts(a[0]) && a[0].operator.value in seen ==> more == seen;
    }
  }

  lemma {:induction false} SeenGrows(logs: seq<Log>, seen: set<Address>)
    ensures seen <= Seen(logs, seen)
  {
    if logs != [] {
      SeenGrows(logs[1..], More(logs[0], seen));
    }
  }

  // ---------------------------------------------------------------- windows of the history

  function InRange(history: seq<Log>, from: nat, to: nat): seq<Log> {
    if history == [] then []
    else (if from <= history[0].block <= to then [history[0]] else []) + InRange(history[1..], from, to)
  }

  lemma {:induction false} InRangeMembers(history: seq<Log>, from: nat, to: nat)
    requires NewestFirst(history)
    ensures forall x | x in InRange(history, from, to) :: x in history && from <= x.block <= to
    ensures NewestFirst(InRange(history, from, to))
  {
    if history != [] {
      InRangeMembers(history[1..], from, to);
      var rest := InRange(history[1..], from, to);
      forall x | x in rest ensures Newer(history[0], x) {
      }
    }
  }

  // The newer part of a range comes before the older part.
  lemma {:induction false} RangeSplits(history: seq<Log>, from: nat, middle: nat, to: nat)
    requires NewestFirst(history) && from <= middle <= to
    ensures InRange(history, from, to) == InRange(history, middle + 1, to) + InRange(history, from, middle)
  {
    if history != [] {
      RangeSplits(history[1..], from, middle, to);
      if history[0].block <= middle {
        OlderOutside(history, middle + 1, to);
      }
    }
  }

  lemma {:induction false} OlderOutside(history: seq<Log>, from: nat, to: nat)
    requires NewestFirst(history) && history != [] && history[0].block < from
    ensures InRange(history, from, to) == []
  {
    if |history| > 1 {
      assert Newer(history[0], history[1]);
      OlderOutside(history[1..], from, to);
    }
  }

  // ---------------------------------------------------------------- sorting a window

  // `a` may stand before `b` in a sorted window.
  predicate Before(a: Log, b: Log) { !Newer(b, a) }

  ghost predicate Sorted(logs: seq<Log>) { forall i, j | 0 <= i < j < |logs| :: Before(logs[i], logs[j]) }

  lemma BeforeTransitive(a: Log, b: Log, c: Log)
    requires Before(a, b) && Before(b, c)
    ensures Before(a, c)
  {
  }

  lemma SameHead(a: seq<Log>, b: seq<Log>)
    requires NewestFirst(b) && Sorted(a) && multiset(a) == multiset(b) && a != []
    ensures b != [] && a[0] == b[0]
  {
    assert a[0] in multiset(b);
    assert b[0] in multiset(a);
    var i :| 0 <= i < |b| && b[i] == a[0];
    var j :| 0 <= j < |a| && a[j] == b[0];
    assert Before(a[0], b[0]) by { assert j == 0 || Before(a[0], a[j]); }
    HeadNewest(b, i);
  }

  lemma HeadNewest(b: seq<Log>, i: nat)
    requires NewestFirst(b) && i < |b|
    ensures b[i] == b[0] || Newer(b[0], b[i])
  {
  }

  // A window sorted newest first is the only order its records can have.
  lemma {:induction false} SortedUnique(a: seq<Log>, b: seq<Log>)
    requires NewestFirst(b) && Sorted(a) && multiset(a) == multiset(b)
    ensures a == b
    decreases |a|
  {
    if a == [] {
      assert |multiset(b)| == 0;
    } else {
      SameHead(a, b);
      assert a == [a[0]] + a[1..] && b == [b[0]] + b[1..];
      assert multiset(a[1..]) == multiset(a) - multiset{a[0]};
      assert multiset(b[1..]) == multiset(b) - multiset{b[0]};
      SortedUnique(a[1..], b[1..]);
    }
  }

  lemma InsertSorted(sorted: seq<Log>, k: nat, x: Log)
    requires Sorted(sorted) && k <= |sorted|
    requires (forall i | 0 <= i < k :: Before(sorted[i], x)) && (k < |sorted| ==> Newer(x, sorted[k]))
    ensures Sorted(sorted[..k] + [x] + sorted[k..])
  {
    var next := sorted[..k] + [x] + sorted[k..];
    forall i | k <= i < |sorted| ensures Before(x, sorted[i]) {
      if i > k {
        BeforeTransitive(x, sorted[k], sorted[i]);
      }
    }
    forall i, j | 0 <= i < j < |next| ensures Before(next[i], next[j]) {
      if i == k || j == k {
      } else {
        assert next[i] == sorted[if i < k then i else i - 1] && next[j] == sorted[if j < k then j else j - 1];
      }
    }
  }

  lemma InsertMembers(sorted: seq<Log>, k: nat, x: Log)
    requires k <= |sorted|
    ensures multiset(sorted[..k] + [x] + sorted[k..]) == multiset(sorted) + multiset{x}
  {
    assert sorted == sorted[..k] + sorted[k..];
  }

  // The comparator sort of a window: newest block first, then highest log index.
  method SortNewestFirst(logs: seq<Log>) returns (sorted: seq<Log>)
    ensures multiset(sorted) == multiset(logs)
    ensures Sorted(sorted)
  {
    sorted := [];
    for n := 0 to |logs|
      invariant multiset(sorted) == multiset(logs[..n])
      invariant Sorted(sorted)
    {
      var k := 0;
      while k < |sorted| && !Newer(logs[n], sorted[k])
        invariant k <= |sorted| && forall i | 0 <= i < k :: Before(sorted[i], logs[n])
      {
        k := k + 1;
      }
      assert logs[..n + 1] == logs[..n] + [logs[n]];
      InsertSorted(sorted, k, logs[n]);
      InsertMembers(sorted, k, logs[n]);
      sorted := sorted[..k] + [logs[n]] + sorted[k..];
    }
    assert logs[..|logs|] == logs;
  }

  // ---------------------------------------------------------------- the scan

  // None is a request that throws.
  type Provider = (nat, nat) -> Option<seq<Log>>

  // `getLogs` answers a range with its records in any order; it may cut an answer short, but
  // not below the size the code treats as too large.
  ghost predicate Honest(fetch: Provider, history: seq<Log>) {
    forall from, to | fetch(from, to).Some? :: Answers(fetch(from, to).value, InRange(history, from, to))
  }

  ghost predicate Answers(logs: seq<Log>, truth: seq<Log>) {
    if |truth| <= MAX_LOGS_PER_WINDOW then multiset(logs) == multiset(truth) else |logs| > MAX_LOGS_PER_WINDOW
  }

  /** One window, newest record first. */
  method ScanWindow(logs: seq<Log>, seen: set<Address>, accept: Verdicts)
    returns (found: Option<Address>, seen': set<Address>, calls: nat, tooMany: bool)
    requires |seen| <= MAX_CANDIDATES
    ensures found.Some? ==> found == First(logs, seen, accept)
    ensures tooMany ==> found.None? && |Seen(logs, seen)| > MAX_CANDIDATES
    ensures found.None? && !tooMany ==>
        First(logs, seen, accept).None? && seen' == Seen(logs, seen) && |seen'| <= MAX_CANDIDATES
    ensures |seen| <= |seen'| <= MAX_CANDIDATES + 1 && (|seen'| > MAX_CANDIDATES ==> tooMany)
    ensures calls <= |seen'| - |seen| && (tooMany ==> calls < |seen'| - |seen|)
  {
    seen', calls := seen, 0;
    for i := 0 to |logs|
      invariant |seen| <= |seen'| <= MAX_CANDIDATES && calls <= |seen'| - |seen|
      invariant First(logs, seen, accept) == First(logs[i..], seen', accept)
      invariant Seen(logs, seen) == Seen(logs[i..], seen')
    {
      assert logs[i..][1..] == logs[i + 1..];
      var log := logs[i];
      if Counts(log) && log.operator.value !in seen' {
        seen' := seen' + {log.operator.value};
        if |seen'| > MAX_CANDIDATES {
          SeenGrows(logs[i + 1..], seen');
          SizeMonotone(seen', Seen(logs, seen));
          return None, seen', calls, true;
        }
        if log.packed != 0 {
          calls := calls + 1;
          if Accepts(accept, log.operator.value) {
            return log.operator, seen', calls, false;
          }
        }
      } else if Counts(log) {
        assert seen' + {log.operator.value} == seen';
      }
    }
    found, tooMany := None, false;
  }

  lemma SizeMonotone(a: set<Address>, b: set<Address>)
    requires a <= b
    ensures |a| <= |b|
  {
    assert b == a + (b - a);
  }

  // The answer and the operators of everything from a block up.
  function Answer(history: seq<Log>, from: nat, through: nat, accept: Verdicts): Option<Address> {
    First(InRange(history, from, through), {}, accept)
  }

  function Operators(history: seq<Log>, from: nat, through: nat): set<Address> {
    Seen(InRange(history, from, through), {})
  }

  lemma {:induction false} EmptyRange(history: seq<Log>, from: nat, to: nat)
    requires to < from
    ensures InRange(history, from, to) == []
  {
    if history != [] {
      EmptyRange(history[1..], from, to);
    }
  }

  lemma AnsweredHonestly(logs: seq<Log>, truth: seq<Log>)
    requires Answers(logs, truth)
    ensures |logs| > MAX_LOGS_PER_WINDOW <==> |truth| > MAX_LOGS_PER_WINDOW
    ensures |logs| <= MAX_LOGS_PER_WINDOW ==> multiset(logs) == multiset(truth)
  {
    if |truth| <= MAX_LOGS_PER_WINDOW {
      assert |logs| == |multiset(logs)| == |multiset(truth)|;
    }
  }

  // What the scan knows after a window, about everything from the window up.
  lemma {:induction false} WindowScanned(history: seq<Log>, oldest: nat, newest: nat, through: nat, accept: Verdicts)
    requires NewestFirst(history) && oldest <= newest <= through && Answer(history, newest + 1, through, accept).None?
    ensures Answer(history, oldest, through, accept)
         == First(InRange(history, oldest, newest), Operators(history, newest + 1, through), accept)
    ensures Operators(history, oldest, through)
        == Seen(InRange(history, oldest, newest), Operators(history, newest + 1, through))
  {
    RangeSplits(history, oldest, newest, through);
    SeenThrough(InRange(history, newest + 1, through), InRange(history, oldest, newest), {}, accept);
  }

  // What was found from some block up is found from any lower block up.
  lemma AnswerBelow(history: seq<Log>, first: nat, oldest: nat, through: nat, accept: Verdicts)
    requires NewestFirst(history) && first <= oldest <= through && Answer(history, oldest, through, accept).Some?
    ensures Answer(history, first, through, accept) == Answer(history, oldest, through, accept)
  {
    if first < oldest {
      RangeSplits(history, first, oldest - 1, through);
      SeenThrough(InRange(history, oldest, through), InRange(history, first, oldest - 1), {}, accept);
    }
  }

  lemma OperatorsBelow(history: seq<Log>, first: nat, oldest: nat, through: nat)
    requires NewestFirst(history) && first <= oldest <= through
    ensures |Operators(history, oldest, through)| <= |Operators(history, first, through)|
  {
    if first < oldest {
      var newer, older := InRange(history, oldest, through), InRange(history, first, oldest - 1);
      RangeSplits(history, first, oldest - 1, through);
      SeenThrough(newer, older, {}, _ => None);
      SeenGrows(older, Seen(newer, {}));
      SizeMonotone(Seen(newer, {}), Seen(older, Seen(newer, {})));
    }
  }

  // One answer: either the window holds too much, or it is scanned.
  method TryWindow(history: seq<Log>, logs: seq<Log>, oldest: nat, newest: nat, through: nat, seen: set<Address>,
      accept: Verdicts)
    returns (overfull: bool, found: Option<Address>, seen': set<Address>, calls: nat, tooMany: bool)
    requires NewestFirst(history) && Answers(logs, InRange(history, oldest, newest)) && oldest <= newest <= through
    requires Answer(history, newest + 1, through, accept).None?
    requires seen == Operators(history, newest + 1, through) && |seen| <= MAX_CANDIDATES
    ensures overfull <==> |InRange(history, oldest, newest)| > MAX_LOGS_PER_WINDOW
    ensures overfull ==> calls == 0
    ensures !overfull && found.Some? ==> found == Answer(history, oldest, through, accept)
    ensures !overfull && tooMany ==> found.None? && |Operators(history, oldest, through)| > MAX_CANDIDATES
    ensures !overfull && found.None? && !tooMany ==>
              && Answer(history, oldest, through, accept).None?
              && seen' == Operators(history, oldest, through) && calls <= |seen'| - |seen|
    ensures |seen| + calls <= MAX_CANDIDATES && (!overfull && !tooMany ==> |seen'| <= MAX_CANDIDATES)
  {
    AnsweredHonestly(logs, InRange(history, oldest, newest));
    overfull, found, seen', calls, tooMany := |logs| > MAX_LOGS_PER_WINDOW, None, seen, 0, false;
    if !overfull {
      var sorted := SortNewestFirst(logs);
      InRangeMembers(history, oldest, newest);
      SortedUnique(sorted, InRange(history, oldest, newest));
      found, seen', calls, tooMany := ScanWindow(sorted, seen, accept);
      WindowScanned(history, oldest, newest, through, accept);
    }
  }

  // ---------------------------------------------------------------- how a scan ends

  // At a result, at the deployment block, or at one of its limits above it: the requests ran
  // out, one block alone holds too much, there were too many candidates, a request threw.
  datatype Ending = Found | Bottom | Requests | Overfull | Candidates | Threw

  // What a scan established when it ended; everything from block `reached` up was looked at.
  ghost predicate Established(
    history: seq<Log>, from: nat, through: nat, accept: Verdicts, ending: Ending, result: Option<Address>, reached: nat)
  {
    && from <= reached <= through + 1
    && (result.Some? <==> ending.Found?)
    && match ending
       case Found => result == Answer(history, from, through, accept)
       case _ => Answer(history, reached, through, accept).None? && (reached == from <==> ending.Bottom?)
  }

  // The window after `k` answers in a row that were too large.
  function Halved(k: nat): nat { if k == 0 then WINDOW else Halved(k - 1) / 2 }

  // No window of at most `size` blocks of the range holds too many records.
  ghost predicate Sparse(history: seq<Log>, from: nat, through: nat, size: nat) {
    forall oldest: nat, newest: nat | from <= oldest <= newest <= through && newest - oldest < size ::
      |InRange(history, oldest, newest)| <= MAX_LOGS_PER_WINDOW
  }

  // A scan ends at a limit only when that limit was exceeded by the records of the range. The
  // requests run out only after two windows, and only when the range is too long for windows of
  // a size at which none holds too many records.
  ghost predicate Exceeded(
    history: seq<Log>, from: nat, through: nat, fetch: Provider, ending: Ending, requests: nat, reached: nat)
  {
    match ending
    case Requests =>
      && requests == MAX_REQUESTS && reached < through
      && forall k: nat | k <= 15 && Sparse(history, from, through, Halved(k)) ::
           through - from >= MAX_REQUESTS / (k + 1) * Halved(k)
    case Overfull => reached > from && |InRange(history, reached - 1, reached - 1)| > MAX_LOGS_PER_WINDOW
    case Candidates => |Operators(history, from, through)| > MAX_CANDIDATES
    case Threw => exists x, y :: fetch(x, y).None?
    case _ => true
  }

  /**
   None means none: without a result and without a throw, no operator of the whole range is
   accepted if no block of the range holds more than 256 records, its operators are no more than
   64, and either the scan made less than 32 requests or these sufficed: for some `k`, no window
   of 50000 blocks halved `k` times holds more than 256 records, and the range has at most
   32 / (k + 1) such windows.
   */
  lemma {:induction false} NoneMeansNone(
    history: seq<Log>, from: nat, through: nat, fetch: Provider, accept: Verdicts,
    ending: Ending, requests: nat, reached: nat, k: nat)
    requires Established(history, from, through, accept, ending, None, reached)
    requires Exceeded(history, from, through, fetch, ending, requests, reached) && !ending.Threw?
    requires forall block: nat | from <= block <= through :: |InRange(history, block, block)| <= MAX_LOGS_PER_WINDOW
    requires |Operators(history, from, through)| <= MAX_CANDIDATES
    requires || requests < MAX_REQUESTS
             || (k <= 15 && Sparse(history, from, through, Halved(k))
                 && through - from < MAX_REQUESTS / (k + 1) * Halved(k))
    ensures ending.Bottom? && reached == from && Answer(history, from, through, accept).None?
  {
  }

  // Everything above block `newest` was looked at, and nothing is to be found there.
  ghost predicate Cleared(
    history: seq<Log>, newest: nat, through: nat, accept: Verdicts, seen: set<Address>)
  {
    && newest <= through && Answer(history, newest + 1, through, accept).None?
    && seen == Operators(history, newest + 1, through) && |seen| <= MAX_CANDIDATES
  }

  // ---------------------------------------------------------------- the pace of a scan

  // How many answers came, how many windows they scanned, and how many of the last ones were
  // too large.
  datatype Work = Work(requests: nat, windows: nat, halvings: nat)

  // A window is scanned within 16 requests, because its 15th half is a single block.
  ghost predicate Paced(newest: nat, through: nat, windowSize: nat, w: Work) {
    && w.halvings <= 15 && windowSize == Halved(w.halvings)
    && w.requests <= 16 * w.windows + w.halvings && newest + w.windows <= through
  }

  // While no window of Halved(k) blocks holds too much, each scanned window has at least as
  // many blocks and took at most k + 1 requests.
  ghost predicate Steady(history: seq<Log>, from: nat, newest: nat, through: nat, w: Work, k: nat) {
    k <= 15 && Sparse(history, from, through, Halved(k)) ==>
      && w.halvings <= k && w.requests <= w.windows * (k + 1) + w.halvings
      && newest + w.windows * Halved(k) <= through
  }

  ghost predicate OnPace(history: seq<Log>, from: nat, newest: nat, through: nat, windowSize: nat, w: Work) {
    Paced(newest, through, windowSize, w) && forall k: nat :: Steady(history, from, newest, through, w, k)
  }

  lemma {:induction false} HalvedAntitone(j: nat, k: nat)
    requires j <= k <= 15
    ensures 1 <= Halved(k) <= Halved(j)
    decreases k - j
  {
    if j == k {
      HalvedSizes(k);
    } else {
      HalvedAntitone(j + 1, k);
    }
  }

  lemma {:induction false} HalvedSizes(k: nat)
    requires k <= 15
    ensures Halved(k) >= 1 && (k == 15 ==> Halved(k) == 1)
  {
    assert Halved(4) == 3125;
    assert Halved(8) == 195;
    assert Halved(12) == 12;
    assert Halved(15) == 1;
  }

  // The oldest block of a window.
  function OldestOf(from: nat, newest: nat, windowSize: nat): (oldest: nat)
    requires from <= newest && windowSize >= 1
    ensures from <= oldest <= newest && newest - oldest < windowSize
  {
    if newest - from + 1 > windowSize then newest - windowSize + 1 else from
  }

  lemma OneMoreWindow(requests: nat, windows: nat, halvings: nat, k: nat, size: nat, newest: nat, through: nat)
    requires halvings <= k && requests <= windows * (k + 1) + halvings && newest + windows * size <= through
    ensures requests + 1 <= (windows + 1) * (k + 1)
    ensures newest - size + (windows + 1) * size <= through
  {
    Distribute(windows, 1, k + 1);
    Distribute(windows, 1, size);
  }

  lemma SteadyAfterScan(
    history: seq<Log>, from: nat, newest: nat, through: nat, windowSize: nat, w: Work, oldest: nat, k: nat)
    requires Paced(newest, through, windowSize, w) && oldest >= 1 && oldest + windowSize == newest + 1
    requires Steady(history, from, newest, through, w, k)
    ensures Steady(history, from, oldest - 1, through, Work(w.requests + 1, w.windows + 1, 0), k)
  {
    if k <= 15 && Sparse(history, from, through, Halved(k)) {
      HalvedAntitone(w.halvings, k);
      OneMoreWindow(w.requests, w.windows, w.halvings, k, Halved(k), newest, through);
    }
  }

  lemma OnPaceAfterScan(
    history: seq<Log>, from: nat, newest: nat, through: nat, windowSize: nat, w: Work, oldest: nat)
    requires OnPace(history, from, newest, through, windowSize, w) && windowSize >= 1
    requires oldest >= 1 && oldest + windowSize == newest + 1
    ensures OnPace(history, from, oldest - 1, through, WINDOW, Work(w.requests + 1, w.windows + 1, 0))
  {
    var older, next := oldest - 1, Work(w.requests + 1, w.windows + 1, 0);
    forall k: nat ensures Steady(history, from, older, through, next, k) {
      SteadyAfterScan(history, from, newest, through, windowSize, w, oldest, k);
    }
  }

  lemma {:induction false} SteadyAfterHalving(
    history: seq<Log>, from: nat, newest: nat, through: nat, windowSize: nat, w: Work, oldest: nat, k: nat)
    requires from <= oldest <= newest <= through && newest - oldest < windowSize
    requires Paced(newest, through, windowSize, w) && |InRange(history, oldest, newest)| > MAX_LOGS_PER_WINDOW
    requires Steady(history, from, newest, through, w, k)
    ensures Steady(history, from, newest, through, Work(w.requests + 1, w.windows, w.halvings + 1), k)
  {
  }

  lemma {:induction false} OnPaceAfterHalving(
    history: seq<Log>, from: nat, newest: nat, through: nat, windowSize: nat, w: Work, oldest: nat)
    requires from <= oldest < newest <= through && newest - oldest < windowSize
    requires OnPace(history, from, newest, through, windowSize, w)
    requires |InRange(history, oldest, newest)| > MAX_LOGS_PER_WINDOW
    ensures OnPace(
              history, from, newest, through, Max(1, windowSize / 2), Work(w.requests + 1, w.windows, w.halvings + 1))
  {
    var next := Work(w.requests + 1, w.windows, w.halvings + 1);
    HalvedSizes(w.halvings);
    forall k: nat ensures Steady(history, from, newest, through, next, k) {
      SteadyAfterHalving(history, from, newest, through, windowSize, w, oldest, k);
    }
  }

  // Where the scan goes on after an answer, it is still on pace.
  lemma StillOnPace(
    history: seq<Log>, from: nat, newest: nat, through: nat, windowSize: nat, w: Work,
    behind: nat, size: nat) returns (next: Work)
    requires from <= newest <= through && windowSize >= 1 && OnPace(history, from, newest, through, windowSize, w)
    requires var oldest := OldestOf(from, newest, windowSize);
             if |InRange(history, oldest, newest)| <= MAX_LOGS_PER_WINDOW
             then from < oldest && behind == oldest - 1 && size == WINDOW
             else oldest < newest && behind == newest && size == Max(1, windowSize / 2)
    ensures OnPace(history, from, behind, through, size, next) && next.requests == w.requests + 1
  {
    var oldest := OldestOf(from, newest, windowSize);
    if |InRange(history, oldest, newest)| <= MAX_LOGS_PER_WINDOW {
      next := Work(w.requests + 1, w.windows + 1, 0);
      OnPaceAfterScan(history, from, newest, through, windowSize, w, oldest);
    } else {
      next := Work(w.requests + 1, w.windows, w.halvings + 1);
      OnPaceAfterHalving(history, from, newest, through, windowSize, w, oldest);
    }
  }

  // After 32 requests at least 32 / (k + 1) windows of Halved(k) blocks are behind the scan.
  lemma {:induction false} EnoughWindows(history: seq<Log>, from: nat, newest: nat, through: nat, w: Work, k: nat)
    requires from <= newest && w.requests == MAX_REQUESTS && Steady(history, from, newest, through, w, k)
    requires k <= 15 && Sparse(history, from, through, Halved(k))
    ensures through - from >= MAX_REQUESTS / (k + 1) * Halved(k)
  {
    var q := MAX_REQUESTS / (k + 1);
    Distribute(w.windows, 1, k + 1);
    QuotientBelow(MAX_REQUESTS, k + 1, w.windows + 1);
    Times(q, w.windows, Halved(k));
  }

  // One round of the loop after its request was answered; no ending means that it goes on.
  method Answered(
    deploymentBlock: nat, newestBlock: nat, oldestBlock: nat, windowSize: nat, throughBlock: nat, history: seq<Log>,
    logs: seq<Log>, seen: set<Address>, accept: Verdicts)
    returns (ending: Option<Ending>, result: Option<Address>, newest: nat, seen': set<Address>, size: nat, calls: nat)
    requires NewestFirst(history) && Answers(logs, InRange(history, oldestBlock, newestBlock))
    requires deploymentBlock <= oldestBlock <= newestBlock && windowSize >= 1
    requires Cleared(history, newestBlock, throughBlock, accept, seen)
    ensures |seen| + calls <= MAX_CANDIDATES && (ending.None? ==> |seen| + calls <= |seen'|)
    ensures result.Some? <==> ending == Some(Found)
    ensures ending == Some(Found) ==> result == Answer(history, deploymentBlock, throughBlock, accept)
    ensures ending == Some(Bottom) ==> Answer(history, deploymentBlock, throughBlock, accept).None?
    ensures ending == Some(Overfull) ==> |InRange(history, newestBlock, newestBlock)| > MAX_LOGS_PER_WINDOW
    ensures ending == Some(Candidates) ==> |Operators(history, deploymentBlock, throughBlock)| > MAX_CANDIDATES
    ensures ending.Some? ==> ending.value in {Found, Bottom, Overfull, Candidates}
    ensures ending.None? ==> deploymentBlock <= newest && size >= 1
    ensures ending.None? ==> Cleared(history, newest, throughBlock, accept, seen')
    ensures ending.None? && |InRange(history, oldestBlock, newestBlock)| <= MAX_LOGS_PER_WINDOW ==>
              size == WINDOW && newest == oldestBlock - 1 && deploymentBlock < oldestBlock
    ensures ending.None? && |InRange(history, oldestBlock, newestBlock)| > MAX_LOGS_PER_WINDOW ==>
              newest == newestBlock && oldestBlock < newestBlock && size == Max(1, windowSize / 2)
    ensures ending == Some(Overfull) ==> oldestBlock == newestBlock
  {
    newest, size := newestBlock, windowSize;
    ending, result := None, None;
    var overfull, found, scanned, more, tooMany :=
      TryWindow(history, logs, oldestBlock, newestBlock, throughBlock, seen, accept);
    seen', calls := scanned, more;
    if overfull {
      seen' := seen;
      if oldestBlock == newestBlock {
        ending := Some(Overfull);
      } else {
        size := if windowSize > 1 then windowSize / 2 else 1;
      }
    } else if found.Some? {
      AnswerBelow(history, deploymentBlock, oldestBlock, throughBlock, accept);
      ending, result := Some(Found), found;
    } else if tooMany {
      OperatorsBelow(history, deploymentBlock, oldestBlock, throughBlock);
      ending := Some(Candidates);
    } else if oldestBlock == deploymentBlock {
      ending := Some(Bottom);
    } else {
      newest, size := oldestBlock - 1, WINDOW;
    }
  }

  // One request of the loop.
  method OneRequest(
    deploymentBlock: nat, newestBlock: nat, windowSize: nat, throughBlock: nat, history: seq<Log>, fetch: Provider,
    seen: set<Address>, accept: Verdicts, ghost w: Work)
    returns (ending: Option<Ending>, result: Option<Address>, newest: nat, seen': set<Address>, size: nat, calls: nat,
      ghost next: Work)
    requires NewestFirst(history) && Honest(fetch, history)
    requires deploymentBlock <= newestBlock && windowSize >= 1
    requires Cleared(history, newestBlock, throughBlock, accept, seen)
    requires OnPace(history, deploymentBlock, newestBlock, throughBlock, windowSize, w)
    ensures |seen| + calls <= MAX_CANDIDATES && (ending.None? ==> |seen| + calls <= |seen'|)
    ensures ending.Some? ==> !ending.value.Requests?
    ensures ending.Some? ==>
              var reached := if ending.value.Bottom? then deploymentBlock else newestBlock + 1;
              && Established(history, deploymentBlock, throughBlock, accept, ending.value, result, reached)
              && Exceeded(history, deploymentBlock, throughBlock, fetch, ending.value, w.requests + 1, reached)
    ensures ending.None? ==>
              && result.None? && deploymentBlock <= newest && size >= 1
              && Cleared(history, newest, throughBlock, accept, seen')
              && OnPace(history, deploymentBlock, newest, throughBlock, size, next)
              && next.requests == w.requests + 1
  {
    next := w;
    var oldestBlock := OldestOf(deploymentBlock, newestBlock, windowSize);
    var logs := fetch(oldestBlock, newestBlock);
    if logs.None? {
      return Some(Threw), None, newestBlock, seen, windowSize, 0, w;
    }
    ending, result, newest, seen', size, calls := Answered(
      deploymentBlock, newestBlock, oldestBlock, windowSize, throughBlock, history, logs.value, seen, accept);
    if ending.None? {
      next := StillOnPace(history, deploymentBlock, newestBlock, throughBlock, windowSize, w, newest, size);
    }
  }

  lemma NothingAbove(history: seq<Log>, from: nat, through: nat, accept: Verdicts)
    ensures Cleared(history, through, through, accept, {})
    ensures OnPace(history, from, through, through, WINDOW, Work(0, 0, 0))
  {
    EmptyRange(history, through + 1, through);
  }

  lemma RequestsRanOut(
    history: seq<Log>, from: nat, newest: nat, through: nat, windowSize: nat, fetch: Provider,
    seen: set<Address>, accept: Verdicts, w: Work)
    requires from <= newest && Cleared(history, newest, through, accept, seen)
    requires OnPace(history, from, newest, through, windowSize, w) && w.requests == MAX_REQUESTS
    ensures Established(history, from, through, accept, Requests, None, newest + 1)
    ensures Exceeded(history, from, through, fetch, Requests, MAX_REQUESTS, newest + 1)
  {
    forall k: nat | k <= 15 && Sparse(history, from, through, Halved(k))
      ensures through - from >= MAX_REQUESTS / (k + 1) * Halved(k)
    {
      EnoughWindows(history, from, newest, through, w, k);
    }
  }

  method ScanDown(deploymentBlock: nat, throughBlock: nat, history: seq<Log>, fetch: Provider, accept: Verdicts)
    returns (ending: Ending, result: Option<Address>, requests: nat, calls: nat, ghost reached: nat,
      ghost windows: nat)
    requires NewestFirst(history) && Honest(fetch, history) && deploymentBlock <= throughBlock
    ensures requests <= MAX_REQUESTS && calls <= MAX_CANDIDATES
    ensures requests <= 16 * windows + 16 && reached + windows <= throughBlock + 1
    ensures Established(history, deploymentBlock, throughBlock, accept, ending, result, reached)
    ensures Exceeded(history, deploymentBlock, throughBlock, fetch, ending, requests, reached)
  {
    requests, calls, result := 0, 0, None;
    var seen: set<Address> := {};
    var newestBlock, windowSize := throughBlock, WINDOW;
    ghost var w := Work(0, 0, 0);
    NothingAbove(history, deploymentBlock, throughBlock, accept);
    while newestBlock >= deploymentBlock && requests < MAX_REQUESTS
      invariant deploymentBlock <= newestBlock && requests == w.requests <= MAX_REQUESTS && windowSize >= 1
      invariant result.None? && calls <= |seen| && Cleared(history, newestBlock, throughBlock, accept, seen)
      invariant OnPace(history, deploymentBlock, newestBlock, throughBlock, windowSize, w)
      decreases MAX_REQUESTS - requests
    {
      var ended, found, newest, seen', size, more, next :=
        OneRequest(deploymentBlock, newestBlock, windowSize, throughBlock, history, fetch, seen, accept, w);
      requests, calls := if ended == Some(Threw) then requests else requests + 1, calls + more;
      if ended.Some? {
        ending, result := ended.value, found;
        reached, windows := if ending.Bottom? then deploymentBlock else newestBlock + 1, w.windows;
        return;
      }
      newestBlock, seen, windowSize, w := newest, seen', size, next;
    }
    ending, reached, windows := Requests, newestBlock + 1, w.windows;
    RequestsRanOut(
      history, deploymentBlock, newestBlock, throughBlock, windowSize, fetch, seen, accept, w);
  }

  // The deployment block of the permissions contract on a chain, when the chain is known.
  type Deployments = map<nat, nat>

  /**
   The whole scan. A result is exactly the first wanted operator of the range, whatever windows
   were tried; without a result there is none down to the block reached, and that is the
   deployment block unless the scan ended at a limit that the records exceeded. At most 32
   requests are answered, at most 16 for each window scanned and the last one, and at most 64
   candidates are checked. A request that throws ends it.
   */
  method FindOperator(
    deployments: Deployments, chain: nat, throughBlock: nat, history: seq<Log>, fetch: Provider, accept: Verdicts)
    returns (ending: Ending, result: Option<Address>, requests: nat, calls: nat, ghost reached: nat,
      ghost windows: nat)
    requires NewestFirst(history) && Honest(fetch, history)
    ensures requests <= MAX_REQUESTS && calls <= MAX_CANDIDATES && requests <= 16 * windows + 16
    ensures chain !in deployments || throughBlock < deployments[chain] ==>
              ending.Bottom? && result.None? && requests == 0
    ensures chain in deployments && throughBlock < deployments[chain] ==>
              Answer(history, deployments[chain], throughBlock, accept).None?
    ensures chain in deployments && throughBlock >= deployments[chain] ==>
              && reached + windows <= throughBlock + 1
              && Established(history, deployments[chain], throughBlock, accept, ending, result, reached)
              && Exceeded(history, deployments[chain], throughBlock, fetch, ending, requests, reached)
  {
    reached, windows := 0, 0;
    if chain !in deployments {
      return Bottom, None, 0, 0, 0, 0;
    }
    if throughBlock < deployments[chain] {
      EmptyRange(history, deployments[chain], throughBlock);
      return Bottom, None, 0, 0, 0, 0;
    }
    ending, result, requests, calls, reached, windows :=
      ScanDown(deployments[chain], throughBlock, history, fetch, accept);
  }
}
