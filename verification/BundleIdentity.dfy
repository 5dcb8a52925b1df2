/**
 Which Relayr answer is accepted for a signed bundle (web/src/hooks/useReviewedRelayr.ts:277-383)
 and which hash is recorded for which call of a round (web/src/hooks/useMultichainBatch.ts:403-415).
 Addresses and calldata are compared in lower case, so they are lower case here.
 */
module BundleIdentity {
  import opened Prelude
  import opened Identities
  import opened BatchRounds

  // A destination call as it was signed and published.
  datatype Expected = Expected(chain: ChainId, uuid: string, target: string, data: string, value: int)

  // A destination as Relayr reports it; what is missing or unreadable is None.
  datatype Reported = Reported(
    chain: ChainId,
    uuid: string,
    target: Option<string>,
    data: Option<string>,
    value: Option<int>,
    hash: Option<Hash>)

  datatype Bundle = Bundle(uuid: Uuid, transactions: Option<seq<Reported>>)

  // A transaction a chain has for a hash.
  datatype Onchain = Onchain(target: Option<string>, data: string, value: int, canonical: bool, succeeded: bool,
      guardsHold: bool)
  type Chains = map<(ChainId, Hash), Onchain>

  predicate DistinctChains(expected: seq<Expected>) {
    forall i, j | 0 <= i < j < |expected| :: expected[i].chain != expected[j].chain
  }

  // A reported destination is this signed call, property by property.
  predicate SameCall(t: Reported, e: Expected) {
    && t.chain == e.chain && t.uuid == e.uuid
    && t.target == Some(e.target) && t.data == Some(e.data) && t.value == Some(e.value)
  }

  // As many destinations as signed calls, and each signed call is one of them.
  ghost predicate ReportsEach(transactions: seq<Reported>, expected: seq<Expected>) {
    |transactions| == |expected| && forall e | e in expected :: exists t | t in transactions :: SameCall(t, e)
  }

  // The destinations a bundle reports, as the signed calls they claim to be.
  function Claims(transactions: seq<Reported>): (claims: seq<Option<Expected>>)
    ensures |claims| == |transactions|
  {
    seq(|transactions|, i requires 0 <= i < |transactions| => Claim(transactions[i]))
  }

  function Claim(t: Reported): Option<Expected> {
    if t.target.Some? && t.data.Some? && t.value.Some?
    then Some(Expected(t.chain, t.uuid, t.target.value, t.data.value, t.value.value)) else None
  }

  function Signed(expected: seq<Expected>): (signed: seq<Option<Expected>>)
    ensures |signed| == |expected|
  {
    seq(|expected|, i requires 0 <= i < |expected| => Some(expected[i]))
  }

  // `expected.find` by chain: the index of the first, or the length.
  function Find(expected: seq<Expected>, chain: ChainId): (i: nat)
    ensures i <= |expected|
    ensures i < |expected| ==> expected[i].chain == chain
    ensures forall k | 0 <= k < i :: expected[k].chain != chain
  {
    if expected == [] || expected[0].chain == chain then 0
    else 1 + Find(expected[1..], chain)
  }

  /** A permutation of the signed calls. */
  ghost predicate Permutation(transactions: seq<Reported>, expected: seq<Expected>) {
    multiset(Claims(transactions)) == multiset(Signed(expected))
  }

  // ---------------------------------------------------------------- multisets of claims

  lemma FullSubmultiset<T>(a: multiset<T>, b: multiset<T>)
    requires a <= b && |a| == |b|
    ensures a == b
  {
    assert b == a + (b - a);
    assert |b - a| == 0;
  }

  lemma SignedOnce(expected: seq<Expected>, k: nat)
    requires DistinctChains(expected) && k < |expected|
    ensures multiset(Signed(expected))[Some(expected[k])] == 1
  {
    var signed := Signed(expected);
    assert signed == signed[..k] + [signed[k]] + signed[k + 1..];
    assert Some(expected[k]) !in signed[..k] && Some(expected[k]) !in signed[k + 1..];
  }

  lemma ClaimsExtend(transactions: seq<Reported>, i: nat)
    requires i < |transactions|
    ensures multiset(Claims(transactions[..i + 1]))
        == multiset(Claims(transactions[..i])) + multiset{Claim(transactions[i])}
  {
    assert Claims(transactions[..i + 1]) == Claims(transactions[..i]) + [Claim(transactions[i])];
  }

  lemma ClaimedIn(transactions: seq<Reported>, i: nat)
    requires i < |transactions|
    ensures Claim(transactions[i]) in multiset(Claims(transactions))
  {
    assert Claims(transactions)[i] == Claim(transactions[i]);
  }

  lemma SignedMember(expected: seq<Expected>, claim: Option<Expected>)
    requires claim in multiset(Signed(expected))
    ensures claim.Some? && claim.value in expected
  {
    var k :| 0 <= k < |expected| && Signed(expected)[k] == claim;
  }

  // Two destinations of a permutation never claim the same chain.
  lemma PermutationChains(transactions: seq<Reported>, expected: seq<Expected>, i: nat, j: nat)
    requires DistinctChains(expected) && Permutation(transactions, expected) && i < j < |transactions|
    ensures transactions[i].chain != transactions[j].chain
    ensures Claim(transactions[i]).Some? && Claim(transactions[i]).value in expected
  {
    ClaimedIn(transactions, i);
    ClaimedIn(transactions, j);
    SignedMember(expected, Claim(transactions[i]));
    SignedMember(expected, Claim(transactions[j]));
    if transactions[i].chain == transactions[j].chain {
      TwiceClaimed(transactions, expected, i, j);
    }
  }

  lemma TwiceClaimed(transactions: seq<Reported>, expected: seq<Expected>, i: nat, j: nat)
    requires DistinctChains(expected) && i < j < |transactions|
    requires Claim(transactions[i]).Some? && Claim(transactions[i]).value in expected
    requires Claim(transactions[j]).Some? && Claim(transactions[j]).value in expected
    requires transactions[i].chain == transactions[j].chain
    ensures !Permutation(transactions, expected)
  {
    var k :| 0 <= k < |expected| && expected[k] == Claim(transactions[i]).value;
    var m :| 0 <= m < |expected| && expected[m] == Claim(transactions[j]).value;
    assert k == m;
    SignedOnce(expected, k);
    var claims := Claims(transactions);
    assert claims == claims[..i] + [claims[i]] + claims[i + 1..j] + [claims[j]] + claims[j + 1..];
    assert multiset(claims)[Some(expected[k])] >= 2;
  }

  lemma PermutationSize(transactions: seq<Reported>, expected: seq<Expected>)
    ensures |multiset(Claims(transactions))| == |transactions| && |multiset(Signed(expected))| == |expected|
    ensures Permutation(transactions, expected) ==> |transactions| == |expected|
  {
  }

  lemma SubmultisetOfSigned(expected: seq<Expected>, claims: multiset<Option<Expected>>)
    requires DistinctChains(expected) && forall e | e in expected :: Some(e) in claims
    ensures multiset(Signed(expected)) <= claims
  {
    var signed := multiset(Signed(expected));
    forall c | c in signed ensures signed[c] <= claims[c] {
      var k :| 0 <= k < |expected| && Signed(expected)[k] == c;
      SignedOnce(expected, k);
    }
  }

  /** A permutation of the signed calls is exactly an answer that reports each of them once. */
  lemma PermutationExactly(transactions: seq<Reported>, expected: seq<Expected>)
    requires DistinctChains(expected)
    ensures Permutation(transactions, expected) <==> ReportsEach(transactions, expected)
  {
    PermutationSize(transactions, expected);
    if Permutation(transactions, expected) {
      forall e | e in expected ensures exists t | t in transactions :: SameCall(t, e) {
        var k :| 0 <= k < |expected| && expected[k] == e;
        var i := EveryCallClaimed(transactions, expected, k);
        assert transactions[i] in transactions;
      }
    }
    if ReportsEach(transactions, expected) {
      forall e | e in expected ensures Some(e) in multiset(Claims(transactions)) {
        var t :| t in transactions && SameCall(t, e);
        var i :| 0 <= i < |transactions| && transactions[i] == t;
        ClaimedIn(transactions, i);
      }
      SubmultisetOfSigned(expected, multiset(Claims(transactions)));
      FullSubmultiset(multiset(Signed(expected)), multiset(Claims(transactions)));
    }
  }

  // Each destination of a permutation passes every test.
  lemma PermutationAccepted(transactions: seq<Reported>, expected: seq<Expected>, i: nat)
    requires DistinctChains(expected) && Permutation(transactions, expected) && i < |transactions|
    ensures Accepts(transactions, expected, i)
  {
    ClaimedIn(transactions, i);
    SignedMember(expected, Claim(transactions[i]));
    forall j | 0 <= j < i ensures transactions[j].chain != transactions[i].chain {
      PermutationChains(transactions, expected, j, i);
    }
  }

  // The tests on destination `i`: known, not seen before, and equal to the call signed for its chain.
  predicate Accepts(transactions: seq<Reported>, expected: seq<Expected>, i: nat)
    requires i < |transactions|
  {
    var k := Find(expected, transactions[i].chain);
    && k < |expected| && Claim(transactions[i]) == Some(expected[k])
    && forall j | 0 <= j < i :: transactions[j].chain != transactions[i].chain
  }

  lemma RefusedIsNoPermutation(transactions: seq<Reported>, expected: seq<Expected>, i: nat)
    requires DistinctChains(expected) && i < |transactions| && !Accepts(transactions, expected, i)
    ensures !Permutation(transactions, expected)
  {
    if Permutation(transactions, expected) {
      PermutationAccepted(transactions, expected, i);
    }
  }

  // ---------------------------------------------------------------- the code

  // `expectedBundleTransactions`: the signed calls a row remembers, when they are usable.
  predicate Usable(expected: seq<Expected>) { expected != [] && DistinctChains(expected) }

  // The count and the loop over the destinations.
  method MatchDestinations(transactions: seq<Reported>, expected: seq<Expected>) returns (ok: bool)
    requires Usable(expected)
    ensures ok <==> Permutation(transactions, expected)
  {
    PermutationSize(transactions, expected);
    if |transactions| != |expected| { return false; }
    var seen: set<ChainId> := {};
    for i := 0 to |transactions|
      invariant seen == ChainsBefore(transactions, i)
      invariant multiset(Claims(transactions[..i])) <= multiset(Signed(expected))
    {
      var t := transactions[i];
      var k := Find(expected, t.chain);
      if k == |expected| || t.chain in seen || Claim(t) != Some(expected[k]) {
        RefusedHere(transactions, expected, i, seen);
        return false;
      }
      AcceptedHere(transactions, expected, i, seen);
      seen := seen + {t.chain};
    }
    AllAccepted(transactions, expected);
    ok := true;
  }

  /**
   The answer is accepted exactly when it names this bundle and its destinations are a
   permutation of the signed calls: none missing, none added, none repeated, none altered. That
   is when there are as many as were signed and each signed call is reported with its own
   chain, uuid, target, calldata and value.
   */
  method VerifyBundleIdentity(uuid: Uuid, bundle: Bundle, expected: seq<Expected>) returns (ok: bool)
    requires Usable(expected)
    ensures ok <==> bundle.uuid == uuid && bundle.transactions.Some? && Permutation(bundle.transactions.value, expected)
    ensures ok <==> bundle.uuid == uuid && bundle.transactions.Some? && ReportsEach(bundle.transactions.value, expected)
  {
    if bundle.uuid != uuid || bundle.transactions.None? { return false; }
    PermutationExactly(bundle.transactions.value, expected);
    ok := MatchDestinations(bundle.transactions.value, expected);
  }

  lemma {:induction false} AllAccepted(transactions: seq<Reported>, expected: seq<Expected>)
    requires |transactions| == |expected|
    requires multiset(Claims(transactions[..|transactions|])) <= multiset(Signed(expected))
    ensures Permutation(transactions, expected)
  {
    assert transactions[..|transactions|] == transactions;
    PermutationSize(transactions, expected);
    FullSubmultiset(multiset(Claims(transactions)), multiset(Signed(expected)));
  }

  // The chains of the first destinations.
  function ChainsBefore(transactions: seq<Reported>, i: nat): set<ChainId>
    requires i <= |transactions|
  {
    set j | 0 <= j < i :: transactions[j].chain
  }

  lemma {:induction false} RefusedHere(transactions: seq<Reported>, expected: seq<Expected>, i: nat, seen: set<ChainId>)
    requires DistinctChains(expected) && i < |transactions| && seen == ChainsBefore(transactions, i)
    requires var k := Find(expected, transactions[i].chain);
             k == |expected| || transactions[i].chain in seen || Claim(transactions[i]) != Some(expected[k])
    ensures !Permutation(transactions, expected)
  {
    RefusedIsNoPermutation(transactions, expected, i);
  }

  lemma {:induction false} AcceptedHere(
    transactions: seq<Reported>, expected: seq<Expected>, i: nat, seen: set<ChainId>)
    requires DistinctChains(expected) && i < |transactions| && seen == ChainsBefore(transactions, i)
    requires multiset(Claims(transactions[..i])) <= multiset(Signed(expected))
    requires var k := Find(expected, transactions[i].chain);
             k < |expected| && transactions[i].chain !in seen && Claim(transactions[i]) == Some(expected[k])
    ensures multiset(Claims(transactions[..i + 1])) <= multiset(Signed(expected))
    ensures seen + {transactions[i].chain} == ChainsBefore(transactions, i + 1)
  {
    AcceptedFits(transactions, expected, i, Find(expected, transactions[i].chain));
  }

  lemma AcceptedFits(transactions: seq<Reported>, expected: seq<Expected>, i: nat, k: nat)
    requires DistinctChains(expected) && i < |transactions| && k < |expected|
    requires Claim(transactions[i]) == Some(expected[k])
    requires forall j | 0 <= j < i :: transactions[j].chain != transactions[i].chain
    requires multiset(Claims(transactions[..i])) <= multiset(Signed(expected))
    ensures multiset(Claims(transactions[..i + 1])) <= multiset(Signed(expected))
  {
    ClaimsExtend(transactions, i);
    SignedOnce(expected, k);
    var claims := Claims(transactions[..i]);
    forall c | c in claims ensures c != Some(expected[k]) {
      var j :| 0 <= j < i && claims[j] == c;
      assert c == Claim(transactions[j]);
    }
    assert multiset(claims)[Some(expected[k])] == 0;
  }

  predicate ReceiptMatches(chains: Chains, t: Reported, e: Expected) {
    && t.hash.Some? && (e.chain, t.hash.value) in chains
    && var x := chains[(e.chain, t.hash.value)];
       && x.target == Some(e.target) && x.data == e.data && x.value == e.value && x.canonical && x.succeeded
       && x.guardsHold
  }

  // On the chain of the call, this hash is a canonical, successful transaction with exactly the
  // signed target, calldata and value, and the checks of its action held.
  predicate ExecutedAs(chains: Chains, e: Expected, hash: Hash) {
    && (e.chain, hash) in chains
    && chains[(e.chain, hash)] == Onchain(Some(e.target), e.data, e.value, true, true, true)
  }

  // The chain's transaction under the reported hash is the signed call, and it succeeded.
  ghost predicate Executed(chains: Chains, expected: seq<Expected>, t: Reported) {
    exists e | e in expected :: SameCall(t, e) && t.hash.Some? && ExecutedAs(chains, e, t.hash.value)
  }

  // `verifyDestinationReceipts`, on a bundle whose identity was verified.
  method VerifyDestinationReceipts(transactions: seq<Reported>, expected: seq<Expected>, chains: Chains)
    returns (ok: bool)
    requires Usable(expected) && Permutation(transactions, expected)
    ensures ok <==> forall t | t in transactions :: Executed(chains, expected, t)
  {
    for i := 0 to |transactions|
      invariant forall j | 0 <= j < i :: Executed(chains, expected, transactions[j])
    {
      var t := transactions[i];
      var k := FindClaimed(transactions, expected, i);
      NoOtherCall(expected, t, k);
      if !ReceiptMatches(chains, t, expected[k]) {
        assert t in transactions;
        return false;
      }
    }
    ok := true;
  }

  lemma NoOtherCall(expected: seq<Expected>, t: Reported, k: nat)
    requires DistinctChains(expected) && k < |expected| && SameCall(t, expected[k])
    ensures forall e | e in expected && SameCall(t, e) :: e == expected[k]
  {
  }

  // In a permutation the signed call found by its chain is the one a destination claims.
  function FindClaimed(transactions: seq<Reported>, expected: seq<Expected>, i: nat): (k: nat)
    requires DistinctChains(expected) && Permutation(transactions, expected) && i < |transactions|
    ensures k < |expected| && SameCall(transactions[i], expected[k])
  {
    ClaimedIn(transactions, i);
    SignedMember(expected, Claim(transactions[i]));
    Find(expected, transactions[i].chain)
  }

  // `bundle.transactions.find` by the chain of a call.
  method FindTransaction(transactions: seq<Reported>, chain: ChainId) returns (i: nat)
    ensures i <= |transactions|
    ensures i < |transactions| ==> transactions[i].chain == chain
    ensures forall k | 0 <= k < i :: transactions[k].chain != chain
  {
    i := 0;
    while i < |transactions| && transactions[i].chain != chain
      invariant i <= |transactions| && forall k | 0 <= k < i :: transactions[k].chain != chain
    {
      i := i + 1;
    }
  }

  // Of a permutation, some destination claims each signed call.
  lemma EveryCallClaimed(transactions: seq<Reported>, expected: seq<Expected>, k: nat) returns (i: nat)
    requires Permutation(transactions, expected) && k < |expected|
    ensures i < |transactions| && SameCall(transactions[i], expected[k])
  {
    assert Signed(expected)[k] == Some(expected[k]);
    assert Some(expected[k]) in multiset(Claims(transactions));
    i :| 0 <= i < |Claims(transactions)| && Claims(transactions)[i] == Some(expected[k]);
  }

  predicate ReportedFor(transactions: seq<Reported>, e: Expected, hash: Hash) {
    exists i | 0 <= i < |transactions| :: SameCall(transactions[i], e) && transactions[i].hash == Some(hash)
  }

  /**
   The hashes recorded for a round, whatever order its calls were signed in: the hash of the
   round's call `indices[p]` is the one reported for exactly the call signed for its chain.
   */
  method RecordHashes(calls: seq<ChainId>, indices: seq<nat>, transactions: seq<Reported>, expected: seq<Expected>)
    returns (hashes: Option<seq<Hash>>)
    requires Usable(expected) && Permutation(transactions, expected)
    requires forall p | 0 <= p < |indices| ::
               indices[p] < |calls| && Find(expected, calls[indices[p]]) < |expected|
    ensures hashes.Some? ==> |hashes.value| == |indices|
    ensures hashes.Some? ==> forall p | 0 <= p < |indices| ::
              ReportedFor(transactions, expected[Find(expected, calls[indices[p]])], hashes.value[p])
    ensures hashes.None? ==> exists t :: t in transactions && t.hash.None?
  {
    var found: seq<Hash> := [];
    for p := 0 to |indices|
      invariant |found| == p
      invariant forall q | 0 <= q < p ::
                  ReportedFor(transactions, expected[Find(expected, calls[indices[q]])], found[q])
    {
      var i := FindTransaction(transactions, calls[indices[p]]);
      FoundIsClaimed(transactions, expected, Find(expected, calls[indices[p]]), i);
      var t := transactions[i];
      assert t in transactions;
      if t.hash.None? {
        return None;
      }
      found := found + [t.hash.value];
    }
    hashes := Some(found);
  }

  lemma FoundIsClaimed(transactions: seq<Reported>, expected: seq<Expected>, p: nat, i: nat)
    requires DistinctChains(expected) && Permutation(transactions, expected) && p < |expected| && i <= |transactions|
    requires i < |transactions| ==> transactions[i].chain == expected[p].chain
    requires forall k | 0 <= k < i :: transactions[k].chain != expected[p].chain
    ensures i < |transactions| && SameCall(transactions[i], expected[p])
  {
    var j := EveryCallClaimed(transactions, expected, p);
    if i < j {
      PermutationChains(transactions, expected, i, j);
    }
  }

  /**
   With the rounds of `MakeBatchRounds`, the requests of a round are on distinct chains, so what
   a round signs is always usable to identify its bundle.
   */
  lemma RoundIsUsable(chains: seq<ChainId>, rounds: seq<seq<nat>>, r: nat, expected: seq<Expected>)
    requires Schedules(chains, rounds) && r < |rounds| && |expected| == |rounds[r]|
    requires forall p | 0 <= p < |expected| :: rounds[r][p] < |chains| && expected[p].chain == chains[rounds[r][p]]
    ensures Usable(expected)
  {
    forall p, q | 0 <= p < q < |expected| ensures expected[p].chain != expected[q].chain {
      assert Ascending(rounds[r]);
      if expected[p].chain == expected[q].chain {
        OneCallAChain(chains, rounds, r, r, rounds[r][p], rounds[r][q]);
      }
    }
  }

  /** A hash recorded for a call of a verified bundle executed exactly that call. */
  lemma RecordedHashExecutedTheCall(
    transactions: seq<Reported>, expected: seq<Expected>, chains: Chains, p: nat, hash: Hash)
    requires p < |expected| && ReportedFor(transactions, expected[p], hash)
    requires forall t | t in transactions :: Executed(chains, expected, t)
    ensures ExecutedAs(chains, expected[p], hash)
  {
    var i :| 0 <= i < |transactions| && SameCall(transactions[i], expected[p])
      && transactions[i].hash == Some(hash);
    assert transactions[i] in transactions;
  }
}
