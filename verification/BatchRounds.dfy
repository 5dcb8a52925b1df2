/**
 How a batch is split into rounds (`makeBatchRounds`, web/src/lib/multichain-batch.ts:133-143):
 one call per chain in each round, so that one Relayr bundle can carry the round.
 */
module BatchRounds {
  import opened Prelude
  import opened Identities

  // How often a chain occurs.
  function Count(chains: seq<ChainId>, chain: ChainId): nat {
    if chains == [] then 0 else Count(chains[..|chains| - 1], chain) + if chains[|chains| - 1] == chain then 1 else 0
  }

  // The round of call `i`: how many earlier calls share its chain.
  function RoundOf(chains: seq<ChainId>, i: nat): nat
    requires i < |chains|
  {
    Count(chains[..i], chains[i])
  }

  ghost predicate Ascending(indices: seq<nat>) {
    forall p, q | 0 <= p < q < |indices| :: indices[p] < indices[q]
  }

  predicate InRound(chains: seq<ChainId>, i: nat, r: nat) { i < |chains| && RoundOf(chains, i) == r }

  predicate PlacedIn(chains: seq<ChainId>, rounds: seq<seq<nat>>, i: nat)
    requires i < |chains|
  {
    RoundOf(chains, i) < |rounds| && i in rounds[RoundOf(chains, i)]
  }

  // `rounds` lists, in order, exactly the calls of each round, and has no empty round.
  ghost predicate Schedules(chains: seq<ChainId>, rounds: seq<seq<nat>>) {
    && (forall r | 0 <= r < |rounds| :: rounds[r] != [] && Ascending(rounds[r]))
    && (forall r | 0 <= r < |rounds| :: forall i | i in rounds[r] :: InRound(chains, i, r))
    && (forall i: nat | i < |chains| :: PlacedIn(chains, rounds, i))
  }

  lemma RoundOfPrefix(chains: seq<ChainId>, n: nat, i: nat)
    requires i < n <= |chains|
    ensures RoundOf(chains[..n], i) == RoundOf(chains, i)
  {
    assert chains[..n][..i] == chains[..i];
  }

  lemma AddCall(chains: seq<ChainId>, n: nat, rounds: seq<seq<nat>>, round: nat)
    requires n < |chains| && Schedules(chains[..n], rounds) && round == RoundOf(chains, n) <= |rounds|
    ensures var grown := if round == |rounds| then rounds + [[]] else rounds;
            Schedules(chains[..n + 1], grown[round := grown[round] + [n]])
  {
    var grown := if round == |rounds| then rounds + [[]] else rounds;
    var next := grown[round := grown[round] + [n]];
    var prior := grown[round];
    forall i: nat | i <= n
      ensures RoundOf(chains[..n + 1], i) == RoundOf(chains, i)
      ensures i < n ==> RoundOf(chains[..n], i) == RoundOf(chains, i)
    {
      RoundOfPrefix(chains, n + 1, i);
      if i < n { RoundOfPrefix(chains, n, i); }
    }
    assert next[round] == prior + [n];
    assert forall i | i in prior :: InRound(chains[..n], i, round);
    assert Ascending(prior + [n]) by {
      forall p | 0 <= p < |prior| ensures prior[p] < n {
        assert prior[p] in prior;
      }
    }
    forall r | 0 <= r < |next| ensures next[r] != [] && Ascending(next[r]) {
      if r != round { assert next[r] == rounds[r]; }
    }
    forall r, i | 0 <= r < |next| && i in next[r] ensures InRound(chains[..n + 1], i, r) {
      if i != n {
        assert i in grown[r];
        assert InRound(chains[..n], i, r);
      }
    }
    var more := chains[..n + 1];
    forall i: nat | i < n + 1 ensures PlacedIn(more, next, i) {
      if i < n {
        assert PlacedIn(chains[..n], rounds, i);
      }
    }
  }

  // A round is opened only after the ones before it.
  lemma {:induction false} RoundReachable(chains: seq<ChainId>, n: nat, rounds: seq<seq<nat>>, chain: ChainId)
    requires n <= |chains| && Schedules(chains[..n], rounds)
    ensures Count(chains[..n], chain) <= |rounds|
  {
    var i := n;
    while i > 0 && chains[i - 1] != chain
      invariant 0 <= i <= n && Count(chains[..i], chain) == Count(chains[..n], chain)
    {
      assert chains[..i][..i - 1] == chains[..i - 1];
      i := i - 1;
    }
    if i > 0 {
      assert chains[..i][..i - 1] == chains[..i - 1];
      RoundOfPrefix(chains, n, i - 1);
      assert PlacedIn(chains[..n], rounds, i - 1);
    }
  }

  method MakeBatchRounds(chains: seq<ChainId>) returns (rounds: seq<seq<nat>>)
    ensures Schedules(chains, rounds)
  {
    rounds := [];
    var occurrences: map<ChainId, nat> := map[];
    for index := 0 to |chains|
      invariant Schedules(chains[..index], rounds)
      invariant forall c: ChainId :: (if c in occurrences then occurrences[c] else 0) == Count(chains[..index], c)
    {
      var chain := chains[index];
      var round := if chain in occurrences then occurrences[chain] else 0;
      RoundReachable(chains, index, rounds, chain);
      AddCall(chains, index, rounds, round);
      assert chains[..index + 1][..index] == chains[..index];
      occurrences := occurrences[chain := round + 1];
      if round == |rounds| {
        rounds := rounds + [[]];
      }
      rounds := rounds[round := rounds[round] + [index]];
    }
    assert chains[..|chains|] == chains;
  }

  // ---------------------------------------------------------------- what the rounds give

  lemma {:induction false} CountMonotone(chains: seq<ChainId>, i: nat, j: nat, chain: ChainId)
    requires i <= j <= |chains|
    ensures Count(chains[..i], chain) <= Count(chains[..j], chain)
    decreases j - i
  {
    if i < j {
      assert chains[..j][..j - 1] == chains[..j - 1];
      CountMonotone(chains, i, j - 1, chain);
    }
  }

  // Of two calls on one chain the later one is in a later round.
  lemma SameChainLater(chains: seq<ChainId>, i: nat, j: nat)
    requires i < j < |chains| && chains[i] == chains[j]
    ensures RoundOf(chains, i) < RoundOf(chains, j)
  {
    assert chains[..i + 1][..i] == chains[..i];
    CountMonotone(chains, i + 1, j, chains[i]);
  }

  /** Every call is in exactly one round, at exactly one place of it. */
  lemma ExactlyOneRound(chains: seq<ChainId>, rounds: seq<seq<nat>>, i: nat)
    requires Schedules(chains, rounds) && i < |chains|
    ensures exists r: nat, p: nat :: r < |rounds| && p < |rounds[r]| && rounds[r][p] == i
    ensures forall r: nat, p: nat, s: nat, q: nat ::
              && r < |rounds| && p < |rounds[r]| && rounds[r][p] == i && s < |rounds| && q < |rounds[s]|
              && rounds[s][q] == i
              ==> r == s && p == q
  {
    assert PlacedIn(chains, rounds, i);
    var home := rounds[RoundOf(chains, i)];
    var place :| 0 <= place < |home| && home[place] == i;
    forall r: nat, p: nat, s: nat, q: nat
      | r < |rounds| && s < |rounds| && p < |rounds[r]| && q < |rounds[s]| && rounds[r][p] == i && rounds[s][q] == i
      ensures r == s && p == q
    {
      assert InRound(chains, rounds[r][p], r) && InRound(chains, rounds[s][q], s);
      assert Ascending(rounds[r]);
    }
  }

  /** A round never holds two calls of one chain, and calls of one chain keep their order. */
  lemma OneCallAChain(chains: seq<ChainId>, rounds: seq<seq<nat>>, r: nat, s: nat, i: nat, j: nat)
    requires Schedules(chains, rounds) && r < |rounds| && s < |rounds|
    requires i in rounds[r] && j in rounds[s] && i < j < |chains| && chains[i] == chains[j]
    ensures r < s
  {
    SameChainLater(chains, i, j);
  }

  // Any other schedule: a round for each call, calls of one chain apart.
  ghost predicate Apart(chains: seq<ChainId>, slots: seq<nat>) {
    |slots| == |chains| && forall i, j | 0 <= i < j < |chains| && chains[i] == chains[j] :: slots[i] != slots[j]
  }

  // The slots of the calls of one chain among the first `n` calls.
  lemma {:induction false} SlotsOfChain(chains: seq<ChainId>, slots: seq<nat>, n: nat, chain: ChainId)
    returns (used: set<nat>)
    requires Apart(chains, slots) && n <= |chains|
    ensures |used| == Count(chains[..n], chain)
    ensures forall x | x in used :: exists i :: 0 <= i < n && chains[i] == chain && slots[i] == x
  {
    used := {};
    for i := 0 to n
      invariant |used| == Count(chains[..i], chain)
      invariant forall x | x in used :: exists k :: 0 <= k < i && chains[k] == chain && slots[k] == x
    {
      assert chains[..i + 1][..i] == chains[..i];
      if chains[i] == chain {
        assert slots[i] !in used;
        used := used + {slots[i]};
      }
    }
  }

  /** No schedule which keeps the calls of one chain apart has fewer rounds. */
  lemma FewestRounds(chains: seq<ChainId>, rounds: seq<seq<nat>>, slots: seq<nat>, m: nat)
    requires Schedules(chains, rounds) && Apart(chains, slots) && forall x | x in slots :: x < m
    ensures |rounds| <= m
  {
    if rounds != [] {
      var last := |rounds| - 1;
      var i := rounds[last][0];
      assert i in rounds[last] && InRound(chains, i, last);
      var used := SlotsOfChain(chains, slots, i + 1, chains[i]);
      assert chains[..i + 1][..i] == chains[..i];
      forall x | x in used ensures x < m {
        var k :| 0 <= k < i + 1 && chains[k] == chains[i] && slots[k] == x;
        assert slots[k] in slots;
      }
      SubsetBounded(used, m);
    }
  }
}
