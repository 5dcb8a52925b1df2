/**
 When an authority on another chain is the same as one on Ethereum
 (web/src/lib/cross-chain-authority.ts): the Safe releases that are recognized, the comparison
 of two live identities, and the verdict drawn from it.
 */
module CrossChainAuthority {
  import opened Prelude

  // Addresses as numbers, so checksum casing is gone; an owner is None when its text is not an
  // address.
  type Address = nat
  type CodeHash = nat
  type Owner = Option<Address>

  const ZERO: Address := 0
  const MAX_SAFE_OWNERS := 50

  datatype Version = V130 | V141
  datatype Release = Release(version: Version, singletons: seq<Address>, factories: seq<Address>)

  const L1_141: Address := 0x41675C099F32341bf84BFc5382aF534df5C7461a
  const L2_141: Address := 0x29fcB43b46531BcA003ddC8FCB67FFE91900C762

  const RELEASES: seq<Release> := [
    Release(V130,
            [0xd9Db270c1B5E3Bd161E8c8503c55cEABeE709552, 0x69f4D1788e39c87893C980c06EdF4b7f686e2938,
             0x3E5c63644E683549055b9Be8653de26E0B4CD36E, 0xfb1bffC9d739B8D520DaF37dF666da4C687191EA],
            [0xa6B71E26C5e0845f74c812102Ca7114b6a896AB2, 0xC22834581EbC8527d974F8a1c97E1bEA4EF910BC]),
    Release(V141, [L1_141, L2_141], [0x4e1DCf7AD4e460CfD30791CCC4F9c8a4f820ec67])]

  const PROXY_CODE_HASHES: set<CodeHash> := {
    0xb89c1b3bdf2cf8827818646bce9a8f6e372885f8c55e5c07acbd307cb133b000,
    0xd7d408ebcd99b2b70be43e20253d6d92a8ea8fab29bd3be7f55b10032331fb4c}

  const PAIRS: seq<(Address, Address)> := [(L1_141, L2_141)]

  datatype SafeIdentity = SafeIdentity(
    proxyCodeHash: CodeHash,
    singleton: Address,
    singletonCodeHash: CodeHash,
    version: Version,
    owners: seq<Owner>,
    threshold: int,
    fallbackHandler: Address,
    fallbackHandlerCodeHash: Option<CodeHash>,
    guard: Address,
    hasModules: bool,
    ownersAreEoas: bool)

  datatype Authority = Eoa(delegation: Option<Address>) | Contract | Safe(id: SafeIdentity)

  // ---------------------------------------------------------------- releases

  function ReleaseOf(singleton: Address): Option<Release> {
    if singleton in RELEASES[0].singletons then Some(RELEASES[0])
    else if singleton in RELEASES[1].singletons then Some(RELEASES[1])
    else None
  }

  function RecognizedVersion(singleton: Address): Option<Version> {
    if ReleaseOf(singleton).Some? then Some(ReleaseOf(singleton).value.version) else None
  }

  predicate RecognizedDeployment(factory: Address, singleton: Address) {
    ReleaseOf(singleton).Some? && factory in ReleaseOf(singleton).value.factories
  }

  function PairedL2(singleton: Address): Option<Address> { if singleton == PAIRS[0].0 then Some(PAIRS[0].1) else None }

  predicate Equivalent(left: Address, right: Address) {
    left == right || (left, right) in PAIRS || (right, left) in PAIRS
  }

  /** Equivalent singletons are of one recognized release, or equally unrecognized. */
  lemma EquivalentVersions(left: Address, right: Address)
    requires Equivalent(left, right)
    ensures RecognizedVersion(left) == RecognizedVersion(right) && Equivalent(right, left)
  {
    assert PAIRS[0] == (L1_141, L2_141);
    assert RELEASES[1].singletons == [L1_141, L2_141];
    assert L1_141 in RELEASES[1].singletons && L2_141 in RELEASES[1].singletons;
  }

  // One pair only, so two steps between equivalent singletons never lead further than one.
  lemma EquivalentTransitive(a: Address, b: Address, c: Address)
    requires Equivalent(a, b) && Equivalent(b, c)
    ensures Equivalent(a, c)
  {
  }

  lemma EquivalentSymmetric()
    ensures forall left, right :: Equivalent(left, right) == Equivalent(right, left)
  {
  }

  // ---------------------------------------------------------------- owner sets

  // The owners as a set, when the list is usable: not empty, not too long, every owner a
  // non-zero address, nobody twice.
  ghost predicate UsableOwners(owners: multiset<Owner>, limit: Option<nat>) {
    && |owners| > 0 && (limit.Some? ==> |owners| <= limit.value)
    && None !in owners && Some(ZERO) !in owners
    && Once(owners)
  }

  ghost predicate Once(owners: multiset<Owner>) { forall x :: owners[x] <= 1 }

  ghost function OwnerSet(owners: seq<Owner>, limit: Option<nat>): Option<set<Address>> {
    if UsableOwners(multiset(owners), limit) then Some(Values(owners)) else None
  }

  ghost function Values(owners: seq<Owner>): set<Address> {
    set x | x in multiset(owners) && x.Some? :: x.value
  }

  ghost predicate Increasing(s: seq<Address>) { forall i, j | 0 <= i < j < |s| :: s[i] < s[j] }

  function Elements(s: seq<Address>): set<Address> { set x | x in s }

  // `x` put in its place in a sorted list, unless it is there.
  method Insert(s: seq<Address>, x: Address) returns (t: seq<Address>)
    requires Increasing(s)
    ensures Increasing(t) && Elements(t) == Elements(s) + {x}
    ensures |t| == if x in s then |s| else |s| + 1
  {
    var k := 0;
    while k < |s| && s[k] < x
      invariant k <= |s| && forall i | 0 <= i < k :: s[i] < x
    {
      k := k + 1;
    }
    if k < |s| && s[k] == x {
      t := s;
    } else {
      InsertAt(s, k, x);
      t := s[..k] + [x] + s[k..];
    }
  }

  lemma InsertAt(s: seq<Address>, k: nat, x: Address)
    requires Increasing(s) && k <= |s| && (forall i | 0 <= i < k :: s[i] < x) && (k < |s| ==> x < s[k])
    ensures x !in s && Increasing(s[..k] + [x] + s[k..])
    ensures Elements(s[..k] + [x] + s[k..]) == Elements(s) + {x}
  {
    var t := s[..k] + [x] + s[k..];
    forall i | k <= i < |s| ensures x < s[i] {
    }
    forall y ensures y in t <==> y in s || y == x {
      assert s == s[..k] + s[k..];
    }
  }

  // One more owner: the values, and whether everybody still occurs once.
  lemma AnotherOwner(owners: seq<Owner>, n: nat)
    requires n < |owners| && owners[n].Some?
    ensures Values(owners[..n + 1]) == Values(owners[..n]) + {owners[n].value}
    ensures owners[n].value in Values(owners[..n]) <==> owners[n] in multiset(owners[..n])
    ensures Once(multiset(owners[..n + 1])) <==> owners[n] !in multiset(owners[..n]) && Once(multiset(owners[..n]))
  {
    var m := multiset(owners[..n]);
    assert owners[..n + 1] == owners[..n] + [owners[n]];
    assert multiset(owners[..n + 1]) == m + multiset{owners[n]};
    forall x ensures m[x] <= (m + multiset{owners[n]})[x] {
    }
  }

  /**
   `ownerSet` and `normalizedOwnerSet`: the owners deduplicated and sorted, or nothing when that
   drops one or any is unusable. It is the increasing list of `OwnerSet`.
   */
  method NormalizedOwnerSet(owners: seq<Owner>, limit: Option<nat>) returns (r: Option<seq<Address>>)
    ensures r.Some? <==> OwnerSet(owners, limit).Some?
    ensures r.Some? ==> Increasing(r.value) && Elements(r.value) == OwnerSet(owners, limit).value
  {
    if owners == [] || (limit.Some? && |owners| > limit.value) { return None; }
    var unique: seq<Address> := [];
    for n := 0 to |owners|
      invariant None !in owners[..n] && Some(ZERO) !in owners[..n]
      invariant Increasing(unique) && Elements(unique) == Values(owners[..n]) && |unique| <= n
      invariant |unique| == n <==> Once(multiset(owners[..n]))
    {
      var owner := owners[n];
      if owner.None? || owner.value == ZERO {
        assert owner in multiset(owners);
        return None;
      }
      AnotherOwner(owners, n);
      assert owner.value in unique <==> owner.value in Elements(unique);
      unique := Insert(unique, owner.value);
    }
    assert owners[..|owners|] == owners;
    r := if |unique| == |owners| then Some(unique) else None;
  }

  lemma NoElements(a: seq<Address>)
    ensures a == [] <==> Elements(a) == {}
  {
    if a != [] {
      assert a[0] in Elements(a);
    }
  }

  // Two increasing lists of the same elements are the same list.
  lemma {:induction false} IncreasingUnique(a: seq<Address>, b: seq<Address>)
    requires Increasing(a) && Increasing(b) && Elements(a) == Elements(b)
    ensures a == b
  {
    NoElements(a);
    NoElements(b);
    if a != [] {
      LeastFirst(a, b);
      LeastFirst(b, a);
      TailElements(a);
      TailElements(b);
      IncreasingUnique(a[1..], b[1..]);
    }
  }

  lemma LeastFirst(a: seq<Address>, b: seq<Address>)
    requires Increasing(a) && a != [] && b != [] && Elements(a) == Elements(b)
    ensures a[0] <= b[0]
  {
    assert b[0] in Elements(b);
    var i :| 0 <= i < |a| && a[i] == b[0];
  }

  lemma TailElements(a: seq<Address>)
    requires Increasing(a) && a != []
    ensures Elements(a[1..]) == Elements(a) - {a[0]}
  {
    assert a == [a[0]] + a[1..];
  }

  /** The element by element comparison of two normalized lists compares the owner sets. */
  method SameOwners(left: seq<Owner>, right: seq<Owner>, limit: Option<nat>) returns (same: bool)
    ensures same <==> OwnerSet(left, limit).Some? && OwnerSet(left, limit) == OwnerSet(right, limit)
  {
    var a := NormalizedOwnerSet(left, limit);
    var b := NormalizedOwnerSet(right, limit);
    if a.None? || b.None? { return false; }
    if Elements(a.value) == Elements(b.value) {
      IncreasingUnique(a.value, b.value);
    }
    if |a.value| != |b.value| { return false; }
    for i := 0 to |a.value|
      invariant forall k | 0 <= k < i :: a.value[k] == b.value[k]
    {
      if a.value[i] != b.value[i] { return false; }
    }
    assert a.value == b.value;
    same := true;
  }

  // ---------------------------------------------------------------- identities

  ghost predicate SafesMatch(a: SafeIdentity, b: SafeIdentity) {
    var owners := OwnerSet(a.owners, Some(MAX_SAFE_OWNERS));
    && owners.Some? && owners == OwnerSet(b.owners, Some(MAX_SAFE_OWNERS))
    && a.ownersAreEoas && b.ownersAreEoas
    && !a.hasModules && !b.hasModules
    && a.guard == ZERO && b.guard == ZERO
    && Equivalent(a.singleton, b.singleton)
    && a.proxyCodeHash == b.proxyCodeHash
    && (a.singleton == b.singleton ==> a.singletonCodeHash == b.singletonCodeHash)
    && a.version == b.version
    && a.fallbackHandler == b.fallbackHandler
    && a.fallbackHandlerCodeHash == b.fallbackHandlerCodeHash
    && a.threshold == b.threshold
  }

  // `authorityIdentitiesMatch`
  ghost predicate Match(source: Authority, destination: Authority) {
    if source.Eoa? || destination.Eoa? then source.Eoa? && destination.Eoa?
    else source.Safe? && destination.Safe? && SafesMatch(source.id, destination.id)
  }

  /** The comparison does not depend on which side is which. */
  lemma MatchSymmetric(a: Authority, b: Authority)
    ensures Match(a, b) <==> Match(b, a)
  {
    EquivalentSymmetric();
  }

  /** Nor on the order of the owners. */
  lemma MatchIgnoresOwnerOrder(a: SafeIdentity, b: SafeIdentity, owners: seq<Owner>)
    requires multiset(owners) == multiset(a.owners)
    ensures SafesMatch(a.(owners := owners), b) <==> SafesMatch(a, b)
  {
    assert Values(owners) == Values(a.owners);
  }

  // A policy that can match anything at all.
  ghost predicate Acceptable(a: SafeIdentity) {
    OwnerSet(a.owners, Some(MAX_SAFE_OWNERS)).Some? && a.ownersAreEoas && !a.hasModules && a.guard == ZERO
  }

  /**
   What the comparison says, exactly: both Safes are acceptable, they have the same owners in
   whatever order, and they are the same in everything else but the singleton, which may be the
   paired one; on one singleton its code is the same too.
   */
  lemma MatchExactly(a: SafeIdentity, b: SafeIdentity)
    ensures SafesMatch(a, b) <==>
        && Acceptable(a) && Acceptable(b)
        && OwnerSet(a.owners, Some(MAX_SAFE_OWNERS)) == OwnerSet(b.owners, Some(MAX_SAFE_OWNERS))
        && a.(owners := b.owners, singleton := b.singleton, singletonCodeHash := b.singletonCodeHash) == b
        && (if a.singleton == b.singleton then a.singletonCodeHash == b.singletonCodeHash
            else (a.singleton, b.singleton) in {(L1_141, L2_141), (L2_141, L1_141)})
  {
    assert PAIRS[0] == (L1_141, L2_141);
  }

  /** What matches is acceptable, and an acceptable Safe matches itself. */
  lemma MatchNeedsAcceptable(a: SafeIdentity, b: SafeIdentity)
    ensures SafesMatch(a, b) ==> Acceptable(a) && Acceptable(b)
    ensures SafesMatch(a, a) <==> Acceptable(a)
  {
  }

  /**
   Two matches compose exactly when the outer Safes, if they share a singleton, share its code:
   that comparison is skipped when the one between them is on the paired singleton.
   */
  lemma MatchComposes(a: SafeIdentity, b: SafeIdentity, c: SafeIdentity)
    requires SafesMatch(a, b) && SafesMatch(b, c)
    ensures SafesMatch(a, c) <==> (a.singleton == c.singleton ==> a.singletonCodeHash == c.singletonCodeHash)
  {
    EquivalentTransitive(a.singleton, b.singleton, c.singleton);
  }

  /**
   So the comparison is not transitive: two Safes on the Ethereum singleton whose singleton code
   differs each match the same Safe on the paired L2 singleton, but not each other.
   */
  lemma MatchNotTransitive(a: SafeIdentity, otherHash: CodeHash)
    requires Acceptable(a) && a.singleton == L1_141 && otherHash != a.singletonCodeHash
    ensures var b, c := a.(singleton := L2_141), a.(singletonCodeHash := otherHash);
            SafesMatch(a, b) && SafesMatch(b, c) && !SafesMatch(a, c)
  {
    assert PAIRS[0] == (L1_141, L2_141);
    assert (L1_141, L2_141) in PAIRS;
  }

  // ---------------------------------------------------------------- the verdict

  datatype Status =
    | ValidLocal | ValidEoa | ValidSafe
    | MissingMainnetSafe | SourceContract | MainnetContract | AuthorityMismatch
    | UnsafeSafePolicy | ContractOwner | Unknown

  predicate Allowed(s: Status) { s.ValidLocal? || s.ValidEoa? || s.ValidSafe? }

  // `readCrossChainHandleAuthority` on what the two chains answered; None is a failed read.
  ghost function Verdict(sourceChain: nat, source: Option<Authority>, mainnet: Option<Authority>,
      ownersAreMainnetEoas: Option<bool>): Status
  {
    if sourceChain == 1 then ValidLocal
    else if source.None? || mainnet.None? then Unknown
    else match source.value
      case Contract => SourceContract
      case Eoa(_) =>
        (match mainnet.value
         case Eoa(_) => ValidEoa
         case Contract => MainnetContract
         case Safe(_) => AuthorityMismatch)
      case Safe(s) =>
        if !s.ownersAreEoas then ContractOwner
        else if s.hasModules || s.guard != ZERO then UnsafeSafePolicy
        else match mainnet.value
          case Eoa(delegation) =>
            if delegation.Some? then AuthorityMismatch
            else if ownersAreMainnetEoas.None? then Unknown
            else if !ownersAreMainnetEoas.value then ContractOwner
            else MissingMainnetSafe
          case Contract => MainnetContract
          case Safe(m) =>
            if !m.ownersAreEoas then ContractOwner
            else if m.hasModules || m.guard != ZERO then UnsafeSafePolicy
            else if Match(source.value, mainnet.value) then ValidSafe
            else AuthorityMismatch
  }

  /** An authority of another chain is allowed exactly when both reads succeeded and match. */
  lemma AllowedIffMatch(sourceChain: nat, source: Option<Authority>, mainnet: Option<Authority>, owners: Option<bool>)
    ensures Allowed(Verdict(sourceChain, source, mainnet, owners))
       <==> sourceChain == 1 || (source.Some? && mainnet.Some? && Match(source.value, mainnet.value))
  {
  }

  // A Safe of another chain with a policy that may be deployed where nothing is yet.
  predicate NotDeployedYet(sourceChain: nat, source: Option<Authority>, mainnet: Option<Authority>) {
    && sourceChain != 1 && source.Some? && source.value.Safe? && mainnet == Some(Eoa(None))
    && source.value.id.ownersAreEoas && !source.value.id.hasModules && source.value.id.guard == ZERO
  }

  /**
   A Safe may be deployed on Ethereum exactly where there is no code, its policy would be
   acceptable and its owners are EOAs there; nothing is known exactly when a read failed that
   the verdict needs.
   */
  lemma MissingExactlyWhenDeployable(sourceChain: nat, source: Option<Authority>, mainnet: Option<Authority>,
      owners: Option<bool>)
    ensures Verdict(sourceChain, source, mainnet, owners).MissingMainnetSafe?
       <==> NotDeployedYet(sourceChain, source, mainnet) && owners == Some(true)
    ensures Verdict(sourceChain, source, mainnet, owners).Unknown? <==>
        || (sourceChain != 1 && (source.None? || mainnet.None?))
        || (NotDeployedYet(sourceChain, source, mainnet) && owners.None?)
  {
  }
}
