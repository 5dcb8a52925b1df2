/**
 Replaying the creation of a Safe on Ethereum (web/src/lib/safeDeployment.ts): which creations
 are accepted for a live source Safe, what the destination must look like, and that the Safe
 this creates has the policy of the source.
 */
module SafeDeployment {
  import opened Prelude
  import opened CrossChainAuthority

  const SAFE_TO_L2_SETUP: Address := 0xBD89A1CE4DDe368FFAB0eC35506eEcE0b1fFdc54
  const SAFE_TO_L2_SETUP_CODE_HASH: CodeHash := 0x2f25df28caf984366ee584e13241707e85dcd5a6ea0c14267928dafc1fd6274b
  const PAYMENT_RECEIVER: Address := 0x5afe7a11e7000000000000000000000000000000

  // The bytes of the setup hook: none, `setupToL2` of one address, or anything else.
  datatype HookData = NoData | SetupToL2(l2Singleton: Address) | OtherData(bytes: string)

  // Decoded arguments of `setup`; `canonical` says that encoding them again gives the same bytes.
  datatype Setup = Setup(
    owners: seq<Address>,
    threshold: nat,
    to: Address,
    data: HookData,
    fallbackHandler: Address,
    paymentToken: Address,
    payment: nat,
    paymentReceiver: Address,
    canonical: bool)

  // The initializer is None when it does not decode as a call of `setup`.
  datatype Creation = Creation(factory: Address, singleton: Address, initializer: Option<Setup>, saltNonce: nat)

  datatype Validation =
    | Valid(owners: seq<Address>, threshold: nat, fallbackHandler: Address)
    | UnrecognizedDeployment | UnsafeCurrentPolicy
    | MalformedInitializer | InitializerPolicyMismatch | UnsafeInitializer

  function Owners(s: Setup): (owners: seq<Owner>)
    ensures |owners| == |s.owners|
  {
    seq(|s.owners|, i requires 0 <= i < |s.owners| => Some(s.owners[i]))
  }

  predicate ExactSetupToL2(data: HookData, singleton: Address) {
    PairedL2(singleton).Some? && data == SetupToL2(PairedL2(singleton).value)
  }

  predicate SafeCurrentPolicy(current: SafeIdentity) {
    && !current.hasModules && current.guard == ZERO && current.ownersAreEoas
    && current.proxyCodeHash in PROXY_CODE_HASHES
    && RecognizedVersion(current.singleton) == Some(current.version)
    && (current.fallbackHandler == ZERO <==> current.fallbackHandlerCodeHash.None?)
  }

  // `validateSafeCreationForCurrentPolicy`
  ghost function Validate(creation: Creation, current: SafeIdentity): Validation {
    if !RecognizedDeployment(creation.factory, creation.singleton) then UnrecognizedDeployment
    else if !SafeCurrentPolicy(current) then UnsafeCurrentPolicy
    else if !Equivalent(creation.singleton, current.singleton) then InitializerPolicyMismatch
    else if creation.initializer.None? || !creation.initializer.value.canonical then MalformedInitializer
    else
      var s := creation.initializer.value;
      var owners := OwnerSet(Owners(s), None);
      if owners.None? || s.threshold > MAX_SAFE_INTEGER || s.threshold == 0 || s.threshold > |s.owners| then
        MalformedInitializer
      else if || s.threshold != current.threshold
              || OwnerSet(current.owners, None) != owners
              || s.fallbackHandler != current.fallbackHandler then InitializerPolicyMismatch
      else if s.to == SAFE_TO_L2_SETUP && !ExactSetupToL2(s.data, creation.singleton) then UnsafeInitializer
      else if || (s.to != SAFE_TO_L2_SETUP && !(s.to == ZERO && s.data == NoData))
              || s.paymentToken != ZERO || s.payment != 0
              || (s.paymentReceiver != ZERO && s.paymentReceiver != PAYMENT_RECEIVER) then UnsafeInitializer
      else Valid(s.owners, s.threshold, s.fallbackHandler)
  }

  // ---------------------------------------------------------------- the destination

  // What `getBytecode` may answer: nothing, a complete EIP-7702 designator, code, or no bytes.
  datatype Code = NoCode | Delegation(implementation: Address) | Runtime(hash: CodeHash) | NotBytecode
  type Codes = Address -> Option<Code>

  predicate IsEoa(code: Code) { code.NoCode? || code.Delegation? }
  predicate HasBytecode(code: Code) { code.Delegation? || code.Runtime? }

  // keccak256 of a runtime; a designator is not the code of a singleton, library or handler.
  predicate HashIs(code: Code, hash: CodeHash) { code == Runtime(hash) }

  datatype Simulation =
    | Deployable
    | InvalidCreation | RpcError | AddressOccupied | FactoryUnavailable | SingletonUnavailable | SingletonMismatch
    | ContractOwner | FallbackHandlerUnavailable | DelegatedFallbackHandler | FallbackHandlerMismatch
    | SimulationFailed | UnexpectedAddress

  predicate Readable(codes: Codes, a: Address) { codes(a).Some? && !codes(a).value.NotBytecode? }

  function CodeAt(codes: Codes, a: Address): Code { if codes(a).Some? then codes(a).value else NoCode }

  predicate UsesSafeToL2Setup(creation: Creation) {
    creation.initializer.Some? && creation.initializer.value.to == SAFE_TO_L2_SETUP
  }

  // What must hold of the code on the destination chain.
  ghost predicate Ready(codes: Codes, creation: Creation, expectedSafe: Address, current: SafeIdentity) {
    && (forall o | o in current.owners :: o.Some? && (Codeless(codes(o.value)) || Delegated(codes(o.value))))
    && Codeless(codes(expectedSafe))
    && (Running(codes(creation.factory)) || Delegated(codes(creation.factory)))
    && (if creation.singleton == current.singleton
        then codes(creation.singleton) == Some(Runtime(current.singletonCodeHash))
        else Running(codes(creation.singleton)) || Delegated(codes(creation.singleton)))
    && Equivalent(creation.singleton, current.singleton)
    && codes(SAFE_TO_L2_SETUP).Some? && !codes(SAFE_TO_L2_SETUP).value.NotBytecode?
    && (creation.initializer.Some? && creation.initializer.value.to == SAFE_TO_L2_SETUP ==>
          codes(SAFE_TO_L2_SETUP) == Some(Runtime(SAFE_TO_L2_SETUP_CODE_HASH)))
    && (current.fallbackHandler != ZERO ==>
          && current.fallbackHandlerCodeHash.Some?
          && codes(current.fallbackHandler) == Some(Runtime(current.fallbackHandlerCodeHash.value)))
  }

  // What an address answered: no code, an EIP-7702 designator, or code.
  predicate Codeless(code: Option<Code>) { code == Some(NoCode) }
  predicate Delegated(code: Option<Code>) { code.Some? && code.value.Delegation? }
  predicate Running(code: Option<Code>) { code.Some? && code.value.Runtime? }

  // The same, as the code asks for it.
  ghost predicate Prepared(codes: Codes, creation: Creation, expectedSafe: Address, current: SafeIdentity) {
    && (forall o | o in current.owners :: o.Some? && Readable(codes, o.value) && IsEoa(CodeAt(codes, o.value)))
    && Readable(codes, expectedSafe) && !HasBytecode(CodeAt(codes, expectedSafe))
    && Readable(codes, creation.factory) && HasBytecode(CodeAt(codes, creation.factory))
    && Readable(codes, creation.singleton) && HasBytecode(CodeAt(codes, creation.singleton))
    && (creation.singleton == current.singleton ==>
      HashIs(CodeAt(codes, creation.singleton), current.singletonCodeHash))
    && Equivalent(creation.singleton, current.singleton)
    && Readable(codes, SAFE_TO_L2_SETUP)
    && (UsesSafeToL2Setup(creation) ==> HashIs(CodeAt(codes, SAFE_TO_L2_SETUP), SAFE_TO_L2_SETUP_CODE_HASH))
    && (current.fallbackHandler != ZERO ==>
          Readable(codes, current.fallbackHandler) && HasHandlerCode(current, CodeAt(codes, current.fallbackHandler)))
  }

  lemma ReadyIsPrepared(codes: Codes, creation: Creation, expectedSafe: Address, current: SafeIdentity)
    ensures Ready(codes, creation, expectedSafe, current) <==> Prepared(codes, creation, expectedSafe, current)
  {
    forall o: Owner | o.Some?
      ensures Readable(codes, o.value) && IsEoa(CodeAt(codes, o.value))
              <==> Codeless(codes(o.value)) || Delegated(codes(o.value))
    {
    }
  }

  // `getBytecode` of every address: true when each answer is well-formed.
  method ReadCodes(codes: Codes, addresses: seq<Address>) returns (ok: bool)
    ensures ok <==> forall a | a in addresses :: Readable(codes, a)
  {
    for i := 0 to |addresses|
      invariant forall k | 0 <= k < i :: Readable(codes, addresses[k])
    {
      if !Readable(codes, addresses[i]) { return false; }
    }
    ok := true;
  }

  method AllEoas(codes: Codes, owners: seq<Address>) returns (ok: bool)
    ensures ok <==> forall o | o in owners :: IsEoa(CodeAt(codes, o))
  {
    for i := 0 to |owners|
      invariant forall k | 0 <= k < i :: IsEoa(CodeAt(codes, owners[k]))
    {
      if !IsEoa(CodeAt(codes, owners[i])) { return false; }
    }
    ok := true;
  }

  /**
   `simulateSafeProxyDeployment`. `simulated` is what the factory call returned, None when it
   reverted. A wallet write may follow exactly when the creation is valid, the destination is
   ready and the factory returned the authority's own address.
   */
  method SimulateDeployment(creation: Creation, expectedSafe: Address, current: SafeIdentity, owners: seq<Address>,
      valid: bool,
                            codes: Codes, simulated: Option<Address>)
    returns (r: Simulation)
    requires valid <==> Validate(creation, current).Valid?
    requires valid ==> forall o :: o in owners <==> Some(o) in current.owners
    ensures r.Deployable? <==> valid && Ready(codes, creation, expectedSafe, current) && simulated == Some(expectedSafe)
    ensures r.InvalidCreation? <==> !valid
    ensures r.SimulationFailed? <==> valid && Ready(codes, creation, expectedSafe, current) && simulated.None?
    ensures r.UnexpectedAddress? <==>
        valid && Ready(codes, creation, expectedSafe, current) && simulated.Some? && simulated.value != expectedSafe
  {
    if !valid { return InvalidCreation; }
    CurrentOwnersKnown(creation, current);
    ReadyIsPrepared(codes, creation, expectedSafe, current);
    var fixed := [expectedSafe, creation.factory, creation.singleton, SAFE_TO_L2_SETUP];
    assert fixed[0] == expectedSafe && fixed[1] == creation.factory && fixed[2] == creation.singleton
      && fixed[3] == SAFE_TO_L2_SETUP;
    var read := ReadCodes(codes, fixed);
    var ownersRead := ReadCodes(codes, owners);
    if !read || !ownersRead { return RpcError; }
    if current.fallbackHandler != ZERO && !Readable(codes, current.fallbackHandler) { return RpcError; }
    var failure := CodeFailure(creation, expectedSafe, current, codes);
    if failure.Some? { return failure.value; }
    var eoas := AllEoas(codes, owners);
    if !eoas { return Simulation.ContractOwner; }
    failure := HandlerFailure(current, CodeAt(codes, current.fallbackHandler));
    if failure.Some? { return failure.value; }
    r := if simulated.None? then SimulationFailed
         else if simulated.value == expectedSafe then Deployable
         else UnexpectedAddress;
  }

  method CodeFailure(creation: Creation, expectedSafe: Address, current: SafeIdentity, codes: Codes)
    returns (r: Option<Simulation>)
    ensures r.None? <==>
              && !HasBytecode(CodeAt(codes, expectedSafe)) && HasBytecode(CodeAt(codes, creation.factory))
              && HasBytecode(CodeAt(codes, creation.singleton)) && Equivalent(creation.singleton, current.singleton)
              && (creation.singleton == current.singleton ==>
                HashIs(CodeAt(codes, creation.singleton), current.singletonCodeHash))
              && (UsesSafeToL2Setup(creation) ==> HashIs(CodeAt(codes, SAFE_TO_L2_SETUP), SAFE_TO_L2_SETUP_CODE_HASH))
    ensures r.Some? ==>
              || r.value.AddressOccupied? || r.value.FactoryUnavailable?
              || r.value.SingletonUnavailable? || r.value.SingletonMismatch?
    ensures r == Some(AddressOccupied) <==> HasBytecode(CodeAt(codes, expectedSafe))
  {
    if HasBytecode(CodeAt(codes, expectedSafe)) { return Some(AddressOccupied); }
    if !HasBytecode(CodeAt(codes, creation.factory)) { return Some(FactoryUnavailable); }
    var singletonCode := CodeAt(codes, creation.singleton);
    if !HasBytecode(singletonCode) { return Some(SingletonUnavailable); }
    if if creation.singleton == current.singleton then !HashIs(singletonCode, current.singletonCodeHash)
       else !Equivalent(creation.singleton, current.singleton) {
      return Some(SingletonMismatch);
    }
    if UsesSafeToL2Setup(creation) && !HashIs(CodeAt(codes, SAFE_TO_L2_SETUP), SAFE_TO_L2_SETUP_CODE_HASH) {
      return Some(SingletonMismatch);
    }
    r := None;
  }

  predicate HasHandlerCode(current: SafeIdentity, code: Code) {
    current.fallbackHandlerCodeHash.Some? && HashIs(code, current.fallbackHandlerCodeHash.value)
  }

  method HandlerFailure(current: SafeIdentity, code: Code) returns (r: Option<Simulation>)
    ensures r.None? <==> (current.fallbackHandler != ZERO ==> HasHandlerCode(current, code))
    ensures r.Some? ==>
              || r.value.FallbackHandlerUnavailable? || r.value.DelegatedFallbackHandler?
              || r.value.FallbackHandlerMismatch?
    ensures r == Some(DelegatedFallbackHandler) <==> current.fallbackHandler != ZERO && code.Delegation?
  {
    if current.fallbackHandler == ZERO { return None; }
    if !HasBytecode(code) { return Some(FallbackHandlerUnavailable); }
    if code.Delegation? { return Some(DelegatedFallbackHandler); }
    if current.fallbackHandlerCodeHash.None? || !HashIs(code, current.fallbackHandlerCodeHash.value) {
      return Some(FallbackHandlerMismatch);
    }
    r := None;
  }

  // The owners of a source Safe whose policy a valid creation reproduces are all addresses.
  lemma CurrentOwnersKnown(creation: Creation, current: SafeIdentity)
    requires Validate(creation, current).Valid?
    ensures forall o | o in current.owners :: o.Some?
  {
    forall o | o in current.owners ensures o.Some? {
      assert o in multiset(current.owners);
    }
  }

  // ---------------------------------------------------------------- the Safe this creates

  // A hook that leaves the policy alone on Ethereum: none, or the library which repoints the
  // singleton on every chain but Ethereum. Any other hook may install modules or a guard.
  predicate InertHook(s: Setup, singleton: Address) {
    (s.to == ZERO && s.data == NoData) || (s.to == SAFE_TO_L2_SETUP && ExactSetupToL2(s.data, singleton))
  }

  // The identity the initializer sets up behind a proxy with the given code.
  ghost function Created(creation: Creation, proxyCodeHash: CodeHash, codes: Codes): SafeIdentity
    requires creation.initializer.Some? && RecognizedVersion(creation.singleton).Some?
    requires CodeAt(codes, creation.singleton).Runtime?
    requires creation.initializer.value.fallbackHandler != ZERO ==>
        CodeAt(codes, creation.initializer.value.fallbackHandler).Runtime?
  {
    var s := creation.initializer.value;
    var inert := InertHook(s, creation.singleton);
    SafeIdentity(proxyCodeHash, creation.singleton, CodeAt(codes, creation.singleton).hash,
      RecognizedVersion(creation.singleton).value,
                 Owners(s), s.threshold, s.fallbackHandler,
                 if s.fallbackHandler == ZERO then None else Some(CodeAt(codes, s.fallbackHandler).hash),
                 if inert then ZERO else s.to, !inert, forall o | o in s.owners :: IsEoa(CodeAt(codes, o)))
  }

  lemma OwnersMembers(s: Setup)
    ensures forall o :: Some(o) in multiset(Owners(s)) <==> o in s.owners
  {
    forall o | o in s.owners ensures Some(o) in multiset(Owners(s)) {
      var i :| 0 <= i < |s.owners| && s.owners[i] == o;
      assert Owners(s)[i] == Some(o);
    }
  }

  // Without a limit and with it, an owner list is read alike as long as it is within it.
  lemma LimitOnly(owners: seq<Owner>)
    requires OwnerSet(owners, None).Some?
    ensures OwnerSet(owners, Some(MAX_SAFE_OWNERS))
            == if |owners| <= MAX_SAFE_OWNERS then OwnerSet(owners, None) else None
  {
  }

  lemma SameSize(a: seq<Owner>, b: seq<Owner>)
    requires OwnerSet(a, None).Some? && OwnerSet(a, None) == OwnerSet(b, None)
    ensures |a| == |b|
  {
    SizeOfSet(multiset(a));
    SizeOfSet(multiset(b));
  }

  lemma {:induction false} SizeOfSet(m: multiset<Owner>)
    requires None !in m && Once(m)
    ensures |m| == |set x | x in m && x.Some? :: x.value|
    decreases |m|
  {
    var values := set x | x in m && x.Some? :: x.value;
    if |m| == 0 {
      assert values == {};
    } else {
      var x :| x in m;
      var rest := m - multiset{x};
      assert m[x] == 1 && x !in rest;
      SizeOfSet(rest);
      assert values == (set y | y in rest && y.Some? :: y.value) + {x.value};
    }
  }

  lemma OwnersAreEoas(creation: Creation, current: SafeIdentity, expectedSafe: Address, codes: Codes)
    requires Validate(creation, current).Valid? && Ready(codes, creation, expectedSafe, current)
    ensures forall o | o in creation.initializer.value.owners :: IsEoa(CodeAt(codes, o))
  {
    var s := creation.initializer.value;
    OwnersMembers(s);
    forall o | o in s.owners ensures IsEoa(CodeAt(codes, o)) {
      assert o in Values(Owners(s));
      assert o in Values(current.owners);
    }
  }

  /**
   Replay preserves the policy. When the creation is valid for the live source Safe, the
   destination is ready and the factory deploys the same proxy runtime, the Safe it creates
   matches the source. The owner lists are read with a limit of 50 there and without one here,
   so this holds exactly for owner lists within the limit.
   */
  lemma ReplayPreservesPolicy(creation: Creation, current: SafeIdentity, expectedSafe: Address, codes: Codes)
    requires Validate(creation, current).Valid? && Ready(codes, creation, expectedSafe, current)
    requires CodeAt(codes, creation.singleton).Runtime?
    ensures RecognizedVersion(creation.singleton).Some?
    ensures SafesMatch(current, Created(creation, current.proxyCodeHash, codes)) <==>
        |current.owners| <= MAX_SAFE_OWNERS
  {
    var s := creation.initializer.value;
    EquivalentVersions(creation.singleton, current.singleton);
    LimitOnly(current.owners);
    LimitOnly(Owners(s));
    SameSize(current.owners, Owners(s));
    OwnersAreEoas(creation, current, expectedSafe, codes);
  }

  /**
   From the verdict to the deployed Safe: after an accepted replay of a source Safe with at
   most 50 owners, the authority is allowed on Ethereum. No payment is made on the way.
   */
  lemma ReplayIsAllowed(creation: Creation, current: SafeIdentity, expectedSafe: Address, codes: Codes,
      sourceChain: nat, owners: Option<bool>)
    requires Validate(creation, current).Valid? && Ready(codes, creation, expectedSafe, current)
    requires CodeAt(codes, creation.singleton).Runtime? && |current.owners| <= MAX_SAFE_OWNERS
    ensures RecognizedVersion(creation.singleton).Some? && creation.initializer.value.payment == 0
    ensures Allowed(Verdict(sourceChain, Some(Safe(current)),
        Some(Safe(Created(creation, current.proxyCodeHash, codes))), owners))
  {
    ReplayPreservesPolicy(creation, current, expectedSafe, codes);
    AllowedIffMatch(sourceChain, Some(Safe(current)), Some(Safe(Created(creation, current.proxyCodeHash, codes))),
      owners);
  }

  // The singleton of the creation is that of the source, or its pair for Ethereum and L2 chains.
  predicate SameOrPaired(a: Address, b: Address) {
    a == b || (a == L1_141 && b == L2_141) || (a == L2_141 && b == L1_141)
  }

  // The setup the initializer makes is that of the source, runs nothing and pays nobody.
  ghost predicate Reproduces(s: Setup, current: SafeIdentity) {
    && s.canonical && OwnerSet(Owners(s), None).Some? && OwnerSet(Owners(s), None) == OwnerSet(current.owners, None)
    && s.threshold == current.threshold && 1 <= s.threshold <= |s.owners| && s.threshold <= MAX_SAFE_INTEGER
    && s.fallbackHandler == current.fallbackHandler
    && s.paymentToken == ZERO && s.payment == 0 && s.paymentReceiver in {ZERO, PAYMENT_RECEIVER}
  }

  // It calls nothing, or the exact hook that moves a Safe to the L2 singleton.
  predicate Hookless(s: Setup, singleton: Address) {
    || (s.to == ZERO && s.data == NoData)
    || (s.to == SAFE_TO_L2_SETUP && singleton == L1_141 && s.data == SetupToL2(L2_141))
  }

  /**
   Which creations are accepted, exactly: of a recognized release with one of its factories, for
   a source whose policy is safe and whose release is recognized, with a setup that reproduces
   this policy and runs at most the exact hook.
   */
  lemma ValidExactly(creation: Creation, current: SafeIdentity)
    ensures Validate(creation, current).Valid? <==>
        && (exists r | r in RELEASES :: creation.singleton in r.singletons && creation.factory in r.factories)
        && SafeCurrentPolicy(current) && SameOrPaired(creation.singleton, current.singleton)
        && creation.initializer.Some? && Reproduces(creation.initializer.value, current)
        && Hookless(creation.initializer.value, creation.singleton)
  {
    assert PAIRS[0] == (L1_141, L2_141);
    ReleasesApart(creation.factory, creation.singleton);
  }

  // No singleton is of two releases.
  lemma ReleasesApart(factory: Address, singleton: Address)
    ensures RecognizedDeployment(factory, singleton) <==>
        exists r | r in RELEASES :: singleton in r.singletons && factory in r.factories
  {
    assert RELEASES[0] in RELEASES && RELEASES[1] in RELEASES;
  }

  /** A creation whose setup would run anything but an inert hook, or pay anyone, is never valid. */
  lemma ValidIsInert(creation: Creation, current: SafeIdentity)
    requires Validate(creation, current).Valid?
    ensures InertHook(creation.initializer.value, creation.singleton) && creation.initializer.value.payment == 0
    ensures UsableOwners(multiset(Owners(creation.initializer.value)), None)
    ensures 1 <= creation.initializer.value.threshold <= |creation.initializer.value.owners|
  {
  }
}
