/**
 The identities the submission protocol is written in. Strings the source builds by template
 (`relayr:<uuid>`, `<account>:relayr-scope:<scope>`) and keccak digests are injective
 constructors here, so two of them are equal exactly when their parts are.
 */
module Identities {
  type Account = string
  type ChainId = nat
  type Uuid = nat
  type Hash = nat

  // One destination call as `requestKey` reads it.
  datatype CallTuple = CallTuple(chain: ChainId, version: nat, to: string, value: nat, data: string)

  // `requestKey` sorts its calls before hashing, so order is irrelevant: a multiset.
  datatype CallKey =
    | RelayrCalls(account: Account, calls: multiset<CallTuple>)
    | WalletCall(account: Account, call: CallTuple)

  // An entry of `relayrCallKeys`.
  datatype Key =
    | CallsKey(callKey: CallKey)
    | ScopeKey(account: Account, scope: string)
    | NonceKey(account: Account, chain: ChainId, forwarder: string)

  // Activity row ids.
  datatype Id =
    | BundleId(uuid: Uuid)
    | PublicationId(callKey: CallKey)
    | TransactionId(chain: ChainId, hash: Hash)
    | BatchId(account: Account, scope: string, created: nat)
    | OtherId(name: string)
}
