/**
  The values the single-offer contract keeps in its instance storage: one
  `Offer` record per offeror, and the owner identity that may accept offers.
 */
module Offers {
  import opened Wrappers

  /** An account identity. Only equality between identities is ever used. */
  type Address = string

  /** The signed 128-bit integers of `amount` and `price`. */
  newtype Int128 = x: int | -0x8000_0000_0000_0000_0000_0000_0000_0000 <= x < 0x8000_0000_0000_0000_0000_0000_0000_0000

  datatype OfferStatus = Pending | Accepted | Cancelled

  datatype Offer = Offer(offeror: Address, amount: Int128, price: Int128, status: OfferStatus)

  /** The reasons an invocation aborts; every one of them leaves storage as it was. */
  datatype Error =
    | DuplicatePendingOffer
    | OwnerNotConfigured
    | Unauthorized
    | OfferNotFound
    | InvalidState
    | OwnerAlreadySet

  /** How an invocation ends: normal completion, or an abort with its reason. */
  datatype Outcome = Ok | Err(error: Error)

  /**
    The contract's persistent state: the map stored under the "offers" key
    (absent reads as empty) and the value stored under the "owner" key.
   */
  datatype Storage = Storage(offers: map<Address, Offer>, owner: Option<Address>)

  /** The storage of a freshly deployed contract: no offers, no owner. */
  const Deployed: Storage := Storage(map[], None)

  /** Every stored record is filed under the identity that submitted it. */
  ghost predicate KeysMatch(offers: map<Address, Offer>) {
    forall u :: u in offers ==> offers[u].offeror == u
  }

  /** The caller has a record and it is still Pending. */
  predicate HasPending(s: Storage, u: Address) {
    u in s.offers && s.offers[u].status == Pending
  }

  /** An owner is stored and it is `caller`. */
  predicate IsOwner(s: Storage, caller: Address) {
    s.owner == Some(caller)
  }
}
