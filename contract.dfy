/**
  The contract object. Its two fields are the two slots of instance storage;
  each mutating method loads the offers map, validates, updates one entry and
  writes the whole map back, as the entry points do. The caller identity that
  the host supplies is an explicit parameter.
 */
module Contract {
  import opened Wrappers
  import opened Offers
  import opened Lifecycle

  class SingleOfferContract {
    /** The map stored under the "offers" key. */
    var offers: map<Address, Offer>
    /** The value stored under the "owner" key, absent until set_owner succeeds. */
    var owner: Option<Address>

    /** Object invariant: every record is filed under its own offeror. */
    ghost predicate Valid()
      reads this
    {
      KeysMatch(offers)
    }

    /** The current storage as a value, for the pure transitions of `Lifecycle`. */
    function State(): Storage
      reads this
    {
      Storage(offers, owner)
    }

    /** Deployment: both storage slots are empty. */
    constructor ()
      ensures Valid()
      ensures State() == Deployed
    {
      offers := map[];
      owner := None;
    }

    method SubmitOffer(caller: Address, amount: Int128, price: Int128) returns (r: Outcome)
      requires Valid()
      modifies this
      ensures Valid()
      ensures Step(r, State()) == Lifecycle.SubmitOffer(old(State()), caller, amount, price)
    {
      var stored := offers;
      if caller in stored && stored[caller].status == Pending {
        return Err(DuplicatePendingOffer);
      }
      var offer := Offer(caller, amount, price, Pending);
      stored := stored[caller := offer];
      offers := stored;
      r := Ok;
    }

    method AcceptOffer(caller: Address, offeror: Address) returns (r: Outcome)
      requires Valid()
      modifies this
      ensures Valid()
      ensures Step(r, State()) == Lifecycle.AcceptOffer(old(State()), caller, offeror)
    {
      if owner.None? {
        return Err(OwnerNotConfigured);
      }
      if caller != owner.value {
        return Err(Unauthorized);
      }
      var stored := offers;
      if offeror !in stored {
        return Err(OfferNotFound);
      }
      var offer := stored[offeror];
      if offer.status == Pending {
        offer := offer.(status := Accepted);
        stored := stored[offeror := offer];
        offers := stored;
        r := Ok;
      } else {
        r := Err(InvalidState);
      }
    }

    method CancelOffer(caller: Address) returns (r: Outcome)
      requires Valid()
      modifies this
      ensures Valid()
      ensures Step(r, State()) == Lifecycle.CancelOffer(old(State()), caller)
    {
      var stored := offers;
      if caller !in stored {
        return Err(OfferNotFound);
      }
      var offer := stored[caller];
      if offer.status == Pending {
        offer := offer.(status := Cancelled);
        stored := stored[caller := offer];
        offers := stored;
        r := Ok;
      } else {
        r := Err(InvalidState);
      }
    }

    /** view_offer: any caller may read any record; nothing changes. */
    method ViewOffer(offeror: Address) returns (o: Option<Offer>)
      ensures o.Some? <==> offeror in offers
      ensures o.Some? ==> o.value == offers[offeror]
      ensures Valid() && o.Some? ==> o.value.offeror == offeror
    {
      var stored := offers;
      if offeror in stored {
        o := Some(stored[offeror]);
      } else {
        o := None;
      }
    }

    method SetOwner(newOwner: Address) returns (r: Outcome)
      requires Valid()
      modifies this
      ensures Valid()
      ensures Step(r, State()) == Lifecycle.SetOwner(old(State()), newOwner)
    {
      if owner.Some? {
        return Err(OwnerAlreadySet);
      }
      owner := Some(newOwner);
      r := Ok;
    }
  }
}
