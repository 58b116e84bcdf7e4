/**
  The offer lifecycle as pure transitions on `Storage`: each public entry point
  of the contract maps the storage before the invocation to its outcome and the
  storage after it. An aborted invocation leaves the storage exactly as it was.
 */
module Lifecycle {
  import opened Wrappers
  import opened Offers

  /** What one invocation returns and the storage it leaves behind. */
  datatype Step = Step(outcome: Outcome, post: Storage)

  /** view_offer: the stored record of `offeror`, if there is one. */
  function ViewOffer(s: Storage, offeror: Address): (r: Option<Offer>)
    ensures r.Some? <==> offeror in s.offers
    ensures r.Some? ==> r.value == s.offers[offeror]
  {
    if offeror in s.offers then Some(s.offers[offeror]) else None
  }

  /**
    submit_offer: refuses while the caller's record is Pending; otherwise
    files a fresh Pending record under the caller, replacing any earlier one.
   */
  function SubmitOffer(s: Storage, caller: Address, amount: Int128, price: Int128): (r: Step)
    ensures r.outcome == Err(DuplicatePendingOffer) <==> HasPending(s, caller)
    ensures r.outcome.Err? ==> r.outcome.error == DuplicatePendingOffer && r.post == s
    ensures r.outcome.Ok? ==> ViewOffer(r.post, caller) == Some(Offer(caller, amount, price, Pending))
    ensures r.outcome.Ok? ==> r.post.offers.Keys == s.offers.Keys + {caller}
    ensures r.post.owner == s.owner
    ensures forall u :: u != caller ==> ViewOffer(r.post, u) == ViewOffer(s, u)
    ensures KeysMatch(s.offers) ==> KeysMatch(r.post.offers)
  {
    if HasPending(s, caller) then
      Step(Err(DuplicatePendingOffer), s)
    else
      Step(Ok, s.(offers := s.offers[caller := Offer(caller, amount, price, Pending)]))
  }

  /**
    accept_offer: the owner must be configured and be the caller, both checked
    before the record is looked up; then the record must exist and be Pending.
    On success only that record's status changes, to Accepted.
   */
  function AcceptOffer(s: Storage, caller: Address, offeror: Address): (r: Step)
    ensures s.owner.None? ==> r.outcome == Err(OwnerNotConfigured)
    ensures s.owner.Some? && s.owner.value != caller ==> r.outcome == Err(Unauthorized)
    ensures IsOwner(s, caller) && offeror !in s.offers ==> r.outcome == Err(OfferNotFound)
    ensures IsOwner(s, caller) && offeror in s.offers && s.offers[offeror].status != Pending
            ==> r.outcome == Err(InvalidState)
    ensures r.outcome.Ok? <==> IsOwner(s, caller) && HasPending(s, offeror)
    ensures r.outcome.Err? ==> r.post == s
    ensures r.outcome.Ok? ==>
              && offeror in r.post.offers
              && r.post.offers[offeror].status == Accepted
              && r.post.offers[offeror].offeror == s.offers[offeror].offeror
              && r.post.offers[offeror].amount == s.offers[offeror].amount
              && r.post.offers[offeror].price == s.offers[offeror].price
    ensures r.post.offers.Keys == s.offers.Keys && r.post.owner == s.owner
    ensures forall u :: u != offeror ==> ViewOffer(r.post, u) == ViewOffer(s, u)
    ensures KeysMatch(s.offers) ==> KeysMatch(r.post.offers)
  {
    if s.owner.None? then
      Step(Err(OwnerNotConfigured), s)
    else if caller != s.owner.value then
      Step(Err(Unauthorized), s)
    else if offeror !in s.offers then
      Step(Err(OfferNotFound), s)
    else if s.offers[offeror].status == Pending then
      Step(Ok, s.(offers := s.offers[offeror := s.offers[offeror].(status := Accepted)]))
    else
      Step(Err(InvalidState), s)
  }

  /**
    cancel_offer: acts on the caller's own record only, which must exist and
    be Pending; on success that record's status becomes Cancelled.
   */
  function CancelOffer(s: Storage, caller: Address): (r: Step)
    ensures caller !in s.offers ==> r.outcome == Err(OfferNotFound)
    ensures caller in s.offers && s.offers[caller].status != Pending ==> r.outcome == Err(InvalidState)
    ensures r.outcome.Ok? <==> HasPending(s, caller)
    ensures r.outcome.Err? ==> r.post == s
    ensures r.outcome.Ok? ==>
              && caller in r.post.offers
              && r.post.offers[caller].status == Cancelled
              && r.post.offers[caller].offeror == s.offers[caller].offeror
              && r.post.offers[caller].amount == s.offers[caller].amount
              && r.post.offers[caller].price == s.offers[caller].price
    ensures r.post.offers.Keys == s.offers.Keys && r.post.owner == s.owner
    ensures forall u :: u != caller ==> ViewOffer(r.post, u) == ViewOffer(s, u)
    ensures KeysMatch(s.offers) ==> KeysMatch(r.post.offers)
  {
    if caller !in s.offers then
      Step(Err(OfferNotFound), s)
    else if s.offers[caller].status == Pending then
      Step(Ok, s.(offers := s.offers[caller := s.offers[caller].(status := Cancelled)]))
    else
      Step(Err(InvalidState), s)
  }

  /** set_owner: anyone may call it, and it succeeds only while no owner is stored. */
  function SetOwner(s: Storage, owner: Address): (r: Step)
    ensures r.outcome.Ok? <==> s.owner.None?
    ensures r.outcome.Err? ==> r.outcome.error == OwnerAlreadySet && r.post == s
    ensures r.outcome.Ok? ==> r.post.owner == Some(owner)
    ensures r.post.offers == s.offers
  {
    if s.owner.Some? then
      Step(Err(OwnerAlreadySet), s)
    else
      Step(Ok, s.(owner := Some(owner)))
  }

  // ----- Properties that relate several invocations -----

  /** A second submit_offer while the first is still Pending fails and keeps the stored record. */
  lemma DuplicateSubmitRejected(s: Storage, u: Address, a1: Int128, p1: Int128, a2: Int128, p2: Int128)
    requires SubmitOffer(s, u, a1, p1).outcome.Ok?
    ensures var s1 := SubmitOffer(s, u, a1, p1).post;
            && SubmitOffer(s1, u, a2, p2) == Step(Err(DuplicatePendingOffer), s1)
            && ViewOffer(s1, u) == Some(Offer(u, a1, p1, Pending))
  {
  }

  /** Accepted is terminal for accept and cancel: both fail with InvalidState. */
  lemma AcceptedIsTerminal(s: Storage, owner: Address, u: Address)
    requires AcceptOffer(s, owner, u).outcome.Ok?
    ensures var s1 := AcceptOffer(s, owner, u).post;
            && AcceptOffer(s1, owner, u) == Step(Err(InvalidState), s1)
            && CancelOffer(s1, u) == Step(Err(InvalidState), s1)
  {
  }

  /** Cancelled is terminal for accept and cancel: both fail with InvalidState. */
  lemma CancelledIsTerminal(s: Storage, owner: Address, u: Address)
    requires CancelOffer(s, u).outcome.Ok?
    requires IsOwner(s, owner)
    ensures var s1 := CancelOffer(s, u).post;
            && AcceptOffer(s1, owner, u) == Step(Err(InvalidState), s1)
            && CancelOffer(s1, u) == Step(Err(InvalidState), s1)
  {
  }

  /**
    Once a record is no longer Pending, a fresh submit_offer by its offeror
    succeeds and restarts it as Pending with the new amount and price.
   */
  lemma ResubmitRestarts(s: Storage, u: Address, amount: Int128, price: Int128)
    requires u in s.offers && s.offers[u].status != Pending
    ensures var r := SubmitOffer(s, u, amount, price);
            && r.outcome == Ok
            && ViewOffer(r.post, u) == Some(Offer(u, amount, price, Pending))
  {
  }

  /** Once set_owner has succeeded, every later call fails and the owner stays. */
  lemma SetOwnerOnlyOnce(s: Storage, first: Address, later: Address)
    requires SetOwner(s, first).outcome.Ok?
    ensures var s1 := SetOwner(s, first).post;
            && SetOwner(s1, later) == Step(Err(OwnerAlreadySet), s1)
            && s1.owner == Some(first)
  {
  }
}
