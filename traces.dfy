/**
  Sequences of invocations. The host serializes invocations, so the history of
  the contract is a sequence of calls applied one after another to the storage.
  The lemmas here state what holds over every such history.
 */
module Traces {
  import opened Wrappers
  import opened Offers
  import opened Lifecycle

  /** One invocation of a public entry point, with the caller the host resolved. */
  datatype Call =
    | SubmitCall(caller: Address, amount: Int128, price: Int128)
    | AcceptCall(caller: Address, offeror: Address)
    | CancelCall(caller: Address)
    | ViewCall(offeror: Address)
    | SetOwnerCall(owner: Address)

  function Apply(s: Storage, c: Call): (r: Step)
    ensures c.ViewCall? ==> r == Step(Ok, s)
    ensures KeysMatch(s.offers) ==> KeysMatch(r.post.offers)
  {
    match c
    case SubmitCall(caller, amount, price) => SubmitOffer(s, caller, amount, price)
    case AcceptCall(caller, offeror) => AcceptOffer(s, caller, offeror)
    case CancelCall(caller) => CancelOffer(s, caller)
    case ViewCall(_) => Step(Ok, s)
    case SetOwnerCall(owner) => SetOwner(s, owner)
  }

  /** The storage after running `calls` in order from `s`. */
  function Run(s: Storage, calls: seq<Call>): Storage
    decreases |calls|
  {
    if calls == [] then s else Run(Apply(s, calls[0]).post, calls[1..])
  }

  /** How many of `calls`, run from `s`, are set_owner invocations that succeed. */
  function OwnerGrants(s: Storage, calls: seq<Call>): nat
    decreases |calls|
  {
    if calls == [] then 0
    else
      var step := Apply(s, calls[0]);
      (if calls[0].SetOwnerCall? && step.outcome.Ok? then 1 else 0) + OwnerGrants(step.post, calls[1..])
  }

  /** Every history preserves "each record is filed under its own offeror". */
  lemma {:induction false} RunKeepsKeysMatch(s: Storage, calls: seq<Call>)
    requires KeysMatch(s.offers)
    ensures KeysMatch(Run(s, calls).offers)
    decreases |calls|
  {
    if calls != [] {
      RunKeepsKeysMatch(Apply(s, calls[0]).post, calls[1..]);
    }
  }

  /** Every state reachable from deployment satisfies the object invariant. */
  lemma ReachableKeysMatch(calls: seq<Call>)
    ensures KeysMatch(Run(Deployed, calls).offers)
  {
    RunKeepsKeysMatch(Deployed, calls);
  }

  /** Once an owner is stored, no history changes it. */
  lemma {:induction false} OwnerNeverChanges(s: Storage, calls: seq<Call>)
    requires s.owner.Some?
    ensures Run(s, calls).owner == s.owner
    decreases |calls|
  {
    if calls != [] {
      OwnerNeverChanges(Apply(s, calls[0]).post, calls[1..]);
    }
  }

  /** Once an owner is stored, no later set_owner in any history succeeds. */
  lemma {:induction false} NoGrantAfterOwner(s: Storage, calls: seq<Call>)
    requires s.owner.Some?
    ensures OwnerGrants(s, calls) == 0
    decreases |calls|
  {
    if calls != [] {
      NoGrantAfterOwner(Apply(s, calls[0]).post, calls[1..]);
    }
  }

  /** Over the whole life of the contract, set_owner succeeds at most once. */
  lemma {:induction false} OwnerGrantedAtMostOnce(s: Storage, calls: seq<Call>)
    ensures OwnerGrants(s, calls) <= 1
    ensures s.owner.Some? ==> OwnerGrants(s, calls) == 0
    decreases |calls|
  {
    if calls != [] {
      var step := Apply(s, calls[0]);
      if s.owner.Some? {
        NoGrantAfterOwner(s, calls);
      } else if calls[0].SetOwnerCall? {
        NoGrantAfterOwner(step.post, calls[1..]);
      } else {
        OwnerGrantedAtMostOnce(step.post, calls[1..]);
      }
    }
  }

  /** Records are never deleted: every key ever stored stays stored. */
  lemma {:induction false} RecordsNeverDeleted(s: Storage, calls: seq<Call>)
    ensures s.offers.Keys <= Run(s, calls).offers.Keys
    decreases |calls|
  {
    if calls != [] {
      RecordsNeverDeleted(Apply(s, calls[0]).post, calls[1..]);
    }
  }

  /**
    The per-record state machine: in one invocation, a record either stays as
    it was, is restarted as a Pending record whose offeror is `u` where it was
    absent or not Pending, or leaves Pending for Accepted or Cancelled with
    every other field kept.
   */
  ghost predicate AllowedChange(u: Address, before: Option<Offer>, after: Option<Offer>) {
    || after == before
    || (after.Some? && after.value.offeror == u && after.value.status == Pending
        && (before.None? || before.value.status != Pending))
    || (before.Some? && before.value.status == Pending
        && (after == Some(before.value.(status := Accepted))
            || after == Some(before.value.(status := Cancelled))))
  }

  lemma StepFollowsStateMachine(s: Storage, c: Call, u: Address)
    ensures AllowedChange(u, ViewOffer(s, u), ViewOffer(Apply(s, c).post, u))
  {
  }

  /** Only the owner moves a record to Accepted, and only the offeror to Cancelled. */
  lemma WhoMayTerminate(s: Storage, c: Call, u: Address)
    requires HasPending(s, u)
    ensures var after := ViewOffer(Apply(s, c).post, u);
            && (after.Some? && after.value.status == Accepted ==> c.AcceptCall? && IsOwner(s, c.caller) && c.offeror == u)
            && (after.Some? && after.value.status == Cancelled ==> c.CancelCall? && c.caller == u)
  {
  }

  /** A record is restarted as Pending only by a submit_offer of its own offeror. */
  lemma WhoMayRestart(s: Storage, c: Call, u: Address)
    ensures var before, after := ViewOffer(s, u), ViewOffer(Apply(s, c).post, u);
            after != before && after.Some? && after.value.status == Pending
            ==> c.SubmitCall? && c.caller == u
  {
  }

  /**
    The owner-accepts scenario: set the owner, submit, accept, and the two
    refused accepts that follow.
   */
  lemma OwnerAcceptsWalkthrough()
    ensures var s1 := SetOwner(Deployed, "O").post;
            var s2 := SubmitOffer(s1, "A", 100, 5).post;
            var s3 := AcceptOffer(s2, "O", "A").post;
            && ViewOffer(s2, "A") == Some(Offer("A", 100, 5, Pending))
            && ViewOffer(s3, "A") == Some(Offer("A", 100, 5, Accepted))
            && AcceptOffer(s3, "O", "A").outcome == Err(InvalidState)
            && AcceptOffer(s3, "B", "A").outcome == Err(Unauthorized)
  {
  }
}
