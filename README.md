# Single-offer contract, modelled in Dafny

This project models a contract that takes one offer per offeror. Each offeror keeps a single
`Offer` record (amount, price, and a status of Pending, Accepted or Cancelled). A one-time owner
may accept a Pending offer. The offeror may cancel their own Pending offer. Anyone may read a
record. Persistent state is two storage slots: the `offers` map from offeror to record, and the
`owner` identity, which can be set only once.

Files:
- `offer.dfy` (module `Offers`): the stored values: `Offer`, `OfferStatus`, `Int128`, the error
  kinds, and `Storage` (the two slots as one value). It also holds the `KeysMatch` invariant: every
  record is filed under its own offeror.
- `lifecycle.dfy` (module `Lifecycle`): each entry point as a pure transition from storage to
  outcome and new storage, plus lemmas relating several calls.
- `contract.dfy` (module `Contract`): class `SingleOfferContract`. Its fields `offers` and `owner`
  are the two storage slots. Each method repeats what the entry point does: load the map, check,
  update one entry, write the map back. Its `ensures` equate the outcome and new state with the
  `Lifecycle` transition.
- `traces.dfy` (module `Traces`): histories of calls, since the host runs invocations one at a
  time. Induction lemmas cover what holds over every history.
- `wrappers.dfy`: `Option`.

The host supplies the caller identity. Here it is an explicit `caller` parameter. An invocation
that panics (`panic!`, `assert_eq!`, `unwrap`, `expect`) aborts with no state change. The model
returns `Err(kind)` for these and leaves storage unchanged. Five kinds come from the entry points:
`DuplicatePendingOffer`, `OwnerNotConfigured`, `Unauthorized`, `OfferNotFound`, `InvalidState`.
`set_owner` adds `OwnerAlreadySet`.

`accept_offer` aborts through `unwrap()` on a missing owner slot (contract.rs:51), before it
reads the caller. The model names that abort `OwnerNotConfigured` and keeps the code's check order:
owner present, caller is owner, record exists, record is Pending.

## Model

| member | source | states |
|---|---|---|
| `Lifecycle.ViewOffer` | contract.rs:81-84 | returns the stored record for the offeror exactly when one exists, and `None` otherwise |
| `Lifecycle.SubmitOffer` | contract.rs:28-47 | fails with `DuplicatePendingOffer` and no change exactly when the caller's record is Pending. Otherwise the caller's record becomes `{caller, amount, price, Pending}`, the caller's key is added, and every other record and the owner are unchanged. Keeps `KeysMatch` |
| `Lifecycle.AcceptOffer` | contract.rs:50-64 | no owner gives `OwnerNotConfigured`, and a caller who is not the owner gives `Unauthorized`, whatever the offers map holds. For the owner, a missing record gives `OfferNotFound` and a non-Pending one `InvalidState`. Succeeds exactly for the owner on a Pending record. On success only that record's status changes, to Accepted; offeror, amount and price are kept. On failure nothing changes. Keeps `KeysMatch` |
| `Lifecycle.CancelOffer` | contract.rs:67-78 | acts only on the caller's own record. A missing record gives `OfferNotFound` and a non-Pending one `InvalidState`. Succeeds exactly when that record is Pending and then sets its status to Cancelled; offeror, amount and price are kept. Other records and the owner are unchanged; on failure nothing changes. Keeps `KeysMatch` |
| `Lifecycle.SetOwner` | contract.rs:87-93 | succeeds exactly when no owner is stored, and then stores the given owner. Otherwise fails with `OwnerAlreadySet` and no change. Never touches the offers |
| `Lifecycle.DuplicateSubmitRejected` | contract.rs:33-36 | after a successful submit, a second submit by the same offeror fails with `DuplicatePendingOffer`, and the first record stays as stored |
| `Lifecycle.AcceptedIsTerminal` | contract.rs:57-62 | after a successful accept, both a second accept and a cancel of that record fail with `InvalidState` and change nothing |
| `Lifecycle.CancelledIsTerminal` | contract.rs:71-76 | after a successful cancel, both an accept by the owner and a second cancel fail with `InvalidState` and change nothing |
| `Lifecycle.ResubmitRestarts` | contract.rs:33-45 | a record that is not Pending does not block submit. The new submit succeeds and restarts the record as Pending with the new amount and price |
| `Lifecycle.SetOwnerOnlyOnce` | contract.rs:87-93 | after one successful `set_owner`, any later call fails with `OwnerAlreadySet` and the first owner stays |
| `Contract.SingleOfferContract.constructor` | contract.rs:23-25 | a deployed contract has an empty offers map (an absent map reads as empty) and no owner; the invariant holds |
| `Contract.SingleOfferContract.SubmitOffer` | contract.rs:28-47 | outcome and new fields are exactly those of `Lifecycle.SubmitOffer` on the old fields; the object invariant is preserved |
| `Contract.SingleOfferContract.AcceptOffer` | contract.rs:50-64 | outcome and new fields are exactly those of `Lifecycle.AcceptOffer`, with the same check order; the invariant is preserved |
| `Contract.SingleOfferContract.CancelOffer` | contract.rs:67-78 | outcome and new fields are exactly those of `Lifecycle.CancelOffer`; the invariant is preserved |
| `Contract.SingleOfferContract.ViewOffer` | contract.rs:81-84 | returns exactly the stored record or `None` and changes no state. Under the invariant, the returned record's `offeror` is the queried identity |
| `Contract.SingleOfferContract.SetOwner` | contract.rs:87-93 | outcome and new fields are exactly those of `Lifecycle.SetOwner`; the invariant is preserved |
| `Traces.Apply` | contract.rs:28-93 | one invocation of any entry point keeps `KeysMatch`, and `view_offer` changes nothing |
| `Traces.RunKeepsKeysMatch` | contract.rs:39-45 | every sequence of invocations keeps each record filed under its own offeror |
| `Traces.ReachableKeysMatch` | contract.rs:23-25 | every storage reachable from deployment satisfies `KeysMatch` |
| `Traces.OwnerNeverChanges` | contract.rs:87-93 | once an owner is stored, no sequence of invocations changes it |
| `Traces.NoGrantAfterOwner` | contract.rs:89-91 | once an owner is stored, no later `set_owner` in any history succeeds |
| `Traces.OwnerGrantedAtMostOnce` | contract.rs:87-93 | in any history, `set_owner` succeeds at most once |
| `Traces.RecordsNeverDeleted` | contract.rs:45-46 | no history removes a stored record: the set of keys only grows |
| `Traces.StepFollowsStateMachine` | contract.rs:33-76 | in one invocation, each record does one of three things: it stays the same; it is restarted as a Pending record whose offeror is `u` where it was absent or not Pending; or it goes from Pending to Accepted or Cancelled with every other field kept |
| `Traces.WhoMayTerminate` | contract.rs:50-76 | a Pending record becomes Accepted only through `accept_offer` by the stored owner on that record, and Cancelled only through `cancel_offer` by its offeror |
| `Traces.WhoMayRestart` | contract.rs:28-47 | a record that one invocation changes into a Pending record was changed by `submit_offer` called by that record's own offeror |
| `Traces.OwnerAcceptsWalkthrough` | contract.rs:28-64 | worked example: set owner O, A submits 100 at 5 and reads back the Pending record, O accepts it, the record is Accepted, O's second accept fails with `InvalidState`, and B's accept fails with `Unauthorized` |

## Left out

- Soroban host storage (`env.storage().instance()` get, set and has; `Symbol::short` keys; `get_map`; serialization of `Map` and `Address`). The two storage slots are the class fields, or the `Storage` value.
- Caller authentication (`env.invoker()`). The caller is a parameter, and the model trusts it as the contract trusts the host.
- Transaction atomicity and serialized invocations are host services. An aborted invocation is modelled as "returns `Err`, storage unchanged", and a history as a sequence of calls.
- Panic message strings, and the lifetime parameter on the `offers` accessor.
- Arithmetic on `amount` and `price`: they are only copied, so `Int128` gives only their range.
- `Address` is modelled as a string compared by equality. The host's address format is not modelled.
