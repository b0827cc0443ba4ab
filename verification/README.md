# Owner state machine of a CosmWasm JSON template contract

This project models, in Dafny, the core of a small CosmWasm smart contract
written in Rust. At its centre is the owner state machine
(`src/types/owner.rs`). It guards one persisted record, `OwnerState { owner,
status }`, so that only the current owner may change it. Around it sit three
thin handlers, also modelled:

- the execute handlers, which overwrite single fields of the contract's
  `State` record or forward an owner update;
- instantiation, which fixes the initial contents of the owner, `State` and
  version records;
- migration, which gates on the recorded contract name and version.

Storage is a record of three optional slots: owner, `State` and contract
version. Every state-changing operation is a pure function that returns an
`Effect(store, result)`. Here `store` is the storage as the code has written
it by the time it returns, whether the result is a response or an error. This
makes "an error leaves storage unchanged" a statement about where the Rust
code places its single save, not something that holds by construction. A
response is the sequence of its (key, value) attributes.

Address validation (`Api::addr_validate`) is a call into the host. It is a
function-valued field of an `Api` parameter. Only the worked scenario
`Owner.AliceBobScenario` fixes what it returns, and only for the two names
"alice" and "bob"; every other member holds whatever validation does. `CONTRACT_VERSION` is the package version
fixed at build time (`env!("CARGO_PKG_VERSION")`). The package manifest is not
part of this model, so the version is a `contractVersion` parameter.

Files:

- `wrappers.dfy`: `Option` and `Result`.
- `cosmwasm.dfy`: addresses, the `Api`, attributes, `Uint128` and its
  attribute rendering.
- `errors.dfy`: the closed error type `NotOwner | Invalid | NotFound |
  Generic(msg)` and `Effect`.
- `decimal.dfy`: the decimal `to_string` of unsigned integers, with its inverse
  parser.
- `string_order.dfy`: Rust's ordering of `String`s.
- `owner.dfy`: the owner state machine.
- `state.dfy`: the `State` and version records, storage, and `Item::update`.
- `msg.dfy`: the messages.
- `execute.dfy`, `instantiate.dfy`, `migrate.dfy`: the entry points.
- `lifecycle.dfy`: sequences of invocations and the invariants they keep.

Three behaviours of the code worth stating plainly:

- After `initialize(o, s)`, the owner is `Validate(o)`, which need not be `o`.
- Ownership passes in one step. The doc comment on `Owner` (owner.rs:53-55)
  speaks of a two-step transition, but no accept step is implemented, and this
  model has none.
- `initialize` overwrites an existing record without checking for one.

The version gate compares versions as strings, as the code does. The lemma
`Migrate.StringVersionsMisorderReleases` shows the consequence: a stored
"0.9.0" blocks an upgrade to "0.10.0". The source's own comment acknowledges
this.

## Model

| member | source | states |
|---|---|---|
| `Owner.Load` | src/types/owner.rs:63-65 | loading the record returns exactly the stored record, and fails with `NotFound` exactly when none was saved |
| `Owner.UpdateAttributes` | src/types/owner.rs:123-127 | the update response is four attributes in the order action ("update_owner"), owner, status (the empty string when there is none), sender |
| `Owner.Current` | src/types/owner.rs:70-72 | returns the stored owner, and fails with `NotFound` exactly when no record exists |
| `Owner.Status` | src/types/owner.rs:74-76 | returns the stored status, and fails with `NotFound` exactly when no record exists |
| `Owner.IsOwner` | src/types/owner.rs:78-80 | true iff the address equals the stored owner; fails with `NotFound` when the record is absent |
| `Owner.Query` | src/types/owner.rs:82-87 | the projection carries the owner's string form and the status; fails exactly when the record is absent |
| `Owner.AssertOwner` | src/types/owner.rs:164-170 | succeeds iff `IsOwner` answers true; otherwise `NotFound` for a missing record and `NotOwner` for anyone else |
| `Owner.Initialize` | src/types/owner.rs:93-107 | succeeds iff the address validates; a later query then returns the validated owner and the given status, and that owner passes `IsOwner`; on failure returns `Invalid` and the item is untouched |
| `Owner.TransitionState` | src/types/owner.rs:131-158 | refuses a missing record (`NotFound`) and a non-owner (`NotOwner`); for the owner, `UpdateOwner` installs the validated address and keeps the status, or fails with `Invalid`; `UpdateStatus` sets `Some(s)`; `ClearStatus` sets `None`; the owner is unchanged by both |
| `Owner.Update` | src/types/owner.rs:110-128 | on any error the item is unchanged; missing record gives `NotFound`, non-owner gives `NotOwner`; on success the transition's record is saved and the attributes are action, owner, status (or ""), sender in that order |
| `Owner.NonOwnerIsRejected` | src/types/owner.rs:119-120 | for every event, a caller other than the stored owner gets `NotOwner` and the record stays as it was |
| `Owner.UpdateOwnerKeepsStatus` | src/types/owner.rs:141-147 | an owner transfer to a valid address makes the validated address the owner and keeps the previous status |
| `Owner.UpdateOwnerRejectsInvalid` | src/types/owner.rs:142 | a transfer to an address that fails validation returns `Invalid` and saves nothing |
| `Owner.UpdateStatusSetsStatus` | src/types/owner.rs:148-151 | a status update stores exactly `Some(s)`, the empty string included, and keeps the owner |
| `Owner.ClearStatusIdempotent` | src/types/owner.rs:152-155 | clearing sets the status to `None` and keeps the owner; a second clear succeeds and changes nothing |
| `Owner.EmptyAndClearedStatusReportAlike` | src/types/owner.rs:126 | setting the status to "" and clearing it give identical responses but different stored records |
| `Owner.AliceBobScenario` | src/types/owner.rs:110-158 | the alice/bob sequence, with validation accepting just those two names unchanged: status set by the owner, transfer refused to a non-owner, transfer by the owner keeps the status |
| `ContractState.UpdateState` | src/contract/execute.rs:45-51 | load-modify-save: fails with `NotFound` when the record is absent; the saved record is the modifier's result; a modifier error saves nothing |
| `Execute.Execute` | src/contract/execute.rs:10-32 | each message reaches its own handler, the five setters without the caller and `UpdateOwner` with the caller and the event unchanged; an error writes nothing; no message touches the version; only `UpdateOwner` can touch the owner record, and only when the caller is the stored owner; `UpdateOwner` leaves `State` alone |
| `Execute.SetOptAddr` | src/contract/execute.rs:41-54 | succeeds iff `State` exists and a given address validates; stores the validated address or `None`, keeping all other fields; `Invalid` or `NotFound` otherwise with nothing written; the attribute echoes the input or "None" |
| `Execute.SetOptUint128` | src/contract/execute.rs:56-71 | succeeds iff `State` exists; overwrites only `opt_uint128`; the attribute is the decimal number or "None" |
| `Execute.SetOptVecNumbers` | src/contract/execute.rs:73-82 | succeeds iff `State` exists; overwrites only `opt_vec_numbers`; emits its fixed attribute |
| `Execute.SetVecOptStrings` | src/contract/execute.rs:84-93 | succeeds iff `State` exists; overwrites only `vec_opt_strings`; emits its fixed attribute |
| `Execute.SetVecDenomUnits` | src/contract/execute.rs:95-104 | succeeds iff `State` exists; overwrites only `vec_denom_units`; emits its fixed attribute |
| `Execute.UpdateOwner` | src/contract/execute.rs:106-112 | the owner update receives the caller and the event unchanged; its outcome becomes the contract's, with only the owner slot replaced |
| `Execute.SettersIgnoreCaller` | src/contract/execute.rs:16-29 | every message other than `UpdateOwner` has the same outcome whoever sends it |
| `Execute.SettersNeedState` | src/contract/execute.rs:45-104 | every setter fails with `NotFound` and writes nothing when `State` is absent |
| `Execute.OwnerUpdateIsGated` | src/contract/execute.rs:30 | an `UpdateOwner` message from a non-owner is refused with `NotOwner` and writes nothing |
| `Instantiate.Instantiate` | src/contract/instantiate.rs:11-44 | succeeds iff the sender validates; then the owner record is (validated sender, "initializer"), `State` is (sender, None, None, [], []) and the version is (contract name, package version); a failure writes nothing; the attributes are method, opt_addr, opt_uint128 |
| `Instantiate.InstantiateThenQuery` | src/contract/instantiate.rs:17-22 | after instantiation a query returns the validated sender with status "initializer", and that address passes the owner check |
| `Instantiate.OptUint128IsOnlyReported` | src/contract/instantiate.rs:24-43 | the message's amount never reaches storage, yet the response determines it |
| `Migrate.Migrate` | src/contract/migrate.rs:12-30 | `NotFound` without a version record; "Can only upgrade from same type" for another contract name; "Cannot upgrade from a newer version" iff the stored version is greater as a string; otherwise records (name, version), leaves owner and `State` alone and returns an empty response; errors write nothing |
| `Migrate.MigrateSameVersionIsNoOp` | src/contract/migrate.rs:20-25 | migrating to the version already recorded is allowed and changes nothing |
| `Migrate.MigrateFromOlderSucceeds` | src/contract/migrate.rs:20-25 | a stored version smaller as a string never blocks the migration |
| `Migrate.MigrateIdempotent` | src/contract/migrate.rs:12-30 | a successful migration can be repeated and the repeat changes nothing |
| `Migrate.StringVersionsMisorderReleases` | src/contract/migrate.rs:18-22 | a stored "0.9.0" blocks the upgrade to "0.10.0" as a newer version |
| `StringOrder.LessIffDifference` | src/contract/migrate.rs:20 | the string comparison is the lexicographic order: agree up to a position where the left runs out or has the smaller character |
| `StringOrder.LessIrreflexive` | src/contract/migrate.rs:20 | no version is greater than itself |
| `StringOrder.LessAsymmetric` | src/contract/migrate.rs:20 | two versions are never each greater than the other |
| `StringOrder.LessTransitive` | src/contract/migrate.rs:20 | the comparison is transitive |
| `StringOrder.LessTotal` | src/contract/migrate.rs:20 | any two different versions are ordered one way or the other |
| `Decimal.ParseIffShow` | src/contract/execute.rs:64-70 | the decimal rendering of a number is exactly the canonical digit string that parses back to it |
| `Decimal.ValueOfShow` | src/contract/execute.rs:67 | reading a rendered number back gives the number |
| `Decimal.ShowOfValue` | src/contract/execute.rs:67 | every canonical digit string is the rendering of the number it denotes |
| `CosmWasm.OptionalUint128ToString` | src/contract/execute.rs:66-69 | an absent amount renders as "None"; a present one renders as the canonical decimal string that parses back to the amount (the same `match` appears at instantiate.rs:39-42) |
| `CosmWasm.OptionalUint128ToStringInjective` | src/contract/instantiate.rs:39-42 | the rendering of an optional amount ("None" or the decimal number) loses nothing |
| `Lifecycle.StepNeedsNoRevert` | src/types/owner.rs:119-120 | for every execute or migrate invocation, a failure has written nothing, so the host's revert is never needed |
| `Lifecycle.InstantiateEstablishesInvariant` | src/contract/instantiate.rs:17-32 | after instantiation all three records exist, the owner is a validated address and the version names this contract |
| `Lifecycle.StepPreservesInvariant` | src/contract/execute.rs:16-31 | every execute or migrate invocation keeps that invariant |
| `Lifecycle.RunPreservesInvariant` | src/contract/execute.rs:16-31 | any sequence of invocations keeps it: the owner record never disappears and never holds an unvalidated address |
| `Lifecycle.OthersCannotTouchOwner` | src/types/owner.rs:138 | if the owner sends nothing, no sequence of invocations by others changes the owner record |

## Left out

- JSON serialisation, the schema derives and the query entry point's encoding are left out: they are library encoding, not contract logic.
- The echo queries (`object`, `denom_unit`, `string`, `number`, `bool`) are left out: they return their input unchanged. `query_message_1` and `query_message_2` are left out too: they take no input and return fixed empty structs. `query::owner` is `Owner.Query` wrapped, and `query::state` is a plain load of `State`.
- Failures of `save` (serialisation errors) are not modelled: every save succeeds. The only failures are those the contract itself raises: `NotFound`, `Invalid`, `NotOwner` and the two migration messages.
- The rules of address validation are not modelled: validation is an arbitrary function supplied as a parameter.
- The `ExecuteMessage`, `Empty` and `String` execute messages are declared but not dispatched by `execute`, so the model's `ExecuteMsg` omits them.
- `MessageInfo.funds`, `Env` and `MigrateMsg` are left out: the contract ignores them.
- The generic `C`/`Q` parameters of `update` are left out: they only shape the host's response type.
- The package version is a parameter (`contractVersion`), because the manifest that fixes it is not part of this model.
- Concurrency is left out: the host runs invocations one at a time. The host's rollback is modelled by `Lifecycle.Commit`, which discards a failed invocation's writes; `Lifecycle.StepNeedsNoRevert` shows that a failure has written nothing to discard.
- The two-step propose/accept transfer from the doc comment is left out: the code does not implement it.
