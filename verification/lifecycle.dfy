/**
 * The contract over its lifetime: instantiation, then any sequence of execute
 * and migrate invocations, each committed by the host only when it succeeds.
 */
module Lifecycle {
  import opened Wrappers
  import opened CosmWasm
  import opened Errors
  import opened ContractState
  import Msg
  import Owner
  import Execute
  import Instantiate
  import Migrate

  /** An invocation after instantiation. */
  datatype Action =
    | ExecuteAction(info: MessageInfo, msg: Msg.ExecuteMsg)
    | MigrateAction

  function Step(api: Api, contractVersion: string, storage: Storage, action: Action): Effect<Storage, Response> {
    match action
    case ExecuteAction(info, msg) => Execute.Execute(api, storage, info, msg)
    case MigrateAction => Migrate.Migrate(contractVersion, storage)
  }

  /** The host keeps the writes of a successful invocation and reverts a failed one. */
  function Commit<T>(storage: Storage, e: Effect<Storage, T>): Storage {
    if e.result.Ok? then e.store else storage
  }

  function Run(api: Api, contractVersion: string, storage: Storage, actions: seq<Action>): Storage
    decreases |actions|
  {
    if |actions| == 0 then storage
    else Run(api, contractVersion, Commit(storage, Step(api, contractVersion, storage, actions[0])), actions[1..])
  }

  /** Every failure happens before anything is written, so the host's revert is never needed. */
  lemma StepNeedsNoRevert(api: Api, contractVersion: string, storage: Storage, action: Action)
    ensures Commit(storage, Step(api, contractVersion, storage, action)) == Step(api, contractVersion, storage, action).store
  {
  }

  /** `a` is something address validation can return. */
  ghost predicate Validated(api: Api, a: Addr) {
    exists raw :: api.addrValidate(raw) == Some(a)
  }

  /**
   * What holds once the contract is instantiated: all three records exist,
   * the owner is a validated address, and the version record names this contract.
   */
  ghost predicate Invariant(api: Api, storage: Storage) {
    && storage.owner.Some?
    && Validated(api, storage.owner.value.owner)
    && storage.state.Some?
    && storage.version.Some?
    && storage.version.value.contract == CONTRACT_NAME
  }

  lemma InstantiateEstablishesInvariant(api: Api, contractVersion: string, storage: Storage, info: MessageInfo, msg: Msg.InstantiateMsg)
    requires Instantiate.Instantiate(api, contractVersion, storage, info, msg).result.Ok?
    ensures Invariant(api, Instantiate.Instantiate(api, contractVersion, storage, info, msg).store)
  {
  }

  lemma StepPreservesInvariant(api: Api, contractVersion: string, storage: Storage, action: Action)
    requires Invariant(api, storage)
    ensures Invariant(api, Commit(storage, Step(api, contractVersion, storage, action)))
  {
  }

  /** The invariant survives any sequence of invocations, failed ones included. */
  lemma {:induction false} RunPreservesInvariant(api: Api, contractVersion: string, storage: Storage, actions: seq<Action>)
    requires Invariant(api, storage)
    ensures Invariant(api, Run(api, contractVersion, storage, actions))
    decreases |actions|
  {
    if |actions| > 0 {
      StepPreservesInvariant(api, contractVersion, storage, actions[0]);
      RunPreservesInvariant(api, contractVersion, Commit(storage, Step(api, contractVersion, storage, actions[0])), actions[1..]);
    }
  }

  /**
   * If the owner never invokes the contract, the owner record ends exactly as
   * it started, however many setters, owner updates and migrations others send.
   */
  lemma {:induction false} OthersCannotTouchOwner(api: Api, contractVersion: string, storage: Storage, actions: seq<Action>)
    requires storage.owner.Some?
    requires forall i :: 0 <= i < |actions| && actions[i].ExecuteAction? ==>
      actions[i].info.sender != storage.owner.value.owner
    ensures Run(api, contractVersion, storage, actions).owner == storage.owner
    decreases |actions|
  {
    if |actions| > 0 {
      var next := Commit(storage, Step(api, contractVersion, storage, actions[0]));
      assert next.owner == storage.owner;
      assert forall i :: 0 <= i < |actions[1..]| ==> actions[1..][i] == actions[i + 1];
      OthersCannotTouchOwner(api, contractVersion, next, actions[1..]);
    }
  }
}
