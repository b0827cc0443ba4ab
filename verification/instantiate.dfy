/** The instantiate entry point: the initial contents of all three records. */
module Instantiate {
  import opened Wrappers
  import opened CosmWasm
  import opened Errors
  import opened ContractState
  import Msg
  import Owner

  /**
   * Initialises the owner record with the validated sender and the status
   * "initializer", then writes the version record and the initial `State`.
   * `contractVersion` is the package version the contract was built with.
   */
  function Instantiate(api: Api, contractVersion: string, storage: Storage, info: MessageInfo, msg: Msg.InstantiateMsg): (e: Effect<Storage, Response>)
    ensures e.result.Ok? <==> api.addrValidate(info.sender.text).Some?
    ensures e.result.Err? ==> e.result.error == Invalid && e.store == storage
    ensures e.result.Ok? ==>
      && e.store.owner == Some(Owner.OwnerState(api.addrValidate(info.sender.text).value, Some("initializer")))
      && e.store.state == Some(State(Some(info.sender), None, None, [], []))
      && e.store.version == Some(ContractVersion(CONTRACT_NAME, contractVersion))
    ensures e.result.Ok? ==> e.result.value == [
      Attribute("method", "instantiate"),
      Attribute("opt_addr", info.sender.text),
      Attribute("opt_uint128", OptionalUint128ToString(msg.optUint128))]
  {
    var initialized := Owner.Initialize(api, storage.owner, info.sender.text, Some("initializer"));
    var afterOwner := storage.(owner := initialized.store);
    match initialized.result
    case Err(error) => Effect(afterOwner, Err(error))
    case Ok(_) =>
      var state := State(
        optAddr := Some(info.sender),
        optUint128 := None,
        optVecNumbers := None,
        vecOptStrings := [],
        vecDenomUnits := []);
      var afterVersion := afterOwner.(version := Some(ContractVersion(CONTRACT_NAME, contractVersion)));
      var afterState := afterVersion.(state := Some(state));
      Effect(afterState, Ok([
        Attribute("method", "instantiate"),
        Attribute("opt_addr", info.sender.text),
        Attribute("opt_uint128", OptionalUint128ToString(msg.optUint128))]))
  }

  /** After instantiation the sender's validated address owns the record and may update it. */
  lemma InstantiateThenQuery(api: Api, contractVersion: string, storage: Storage, info: MessageInfo, msg: Msg.InstantiateMsg)
    requires api.addrValidate(info.sender.text).Some?
    ensures var e := Instantiate(api, contractVersion, storage, info, msg);
      var validated := api.addrValidate(info.sender.text).value;
      && Owner.Query(e.store.owner) == Ok(Owner.OwnerResponse(validated.text, Some("initializer")))
      && Owner.AssertOwner(e.store.owner, validated) == Ok(())
  {
  }

  /**
   * The amount in the message is never stored: two messages that differ only
   * in it leave the same storage, and only the response tells them apart.
   */
  lemma OptUint128IsOnlyReported(api: Api, contractVersion: string, storage: Storage, info: MessageInfo, a: Msg.InstantiateMsg, b: Msg.InstantiateMsg)
    ensures Instantiate(api, contractVersion, storage, info, a).store == Instantiate(api, contractVersion, storage, info, b).store
    ensures var ea := Instantiate(api, contractVersion, storage, info, a);
      var eb := Instantiate(api, contractVersion, storage, info, b);
      ea.result.Ok? ==> (ea.result == eb.result <==> a == b)
  {
    var ea := Instantiate(api, contractVersion, storage, info, a);
    var eb := Instantiate(api, contractVersion, storage, info, b);
    if ea.result.Ok? && ea.result == eb.result {
      assert ea.result.value[2] == eb.result.value[2];
      OptionalUint128ToStringInjective(a.optUint128, b.optUint128);
    }
  }
}
