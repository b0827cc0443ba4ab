/** The contract's persisted records and the storage that holds them. */
module ContractState {
  import opened Wrappers
  import opened CosmWasm
  import opened Errors
  import Owner

  /** The name recorded with the contract version. */
  const CONTRACT_NAME: string := "crates.io:json-template"

  /** The contract's general record: one field per setter. */
  datatype State = State(
    optAddr: Option<Addr>,
    optUint128: Option<Uint128>,
    optVecNumbers: Option<seq<I32>>,
    vecOptStrings: seq<Option<string>>,
    vecDenomUnits: seq<DenomUnit>)

  /** The version record kept for migrations: which contract, which version. */
  datatype ContractVersion = ContractVersion(contract: string, version: string)

  /** The three storage items the contract uses, each absent until first saved. */
  datatype Storage = Storage(
    owner: Owner.Item,
    state: Option<State>,
    version: Option<ContractVersion>)

  /**
   * Load-modify-save of the `State` item: loads it (failing with `NotFound`
   * when absent), applies `action`, and saves the result only when `action`
   * succeeds. Returns the saved record.
   */
  function UpdateState(storage: Storage, action: State -> Result<State, Error>): (e: Effect<Storage, State>)
    ensures storage.state.None? ==> e == Effect(storage, Err(NotFound))
    ensures storage.state.Some? ==> e.result == action(storage.state.value)
    ensures e.result.Err? ==> e.store == storage
    ensures e.result.Ok? ==> e.store == storage.(state := Some(e.result.value))
  {
    match storage.state
    case None => Effect(storage, Err(NotFound))
    case Some(state) =>
      match action(state)
      case Err(error) => Effect(storage, Err(error))
      case Ok(updated) => Effect(storage.(state := Some(updated)), Ok(updated))
  }
}
