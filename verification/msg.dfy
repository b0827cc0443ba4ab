/** The messages the contract's entry points receive. */
module Msg {
  import opened Wrappers
  import opened CosmWasm
  import Owner

  datatype InstantiateMsg = InstantiateMsg(optUint128: Option<Uint128>)

  /** The execute messages the contract dispatches. */
  datatype ExecuteMsg =
    | SetOptAddr(newOptAddr: Option<string>)
    | SetOptUint128(newOptUint128: Option<Uint128>)
    | SetOptVecNumbers(newOptVecNumbers: Option<seq<I32>>)
    | SetVecOptStrings(newVecOptStrings: seq<Option<string>>)
    | SetVecDenomUnits(newVecDenomUnits: seq<DenomUnit>)
    | UpdateOwner(update: Owner.OwnerUpdate)
}
