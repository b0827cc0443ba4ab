/**
 * The execute entry point: five field setters on the `State` record, open to
 * any caller, and the owner-gated update of the owner record.
 */
module Execute {
  import opened Wrappers
  import opened CosmWasm
  import opened Errors
  import opened ContractState
  import Msg
  import Owner

  /** Routes a message to its handler; only the owner update sees the caller. */
  function Execute(api: Api, storage: Storage, info: MessageInfo, msg: Msg.ExecuteMsg): (e: Effect<Storage, Response>)
    ensures e.result.Err? ==> e.store == storage
    ensures e.store.version == storage.version
    ensures !msg.UpdateOwner? ==> e.store.owner == storage.owner
    ensures msg.UpdateOwner? ==> e.store.state == storage.state
    ensures e.store.owner != storage.owner ==>
      storage.owner.Some? && info.sender == storage.owner.value.owner
    ensures msg.SetOptAddr? ==> e == SetOptAddr(api, storage, msg.newOptAddr)
    ensures msg.SetOptUint128? ==> e == SetOptUint128(storage, msg.newOptUint128)
    ensures msg.SetOptVecNumbers? ==> e == SetOptVecNumbers(storage, msg.newOptVecNumbers)
    ensures msg.SetVecOptStrings? ==> e == SetVecOptStrings(storage, msg.newVecOptStrings)
    ensures msg.SetVecDenomUnits? ==> e == SetVecDenomUnits(storage, msg.newVecDenomUnits)
    ensures msg.UpdateOwner? ==> e == UpdateOwner(api, storage, info, msg.update)
  {
    match msg
    case SetOptAddr(newOptAddr) => SetOptAddr(api, storage, newOptAddr)
    case SetOptUint128(newOptUint128) => SetOptUint128(storage, newOptUint128)
    case SetOptVecNumbers(newOptVecNumbers) => SetOptVecNumbers(storage, newOptVecNumbers)
    case SetVecOptStrings(newVecOptStrings) => SetVecOptStrings(storage, newVecOptStrings)
    case SetVecDenomUnits(newVecDenomUnits) => SetVecDenomUnits(storage, newVecDenomUnits)
    case UpdateOwner(update) => UpdateOwner(api, storage, info, update)
  }

  /**
   * Sets `opt_addr`: a given address is validated first and the validated
   * form is stored; an absent one clears the field. The attribute echoes the
   * raw input, or "None".
   */
  function SetOptAddr(api: Api, storage: Storage, newOptAddr: Option<string>): (e: Effect<Storage, Response>)
    ensures storage.state.None? ==> e == Effect(storage, Err(NotFound))
    ensures e.result.Err? ==> e.store == storage
    ensures storage.state.Some? && newOptAddr.Some? && api.addrValidate(newOptAddr.value).None? ==>
      e == Effect(storage, Err(Invalid))
    ensures e.result.Ok? <==>
      storage.state.Some? && (newOptAddr.None? || api.addrValidate(newOptAddr.value).Some?)
    ensures e.result.Ok? ==>
      e.store == storage.(state := Some(storage.state.value.(optAddr :=
        if newOptAddr.Some? then Some(api.addrValidate(newOptAddr.value).value) else None)))
    ensures e.result.Ok? ==> e.result.value == [Attribute("new_opt_addr", newOptAddr.GetOr("None"))]
  {
    var updated := UpdateState(storage, (state: State) =>
      match newOptAddr
      case Some(addr) =>
        (match api.addrValidate(addr)
         case Some(validated) => Ok(state.(optAddr := Some(validated)))
         case None => Err(Invalid))
      case None => Ok(state.(optAddr := None)));
    match updated.result
    case Err(error) => Effect(updated.store, Err(error))
    case Ok(_) => Effect(updated.store, Ok([Attribute("new_opt_addr", newOptAddr.GetOr("None"))]))
  }

  /** Sets `opt_uint128`; the attribute renders the number, or "None". */
  function SetOptUint128(storage: Storage, newOptUint128: Option<Uint128>): (e: Effect<Storage, Response>)
    ensures e.result.Ok? <==> storage.state.Some?
    ensures e.result.Err? ==> e.result.error == NotFound && e.store == storage
    ensures e.result.Ok? ==>
      e.store == storage.(state := Some(storage.state.value.(optUint128 := newOptUint128)))
    ensures e.result.Ok? ==>
      e.result.value == [Attribute("new_opt_uint128", OptionalUint128ToString(newOptUint128))]
  {
    var updated := UpdateState(storage, (state: State) => Ok(state.(optUint128 := newOptUint128)));
    match updated.result
    case Err(error) => Effect(updated.store, Err(error))
    case Ok(_) =>
      Effect(updated.store, Ok([Attribute("new_opt_uint128", OptionalUint128ToString(newOptUint128))]))
  }

  /** Sets `opt_vec_numbers`; the attribute value is a fixed string. */
  function SetOptVecNumbers(storage: Storage, newOptVecNumbers: Option<seq<I32>>): (e: Effect<Storage, Response>)
    ensures e.result.Ok? <==> storage.state.Some?
    ensures e.result.Err? ==> e.result.error == NotFound && e.store == storage
    ensures e.result.Ok? ==>
      e.store == storage.(state := Some(storage.state.value.(optVecNumbers := newOptVecNumbers)))
    ensures e.result.Ok? ==> e.result.value == [Attribute("new_opt_vec_numbers", "new_vec_numbers")]
  {
    var updated := UpdateState(storage, (state: State) => Ok(state.(optVecNumbers := newOptVecNumbers)));
    match updated.result
    case Err(error) => Effect(updated.store, Err(error))
    case Ok(_) => Effect(updated.store, Ok([Attribute("new_opt_vec_numbers", "new_vec_numbers")]))
  }

  /** Sets `vec_opt_strings`; the attribute value is a fixed string. */
  function SetVecOptStrings(storage: Storage, newVecOptStrings: seq<Option<string>>): (e: Effect<Storage, Response>)
    ensures e.result.Ok? <==> storage.state.Some?
    ensures e.result.Err? ==> e.result.error == NotFound && e.store == storage
    ensures e.result.Ok? ==>
      e.store == storage.(state := Some(storage.state.value.(vecOptStrings := newVecOptStrings)))
    ensures e.result.Ok? ==> e.result.value == [Attribute("new_vec_opt_strings", "new_vec_opt_strings")]
  {
    var updated := UpdateState(storage, (state: State) => Ok(state.(vecOptStrings := newVecOptStrings)));
    match updated.result
    case Err(error) => Effect(updated.store, Err(error))
    case Ok(_) => Effect(updated.store, Ok([Attribute("new_vec_opt_strings", "new_vec_opt_strings")]))
  }

  /** Sets `vec_denom_units`; the attribute value is a fixed string. */
  function SetVecDenomUnits(storage: Storage, newVecDenomUnits: seq<DenomUnit>): (e: Effect<Storage, Response>)
    ensures e.result.Ok? <==> storage.state.Some?
    ensures e.result.Err? ==> e.result.error == NotFound && e.store == storage
    ensures e.result.Ok? ==>
      e.store == storage.(state := Some(storage.state.value.(vecDenomUnits := newVecDenomUnits)))
    ensures e.result.Ok? ==> e.result.value == [Attribute("new_vec_denom_units", "new_vec_denom_units")]
  {
    var updated := UpdateState(storage, (state: State) => Ok(state.(vecDenomUnits := newVecDenomUnits)));
    match updated.result
    case Err(error) => Effect(updated.store, Err(error))
    case Ok(_) => Effect(updated.store, Ok([Attribute("new_vec_denom_units", "new_vec_denom_units")]))
  }

  /** Hands the caller and the event, unchanged, to the owner machine's `Update`. */
  function UpdateOwner(api: Api, storage: Storage, info: MessageInfo, update: Owner.OwnerUpdate): (e: Effect<Storage, Response>)
    ensures e.result == Owner.Update(api, storage.owner, info, update).result
    ensures e.store.owner == Owner.Update(api, storage.owner, info, update).store
    ensures e.store.state == storage.state && e.store.version == storage.version
  {
    var owned := Owner.Update(api, storage.owner, info, update);
    Effect(storage.(owner := owned.store), owned.result)
  }

  //--------------------------------------------------------------------------
  // Properties of the dispatch
  //--------------------------------------------------------------------------

  /** The setters never see the caller: any two callers get the same outcome. */
  lemma SettersIgnoreCaller(api: Api, storage: Storage, alice: MessageInfo, bob: MessageInfo, msg: Msg.ExecuteMsg)
    requires !msg.UpdateOwner?
    ensures Execute(api, storage, alice, msg) == Execute(api, storage, bob, msg)
  {
  }

  /** Every setter fails, writing nothing, when the `State` record is absent. */
  lemma SettersNeedState(api: Api, storage: Storage, info: MessageInfo, msg: Msg.ExecuteMsg)
    requires !msg.UpdateOwner? && storage.state.None?
    ensures Execute(api, storage, info, msg) == Effect(storage, Err(NotFound))
  {
  }

  /** A caller who is not the owner cannot change anything through an owner update. */
  lemma OwnerUpdateIsGated(api: Api, storage: Storage, info: MessageInfo, update: Owner.OwnerUpdate)
    requires storage.owner.Some? && info.sender != storage.owner.value.owner
    ensures Execute(api, storage, info, Msg.UpdateOwner(update)) == Effect(storage, Err(NotOwner))
  {
  }
}
