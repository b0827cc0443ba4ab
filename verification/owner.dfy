/**
 * The owner state machine: one persisted record holding the current owner and
 * an optional status, which only the current owner may change.
 *
 * The machine works on its own storage item, modelled as the slot
 * `Option<OwnerState>` (`None` until the first save); operations that write
 * return the slot as they leave it.
 */
module Owner {
  import opened Wrappers
  import opened CosmWasm
  import opened Errors

  datatype OwnerState = OwnerState(owner: Addr, status: Option<string>)

  /** The events the machine accepts. */
  datatype OwnerUpdate =
    | UpdateOwner(newOwner: string)
    | UpdateStatus(newStatus: string)
    | ClearStatus

  /** The query projection: the owner as a plain string, and the status. */
  datatype OwnerResponse = OwnerResponse(owner: string, status: Option<string>)

  type Item = Option<OwnerState>

  /** Loading the item fails with `NotFound` when it was never saved. */
  function Load(item: Item): (r: Result<OwnerState, Error>)
    ensures r.Ok? <==> item.Some?
    ensures r.Ok? ==> r.value == item.value
    ensures r.Err? ==> r.error == NotFound
  {
    match item
    case Some(state) => Ok(state)
    case None => Err(NotFound)
  }

  //--------------------------------------------------------------------------
  // Queries
  //--------------------------------------------------------------------------

  function Current(item: Item): (r: Result<Addr, Error>)
    ensures r.Ok? <==> item.Some?
    ensures r.Ok? ==> r.value == item.value.owner
    ensures r.Err? ==> r.error == NotFound
  {
    var state :- Load(item);
    Ok(state.owner)
  }

  function Status(item: Item): (r: Result<Option<string>, Error>)
    ensures r.Ok? <==> item.Some?
    ensures r.Ok? ==> r.value == item.value.status
    ensures r.Err? ==> r.error == NotFound
  {
    var state :- Load(item);
    Ok(state.status)
  }

  /** Whether `addr` is the stored owner; fails when there is no record. */
  function IsOwner(item: Item, addr: Addr): (r: Result<bool, Error>)
    ensures r.Ok? <==> item.Some?
    ensures r.Ok? ==> (r.value <==> addr == item.value.owner)
    ensures r.Err? ==> r.error == NotFound
  {
    var current :- Current(item);
    Ok(current == addr)
  }

  function Query(item: Item): (r: Result<OwnerResponse, Error>)
    ensures r.Ok? <==> item.Some?
    ensures r.Ok? ==> r.value.owner == item.value.owner.text && r.value.status == item.value.status
    ensures r.Err? ==> r.error == NotFound
  {
    var owner :- Current(item);
    match Status(item)
    case Err(error) => Err(error)
    case Ok(status) => Ok(OwnerResponse(owner.text, status))
  }

  //--------------------------------------------------------------------------
  // Assertions
  //--------------------------------------------------------------------------

  /** The single authorisation checkpoint: succeeds exactly when `IsOwner` says yes. */
  function AssertOwner(item: Item, caller: Addr): (r: Result<(), Error>)
    ensures r.Ok? <==> IsOwner(item, caller) == Ok(true)
    ensures r.Err? ==> r.error == (if item.None? then NotFound else NotOwner)
  {
    var isOwner :- IsOwner(item, caller);
    if !isOwner then Err(NotOwner) else Ok(())
  }

  //--------------------------------------------------------------------------
  // Mutations
  //--------------------------------------------------------------------------

  /**
   * Saves a fresh record whose owner is the validated `owner`. Whatever was
   * stored before is overwritten; nothing checks that the item was empty.
   */
  function Initialize(api: Api, item: Item, owner: string, status: Option<string>): (e: Effect<Item, ()>)
    ensures e.result.Ok? <==> api.addrValidate(owner).Some?
    ensures e.result.Err? ==> e.result.error == Invalid && e.store == item
    ensures e.result.Ok? ==> Query(e.store) == Ok(OwnerResponse(api.addrValidate(owner).value.text, status))
    ensures e.result.Ok? ==> IsOwner(e.store, api.addrValidate(owner).value) == Ok(true)
  {
    match api.addrValidate(owner)
    case None => Effect(item, Err(Invalid))
    case Some(validated) => Effect(Some(OwnerState(validated, status)), Ok(()))
  }

  /**
   * Computes the record that follows `event`, after checking that `sender` is
   * the owner. It only reads storage.
   */
  function TransitionState(api: Api, item: Item, sender: Addr, event: OwnerUpdate): (r: Result<OwnerState, Error>)
    ensures item.None? ==> r == Err(NotFound)
    ensures item.Some? && sender != item.value.owner ==> r == Err(NotOwner)
    ensures r.Ok? ==> item.Some? && sender == item.value.owner
    ensures item.Some? && sender == item.value.owner ==>
      r == match event
        case UpdateOwner(newOwner) =>
          (match api.addrValidate(newOwner)
           case Some(validated) => Ok(OwnerState(validated, item.value.status))
           case None => Err(Invalid))
        case UpdateStatus(newStatus) => Ok(item.value.(status := Some(newStatus)))
        case ClearStatus => Ok(item.value.(status := None))
  {
    var _ :- AssertOwner(item, sender);
    match event
    case UpdateOwner(newOwner) =>
      var validated :- api.addrValidate(newOwner).OkOr(Invalid);
      (match Status(item)
       case Err(error) => Err(error)
       case Ok(status) => Ok(OwnerState(validated, status)))
    case UpdateStatus(newStatus) =>
      (match Current(item)
       case Err(error) => Err(error)
       case Ok(owner) => Ok(OwnerState(owner, Some(newStatus))))
    case ClearStatus =>
      match Current(item)
      case Err(error) => Err(error)
      case Ok(owner) => Ok(OwnerState(owner, None))
  }

  /** The attributes a successful update reports, in the order they are added. */
  function UpdateAttributes(response: OwnerResponse, sender: Addr): (r: Response)
    ensures |r| == 4
    ensures r[0].key == "action" && r[1].key == "owner" && r[2].key == "status" && r[3].key == "sender"
    ensures r[0].value == "update_owner" && r[1].value == response.owner && r[3].value == sender.text
    ensures response.status.Some? ==> r[2].value == response.status.value
    ensures response.status.None? ==> r[2].value == ""
  {
    [ Attribute("action", "update_owner"),
      Attribute("owner", response.owner),
      Attribute("status", response.status.GetOr("")),
      Attribute("sender", sender.text) ]
  }

  /**
   * Applies `event` on behalf of `info.sender`: transition, save, then read
   * the saved record back to build the response. Every failure happens before
   * the save.
   */
  function Update(api: Api, item: Item, info: MessageInfo, event: OwnerUpdate): (e: Effect<Item, Response>)
    ensures e.result.Err? ==> e.store == item
    ensures item.None? ==> e.result == Err(NotFound)
    ensures item.Some? && info.sender != item.value.owner ==> e.result == Err(NotOwner)
    ensures e.result.Ok? <==> TransitionState(api, item, info.sender, event).Ok?
    ensures e.result.Ok? ==> e.store == Some(TransitionState(api, item, info.sender, event).value)
    ensures e.result.Ok? ==> e.result.value == [
      Attribute("action", "update_owner"),
      Attribute("owner", e.store.value.owner.text),
      Attribute("status", e.store.value.status.GetOr("")),
      Attribute("sender", info.sender.text)]
  {
    match TransitionState(api, item, info.sender, event)
    case Err(error) => Effect(item, Err(error))
    case Ok(newState) =>
      var saved := Some(newState);
      match Query(saved)
      case Err(error) => Effect(saved, Err(error))
      case Ok(response) => Effect(saved, Ok(UpdateAttributes(response, info.sender)))
  }

  //--------------------------------------------------------------------------
  // Properties of the machine
  //--------------------------------------------------------------------------

  /** Nobody but the owner changes the record, whatever the event. */
  lemma NonOwnerIsRejected(api: Api, item: Item, info: MessageInfo, event: OwnerUpdate)
    requires item.Some? && info.sender != item.value.owner
    ensures Update(api, item, info, event) == Effect(item, Err(NotOwner))
  {
  }

  /** An owner transfer installs the validated address and carries the status over. */
  lemma UpdateOwnerKeepsStatus(api: Api, item: Item, info: MessageInfo, newOwner: string)
    requires item.Some? && info.sender == item.value.owner
    requires api.addrValidate(newOwner).Some?
    ensures var e := Update(api, item, info, UpdateOwner(newOwner));
      && e.result.Ok?
      && Query(e.store) == Ok(OwnerResponse(api.addrValidate(newOwner).value.text, item.value.status))
  {
  }

  /** A transfer to an address that fails validation is refused and saves nothing. */
  lemma UpdateOwnerRejectsInvalid(api: Api, item: Item, info: MessageInfo, newOwner: string)
    requires item.Some? && info.sender == item.value.owner
    requires api.addrValidate(newOwner).None?
    ensures Update(api, item, info, UpdateOwner(newOwner)) == Effect(item, Err(Invalid))
  {
  }

  /** A status update stores exactly the given string, empty or not, and keeps the owner. */
  lemma UpdateStatusSetsStatus(api: Api, item: Item, info: MessageInfo, newStatus: string)
    requires item.Some? && info.sender == item.value.owner
    ensures var e := Update(api, item, info, UpdateStatus(newStatus));
      && e.result.Ok?
      && Query(e.store) == Ok(OwnerResponse(item.value.owner.text, Some(newStatus)))
  {
  }

  /** Clearing the status keeps the owner, and clearing twice changes nothing more. */
  lemma ClearStatusIdempotent(api: Api, item: Item, info: MessageInfo)
    requires item.Some? && info.sender == item.value.owner
    ensures var first := Update(api, item, info, ClearStatus);
      var second := Update(api, first.store, info, ClearStatus);
      && first.result.Ok? && second.result.Ok?
      && first.store == Some(OwnerState(item.value.owner, None))
      && second.store == first.store
  {
  }

  /**
   * In the reported attributes a status set to the empty string and a cleared
   * status look the same, although the stored records differ.
   */
  lemma EmptyAndClearedStatusReportAlike(api: Api, item: Item, info: MessageInfo)
    requires item.Some? && info.sender == item.value.owner
    ensures var emptied := Update(api, item, info, UpdateStatus(""));
      var cleared := Update(api, item, info, ClearStatus);
      && emptied.result == cleared.result
      && emptied.store != cleared.store
  {
  }

  /**
   * The worked scenario: "alice" sets a status, "bob" is refused a transfer,
   * then "alice" hands the record to "bob", whose status is carried over.
   */
  lemma AliceBobScenario(api: Api)
    requires api.addrValidate("alice") == Some(Addr("alice"))
    requires api.addrValidate("bob") == Some(Addr("bob"))
    ensures var alice := MessageInfo(Addr("alice"));
      var bob := MessageInfo(Addr("bob"));
      var init := Initialize(api, None, "alice", None);
      var step1 := Update(api, init.store, alice, UpdateStatus("active"));
      var step2 := Update(api, step1.store, bob, UpdateOwner("bob"));
      var step3 := Update(api, step1.store, alice, UpdateOwner("bob"));
      && init.result.Ok?
      && Query(step1.store) == Ok(OwnerResponse("alice", Some("active")))
      && step2 == Effect(step1.store, Err(NotOwner))
      && step3.result.Ok?
      && Query(step3.store) == Ok(OwnerResponse("bob", Some("active")))
  {
  }
}
