/** The migrate entry point: a name and version gate, then a version rewrite. */
module Migrate {
  import opened Wrappers
  import opened CosmWasm
  import opened Errors
  import opened ContractState
  import StringOrder

  const SAME_TYPE_ONLY: string := "Can only upgrade from same type"
  const NO_DOWNGRADE: string := "Cannot upgrade from a newer version"

  /**
   * Accepts a migration from the same contract at a version that is not
   * greater, as strings, than `contractVersion`, and records the new version.
   */
  function Migrate(contractVersion: string, storage: Storage): (e: Effect<Storage, Response>)
    ensures storage.version.None? ==> e == Effect(storage, Err(NotFound))
    ensures e.result.Err? ==> e.store == storage
    ensures storage.version.Some? && storage.version.value.contract != CONTRACT_NAME ==>
      e.result == Err(Generic(SAME_TYPE_ONLY))
    ensures storage.version.Some? && storage.version.value.contract == CONTRACT_NAME ==>
      (e.result == Err(Generic(NO_DOWNGRADE)) <==> StringOrder.Less(contractVersion, storage.version.value.version))
    ensures e.result.Ok? <==>
      && storage.version.Some?
      && storage.version.value.contract == CONTRACT_NAME
      && !StringOrder.Less(contractVersion, storage.version.value.version)
    ensures e.result.Ok? ==>
      && e.store == storage.(version := Some(ContractVersion(CONTRACT_NAME, contractVersion)))
      && e.result.value == []
  {
    match storage.version
    case None => Effect(storage, Err(NotFound))
    case Some(stored) =>
      if stored.contract != CONTRACT_NAME then
        Effect(storage, Err(Generic(SAME_TYPE_ONLY)))
      else if StringOrder.Less(contractVersion, stored.version) then
        Effect(storage, Err(Generic(NO_DOWNGRADE)))
      else
        Effect(storage.(version := Some(ContractVersion(CONTRACT_NAME, contractVersion))), Ok([]))
  }

  /** Re-migrating to the version already recorded is allowed and changes nothing. */
  lemma MigrateSameVersionIsNoOp(contractVersion: string, storage: Storage)
    requires storage.version == Some(ContractVersion(CONTRACT_NAME, contractVersion))
    ensures Migrate(contractVersion, storage) == Effect(storage, Ok([]))
  {
    StringOrder.LessIrreflexive(contractVersion);
  }

  /** Migrating from a version that is smaller as a string succeeds. */
  lemma MigrateFromOlderSucceeds(contractVersion: string, storage: Storage)
    requires storage.version.Some? && storage.version.value.contract == CONTRACT_NAME
    requires StringOrder.Less(storage.version.value.version, contractVersion)
    ensures Migrate(contractVersion, storage).result.Ok?
  {
    StringOrder.LessAsymmetric(storage.version.value.version, contractVersion);
  }

  /** A successful migration can be repeated: the second one succeeds and changes nothing. */
  lemma MigrateIdempotent(contractVersion: string, storage: Storage)
    requires Migrate(contractVersion, storage).result.Ok?
    ensures var once := Migrate(contractVersion, storage).store;
      Migrate(contractVersion, once) == Effect(once, Ok([]))
  {
    MigrateSameVersionIsNoOp(contractVersion, Migrate(contractVersion, storage).store);
  }

  /**
   * Comparing versions as strings is not comparing them as numbers: a stored
   * "0.9.0" blocks the upgrade to "0.10.0" as if it were newer.
   */
  lemma StringVersionsMisorderReleases(storage: Storage)
    requires storage.version == Some(ContractVersion(CONTRACT_NAME, "0.9.0"))
    ensures Migrate("0.10.0", storage) == Effect(storage, Err(Generic(NO_DOWNGRADE)))
  {
  }
}
