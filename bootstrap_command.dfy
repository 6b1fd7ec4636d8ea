/**
 * The reconfiguration command the bootstrap loop executes: two advisory
 * lock checks that only warn, then a request for the history cleanup job when
 * the job table exists. The store is seen through the ids of the properties
 * it holds and the names of the tables it has metadata for; what the command
 * does is returned as the sequence of its effects, in order.
 */
module BootstrapCommand {

  const DEPLOYMENT_LOCK: string := "deployment.lock"
  const HISTORY_CLEANUP_LOCK: string := "history.cleanup.job.lock"
  const JOB_TABLE: string := "ACT_RU_JOB"

  datatype Store = Store(properties: set<string>, tables: set<string>)

  /** A warning logged by the command, or the request to create the cleanup job. */
  datatype Effect =
    | NoDeploymentLockPropertyFound
    | NoHistoryCleanupLockPropertyFound
    | CleanUpHistoryAsync

  /** Warns exactly when the deployment lock property is missing. */
  function CheckDeploymentLockExists(store: Store): (effects: seq<Effect>)
    ensures effects == [] <==> DEPLOYMENT_LOCK in store.properties
    ensures forall e :: e in effects ==> e == NoDeploymentLockPropertyFound
    ensures |effects| <= 1
  {
    if DEPLOYMENT_LOCK !in store.properties then [NoDeploymentLockPropertyFound] else []
  }

  /** Warns exactly when the history cleanup lock property is missing. */
  function CheckHistoryCleanupLockExists(store: Store): (effects: seq<Effect>)
    ensures effects == [] <==> HISTORY_CLEANUP_LOCK in store.properties
    ensures forall e :: e in effects ==> e == NoHistoryCleanupLockPropertyFound
    ensures |effects| <= 1
  {
    if HISTORY_CLEANUP_LOCK !in store.properties then [NoHistoryCleanupLockPropertyFound] else []
  }

  /** Requests the cleanup job exactly when the job table has metadata. */
  function CreateHistoryCleanupJob(store: Store): (effects: seq<Effect>)
    ensures effects == [] <==> JOB_TABLE !in store.tables
    ensures forall e :: e in effects ==> e == CleanUpHistoryAsync
    ensures |effects| <= 1
  {
    if JOB_TABLE in store.tables then [CleanUpHistoryAsync] else []
  }

  /** The position of each effect in the command's order of steps. */
  function Rank(e: Effect): nat {
    match e
    case NoDeploymentLockPropertyFound => 0
    case NoHistoryCleanupLockPropertyFound => 1
    case CleanUpHistoryAsync => 2
  }

  /**
   * The whole command. It always completes: each missing lock adds exactly
   * its warning, the job is requested exactly when the job table exists,
   * nothing happens twice, and the effects come in the order deployment
   * warning, cleanup warning, job request.
   */
  function Execute(store: Store): (effects: seq<Effect>)
    ensures NoDeploymentLockPropertyFound in effects <==> DEPLOYMENT_LOCK !in store.properties
    ensures NoHistoryCleanupLockPropertyFound in effects <==> HISTORY_CLEANUP_LOCK !in store.properties
    ensures CleanUpHistoryAsync in effects <==> JOB_TABLE in store.tables
    ensures forall i, j :: 0 <= i < j < |effects| ==> Rank(effects[i]) < Rank(effects[j])
  {
    CheckDeploymentLockExists(store) + CheckHistoryCleanupLockExists(store) + CreateHistoryCleanupJob(store)
  }

  /** Whether the job is requested depends on the job table alone, never on the locks. */
  lemma JobRequestIgnoresLocks(s1: Store, s2: Store)
    requires s1.tables == s2.tables
    ensures (CleanUpHistoryAsync in Execute(s1)) == (CleanUpHistoryAsync in Execute(s2))
  {
  }
}
