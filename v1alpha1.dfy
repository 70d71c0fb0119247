/**
 * The PrometheusServer custom resource: its phase values, its guard
 * finalizer token and the fields of an object the reconciler reads.
 */
module V1alpha1 {

  const GroupName: string := "k8slab.info"
  const Plural: string := "prometheusservers"

  /** The guard finalizer token, `Plural + "." + GroupName`. */
  const Name: string := Plural + "." + GroupName

  // Phase wire values.
  const Empty: string := ""
  const Initializing: string := "INITIALIZING"
  const WaitingCreation: string := "WAITING_CREATION"
  const Running: string := "RUNNING"
  const Reloading: string := "RELOADING"
  const WaitingRemoval: string := "WAITING_REMOVAL"
  const Terminating: string := "TERMINATING"
  const Terminated: string := "TERMINATED"

  const KnownPhases: set<string> :=
    {Empty, Initializing, WaitingCreation, Running, Reloading, WaitingRemoval, Terminating, Terminated}

  datatype PrometheusServerSpec = PrometheusServerSpec(version: string, config: string)

  /**
   * A PrometheusServer as the reconciler sees it. `generation` is bumped by
   * the store on every spec edit; `deletionMarked` stands for a non-zero
   * deletion timestamp; `phase` is `status.phase`.
   */
  datatype PrometheusServer = PrometheusServer(
    namespace: string,
    name: string,
    resourceVersion: string,
    generation: int,
    finalizers: seq<string>,
    deletionMarked: bool,
    spec: PrometheusServerSpec,
    phase: string)
}
