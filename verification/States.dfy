/** The states of the four components, from the objects that show them. */
module States {
  import opened Cluster
  import opened Config

  function PhaseState(r: Response): ComponentState {
    match r
    case Found(o) => if o.status.phase == "Ready" then Ready else Pending
    case NotFound => Missing
    case _ => Unknown
  }

  function DesiredReplicas(o: Object): int {
    match o.spec
    case Metrics(Some(n), _, _, _, _) => n
    case Replicated(Some(n)) => n
    case _ => 1
  }

  /** The console always wants one replica. */
  function ConsoleState(plugin: Response, deployment: Response): ComponentState {
    match plugin
    case Found(o) => if deployment.Found? && deployment.obj.status.readyReplicas >= 1 then Ready else Pending
    case NotFound => Missing
    case _ => Unknown
  }

  /** The state of a component from the replies for its resource and for the workload behind it. */
  function ReplicaState(resource: Response, workload: Response): ComponentState {
    match resource
    case Found(o) =>
      if workload.Found? && workload.obj.status.readyReplicas >= DesiredReplicas(o) then Ready else Pending
    case NotFound => Missing
    case _ => Unknown
  }

  // What the states mean

  /** As many replicas are ready as the spec of a Prometheus or an Alertmanager asks for, one if it gives no number. */
  predicate EnoughReady(resource: Object, workload: Object) {
    match resource.spec
    case Metrics(Some(n), _, _, _, _) => workload.status.readyReplicas >= n
    case Replicated(Some(n)) => workload.status.readyReplicas >= n
    case _ => workload.status.readyReplicas >= 1
  }

  predicate PhaseShown(resource: Response, state: ComponentState) {
    && (state.Ready? <==> resource.Found? && resource.obj.status.phase == "Ready")
    && (state.Pending? <==> resource.Found? && resource.obj.status.phase != "Ready")
    && (state.Missing? <==> resource.NotFound?)
    && (state.Unknown? <==> !resource.Found? && !resource.NotFound?)
  }

  predicate ReplicasShown(resource: Response, workload: Response, state: ComponentState) {
    && (state.Ready? <==> resource.Found? && workload.Found? && EnoughReady(resource.obj, workload.obj))
    && (state.Pending? <==> resource.Found? && !(workload.Found? && EnoughReady(resource.obj, workload.obj)))
    && (state.Missing? <==> resource.NotFound?)
    && (state.Unknown? <==> !resource.Found? && !resource.NotFound?)
  }

  predicate ConsoleShown(plugin: Response, deployment: Response, state: ComponentState) {
    var enough := deployment.Found? && deployment.obj.status.readyReplicas >= 1;
    && (state.Ready? <==> plugin.Found? && enough)
    && (state.Pending? <==> plugin.Found? && !enough)
    && (state.Missing? <==> plugin.NotFound?)
    && (state.Unknown? <==> !plugin.Found? && !plugin.NotFound?)
  }

  lemma StatesShown(resource: Response, workload: Response)
    ensures PhaseShown(resource, PhaseState(resource))
    ensures ReplicasShown(resource, workload, ReplicaState(resource, workload))
    ensures ConsoleShown(resource, workload, ConsoleState(resource, workload))
  {
  }

  function Look(c: Cluster, k: Key): Response {
    if k in c.objects then Found(c.objects[k]) else NotFound
  }

  /** The component states as the store has them. */
  function StatesIn(s: Settings, c: Cluster): Components {
    Components(PhaseState(Look(c, s.NoobaaKey())),
               ReplicaState(Look(c, s.PrometheusKey()), Look(c, s.PrometheusSetKey())),
               ReplicaState(Look(c, s.AlertmanagerKey()), Look(c, s.AlertmanagerSetKey())),
               ConsoleState(Look(c, s.ConsolePluginKey()), Look(c, s.ConsoleDeploymentKey())))
  }

  const ALL_READY := Components(Ready, Ready, Ready, Ready)
}
