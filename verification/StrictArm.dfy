/**
 The strict arm of a pass as a function of the store: what one pass over all resources does when no request fails and
 nobody else writes.
 */
module StrictArm {
  import opened Utils
  import opened Cluster
  import opened Config
  import opened Desired
  import opened States

  datatype Step = Bring(task: Task) | ConsoleStep | OcsStep | LabelStep | ReportStep

  const ARM_LENGTH: nat := 17

  /** All steps before the report. */
  const RESOURCE_STEPS: nat := ARM_LENGTH - 1

  /** The steps in their order. */
  function ArmStep(n: nat): Step
    requires n < ARM_LENGTH
  {
    match n
    case 0 => Bring(NoobaaTask)
    case 1 => Bring(ConsoleServiceTask)
    case 2 => Bring(ConsolePluginTask)
    case 3 => ConsoleStep
    case 4 => OcsStep
    case 5 => Bring(RBACTask)
    case 6 => Bring(PrometheusServiceTask)
    case 7 => Bring(ProxyPolicyTask)
    case 8 => Bring(RelabelTask)
    case 9 => Bring(PrometheusTask)
    case 10 => Bring(AlertmanagerTask)
    case 11 => Bring(AlertmanagerConfigTask)
    case 12 => LabelStep
    case 13 => Bring(DmsTask)
    case 14 => Bring(NoobaaRulesTask)
    case 15 => Bring(IngressTask)
    case _ => ReportStep
  }

  /** Create-or-update: get, mutate, then create, or update if something changed. None is an error. */
  function Brought(s: Settings, x: Context, c: Cluster, t: Task): Option<Cluster> {
    var k := KeyOf(s, t);
    match Wanted(s, x, InputsOf(s, c), t, Present(x, c, t, k))
    case Err => None
    case Ok(o) => Written(c, k, o)
  }

  /** What a task's mutate function gets to work on. */
  function Present(x: Context, c: Cluster, t: Task, k: Key): Object {
    if k in c.objects then c.objects[k] else Base(x, t)
  }

  function Written(c: Cluster, k: Key, o: Object): Option<Cluster> {
    if k !in c.objects then Accepted(Exec(c, Create(k, o)))
    else if o == c.objects[k] then Some(c)
    else Accepted(Exec(c, Update(k, o)))
  }

  function Accepted(r: (Cluster, Response)): Option<Cluster> {
    if r.1.Stored? then Some(r.0) else None
  }

  predicate Lists(items: seq<Item>, plugin: string) {
    exists i :: 0 <= i < |items| && plugin in PluginsOf(items[i].obj)
  }

  function ConsoleBrought(s: Settings, x: Context, c: Cluster): Option<Cluster> {
    if Lists(ListOf(c, Console, None), CONSOLE_NAME) then Some(c) else Brought(s, x, c, ConsoleClusterTask)
  }

  const OCS_DEPLOYMENTS := {"ocs-operator", "ocs-metrics-exporter", "rook-ceph-operator"}

  /** The deployment is one of the three that the operator wants at zero. */
  predicate ToStop(d: DeploymentSpec) {
    d.name == "ocs-operator" || d.name == "ocs-metrics-exporter" || d.name == "rook-ceph-operator"
  }

  /** The three deployments at zero replicas, all else as it was. */
  predicate ScaledDown(before: seq<DeploymentSpec>, after: seq<DeploymentSpec>) {
    && |after| == |before|
    && forall i :: 0 <= i < |after| ==>
         after[i].name == before[i].name && after[i].containers == before[i].containers
         && after[i].replicas == if ToStop(before[i]) then 0 else before[i].replicas
  }

  /** One of them is not at zero. */
  predicate SomeToStop(ds: seq<DeploymentSpec>) {
    exists i :: 0 <= i < |ds| && ToStop(ds[i]) && ds[i].replicas != 0
  }

  function Downscaled(ds: seq<DeploymentSpec>): seq<DeploymentSpec> {
    seq(|ds|, i requires 0 <= i < |ds| => if ds[i].name in OCS_DEPLOYMENTS then ds[i].(replicas := 0) else ds[i])
  }

  predicate NoobaaIsReady(x: Context) {
    x.mcg.status.components.noobaa.Ready?
  }

  function OcsScaled(s: Settings, x: Context, c: Cluster): Option<Cluster> {
    if !NoobaaIsReady(x) then Some(c)
    else
      match FirstWithPrefix(ListOf(c, CSV, Some(s.namespace)), OCS_CSV_PREFIX)
      case None => None
      case Some(item) =>
        var ds := DeploymentsOf(item.obj);
        if Downscaled(ds) == ds then Some(c)
        else Accepted(Exec(c, Update(item.key, item.obj.(spec := Deployments(Downscaled(ds))))))
  }

  /** The labelling of one listed object: all but the rules of the foreign operator get the monitoring label. */
  function Labelled(item: Item): Object {
    if item.key.kind.PrometheusRule? && item.key.name == FOREIGN_RULES_NAME then
      if MON_LABEL_KEY in item.obj.labels && item.obj.labels[MON_LABEL_KEY] == MON_LABEL_VALUE
      then WithoutLabel(item.obj, MON_LABEL_KEY) else item.obj
    else Monitored(item.obj)
  }

  function UpdateAll(c: Cluster, items: seq<Item>): Option<Cluster>
    decreases |items|
  {
    if items == [] then Some(c)
    else
      match Accepted(Exec(c, Update(items[0].key, Labelled(items[0]))))
      case None => None
      case Some(d) => UpdateAll(d, items[1..])
  }

  function LabelKind(s: Settings, c: Cluster, kind: Kind): Option<Cluster> {
    UpdateAll(c, ListOf(c, kind, Some(s.namespace)))
  }

  function LabelledAll(s: Settings, c: Cluster): Option<Cluster> {
    match LabelKind(s, c, PodMonitor)
    case None => None
    case Some(d) =>
      match LabelKind(s, d, ServiceMonitor)
      case None => None
      case Some(e) => LabelKind(s, e, PrometheusRule)
  }

  function StepAfter(s: Settings, x: Context, c: Cluster, step: Step): Option<Cluster> {
    match step
    case Bring(t) => Brought(s, x, c, t)
    case ConsoleStep => ConsoleBrought(s, x, c)
    case OcsStep => OcsScaled(s, x, c)
    case LabelStep => LabelledAll(s, c)
    case ReportStep => Accepted(Exec(c, UpdateStatus(s.McgKey(), x.mcg)))
  }

  /** What a step does to a store; None if it fails. */
  type Stepper = (Cluster, Step) -> Option<Cluster>

  function Steps(s: Settings, x: Context): Stepper {
    (c, step) => StepAfter(s, x, c, step)
  }

  /** The store after the first `n` steps of the arm, None if one of them fails. */
  function Arm(f: Stepper, c: Cluster, n: nat): Option<Cluster>
    requires n <= ARM_LENGTH
  {
    if n == 0 then Some(c)
    else
      match Arm(f, c, n - 1)
      case None => None
      case Some(d) => f(d, ArmStep(n - 1))
  }

  // Where a pass stops

  /** The store after the updates up to the first that is refused. */
  function UpdatedUntil(c: Cluster, items: seq<Item>): Cluster
    decreases |items|
  {
    if items == [] then c
    else
      match Accepted(Exec(c, Update(items[0].key, Labelled(items[0]))))
      case None => c
      case Some(d) => UpdatedUntil(d, items[1..])
  }

  function LabelledUntil(s: Settings, c: Cluster, kind: Kind): Cluster {
    UpdatedUntil(c, ListOf(c, kind, Some(s.namespace)))
  }

  function AllLabelledUntil(s: Settings, c: Cluster): Cluster {
    var d := LabelledUntil(s, c, PodMonitor);
    if LabelKind(s, c, PodMonitor).None? then d
    else
      var e := LabelledUntil(s, d, ServiceMonitor);
      if LabelKind(s, d, ServiceMonitor).None? then e else LabelledUntil(s, e, PrometheusRule)
  }

  /** A step, and whether it failed: only the labelling leaves something behind when it does. */
  function StepRun(s: Settings, x: Context, c: Cluster, step: Step): (Cluster, bool) {
    match StepAfter(s, x, c, step)
    case Some(d) => (d, false)
    case None => (if step.LabelStep? then AllLabelledUntil(s, c) else c, true)
  }

  /** The first `n` steps of the arm up to the first that fails, and whether one does. */
  function ArmRun(s: Settings, x: Context, c: Cluster, n: nat): (Cluster, bool)
    requires n <= ARM_LENGTH
  {
    if n == 0 then (c, false)
    else
      var (d, err) := ArmRun(s, x, c, n - 1);
      if err then (d, err) else StepRun(s, x, d, ArmStep(n - 1))
  }

  /** A run without failure is the arm as a function of the store. */
  lemma {:induction false} ArmRunIsArm(s: Settings, x: Context, c: Cluster, n: nat)
    requires n <= ARM_LENGTH
    ensures var (d, err) := ArmRun(s, x, c, n);
      if err then Arm(Steps(s, x), c, n).None? else Arm(Steps(s, x), c, n) == Some(d)
  {
    hide StepAfter;
    if n > 0 {
      ArmRunIsArm(s, x, c, n - 1);
    }
  }

  /** A whole strict pass: all steps of the arm. */
  function ArmAfter(s: Settings, x: Context, c: Cluster): Option<Cluster> {
    Arm(Steps(s, x), c, ARM_LENGTH)
  }

  const STRATEGY_NONE := "none"
  const STRATEGY_STRICT := "strict"

  function StrategyOf(o: Object): string {
    if o.spec == Strategy(STRATEGY_NONE) then STRATEGY_NONE else STRATEGY_STRICT
  }

  /** The ManagedMCG with the status that a pass over `c` reports for it. */
  function Reported(s: Settings, c: Cluster, mcg: Object): Object {
    mcg.(status := mcg.status.(components := StatesIn(s, c), strategy := StrategyOf(mcg)))
  }

  /** What a pass that starts in `c` knows when it reaches the strict arm, the finalizer being there already. */
  function ContextAt(s: Settings, c: Cluster, params: map<string, string>): Context
    requires s.McgKey() in c.objects
  {
    Context(Reported(s, c, c.objects[s.McgKey()]), Held(c, s.NoobaaKey()), Held(c, s.PrometheusKey()),
            Held(c, s.AlertmanagerKey()), params)
  }

  function Held(c: Cluster, k: Key): Object {
    if k in c.objects then c.objects[k] else NEW_OBJECT
  }
}
