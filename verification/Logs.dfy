/** What the parts of a pass send and are told: which logs of exchanges a part may leave, and how they decide its end. */
module Logs {
  import opened Utils
  import opened Cluster
  import opened Config
  import opened Desired
  import opened StrictArm

  datatype Exchange = Exchange(req: Request, resp: Response)

  predicate IsRead(e: Exchange) {
    e.req.Get? || e.req.List?
  }

  ghost predicate OnlyRead(log: seq<Exchange>) {
    forall i :: 0 <= i < |log| ==> IsRead(log[i])
  }

  /** The logs of successive parts, one after the other. */
  function Flat(logs: seq<seq<Exchange>>): seq<Exchange> {
    if logs == [] then [] else Flat(logs[..|logs| - 1]) + Last(logs)
  }

  lemma FlatNone()
    ensures Flat([]) == []
  {
  }

  lemma FlatMore(logs: seq<seq<Exchange>>, log: seq<Exchange>)
    ensures Flat(logs + [log]) == Flat(logs) + log
  {
    assert (logs + [log])[..|logs|] == logs;
  }

  // Mutate functions

  /** How create-or-update ends; the operator tells "already exists" from other errors. */
  datatype Outcome = Nil | Exists | Failed

  function OutcomeOf(resp: Response): Outcome {
    if resp.Stored? then Nil else if resp.AlreadyExists? then Exists else Failed
  }

  /** What the caller of create-or-update computed before the mutate function runs. */
  datatype Given = Given(annotations: map<string, string>, defaultStore: string, deployment: nat)
  const NOTHING_GIVEN := Given(map[], "", 0)

  predicate GivenMatches(t: Task, g: Given, i: Inputs) {
    && (t.NoobaaTask? ==> g.defaultStore == i.defaultStore)
    && (t.ConsoleServiceTask? ==> i.consoleDeployment == Some(g.deployment))
  }

  function ItemsIn(resp: Response): seq<Item> {
    if resp.Items? then resp.items else []
  }

  function DataIn(resp: Response): Option<map<string, string>> {
    if resp.Found? then Some(DataOf(resp.obj)) else None
  }

  /** The `n`-th reply; a read that was not sent says as little as one that failed. */
  function ReplyAt(asked: seq<Exchange>, n: nat): Response {
    if n < |asked| then asked[n].resp else Failure
  }

  /** The reads of a mutate function, all of them, in their order. */
  function MutateReads(s: Settings, t: Task): seq<Request> {
    match t
    case PrometheusTask => [List(CSV, Some(s.namespace)), Get(s.SecretKey(s.rhobsSecret))]
    case AlertmanagerConfigTask =>
      [Get(s.SecretKey(s.pagerdutySecret)), Get(s.SecretKey(s.deadMansSnitchSecret)), Get(s.SecretKey(s.smtpSecret))]
    case NoobaaRulesTask => [List(ClusterVersion, None)]
    case _ => []
  }

  /** The inputs a mutate function has from its caller and from the replies to its own reads. */
  function InputsHeard(t: Task, g: Given, asked: seq<Exchange>): Inputs {
    match t
    case NoobaaTask => NO_INPUTS.(defaultStore := g.defaultStore)
    case ConsoleServiceTask => NO_INPUTS.(consoleDeployment := Some(g.deployment))
    case PrometheusTask =>
      NO_INPUTS.(proxyImage := ProxyImage(ItemsIn(ReplyAt(asked, 0))), rhobs := DataIn(ReplyAt(asked, 1)))
    case AlertmanagerConfigTask =>
      NO_INPUTS.(pagerduty := DataIn(ReplyAt(asked, 0)), deadMansSnitch := DataIn(ReplyAt(asked, 1)),
                 smtp := DataIn(ReplyAt(asked, 2)))
    case NoobaaRulesTask => NO_INPUTS.(clusterID := ClusterID(ItemsIn(ReplyAt(asked, 0))))
    case _ => NO_INPUTS
  }

  /** A read that must be answered was not: neither way for the remote write secret, not with a list of versions. */
  predicate Unanswered(t: Task, asked: seq<Exchange>) {
    match t
    case PrometheusTask => !ReplyAt(asked, 1).Found? && !ReplyAt(asked, 1).NotFound?
    case NoobaaRulesTask => !ReplyAt(asked, 0).Items?
    case _ => false
  }

  /** What a mutate function makes of `o`, decided by the replies to its reads. */
  function Mutated(s: Settings, x: Context, t: Task, g: Given, asked: seq<Exchange>, o: Object): Result<Object> {
    if Unanswered(t, asked) then Err else Wanted(s, x, InputsHeard(t, g, asked), t, o)
  }

  ghost predicate AsksInOrder(s: Settings, t: Task, asked: seq<Exchange>) {
    && |asked| <= |MutateReads(s, t)|
    && forall i :: 0 <= i < |asked| ==> asked[i].req == MutateReads(s, t)[i]
  }

  /** No answers to further reads could make the mutate function succeed. */
  ghost predicate InVain(s: Settings, x: Context, t: Task, g: Given, asked: seq<Exchange>, o: Object) {
    forall more :: asked <= more ==> Mutated(s, x, t, g, more, o).Err?
  }

  /** A mutate function leaves a read out only once it cannot succeed any more. */
  ghost predicate Asks(s: Settings, x: Context, t: Task, g: Given, asked: seq<Exchange>, o: Object) {
    AsksInOrder(s, t, asked) && (|asked| < |MutateReads(s, t)| ==> InVain(s, x, t, g, asked, o))
  }

  // Create or update

  predicate Wrote(log: seq<Exchange>) {
    log != [] && !IsRead(Last(log))
  }

  function ReadsOf(log: seq<Exchange>): seq<Exchange> {
    if Wrote(log) then log[..|log| - 1] else log
  }

  /** The write that create-or-update owes to the mutated object `o`, if any. */
  function WriteOwed(k: Key, base: Object, found: bool, o: Object): Option<Request> {
    if !found then Some(Create(k, o)) else if o != base then Some(Update(k, o)) else None
  }

  /** Reads, then the one write that is owed; a failed mutate function writes nothing. */
  ghost predicate Brings(s: Settings, x: Context, t: Task, g: Given, base: Object, found: bool, log: seq<Exchange>,
                         out: Outcome)
  {
    && Asks(s, x, t, g, ReadsOf(log), base)
    && match Mutated(s, x, t, g, ReadsOf(log), base)
       case Err => !Wrote(log) && out.Failed?
       case Ok(o) =>
         match WriteOwed(KeyOf(s, t), base, found, o)
         case None => !Wrote(log) && out.Nil?
         case Some(req) => Wrote(log) && Last(log).req == req && out == OutcomeOf(Last(log).resp)
  }

  /** Get, mutate, then create or update; nothing is written after a failed get or a failed mutate. */
  ghost predicate BroughtUp(s: Settings, x: Context, t: Task, g: Given, log: seq<Exchange>, out: Outcome) {
    && 1 <= |log| && log[0].req == Get(KeyOf(s, t))
    && match log[0].resp
       case Found(o) => Brings(s, x, t, g, o, true, log[1..], out)
       case NotFound => Brings(s, x, t, g, Base(x, t), false, log[1..], out)
       case _ => |log| == 1 && out.Failed?
  }

  /** Create-or-update as a step that only succeeds without any error. */
  ghost predicate BringsOrFails(s: Settings, x: Context, t: Task, g: Given, log: seq<Exchange>, err: bool) {
    if err then BroughtUp(s, x, t, g, log, Exists) || BroughtUp(s, x, t, g, log, Failed)
    else BroughtUp(s, x, t, g, log, Nil)
  }

  /** Create-or-update as a step that takes "already exists" for success. */
  ghost predicate BringsLeniently(s: Settings, x: Context, t: Task, g: Given, log: seq<Exchange>, err: bool) {
    if err then BroughtUp(s, x, t, g, log, Failed)
    else BroughtUp(s, x, t, g, log, Nil) || BroughtUp(s, x, t, g, log, Exists)
  }

  // The steps of the arm

  function GivenNoobaa(x: Context, listed: Response): Given {
    Given(x.noobaa.annotations, DefaultStore(ItemsIn(listed)), 0)
  }

  ghost predicate NoobaaLogged(s: Settings, x: Context, log: seq<Exchange>, err: bool) {
    && 1 <= |log| && log[0].req == List(BackingStore, Some(s.namespace))
    && BringsOrFails(s, x, NoobaaTask, GivenNoobaa(x, log[0].resp), log[1..], err)
  }

  ghost predicate ServiceLogged(s: Settings, x: Context, log: seq<Exchange>, err: bool) {
    && 1 <= |log| && log[0].req == Get(s.ConsoleDeploymentKey())
    && match log[0].resp
       case Found(o) => BringsLeniently(s, x, ConsoleServiceTask, Given(map[], "", o.uid), log[1..], err)
       case _ => |log| == 1 && err
  }

  /** Nothing is looked up or written after a failed list, or once a listed Console has the plugin. */
  ghost predicate ConsoleLogged(s: Settings, x: Context, log: seq<Exchange>, err: bool) {
    && 1 <= |log| && log[0].req == List(Console, None)
    && match log[0].resp
       case Items(items) =>
         if Lists(items, CONSOLE_NAME) then |log| == 1 && !err
         else BringsOrFails(s, x, ConsoleClusterTask, NOTHING_GIVEN, log[1..], err)
       case _ => |log| == 1 && err
  }

  /** Nothing while NooBaa is not ready; otherwise an update exactly if a replica count was not zero. */
  ghost predicate OcsLogged(s: Settings, x: Context, log: seq<Exchange>, err: bool) {
    if !NoobaaIsReady(x) then log == [] && !err
    else
      && 1 <= |log| <= 2 && log[0].req == List(CSV, Some(s.namespace))
      && match FirstWithPrefix(ItemsIn(log[0].resp), OCS_CSV_PREFIX)
         case None => |log| == 1 && err
         case Some(item) =>
           var ds := DeploymentsOf(item.obj);
           && (|log| == 2 <==> Downscaled(ds) != ds)
           && (|log| == 2 ==> log[1].req == Update(item.key, item.obj.(spec := Deployments(Downscaled(ds)))))
           && (err <==> |log| == 2 && !log[1].resp.Stored?)
  }

  /** A list, then the labelling of the listed objects in their order, up to the first update that is not accepted. */
  ghost predicate LabelsInOrder(s: Settings, kind: Kind, log: seq<Exchange>, err: bool) {
    && 1 <= |log| && log[0].req == List(kind, Some(s.namespace))
    && (!log[0].resp.Items? ==> err && |log| == 1)
    && (log[0].resp.Items? ==>
          var items := log[0].resp.items;
          && |log| <= 1 + |items|
          && (forall j :: 1 <= j < |log| ==> log[j].req == Update(items[j - 1].key, Labelled(items[j - 1])))
          && (forall j :: 1 <= j < |log| && (!err || j < |log| - 1) ==> log[j].resp.Stored?)
          && (if err then 1 < |log| && !Last(log).resp.Stored? else |log| == 1 + |items|))
  }

  /** Pod monitors, service monitors, rules; each kind only after the one before was completed. */
  ghost predicate LabelPartsLogged(s: Settings, pods: seq<Exchange>, services: seq<Exchange>, rules: seq<Exchange>, err: bool) {
    && LabelsInOrder(s, PodMonitor, pods, services == [])
    && (if services == [] then rules == [] && err else LabelsInOrder(s, ServiceMonitor, services, rules == []))
    && (if rules == [] then err else LabelsInOrder(s, PrometheusRule, rules, err))
  }

  ghost predicate LabelsLogged(s: Settings, log: seq<Exchange>, err: bool) {
    exists pods, services, rules ::
      LabelPartsLogged(s, pods, services, rules, err) && log == pods + services + rules
  }

  /** The log that a step of the arm leaves, and what it says of the step's end. */
  ghost predicate StepLogged(s: Settings, x: Context, step: Step, log: seq<Exchange>, err: bool) {
    match step
    case Bring(NoobaaTask) => NoobaaLogged(s, x, log, err)
    case Bring(ConsoleServiceTask) => ServiceLogged(s, x, log, err)
    case Bring(ConsolePluginTask) => BringsLeniently(s, x, ConsolePluginTask, NOTHING_GIVEN, log, err)
    case Bring(t) => BringsOrFails(s, x, t, NOTHING_GIVEN, log, err)
    case ConsoleStep => ConsoleLogged(s, x, log, err)
    case OcsStep => OcsLogged(s, x, log, err)
    case LabelStep => LabelsLogged(s, log, err)
    case ReportStep => false
  }

  /** The steps come in their order; all but the last of `logs` succeeded, and the last one too unless `err`. */
  ghost predicate ArmLogged(s: Settings, x: Context, logs: seq<seq<Exchange>>, err: bool) {
    && |logs| <= RESOURCE_STEPS && (err ==> logs != [])
    && forall n: nat {:trigger ArmStep(n)} :: n < |logs| ==> StepLogged(s, x, ArmStep(n), logs[n], err && n == |logs| - 1)
  }
}
