/** What a whole pass sends and is told: which logs it may leave, and how they decide its end. */
module PassLogs {
  import opened Utils
  import opened Cluster
  import opened Config
  import opened States
  import opened Desired
  import opened StrictArm
  import opened Logs
  import opened Protocol
  import opened Uninstall
  import opened Contracts

  /** An update of the ManagedMCG, and what it leaves in memory. */
  ghost predicate OwnUpdated(s: Settings, m: Object, log: seq<Exchange>, refreshed: bool, out: Object, err: bool) {
    && |log| == 1 && log[0].req == Update(s.McgKey(), m)
    && (err <==> !log[0].resp.Stored?)
    && out == if err then m else Decoded(m, log[0].resp.obj, refreshed)
  }

  /** The ManagedMCG without the operator's finalizer. */
  function Bare(m: Object): Object {
    m.(finalizers := Removed(m.finalizers, FINALIZER))
  }

  ghost predicate AdmitLogged(s: Settings, m: Object, log: seq<Exchange>, refreshed: bool, out: Object, err: bool) {
    if FINALIZER in m.finalizers then log == [] && out == m && !err
    else OwnUpdated(s, m.(finalizers := m.finalizers + [FINALIZER]), log, refreshed, out, err)
  }

  /** What the pass over a live ManagedMCG sends, part by part, and what its admission left in memory. */
  datatype LiveLog = LiveLog(admit: seq<Exchange>, admitted: Object, params: seq<Exchange>, steps: seq<seq<Exchange>>,
                             deletion: seq<Exchange>)
  {
    function All(): seq<Exchange> {
      admit + (params + Flat(steps) + deletion)
    }
  }

  ghost predicate DeletionLogged(s: Settings, due: bool, log: seq<Exchange>, err: bool) {
    if due then |log| == 1 && log[0].req == Delete(s.McgKey()) && (err <==> !Accepts(log[0]))
    else log == [] && !err
  }

  /** Parameters, then the steps of the arm, then the deletion if it is due; nothing after a failure. */
  ghost predicate ProvisionLogged(s: Settings, y: Context, label_: bool, r: LiveLog, out: Object, err: bool) {
    && |r.params| == 1 && r.params[0].req == Get(s.AddonParamsKey())
    && match r.params[0].resp
       case Found(p) =>
         var x := WithParams(y, DataOf(p));
         || (ArmLogged(s, x, r.steps, true) && err && out == y.mcg && r.deletion == [])
         || (|r.steps| == RESOURCE_STEPS && ArmLogged(s, x, r.steps, false) && out == x.mcg
             && DeletionLogged(s, label_ && x.mcg.status.components == ALL_READY, r.deletion, err))
       case _ => err && out == y.mcg && r.steps == [] && r.deletion == []
  }

  /** The finalizer first, unless it is there. */
  ghost predicate LiveLogged(s: Settings, y: Context, label_: bool, refreshed: bool, r: LiveLog, out: Object, err: bool) {
    if AdmitLogged(s, y.mcg, r.admit, refreshed, r.admitted, true) then
      err && out == r.admitted && r.params == [] && r.steps == [] && r.deletion == []
    else
      && AdmitLogged(s, y.mcg, r.admit, refreshed, r.admitted, false)
      && ProvisionLogged(s, y.(mcg := r.admitted), label_, r, out, err)
  }

  /** A list of CSVs, then the deletion of the first deployer CSV on it, if there is one. */
  ghost predicate LeaveLogged(s: Settings, log: seq<Exchange>, err: bool) {
    && 1 <= |log| && log[0].req == List(CSV, Some(s.namespace))
    && match FirstWithPrefix(ItemsIn(log[0].resp), DEPLOYER_CSV_PREFIX)
       case None => |log| == 1 && !err
       case Some(item) => |log| == 2 && log[1].req == Delete(item.key) && (err <==> !Accepts(log[1]))
  }

  /** Leaving fails exactly if the last request is a deletion that was not accepted; a failed search is no error. */
  lemma LeavingFailsIff(s: Settings, log: seq<Exchange>, err: bool)
    requires LeaveLogged(s, log, err)
    ensures err <==> Last(log).req.Delete? && !Accepts(Last(log))
    ensures !log[0].resp.Items? ==> !err && |log| == 1
  {
    hide FirstWithPrefix;
    assert FirstWithPrefix([], DEPLOYER_CSV_PREFIX) == None by {
      EmptyListFindsNone();
    }
  }

  lemma EmptyListFindsNone()
    ensures FirstWithPrefix([], DEPLOYER_CSV_PREFIX) == None
  {
  }

  /** A list that fails: the pass gives up the search and reports success. */
  lemma FailedSearchIsNoError(s: Settings)
    ensures LeaveLogged(s, [Exchange(List(CSV, Some(s.namespace)), Failure)], false)
    ensures !LeaveLogged(s, [Exchange(List(CSV, Some(s.namespace)), Failure)], true)
  {
  }

  /** What a pass sends after its first reads: it lets the ManagedMCG go, removes NooBaa, serves, leaves, or rests. */
  datatype Phase =
    | Releasing(update: seq<Exchange>)
    | Removing(removal: Removal)
    | Serving(service: LiveLog)
    | Leaving(sent: seq<Exchange>)
    | Resting
  {
    function All(): seq<Exchange> {
      match this
      case Releasing(update) => update
      case Removing(removal) => removal.All()
      case Serving(service) => service.All()
      case Leaving(sent) => sent
      case Resting => []
    }
  }

  /** The phase that the objects in memory call for, from its first request to its end. */
  ghost predicate PhaseLogged(s: Settings, y: Context, label_: bool, p: Phase, refreshed: bool, out: Object, err: bool) {
    if y.mcg.deleting then
      if y.mcg.status.components.noobaa.Missing? then
        p.Releasing? && OwnUpdated(s, Bare(y.mcg), p.update, refreshed, out, err)
      else p.Removing? && out == y.mcg && InOrder(s, Stripped(y.noobaa), p.removal, err)
    else if y.mcg.uid != 0 then p.Serving? && LiveLogged(s, y, label_, refreshed, p.service, out, err)
    else if label_ then p.Leaving? && out == y.mcg && LeaveLogged(s, p.sent, err)
    else p.Resting? && out == y.mcg && !err
  }

  /** What the pass has in memory once the component states are in. */
  function Gathered(s: Settings, v: View): Context {
    Context(WithComponents(SeenObject(v, s.McgKey()), StatesSeen(s, v)), SeenObject(v, s.NoobaaKey()),
            SeenObject(v, s.PrometheusKey()), SeenObject(v, s.AlertmanagerKey()), map[])
  }

  /** The pass has asked for the ManagedMCG, the config map, and all that shows the component states. */
  ghost predicate LookedAround(s: Settings, v: View) {
    && (if HasCopy(s, v) then Copy(s, v).uid != 0 else Gone(s, v))
    && s.AddonConfigMapKey() in v.seen && s.NoobaaKey() in v.seen
    && Asked(v, s.PrometheusKey(), s.PrometheusSetKey()) && Asked(v, s.AlertmanagerKey(), s.AlertmanagerSetKey())
    && Asked(v, s.ConsolePluginKey(), s.ConsoleDeploymentKey())
  }

  /** The pass `v` has ended the phase that its first reads, after which it knew `looked`, called for. */
  ghost predicate PhasesLogged(s: Settings, v: View, looked: View, p: Phase, refreshed: bool, out: Object, err: bool) {
    && LookedAround(s, looked) && OnlyRead(looked.log) && Extends(looked, v) && v.log == looked.log + p.All()
    && PhaseLogged(s, Gathered(s, looked), SawDeletionLabel(s, looked), p, refreshed, out, err)
  }

  /** The status in memory is reported whatever happened, if there is a ManagedMCG. */
  ghost predicate ReportLogged(s: Settings, memory: Object, report: seq<Exchange>) {
    if memory.uid != 0 then |report| == 1 && report[0].req == UpdateStatus(s.McgKey(), memory) else report == []
  }

  /** A pass: what it knew after its first reads, its phase and how that ended, and its report. */
  datatype PassLog = PassLog(looked: View, phase: Phase, memory: Object, failed: bool, report: seq<Exchange>)

  /** The pass `v` with the log `p` ended, with an error exactly if its phase or its report had one. */
  ghost predicate PassLogged(s: Settings, v: View, p: PassLog, refreshed: bool, err: bool) {
    && LookedAround(s, p.looked) && OnlyRead(p.looked.log) && Extends(p.looked, v)
    && v.log == p.looked.log + p.phase.All() + p.report
    && PhaseLogged(s, Gathered(s, p.looked), SawDeletionLabel(s, p.looked), p.phase, refreshed, p.memory, p.failed)
    && ReportLogged(s, p.memory, p.report)
    && (err <==> p.failed || (p.report != [] && !p.report[0].resp.Stored?))
  }

  /** The pass could not read the ManagedMCG: it sends nothing more and ends with an error. */
  ghost predicate NeverBegun(s: Settings, v: View) {
    && |v.log| == 1 && v.log[0].req == Get(s.McgKey()) && !v.log[0].resp.Found? && !v.log[0].resp.NotFound?
  }

  /** The end of any pass. */
  ghost predicate EndedAs(s: Settings, v: View, p: PassLog, refreshed: bool, err: bool) {
    (NeverBegun(s, v) && err) || PassLogged(s, v, p, refreshed, err)
  }

  lemma NeverBegunEnds(s: Settings, v: View, p: PassLog, refreshed: bool)
    requires NeverBegun(s, v)
    ensures EndedAs(s, v, p, refreshed, true)
  {
  }

  /** The end of the phase that the store calls for, if others keep still. */
  ghost predicate PhasesEnd(s: Settings, c: Cluster, refreshed: bool, e: End) {
    if s.McgKey() !in c.objects then e.store == GonePass(s, c) && !e.err && e.mcg.uid == 0
    else
      && e.mcg.uid != 0
      && e == if c.objects[s.McgKey()].deleting then StampedEnd(s, c, refreshed) else LiveEnd(s, c, refreshed)
  }

  lemma PhasesThenReport(s: Settings, c: Cluster, refreshed: bool, e: End, after: Cluster, statusErr: bool)
    requires PhasesEnd(s, c, refreshed, e)
    requires if e.mcg.uid != 0 then
               var (d, resp) := Exec(e.store, UpdateStatus(s.McgKey(), e.mcg)); after == d && (statusErr <==> !resp.Stored?)
             else after == e.store && !statusErr
    ensures (after, e.err || statusErr) == PassRun(s, c, refreshed)
  {
    hide StampedEnd, LiveEnd, GonePass, Exec;
  }

  /** An admission that succeeded did not fail. */
  lemma AdmissionDecides(s: Settings, m: Object, log: seq<Exchange>, refreshed: bool, out: Object)
    requires AdmitLogged(s, m, log, refreshed, out, false)
    ensures !AdmitLogged(s, m, log, refreshed, out, true)
  {
  }

  lemma PassDone(s: Settings, w: View, v: View, p: PassLog, refreshed: bool, statusErr: bool)
    requires PhasesLogged(s, w, p.looked, p.phase, refreshed, p.memory, p.failed) && v == w.(log := w.log + p.report)
    requires if p.memory.uid != 0 then
               && |p.report| == 1 && p.report[0].req == UpdateStatus(s.McgKey(), p.memory)
               && (!statusErr <==> p.report[0].resp.Stored?)
             else p.report == [] && !statusErr
    ensures PassLogged(s, v, p, refreshed, p.failed || statusErr) && EndedAs(s, v, p, refreshed, p.failed || statusErr)
  {
    hide PhaseLogged, Gathered, SawDeletionLabel, OnlyRead, LookedAround;
  }

  /** A view with the log of a completed arm, for the objects and parameters that the pass read. */
  lemma ArmCompleted(s: Settings, u: View, w: View, x: Context, params: Object, logs: seq<seq<Exchange>>)
    requires w.log == u.log + [Exchange(Get(s.AddonParamsKey()), Found(params))] + Flat(logs) && Extends(u, w)
    requires |logs| == RESOURCE_STEPS && ArmLogged(s, x, logs, false) && x.params == DataOf(params)
    requires LookedAround(s, u)
    requires x.mcg.uid == SeenObject(u, s.McgKey()).uid && x.noobaa == SeenObject(u, s.NoobaaKey())
    requires x.prometheus == SeenObject(u, s.PrometheusKey()) && x.alertmanager == SeenObject(u, s.AlertmanagerKey())
    ensures x.mcg.status.components == ALL_READY ==> Completed(s, w)
  {
    hide ArmLogged, Flat;
    assert x.mcg.status.components == ALL_READY ==> CompletedAs(s, w, x, u.log, params, logs);
  }

  lemma LabelKept(s: Settings, u: View, w: View)
    requires LookedAround(s, u) && Extends(u, w)
    ensures SawDeletionLabel(s, w) == SawDeletionLabel(s, u)
  {
    SeenLabel(s, u, w);
  }

  lemma SnapshotKept(s: Settings, u: View, w: View)
    requires LookedAround(s, u) && Extends(u, w)
    ensures NoobaaCopy(s, w) == SeenObject(u, s.NoobaaKey())
  {
  }

  // The log decides the end

  lemma BroughtUpDecides(s: Settings, x: Context, t: Task, g: Given, log: seq<Exchange>, a: Outcome, b: Outcome)
    requires BroughtUp(s, x, t, g, log, a) && BroughtUp(s, x, t, g, log, b)
    ensures a == b
  {
    hide Asks, Mutated, KeyOf, Base;
  }

  /** A list that failed, or a write that was not accepted. */
  predicate Refuses(e: Exchange) {
    if e.req.List? then !e.resp.Items? else !e.resp.Stored?
  }

  lemma LabelsEnd(s: Settings, kind: Kind, log: seq<Exchange>, err: bool)
    requires LabelsInOrder(s, kind, log, err)
    ensures log != [] && (err <==> Refuses(Last(log)))
  {
    hide Labelled;
  }

  lemma LabellingEnds(s: Settings, log: seq<Exchange>, err: bool)
    requires LabelsLogged(s, log, err)
    ensures log != [] && (err <==> Refuses(Last(log)))
  {
    hide LabelsInOrder;
    var pods, services, rules :| LabelPartsLogged(s, pods, services, rules, err) && log == pods + services + rules;
    LabelsEnd(s, PodMonitor, pods, services == []);
    if services != [] {
      LabelsEnd(s, ServiceMonitor, services, rules == []);
    }
    if rules != [] {
      LabelsEnd(s, PrometheusRule, rules, err);
    }
  }

  lemma BringingDecides(s: Settings, x: Context, t: Task, g: Given, log: seq<Exchange>)
    ensures !(BringsOrFails(s, x, t, g, log, true) && BringsOrFails(s, x, t, g, log, false))
    ensures !(BringsLeniently(s, x, t, g, log, true) && BringsLeniently(s, x, t, g, log, false))
  {
    hide BroughtUp;
    forall a, b | BroughtUp(s, x, t, g, log, a) && BroughtUp(s, x, t, g, log, b) ensures a == b {
      BroughtUpDecides(s, x, t, g, log, a, b);
    }
  }

  /** No log says both that its step succeeded and that it failed. */
  lemma StepDecides(s: Settings, x: Context, step: Step, log: seq<Exchange>)
    ensures !(StepLogged(s, x, step, log, true) && StepLogged(s, x, step, log, false))
  {
    hide BringsOrFails, BringsLeniently, LabelsLogged, Downscaled, FirstWithPrefix, Lists, GivenNoobaa;
    match step {
      case Bring(NoobaaTask) =>
        if log != [] {
          BringingDecides(s, x, NoobaaTask, GivenNoobaa(x, log[0].resp), log[1..]);
        }
      case Bring(ConsoleServiceTask) =>
        if log != [] && log[0].resp.Found? {
          BringingDecides(s, x, ConsoleServiceTask, Given(map[], "", log[0].resp.obj.uid), log[1..]);
        }
      case Bring(t) => BringingDecides(s, x, t, NOTHING_GIVEN, log);
      case ConsoleStep =>
        if log != [] {
          BringingDecides(s, x, ConsoleClusterTask, NOTHING_GIVEN, log[1..]);
        }
      case LabelStep =>
        if LabelsLogged(s, log, true) && LabelsLogged(s, log, false) {
          LabellingEnds(s, log, true);
          LabellingEnds(s, log, false);
        }
      case OcsStep =>
      case ReportStep =>
    }
  }

  lemma ArmDecides(s: Settings, x: Context, logs: seq<seq<Exchange>>)
    ensures !(ArmLogged(s, x, logs, true) && ArmLogged(s, x, logs, false))
  {
    hide StepLogged;
    var n := |logs| - 1;
    if 0 <= n < RESOURCE_STEPS {
      StepDecides(s, x, ArmStep(n), logs[n]);
    }
  }

  lemma SweepDecides(s: Settings, kind: Kind, log: seq<Exchange>)
    ensures !(Swept(s, kind, log, true) && Swept(s, kind, log, false))
  {
  }

  lemma RemovalDecides(s: Settings, stripped: Object, r: Removal)
    ensures !(InOrder(s, stripped, r, true) && InOrder(s, stripped, r, false))
  {
    hide Struck, Polled, Swept;
    SweepDecides(s, NamespaceStore, r.spaces);
  }

  lemma LiveDecides(s: Settings, y: Context, label_: bool, refreshed: bool, r: LiveLog, o1: Object, e1: bool, o2: Object,
                    e2: bool)
    requires LiveLogged(s, y, label_, refreshed, r, o1, e1) && LiveLogged(s, y, label_, refreshed, r, o2, e2)
    ensures o1 == o2 && e1 == e2
  {
    hide AdmitLogged, ArmLogged;
    if r.params != [] && r.params[0].resp.Found? {
      var x := WithParams(y.(mcg := r.admitted), DataOf(r.params[0].resp.obj));
      ArmDecides(s, x, r.steps);
    }
  }

  /** What a phase sent and was told decides what it leaves in memory and whether it ends with an error. */
  lemma PhaseDecides(s: Settings, y: Context, label_: bool, p: Phase, refreshed: bool, o1: Object, e1: bool, o2: Object,
                     e2: bool)
    requires PhaseLogged(s, y, label_, p, refreshed, o1, e1) && PhaseLogged(s, y, label_, p, refreshed, o2, e2)
    ensures e1 == e2 && o1 == o2
  {
    hide LiveLogged, InOrder;
    if p.Serving? {
      LiveDecides(s, y, label_, refreshed, p.service, o1, e1, o2, e2);
    }
    if p.Removing? {
      RemovalDecides(s, Stripped(y.noobaa), p.removal);
    }
  }

  // Parts of a provision

  lemma NoParams(s: Settings, y: Context, label_: bool, r: LiveLog)
    requires |r.params| == 1 && r.params[0].req == Get(s.AddonParamsKey()) && !r.params[0].resp.Found?
    requires r.steps == [] && r.deletion == []
    ensures ProvisionLogged(s, y, label_, r, y.mcg, true)
  {
  }

  lemma ArmStopped(s: Settings, y: Context, label_: bool, r: LiveLog, params: Object)
    requires r.params == [Exchange(Get(s.AddonParamsKey()), Found(params))] && r.deletion == []
    requires ArmLogged(s, WithParams(y, DataOf(params)), r.steps, true)
    ensures ProvisionLogged(s, y, label_, r, y.mcg, true)
  {
    hide ArmLogged;
  }

  lemma ArmPassed(s: Settings, y: Context, label_: bool, r: LiveLog, params: Object, err: bool)
    requires r.params == [Exchange(Get(s.AddonParamsKey()), Found(params))] && |r.steps| == RESOURCE_STEPS
    requires var x := WithParams(y, DataOf(params));
      && ArmLogged(s, x, r.steps, false)
      && DeletionLogged(s, label_ && x.mcg.status.components == ALL_READY, r.deletion, err)
    ensures ProvisionLogged(s, y, label_, r, WithParams(y, DataOf(params)).mcg, err)
  {
    hide ArmLogged, DeletionLogged;
  }

  /** The end of a provision, by the parameters and by how far the arm got. */
  lemma ProvisionedIs(s: Settings, c: Cluster, y: Context, label_: bool)
    ensures var e := Provisioned(s, c, y, label_);
      match SecretData(c, s.AddonParamsKey())
      case None => e == End(c, y.mcg, true)
      case Some(data) =>
        var x := WithParams(y, data);
        var (d, err) := ArmRun(s, x, c, RESOURCE_STEPS);
        var due := label_ && x.mcg.status.components == ALL_READY;
        e == if err then End(d, y.mcg, true) else End(if due then Exec(d, Delete(s.McgKey())).0 else d, x.mcg, false)
  {
    hide ArmRun, Exec;
  }
}
