/** controllers/managedmcg_controller.go and controllers/monitoring_alert.go: the passes of the operator. */
module Reconciler {
  import opened Utils
  import opened Cluster
  import opened Config
  import opened States
  import opened Logs
  import opened Protocol
  import opened ApiServer
  import opened Contracts
  import opened PassLogs
  import opened Emails
  import opened Desired
  import opened StrictArm
  import opened Uninstall
  import opened CSVs

  class ManagedMCGReconciler {
    const api: Server
    var settings: Settings
    var managedMCG: Object
    var noobaa: Object
    var prometheus: Object
    var alertmanager: Object
    var addonParams: map<string, string>
    var reconcileStrategy: string

    constructor (api: Server)
      ensures this.api == api && settings == api.settings
    {
      this.api, settings := api, api.settings;
      managedMCG, noobaa, prometheus, alertmanager := NEW_OBJECT, NEW_OBJECT, NEW_OBJECT, NEW_OBJECT;
      addonParams, reconcileStrategy := map[], "";
    }

    ghost predicate Working()
      reads this`settings, api
    {
      api.Valid() && api.view.mode.Reconciling? && settings == PassSettings(api.settings, api.view.mode)
    }

    // Requests

    method GetObject(k: Key) returns (resp: Response)
      requires Working()
      modifies api
      ensures Working() && api.view == AfterGet(old(api.view), k, resp) && ReadOn(old(api.view), api.view)
      ensures Fits(Get(k), resp) && Repeats(old(api.view), Get(k), resp)
      ensures api.calm ==> api.cluster == old(api.cluster) && resp == Look(api.cluster, k)
    {
      hide api.Valid, PassSettings, Fits, Repeats, Allowed, Observe, ReadOn, AfterGet, Exec;
      MayRead(settings, api.view);
      resp := api.Do(Get(k));
      GetObserved(settings, old(api.view), k, resp);
      GetServed(old(api.cluster), k);
    }

    method ListObjects(kind: Kind, scope: Option<string>) returns (resp: Response)
      requires Working()
      modifies api
      ensures Working() && ReadOn(old(api.view), api.view)
      ensures api.view == Drained(old(api.view), api.view.drained, [Exchange(List(kind, scope), resp)])
      ensures kind.BucketClass? && scope == Some(settings.namespace) && resp == Items([]) ==> api.view.drained
      ensures Fits(List(kind, scope), resp)
      ensures api.calm ==> api.cluster == old(api.cluster) && resp == Items(ListOf(api.cluster, kind, scope))
    {
      hide api.Valid, PassSettings, Fits, Repeats, Allowed, Observe, ReadOn, Drained;
      MayRead(settings, api.view);
      resp := api.Do(List(kind, scope));
      ListObserved(settings, old(api.view), kind, scope, resp);
    }

    /** A create or an update of an object: the two writes whose failure ends a pass. */
    method Write(req: Request) returns (resp: Response)
      requires Working() && Allowed(settings, api.view, req) && (req.Create? || req.Update?)
      modifies api
      ensures Working() && Extends(old(api.view), api.view) && api.view.seen == old(api.view.seen)
      ensures api.view.log == old(api.view.log) + [Exchange(req, resp)]
      ensures resp.Stored? || (req.Create? && resp.AlreadyExists?) ==> api.view.writeFailed == old(api.view.writeFailed)
      ensures resp.Stored? && req.Update? && req.key == settings.McgKey() && FINALIZER in req.obj.finalizers ==> api.view.added
      ensures resp.Stored? && req.Update? && req.key == settings.NoobaaKey() ==> api.view.stripped
      ensures Fits(req, resp) && Repeats(old(api.view), req, resp) && (req.Update? ==> !resp.AlreadyExists?)
      ensures api.calm ==> (api.cluster, resp) == Exec(old(api.cluster), req)
    {
      hide api.Valid, PassSettings, Repeats, Allowed, Exec;
      resp := api.Do(req);
    }

    /** Deletes an object; one that is not there counts as deleted. */
    method DeleteObject(k: Key) returns (err: bool, ghost e: Exchange)
      requires Working() && Allowed(settings, api.view, Delete(k))
      modifies api
      ensures Working() && Extends(old(api.view), api.view)
      ensures api.view == old(api.view).(deleted := old(api.view.deleted) || (k == settings.NoobaaKey() && !err),
                                         log := old(api.view.log) + [e])
      ensures e.req == Delete(k) && (!err <==> Accepts(e))
      ensures api.calm ==> api.cluster == Exec(old(api.cluster), Delete(k)).0 && !err
    {
      hide api.Valid, PassSettings, Repeats, Allowed;
      var resp := api.Do(Delete(k));
      e := Exchange(Delete(k), resp);
      err := !resp.Done? && !resp.NotFound?;
    }

    method ReportStatus() returns (err: bool, ghost e: Exchange)
      requires Working() && HasCopy(settings, api.view)
      modifies api
      ensures Working() && api.view == old(api.view).(log := old(api.view.log) + [e])
      ensures e.req == UpdateStatus(settings.McgKey(), managedMCG) && (!err <==> e.resp.Stored?)
      ensures api.calm ==>
        var (d, resp) := Exec(old(api.cluster), UpdateStatus(settings.McgKey(), managedMCG));
        api.cluster == d && (!err <==> resp.Stored?)
    {
      hide api.Valid, PassSettings, Fits, Repeats, Exec;
      var resp := api.Do(UpdateStatus(settings.McgKey(), managedMCG));
      e := Exchange(UpdateStatus(settings.McgKey(), managedMCG), resp);
      err := !resp.Stored?;
    }

    // Status of the components

    function CheckReplicaStatus(readyReplicas: int, desiredReplicas: int): ComponentState {
      if readyReplicas < desiredReplicas then Pending else Ready
    }

    method UpdateNoobaaComponentStatus()
      requires Working() && settings.NoobaaKey() !in api.view.seen
      modifies this`managedMCG, this`noobaa, api
      ensures Working() && ReadOn(old(api.view), api.view)
      ensures settings.NoobaaKey() in api.view.seen
      ensures SeenMore(old(api.view), api.view, {settings.NoobaaKey()})
      ensures managedMCG ==
        WithComponents(old(managedMCG), old(managedMCG).status.components.(noobaa := NoobaaState(settings, api.view)))
      ensures PhaseShown(First(api.view, settings.NoobaaKey()), managedMCG.status.components.noobaa)
      ensures noobaa == Loaded(First(api.view, settings.NoobaaKey()), old(noobaa))
      ensures api.calm ==> api.cluster == old(api.cluster)
      ensures api.calm ==> First(api.view, settings.NoobaaKey()) == Look(api.cluster, settings.NoobaaKey())
    {
      hide api.Valid, PassSettings, Fits, Repeats, ReadOn, Extends;
      var state := Unknown;
      var resp := GetObject(settings.NoobaaKey());
      match resp {
        case Found(o) =>
          noobaa := o;
          if o.status.phase == "Ready" {
            state := Ready;
          } else {
            state := Pending;
          }
        case NotFound => state := Missing;
        case _ => state := Unknown;
      }
      managedMCG := WithComponents(managedMCG, managedMCG.status.components.(noobaa := state));
    }

    method UpdatePrometheusComponentStatus()
      requires Working() && settings.PrometheusKey() !in api.view.seen && settings.PrometheusSetKey() !in api.view.seen
      modifies this`managedMCG, this`prometheus, api
      ensures Working() && ReadOn(old(api.view), api.view)
      ensures Asked(api.view, settings.PrometheusKey(), settings.PrometheusSetKey())
      ensures SeenMore(old(api.view), api.view, {settings.PrometheusKey(), settings.PrometheusSetKey()})
      ensures managedMCG == WithComponents(old(managedMCG), old(managedMCG).status.components.(
        prometheus := ReplicaState(First(api.view, settings.PrometheusKey()),
                                   First(api.view, settings.PrometheusSetKey()))))
      ensures ReplicasShown(First(api.view, settings.PrometheusKey()), First(api.view, settings.PrometheusSetKey()), managedMCG.status.components.prometheus)
      ensures prometheus == Loaded(First(api.view, settings.PrometheusKey()), old(prometheus))
      ensures api.calm ==> api.cluster == old(api.cluster)
      ensures api.calm ==> Shows(api.view, api.cluster, settings.PrometheusKey(), settings.PrometheusSetKey())
    {
      hide api.Valid, PassSettings, Fits, Repeats, ReadOn, Extends, AfterGet, First, SeenMore, Asked, Look;
      var key, workloadKey := settings.PrometheusKey(), settings.PrometheusSetKey();
      var state := Unknown;
      var resp := GetObject(key);
      GotOne(old(api.view), key, workloadKey, resp);
      match resp {
        case Found(o) =>
          prometheus := o;
          ghost var half := api.view;
          var workload := GetObject(workloadKey);
          ReadOnTwice(old(api.view), half, api.view);
          GotBoth(old(api.view), key, workloadKey, resp, workload);
          if workload.Found? {
            state := CheckReplicaStatus(workload.obj.status.readyReplicas, DesiredReplicas(o));
          } else {
            state := Pending;
          }
        case NotFound => state := Missing;
        case _ => state := Unknown;
      }
      managedMCG := WithComponents(managedMCG, managedMCG.status.components.(prometheus := state));
    }

    method UpdateAlertmanagerComponentStatus()
      requires Working() && settings.AlertmanagerKey() !in api.view.seen && settings.AlertmanagerSetKey() !in api.view.seen
      modifies this`managedMCG, this`alertmanager, api
      ensures Working() && ReadOn(old(api.view), api.view)
      ensures Asked(api.view, settings.AlertmanagerKey(), settings.AlertmanagerSetKey())
      ensures SeenMore(old(api.view), api.view, {settings.AlertmanagerKey(), settings.AlertmanagerSetKey()})
      ensures managedMCG == WithComponents(old(managedMCG), old(managedMCG).status.components.(
        alertmanager := ReplicaState(First(api.view, settings.AlertmanagerKey()),
                                     First(api.view, settings.AlertmanagerSetKey()))))
      ensures ReplicasShown(First(api.view, settings.AlertmanagerKey()), First(api.view, settings.AlertmanagerSetKey()), managedMCG.status.components.alertmanager)
      ensures alertmanager == Loaded(First(api.view, settings.AlertmanagerKey()), old(alertmanager))
      ensures api.calm ==> api.cluster == old(api.cluster)
      ensures api.calm ==> Shows(api.view, api.cluster, settings.AlertmanagerKey(), settings.AlertmanagerSetKey())
    {
      hide api.Valid, PassSettings, Fits, Repeats, ReadOn, Extends, AfterGet, First, SeenMore, Asked, Look;
      var key, workloadKey := settings.AlertmanagerKey(), settings.AlertmanagerSetKey();
      var state := Unknown;
      var resp := GetObject(key);
      GotOne(old(api.view), key, workloadKey, resp);
      match resp {
        case Found(o) =>
          alertmanager := o;
          ghost var half := api.view;
          var workload := GetObject(workloadKey);
          ReadOnTwice(old(api.view), half, api.view);
          GotBoth(old(api.view), key, workloadKey, resp, workload);
          if workload.Found? {
            state := CheckReplicaStatus(workload.obj.status.readyReplicas, DesiredReplicas(o));
          } else {
            state := Pending;
          }
        case NotFound => state := Missing;
        case _ => state := Unknown;
      }
      managedMCG := WithComponents(managedMCG, managedMCG.status.components.(alertmanager := state));
    }

    method UpdateConsoleComponentStatus()
      requires Working() && settings.ConsolePluginKey() !in api.view.seen && settings.ConsoleDeploymentKey() !in api.view.seen
      modifies this`managedMCG, api
      ensures Working() && ReadOn(old(api.view), api.view)
      ensures Asked(api.view, settings.ConsolePluginKey(), settings.ConsoleDeploymentKey())
      ensures SeenMore(old(api.view), api.view, {settings.ConsolePluginKey(), settings.ConsoleDeploymentKey()})
      ensures managedMCG == WithComponents(old(managedMCG), old(managedMCG).status.components.(
        console := ConsoleState(First(api.view, settings.ConsolePluginKey()),
                                First(api.view, settings.ConsoleDeploymentKey()))))
      ensures ConsoleShown(First(api.view, settings.ConsolePluginKey()), First(api.view, settings.ConsoleDeploymentKey()),
                           managedMCG.status.components.console)
      ensures api.calm ==> api.cluster == old(api.cluster)
      ensures api.calm ==> Shows(api.view, api.cluster, settings.ConsolePluginKey(), settings.ConsoleDeploymentKey())
    {
      hide api.Valid, PassSettings, Fits, Repeats, ReadOn, Extends, AfterGet, First, SeenMore, Asked, Look;
      var key, workloadKey := settings.ConsolePluginKey(), settings.ConsoleDeploymentKey();
      var state := Unknown;
      var resp := GetObject(key);
      GotOne(old(api.view), key, workloadKey, resp);
      match resp {
        case Found(o) =>
          ghost var half := api.view;
          var workload := GetObject(workloadKey);
          ReadOnTwice(old(api.view), half, api.view);
          GotBoth(old(api.view), key, workloadKey, resp, workload);
          if workload.Found? {
            state := CheckReplicaStatus(workload.obj.status.readyReplicas, 1);
          } else {
            state := Pending;
          }
        case NotFound => state := Missing;
        case _ => state := Unknown;
      }
      managedMCG := WithComponents(managedMCG, managedMCG.status.components.(console := state));
    }

    /** Every component state is assigned on every path, from the pass's own first reads. */
    method UpdateComponentStatus()
      requires Working() && NoneSeen(api.view, StatusKeys(settings))
      modifies this`managedMCG, this`noobaa, this`prometheus, this`alertmanager, api
      ensures Working() && ReadOn(old(api.view), api.view)
      ensures settings.NoobaaKey() in api.view.seen && Asked(api.view, settings.PrometheusKey(), settings.PrometheusSetKey())
      ensures Asked(api.view, settings.AlertmanagerKey(), settings.AlertmanagerSetKey())
      ensures Asked(api.view, settings.ConsolePluginKey(), settings.ConsoleDeploymentKey())
      ensures managedMCG == WithComponents(old(managedMCG), StatesSeen(settings, api.view))
      ensures ComponentsShown(settings, api.view, managedMCG.status.components)
      ensures noobaa == Loaded(First(api.view, settings.NoobaaKey()), old(noobaa))
      ensures prometheus == Loaded(First(api.view, settings.PrometheusKey()), old(prometheus))
      ensures alertmanager == Loaded(First(api.view, settings.AlertmanagerKey()), old(alertmanager))
      ensures api.calm ==> api.cluster == old(api.cluster)
      ensures api.calm ==> StatesSeen(settings, api.view) == StatesIn(settings, api.cluster)
      ensures api.calm ==>
        && First(api.view, settings.NoobaaKey()) == Look(api.cluster, settings.NoobaaKey())
        && First(api.view, settings.PrometheusKey()) == Look(api.cluster, settings.PrometheusKey())
        && First(api.view, settings.AlertmanagerKey()) == Look(api.cluster, settings.AlertmanagerKey())
    {
      hide api.Valid, PassSettings, ReadOn, Extends, First, Look, PhaseState, ReplicaState, ConsoleState, NoobaaState, StatesSeen,
        StatesIn, Asked, Shows, ComponentsShown, PhaseShown, ReplicasShown, ConsoleShown;
      UpdateNoobaaComponentStatus();
      ghost var v1 := api.view;
      UpdatePrometheusComponentStatus();
      ghost var v2 := api.view;
      UpdateAlertmanagerComponentStatus();
      ghost var v3 := api.view;
      UpdateConsoleComponentStatus();
      ReadOnFourTimes(old(api.view), v1, v2, v3, api.view);
      StatesGathered(settings, v1, v2, v3, api.view);
      StatesSeenAreShown(settings, api.view);
      if api.calm {
        ShowsKept(v2, api.view, api.cluster, settings.PrometheusKey(), settings.PrometheusSetKey());
        ShowsKept(v3, api.view, api.cluster, settings.AlertmanagerKey(), settings.AlertmanagerSetKey());
        StatesMatch(settings, api.view, api.cluster);
      }
    }

    // Uninstall

    method VerifyAddonDeletionKey() returns (found: bool)
      requires Working() && settings.AddonConfigMapKey() !in api.view.seen
      modifies api
      ensures Working() && ReadOn(old(api.view), api.view)
      ensures api.view.seen.Keys == old(api.view).seen.Keys + {settings.AddonConfigMapKey()}
      ensures found <==> SawDeletionLabel(settings, api.view)
      ensures var shown := First(api.view, Key(ConfigMap, settings.namespace, settings.addonName));
        found <==> shown.Found? && settings.deleteLabel in shown.obj.labels
      ensures api.calm ==> api.cluster == old(api.cluster) && (found <==> LabelIn(settings, api.cluster))
    {
      hide api.Valid, PassSettings, Fits, Repeats, ReadOn, Extends;
      var resp := GetObject(settings.AddonConfigMapKey());
      if !resp.Found? {
        return false;
      }
      return settings.deleteLabel in resp.obj.labels;
    }

    /** The first CSV of the namespace whose name has the prefix; none if the list could not be had. */
    method GetCSVByPrefix(prefix: string) returns (csv: Option<Item>, ghost e: Exchange)
      requires Working()
      modifies api
      ensures Working() && ReadOn(old(api.view), api.view) && api.view == Drained(old(api.view), api.view.drained, [e])
      ensures e.req == List(CSV, Some(settings.namespace))
      ensures csv == FirstWithPrefix(ItemsIn(e.resp), prefix)
      ensures csv.Some? ==> Matches(csv.value.key, CSV, Some(settings.namespace)) && prefix <= csv.value.key.name
      ensures api.calm ==> api.cluster == old(api.cluster) && e.resp == Items(AllOf(settings, api.cluster, CSV))
    {
      hide api.Valid, PassSettings, Repeats, ReadOn, Extends, ListOf, Drained;
      var resp := ListObjects(CSV, Some(settings.namespace));
      e := Exchange(List(CSV, Some(settings.namespace)), resp);
      if !resp.Items? {
        return None, e;
      }
      csv := None;
      for i := 0 to |resp.items|
        invariant csv.None? && FirstWithPrefix(resp.items, prefix) == FirstWithPrefix(resp.items[i..], prefix)
      {
        if prefix <= resp.items[i].key.name {
          csv := Some(resp.items[i]);
          return;
        }
      }
    }

    /** A failed search for the CSV is not an error: the only error is a deletion that is not accepted. */
    method RemoveOLMComponents() returns (err: bool, ghost log: seq<Exchange>)
      requires Working() && Gone(settings, api.view) && SawDeletionLabel(settings, api.view)
      modifies api
      ensures Working() && Extends(old(api.view), api.view)
      ensures api.view.log == old(api.view.log) + log && LeaveLogged(settings, log, err)
      ensures err <==> Last(log).req.Delete? && !Accepts(Last(log))
      ensures api.calm ==> !err && api.cluster == OLMRemoved(settings, old(api.cluster))
      ensures api.calm ==>
        (|log| == 2 <==> FirstWithPrefix(AllOf(settings, old(api.cluster), CSV), DEPLOYER_CSV_PREFIX).Some?)
    {
      hide api.Valid, PassSettings, ReadOn, ListOf, Exec, FirstWithPrefix;
      var csv;
      ghost var e;
      csv, e := GetCSVByPrefix(DEPLOYER_CSV_PREFIX);
      log := [e];
      err := false;
      if csv.Some? {
        err, e := DeleteObject(csv.value.key);
        log := log + [e];
      }
    }

    method DeleteListed(kind: Kind) returns (err: bool, ghost log: seq<Exchange>)
      requires Working() && Stamped(settings, api.view) && settings.NoobaaKey() in api.view.seen
      requires kind.BucketClass? || ((kind.BackingStore? || kind.NamespaceStore?) && api.view.deleted)
      requires kind.BucketClass? ==> !NoobaaState(settings, api.view).Missing?
      modifies api
      ensures Working() && api.view == Drained(old(api.view), api.view.drained, log)
      ensures Swept(settings, kind, log, !err) && log != []
      ensures api.calm ==> !err && api.cluster == DeleteAll(old(api.cluster), AllOf(settings, old(api.cluster), kind))
    {
      hide api.Valid, PassSettings, Repeats, ReadOn, Extends, ListOf, Exec, PhaseState, Allowed, Stamped, NoobaaState, Drained;
      var resp := ListObjects(kind, Some(settings.namespace));
      log := [Exchange(List(kind, Some(settings.namespace)), resp)];
      if !resp.Items? {
        return true, log;
      }
      ghost var drained := api.view.drained;
      err := false;
      for i := 0 to |resp.items|
        invariant Working() && api.view == Drained(old(api.view), drained, log) && !err
        invariant |log| == i + 1 && log[0] == Exchange(List(kind, Some(settings.namespace)), resp)
        invariant forall j :: 1 <= j < |log| ==> log[j].req == Delete(resp.items[j - 1].key) && Accepts(log[j])
        invariant api.calm ==> DeleteAll(api.cluster, resp.items[i..]) == DeleteAll(old(api.cluster), resp.items)
      {
        ghost var e;
        SweepAllowed(settings, old(api.view), drained, log, kind, resp.items[i].key.name);
        err, e := DeleteObject(Key(kind, settings.namespace, resp.items[i].key.name));
        DrainedMore(old(api.view), drained, log, e);
        log := log + [e];
        if err {
          DrainedSame(old(api.view), drained, log);
          return;
        }
      }
      DrainedSame(old(api.view), drained, log);
      return false, log;
    }

    /** Bounded polling for the end of all bucket classes. How many polls fit into the time is left open. */
    method AwaitNoBucketClasses() returns (err: bool, ghost log: seq<Exchange>)
      requires Working()
      modifies api
      ensures Working() && api.view == Drained(old(api.view), api.view.drained, log)
      ensures Polled(settings, log, !err) && log != []
      ensures !err ==> api.view.drained
      ensures api.calm ==> api.cluster == old(api.cluster) && (err <==> AllOf(settings, api.cluster, BucketClass) != [])
    {
      hide api.Valid, PassSettings, Repeats, ReadOn, ListOf;
      log := [];
      var fewer: nat := *;
      var limit := if 1 <= fewer <= MOST_POLLS then fewer else MOST_POLLS;
      var attempts := 0;
      while attempts < limit
        invariant 0 <= attempts <= limit && |log| == attempts
        invariant Working() && api.view == Drained(old(api.view), api.view.drained, log)
        invariant forall i :: 0 <= i < |log| ==> log[i].req == List(BucketClass, Some(settings.namespace))
        invariant forall i :: 0 <= i < |log| ==> log[i].resp.Items? && log[i].resp != Items([])
        invariant api.calm ==>
          api.cluster == old(api.cluster) && (attempts > 0 ==> AllOf(settings, api.cluster, BucketClass) != [])
      {
        var resp := ListObjects(BucketClass, Some(settings.namespace));
        log := log + [Exchange(List(BucketClass, Some(settings.namespace)), resp)];
        if !resp.Items? {
          return true, log;
        }
        if |resp.items| == 0 {
          return false, log;
        }
        attempts := attempts + 1;
      }
      return true, log;
    }

    /** Takes NooBaa's finalizer off and requests its deletion. */
    method StrikeNoobaa() returns (err: bool, ghost log: seq<Exchange>)
      requires Working() && Stamped(settings, api.view) && api.view.drained
      requires settings.NoobaaKey() in api.view.seen && !NoobaaState(settings, api.view).Missing?
      requires noobaa == NoobaaCopy(settings, api.view)
      modifies this`noobaa, api
      ensures Working() && Extends(old(api.view), api.view) && api.view.seen == old(api.view).seen
      ensures api.view.log == old(api.view.log) + log && Struck(settings, Stripped(old(noobaa)), log, !err) && log != []
      ensures !err ==> api.view.deleted
      ensures api.calm ==>
        var stripped := Exec(old(api.cluster), Update(settings.NoobaaKey(), Stripped(old(noobaa))));
        && (err <==> !stripped.1.Stored?)
        && api.cluster == if err then old(api.cluster) else Exec(stripped.0, Delete(settings.NoobaaKey())).0
    {
      hide api.Valid, PassSettings, Fits, Repeats, ReadOn, Exec, PhaseState;
      var finalizers := Remove(noobaa.finalizers, NOOBAA_FINALIZER);
      noobaa := noobaa.(finalizers := finalizers);
      var resp := Write(Update(settings.NoobaaKey(), noobaa));
      log := [Exchange(Update(settings.NoobaaKey(), noobaa), resp)];
      if !resp.Stored? {
        RefusedUpdate(old(api.cluster), settings.NoobaaKey(), noobaa);
        return true, log;
      }
      ghost var e;
      err, e := DeleteObject(settings.NoobaaKey());
      log := log + [e];
    }

    /** The part of removeNoobaa after the poll. */
    method RemoveDrained(ghost before: Removal) returns (err: bool, ghost r: Removal)
      requires Working() && Stamped(settings, api.view) && api.view.drained
      requires settings.NoobaaKey() in api.view.seen && !NoobaaState(settings, api.view).Missing?
      requires noobaa == NoobaaCopy(settings, api.view)
      requires before.strip == before.backing == before.spaces == []
      modifies this`noobaa, api
      ensures Working() && Extends(old(api.view), api.view) && api.view.seen == old(api.view.seen)
      ensures api.view.log == old(api.view.log) + r.strip + r.backing + r.spaces
      ensures r.classes == before.classes && r.polls == before.polls && r.strip != []
      ensures StoresInOrder(settings, Stripped(old(noobaa)), r, err)
      ensures api.calm ==>
        match DrainedRemoval(settings, old(api.cluster), old(noobaa))
        case Err => err && api.cluster == old(api.cluster)
        case Ok(d) => !err && api.cluster == d
    {
      hide api.Valid, PassSettings, ReadOn, Extends, AllOf, Exec, PhaseState, Swept, Polled, Struck, DeleteAll;
      r := before;
      ghost var part;
      err, part := StrikeNoobaa();
      r := r.(strip := part);
      ghost var v1 := api.view;
      if err {
        return;
      }
      err, part := DeleteListed(BackingStore);
      r := r.(backing := part);
      ghost var v2 := api.view;
      DrainedExtends(v1, v2.drained, part);
      ExtendsTwice(old(api.view), v1, v2);
      if err {
        return;
      }
      err, part := DeleteListed(NamespaceStore);
      r := r.(spaces := part);
      DrainedExtends(v2, api.view.drained, part);
      ExtendsTwice(old(api.view), v2, api.view);
    }

    method RemoveNoobaa() returns (err: bool, ghost r: Removal)
      requires Working() && Stamped(settings, api.view)
      requires settings.NoobaaKey() in api.view.seen && !NoobaaState(settings, api.view).Missing?
      requires noobaa == NoobaaCopy(settings, api.view)
      modifies this`noobaa, api
      ensures Working() && Extends(old(api.view), api.view) && api.view.seen == old(api.view.seen)
      ensures api.view.log == old(api.view.log) + r.All() && InOrder(settings, Stripped(old(noobaa)), r, err)
      ensures api.calm ==> (api.cluster, !err) == NoobaaRemoval(settings, old(api.cluster), old(noobaa))
    {
      hide api.Valid, PassSettings, ReadOn, Extends, AllOf, Exec, Stamped, NoobaaState, NoobaaCopy, Drained, Swept, Polled,
        StoresInOrder, DeleteAll, DrainedRemoval;
      r := NO_REMOVAL;
      ghost var part;
      err, part := DeleteListed(BucketClass);
      r := r.(classes := part);
      ghost var v1 := api.view;
      DrainedExtends(old(api.view), v1.drained, part);
      if err {
        assert r.All() == part;
        return;
      }
      SeenDecides(settings, old(api.view), v1);
      err, part := AwaitNoBucketClasses();
      r := r.(polls := part);
      ghost var v2 := api.view;
      DrainedExtends(v1, v2.drained, part);
      ExtendsTwice(old(api.view), v1, v2);
      if err {
        assert r.All() == r.classes + part;
        return;
      }
      SeenDecides(settings, old(api.view), v2);
      err, r := RemoveDrained(r);
      ExtendsTwice(old(api.view), v2, api.view);
    }

    /** Takes the operator's finalizer off; `refreshed` is whether the answer brought the stored status. */
    method RemoveManagedMCG() returns (err: bool, ghost refreshed: bool, ghost log: seq<Exchange>)
      requires Working() && Stamped(settings, api.view) && NoobaaState(settings, api.view).Missing?
      requires managedMCG == Copy(settings, api.view).(status := managedMCG.status)
      modifies this`managedMCG, api
      ensures Working() && Extends(old(api.view), api.view) && api.view.seen == old(api.view).seen
      ensures managedMCG.uid == old(managedMCG).uid && api.view.log == old(api.view.log) + log
      ensures OwnUpdated(settings, Bare(old(managedMCG)), log, refreshed, managedMCG, err)
      ensures api.calm ==> End(api.cluster, managedMCG, err) == Released(settings, old(api.cluster), old(managedMCG), refreshed)
    {
      hide api.Valid, PassSettings, ReadOn, Exec, NoobaaState, Decoded;
      var finalizers := Remove(managedMCG.finalizers, FINALIZER);
      managedMCG := managedMCG.(finalizers := finalizers);
      err, refreshed, log := UpdateManagedMCG();
    }

    /** Whether the API server's answer brings the stored status along is left open. */
    method UpdateManagedMCG() returns (err: bool, ghost refreshed: bool, ghost log: seq<Exchange>)
      requires Working() && Allowed(settings, api.view, Update(settings.McgKey(), managedMCG))
      requires HasCopy(settings, api.view) && managedMCG.rv == Copy(settings, api.view).rv
      requires managedMCG.uid == Copy(settings, api.view).uid
      modifies this`managedMCG, api
      ensures Working() && Extends(old(api.view), api.view) && api.view.seen == old(api.view).seen
      ensures managedMCG.uid == old(managedMCG).uid && api.view.log == old(api.view.log) + log
      ensures !err && FINALIZER in old(managedMCG).finalizers ==> api.view.added
      ensures !err ==> api.view.writeFailed == old(api.view).writeFailed
      ensures OwnUpdated(settings, old(managedMCG), log, refreshed, managedMCG, err)
      ensures api.calm ==> End(api.cluster, managedMCG, err) == OwnUpdate(settings, old(api.cluster), old(managedMCG), refreshed)
    {
      hide api.Valid, PassSettings, ReadOn, Exec, Allowed;
      var resp := Write(Update(settings.McgKey(), managedMCG));
      log := [Exchange(Update(settings.McgKey(), managedMCG), resp)];
      err := !resp.Stored?;
      refreshed := false;
      if !err {
        var refresh: bool := *;
        refreshed := refresh;
        managedMCG := Decoded(managedMCG, resp.obj, refresh);
      }
    }

    method AddManagedMCG() returns (err: bool, ghost refreshed: bool, ghost log: seq<Exchange>)
      requires Working() && HasCopy(settings, api.view) && !Copy(settings, api.view).deleting && !api.view.added
      requires managedMCG == Copy(settings, api.view).(status := managedMCG.status) && FINALIZER !in managedMCG.finalizers
      modifies this`managedMCG, api
      ensures Working() && Extends(old(api.view), api.view) && api.view.seen == old(api.view).seen
      ensures managedMCG.uid == old(managedMCG).uid && api.view.log == old(api.view.log) + log
      ensures !err ==> Installing(settings, api.view) && api.view.writeFailed == old(api.view).writeFailed
      ensures AdmitLogged(settings, old(managedMCG), log, refreshed, managedMCG, err)
      ensures api.calm ==> End(api.cluster, managedMCG, err) == Admitted(settings, old(api.cluster), old(managedMCG), refreshed)
    {
      hide api.Valid, PassSettings, ReadOn, Exec, Decoded;
      managedMCG := managedMCG.(finalizers := managedMCG.finalizers + [FINALIZER]);
      err, refreshed, log := UpdateManagedMCG();
    }

    /** Takes over the entries one by one, in no particular order. */
    method MergeParams(data: map<string, string>)
      modifies this`addonParams
      ensures addonParams == old(addonParams) + data
    {
      var keys := data.Keys;
      while keys != {}
        invariant keys <= data.Keys
        invariant forall k :: k in data && k !in keys ==> k in addonParams && addonParams[k] == data[k]
        invariant addonParams + data == old(addonParams) + data
        decreases |keys|
      {
        var key :| key in keys;
        addonParams := addonParams[key := data[key]];
        keys := keys - {key};
      }
      assert addonParams == addonParams + data;
    }

    method UpdateAddonParams() returns (err: bool, ghost resp: Response)
      requires Working()
      modifies this`addonParams, api
      ensures Working() && ReadOn(old(api.view), api.view)
      ensures api.view.log == old(api.view.log) + [Exchange(Get(settings.AddonParamsKey()), resp)]
      ensures err <==> !resp.Found?
      ensures addonParams == if resp.Found? then old(addonParams) + DataOf(resp.obj) else old(addonParams)
      ensures api.calm ==> api.cluster == old(api.cluster) && DataIn(resp) == SecretData(api.cluster, settings.AddonParamsKey())
    {
      hide api.Valid, PassSettings, ReadOn, Extends, Fits, Repeats;
      var reply := GetObject(settings.AddonParamsKey());
      resp := reply;
      if !reply.Found? {
        return true, resp;
      }
      MergeParams(DataOf(reply.obj));
      return false, resp;
    }

    // Prometheus

    method LastNamedDeployment(deployments: seq<DeploymentSpec>, name: string) returns (found: Option<DeploymentSpec>)
      ensures found == LastDeployment(deployments, name)
    {
      found := None;
      for i := 0 to |deployments|
        invariant found == LastDeployment(deployments[..i], name)
      {
        assert deployments[..i + 1][..i] == deployments[..i];
        if deployments[i].name == name {
          found := Some(deployments[i]);
        }
      }
      assert deployments[..|deployments|] == deployments;
    }

    method LastNamedImage(containers: seq<Container>, name: string) returns (image: string)
      ensures image == LastImage(containers, name)
    {
      image := "";
      for i := 0 to |containers|
        invariant image == LastImage(containers[..i], name)
      {
        assert containers[..i + 1][..i] == containers[..i];
        if containers[i].name == name {
          image := containers[i].image;
        }
      }
      assert containers[..|containers|] == containers;
    }

    /** The proxy image from the deployer CSV. A CSV without the deployer deployment counts as an error here. */
    method FindProxyImage() returns (image: Option<string>, ghost e: Exchange)
      requires Working()
      modifies api
      ensures Working() && ReadOn(old(api.view), api.view) && api.view.log == old(api.view.log) + [e]
      ensures e.req == List(CSV, Some(settings.namespace)) && image == ProxyImage(ItemsIn(e.resp))
      ensures api.calm ==> api.cluster == old(api.cluster) && e.resp == Items(AllOf(settings, api.cluster, CSV))
    {
      hide api.Valid, PassSettings, ReadOn, Extends, AllOf, FirstWithPrefix, LastDeployment, LastImage;
      var csv;
      csv, e := GetCSVByPrefix(DEPLOYER_CSV_PREFIX);
      if csv.None? {
        return None, e;
      }
      var deployment := LastNamedDeployment(DeploymentsOf(csv.value.obj), DEPLOYER_DEPLOYMENT);
      if deployment.None? {
        return None, e;
      }
      var name := LastNamedImage(deployment.value.containers, PROXY_CONTAINER);
      image := Some(name);
    }

    /** The remote write for a secret that was found, none for one that was not; any other reply is an error. */
    method ConfigureRHOBSRemoteWrite() returns (remoteWrite: Result<Option<RemoteWrite>>, ghost e: Exchange)
      requires Working()
      modifies api
      ensures Working() && ReadOn(old(api.view), api.view) && api.view.log == old(api.view.log) + [e]
      ensures e.req == Get(settings.SecretKey(settings.rhobsSecret))
      ensures remoteWrite ==
        if e.resp.Found? || e.resp.NotFound? then RemoteWriteWanted(settings, DataIn(e.resp)) else Err
      ensures api.calm ==> api.cluster == old(api.cluster)
      ensures api.calm ==> e.resp == Look(api.cluster, settings.SecretKey(settings.rhobsSecret))
    {
      hide api.Valid, PassSettings, ReadOn, Extends, Repeats;
      var key := settings.SecretKey(settings.rhobsSecret);
      var resp := GetObject(key);
      e := Exchange(Get(key), resp);
      if !resp.Found? && !resp.NotFound? {
        return Err, e;
      }
      if resp.NotFound? {
        return Ok(None), e;
      }
      var data := DataOf(resp.obj);
      if RHOBS_ID_KEY !in data {
        return Err, e;
      }
      if RHOBS_SECRET_KEY !in data {
        return Err, e;
      }
      if RHOBS_AUDIENCE_KEY !in data {
        return Err, e;
      }
      remoteWrite := Ok(Some(RemoteWrite(settings.rhobsEndpoint, settings.rhobsSecret, RHOBS_ID_KEY, RHOBS_SECRET_KEY,
                                         settings.tokenEndpoint, data[RHOBS_AUDIENCE_KEY])));
    }

    /** The end of a mutate function: its reads, and its outcome as their replies decide it. */
    ghost predicate MutateDone(x: Context, t: Task, g: Given, asked: seq<Exchange>, o: Object, r: Result<Object>)
      reads this
    {
      && OnlyRead(asked) && Asks(settings, x, t, g, asked, o)
      && r == Mutated(settings, x, t, g, asked, o)
    }

    method MutatePrometheus(o: Object, ghost x: Context) returns (r: Result<Object>, ghost asked: seq<Exchange>)
      requires Working() && managedMCG.uid == x.mcg.uid
      modifies api
      ensures Working() && ReadOn(old(api.view), api.view) && api.view.log == old(api.view.log) + asked
      ensures MutateDone(x, PrometheusTask, NOTHING_GIVEN, asked, o, r)
      ensures api.calm ==> api.cluster == old(api.cluster)
                           && r == PrometheusWanted(settings, x.mcg.uid, InputsOf(settings, api.cluster), o)
    {
      hide api.Valid, PassSettings, ReadOn, Extends, ListOf, RemoteWriteWanted, ProxyImage, DefaultStore, ClusterID;
      asked := [];
      var owned := Owned(managedMCG.uid, o);
      ReadOnSelf(api.view);
      if owned.Err? {
        return Err, asked;
      }
      var prom := Monitored(owned.value);
      var image;
      ghost var e;
      image, e := FindProxyImage();
      asked := [e];
      ghost var v := api.view;
      if image.None? {
        return Err, asked;
      }
      var remoteWrite;
      remoteWrite, e := ConfigureRHOBSRemoteWrite();
      ReadOnTwice(old(api.view), v, api.view);
      asked := asked + [e];
      if remoteWrite.Err? {
        return Err, asked;
      }
      r := Ok(prom.(spec := Metrics(None, image.value, settings.namespace, RELABEL_SECRET_NAME, remoteWrite.value)));
    }

    // Alertmanager

    /** Fills in the receivers of a copy of the template, each in place. */
    method ConfigReceiver(snitchURL: string, addresses: seq<string>, smtp: map<string, string>, html: string)
      returns (receivers: array<Receiver>)
      ensures fresh(receivers)
      ensures receivers[..] == FilledAll(settings, snitchURL, addresses, smtp, html, TEMPLATE_RECEIVERS)
    {
      hide *;
      var template := TEMPLATE_RECEIVERS;
      receivers := new Receiver[|template|](i requires 0 <= i < |template| => template[i]);
      for i := 0 to receivers.Length
        invariant forall k :: 0 <= k < i ==> receivers[k] == Filled(settings, snitchURL, addresses, smtp, html, template[k])
        invariant forall k :: i <= k < receivers.Length ==> receivers[k] == template[k]
      {
        FillReceiver(receivers, i, snitchURL, addresses, smtp, html);
      }
      FilledAllAt(settings, snitchURL, addresses, smtp, html, template, receivers[..]);
    }

    method FillReceiver(receivers: array<Receiver>, i: nat, snitchURL: string, addresses: seq<string>,
                        smtp: map<string, string>, html: string)
      requires i < receivers.Length
      modifies receivers
      ensures receivers[i] == Filled(settings, snitchURL, addresses, smtp, html, old(receivers[i]))
      ensures forall k :: 0 <= k < receivers.Length && k != i ==> receivers[k] == old(receivers[k])
    {
      var receiver := receivers[i];
      if receiver.name == "pagerduty" && receiver.PagerDuty? {
        receivers[i] := receiver.(key := PAGERDUTY_KEY, secretName := settings.pagerdutySecret, sop := settings.sopEndpoint);
      } else if receiver.name == "DeadMansSnitch" && receiver.Webhook? {
        receivers[i] := receiver.(url := snitchURL);
      } else if receiver.name == "SendGrid" && receiver.Email? {
        if |addresses| > 0 {
          receivers[i] := receiver.(
            smarthost := (Entry(smtp, "host"), Entry(smtp, "port")),
            username := Entry(smtp, "username"),
            passwordSecret := settings.smtpSecret,
            passwordKey := "password",
            from := settings.smtpFrom,
            to := JoinWith(addresses, ", "),
            html := html);
        }
      }
    }

    /** Ownership, the pager key and the snitch secret, in this order; it stops at the first that is wanting. */
    method CheckPrerequisites(o: Object)
      returns (owned: Result<Object>, snitch: map<string, string>, ghost asked: seq<Exchange>)
      requires Working()
      modifies api
      ensures Working() && ReadOn(old(api.view), api.view) && api.view.log == old(api.view.log) + asked
      ensures OnlyRead(asked) && AsksInOrder(settings, AlertmanagerConfigTask, asked) && |asked| <= 2
      ensures owned.Ok? ==>
        && |asked| == 2 && PrerequisitesMet(settings, managedMCG.uid, InputsHeard(AlertmanagerConfigTask, NOTHING_GIVEN, asked), o)
        && owned == Owned(managedMCG.uid, o) && DataIn(asked[1].resp) == Some(snitch)
      ensures owned.Err? ==> forall more :: asked <= more ==>
        !PrerequisitesMet(settings, managedMCG.uid, InputsHeard(AlertmanagerConfigTask, NOTHING_GIVEN, more), o)
      ensures api.calm ==> api.cluster == old(api.cluster)
      ensures api.calm ==> (owned.Ok? <==> PrerequisitesMet(settings, managedMCG.uid, InputsOf(settings, api.cluster), o))
      ensures api.calm && owned.Ok? ==> InputsOf(settings, api.cluster).deadMansSnitch == Some(snitch)
    {
      hide api.Valid, PassSettings, ReadOn, Extends, Repeats, DataOf, InputsHeard, InputsOf, Owned, PrerequisitesMet, Look;
      owned, snitch, asked := Err, map[], [];
      ReadOnSelf(api.view);
      PrerequisitesStored(settings, managedMCG.uid, api.cluster, o);
      var mine := Owned(managedMCG.uid, o);
      PrerequisitesMissed(settings, managedMCG.uid, asked, o);
      if mine.Err? {
        return;
      }
      var resp := GetObject(settings.SecretKey(settings.pagerdutySecret));
      asked := asked + [Exchange(Get(settings.SecretKey(settings.pagerdutySecret)), resp)];
      PrerequisitesMissed(settings, managedMCG.uid, asked, o);
      if !resp.Found? {
        return;
      }
      var pagerdutyKey := Entry(DataOf(resp.obj), PAGERDUTY_KEY);
      if pagerdutyKey == "" {
        return;
      }
      ghost var v := api.view;
      resp := GetObject(settings.SecretKey(settings.deadMansSnitchSecret));
      asked := asked + [Exchange(Get(settings.SecretKey(settings.deadMansSnitchSecret)), resp)];
      ReadOnTwice(old(api.view), v, api.view);
      PrerequisitesMissed(settings, managedMCG.uid, asked, o);
      if !resp.Found? {
        return;
      }
      PrerequisitesHeard(settings, managedMCG.uid, asked, o);
      snitch := DataOf(resp.obj);
      owned := mine;
    }

    /** Each of the SMTP parameters has an entry. */
    method SmtpParamsPresent(smtp: map<string, string>) returns (present: bool)
      ensures present <==> SmtpComplete(smtp)
    {
      var params := SMTP_PARAMS;
      for i := 0 to |params|
        invariant forall k :: 0 <= k < i ==> Entry(smtp, params[k]) != ""
      {
        if Entry(smtp, params[i]) == "" {
          return false;
        }
      }
      return true;
    }

    method MutateAlertmanagerConfig(o: Object, ghost x: Context) returns (r: Result<Object>, ghost asked: seq<Exchange>)
      requires Working() && managedMCG.uid == x.mcg.uid && addonParams == x.params
      modifies api
      ensures Working() && ReadOn(old(api.view), api.view) && api.view.log == old(api.view.log) + asked
      ensures MutateDone(x, AlertmanagerConfigTask, NOTHING_GIVEN, asked, o, r)
      ensures api.calm ==> api.cluster == old(api.cluster)
      ensures api.calm ==>
        r == AlertmanagerConfigWanted(settings, x.mcg.uid, x.params, InputsOf(settings, api.cluster), o)
    {
      hide api.Valid, PassSettings, ReadOn, Extends, Repeats, DataOf, DefaultStore, ProxyImage, ClusterID, ListOf, Owned,
        FilledAll, Addresses, AddressList, AddressKey, SmtpComplete;
      r, asked := Err, [];
      var owned, snitch;
      owned, snitch, asked := CheckPrerequisites(o);
      ghost var v := api.view;
      if owned.Err? {
        NoPrerequisites(settings, x, asked, o);
        return;
      }
      var dmsURL := Entry(snitch, SNITCH_URL_KEY);
      if dmsURL == "" {
        return;
      }
      var alertingAddressList, _ := CollectAddresses(addonParams);
      var resp := GetObject(settings.SecretKey(settings.smtpSecret));
      asked := asked + [Exchange(Get(settings.SecretKey(settings.smtpSecret)), resp)];
      ReadOnTwice(old(api.view), v, api.view);
      if !resp.Found? {
        return;
      }
      var smtp := DataOf(resp.obj);
      var present := SmtpParamsPresent(smtp);
      if !present {
        return;
      }
      if settings.notificationHTML.None? {
        return;
      }
      var receivers := ConfigReceiver(dmsURL, alertingAddressList, smtp, settings.notificationHTML.value);
      r := Ok(Monitored(owned.value.(spec := Receivers(receivers[..]))));
    }

    // Rules

    /** Labels the dead man's snitch rule of a template with the namespace. */
    method LabelSnitch(template: seq<RuleGroup>) returns (groups: seq<RuleGroup>)
      ensures groups == SnitchGroups(template, settings.namespace)
    {
      groups := template;
      for g := 0 to |template|
        invariant |groups| == |template|
        invariant forall k :: 0 <= k < |groups| ==>
          groups[k] == if k < g then SnitchGroups(template, settings.namespace)[k] else template[k]
      {
        if groups[g].name == "snitch-alert" {
          var rules := groups[g].rules;
          for i := 0 to |rules|
            invariant |rules| == |template[g].rules|
            invariant forall k :: 0 <= k < |rules| ==>
              rules[k] == if k < i then SnitchRules(template[g].rules, settings.namespace)[k] else template[g].rules[k]
          {
            if rules[i].alert == "DeadMansSnitch" {
              rules := rules[i := rules[i].(labels := rules[i].labels["namespace" := settings.namespace])];
            }
          }
          assert rules == SnitchRules(template[g].rules, settings.namespace);
          groups := groups[g := groups[g].(rules := rules)];
        }
      }
    }

    /** Adds one label to every rule of every group. */
    method AddRuleLabel(source: seq<RuleGroup>, key: string, value: string) returns (groups: seq<RuleGroup>)
      ensures groups == LabelledGroups(source, key, value)
    {
      groups := source;
      for g := 0 to |source|
        invariant |groups| == |source|
        invariant forall k :: 0 <= k < |groups| ==>
          groups[k] == if k < g then LabelledGroups(source, key, value)[k] else source[k]
      {
        var rules := groups[g].rules;
        for i := 0 to |rules|
          invariant |rules| == |source[g].rules|
          invariant forall k :: 0 <= k < |rules| ==>
            rules[k] == if k < i then LabelledRules(source[g].rules, key, value)[k] else source[g].rules[k]
        {
          rules := rules[i := rules[i].(labels := rules[i].labels[key := value])];
        }
        assert rules == LabelledRules(source[g].rules, key, value);
        groups := groups[g := groups[g].(rules := rules)];
      }
    }

    method FindClusterID(items: seq<Item>) returns (id: Option<string>)
      ensures id == ClusterID(items)
    {
      for i := 0 to |items|
        invariant ClusterID(items) == ClusterID(items[i..])
      {
        if items[i].key.name == "version" {
          return Some(match items[i].obj.spec case Version(id) => id case _ => "");
        }
      }
      return None;
    }

    method MutateNoobaaRules(o: Object, ghost x: Context) returns (r: Result<Object>, ghost asked: seq<Exchange>)
      requires Working() && managedMCG.uid == x.mcg.uid
      modifies api
      ensures Working() && ReadOn(old(api.view), api.view) && api.view.log == old(api.view.log) + asked
      ensures MutateDone(x, NoobaaRulesTask, NOTHING_GIVEN, asked, o, r)
      ensures api.calm ==> api.cluster == old(api.cluster)
      ensures api.calm ==>
        r == WithSpec(Owned(x.mcg.uid, o), Rules(NoobaaGroups(settings, InputsOf(settings, api.cluster).clusterID)))
    {
      hide api.Valid, PassSettings, ReadOn, Extends, Repeats, DefaultStore, ProxyImage, ClusterID, ListOf, Owned, LabelledGroups,
        SecretData;
      r, asked := Err, [];
      ReadOnSelf(api.view);
      var owned := Owned(managedMCG.uid, o);
      if owned.Err? {
        return;
      }
      var groups := AddRuleLabel(settings.noobaaRules, "variant", settings.addonName);
      groups := AddRuleLabel(groups, "environment", settings.environment);
      var resp := ListObjects(ClusterVersion, None);
      asked := [Exchange(List(ClusterVersion, None), resp)];
      if !resp.Items? {
        return;
      }
      var id := FindClusterID(resp.items);
      if id.Some? {
        groups := AddRuleLabel(groups, "cluster_id", id.value);
      }
      r := Ok(owned.value.(spec := Rules(groups)));
    }

    // Create or update

    /** What the mutate functions read from memory is as in `x`. */
    ghost predicate Holds(x: Context)
      reads this`managedMCG, this`addonParams
    {
      managedMCG.uid == x.mcg.uid && managedMCG.status.components == x.mcg.status.components && addonParams == x.params
    }

    /** The mutate function of a task. */
    method Mutate(t: Task, o: Object, given: Given, ghost x: Context) returns (r: Result<Object>, ghost asked: seq<Exchange>)
      requires Working() && Holds(x) && (t.NoobaaTask? ==> given.annotations == x.noobaa.annotations)
      modifies api
      ensures Working() && ReadOn(old(api.view), api.view) && api.view.log == old(api.view.log) + asked
      ensures MutateDone(x, t, given, asked, o, r)
      ensures t.NoobaaTask? && r.Ok? ==> r.value == NoobaaWanted(given.annotations, given.defaultStore, o)
      ensures t.NoobaaTask? || t.ConsoleClusterTask? ==> asked == []
      ensures api.calm ==> api.cluster == old(api.cluster)
      ensures api.calm && GivenMatches(t, given, InputsOf(settings, api.cluster)) ==>
        r == Wanted(settings, x, InputsOf(settings, api.cluster), t, o)
    {
      hide api.Valid, PassSettings, ReadOn, Extends, InputsOf, PrometheusWanted, AlertmanagerConfigWanted, Owned,
        PrometheusServiceWanted, SnitchGroups, NoobaaGroups, AlertmanagerWanted, InVain;
      asked := [];
      ReadOnSelf(api.view);
      var uid := managedMCG.uid;
      match t {
        case NoobaaTask =>
          var annotated := o;
          if Entry(given.annotations, DEFAULT_STORE_ANNOTATION) == "" && given.defaultStore != "" {
            annotated := WithAnnotation(o, DEFAULT_STORE_ANNOTATION, given.defaultStore);
          }
          r := Ok(annotated.(spec := Fixed("noobaa")));
        case ConsoleServiceTask => r := Owned(given.deployment, o);
        case ConsolePluginTask => r := Ok(o);
        case ConsoleClusterTask => r := Ok(o.(spec := Plugins(PluginsOf(o) + [CONSOLE_NAME])));
        case RBACTask => r := WithSpec(Owned(uid, o), Fixed("kube-rbac-proxy-config"));
        case PrometheusServiceTask => r := PrometheusServiceWanted(uid, o);
        case ProxyPolicyTask => r := WithSpec(Owned(uid, o), Fixed("prometheus-proxy-policy"));
        case RelabelTask =>
          r := WithSpec(Owned(uid, o), Data(map["alertrelabelconfig.yaml" := settings.namespace]));
        case PrometheusTask =>
          r, asked := MutatePrometheus(o, x);
          GivenIgnored(settings, x, t, given, asked, o);
        case AlertmanagerTask => r := AlertmanagerWanted(uid, o);
        case AlertmanagerConfigTask =>
          r, asked := MutateAlertmanagerConfig(o, x);
          GivenIgnored(settings, x, t, given, asked, o);
        case DmsTask =>
          var groups := LabelSnitch(DMS_GROUPS);
          r := WithSpec(Owned(uid, o), Rules(groups));
        case NoobaaRulesTask =>
          r, asked := MutateNoobaaRules(o, x);
          GivenIgnored(settings, x, t, given, asked, o);
        case IngressTask => r := WithSpec(Owned(uid, o), Fixed("ingress-policy"));
      }
    }

    /** Mutates what a get brought, or the object in memory if there was none, and writes the outcome if need be. */
    method MutateAndWrite(t: Task, base: Object, found: bool, given: Given, ghost x: Context)
      returns (out: Outcome, obj: Object, ghost log: seq<Exchange>)
      requires Working() && Installing(settings, api.view) && Holds(x)
      requires t.NoobaaTask? ==>
        given.annotations == x.noobaa.annotations && NoobaaAsked(settings, api.view, given, base, found)
      requires t.ConsoleClusterTask? ==> ConsoleAsked(settings, api.view, base, found)
      requires api.calm ==> found == (KeyOf(settings, t) in api.cluster.objects)
      requires api.calm && found ==> base == api.cluster.objects[KeyOf(settings, t)]
      modifies api
      ensures Working() && Extends(old(api.view), api.view)
      ensures !out.Failed? ==> api.view.writeFailed == old(api.view.writeFailed)
      ensures api.view.log == old(api.view.log) + log
      ensures Brings(settings, x, t, given, base, found, log, out)
      ensures api.calm && GivenMatches(t, given, InputsOf(settings, old(api.cluster))) ==>
        match Wanted(settings, x, InputsOf(settings, old(api.cluster)), t, base)
        case Err => out.Failed? && api.cluster == old(api.cluster)
        case Ok(o) => WrittenAs(Written(old(api.cluster), KeyOf(settings, t), o), old(api.cluster), api.cluster, out)
    {
      hide api.Valid, PassSettings, ReadOn, Extends, InputsOf, Wanted, KeyOf, NoobaaWanted, Allowed, Installing,
        NoobaaAsked, Exec, Mutated, Asks, Brings, ConsoleAsked, Fits, Repeats, OnlyRead, GivenMatches;
      obj := base;
      out := Failed;
      var wanted;
      wanted, log := Mutate(t, base, given, x);
      ghost var v, asked := api.view, log;
      ReadOnExtends(old(api.view), v);
      StillInstalling(settings, old(api.view), v);
      if wanted.Err? {
        NothingOwed(settings, x, t, given, base, found, asked, out);
        return;
      }
      obj := wanted.value;
      if found && obj == base {
        out := Nil;
        NothingOwed(settings, x, t, given, base, found, asked, out);
        return;
      }
      var req := if found then Update(KeyOf(settings, t), obj) else Create(KeyOf(settings, t), obj);
      MutatedIsWanted(settings, x, t, given, asked, base);
      if t.ConsoleClusterTask? || t.NoobaaTask? {
        SameLogAsks(settings, old(api.view), v, given, base, found);
      }
      OwedIsAllowed(settings, v, x, InputsHeard(t, given, asked), t, given, base, found);
      var resp := Write(req);
      ExtendsTwice(old(api.view), v, api.view);
      log := log + [Exchange(req, resp)];
      out := OutcomeOf(resp);
      WriteSent(settings, x, t, given, base, found, asked, Exchange(req, resp));
      if api.calm {
        WriteOutcome(old(api.cluster), KeyOf(settings, t), obj);
      }
    }

    method CreateOrUpdate(t: Task, base: Object, given: Given, ghost x: Context)
      returns (out: Outcome, obj: Object, ghost log: seq<Exchange>)
      requires Working() && Installing(settings, api.view) && Holds(x) && base == Base(x, t)
      requires t.NoobaaTask? ==> given.annotations == x.noobaa.annotations && base == NoobaaCopy(settings, api.view)
      requires t.NoobaaTask? ==> NoobaaListed(settings, api.view, given)
      requires t.ConsoleClusterTask? ==> ConsoleListed(api.view)
      modifies api
      ensures Working() && Extends(old(api.view), api.view)
      ensures !out.Failed? ==> api.view.writeFailed == old(api.view.writeFailed)
      ensures api.view.log == old(api.view.log) + log && BroughtUp(settings, x, t, given, log, out)
      ensures api.calm && GivenMatches(t, given, InputsOf(settings, old(api.cluster))) ==>
        WrittenAs(Brought(settings, x, old(api.cluster), t), old(api.cluster), api.cluster, out)
    {
      hide api.Valid, PassSettings, ReadOn, Extends, InputsOf, Base, Wanted, KeyOf, NoobaaWanted, NoobaaCopy, Repeats, Installing,
        NoobaaListed, NoobaaAsked, Brings, BroughtUp, Written, WrittenAs, Brought, GivenMatches, ConsoleAsked, ConsoleListed;
      obj := base;
      out := Failed;
      var resp := GetObject(KeyOf(settings, t));
      ghost var v := api.view;
      log := [Exchange(Get(KeyOf(settings, t)), resp)];
      ReadOnExtends(old(api.view), v);
      StillInstalling(settings, old(api.view), v);
      if resp.Failure? {
        GetFailed(settings, x, t, given);
        return;
      }
      if resp.Found? {
        obj := resp.obj;
      }
      if t.NoobaaTask? {
        NoobaaTaskKey(settings);
        NoobaaGot(settings, old(api.view), given, resp);
      }
      if t.ConsoleClusterTask? {
        ConsoleTaskKey(settings, x);
        ConsoleGot(settings, old(api.view), resp);
      }
      ghost var rest;
      out, obj, rest := MutateAndWrite(t, obj, resp.Found?, given, x);
      ExtendsTwice(old(api.view), v, api.view);
      LookupThenWrite(settings, x, t, given, resp, rest, out);
      log := log + rest;
      if api.calm {
        BroughtIs(settings, x, old(api.cluster), t);
      }
    }

    // Steps of the strict arm

    ghost predicate MayBring(x: Context)
      reads this`settings, this`managedMCG, this`addonParams, api
    {
      Working() && Installing(settings, api.view) && settings.NoobaaKey() in api.view.seen && Holds(x)
    }

    /** A step of the arm that began with view `v` and store `c` ended as its log says, if others kept still as its function does. */
    ghost predicate StepDone(v: View, c: Cluster, x: Context, step: Step, log: seq<Exchange>, err: bool)
      reads this`settings, this`managedMCG, this`addonParams, api
    {
      && MayBring(x) && Extends(v, api.view) && (!err ==> api.view.writeFailed == v.writeFailed)
      && api.view.log == v.log + log && StepLogged(settings, x, step, log, err)
      && (api.calm ==> (api.cluster, err) == StepRun(settings, x, c, step))
    }

    method BringTask(t: Task, base: Object, given: Given, ghost x: Context)
      returns (out: Outcome, obj: Object, ghost log: seq<Exchange>)
      requires MayBring(x) && base == Base(x, t)
      requires t.NoobaaTask? ==> given.annotations == x.noobaa.annotations && base == NoobaaCopy(settings, api.view)
      requires t.NoobaaTask? ==> NoobaaListed(settings, api.view, given)
      requires t.ConsoleClusterTask? ==> ConsoleListed(api.view)
      modifies api
      ensures MayBring(x) && Extends(old(api.view), api.view)
      ensures !out.Failed? ==> api.view.writeFailed == old(api.view.writeFailed)
      ensures api.view.log == old(api.view.log) + log && BroughtUp(settings, x, t, given, log, out)
      ensures api.calm && GivenMatches(t, given, InputsOf(settings, old(api.cluster))) ==>
        !out.Exists? && (api.cluster, !out.Nil?) == StepRun(settings, x, old(api.cluster), Bring(t))
    {
      hide api.Valid, PassSettings, Extends, Installing, InputsOf, Base, KeyOf, Brought, BroughtUp, GivenMatches, NoobaaCopy, ConsoleListed, NoobaaListed;
      out, obj, log := CreateOrUpdate(t, base, given, x);
      StillInstalling(settings, old(api.view), api.view);
      SeenKept(old(api.view), api.view, settings.NoobaaKey());
    }

    /** The tasks that need nothing but their mutate function. */
    method ReconcileTask(t: Task, base: Object, ghost x: Context) returns (err: bool, obj: Object, ghost log: seq<Exchange>)
      requires MayBring(x) && base == Base(x, t)
      requires !t.NoobaaTask? && !t.ConsoleServiceTask? && !t.ConsolePluginTask? && !t.ConsoleClusterTask?
      modifies api
      ensures StepDone(old(api.view), old(api.cluster), x, Bring(t), log, err)
    {
      hide api.Valid, PassSettings, Extends, Installing, InputsOf, Base, StepRun, BroughtUp, NoobaaCopy, ConsoleListed;
      var out;
      out, obj, log := BringTask(t, base, NOTHING_GIVEN, x);
      err := !out.Nil?;
    }

    method GetDefaultBackingStore() returns (store: string, ghost e: Exchange)
      requires Working()
      modifies api
      ensures Working() && ReadOn(old(api.view), api.view) && api.view.log == old(api.view.log) + [e]
      ensures e.req == List(BackingStore, Some(settings.namespace)) && store == DefaultStore(ItemsIn(e.resp))
      ensures api.calm ==> api.cluster == old(api.cluster) && e.resp == Items(AllOf(settings, api.cluster, BackingStore))
    {
      hide api.Valid, PassSettings, Extends, ReadOn, ListOf;
      var reply := ListObjects(BackingStore, Some(settings.namespace));
      e := Exchange(List(BackingStore, Some(settings.namespace)), reply);
      if !reply.Items? {
        return "", e;
      }
      if |reply.items| == 0 {
        return "", e;
      }
      for i := 0 to |reply.items|
        invariant FirstWithPrefix(reply.items, DEFAULT_STORE) == FirstWithPrefix(reply.items[i..], DEFAULT_STORE)
      {
        if DEFAULT_STORE <= reply.items[i].key.name {
          return DEFAULT_STORE, e;
        }
      }
      return reply.items[0].key.name, e;
    }

    method ReconcileNoobaaComponent(ghost x: Context) returns (err: bool, ghost log: seq<Exchange>)
      requires MayBring(x) && noobaa == x.noobaa == NoobaaCopy(settings, api.view) && QuietSoFar(settings, api.view.log)
      modifies this`noobaa, api
      ensures StepDone(old(api.view), old(api.cluster), x, Bring(NoobaaTask), log, err)
    {
      hide api.Valid, PassSettings, Extends, ReadOn, Installing, NoobaaCopy, StepRun, BroughtUp, ListOf, DefaultStore,
        ProxyImage, ClusterID, SecretData, ConsoleListed, QuietSoFar, NoobaaListed;
      var defaultStore;
      ghost var e;
      defaultStore, e := GetDefaultBackingStore();
      ghost var v := api.view;
      ReadOnExtends(old(api.view), v);
      StillBringing(old(api.view), x);
      SameNoobaaCopy(settings, old(api.view), v);
      StoresListed(settings, old(api.view), v, e, Given(noobaa.annotations, defaultStore, 0));
      var out;
      ghost var rest;
      out, noobaa, rest := BringTask(NoobaaTask, noobaa, Given(noobaa.annotations, defaultStore, 0), x);
      ExtendsTwice(old(api.view), v, api.view);
      err := !out.Nil?;
      log := [e] + rest;
      assert log[1..] == rest;
    }

    lemma StillBringing(v: View, x: Context)
      requires Working() && Extends(v, api.view) && Installing(settings, v) && settings.NoobaaKey() in v.seen && Holds(x)
      ensures MayBring(x)
    {
      StillInstalling(settings, v, api.view);
    }

    /** The console's service, owned by its deployment; one that was created meanwhile by somebody else counts as brought up. */
    method EnsureConsoleService(ghost x: Context) returns (err: bool, ghost log: seq<Exchange>)
      requires MayBring(x)
      modifies api
      ensures StepDone(old(api.view), old(api.cluster), x, Bring(ConsoleServiceTask), log, err)
    {
      hide api.Valid, PassSettings, Extends, ReadOn, Installing, BroughtUp, InputsOf, StepRun, Fits, Repeats,
        NoobaaCopy, Look, ConsoleListed;
      var resp := GetObject(settings.ConsoleDeploymentKey());
      ghost var v := api.view;
      log := [Exchange(Get(settings.ConsoleDeploymentKey()), resp)];
      ReadOnExtends(old(api.view), v);
      StillBringing(old(api.view), x);
      if !resp.Found? {
        if api.calm {
          NoDeployment(settings, x, api.cluster);
        }
        return true, log;
      }
      if api.calm {
        DeploymentGiven(settings, api.cluster, resp.obj);
      }
      var service, _, rest := BringTask(ConsoleServiceTask, Base(NO_CONTEXT, ConsoleServiceTask), Given(map[], "", resp.obj.uid), x);
      ExtendsTwice(old(api.view), v, api.view);
      log := log + rest;
      assert log[1..] == rest;
      err := !service.Nil? && !service.Exists?;
    }

    /** The console plugin object, likewise. */
    method EnsurePluginObject(ghost x: Context) returns (err: bool, ghost log: seq<Exchange>)
      requires MayBring(x)
      modifies api
      ensures StepDone(old(api.view), old(api.cluster), x, Bring(ConsolePluginTask), log, err)
    {
      hide api.Valid, PassSettings, Extends, Installing, InputsOf, StepRun, BroughtUp, NoobaaCopy, ConsoleListed;
      NothingGiven(ConsolePluginTask);
      var plugin, _, rest := BringTask(ConsolePluginTask, Base(NO_CONTEXT, ConsolePluginTask), NOTHING_GIVEN, x);
      log := rest;
      err := !plugin.Nil? && !plugin.Exists?;
    }

    /** Whether one of the listed Consoles names the plugin. */
    method AnyLists(items: seq<Item>, plugin: string) returns (found: bool)
      ensures found <==> Lists(items, plugin)
    {
      for i := 0 to |items|
        invariant forall k :: 0 <= k < i ==> plugin !in PluginsOf(items[k].obj)
      {
        var present := Contains(PluginsOf(items[i].obj), plugin);
        if present {
          return true;
        }
      }
      return false;
    }

    /** The plugin is added to the cluster's Console only if no listed Console has it. */
    method ReconcileConsoleCluster(ghost x: Context) returns (err: bool, ghost log: seq<Exchange>)
      requires MayBring(x)
      modifies api
      ensures StepDone(old(api.view), old(api.cluster), x, ConsoleStep, log, err)
    {
      hide api.Valid, PassSettings, Extends, ReadOn, Installing, InputsOf, BroughtUp, ListOf, Lists, Brought, GivenMatches,
        NoobaaCopy;
      var reply := ListObjects(Console, None);
      ghost var v := api.view;
      log := [Exchange(List(Console, None), reply)];
      ReadOnExtends(old(api.view), v);
      StillBringing(old(api.view), x);
      if !reply.Items? {
        return true, log;
      }
      var present := AnyLists(reply.items, CONSOLE_NAME);
      if present {
        return false, log;
      }
      NothingGiven(ConsoleClusterTask);
      var out, _, rest := BringTask(ConsoleClusterTask, Base(NO_CONTEXT, ConsoleClusterTask), NOTHING_GIVEN, x);
      ExtendsTwice(old(api.view), v, api.view);
      err := !out.Nil?;
      log := log + rest;
      assert log[1..] == rest;
    }

    /** Scales the OCS deployments of a CSV down in place. */
    method Downscale(source: seq<DeploymentSpec>) returns (deployments: seq<DeploymentSpec>, isChanged: bool)
      ensures deployments == Downscaled(source) && (isChanged <==> deployments != source)
      ensures ScaledDown(source, deployments) && (isChanged <==> SomeToStop(source))
    {
      deployments, isChanged := source, false;
      for i := 0 to |source|
        invariant |deployments| == |source|
        invariant forall k :: 0 <= k < |source| ==> deployments[k] == if k < i then Downscaled(source)[k] else source[k]
        invariant isChanged <==> exists k :: 0 <= k < i && deployments[k] != source[k]
        invariant isChanged <==> exists k :: 0 <= k < i && ToStop(source[k]) && source[k].replicas != 0
      {
        if deployments[i].name in OCS_DEPLOYMENTS && deployments[i].replicas != 0 {
          deployments := deployments[i := deployments[i].(replicas := 0)];
          isChanged := true;
        }
      }
    }

    /** Nothing is sent while NooBaa is not ready, and an update only if a replica count was not zero. */
    method ReconcileOCSCSV(ghost x: Context) returns (err: bool, ghost log: seq<Exchange>)
      requires MayBring(x)
      modifies api
      ensures StepDone(old(api.view), old(api.cluster), x, OcsStep, log, err)
    {
      hide api.Valid, PassSettings, Extends, ReadOn, Installing, ListOf, FirstWithPrefix, Downscaled, ScaledDown, SomeToStop, Exec;
      log := [];
      ExtendsSelf(api.view);
      if !managedMCG.status.components.noobaa.Ready? {
        return false, log;
      }
      var csv;
      ghost var e;
      csv, e := GetCSVByPrefix(OCS_CSV_PREFIX);
      ghost var v := api.view;
      ReadOnExtends(old(api.view), v);
      StillBringing(old(api.view), x);
      log := [e];
      if csv.None? {
        return true, log;
      }
      var deployments, isChanged := Downscale(DeploymentsOf(csv.value.obj));
      err := false;
      if isChanged {
        var req := Update(csv.value.key, csv.value.obj.(spec := Deployments(deployments)));
        CsvUpdateAllowed(settings, v, req.key, req.obj);
        var resp := Write(req);
        ExtendsTwice(old(api.view), v, api.view);
        StillBringing(v, x);
        RefusedUpdate(old(api.cluster), req.key, req.obj);
        log := log + [Exchange(req, resp)];
        err := !resp.Stored?;
      }
    }

    // Labels

    /** Labels all listed objects of one kind, in the order of the list. */
    method LabelListed(kind: Kind, ghost x: Context) returns (err: bool, ghost log: seq<Exchange>)
      requires MayBring(x) && (kind.PodMonitor? || kind.ServiceMonitor? || kind.PrometheusRule?)
      modifies api
      ensures MayBring(x) && Extends(old(api.view), api.view)
      ensures !err ==> api.view.writeFailed == old(api.view.writeFailed)
      ensures api.view.log == old(api.view.log) + log && LabelsInOrder(settings, kind, log, err) && log != []
      ensures api.calm ==> (err <==> LabelKind(settings, old(api.cluster), kind).None?)
      ensures api.calm && !err ==> LabelKind(settings, old(api.cluster), kind) == Some(api.cluster)
      ensures api.calm ==> api.cluster == LabelledUntil(settings, old(api.cluster), kind)
    {
      hide api.Valid, PassSettings, Extends, ReadOn, Installing, Allowed, ListOf, Exec, Labelled, Fits, Holds, LabelsInOrder,
        LabelsTo, LabelKind, LabelledUntil;
      LabelsFrom(settings, api.cluster, kind);
      var reply := ListObjects(kind, Some(settings.namespace));
      ghost var v := api.view;
      ReadOnExtends(old(api.view), v);
      StillBringing(old(api.view), x);
      log := [Exchange(List(kind, Some(settings.namespace)), reply)];
      if reply.Items? {
        ListMatches(kind, Some(settings.namespace), reply);
      }
      if !reply.Items? {
        LabelsNoted(settings, kind, log, true);
        return true, log;
      }
      for i := 0 to |reply.items|
        invariant MayBring(x) && Extends(old(api.view), api.view) && api.view.writeFailed == old(api.view.writeFailed)
        invariant api.view.log == old(api.view.log) + log && |log| == i + 1
        invariant log[0] == Exchange(List(kind, Some(settings.namespace)), reply)
        invariant forall j :: 1 <= j < |log| ==>
          log[j].req == Update(reply.items[j - 1].key, Labelled(reply.items[j - 1])) && log[j].resp.Stored?
        invariant api.calm ==> LabelsTo(settings, old(api.cluster), kind, api.cluster, reply.items[i..])
      {
        var obj := LabelOne(reply.items[i]);
        var req := Update(reply.items[i].key, obj);
        ghost var w, c := api.view, api.cluster;
        LabelAllowed(settings, w, reply.items[i].key, obj);
        var resp := Write(req);
        ExtendsTwice(old(api.view), w, api.view);
        StillBringing(w, x);
        log := log + [Exchange(req, resp)];
        if api.calm {
          RefusedUpdate(c, reply.items[i].key, obj);
          LabelNext(settings, old(api.cluster), kind, c, reply.items, i);
        }
        if !resp.Stored? {
          LabelsNoted(settings, kind, log, true);
          return true, log;
        }
      }
      if api.calm {
        assert reply.items[|reply.items|..] == [];
        LabelsOver(settings, old(api.cluster), kind, api.cluster);
      }
      LabelsNoted(settings, kind, log, false);
      return false, log;
    }

    method LabelOne(item: Item) returns (obj: Object)
      ensures obj == Labelled(item)
    {
      obj := item.obj;
      if item.key.kind.PrometheusRule? && item.key.name == FOREIGN_RULES_NAME {
        if MON_LABEL_KEY in obj.labels && obj.labels[MON_LABEL_KEY] == MON_LABEL_VALUE {
          obj := WithoutLabel(obj, MON_LABEL_KEY);
        }
      } else {
        obj := WithLabel(obj, MON_LABEL_KEY, MON_LABEL_VALUE);
      }
    }

    method ReconcileMonitoringResources(ghost x: Context) returns (err: bool, ghost log: seq<Exchange>)
      requires MayBring(x)
      modifies api
      ensures StepDone(old(api.view), old(api.cluster), x, LabelStep, log, err)
    {
      hide api.Valid, PassSettings, Extends, Installing, LabelKind, LabelledUntil, LabelsInOrder, Holds;
      ghost var pods, services, rules := [], [], [];
      err, pods := LabelListed(PodMonitor, x);
      ghost var v1 := api.view;
      log := pods;
      if err {
        LabelPartsDone(settings, pods, services, rules, err);
        return;
      }
      err, services := LabelListed(ServiceMonitor, x);
      ghost var v2 := api.view;
      log := pods + services;
      ExtendsTwice(old(api.view), v1, v2);
      if err {
        LabelPartsDone(settings, pods, services, rules, err);
        return;
      }
      err, rules := LabelListed(PrometheusRule, x);
      log := pods + services + rules;
      ExtendsTwice(old(api.view), v2, api.view);
      LabelPartsDone(settings, pods, services, rules, err);
    }

    // The arm as a whole

    /**
     Between two steps, with the logs of the steps so far: they came in their order and, unless `err`, all succeeded; if
     others kept still, the store is where as many steps of the arm lead from `start`.
     */
    ghost predicate Underway(v: View, x: Context, start: Cluster, logs: seq<seq<Exchange>>, err: bool)
      reads this`settings, this`managedMCG, this`addonParams, api
    {
      && MayBring(x) && Extends(v, api.view) && (!err ==> api.view.writeFailed == v.writeFailed)
      && api.view.log == v.log + Flat(logs) && ArmLogged(settings, x, logs, err)
      && (api.calm ==> (api.cluster, err) == ArmRun(settings, x, start, |logs|))
    }

    /** One more step, taken by one of the methods above. */
    lemma StepTaken(u: View, v: View, x: Context, start: Cluster, logs: seq<seq<Exchange>>, c: Cluster, log: seq<Exchange>,
                    err: bool)
      requires |logs| < RESOURCE_STEPS && Extends(u, v) && v.writeFailed == u.writeFailed && v.log == u.log + Flat(logs)
      requires ArmLogged(settings, x, logs, false) && (api.calm ==> ArmRun(settings, x, start, |logs|) == (c, false))
      requires StepDone(v, c, x, ArmStep(|logs|), log, err)
      ensures Underway(u, x, start, logs + [log], err)
    {
      hide api.Valid, PassSettings, Extends, Installing, StepRun, StepLogged, ArmLogged, ArmRun, Flat;
      ExtendsTwice(u, v, api.view);
      ArmLoggedMore(settings, x, logs, log, err);
      FlatMore(logs, log);
      if api.calm {
        ArmRunNext(settings, x, start, |logs|, c);
      }
    }

    /** A step that only brings one object up to date. */
    method TaskStep(n: nat, base: Object, ghost v: View, ghost x: Context, ghost start: Cluster, ghost before: seq<seq<Exchange>>)
      returns (err: bool, obj: Object, ghost logs: seq<seq<Exchange>>)
      requires n < RESOURCE_STEPS && n == |before| && PlainStep(x, n, base)
      requires Underway(v, x, start, before, false)
      modifies api
      ensures Underway(v, x, start, logs, err) && |logs| == n + 1
    {
      hide api.Valid, PassSettings, Extends, Installing, Base, StepDone, ArmRun, ArmLogged, Flat;
      ghost var w, c, log := api.view, api.cluster, [];
      err, obj, log := ReconcileTask(ArmStep(n).task, base, x);
      StepTaken(v, w, x, start, before, c, log, err);
      logs := before + [log];
    }

    method NoobaaStep(ghost v: View, ghost x: Context, ghost start: Cluster) returns (err: bool, ghost logs: seq<seq<Exchange>>)
      requires Underway(v, x, start, [], false)
      requires noobaa == x.noobaa == NoobaaCopy(settings, api.view) && QuietSoFar(settings, api.view.log)
      modifies this`noobaa, api
      ensures Underway(v, x, start, logs, err) && |logs| == 1
    {
      hide api.Valid, PassSettings, Extends, Installing, StepDone, ArmRun, ArmLogged, Flat, NoobaaCopy, QuietSoFar;
      ghost var w, c, log := api.view, api.cluster, [];
      err, log := ReconcileNoobaaComponent(x);
      StepTaken(v, w, x, start, [], c, log, err);
      logs := [] + [log];
    }

    /** An object that was created meanwhile by somebody else counts as brought up to date. */
    method EnsureConsolePlugin(ghost v: View, ghost x: Context, ghost start: Cluster, ghost before: seq<seq<Exchange>>)
      returns (err: bool, ghost logs: seq<seq<Exchange>>)
      requires Underway(v, x, start, before, false) && |before| == 1
      modifies api
      ensures Underway(v, x, start, logs, err) && 2 <= |logs| <= 3 && (!err ==> |logs| == 3)
    {
      hide api.Valid, PassSettings, Extends, Installing, StepDone, ArmRun, ArmLogged, Flat;
      ghost var w, c, log := api.view, api.cluster, [];
      err, log := EnsureConsoleService(x);
      StepTaken(v, w, x, start, before, c, log, err);
      logs := before + [log];
      if err {
        return;
      }
      w, c := api.view, api.cluster;
      err, log := EnsurePluginObject(x);
      StepTaken(v, w, x, start, logs, c, log, err);
      logs := logs + [log];
    }

    method ConsoleClusterStep(ghost v: View, ghost x: Context, ghost start: Cluster, ghost before: seq<seq<Exchange>>)
      returns (err: bool, ghost logs: seq<seq<Exchange>>)
      requires Underway(v, x, start, before, false) && |before| == 3
      modifies api
      ensures Underway(v, x, start, logs, err) && |logs| == 4
    {
      hide api.Valid, PassSettings, Extends, Installing, StepDone, ArmRun, ArmLogged, Flat;
      ghost var w, c, log := api.view, api.cluster, [];
      err, log := ReconcileConsoleCluster(x);
      StepTaken(v, w, x, start, before, c, log, err);
      logs := before + [log];
    }

    method OCSStep(ghost v: View, ghost x: Context, ghost start: Cluster, ghost before: seq<seq<Exchange>>)
      returns (err: bool, ghost logs: seq<seq<Exchange>>)
      requires Underway(v, x, start, before, false) && |before| == 4
      modifies api
      ensures Underway(v, x, start, logs, err) && |logs| == 5
    {
      hide api.Valid, PassSettings, Extends, Installing, StepDone, ArmRun, ArmLogged, Flat;
      ghost var w, c, log := api.view, api.cluster, [];
      err, log := ReconcileOCSCSV(x);
      StepTaken(v, w, x, start, before, c, log, err);
      logs := before + [log];
    }

    method MonitoringResourcesStep(ghost v: View, ghost x: Context, ghost start: Cluster, ghost before: seq<seq<Exchange>>)
      returns (err: bool, ghost logs: seq<seq<Exchange>>)
      requires Underway(v, x, start, before, false) && |before| == 12
      modifies api
      ensures Underway(v, x, start, logs, err) && |logs| == 13
    {
      hide api.Valid, PassSettings, Extends, Installing, StepDone, ArmRun, ArmLogged, Flat;
      ghost var w, c, log := api.view, api.cluster, [];
      err, log := ReconcileMonitoringResources(x);
      StepTaken(v, w, x, start, before, c, log, err);
      logs := before + [log];
    }

    method ReconcileAlertMonitoring(ghost v: View, ghost x: Context, ghost start: Cluster, ghost before: seq<seq<Exchange>>)
      returns (err: bool, ghost logs: seq<seq<Exchange>>)
      requires Underway(v, x, start, before, false) && |before| == 8
      requires prometheus == x.prometheus && alertmanager == x.alertmanager
      modifies this`prometheus, this`alertmanager, api
      ensures Underway(v, x, start, logs, err) && 8 < |logs| <= 15 && (!err ==> |logs| == 15)
    {
      hide Underway, PlainStep;
      PlainSteps(x);
      var obj;
      err, obj, logs := TaskStep(8, NEW_OBJECT, v, x, start, before);
      if err {
        return;
      }
      err, obj, logs := TaskStep(9, prometheus, v, x, start, logs);
      prometheus := obj;
      if err {
        return;
      }
      err, obj, logs := TaskStep(10, alertmanager, v, x, start, logs);
      alertmanager := obj;
      if err {
        return;
      }
      err, obj, logs := TaskStep(11, NEW_OBJECT, v, x, start, logs);
      if err {
        return;
      }
      err, logs := MonitoringResourcesStep(v, x, start, logs);
      if err {
        return;
      }
      err, obj, logs := TaskStep(13, NEW_OBJECT, v, x, start, logs);
      if err {
        return;
      }
      err, obj, logs := TaskStep(14, NEW_OBJECT, v, x, start, logs);
    }

    /** All steps in their order, up to the first that fails. */
    method ReconcileResources(ghost v: View, ghost x: Context, ghost start: Cluster)
      returns (err: bool, ghost logs: seq<seq<Exchange>>)
      requires Underway(v, x, start, [], false)
      requires noobaa == x.noobaa && prometheus == x.prometheus && alertmanager == x.alertmanager
      requires noobaa == NoobaaCopy(settings, api.view) && QuietSoFar(settings, api.view.log)
      modifies this`noobaa, this`prometheus, this`alertmanager, api
      ensures Underway(v, x, start, logs, err) && (!err ==> |logs| == RESOURCE_STEPS)
    {
      hide Underway, NoobaaCopy, PlainStep, QuietSoFar;
      PlainSteps(x);
      err, logs := NoobaaStep(v, x, start);
      if err {
        return;
      }
      err, logs := EnsureConsolePlugin(v, x, start, logs);
      if err {
        return;
      }
      err, logs := ConsoleClusterStep(v, x, start, logs);
      if err {
        return;
      }
      err, logs := OCSStep(v, x, start, logs);
      if err {
        return;
      }
      var obj;
      err, obj, logs := TaskStep(5, NEW_OBJECT, v, x, start, logs);
      if err {
        return;
      }
      err, obj, logs := TaskStep(6, NEW_OBJECT, v, x, start, logs);
      if err {
        return;
      }
      err, obj, logs := TaskStep(7, NEW_OBJECT, v, x, start, logs);
      if err {
        return;
      }
      err, logs := ReconcileAlertMonitoring(v, x, start, logs);
      if err {
        return;
      }
      err, obj, logs := TaskStep(15, NEW_OBJECT, v, x, start, logs);
    }

    /** Once a step has failed, the rest of the arm is not run. */
    lemma ArmEnded(v: View, x: Context, start: Cluster, logs: seq<seq<Exchange>>, err: bool)
      requires Underway(v, x, start, logs, err) && (!err ==> |logs| == RESOURCE_STEPS)
      ensures api.calm ==> (api.cluster, err) == ArmRun(settings, x, start, RESOURCE_STEPS)
    {
      hide api.Valid, PassSettings, Extends, Installing, ArmRun, Flat;
      if api.calm && err {
        ArmRunStuck(settings, x, start, |logs|, RESOURCE_STEPS);
      }
    }

    // Passes

    /** What the pass holds in memory when the component states are in. */
    ghost predicate Looked()
      reads this, api
    {
      && Working() && LookedAround(settings, api.view) && HasCopy(settings, api.view)
      && Memory() == Gathered(settings, api.view)
      && !api.view.added && !api.view.writeFailed && managedMCG.uid != 0 && OnlyRead(api.view.log)
    }

    /** In the calm, that is what the store has. */
    ghost predicate LookedAt(c: Cluster)
      reads this
    {
      && settings.McgKey() in c.objects && managedMCG == WithStates(settings, c, c.objects[settings.McgKey()])
      && noobaa == Held(c, settings.NoobaaKey()) && prometheus == Held(c, settings.PrometheusKey())
      && alertmanager == Held(c, settings.AlertmanagerKey())
    }

    method ReconcileStamped() returns (err: bool, ghost refreshed: bool, ghost p: Phase)
      requires Looked() && managedMCG.deleting && (api.calm ==> LookedAt(api.cluster))
      modifies this`managedMCG, this`noobaa, api
      ensures Working() && Extends(old(api.view), api.view) && managedMCG.uid == old(managedMCG).uid
      ensures api.view.log == old(api.view.log) + p.All()
      ensures PhaseLogged(settings, old(Memory()), false, p, refreshed, managedMCG, err)
      ensures api.calm ==> End(api.cluster, managedMCG, err) == StampedEnd(settings, old(api.cluster), refreshed)
    {
      hide api.Valid, PassSettings, Extends, Exec, NoobaaRemoval, InOrder, OwnUpdated, Released;
      refreshed := false;
      if managedMCG.status.components.noobaa.Missing? {
        ghost var log;
        err, refreshed, log := RemoveManagedMCG();
        p := Releasing(log);
      } else {
        ghost var r;
        err, r := RemoveNoobaa();
        p := Removing(r);
      }
    }

    method Admit() returns (err: bool, ghost refreshed: bool, ghost log: seq<Exchange>)
      requires Looked() && !managedMCG.deleting
      modifies this`managedMCG, api
      ensures Working() && Extends(old(api.view), api.view) && api.view.seen == old(api.view.seen)
      ensures managedMCG.uid == old(managedMCG).uid && api.view.log == old(api.view.log) + log
      ensures !err ==> Installing(settings, api.view) && !api.view.writeFailed && QuietSoFar(settings, api.view.log)
      ensures !err && FINALIZER in old(managedMCG).finalizers ==> managedMCG == old(managedMCG)
      ensures AdmitLogged(settings, old(managedMCG), log, refreshed, managedMCG, err)
      ensures api.calm ==> End(api.cluster, managedMCG, err) == Admitted(settings, old(api.cluster), old(managedMCG), refreshed)
    {
      hide api.Valid, PassSettings, Extends, Exec, StatesSeen, Decoded, OwnUpdate, Asked, OnlyRead, QuietSoFar;
      ExtendsSelf(api.view);
      QuietReads(settings, api.view.log);
      err, refreshed, log := false, false, [];
      var present := Contains(managedMCG.finalizers, FINALIZER);
      if !present {
        err, refreshed, log := AddManagedMCG();
        QuietMore(settings, old(api.view.log), log);
      }
    }

    method ChooseStrategy()
      modifies this`reconcileStrategy
      ensures reconcileStrategy == StrategyOf(managedMCG)
    {
      if managedMCG.spec == Strategy(STRATEGY_NONE) {
        reconcileStrategy := STRATEGY_NONE;
      } else {
        reconcileStrategy := STRATEGY_STRICT;
      }
    }

    predicate AreComponentsReadyForUninstall()
      reads this
      ensures AreComponentsReadyForUninstall() <==> managedMCG.status.components == ALL_READY
    {
      var components := managedMCG.status.components;
      components.noobaa.Ready? && components.prometheus.Ready? && components.alertmanager.Ready? && components.console.Ready?
    }

    function Memory(): Context
      reads this
    {
      Context(managedMCG, noobaa, prometheus, alertmanager, addonParams)
    }

    /** The ManagedMCG is marked for deletion exactly where uninstalling has begun and all components are ready. */
    method DeleteIfDue(foundAddonDeletionKey: bool, ghost u: View) returns (err: bool, ghost log: seq<Exchange>)
      requires Working() && Installing(settings, api.view) && !api.view.writeFailed && Extends(u, api.view)
      requires foundAddonDeletionKey ==> SawDeletionLabel(settings, api.view)
      requires managedMCG.status.components == ALL_READY ==> Completed(settings, api.view)
      requires HasCopy(settings, u)
      requires FINALIZER in Copy(settings, u).finalizers ==> managedMCG.status.components == StatesSeen(settings, u)
      modifies api
      ensures Working() && Extends(u, api.view) && api.view.log == old(api.view.log) + log
      ensures DeletionLogged(settings, foundAddonDeletionKey && managedMCG.status.components == ALL_READY, log, err)
      ensures api.calm ==>
        && !err
        && api.cluster == if foundAddonDeletionKey && managedMCG.status.components == ALL_READY
                          then Exec(old(api.cluster), Delete(settings.McgKey())).0 else old(api.cluster)
    {
      hide api.Valid, PassSettings, Extends, Exec, StatesSeen, SawDeletionLabel, Completed;
      err, log := false, [];
      ghost var v := api.view;
      if foundAddonDeletionKey && AreComponentsReadyForUninstall() {
        SameCopy(settings, u, v);
        if FINALIZER in Copy(settings, u).finalizers {
          ReadyStays(settings, u, v);
        }
        ghost var e;
        err, e := DeleteObject(settings.McgKey());
        log := [e];
        ExtendsTwice(u, v, api.view);
      }
    }

    /** What a pass may rely on when it starts on its resources. */
    ghost predicate Entered()
      reads this, api
    {
      && Working() && HasCopy(settings, api.view) && Installing(settings, api.view)
      && LookedAround(settings, api.view) && !api.view.writeFailed && QuietSoFar(settings, api.view.log)
      && addonParams == map[] && managedMCG.uid == SeenObject(api.view, settings.McgKey()).uid
      && noobaa == SeenObject(api.view, settings.NoobaaKey()) && prometheus == SeenObject(api.view, settings.PrometheusKey())
      && alertmanager == SeenObject(api.view, settings.AlertmanagerKey())
      && (FINALIZER in Copy(settings, api.view).finalizers ==> managedMCG.status.components == StatesSeen(settings, api.view))
    }

    /** The pass has the parameters in memory and sets out on the arm. */
    lemma ArmBegins(u: View, v: View, x: Context, start: Cluster)
      requires Working() && Installing(settings, u) && LookedAround(settings, u) && Extends(u, v) && Holds(x)
      requires v == api.view && start == api.cluster
      ensures Underway(v, x, start, [], false)
    {
      ExtendsSelf(v);
      StillBringing(u, x);
    }

    /** All that a pass does for a live ManagedMCG with the finalizer. */
    method Provision(foundAddonDeletionKey: bool, ghost before: LiveLog) returns (err: bool, ghost r: LiveLog)
      requires Entered() && (foundAddonDeletionKey ==> SawDeletionLabel(settings, api.view))
      requires before.params == before.deletion == [] && before.steps == []
      modifies this`managedMCG, this`noobaa, this`prometheus, this`alertmanager, this`addonParams, this`reconcileStrategy, api
      ensures Working() && Extends(old(api.view), api.view) && managedMCG.uid == old(managedMCG).uid
      ensures r.admit == before.admit && r.admitted == before.admitted
      ensures api.view.log == old(api.view.log) + (r.params + Flat(r.steps) + r.deletion)
      ensures ProvisionLogged(settings, old(Memory()), foundAddonDeletionKey, r, managedMCG, err)
      ensures api.calm ==>
        End(api.cluster, managedMCG, err) == Provisioned(settings, old(api.cluster), old(Memory()), foundAddonDeletionKey)
    {
      hide api.Valid, PassSettings, Extends, ReadOn, Exec, StatesSeen, ArmRun, ArmLogged, SawDeletionLabel, StrategyOf,
        Completed, DeletionLogged, Installing, SeenObject, LookedAround, NoobaaCopy, Flat, QuietSoFar, OnlyRead,
        WithComponents, SecretData, DataOf, HasCopy, Copy, Provisioned, ProvisionLogged;
      ghost var u, y := api.view, Memory();
      ProvisionedIs(settings, api.cluster, y, foundAddonDeletionKey);
      r := before;
      ghost var resp, logs;
      ChooseStrategy();
      err, resp := UpdateAddonParams();
      r := r.(params := [Exchange(Get(settings.AddonParamsKey()), resp)]);
      ghost var v, start := api.view, api.cluster;
      ReadOnExtends(u, v);
      FlatNone();
      if err {
        NoParams(settings, y, foundAddonDeletionKey, r);
        return;
      }
      ghost var x := WithParams(y, DataOf(resp.obj));
      ArmBegins(u, v, x, start);
      SnapshotKept(settings, u, v);
      StillQuiet(settings, u, v, Exchange(Get(settings.AddonParamsKey()), resp));
      err, logs := ReconcileResources(v, x, start);
      r := r.(steps := logs);
      ArmEnded(v, x, start, logs, err);
      ExtendsTwice(u, v, api.view);
      if err {
        ArmStopped(settings, y, foundAddonDeletionKey, r, resp.obj);
        return;
      }
      ArmCompleted(settings, u, api.view, x, resp.obj, logs);
      managedMCG := managedMCG.(status := managedMCG.status.(strategy := reconcileStrategy));
      LabelKept(settings, u, api.view);
      ghost var deletion;
      err, deletion := DeleteIfDue(foundAddonDeletionKey, u);
      r := r.(deletion := deletion);
      ArmPassed(settings, y, foundAddonDeletionKey, r, resp.obj, err);
    }

    method ReconcileLive(foundAddonDeletionKey: bool) returns (err: bool, ghost refreshed: bool, ghost p: Phase)
      requires Looked() && !managedMCG.deleting && foundAddonDeletionKey == SawDeletionLabel(settings, api.view)
      requires api.calm ==> LookedAt(api.cluster) && foundAddonDeletionKey == LabelIn(settings, api.cluster)
      modifies this`managedMCG, this`noobaa, this`prometheus, this`alertmanager, this`addonParams, this`reconcileStrategy, api
      ensures Working() && Extends(old(api.view), api.view) && managedMCG.uid == old(managedMCG).uid
      ensures api.view.log == old(api.view.log) + p.All()
      ensures PhaseLogged(settings, old(Memory()), foundAddonDeletionKey, p, refreshed, managedMCG, err)
      ensures api.calm ==> End(api.cluster, managedMCG, err) == LiveEnd(settings, old(api.cluster), refreshed)
    {
      hide api.Valid, PassSettings, Extends, Exec, Installing, SawDeletionLabel, LabelIn, Admitted, Provisioned, StatesSeen,
        NoobaaCopy, ProvisionLogged, AdmitLogged, Asked, StatesIn, QuietSoFar, OnlyRead;
      ghost var u, y := api.view, Memory();
      ghost var log, r;
      err, refreshed, log := Admit();
      r := LiveLog(log, managedMCG, [], [], []);
      p := Serving(r);
      if err {
        return;
      }
      ghost var v := api.view;
      AdmissionDecides(settings, y.mcg, log, refreshed, managedMCG);
      StillEntered(u, y);
      SeenLabel(settings, u, v);
      err, r := Provision(foundAddonDeletionKey, r);
      ExtendsTwice(u, v, api.view);
      p := Serving(r);
    }

    /** After the admission the pass may set out on its resources. */
    lemma StillEntered(u: View, y: Context)
      requires Working() && Extends(u, api.view) && u.seen == api.view.seen
      requires LookedAround(settings, u) && HasCopy(settings, u) && y == Gathered(settings, u)
      requires Installing(settings, api.view) && !api.view.writeFailed && QuietSoFar(settings, api.view.log)
      requires Memory() == y.(mcg := managedMCG) && managedMCG.uid == y.mcg.uid
      requires FINALIZER in y.mcg.finalizers ==> managedMCG == y.mcg
      ensures Entered()
    {
      hide api.Valid, PassSettings, Extends, Installing;
      SameStates(settings, u, api.view);
      hide StatesSeen;
    }

    /** A pass that has read the ManagedMCG and nothing else. */
    ghost predicate Begun()
      reads this, api
    {
      && Working() && api.view.seen.Keys == {settings.McgKey()} && !api.view.added && !api.view.writeFailed
      && OnlyRead(api.view.log)
      && (if HasCopy(settings, api.view) then managedMCG == Copy(settings, api.view) && managedMCG.uid != 0
          else Gone(settings, api.view) && managedMCG == NEW_OBJECT)
      && noobaa == prometheus == alertmanager == NEW_OBJECT && addonParams == map[]
      && (api.calm ==> First(api.view, settings.McgKey()) == Look(api.cluster, settings.McgKey()))
    }

    /** The reads every pass begins with. */
    method LookAround() returns (foundAddonDeletionKey: bool)
      requires Begun()
      modifies this`managedMCG, this`noobaa, this`prometheus, this`alertmanager, api
      ensures Working() && LookedAround(settings, api.view) && OnlyRead(api.view.log)
      ensures foundAddonDeletionKey == SawDeletionLabel(settings, api.view) && Memory() == Gathered(settings, api.view)
      ensures HasCopy(settings, api.view) == old(HasCopy(settings, api.view)) == (managedMCG.uid != 0)
      ensures if HasCopy(settings, api.view) then Looked() else Gone(settings, api.view) && !managedMCG.deleting
      ensures api.calm ==> api.cluster == old(api.cluster) && foundAddonDeletionKey == LabelIn(settings, api.cluster)
      ensures api.calm ==> (HasCopy(settings, api.view) <==> settings.McgKey() in api.cluster.objects)
      ensures api.calm && HasCopy(settings, api.view) ==> LookedAt(api.cluster)
    {
      hide api.Valid, PassSettings, Extends, ReadOn, StatesSeen, StatesIn, SawDeletionLabel, LabelIn, OnlyRead, Asked;
      ghost var u := api.view;
      foundAddonDeletionKey := VerifyAddonDeletionKey();
      ghost var v := api.view;
      assert NoneSeen(v, StatusKeys(settings));
      UpdateComponentStatus();
      ReadOnTwice(u, v, api.view);
      StillOnlyReads(u, api.view);
      ReadOnExtends(v, api.view);
      ReadOnExtends(u, api.view);
      SeenKept(u, api.view, settings.McgKey());
      SeenLabel(settings, v, api.view);
      SeenKept(v, api.view, settings.AddonConfigMapKey());
    }

    /** The three phases: a stamped ManagedMCG, a live one, and none. */
    method ReconcilePhases() returns (err: bool, ghost refreshed: bool, ghost looked: View, ghost p: Phase)
      requires Begun()
      modifies this`managedMCG, this`noobaa, this`prometheus, this`alertmanager, this`addonParams, this`reconcileStrategy, api
      ensures Working() && (HasCopy(settings, api.view) <==> managedMCG.uid != 0)
      ensures PhasesLogged(settings, api.view, looked, p, refreshed, managedMCG, err)
      ensures api.calm ==> PhasesEnd(settings, old(api.cluster), refreshed, End(api.cluster, managedMCG, err))
      ensures api.calm ==> (p.Leaving? && |p.sent| == 2 <==> CSVDue(settings, old(api.cluster)))
    {
      hide api.Valid, PassSettings, Extends, Begun, Exec, StatesSeen, SawDeletionLabel, LabelIn, StampedEnd, LiveEnd,
        OLMRemoved, NoobaaCopy, Held, LookedAround, Gathered, LiveLogged, LeaveLogged, OwnUpdated, InOrder, OnlyRead;
      err, refreshed := false, false;
      StartsBare();
      var foundAddonDeletionKey := LookAround();
      looked := api.view;
      p := Resting;
      ExtendsSelf(looked);
      if managedMCG.deleting {
        err, refreshed, p := ReconcileStamped();
        SameCopy(settings, looked, api.view);
      } else if managedMCG.uid != 0 {
        err, refreshed, p := ReconcileLive(foundAddonDeletionKey);
        SameCopy(settings, looked, api.view);
      } else if foundAddonDeletionKey {
        ghost var log;
        err, log := RemoveOLMComponents();
        p := Leaving(log);
        GoneKept(settings, looked, api.view);
      }
    }

    lemma StartsBare()
      requires Begun()
      ensures addonParams == map[]
    {
    }

    /** The pass starts with nothing in memory but what the first get brings. */
    method InitializeReconciler(name: string) returns (err: bool)
      requires api.Valid()
      modifies this, api
      ensures settings == api.settings.(request := name)
      ensures Working() && (if err then NeverBegun(settings, api.view) else Begun())
      ensures api.calm ==> api.cluster == old(api.cluster) && !err
    {
      hide api.Valid, Extends, ReadOn, Exec, Repeats;
      api.Start(Reconciling(name));
      settings := api.settings.(request := name);
      managedMCG, noobaa, prometheus, alertmanager := NEW_OBJECT, NEW_OBJECT, NEW_OBJECT, NEW_OBJECT;
      addonParams := map[];
      var resp := GetObject(settings.McgKey());
      err := false;
      if resp.Found? {
        managedMCG := resp.obj;
      } else if !resp.NotFound? {
        err := true;
      }
    }

    lemma CSVAskedHere(p: PassLog, refreshed: bool, err: bool)
      requires Working() && PassLogged(settings, api.view, p, refreshed, err)
      ensures AsksForCSV(api.view.log) <==> p.phase.Leaving? && |p.phase.sent| == 2
    {
      hide PassLogged, AsksForCSV, PassSettings;
      CSVAskedIff(api.settings, api.run, p, refreshed, err);
    }

    /**
     One pass, for the ManagedMCG of the name that is asked for: an error while reconciling or in the report of the
     status, and no other, is returned.
     */
    method Reconcile(name: string) returns (err: bool, ghost refreshed: bool, ghost p: PassLog)
      requires api.Valid()
      modifies this, api
      ensures api.Valid() && api.view.mode == Reconciling(name) && settings == api.settings.(request := name)
      ensures EndedAs(settings, api.view, p, refreshed, err)
      ensures api.calm ==> (api.cluster, err) == PassRun(settings, old(api.cluster), refreshed)
      ensures api.calm ==> (AsksForCSV(api.view.log) <==> CSVDue(settings, old(api.cluster)))
    {
      hide api.Valid, Exec, Begun, PhasesLogged, PassLogged, EndedAs, HasCopy, PhasesEnd, PassRun, PassSettings, ReportLogged,
        AsksForCSV, CSVDue;
      refreshed := false;
      p := PassLog(Fresh(Idle), Resting, NEW_OBJECT, false, []);
      err := InitializeReconciler(name);
      if err {
        ModeNamed(api.settings, api.view.mode, name);
        NeverBegunEnds(settings, api.view, p, refreshed);
        return;
      }
      ghost var looked, phase;
      err, refreshed, looked, phase := ReconcilePhases();
      ghost var w, e := api.view, End(api.cluster, managedMCG, err);
      ghost var report: seq<Exchange> := [];
      var statusErr := false;
      if managedMCG.uid != 0 {
        ghost var sent;
        statusErr, sent := ReportStatus();
        report := [sent];
      }
      err := err || statusErr;
      p := PassLog(looked, phase, e.mcg, e.err, report);
      PassDone(settings, w, api.view, p, refreshed, statusErr);
      ModeNamed(api.settings, api.view.mode, name);
      if api.calm {
        PhasesThenReport(settings, old(api.cluster), refreshed, e, api.cluster, statusErr);
      }
      CSVAskedHere(p, refreshed, err);
    }
  }
}
