/** What steps and whole passes leave in the store, and what their logs show where requests fail. */
module Outcomes {
  import opened Utils
  import opened Cluster
  import opened Config
  import opened States
  import opened Desired
  import opened StrictArm
  import opened Logs
  import opened Uninstall
  import opened Convergence
  import opened Fixpoint
  import opened StepLaws
  import opened Contents

  // One step

  lemma FromStore(s: Settings, x: Context, c: Cluster, t: Task, o: Object)
    requires Wanted(s, x, InputsOf(s, c), t, o).Ok?
    ensures From(s, InputsOf(s, c), SourcesIn(s, c), t)
  {
    hide ProxyImage, ClusterID, DefaultStore, RemoteWriteWanted, ListOf, Owned;
  }

  lemma PartsByContent(uid: nat, noted: map<string, string>, stores: seq<Item>, o: Object, p: Object, q: Object)
    requires SameContent(p, q)
    ensures OwnedBy(uid, o, p) ==> OwnedBy(uid, o, q)
    ensures SameNotes(o, p) ==> SameNotes(o, q)
    ensures Selected(o, p) ==> Selected(o, q)
    ensures ServiceIs(o, p) ==> ServiceIs(o, q)
    ensures NoobaaHolds(noted, stores, o, p) ==> NoobaaHolds(noted, stores, o, q)
  {
    hide ChosenFrom;
  }

  /** Two objects with the same content hold the same. */
  lemma HoldsByContent(s: Settings, x: Context, z: Sources, t: Task, o: Object, p: Object, q: Object)
    requires Holds(s, x.mcg.uid, x.params, x.noobaa.annotations, z, t, o, p) && SameContent(p, q)
    ensures Holds(s, x.mcg.uid, x.params, x.noobaa.annotations, z, t, o, q)
  {
    hide OwnedBy, SameNotes, Selected, ServiceIs, NoobaaHolds, ReceiversAre, SnitchIs, GroupsAre, ClusterIDIs, ProxyImageIs,
      RemoteWriteIs;
    PartsByContent(x.mcg.uid, x.noobaa.annotations, z.stores, o, p, q);
    if t.ConsoleServiceTask? {
      PartsByContent(z.deployment.obj.uid, x.noobaa.annotations, z.stores, o, p, q);
    }
  }

  /** What create-or-update starts from where it finds nothing. */
  predicate Fresh(x: Context, t: Task, o: Object) {
    match t
    case NoobaaTask => o == x.noobaa
    case PrometheusTask => o == x.prometheus
    case AlertmanagerTask => o == x.alertmanager
    case ConsoleServiceTask =>
      && o.labels == map["app" := "mcg-ms-console"] && o.owner == None && o.spec == Fixed("console-service")
      && o.annotations == map["service.alpha.openshift.io/serving-cert-secret-name" := "mcg-ms-console-serving-cert"]
    case ConsolePluginTask => SameNotes(NEW_OBJECT, o) && o.owner == None && o.spec == Fixed("console-plugin")
    case _ => SameNotes(NEW_OBJECT, o) && o.owner == None && o.spec.Blank?
  }

  /** A task that succeeds leaves its object in its place, made of the one that was there, if one was. */
  lemma StepHolds(s: Settings, x: Context, c: Cluster, t: Task) returns (o: Object)
    requires WellFormed(c) && Brought(s, x, c, t).Some? && (t.NoobaaTask? ==> AllNamed(SourcesIn(s, c).stores))
    ensures var k, d := Place(s, t), Brought(s, x, c, t).value;
      && (if k in c.objects then o == c.objects[k] else Fresh(x, t, o))
      && k in d.objects && Holds(s, x.mcg.uid, x.params, x.noobaa.annotations, SourcesIn(s, c), t, o, d.objects[k])
      && forall j :: j != k ==> SameAt(c, d, j)
  {
    hide Wanted, Written, WellFormed, InputsOf, SourcesIn, Holds, From, AllNamed, KeyOf, Place, SameContent, KeepsIdentity;
    var k, i := KeyOf(s, t), InputsOf(s, c);
    PlaceIs(s, t);
    o := Present(x, c, t, k);
    var p := Wanted(s, x, i, t, o).value;
    FromStore(s, x, c, t, o);
    WantedHolds(s, x, i, SourcesIn(s, c), t, o);
    WantedKeepsIdentity(s, x, i, t, o);
    WrittenShape(s, t, c, p);
    HoldsByContent(s, x, SourcesIn(s, c), t, o, p, Brought(s, x, c, t).value.objects[k]);
  }

  lemma StoreYields(s: Settings, c: Cluster, t: Task)
    ensures Yields(s, InputsOf(s, c), SourcesIn(s, c), t)
  {
    hide ProxyImage, ClusterID, DefaultStore, ListOf;
  }

  lemma WrittenIff(s: Settings, t: Task, c: Cluster, o: Object)
    requires Place(s, t) in c.objects ==> o.rv == c.objects[Place(s, t)].rv
    ensures Written(c, Place(s, t), o).Some? <==>
      Place(s, t) in c.objects || (o.rv == 0 && (t.ConsolePluginTask? || t.ConsoleClusterTask? || s.namespace != ""))
  {
  }

  /** A task succeeds if and only if everything is there that it needs, and what it finds missing can be created. */
  lemma StepSucceedsIff(s: Settings, x: Context, c: Cluster, t: Task) returns (o: Object)
    ensures var k := Place(s, t);
      && (if k in c.objects then o == c.objects[k] else Fresh(x, t, o))
      && (Brought(s, x, c, t).Some? <==>
            && Feasible(s, x.mcg.uid, SourcesIn(s, c), t, o)
            && (k in c.objects || (o.rv == 0 && (t.ConsolePluginTask? || t.ConsoleClusterTask? || s.namespace != ""))))
  {
    hide Wanted, Written, InputsOf, SourcesIn, Feasible, Yields, KeyOf, Place;
    var i := InputsOf(s, c);
    PlaceIs(s, t);
    BaseIsFresh(x, t);
    o := Present(x, c, t, Place(s, t));
    StoreYields(s, c, t);
    WantedSucceedsIff(s, x, i, SourcesIn(s, c), t, o);
    if Wanted(s, x, i, t, o).Ok? {
      WantedKeepsIdentity(s, x, i, t, o);
      WrittenIff(s, t, c, Wanted(s, x, i, t, o).value);
    }
  }

  /** The default store that the pass noted when it first looked at NooBaa. */
  function Noted(x: Context): string {
    Chosen(x.noobaa)
  }

  /**
   After a NooBaa step that succeeds, NooBaa has a default store if and only if it had one before, or none was noted and
   there is a backing store. So a store that was noted, but that others have removed since, is not put back.
   */
  lemma StepSetsDefaultStoreIff(s: Settings, x: Context, c: Cluster)
    requires WellFormed(c) && Brought(s, x, c, NoobaaTask).Some? && AllNamed(ListOf(c, BackingStore, Some(s.namespace)))
    ensures var k, d := Key(NooBaa, s.namespace, "noobaa"), Brought(s, x, c, NoobaaTask).value;
      && k in d.objects
      && (Chosen(d.objects[k]) != "" <==>
            || Chosen(if k in c.objects then c.objects[k] else x.noobaa) != ""
            || (Noted(x) == "" && ListOf(c, BackingStore, Some(s.namespace)) != []))
  {
    hide WellFormed, Brought, ListOf;
    var o := StepHolds(s, x, c, NoobaaTask);
  }

  /** The example: noted, then removed by others; the step leaves NooBaa without a default store, whatever stores there are. */
  lemma RemovedStoreIsNotPutBack(s: Settings, x: Context, c: Cluster)
    requires WellFormed(c) && Brought(s, x, c, NoobaaTask).Some? && AllNamed(ListOf(c, BackingStore, Some(s.namespace)))
    requires s.NoobaaKey() in c.objects && c.objects[s.NoobaaKey()].annotations == map[]
    requires x.noobaa.annotations == map["default-backing-store" := "chosen"]
    ensures var d := Brought(s, x, c, NoobaaTask).value;
      s.NoobaaKey() in d.objects && Chosen(d.objects[s.NoobaaKey()]) == ""
  {
    hide WellFormed, Brought, ListOf;
    StepSetsDefaultStoreIff(s, x, c);
  }

  /** What a foreign owner has, the operator does not take over: the task fails. */
  lemma ForeignOwnerFails(s: Settings, x: Context, c: Cluster, t: Task)
    requires !t.NoobaaTask? && !t.ConsolePluginTask? && !t.ConsoleClusterTask?
    requires Place(s, t) in c.objects && c.objects[Place(s, t)].owner.Some?
    requires c.objects[Place(s, t)].owner !=
             if !t.ConsoleServiceTask? then Some(x.mcg.uid)
             else if s.ConsoleDeploymentKey() in c.objects then Some(c.objects[s.ConsoleDeploymentKey()].uid) else None
    ensures Brought(s, x, c, t).None?
  {
    hide RemoteWriteWanted, FilledAll, SnitchGroups, NoobaaGroups, Written, ProxyImage, ClusterID, DefaultStore, ListOf;
    PlaceIs(s, t);
  }

  // A whole pass

  function NumberOf(t: Task): nat {
    match t
    case NoobaaTask => 0
    case ConsoleServiceTask => 1
    case ConsolePluginTask => 2
    case ConsoleClusterTask => 3
    case RBACTask => 5
    case PrometheusServiceTask => 6
    case ProxyPolicyTask => 7
    case RelabelTask => 8
    case PrometheusTask => 9
    case AlertmanagerTask => 10
    case AlertmanagerConfigTask => 11
    case DmsTask => 13
    case NoobaaRulesTask => 14
    case IngressTask => 15
  }

  lemma TaskSettles(s: Settings, x: Context, d: Cluster, t: Task, labelled: bool)
    requires SettledUpTo(s, x, d, ARM_LENGTH, labelled) && !t.ConsoleClusterTask?
    ensures Settled(s, x, d, Bring(t))
  {
    assert NumberOf(t) < ARM_LENGTH && ArmStep(NumberOf(t)) == Bring(t);
    assert Settled(s, x, d, ArmStep(NumberOf(t)));
  }

  lemma SettledHolds(s: Settings, x: Context, d: Cluster, t: Task)
    requires Settled(s, x, d, Bring(t)) && (t.NoobaaTask? ==> AllNamed(SourcesIn(s, d).stores))
    ensures var k := Place(s, t);
      k in d.objects && Holds(s, x.mcg.uid, x.params, x.noobaa.annotations, SourcesIn(s, d), t, d.objects[k], d.objects[k])
  {
    hide Wanted, InputsOf, SourcesIn, Holds, From, AllNamed, KeyOf, Place;
    PlaceIs(s, t);
    var o := d.objects[KeyOf(s, t)];
    FromStore(s, x, d, t, o);
    WantedHolds(s, x, InputsOf(s, d), SourcesIn(s, d), t, o);
  }

  lemma OthersAgree(s: Settings, c: Cluster, a: Cluster)
    requires OtherMcg(s, c, a)
    ensures SecretData(c, s.AddonParamsKey()) == SecretData(a, s.AddonParamsKey())
    ensures ListOf(c, BackingStore, Some(s.namespace)) == ListOf(a, BackingStore, Some(s.namespace))
    ensures SameAt(c, a, s.NoobaaKey())
  {
    assert SameAt(c, a, s.AddonParamsKey()) && SameAt(c, a, s.NoobaaKey());
    forall k: Key | k.kind == BackingStore ensures (k in c.objects <==> k in a.objects) && (k in c.objects ==> c.objects[k] == a.objects[k]) {
      assert SameAt(c, a, k);
    }
    SelectAgrees(c.objects, a.objects, c.order, BackingStore, Some(s.namespace));
  }

  /**
   A successful pass leaves every object of the operator in its place, with the content its task is for: owned by the
   ManagedMCG, made from the parameters, and from the lists and secrets as they are after the pass.
   */
  lemma PassHolds(s: Settings, c: Cluster, refreshed: bool, t: Task)
    requires SecretsApart(s) && Living(s, c) && GoodPass(s, c, refreshed).Some?
    requires !t.NoobaaTask? && !t.ConsoleClusterTask?
    ensures var k, d, params := Place(s, t), GoodPass(s, c, refreshed).value, Look(c, Key(Secret, s.namespace, s.addonParamSecret));
      && k in d.objects && params.Found?
      && Holds(s, c.objects[Key(ManagedMCG, s.namespace, s.request)].uid, Entries(params), map[], SourcesIn(s, d), t,
               d.objects[k], d.objects[k])
  {
    hide GoodPass, ArmAfter, OtherMcg, SecretsApart, SourcesIn, Holds, Serving, SettledUpTo, Settled, Place;
    var a, x := PassEndsInArm(s, c, refreshed);
    var d := GoodPass(s, c, refreshed).value;
    OthersAgree(s, c, a);
    WellFormedServing(s, a);
    hide WellFormed;
    ArmSettles(s, x, a);
    TaskSettles(s, x, d, t, RulesExist(s, a));
    SettledHolds(s, x, d, t);
    NothingNoted(s, x.mcg.uid, x.params, x.noobaa.annotations, SourcesIn(s, d), t, d.objects[Place(s, t)]);
  }

  lemma WellFormedServing(s: Settings, c: Cluster)
    requires Serving(s, c)
    ensures WellFormed(c)
  {
  }

  lemma NothingNoted(s: Settings, uid: nat, params: map<string, string>, noted: map<string, string>, z: Sources, t: Task,
                     o: Object)
    requires Holds(s, uid, params, noted, z, t, o, o) && !t.NoobaaTask?
    ensures Holds(s, uid, params, map[], z, t, o, o)
  {
    hide ReceiversAre, SnitchIs, GroupsAre, ClusterIDIs, ProxyImageIs, RemoteWriteIs;
  }

  /**
   The Prometheus that a successful pass leaves writes to the RHOBS endpoint exactly if the secret for it is there, with
   tokens from the token endpoint, the client's id and secret from that secret, and the audience that it names.
   */
  lemma PassSetsRemoteWrite(s: Settings, c: Cluster, refreshed: bool)
    requires SecretsApart(s) && Living(s, c) && GoodPass(s, c, refreshed).Some?
    ensures var d := GoodPass(s, c, refreshed).value;
      var k, secret := Key(Prometheus, s.namespace, "managed-mcg-prometheus"), Key(Secret, s.namespace, s.rhobsSecret);
      && k in d.objects && d.objects[k].spec.Metrics?
      && match d.objects[k].spec.remoteWrite
         case None => secret !in d.objects
         case Some(w) =>
           && secret in d.objects && d.objects[secret].spec.Data? && "rhobs-audience" in d.objects[secret].spec.data
           && w.url == s.rhobsEndpoint && w.tokenURL == s.tokenEndpoint && w.secretName == s.rhobsSecret
           && w.audience == d.objects[secret].spec.data["rhobs-audience"]
  {
    hide GoodPass, SecretsApart, Living, ProxyImageIs, OwnedBy, Selected;
    PassHolds(s, c, refreshed, PrometheusTask);
  }

  /** The rest of the arm leaves NooBaa as its first step left it. */
  lemma FirstOfArm(s: Settings, x: Context, c: Cluster)
    requires WellFormed(c) && ArmAfter(s, x, c).Some?
    ensures Brought(s, x, c, NoobaaTask).Some?
    ensures SameAt(Brought(s, x, c, NoobaaTask).value, ArmAfter(s, x, c).value, s.NoobaaKey())
  {
    hide StepFrame, WellFormed, Kept, SameAt, Brought, Framed;
    StepsFramed(s, x);
    var first, last := ArmEnds(s, Steps(s, x), c);
  }

  /**
   The default store after a successful pass: what NooBaa had is kept; where it had none and there is a backing store,
   it is the constant if a store has that prefix, else the first listed one; without stores none is set.
   */
  lemma PassSetsDefaultStore(s: Settings, c: Cluster, refreshed: bool)
    requires Living(s, c) && GoodPass(s, c, refreshed).Some? && AllNamed(ListOf(c, BackingStore, Some(s.namespace)))
    ensures var k, d, stores := Key(NooBaa, s.namespace, "noobaa"), GoodPass(s, c, refreshed).value, ListOf(c, BackingStore, Some(s.namespace));
      var before := if k in c.objects then c.objects[k] else NEW_OBJECT;
      && k in d.objects && NoobaaHolds(before.annotations, stores, before, d.objects[k])
      && (stores != [] ==> Chosen(d.objects[k]) != "")
      && (stores == [] ==> d.objects[k].annotations == before.annotations)
  {
    hide GoodPass, ArmAfter, OtherMcg, Serving, ListOf, NoobaaHolds, StepFrame, Brought;
    var a, x := PassEndsInArm(s, c, refreshed);
    OthersAgree(s, c, a);
    WellFormedServing(s, a);
    hide WellFormed;
    FirstOfArm(s, x, a);
    var o := StepHolds(s, x, a, NoobaaTask);
    DefaultChosen(x.noobaa.annotations, ListOf(c, BackingStore, Some(s.namespace)), o, GoodPass(s, c, refreshed).value.objects[s.NoobaaKey()]);
  }

  lemma DefaultChosen(noted: map<string, string>, stores: seq<Item>, o: Object, p: Object)
    requires NoobaaHolds(noted, stores, o, p) && AllNamed(stores) && noted == o.annotations
    ensures stores != [] ==> Chosen(p) != ""
    ensures stores == [] ==> p.annotations == o.annotations
  {
  }

  // The reported status

  /** The component states as the store has them. */
  predicate StatesAre(s: Settings, c: Cluster, states: Components) {
    var ns := s.namespace;
    && PhaseShown(Look(c, Key(NooBaa, ns, "noobaa")), states.noobaa)
    && ReplicasShown(Look(c, Key(Prometheus, ns, "managed-mcg-prometheus")),
                     Look(c, Key(StatefulSet, ns, "prometheus-managed-mcg-prometheus")), states.prometheus)
    && ReplicasShown(Look(c, Key(Alertmanager, ns, "managed-mcg-alertmanager")),
                     Look(c, Key(StatefulSet, ns, "alertmanager-managed-mcg-alertmanager")), states.alertmanager)
    && ConsoleShown(Look(c, Key(ConsolePlugin, "", "mcg-ms-console")), Look(c, Key(Deployment, ns, "mcg-ms-console")),
                    states.console)
  }

  lemma StatesInAre(s: Settings, c: Cluster)
    ensures StatesAre(s, c, StatesIn(s, c))
  {
    hide PhaseShown, ReplicasShown, ConsoleShown, PhaseState, ReplicaState, ConsoleState, Look;
    StatesShown(Look(c, s.NoobaaKey()), Failure);
    StatesShown(Look(c, s.PrometheusKey()), Look(c, s.PrometheusSetKey()));
    StatesShown(Look(c, s.AlertmanagerKey()), Look(c, s.AlertmanagerSetKey()));
    StatesShown(Look(c, s.ConsolePluginKey()), Look(c, s.ConsoleDeploymentKey()));
  }

  /**
   A successful pass over a guarded ManagedMCG leaves it with the component states that the pass found and its own
   strategy, anything but "none" being strict, and all else as it was.
   */
  lemma PassReports(s: Settings, c: Cluster, refreshed: bool)
    requires Serving(s, c) && GoodPass(s, c, refreshed).Some?
    ensures var k, d := Key(ManagedMCG, s.namespace, s.request), GoodPass(s, c, refreshed).value;
      && k in d.objects && d.objects[k].(rv := 0, status := NO_STATUS) == c.objects[k].(rv := 0, status := NO_STATUS)
      && StatesAre(s, c, d.objects[k].status.components)
      && d.objects[k].status.strategy == if c.objects[k].spec == Strategy("none") then "none" else "strict"
  {
    hide GoodPass, ArmAfter, StatesIn, StatesAre, UninstallDue;
    PassIsArm(s, c, refreshed);
    StatesInAre(s, c);
    hide SecretData;
    var x := ContextAt(s, c, SecretData(c, s.AddonParamsKey()).value);
    ArmKeepsMuch(s, x, c);
  }

  // The steps that are no create-or-update

  /**
   After a successful pass a Console lists the plugin, and, where NooBaa was found ready, the first OCS CSV has its
   three deployments at zero.
   */
  lemma PassSettlesTheRest(s: Settings, c: Cluster, refreshed: bool)
    requires SecretsApart(s) && Serving(s, c) && GoodPass(s, c, refreshed).Some?
    ensures var d := GoodPass(s, c, refreshed).value;
      && (exists i :: 0 <= i < |ListOf(d, Console, None)| && "mcg-ms-console" in PluginsOf(ListOf(d, Console, None)[i].obj))
      && (Look(c, Key(NooBaa, s.namespace, "noobaa")).Found? && c.objects[Key(NooBaa, s.namespace, "noobaa")].status.phase == "Ready" ==>
            exists item :: FirstNamedFrom(ListOf(d, CSV, Some(s.namespace)), "ocs-operator", item) && !SomeToStop(DeploymentsOf(item.obj)))
  {
    hide GoodPass, ArmAfter, StatesIn, UninstallDue, SecretsApart, SettledUpTo, Settled, ListOf;
    PassIsArm(s, c, refreshed);
    var d := GoodPass(s, c, refreshed).value;
    hide SecretData;
    var x := ContextAt(s, c, SecretData(c, s.AddonParamsKey()).value);
    ArmSettles(s, x, c);
    hide WellFormed, ContextAt;
    RestSettled(s, x, d, RulesExist(s, c));
    NoobaaFound(s, c);
    Reports(s, c, SecretData(c, s.AddonParamsKey()).value);
  }

  lemma Reports(s: Settings, c: Cluster, params: map<string, string>)
    requires s.McgKey() in c.objects
    ensures ContextAt(s, c, params).mcg.status.components == StatesIn(s, c)
  {
  }

  lemma NoobaaFound(s: Settings, c: Cluster)
    ensures s.NoobaaKey() in c.objects && c.objects[s.NoobaaKey()].status.phase == "Ready" ==> StatesIn(s, c).noobaa.Ready?
  {
  }

  lemma RestSettled(s: Settings, x: Context, d: Cluster, labelled: bool)
    requires SettledUpTo(s, x, d, ARM_LENGTH, labelled)
    ensures exists i :: 0 <= i < |ListOf(d, Console, None)| && "mcg-ms-console" in PluginsOf(ListOf(d, Console, None)[i].obj)
    ensures x.mcg.status.components.noobaa.Ready? ==>
      exists item :: FirstNamedFrom(ListOf(d, CSV, Some(s.namespace)), "ocs-operator", item) && !SomeToStop(DeploymentsOf(item.obj))
  {
    hide FirstWithPrefix, FirstNamedFrom, Downscaled, SomeToStop, ListOf;
    assert Settled(s, x, d, ArmStep(3)) && Settled(s, x, d, ArmStep(4));
    if x.mcg.status.components.noobaa.Ready? {
      FirstWithPrefixIs(ListOf(d, CSV, Some(s.namespace)), "ocs-operator");
      var item := FirstWithPrefix(ListOf(d, CSV, Some(s.namespace)), OCS_CSV_PREFIX).value;
      DownscaledDiffers(DeploymentsOf(item.obj));
    }
  }

  // The logs of steps

  /** The step that brings the object of a task up to date. */
  function StepFor(t: Task): Step {
    if t.ConsoleClusterTask? then ConsoleStep else Bring(t)
  }

  /** How much a step asks for before it gets its object: NooBaa and the console service and Console want something first. */
  function Ahead(t: Task): nat {
    if t.NoobaaTask? || t.ConsoleServiceTask? || t.ConsoleClusterTask? then 1 else 0
  }

  predicate AsksAt(log: seq<Exchange>, n: nat, req: Request) {
    n < |log| && log[n].req == req
  }

  /** The sources are what the log shows at these places. */
  predicate HeardIn(s: Settings, t: Task, log: seq<Exchange>, z: Sources) {
    match t
    case NoobaaTask => AsksAt(log, 0, List(BackingStore, Some(s.namespace))) && z.stores == ItemsIn(log[0].resp)
    case ConsoleServiceTask =>
      AsksAt(log, 0, Get(Key(Deployment, s.namespace, "mcg-ms-console"))) && z.deployment == log[0].resp
    case ConsoleClusterTask =>
      && AsksAt(log, 0, List(Console, None)) && log[0].resp.Items?
      && forall i :: 0 <= i < |log[0].resp.items| ==> "mcg-ms-console" !in PluginsOf(log[0].resp.items[i].obj)
    case PrometheusTask =>
      && AsksAt(log, 1, List(CSV, Some(s.namespace))) && z.csvs == ItemsIn(log[1].resp)
      && AsksAt(log, 2, Get(Key(Secret, s.namespace, s.rhobsSecret))) && z.rhobs == log[2].resp
      && (z.rhobs.Found? || z.rhobs.NotFound?)
    case AlertmanagerConfigTask =>
      && AsksAt(log, 1, Get(Key(Secret, s.namespace, s.pagerdutySecret))) && z.pager == log[1].resp
      && AsksAt(log, 2, Get(Key(Secret, s.namespace, s.deadMansSnitchSecret))) && z.snitch == log[2].resp
      && AsksAt(log, 3, Get(Key(Secret, s.namespace, s.smtpSecret))) && z.smtp == log[3].resp
    case NoobaaRulesTask => AsksAt(log, 1, List(ClusterVersion, None)) && log[1].resp.Items? && z.versions == log[1].resp.items
    case _ => true
  }

  /** What the log shows. */
  function Heard(t: Task, log: seq<Exchange>): Sources {
    match t
    case NoobaaTask => NO_SOURCES.(stores := ItemsIn(ReplyAt(log, 0)))
    case ConsoleServiceTask => NO_SOURCES.(deployment := ReplyAt(log, 0))
    case PrometheusTask => NO_SOURCES.(csvs := ItemsIn(ReplyAt(log, 1)), rhobs := ReplyAt(log, 2))
    case AlertmanagerConfigTask => NO_SOURCES.(pager := ReplyAt(log, 1), snitch := ReplyAt(log, 2), smtp := ReplyAt(log, 3))
    case NoobaaRulesTask => NO_SOURCES.(versions := ItemsIn(ReplyAt(log, 1)))
    case _ => NO_SOURCES
  }

  /** After the get at place `n` of the log, `o` is what the mutate function works on: the object found, or a fresh one. */
  predicate StartsFrom(x: Context, t: Task, log: seq<Exchange>, n: nat, o: Object) {
    && n < |log|
    && if log[n].resp.Found? then o == log[n].resp.obj else log[n].resp.NotFound? && Fresh(x, t, o)
  }

  /** The create-or-update in the log, from its get on, ends with the write `p`, or needs none. */
  ghost predicate EndsWith(s: Settings, t: Task, log: seq<Exchange>, n: nat, o: Object, p: Object) {
    && AsksAt(log, n, Get(Place(s, t)))
    && if Wrote(log) then
         Last(log).req == if log[n].resp.Found? then Update(Place(s, t), p) else Create(Place(s, t), p)
       else log[n].resp.Found? && p == o
  }

  lemma AllAsked(s: Settings, x: Context, t: Task, g: Given, asked: seq<Exchange>, o: Object)
    requires Asks(s, x, t, g, asked, o) && Mutated(s, x, t, g, asked, o).Ok?
    ensures |asked| == |MutateReads(s, t)| && forall i :: 0 <= i < |asked| ==> asked[i].req == MutateReads(s, t)[i]
  {
    hide Mutated, MutateReads;
    assert asked <= asked;
  }

  lemma ReadsHeard(s: Settings, x: Context, t: Task, g: Given, log: seq<Exchange>, o: Object)
    requires Ahead(t) == 0 && 1 <= |log|
    requires Asks(s, x, t, g, ReadsOf(log[1..]), o) && Mutated(s, x, t, g, ReadsOf(log[1..]), o).Ok?
    ensures HeardIn(s, t, log, Heard(t, log)) && From(s, InputsHeard(t, g, ReadsOf(log[1..])), Heard(t, log), t)
  {
    hide Asks, Wanted, ProxyImage, ClusterID, DefaultStore;
    AllAsked(s, x, t, g, ReadsOf(log[1..]), o);
  }

  lemma BaseIsFresh(x: Context, t: Task)
    ensures Fresh(x, t, Base(x, t))
  {
  }

  /** The mutate function succeeded, and its outcome was written or was there. */
  lemma MutatedThere(s: Settings, x: Context, t: Task, g: Given, log: seq<Exchange>, out: Outcome) returns (o: Object, p: Object)
    requires BroughtUp(s, x, t, g, log, out) && (Wrote(log) || out.Nil?)
    ensures 1 <= |log| && StartsFrom(x, t, log, 0, o) && EndsWith(s, t, log, 0, o, p)
    ensures Asks(s, x, t, g, ReadsOf(log[1..]), o) && Mutated(s, x, t, g, ReadsOf(log[1..]), o) == Ok(p)
  {
    hide Asks, Mutated, KeyOf, Place, Fresh, Base;
    PlaceIs(s, t);
    BaseIsFresh(x, t);
    o := if log[0].resp.Found? then log[0].resp.obj else Base(x, t);
    assert Wrote(log) <==> Wrote(log[1..]);
    p := Mutated(s, x, t, g, ReadsOf(log[1..]), o).value;
  }

  /** What create-or-update leaves in its log, from its get on. */
  lemma BroughtUpHolds(s: Settings, x: Context, t: Task, g: Given, log: seq<Exchange>, out: Outcome, z: Sources)
    returns (o: Object, p: Object)
    requires BroughtUp(s, x, t, g, log, out) && (Wrote(log) || out.Nil?) && (t.NoobaaTask? ==> AllNamed(z.stores))
    requires Ahead(t) == 0 ==> z == Heard(t, log)
    requires Ahead(t) == 1 ==> From(s, InputsHeard(t, g, ReadsOf(log[1..])), z, t)
    ensures StartsFrom(x, t, log, 0, o) && EndsWith(s, t, log, 0, o, p)
    ensures Ahead(t) == 0 ==> HeardIn(s, t, log, z)
    ensures Holds(s, x.mcg.uid, x.params, x.noobaa.annotations, z, t, o, p)
  {
    hide BroughtUp, Asks, Unanswered, Wanted, Holds, From, InputsHeard, Heard, HeardIn, AllNamed, StartsFrom, EndsWith, Wrote,
      ReadsOf;
    o, p := MutatedThere(s, x, t, g, log, out);
    if Ahead(t) == 0 {
      ReadsHeard(s, x, t, g, log, o);
    }
    WantedHolds(s, x, InputsHeard(t, g, ReadsOf(log[1..])), z, t, o);
  }

  /** The outcome of the create-or-update in a log that ends with a write or needs none. */
  lemma OutcomeThere(s: Settings, x: Context, t: Task, g: Given, log: seq<Exchange>, err: bool) returns (out: Outcome)
    requires BringsOrFails(s, x, t, g, log, err) || BringsLeniently(s, x, t, g, log, err)
    requires Wrote(log) || !err
    ensures BroughtUp(s, x, t, g, log, out) && (Wrote(log) || out.Nil?)
  {
    hide Asks, Mutated, KeyOf, Base, WriteOwed;
    out := if BroughtUp(s, x, t, g, log, Nil) then Nil else if BroughtUp(s, x, t, g, log, Exists) then Exists else Failed;
  }

  /** The create-or-update of a step is its whole log, or all but the first exchange. */
  lemma PartOfStep(s: Settings, x: Context, t: Task, log: seq<Exchange>, err: bool) returns (g: Given)
    requires StepLogged(s, x, StepFor(t), log, err) && Ahead(t) < |log|
    ensures var l := log[Ahead(t)..];
      && (BringsOrFails(s, x, t, g, l, err) || BringsLeniently(s, x, t, g, l, err)) && (Wrote(log) <==> Wrote(l))
    ensures Ahead(t) == 1 ==>
      HeardIn(s, t, log, Heard(t, log)) && forall asked :: From(s, InputsHeard(t, g, asked), Heard(t, log), t)
  {
    hide BringsOrFails, BringsLeniently, DefaultStore;
    g := NOTHING_GIVEN;
    assert log[0..] == log;
    match t {
      case NoobaaTask => g := GivenNoobaa(x, log[0].resp);
      case ConsoleServiceTask => g := Given(map[], "", log[0].resp.obj.uid);
      case _ =>
    }
  }

  lemma EndsLater(s: Settings, x: Context, t: Task, log: seq<Exchange>, o: Object, p: Object)
    requires Ahead(t) < |log| && (Wrote(log) <==> Wrote(log[Ahead(t)..]))
    requires StartsFrom(x, t, log[Ahead(t)..], 0, o) && EndsWith(s, t, log[Ahead(t)..], 0, o, p)
    ensures StartsFrom(x, t, log, Ahead(t), o) && EndsWith(s, t, log, Ahead(t), o, p)
  {
    hide Fresh, Place;
  }

  /** A step whose log ends before the get of its object has written nothing. */
  lemma NoWriteBefore(s: Settings, x: Context, t: Task, log: seq<Exchange>, err: bool)
    requires StepLogged(s, x, StepFor(t), log, err) && |log| <= Ahead(t)
    ensures !Wrote(log)
  {
  }

  /**
   Whatever fails and whoever writes in between: what a step writes is the object it got, or a fresh one, made into what
   the task is for from the replies that its log shows; and a step that succeeds without a write found it so.
   */
  lemma LogHolds(s: Settings, x: Context, t: Task, log: seq<Exchange>, err: bool) returns (o: Object, p: Object)
    requires StepLogged(s, x, StepFor(t), log, err) && (Wrote(log) || (!err && Ahead(t) < |log|))
    requires t.NoobaaTask? ==> AllNamed(Heard(t, log).stores)
    ensures StartsFrom(x, t, log, Ahead(t), o) && EndsWith(s, t, log, Ahead(t), o, p)
    ensures HeardIn(s, t, log, Heard(t, log))
    ensures Holds(s, x.mcg.uid, x.params, x.noobaa.annotations, Heard(t, log), t, o, p)
  {
    hide StepLogged, BringsOrFails, BringsLeniently, BroughtUp, Wrote, HeardIn, Heard, Holds, StartsFrom, EndsWith, From, AllNamed;
    if |log| <= Ahead(t) {
      NoWriteBefore(s, x, t, log, err);
    }
    var g := PartOfStep(s, x, t, log, err);
    var l := log[Ahead(t)..];
    assert log[0..] == log;
    var out := OutcomeThere(s, x, t, g, l, err);
    o, p := BroughtUpHolds(s, x, t, g, l, out, Heard(t, log));
    EndsLater(s, x, t, log, o, p);
  }

  lemma InputsYielded(s: Settings, t: Task, g: Given, log: seq<Exchange>, asked: seq<Exchange>)
    requires Ahead(t) == 0 && 1 <= |log| && asked == log[1..] && !Unanswered(t, asked)
    ensures Yields(s, InputsHeard(t, g, asked), Heard(t, log), t)
  {
    hide DefaultStore, ProxyImage, ClusterID;
  }

  lemma GivenYielded(s: Settings, t: Task, g: Given, asked: seq<Exchange>, z: Sources)
    requires Ahead(t) == 1 && From(s, InputsHeard(t, g, asked), z, t)
    ensures Yields(s, InputsHeard(t, g, asked), z, t)
  {
    hide DefaultStore;
  }

  /** No answers to further reads could make the create-or-update in this log succeed. */
  lemma FailsInVain(s: Settings, x: Context, t: Task, g: Given, log: seq<Exchange>, o: Object, more: seq<Exchange>)
    requires BroughtUp(s, x, t, g, log, Failed) && !Wrote(log)
    requires if log[0].resp.Found? then o == log[0].resp.obj else log[0].resp.NotFound? && o == Base(x, t)
    ensures Mutated(s, x, t, g, (log + more)[1..], o).Err?
  {
    hide Mutated, MutateReads, KeyOf, Base;
    var asked := log[1..];
    assert !Wrote(asked);
    assert (log + more)[1..] == asked + more && asked <= asked + more;
    assert Asks(s, x, t, g, asked, o);
    if |asked| == |MutateReads(s, t)| {
      AnswersEnough(s, x, t, g, asked, more, o);
    }
  }

  /** Replies beyond the reads of a mutate function do not matter. */
  lemma AnswersEnough(s: Settings, x: Context, t: Task, g: Given, asked: seq<Exchange>, more: seq<Exchange>, o: Object)
    requires |asked| == |MutateReads(s, t)|
    ensures Mutated(s, x, t, g, asked + more, o) == Mutated(s, x, t, g, asked, o)
  {
    hide Wanted, DefaultStore, ProxyImage, ClusterID;
    assert forall n :: 0 <= n < |asked| ==> ReplyAt(asked + more, n) == ReplyAt(asked, n);
    if |asked| == 0 {
      assert InputsHeard(t, g, asked + more) == InputsHeard(t, g, asked);
    }
  }

  lemma FailedThere(s: Settings, x: Context, t: Task, g: Given, log: seq<Exchange>)
    requires BringsOrFails(s, x, t, g, log, true) || BringsLeniently(s, x, t, g, log, true)
    requires !Wrote(log)
    ensures BroughtUp(s, x, t, g, log, Failed)
  {
    hide Asks, Mutated, KeyOf, Base, WriteOwed;
    assert Wrote(log) <== |log| > 1 && Wrote(log[1..]);
  }

  lemma MutatedErrs(s: Settings, x: Context, t: Task, g: Given, asked: seq<Exchange>, z: Sources, o: Object)
    requires Mutated(s, x, t, g, asked, o).Err?
    requires Unanswered(t, asked) || Yields(s, InputsHeard(t, g, asked), z, t)
    requires t.PrometheusTask? ==> z.rhobs == ReplyAt(asked, 1)
    ensures (t.NoobaaRulesTask? && !ReplyAt(asked, 0).Items?) || !Feasible(s, x.mcg.uid, z, t, o)
  {
    hide Wanted, InputsHeard, Yields;
    if !Unanswered(t, asked) {
      WantedSucceedsIff(s, x, InputsHeard(t, g, asked), z, t, o);
    }
  }

  /**
   A step that got its object, or found none, and fails without a write, lacks something that it needs: by the replies in
   its log, and whatever it might have heard besides. The one other way is a list of versions that does not come.
   */
  lemma LogFails(s: Settings, x: Context, t: Task, log: seq<Exchange>, more: seq<Exchange>) returns (o: Object)
    requires StepLogged(s, x, StepFor(t), log, true) && !Wrote(log) && Ahead(t) < |log|
    requires log[Ahead(t)].resp.Found? || log[Ahead(t)].resp.NotFound?
    ensures StartsFrom(x, t, log, Ahead(t), o)
    ensures (t.NoobaaRulesTask? && !ReplyAt(log + more, 1).Items?) || !Feasible(s, x.mcg.uid, Heard(t, log + more), t, o)
  {
    hide StepLogged, BringsOrFails, BringsLeniently, BroughtUp, Wrote, HeardIn, From, Yields, Mutated, Feasible, InputsHeard, Base, Fresh;
    var g := PartOfStep(s, x, t, log, true);
    var l := log[Ahead(t)..];
    FailedThere(s, x, t, g, l);
    BaseIsFresh(x, t);
    o := if l[0].resp.Found? then l[0].resp.obj else Base(x, t);
    FailsInVain(s, x, t, g, l, o, more);
    var all := log + more;
    var asked := (l + more)[1..];
    assert all[Ahead(t)..] == l + more;
    if Ahead(t) == 0 {
      assert asked == all[1..];
      if !Unanswered(t, asked) {
        InputsYielded(s, t, g, all, asked);
      }
    } else {
      HeardSame(t, log, more);
      GivenYielded(s, t, g, asked, Heard(t, log));
    }
    MutatedErrs(s, x, t, g, asked, Heard(t, all), o);
  }

  lemma HeardSame(t: Task, log: seq<Exchange>, more: seq<Exchange>)
    requires Ahead(t) == 1 && 1 <= |log|
    ensures Heard(t, log + more) == Heard(t, log)
  {
  }

  // The deletion

  /** A pass marks the ManagedMCG for deletion exactly where the config map has the label and all four are ready. */
  lemma UninstallDueIff(s: Settings, c: Cluster)
    ensures UninstallDue(s, c) <==>
      && Look(c, Key(ConfigMap, s.namespace, s.addonName)).Found?
      && s.deleteLabel in c.objects[Key(ConfigMap, s.namespace, s.addonName)].labels
      && StatesAre(s, c, Components(Ready, Ready, Ready, Ready))
  {
    hide PhaseState, ReplicaState, ConsoleState;
    StatesInAre(s, c);
    StatesAreOne(s, c, StatesIn(s, c));
  }

  lemma StatesAreOne(s: Settings, c: Cluster, a: Components)
    requires StatesAre(s, c, a)
    ensures StatesAre(s, c, Components(Ready, Ready, Ready, Ready)) <==> a == Components(Ready, Ready, Ready, Ready)
  {
    hide EnoughReady, Look;
    if StatesAre(s, c, Components(Ready, Ready, Ready, Ready)) {
      assert a.noobaa.Ready? && a.prometheus.Ready? && a.alertmanager.Ready? && a.console.Ready?;
    }
  }

  /** The first request of each step, in the order of the steps. */
  function Openings(s: Settings): (r: seq<Request>)
    ensures |r| == 16
  {
    var ns := s.namespace;
    [List(BackingStore, Some(ns)), Get(Key(Deployment, ns, "mcg-ms-console")), Get(Key(ConsolePlugin, "", "mcg-ms-console")),
     List(Console, None), List(CSV, Some(ns)), Get(Key(ConfigMap, ns, "prometheus-kube-rbac-proxy-config")),
     Get(Key(Service, ns, "prometheus")), Get(Key(NetworkPolicy, ns, "prometheus-proxy-rule")),
     Get(Key(Secret, ns, "managed-mcg-alert-relabel-config-secret")), Get(Key(Prometheus, ns, "managed-mcg-prometheus")),
     Get(Key(Alertmanager, ns, "managed-mcg-alertmanager")), Get(Key(AlertmanagerConfig, ns, "managed-mcg-alertmanager-config")),
     List(PodMonitor, Some(ns)), Get(Key(PrometheusRule, ns, "dms-monitor-rule")),
     Get(Key(PrometheusRule, ns, "managed-mcg-noobaa-rules")), Get(Key(NetworkPolicy, ns, "ingress-rule"))]
  }

  /** Only the step for the OCS operator may send nothing, and does so exactly while NooBaa is not ready. */
  lemma StepsOpen(s: Settings, x: Context, logs: seq<seq<Exchange>>, err: bool)
    requires ArmLogged(s, x, logs, err)
    ensures |logs| <= 16
    ensures forall n :: 0 <= n < |logs| ==>
      && (logs[n] == [] <==> n == 4 && !x.mcg.status.components.noobaa.Ready?)
      && (logs[n] != [] ==> logs[n][0].req == Openings(s)[n])
  {
    hide StepLogged, Openings;
    forall n | 0 <= n < |logs|
      ensures logs[n] == [] <==> n == 4 && !x.mcg.status.components.noobaa.Ready?
      ensures logs[n] != [] ==> logs[n][0].req == Openings(s)[n]
    {
      assert StepLogged(s, x, ArmStep(n), logs[n], err && n == |logs| - 1);
      StepOpens(s, x, n, logs[n], err && n == |logs| - 1);
    }
  }

  lemma StepOpens(s: Settings, x: Context, n: nat, log: seq<Exchange>, err: bool)
    requires n < RESOURCE_STEPS && StepLogged(s, x, ArmStep(n), log, err)
    ensures log == [] <==> n == 4 && !x.mcg.status.components.noobaa.Ready?
    ensures log != [] ==> log[0].req == Openings(s)[n]
  {
    hide Brings, FirstWithPrefix, Lists, Downscaled, LabelsLogged;
    if n == 12 {
      LabelsOpen(s, log, err);
    }
  }

  lemma LabelsOpen(s: Settings, log: seq<Exchange>, err: bool)
    requires LabelsLogged(s, log, err)
    ensures log != [] && log[0].req == List(PodMonitor, Some(s.namespace))
  {
  }
}
