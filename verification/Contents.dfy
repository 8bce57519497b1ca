/**
 What the objects of the operator hold, field by field: after a step that succeeded, after a pass that did, and in what
 is sent where requests fail. Names and values are spelled out here.
 */
module Contents {
  import opened Utils
  import opened Cluster
  import opened Config
  import opened States
  import opened Emails
  import opened Desired
  import opened StrictArm
  import opened Logs
  import opened StepLaws

  /** What a mutate function works from: lists, and the replies for single objects. */
  datatype Sources = Sources(
    stores: seq<Item>,
    csvs: seq<Item>,
    versions: seq<Item>,
    deployment: Response,
    rhobs: Response,
    pager: Response,
    snitch: Response,
    smtp: Response)

  const NO_SOURCES := Sources([], [], [], Failure, Failure, Failure, Failure, Failure)

  function SourcesIn(s: Settings, c: Cluster): Sources {
    Sources(ListOf(c, BackingStore, Some(s.namespace)), ListOf(c, CSV, Some(s.namespace)), ListOf(c, ClusterVersion, None),
            Look(c, Key(Deployment, s.namespace, "mcg-ms-console")), Look(c, Key(Secret, s.namespace, s.rhobsSecret)),
            Look(c, Key(Secret, s.namespace, s.pagerdutySecret)), Look(c, Key(Secret, s.namespace, s.deadMansSnitchSecret)),
            Look(c, Key(Secret, s.namespace, s.smtpSecret)))
  }

  /** Where the object of a task is found. */
  function Place(s: Settings, t: Task): Key {
    match t
    case NoobaaTask => Key(NooBaa, s.namespace, "noobaa")
    case ConsoleServiceTask => Key(Service, s.namespace, "mcg-ms-console-service")
    case ConsolePluginTask => Key(ConsolePlugin, "", "mcg-ms-console")
    case ConsoleClusterTask => Key(Console, "", "cluster")
    case RBACTask => Key(ConfigMap, s.namespace, "prometheus-kube-rbac-proxy-config")
    case PrometheusServiceTask => Key(Service, s.namespace, "prometheus")
    case ProxyPolicyTask => Key(NetworkPolicy, s.namespace, "prometheus-proxy-rule")
    case RelabelTask => Key(Secret, s.namespace, "managed-mcg-alert-relabel-config-secret")
    case PrometheusTask => Key(Prometheus, s.namespace, "managed-mcg-prometheus")
    case AlertmanagerTask => Key(Alertmanager, s.namespace, "managed-mcg-alertmanager")
    case AlertmanagerConfigTask => Key(AlertmanagerConfig, s.namespace, "managed-mcg-alertmanager-config")
    case DmsTask => Key(PrometheusRule, s.namespace, "dms-monitor-rule")
    case NoobaaRulesTask => Key(PrometheusRule, s.namespace, "managed-mcg-noobaa-rules")
    case IngressTask => Key(NetworkPolicy, s.namespace, "ingress-rule")
  }

  lemma PlaceIs(s: Settings, t: Task)
    ensures KeyOf(s, t) == Place(s, t)
  {
  }

  // What the single objects hold

  /** The owner is this one, and no other was there before. */
  predicate OwnedBy(uid: nat, o: Object, p: Object) {
    p.owner == Some(uid) && (o.owner == None || o.owner == Some(uid))
  }

  predicate SameNotes(o: Object, p: Object) {
    p.labels == o.labels && p.annotations == o.annotations
  }

  /** The label by which Prometheus and Alertmanager select, all else as it was. */
  predicate Selected(o: Object, p: Object) {
    p.labels == o.labels["app" := "managed-mcg"]
  }

  function Chosen(o: Object): string {
    if "default-backing-store" in o.annotations then o.annotations["default-backing-store"] else ""
  }

  /** The default store is the constant if a store has a name that begins so, else the first listed one. */
  predicate ChosenFrom(stores: seq<Item>, name: string) {
    stores != [] &&
    if exists i :: 0 <= i < |stores| && "noobaa-default-backing-store" <= stores[i].key.name
    then name == "noobaa-default-backing-store" else name == stores[0].key.name
  }

  /** NooBaa gets a default store if none was noted and there is a store, and keeps its annotations otherwise. */
  predicate NoobaaHolds(noted: map<string, string>, stores: seq<Item>, o: Object, p: Object) {
    && p.spec == Fixed("noobaa") && p.labels == o.labels && p.owner == o.owner
    && if (if "default-backing-store" in noted then noted["default-backing-store"] else "") == "" && stores != []
       then ChosenFrom(stores, Chosen(p)) && p.annotations - {"default-backing-store"} == o.annotations - {"default-backing-store"}
       else p.annotations == o.annotations
  }

  /** The last deployment of that name. */
  predicate LastDeploymentIs(ds: seq<DeploymentSpec>, name: string, d: DeploymentSpec) {
    exists i :: 0 <= i < |ds| && ds[i] == d && ds[i].name == name && forall j :: i < j < |ds| ==> ds[j].name != name
  }

  /** The image of the last container of that name; empty if there is none. */
  predicate LastImageIs(cs: seq<Container>, name: string, image: string) {
    || (exists i :: 0 <= i < |cs| && cs[i].name == name && cs[i].image == image && forall j :: i < j < |cs| ==> cs[j].name != name)
    || ((forall i :: 0 <= i < |cs| ==> cs[i].name != name) && image == "")
  }

  ghost predicate ProxyImageIs(csvs: seq<Item>, image: string) {
    exists item, d ::
      && FirstNamedFrom(csvs, "mcg-osd-deployer", item)
      && LastDeploymentIs(DeploymentsOf(item.obj), "mcg-osd-deployer-controller-manager", d)
      && LastImageIs(d.containers, "kube-rbac-proxy", image)
  }

  function Entries(resp: Response): map<string, string> {
    if resp.Found? && resp.obj.spec.Data? then resp.obj.spec.data else map[]
  }

  /** The remote write is there exactly if its secret is, and takes its parts from the settings and the secret. */
  predicate RemoteWriteIs(s: Settings, rhobs: Response, remoteWrite: Option<RemoteWrite>) {
    && (remoteWrite.Some? <==> rhobs.Found?)
    && (remoteWrite.Some? ==>
          var w, data := remoteWrite.value, Entries(rhobs);
          && w.url == s.rhobsEndpoint && w.tokenURL == s.tokenEndpoint && w.secretName == s.rhobsSecret
          && w.idKey == "prom-remote-write-config-id" && w.idKey in data
          && w.secretKey == "prom-remote-write-config-secret" && w.secretKey in data
          && "rhobs-audience" in data && w.audience == data["rhobs-audience"])
  }

  ghost predicate PrometheusHolds(s: Settings, uid: nat, z: Sources, o: Object, p: Object) {
    && OwnedBy(uid, o, p) && Selected(o, p) && p.annotations == o.annotations && p.spec.Metrics?
    && p.spec.promReplicas == None && p.spec.alertNamespace == s.namespace
    && p.spec.relabelSecret == "managed-mcg-alert-relabel-config-secret"
    && ProxyImageIs(z.csvs, p.spec.proxyImage) && RemoteWriteIs(s, z.rhobs, p.spec.remoteWrite)
  }

  predicate NonEmpty(data: map<string, string>, key: string) {
    key in data && data[key] != ""
  }

  /** The mail receiver is filled in exactly if there is an address, which is looked up at index 0 first. */
  ghost predicate MailIs(s: Settings, params: map<string, string>, smtp: map<string, string>, r: Receiver) {
    && r.Email? && r.name == "SendGrid"
    && if "notification-email-0" !in params then r == Email("SendGrid", ("", ""), "", "", "", "", "", "")
       else
         && NonEmpty(smtp, "host") && NonEmpty(smtp, "port") && NonEmpty(smtp, "username")
         && r.smarthost == (smtp["host"], smtp["port"]) && r.username == smtp["username"]
         && r.passwordSecret == s.smtpSecret && r.passwordKey == "password" && r.from == s.smtpFrom
         && s.notificationHTML == Some(r.html)
         && exists addresses :: AddressList(params, addresses) && r.to == JoinWith(addresses, ", ")
  }

  ghost predicate ReceiversAre(s: Settings, params: map<string, string>, z: Sources, receivers: seq<Receiver>) {
    && |receivers| == 4 && receivers[0] == NullReceiver("null")
    && NonEmpty(Entries(z.pager), "PAGERDUTY_KEY")
    && receivers[1] == PagerDuty("pagerduty", s.pagerdutySecret, "PAGERDUTY_KEY", s.sopEndpoint)
    && NonEmpty(Entries(z.snitch), "SNITCH_URL") && receivers[2] == Webhook("DeadMansSnitch", Entries(z.snitch)["SNITCH_URL"])
    && (forall key :: key in {"host", "port", "username", "password"} ==> NonEmpty(Entries(z.smtp), key))
    && MailIs(s, params, Entries(z.smtp), receivers[3])
  }

  /** The id of the first cluster version of that name; none if there is none. */
  predicate ClusterIDIs(versions: seq<Item>, id: Option<string>) {
    match id
    case None => forall i :: 0 <= i < |versions| ==> versions[i].key.name != "version"
    case Some(v) =>
      exists i :: 0 <= i < |versions| && versions[i].key.name == "version"
                  && (match versions[i].obj.spec case Version(w) => v == w case _ => v == "")
                  && forall j :: 0 <= j < i ==> versions[j].key.name != "version"
  }

  /** Each rule of the template, with the three labels. */
  predicate RuleIs(s: Settings, id: Option<string>, before: Rule, after: Rule) {
    && after.alert == before.alert
    && after.labels ==
       (var labels := before.labels["variant" := s.addonName]["environment" := s.environment];
        if id.Some? then labels["cluster_id" := id.value] else labels)
  }

  predicate GroupsAre(s: Settings, id: Option<string>, groups: seq<RuleGroup>) {
    && |groups| == |s.noobaaRules|
    && forall g :: 0 <= g < |groups| ==>
         && groups[g].name == s.noobaaRules[g].name && |groups[g].rules| == |s.noobaaRules[g].rules|
         && forall r :: 0 <= r < |groups[g].rules| ==> RuleIs(s, id, s.noobaaRules[g].rules[r], groups[g].rules[r])
  }

  /** The one rule of the dead man's snitch, labelled with the namespace. */
  predicate SnitchIs(s: Settings, groups: seq<RuleGroup>) {
    && |groups| == 1 && groups[0].name == "snitch-alert" && |groups[0].rules| == 1
    && groups[0].rules[0].alert == "DeadMansSnitch"
    && groups[0].rules[0].labels == map["alertname" := "DeadMansSnitch", "severity" := "warning", "namespace" := s.namespace]
  }

  /** The service as the certificate controller needs it. */
  predicate ServiceIs(o: Object, p: Object) {
    && p.spec == Fixed("prometheus-service") && Selected(o, p)
    && p.annotations == o.annotations["service.beta.openshift.io/serving-cert-secret-name" := "prometheus-serving-cert-secret"]
                                     ["service.alpha.openshift.io/serving-cert-secret-name" := "prometheus-serving-cert-secret"]
  }

  /**
   What the mutate function of a task makes of `o`, for the ManagedMCG of this uid, the parameters in memory and the
   annotations of NooBaa noted at the start.
   */
  ghost predicate Holds(s: Settings, uid: nat, params: map<string, string>, noted: map<string, string>, z: Sources, t: Task,
                        o: Object, p: Object)
  {
    match t
    case NoobaaTask => NoobaaHolds(noted, z.stores, o, p)
    case ConsoleServiceTask =>
      z.deployment.Found? && OwnedBy(z.deployment.obj.uid, o, p) && SameNotes(o, p) && p.spec == o.spec
    case ConsolePluginTask => SameNotes(o, p) && p.spec == o.spec && p.owner == o.owner
    case ConsoleClusterTask =>
      && SameNotes(o, p) && p.owner == o.owner && p.spec.Plugins?
      && p.spec.plugins == PluginsOf(o) + ["mcg-ms-console"]
    case RBACTask => OwnedBy(uid, o, p) && SameNotes(o, p) && p.spec == Fixed("kube-rbac-proxy-config")
    case PrometheusServiceTask => OwnedBy(uid, o, p) && ServiceIs(o, p)
    case ProxyPolicyTask => OwnedBy(uid, o, p) && SameNotes(o, p) && p.spec == Fixed("prometheus-proxy-policy")
    case RelabelTask =>
      OwnedBy(uid, o, p) && SameNotes(o, p) && p.spec == Data(map["alertrelabelconfig.yaml" := s.namespace])
    case PrometheusTask => PrometheusHolds(s, uid, z, o, p)
    case AlertmanagerTask =>
      OwnedBy(uid, o, p) && Selected(o, p) && p.annotations == o.annotations && p.spec == Replicated(Some(1))
    case AlertmanagerConfigTask =>
      && OwnedBy(uid, o, p) && Selected(o, p) && p.annotations == o.annotations
      && p.spec.Receivers? && ReceiversAre(s, params, z, p.spec.receivers)
    case DmsTask => OwnedBy(uid, o, p) && SameNotes(o, p) && p.spec.Rules? && SnitchIs(s, p.spec.groups)
    case NoobaaRulesTask =>
      && OwnedBy(uid, o, p) && SameNotes(o, p) && p.spec.Rules?
      && exists id :: ClusterIDIs(z.versions, id) && GroupsAre(s, id, p.spec.groups)
    case IngressTask => OwnedBy(uid, o, p) && SameNotes(o, p) && p.spec == Fixed("ingress-policy")
  }

  // The functions that choose from lists

  lemma {:induction false} LastDeploymentFound(ds: seq<DeploymentSpec>, name: string)
    requires LastDeployment(ds, name).Some?
    ensures LastDeploymentIs(ds, name, LastDeployment(ds, name).value)
  {
    var n := |ds| - 1;
    if ds[n].name == name {
      assert ds[n] == LastDeployment(ds, name).value;
    } else {
      LastDeploymentFound(ds[..n], name);
      var i :| 0 <= i < n && ds[..n][i] == LastDeployment(ds, name).value && ds[..n][i].name == name
               && forall j :: i < j < n ==> ds[..n][j].name != name;
      assert ds[i] == LastDeployment(ds, name).value;
      forall j | i < j < |ds| ensures ds[j].name != name {
        assert j < n ==> ds[..n][j] == ds[j];
      }
    }
  }

  lemma {:induction false} LastImageFound(cs: seq<Container>, name: string)
    ensures LastImageIs(cs, name, LastImage(cs, name))
  {
    if cs != [] {
      var n := |cs| - 1;
      if cs[n].name != name {
        LastImageFound(cs[..n], name);
        if i :| 0 <= i < n && cs[..n][i].name == name && cs[..n][i].image == LastImage(cs, name)
                && forall j :: i < j < n ==> cs[..n][j].name != name {
          assert cs[i].name == name && cs[i].image == LastImage(cs, name);
          forall j | i < j < |cs| ensures cs[j].name != name {
            assert j < n ==> cs[..n][j] == cs[j];
          }
        } else {
          forall i | 0 <= i < |cs| ensures cs[i].name != name {
            assert i < n ==> cs[..n][i] == cs[i];
          }
        }
      }
    }
  }

  lemma ProxyImageFound(csvs: seq<Item>)
    requires ProxyImage(csvs).Some?
    ensures ProxyImageIs(csvs, ProxyImage(csvs).value)
  {
    FirstWithPrefixIs(csvs, "mcg-osd-deployer");
    hide FirstWithPrefix, LastDeployment, LastImage, FirstNamedFrom, LastDeploymentIs, LastImageIs;
    var item := FirstWithPrefix(csvs, DEPLOYER_CSV_PREFIX).value;
    var d := LastDeployment(DeploymentsOf(item.obj), DEPLOYER_DEPLOYMENT).value;
    LastDeploymentFound(DeploymentsOf(item.obj), DEPLOYER_DEPLOYMENT);
    LastImageFound(d.containers, PROXY_CONTAINER);
  }

  lemma {:induction false} ClusterIDFound(versions: seq<Item>)
    ensures ClusterIDIs(versions, ClusterID(versions))
  {
    if versions != [] {
      if versions[0].key.name != "version" {
        ClusterIDFound(versions[1..]);
        match ClusterID(versions) {
          case None =>
            forall i | 0 <= i < |versions| ensures versions[i].key.name != "version" {
              assert i > 0 ==> versions[i] == versions[1..][i - 1];
            }
          case Some(v) =>
            var i :| 0 <= i < |versions[1..]| && versions[1..][i].key.name == "version"
                     && (match versions[1..][i].obj.spec case Version(w) => v == w case _ => v == "")
                     && forall j :: 0 <= j < i ==> versions[1..][j].key.name != "version";
            assert versions[i + 1] == versions[1..][i];
            forall j | 0 <= j < i + 1 ensures versions[j].key.name != "version" {
              assert j > 0 ==> versions[j] == versions[1..][j - 1];
            }
        }
      }
    }
  }

  lemma ChosenIs(stores: seq<Item>)
    requires stores != []
    ensures ChosenFrom(stores, DefaultStore(stores))
  {
    PrefixFoundIff(stores, "noobaa-default-backing-store");
    hide FirstWithPrefix;
    assert NamedFrom(stores, "noobaa-default-backing-store") <==>
           exists i :: 0 <= i < |stores| && "noobaa-default-backing-store" <= stores[i].key.name;
  }

  // Each mutate function

  /** The inputs of a mutate function are taken from the sources. */
  predicate From(s: Settings, i: Inputs, z: Sources, t: Task) {
    match t
    case NoobaaTask => i.defaultStore == DefaultStore(z.stores)
    case ConsoleServiceTask => z.deployment.Found? && i.consoleDeployment == Some(z.deployment.obj.uid)
    case PrometheusTask =>
      i.proxyImage == ProxyImage(z.csvs) && i.rhobs == DataIn(z.rhobs) && (z.rhobs.Found? || z.rhobs.NotFound?)
    case AlertmanagerConfigTask => i.pagerduty == DataIn(z.pager) && i.deadMansSnitch == DataIn(z.snitch) && i.smtp == DataIn(z.smtp)
    case NoobaaRulesTask => i.clusterID == ClusterID(z.versions)
    case _ => true
  }

  /** Every backing store has a name. */
  predicate AllNamed(stores: seq<Item>) {
    forall i :: 0 <= i < |stores| ==> stores[i].key.name != ""
  }

  lemma NoobaaWantedHolds(noted: map<string, string>, stores: seq<Item>, o: Object)
    requires AllNamed(stores)
    ensures NoobaaHolds(noted, stores, o, NoobaaWanted(noted, DefaultStore(stores), o))
  {
    if stores != [] {
      ChosenIs(stores);
    }
    hide FirstWithPrefix, ChosenFrom;
    var ds := DefaultStore(stores);
    assert o.annotations["default-backing-store" := ds] - {"default-backing-store"} == o.annotations - {"default-backing-store"};
  }

  lemma OwnedHolds(uid: nat, o: Object)
    ensures Owned(uid, o).Ok? ==>
      var p := Owned(uid, o).value;
      OwnedBy(uid, o, p) && SameNotes(o, p) && p.spec == o.spec
  {
  }

  lemma PrometheusWantedHolds(s: Settings, uid: nat, i: Inputs, z: Sources, o: Object)
    requires PrometheusWanted(s, uid, i, o).Ok? && From(s, i, z, PrometheusTask)
    ensures PrometheusHolds(s, uid, z, o, PrometheusWanted(s, uid, i, o).value)
  {
    OwnedHolds(uid, o);
    ProxyImageFound(z.csvs);
    hide ProxyImage, ProxyImageIs, Owned;
  }

  lemma MailFilled(s: Settings, url: string, params: map<string, string>, smtp: map<string, string>, html: string)
    requires SmtpComplete(smtp) && s.notificationHTML == Some(html)
    ensures MailIs(s, params, smtp, Filled(s, url, Addresses(params, 0), smtp, html, TEMPLATE_RECEIVERS[3]))
  {
    AddressesAreListed(params);
    SmtpEntries(smtp);
    hide SmtpComplete, Addresses, AddressList, JoinWith;
    var a := Addresses(params, 0);
    assert TEMPLATE_RECEIVERS[3] == Email("SendGrid", ("", ""), "", "", "", "", "", "");
  }

  lemma SmtpEntries(smtp: map<string, string>)
    requires SmtpComplete(smtp)
    ensures forall key :: key in {"host", "port", "username", "password"} ==> NonEmpty(smtp, key)
  {
    var p := SMTP_PARAMS;
    assert p[0] == "host" && p[1] == "port" && p[2] == "username" && p[3] == "password";
    assert Entry(smtp, p[0]) != "" && Entry(smtp, p[1]) != "" && Entry(smtp, p[2]) != "" && Entry(smtp, p[3]) != "";
  }

  lemma ReceiversFilled(s: Settings, params: map<string, string>, z: Sources)
    requires z.pager.Found? && z.snitch.Found? && z.smtp.Found?
    requires Entry(DataOf(z.pager.obj), PAGERDUTY_KEY) != "" && Entry(DataOf(z.snitch.obj), SNITCH_URL_KEY) != ""
    requires SmtpComplete(DataOf(z.smtp.obj)) && s.notificationHTML.Some?
    ensures ReceiversAre(s, params, z,
      FilledAll(s, Entry(DataOf(z.snitch.obj), SNITCH_URL_KEY), Addresses(params, 0), DataOf(z.smtp.obj),
                s.notificationHTML.value, TEMPLATE_RECEIVERS))
  {
    SmtpEntries(DataOf(z.smtp.obj));
    MailFilled(s, Entry(DataOf(z.snitch.obj), SNITCH_URL_KEY), params, DataOf(z.smtp.obj), s.notificationHTML.value);
    hide SmtpComplete, Addresses, MailIs;
    assert |TEMPLATE_RECEIVERS| == 4 && TEMPLATE_RECEIVERS[0] == NullReceiver("null");
    assert TEMPLATE_RECEIVERS[1] == PagerDuty("pagerduty", "", "", "") && TEMPLATE_RECEIVERS[2] == Webhook("DeadMansSnitch", "");
  }

  lemma ConfigWantedHolds(s: Settings, uid: nat, params: map<string, string>, i: Inputs, z: Sources, o: Object)
    requires AlertmanagerConfigWanted(s, uid, params, i, o).Ok? && From(s, i, z, AlertmanagerConfigTask)
    ensures var p := AlertmanagerConfigWanted(s, uid, params, i, o).value;
      && OwnedBy(uid, o, p) && Selected(o, p) && p.annotations == o.annotations
      && p.spec.Receivers? && ReceiversAre(s, params, z, p.spec.receivers)
  {
    OwnedHolds(uid, o);
    hide Owned, SmtpComplete, Addresses, FilledAll, ReceiversAre;
    ReceiversFilled(s, params, z);
  }

  lemma SnitchFilled(s: Settings)
    ensures SnitchIs(s, SnitchGroups(DMS_GROUPS, s.namespace))
  {
    var m := map["alertname" := "DeadMansSnitch", "severity" := "warning"];
    assert DMS_GROUPS[0] == RuleGroup("snitch-alert", [Rule("DeadMansSnitch", m)]);
    assert m["namespace" := s.namespace] == map["alertname" := "DeadMansSnitch", "severity" := "warning", "namespace" := s.namespace];
  }

  lemma GroupsFilled(s: Settings, id: Option<string>)
    ensures GroupsAre(s, id, NoobaaGroups(s, id))
  {
  }

  /** The tasks that write fixed content, or none. */
  predicate Plain(t: Task) {
    t.ConsoleServiceTask? || t.RBACTask? || t.ProxyPolicyTask? || t.RelabelTask? || t.IngressTask?
    || t.ConsolePluginTask? || t.ConsoleClusterTask? || t.PrometheusServiceTask? || t.AlertmanagerTask?
  }

  lemma PlainHolds(s: Settings, x: Context, i: Inputs, z: Sources, t: Task, o: Object)
    requires Plain(t) && Wanted(s, x, i, t, o).Ok? && From(s, i, z, t)
    ensures Holds(s, x.mcg.uid, x.params, x.noobaa.annotations, z, t, o, Wanted(s, x, i, t, o).value)
  {
    OwnedHolds(x.mcg.uid, o);
    if t.ConsoleServiceTask? {
      OwnedHolds(i.consoleDeployment.value, o);
    }
    hide Owned, NoobaaHolds, PrometheusHolds, ReceiversAre, SnitchIs, GroupsAre, ClusterIDIs, PrometheusWanted,
      AlertmanagerConfigWanted, SnitchGroups, NoobaaGroups, NoobaaWanted, ProxyImage, ClusterID, DefaultStore;
  }

  lemma RulesHold(s: Settings, x: Context, i: Inputs, z: Sources, t: Task, o: Object)
    requires (t.DmsTask? || t.NoobaaRulesTask?) && Wanted(s, x, i, t, o).Ok? && From(s, i, z, t)
    ensures Holds(s, x.mcg.uid, x.params, x.noobaa.annotations, z, t, o, Wanted(s, x, i, t, o).value)
  {
    OwnedHolds(x.mcg.uid, o);
    SnitchFilled(s);
    ClusterIDFound(z.versions);
    GroupsFilled(s, i.clusterID);
    hide Owned, NoobaaHolds, PrometheusHolds, ReceiversAre, SnitchIs, GroupsAre, ClusterIDIs, PrometheusWanted,
      AlertmanagerConfigWanted, SnitchGroups, NoobaaGroups, NoobaaWanted, ProxyImage, ClusterID, DefaultStore;
    var p := Wanted(s, x, i, t, o).value;
    if t.NoobaaRulesTask? {
      assert p.spec == Rules(NoobaaGroups(s, i.clusterID));
      assert ClusterIDIs(z.versions, i.clusterID) && GroupsAre(s, i.clusterID, p.spec.groups);
    } else {
      assert p.spec == Rules(SnitchGroups(DMS_GROUPS, s.namespace));
    }
  }

  /** What a mutate function makes of an object is what the task is for. */
  lemma WantedHolds(s: Settings, x: Context, i: Inputs, z: Sources, t: Task, o: Object)
    requires Wanted(s, x, i, t, o).Ok? && From(s, i, z, t) && (t.NoobaaTask? ==> AllNamed(z.stores))
    ensures Holds(s, x.mcg.uid, x.params, x.noobaa.annotations, z, t, o, Wanted(s, x, i, t, o).value)
  {
    if Plain(t) {
      PlainHolds(s, x, i, z, t, o);
    } else if t.DmsTask? || t.NoobaaRulesTask? {
      RulesHold(s, x, i, z, t, o);
    } else {
      hide NoobaaHolds, PrometheusHolds, ReceiversAre, PrometheusWanted, AlertmanagerConfigWanted, NoobaaWanted, OwnedBy,
        ProxyImage, DefaultStore, Selected;
      match t {
        case NoobaaTask => NoobaaWantedHolds(x.noobaa.annotations, z.stores, o);
        case PrometheusTask => PrometheusWantedHolds(s, x.mcg.uid, i, z, o);
        case AlertmanagerConfigTask => ConfigWantedHolds(s, x.mcg.uid, x.params, i, z, o);
      }
    }
  }

  // When a mutate function succeeds

  predicate NoOther(uid: nat, o: Object) {
    o.owner == None || o.owner == Some(uid)
  }

  predicate DeployerFound(csvs: seq<Item>, item: Item) {
    && FirstNamedFrom(csvs, "mcg-osd-deployer", item)
    && exists i :: 0 <= i < |DeploymentsOf(item.obj)| && DeploymentsOf(item.obj)[i].name == "mcg-osd-deployer-controller-manager"
  }

  predicate RhobsComplete(data: map<string, string>) {
    "prom-remote-write-config-id" in data && "prom-remote-write-config-secret" in data && "rhobs-audience" in data
  }

  /** Everything is there that the mutate function of a task needs. */
  ghost predicate Feasible(s: Settings, uid: nat, z: Sources, t: Task, o: Object) {
    match t
    case NoobaaTask => true
    case ConsoleServiceTask => z.deployment.Found? && NoOther(z.deployment.obj.uid, o)
    case ConsolePluginTask => true
    case ConsoleClusterTask => true
    case PrometheusTask =>
      && NoOther(uid, o) && (exists item :: DeployerFound(z.csvs, item))
      && (z.rhobs.NotFound? || (z.rhobs.Found? && RhobsComplete(Entries(z.rhobs))))
    case AlertmanagerConfigTask =>
      && NoOther(uid, o) && NonEmpty(Entries(z.pager), "PAGERDUTY_KEY") && NonEmpty(Entries(z.snitch), "SNITCH_URL")
      && (forall key :: key in {"host", "port", "username", "password"} ==> NonEmpty(Entries(z.smtp), key))
      && s.notificationHTML.Some?
    case _ => NoOther(uid, o)
  }

  /** The inputs are those that the sources yield. */
  predicate Yields(s: Settings, i: Inputs, z: Sources, t: Task) {
    match t
    case NoobaaTask => i.defaultStore == DefaultStore(z.stores)
    case ConsoleServiceTask => i.consoleDeployment == if z.deployment.Found? then Some(z.deployment.obj.uid) else None
    case PrometheusTask =>
      i.proxyImage == ProxyImage(z.csvs) && i.rhobs == DataIn(z.rhobs) && (z.rhobs.Found? || z.rhobs.NotFound?)
    case AlertmanagerConfigTask => i.pagerduty == DataIn(z.pager) && i.deadMansSnitch == DataIn(z.snitch) && i.smtp == DataIn(z.smtp)
    case NoobaaRulesTask => i.clusterID == ClusterID(z.versions)
    case _ => true
  }

  lemma {:induction false} DeploymentMissed(ds: seq<DeploymentSpec>, name: string)
    requires LastDeployment(ds, name).None?
    ensures forall i :: 0 <= i < |ds| ==> ds[i].name != name
  {
    if ds != [] {
      var n := |ds| - 1;
      DeploymentMissed(ds[..n], name);
      forall i | 0 <= i < |ds| ensures ds[i].name != name {
        assert i < n ==> ds[..n][i] == ds[i];
      }
    }
  }

  lemma ProxyImageIff(csvs: seq<Item>)
    ensures ProxyImage(csvs).Some? <==> exists item :: DeployerFound(csvs, item)
  {
    FirstWithPrefixIs(csvs, "mcg-osd-deployer");
    hide FirstWithPrefix, LastDeployment, LastImage;
    if first :| FirstWithPrefix(csvs, DEPLOYER_CSV_PREFIX) == Some(first) {
      forall item | FirstNamedFrom(csvs, "mcg-osd-deployer", item) ensures item == first {
      }
      var ds := DeploymentsOf(first.obj);
      if LastDeployment(ds, DEPLOYER_DEPLOYMENT).None? {
        DeploymentMissed(ds, DEPLOYER_DEPLOYMENT);
      } else {
        LastDeploymentFound(ds, DEPLOYER_DEPLOYMENT);
        assert DeployerFound(csvs, first);
      }
    }
  }

  lemma SmtpIff(smtp: map<string, string>)
    ensures SmtpComplete(smtp) <==> forall key :: key in {"host", "port", "username", "password"} ==> NonEmpty(smtp, key)
  {
    var p := SMTP_PARAMS;
    assert p[0] == "host" && p[1] == "port" && p[2] == "username" && p[3] == "password";
    if SmtpComplete(smtp) {
      SmtpEntries(smtp);
    } else {
      var i :| 0 <= i < |p| && Entry(smtp, p[i]) == "";
      assert p[i] in {"host", "port", "username", "password"} && !NonEmpty(smtp, p[i]);
    }
  }

  lemma OwnedIff(uid: nat, o: Object)
    ensures Owned(uid, o).Ok? <==> NoOther(uid, o)
  {
  }

  lemma PrometheusSucceedsIff(s: Settings, uid: nat, i: Inputs, z: Sources, o: Object)
    requires Yields(s, i, z, PrometheusTask)
    ensures PrometheusWanted(s, uid, i, o).Ok? <==> Feasible(s, uid, z, PrometheusTask, o)
  {
    OwnedIff(uid, o);
    ProxyImageIff(z.csvs);
    hide Owned, NoOther, ProxyImage, DeployerFound;
  }

  lemma ConfigSucceedsIff(s: Settings, uid: nat, params: map<string, string>, i: Inputs, z: Sources, o: Object)
    requires Yields(s, i, z, AlertmanagerConfigTask)
    ensures AlertmanagerConfigWanted(s, uid, params, i, o).Ok? <==> Feasible(s, uid, z, AlertmanagerConfigTask, o)
  {
    OwnedIff(uid, o);
    SmtpIff(Entries(z.smtp));
    hide Owned, NoOther, SmtpComplete, FilledAll, Addresses;
    if !z.smtp.Found? {
      assert !NonEmpty(Entries(z.smtp), "host");
    }
  }

  /** A mutate function succeeds if and only if everything is there that it needs. */
  lemma WantedSucceedsIff(s: Settings, x: Context, i: Inputs, z: Sources, t: Task, o: Object)
    requires Yields(s, i, z, t)
    ensures Wanted(s, x, i, t, o).Ok? <==> Feasible(s, x.mcg.uid, z, t, o)
  {
    if t.PrometheusTask? {
      PrometheusSucceedsIff(s, x.mcg.uid, i, z, o);
    } else if t.AlertmanagerConfigTask? {
      ConfigSucceedsIff(s, x.mcg.uid, x.params, i, z, o);
    } else {
      OwnedIff(x.mcg.uid, o);
      if z.deployment.Found? {
        OwnedIff(z.deployment.obj.uid, o);
      }
    }
    hide Owned, NoOther, ProxyImage, DeployerFound, ClusterID, DefaultStore, SnitchGroups, NoobaaGroups, PrometheusWanted,
      AlertmanagerConfigWanted;
  }
}
