/** What the operator wants each object it manages to look like, as functions of what it has read. */
module Desired {
  import opened Utils
  import opened Cluster
  import opened Config
  import opened Emails

  /** One object brought up to date with create-or-update, in the order of the strict arm. */
  datatype Task =
    | NoobaaTask | ConsoleServiceTask | ConsolePluginTask | ConsoleClusterTask
    | RBACTask | PrometheusServiceTask | ProxyPolicyTask | RelabelTask | PrometheusTask | AlertmanagerTask
    | AlertmanagerConfigTask | DmsTask | NoobaaRulesTask | IngressTask

  function KeyOf(s: Settings, t: Task): Key {
    match t
    case NoobaaTask => s.NoobaaKey()
    case ConsoleServiceTask => s.ConsoleServiceKey()
    case ConsolePluginTask => s.ConsolePluginKey()
    case ConsoleClusterTask => s.ConsoleClusterKey()
    case RBACTask => s.RBACConfigMapKey()
    case PrometheusServiceTask => s.PrometheusServiceKey()
    case ProxyPolicyTask => s.ProxyPolicyKey()
    case RelabelTask => s.RelabelSecretKey()
    case PrometheusTask => s.PrometheusKey()
    case AlertmanagerTask => s.AlertmanagerKey()
    case AlertmanagerConfigTask => s.AlertmanagerConfigKey()
    case DmsTask => s.DmsRuleKey()
    case NoobaaRulesTask => s.NoobaaRulesKey()
    case IngressTask => s.IngressPolicyKey()
  }

  /** What a pass holds in memory when it starts on its resources. */
  datatype Context = Context(mcg: Object, noobaa: Object, prometheus: Object, alertmanager: Object,
                             params: map<string, string>)

  const NO_CONTEXT := Context(NEW_OBJECT, NEW_OBJECT, NEW_OBJECT, NEW_OBJECT, map[])

  /** What the strict arm reads from the store besides the objects it writes. None means that there is no such object. */
  datatype Inputs = Inputs(
    defaultStore: string,
    consoleDeployment: Option<nat>,
    proxyImage: Option<string>,
    rhobs: Option<map<string, string>>,
    pagerduty: Option<map<string, string>>,
    deadMansSnitch: Option<map<string, string>>,
    smtp: Option<map<string, string>>,
    clusterID: Option<string>)

  const NO_INPUTS := Inputs("", None, None, None, None, None, None, None)

  function DataOf(o: Object): map<string, string> {
    match o.spec
    case Data(data) => data
    case _ => map[]
  }

  function PluginsOf(o: Object): seq<string> {
    match o.spec
    case Plugins(plugins) => plugins
    case _ => []
  }

  function DeploymentsOf(o: Object): seq<DeploymentSpec> {
    match o.spec
    case Deployments(deployments) => deployments
    case _ => []
  }

  // Reading lists

  function FirstWithPrefix(items: seq<Item>, prefix: string): Option<Item> {
    if items == [] then None
    else if prefix <= items[0].key.name then Some(items[0])
    else FirstWithPrefix(items[1..], prefix)
  }

  /** A backing store with the default prefix yields the constant, which need not be the name of any store. */
  function DefaultStore(items: seq<Item>): string {
    if items == [] then ""
    else if FirstWithPrefix(items, DEFAULT_STORE).Some? then DEFAULT_STORE
    else items[0].key.name
  }

  function LastDeployment(ds: seq<DeploymentSpec>, name: string): Option<DeploymentSpec> {
    if ds == [] then None
    else if ds[|ds| - 1].name == name then Some(ds[|ds| - 1])
    else LastDeployment(ds[..|ds| - 1], name)
  }

  function LastImage(cs: seq<Container>, name: string): string {
    if cs == [] then ""
    else if cs[|cs| - 1].name == name then cs[|cs| - 1].image
    else LastImage(cs[..|cs| - 1], name)
  }

  const DEPLOYER_DEPLOYMENT := "mcg-osd-deployer-controller-manager"
  const PROXY_CONTAINER := "kube-rbac-proxy"

  /** The proxy image named in the first deployer CSV; None if there is no such CSV or it lacks the deployment. */
  function ProxyImage(csvs: seq<Item>): Option<string> {
    match FirstWithPrefix(csvs, DEPLOYER_CSV_PREFIX)
    case None => None
    case Some(csv) =>
      match LastDeployment(DeploymentsOf(csv.obj), DEPLOYER_DEPLOYMENT)
      case None => None
      case Some(d) => Some(LastImage(d.containers, PROXY_CONTAINER))
  }

  function ClusterID(items: seq<Item>): Option<string> {
    if items == [] then None
    else if items[0].key.name == "version" then
      Some(match items[0].obj.spec case Version(id) => id case _ => "")
    else ClusterID(items[1..])
  }

  function SecretData(c: Cluster, k: Key): Option<map<string, string>> {
    if k in c.objects then Some(DataOf(c.objects[k])) else None
  }

  function InputsOf(s: Settings, c: Cluster): Inputs {
    Inputs(
      DefaultStore(ListOf(c, BackingStore, Some(s.namespace))),
      if s.ConsoleDeploymentKey() in c.objects then Some(c.objects[s.ConsoleDeploymentKey()].uid) else None,
      ProxyImage(ListOf(c, CSV, Some(s.namespace))),
      SecretData(c, s.SecretKey(s.rhobsSecret)),
      SecretData(c, s.SecretKey(s.pagerdutySecret)),
      SecretData(c, s.SecretKey(s.deadMansSnitchSecret)),
      SecretData(c, s.SecretKey(s.smtpSecret)),
      ClusterID(ListOf(c, ClusterVersion, None)))
  }

  // Desired contents

  /** The controller owner is set once and never taken from another owner. */
  function Owned(uid: nat, o: Object): Result<Object> {
    match o.owner
    case None => Ok(o.(owner := Some(uid)))
    case Some(u) => if u == uid then Ok(o) else Err
  }

  function WithLabel(o: Object, key: string, value: string): Object {
    o.(labels := o.labels[key := value])
  }

  function WithoutLabel(o: Object, key: string): Object {
    o.(labels := o.labels - {key})
  }

  function WithAnnotation(o: Object, key: string, value: string): Object {
    o.(annotations := o.annotations[key := value])
  }

  function Monitored(o: Object): Object {
    WithLabel(o, MON_LABEL_KEY, MON_LABEL_VALUE)
  }

  function NoobaaWanted(snapshot: map<string, string>, defaultStore: string, o: Object): Object {
    var annotated :=
      if Entry(snapshot, DEFAULT_STORE_ANNOTATION) == "" && defaultStore != ""
      then WithAnnotation(o, DEFAULT_STORE_ANNOTATION, defaultStore) else o;
    annotated.(spec := Fixed("noobaa"))
  }

  const RHOBS_ID_KEY := "prom-remote-write-config-id"
  const RHOBS_SECRET_KEY := "prom-remote-write-config-secret"
  const RHOBS_AUDIENCE_KEY := "rhobs-audience"

  function RemoteWriteWanted(s: Settings, secret: Option<map<string, string>>): Result<Option<RemoteWrite>> {
    match secret
    case None => Ok(None)
    case Some(data) =>
      if RHOBS_ID_KEY in data && RHOBS_SECRET_KEY in data && RHOBS_AUDIENCE_KEY in data then
        Ok(Some(RemoteWrite(s.rhobsEndpoint, s.rhobsSecret, RHOBS_ID_KEY, RHOBS_SECRET_KEY, s.tokenEndpoint,
                            data[RHOBS_AUDIENCE_KEY])))
      else Err
  }

  function PrometheusWanted(s: Settings, uid: nat, i: Inputs, o: Object): Result<Object> {
    match Owned(uid, o)
    case Err => Err
    case Ok(owned) =>
      if i.proxyImage.None? then Err
      else
        match RemoteWriteWanted(s, i.rhobs)
        case Err => Err
        case Ok(rw) =>
          Ok(Monitored(owned).(spec := Metrics(None, i.proxyImage.value, s.namespace, RELABEL_SECRET_NAME, rw)))
  }

  function AlertmanagerWanted(uid: nat, o: Object): Result<Object> {
    match Owned(uid, o)
    case Err => Err
    case Ok(owned) => Ok(Monitored(owned).(spec := Replicated(Some(1))))
  }

  // Alertmanager receivers

  const PAGERDUTY_KEY := "PAGERDUTY_KEY"
  const SNITCH_URL_KEY := "SNITCH_URL"
  const SMTP_PARAMS := ["host", "port", "username", "password"]

  /** The receivers of the template, before any of them is filled in. */
  const TEMPLATE_RECEIVERS := [
    NullReceiver("null"),
    PagerDuty("pagerduty", "", "", ""),
    Webhook("DeadMansSnitch", ""),
    Email("SendGrid", ("", ""), "", "", "", "", "", "")]

  function Filled(s: Settings, snitchURL: string, addresses: seq<string>, smtp: map<string, string>, html: string,
                  r: Receiver): Receiver {
    match r
    case PagerDuty(name, _, _, _) =>
      if name == "pagerduty" then PagerDuty(name, s.pagerdutySecret, PAGERDUTY_KEY, s.sopEndpoint) else r
    case Webhook(name, _) =>
      if name == "DeadMansSnitch" then Webhook(name, snitchURL) else r
    case Email(name, _, _, _, _, _, _, _) =>
      if name == "SendGrid" && addresses != [] then
        Email(name, (Entry(smtp, "host"), Entry(smtp, "port")), Entry(smtp, "username"), s.smtpSecret, "password",
              s.smtpFrom, JoinWith(addresses, ", "), html)
      else r
    case NullReceiver(_) => r
  }

  function FilledAll(s: Settings, snitchURL: string, addresses: seq<string>, smtp: map<string, string>, html: string,
                     rs: seq<Receiver>): seq<Receiver> {
    seq(|rs|, i requires 0 <= i < |rs| => Filled(s, snitchURL, addresses, smtp, html, rs[i]))
  }

  predicate SmtpComplete(smtp: map<string, string>) {
    forall i :: 0 <= i < |SMTP_PARAMS| ==> Entry(smtp, SMTP_PARAMS[i]) != ""
  }

  function AlertmanagerConfigWanted(s: Settings, uid: nat, params: map<string, string>, i: Inputs, o: Object)
    : Result<Object>
  {
    match Owned(uid, o)
    case Err => Err
    case Ok(owned) =>
      if i.pagerduty.None? || Entry(i.pagerduty.value, PAGERDUTY_KEY) == "" then Err
      else if i.deadMansSnitch.None? || Entry(i.deadMansSnitch.value, SNITCH_URL_KEY) == "" then Err
      else if i.smtp.None? || !SmtpComplete(i.smtp.value) || s.notificationHTML.None? then Err
      else
        Ok(Monitored(owned.(spec := Receivers(FilledAll(s, Entry(i.deadMansSnitch.value, SNITCH_URL_KEY),
                                                        Addresses(params, 0), i.smtp.value, s.notificationHTML.value,
                                                        TEMPLATE_RECEIVERS)))))
  }

  // Alerting rules

  const DMS_GROUPS := [RuleGroup("snitch-alert", [Rule("DeadMansSnitch",
    map["alertname" := "DeadMansSnitch", "severity" := "warning"])])]

  function LabelledRules(rules: seq<Rule>, key: string, value: string): seq<Rule> {
    seq(|rules|, i requires 0 <= i < |rules| => rules[i].(labels := rules[i].labels[key := value]))
  }

  /** Every rule of every group with one more label. */
  function LabelledGroups(groups: seq<RuleGroup>, key: string, value: string): seq<RuleGroup> {
    seq(|groups|, i requires 0 <= i < |groups| =>
      groups[i].(rules := LabelledRules(groups[i].rules, key, value)))
  }

  function SnitchRules(rules: seq<Rule>, namespace: string): seq<Rule> {
    seq(|rules|, i requires 0 <= i < |rules| =>
      if rules[i].alert == "DeadMansSnitch" then rules[i].(labels := rules[i].labels["namespace" := namespace])
      else rules[i])
  }

  /** The dead man's snitch rule in its group, labelled with the namespace; all else as in the template. */
  function SnitchGroups(groups: seq<RuleGroup>, namespace: string): seq<RuleGroup> {
    seq(|groups|, i requires 0 <= i < |groups| =>
      if groups[i].name == "snitch-alert" then groups[i].(rules := SnitchRules(groups[i].rules, namespace))
      else groups[i])
  }

  function NoobaaGroups(s: Settings, clusterID: Option<string>): seq<RuleGroup> {
    var g := LabelledGroups(LabelledGroups(s.noobaaRules, "variant", s.addonName), "environment", s.environment);
    match clusterID
    case None => g
    case Some(id) => LabelledGroups(g, "cluster_id", id)
  }

  function WithSpec(r: Result<Object>, spec: Spec): Result<Object> {
    match r
    case Err => Err
    case Ok(o) => Ok(o.(spec := spec))
  }

  const SERVING_CERT_SECRET := "prometheus-serving-cert-secret"

  /** The service as prometheus federation needs it. */
  function PrometheusServiceWanted(uid: nat, o: Object): Result<Object> {
    match Owned(uid, o)
    case Err => Err
    case Ok(owned) =>
      Ok(Monitored(
           WithAnnotation(
             WithAnnotation(owned.(spec := Fixed("prometheus-service")),
                            "service.beta.openshift.io/serving-cert-secret-name", SERVING_CERT_SECRET),
             "service.alpha.openshift.io/serving-cert-secret-name", SERVING_CERT_SECRET)))
  }

  /** The object `o` after the mutate function of `t`; an error leaves nothing to write. */
  function Wanted(s: Settings, x: Context, i: Inputs, t: Task, o: Object): Result<Object> {
    match t
    case NoobaaTask => Ok(NoobaaWanted(x.noobaa.annotations, i.defaultStore, o))
    case ConsoleServiceTask => if i.consoleDeployment.None? then Err else Owned(i.consoleDeployment.value, o)
    case ConsolePluginTask => Ok(o)
    case ConsoleClusterTask => Ok(o.(spec := Plugins(PluginsOf(o) + [CONSOLE_NAME])))
    case RBACTask => WithSpec(Owned(x.mcg.uid, o), Fixed("kube-rbac-proxy-config"))
    case PrometheusServiceTask => PrometheusServiceWanted(x.mcg.uid, o)
    case ProxyPolicyTask => WithSpec(Owned(x.mcg.uid, o), Fixed("prometheus-proxy-policy"))
    case RelabelTask => WithSpec(Owned(x.mcg.uid, o), Data(map["alertrelabelconfig.yaml" := s.namespace]))
    case PrometheusTask => PrometheusWanted(s, x.mcg.uid, i, o)
    case AlertmanagerTask => AlertmanagerWanted(x.mcg.uid, o)
    case AlertmanagerConfigTask => AlertmanagerConfigWanted(s, x.mcg.uid, x.params, i, o)
    case DmsTask => WithSpec(Owned(x.mcg.uid, o), Rules(SnitchGroups(DMS_GROUPS, s.namespace)))
    case NoobaaRulesTask => WithSpec(Owned(x.mcg.uid, o), Rules(NoobaaGroups(s, i.clusterID)))
    case IngressTask => WithSpec(Owned(x.mcg.uid, o), Fixed("ingress-policy"))
  }

  /** The object a task hands to the API when it finds none: what the pass holds in memory for it. */
  function Base(x: Context, t: Task): Object {
    match t
    case NoobaaTask => x.noobaa
    case PrometheusTask => x.prometheus
    case AlertmanagerTask => x.alertmanager
    case ConsoleServiceTask =>
      NEW_OBJECT.(labels := map["app" := CONSOLE_NAME],
                  annotations := map["service.alpha.openshift.io/serving-cert-secret-name" := "mcg-ms-console-serving-cert"],
                  spec := Fixed("console-service"))
    case ConsolePluginTask => NEW_OBJECT.(spec := Fixed("console-plugin"))
    case _ => NEW_OBJECT
  }
}
