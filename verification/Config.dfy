/** The operator's settings and the keys of the objects it works on. */
module Config {
  import opened Utils
  import opened Cluster

  const FINALIZER := "managedmcg.openshift.io"
  const NOOBAA_FINALIZER := "noobaa.io/graceful_finalizer"
  const DEPLOYER_CSV_PREFIX := "mcg-osd-deployer"
  const OCS_CSV_PREFIX := "ocs-operator"
  const CONSOLE_NAME := "mcg-ms-console"
  const DEFAULT_STORE := "noobaa-default-backing-store"
  const DEFAULT_STORE_ANNOTATION := "default-backing-store"
  const MON_LABEL_KEY := "app"
  const MON_LABEL_VALUE := "managed-mcg"
  const FOREIGN_RULES_NAME := "noobaa-prometheus-rules"
  const RELABEL_SECRET_NAME := "managed-mcg-alert-relabel-config-secret"

  /** The name of the ManagedMCG that the operator creates and that its watches on other objects ask for. */
  const MCG_NAME := "managedmcg"

  /**
   What main.go reads from the environment, and the contents it loads from files at build or run time; and `request`,
   the name of the ManagedMCG that a pass is asked for.
   */
  datatype Settings = Settings(
    request: string,
    namespace: string,
    addonName: string,
    deleteLabel: string,
    addonParamSecret: string,
    pagerdutySecret: string,
    deadMansSnitchSecret: string,
    smtpSecret: string,
    rhobsSecret: string,
    sopEndpoint: string,
    smtpFrom: string,
    rhobsEndpoint: string,
    tokenEndpoint: string,
    environment: string,
    notificationHTML: Option<string>,
    noobaaRules: seq<RuleGroup>)
  {
    function McgKey(): Key { Key(ManagedMCG, namespace, request) }
    function NoobaaKey(): Key { Key(NooBaa, namespace, "noobaa") }
    function AddonConfigMapKey(): Key { Key(ConfigMap, namespace, addonName) }
    function AddonParamsKey(): Key { Key(Secret, namespace, addonParamSecret) }
    function PrometheusKey(): Key { Key(Prometheus, namespace, "managed-mcg-prometheus") }
    function AlertmanagerKey(): Key { Key(Alertmanager, namespace, "managed-mcg-alertmanager") }
    function PrometheusSetKey(): Key { Key(StatefulSet, namespace, "prometheus-managed-mcg-prometheus") }
    function AlertmanagerSetKey(): Key { Key(StatefulSet, namespace, "alertmanager-managed-mcg-alertmanager") }
    function ConsolePluginKey(): Key { Key(ConsolePlugin, "", CONSOLE_NAME) }
    function ConsoleDeploymentKey(): Key { Key(Deployment, namespace, CONSOLE_NAME) }
    function ConsoleServiceKey(): Key { Key(Service, namespace, "mcg-ms-console-service") }
    function ConsoleClusterKey(): Key { Key(Console, "", "cluster") }
    function RBACConfigMapKey(): Key { Key(ConfigMap, namespace, "prometheus-kube-rbac-proxy-config") }
    function PrometheusServiceKey(): Key { Key(Service, namespace, "prometheus") }
    function ProxyPolicyKey(): Key { Key(NetworkPolicy, namespace, "prometheus-proxy-rule") }
    function IngressPolicyKey(): Key { Key(NetworkPolicy, namespace, "ingress-rule") }
    function RelabelSecretKey(): Key { Key(Secret, namespace, RELABEL_SECRET_NAME) }
    function AlertmanagerConfigKey(): Key { Key(AlertmanagerConfig, namespace, "managed-mcg-alertmanager-config") }
    function DmsRuleKey(): Key { Key(PrometheusRule, namespace, "dms-monitor-rule") }
    function NoobaaRulesKey(): Key { Key(PrometheusRule, namespace, "managed-mcg-noobaa-rules") }
    function SecretKey(name: string): Key { Key(Secret, namespace, name) }
  }

  /** The object ensureManagedMCG creates when the process starts. */
  const BOOT_OBJECT := NEW_OBJECT.(finalizers := [FINALIZER])
}
