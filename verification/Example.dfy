/** A small cluster in which a pass finds all it needs: the conditions of modules Progress and EndToEnd can be met. */
module Example {
  import opened Utils
  import opened Cluster
  import opened Config
  import opened States
  import opened Desired
  import opened StrictArm
  import opened Convergence
  import opened Uninstall
  import opened StepLaws
  import opened Fixpoint
  import opened Termination
  import opened Progress
  import opened EndToEnd

  const SETTINGS := Settings(MCG_NAME, "ns", "mcg", "delete", "params", "pager", "snitch", "smtp", "rhobs", "sop", "from", "rhobs-url",
                             "token-url", "test", Some("html"), [])

  const DEPLOYER := Key(CSV, "ns", "mcg-osd-deployer.v1")
  const OCS := Key(CSV, "ns", "ocs-operator.v4")
  const PARAMS := Key(Secret, "ns", "params")
  const PAGER := Key(Secret, "ns", "pager")
  const SNITCH := Key(Secret, "ns", "snitch")
  const SMTP := Key(Secret, "ns", "smtp")

  /** The number of a key in the example; 0 if it has no object there. */
  function Number(k: Key): nat {
    match k.kind
    case ManagedMCG => if k == SETTINGS.McgKey() then 1 else 0
    case Secret => if k == PARAMS then 2 else if k == PAGER then 3 else if k == SNITCH then 4 else if k == SMTP then 5 else 0
    case Deployment => if k == SETTINGS.ConsoleDeploymentKey() then 6 else 0
    case CSV => if k == DEPLOYER then 7 else if k == OCS then 8 else 0
    case ConfigMap => if k == SETTINGS.AddonConfigMapKey() then 9 else 0
    case NooBaa => if k == SETTINGS.NoobaaKey() then 10 else 0
    case Prometheus => if k == SETTINGS.PrometheusKey() then 11 else 0
    case Alertmanager => if k == SETTINGS.AlertmanagerKey() then 12 else 0
    case StatefulSet => if k == SETTINGS.PrometheusSetKey() then 13 else if k == SETTINGS.AlertmanagerSetKey() then 14 else 0
    case ConsolePlugin => if k == SETTINGS.ConsolePluginKey() then 15 else 0
    case _ => 0
  }

  const RUNNING := NEW_OBJECT.(status := NO_STATUS.(phase := "Ready", readyReplicas := 1))

  function Holding(data: map<string, string>): Object {
    NEW_OBJECT.(spec := Data(data))
  }

  /** The object of that number, with the deletion label or without. */
  function Contents(label_: bool, n: nat): Object {
    match n
    case 1 => NEW_OBJECT.(finalizers := [FINALIZER])
    case 2 => Holding(map[])
    case 3 => Holding(map[PAGERDUTY_KEY := "key"])
    case 4 => Holding(map[SNITCH_URL_KEY := "url"])
    case 5 => Holding(map["host" := "h", "port" := "25", "username" := "u", "password" := "p"])
    case 6 => RUNNING
    case 7 =>
      NEW_OBJECT.(spec := Deployments([DeploymentSpec(DEPLOYER_DEPLOYMENT, 1, [Container(PROXY_CONTAINER, "image")])]))
    case 8 => NEW_OBJECT.(spec := Deployments([]))
    case 9 => NEW_OBJECT.(labels := if label_ then map["delete" := ""] else map[])
    case 10 => RUNNING
    case 13 => RUNNING
    case 14 => RUNNING
    case _ => NEW_OBJECT
  }

  /** The object of a key in the example, if it has one. */
  function At(label_: bool, k: Key): Option<Object> {
    var n := Number(k);
    if n == 0 then None else Some(Contents(label_, n).(uid := n, rv := n))
  }

  const KEYS := [SETTINGS.McgKey(), PARAMS, PAGER, SNITCH, SMTP, SETTINGS.ConsoleDeploymentKey(), DEPLOYER, OCS,
                 SETTINGS.AddonConfigMapKey(), SETTINGS.NoobaaKey(), SETTINGS.PrometheusKey(), SETTINGS.AlertmanagerKey(),
                 SETTINGS.PrometheusSetKey(), SETTINGS.AlertmanagerSetKey(), SETTINGS.ConsolePluginKey()]

  function Start(label_: bool): Cluster {
    Cluster(map k | k in KEYS && At(label_, k).Some? :: At(label_, k).value, KEYS, 16)
  }

  lemma Numbers()
    ensures Number(SETTINGS.McgKey()) == 1 && Number(PARAMS) == 2 && Number(PAGER) == 3 && Number(SNITCH) == 4
    ensures Number(SMTP) == 5 && Number(SETTINGS.ConsoleDeploymentKey()) == 6 && Number(DEPLOYER) == 7 && Number(OCS) == 8
    ensures Number(SETTINGS.AddonConfigMapKey()) == 9 && Number(SETTINGS.NoobaaKey()) == 10
    ensures Number(SETTINGS.PrometheusKey()) == 11 && Number(SETTINGS.AlertmanagerKey()) == 12
    ensures Number(SETTINGS.PrometheusSetKey()) == 13 && Number(SETTINGS.AlertmanagerSetKey()) == 14
    ensures Number(SETTINGS.ConsolePluginKey()) == 15
  {
  }

  lemma NumberedKey(i: nat)
    requires i < |KEYS|
    ensures Number(KEYS[i]) == i + 1
  {
    hide Number;
    Numbers();
  }

  lemma KeyOfNumber(k: Key)
    requires Number(k) != 0
    ensures Number(k) <= |KEYS| && KEYS[Number(k) - 1] == k
  {
  }

  lemma KeysHaveObjects(label_: bool, k: Key)
    ensures k in KEYS <==> At(label_, k).Some?
  {
    hide Number, Contents;
    if Number(k) != 0 {
      KeyOfNumber(k);
    }
    if i: nat :| i < |KEYS| && KEYS[i] == k {
      NumberedKey(i);
    }
  }

  lemma StoredAt(label_: bool, k: Key)
    ensures k in Start(label_).objects <==> At(label_, k).Some?
    ensures k in Start(label_).objects ==> Start(label_).objects[k] == At(label_, k).value
  {
    KeysHaveObjects(label_, k);
    hide At;
  }

  lemma ContentsAreNew(label_: bool, n: nat)
    ensures var o := Contents(label_, n); !o.deleting && o.owner.None?
  {
  }

  lemma Numbered(label_: bool, k: Key)
    requires At(label_, k).Some?
    ensures var o := At(label_, k).value; 0 < o.rv < 16 && 0 < o.uid < 16 && !o.deleting && o.owner.None?
  {
    hide Number, Contents;
    KeyOfNumber(k);
    ContentsAreNew(label_, Number(k));
  }

  lemma StartIsWellFormed(label_: bool)
    ensures WellFormed(Start(label_))
  {
    hide At;
    OrderIsKeys(label_);
    forall k ensures k in Start(label_).order <==> k in Start(label_).objects {
      KeysHaveObjects(label_, k);
      StoredAt(label_, k);
    }
    forall k | k in Start(label_).objects
      ensures var o := Start(label_).objects[k]; 0 < o.rv < 16 && 0 < o.uid < 16 && !o.deleting
    {
      StoredAt(label_, k);
      Numbered(label_, k);
    }
  }

  lemma KeysAreDistinct()
    ensures Distinct(KEYS)
  {
    hide Number;
    forall i, j | 0 <= i < j < |KEYS| ensures KEYS[i] != KEYS[j] {
      NumberedKey(i);
      NumberedKey(j);
    }
  }

  lemma NoOtherSecret()
    ensures Number(SETTINGS.SecretKey("rhobs")) == 0
  {
  }

  lemma StartSecrets(label_: bool)
    ensures SecretData(Start(label_), SETTINGS.AddonParamsKey()) == Some(map[])
    ensures SecretData(Start(label_), SETTINGS.SecretKey("rhobs")) == None
    ensures SecretData(Start(label_), SETTINGS.SecretKey("pager")) == Some(map[PAGERDUTY_KEY := "key"])
    ensures SecretData(Start(label_), SETTINGS.SecretKey("snitch")) == Some(map[SNITCH_URL_KEY := "url"])
    ensures SecretData(Start(label_), SETTINGS.SecretKey("smtp")) ==
            Some(map["host" := "h", "port" := "25", "username" := "u", "password" := "p"])
  {
    hide Number, Start;
    Numbers();
    NoOtherSecret();
    StoredAt(label_, PARAMS);
    StoredAt(label_, PAGER);
    StoredAt(label_, SNITCH);
    StoredAt(label_, SMTP);
    StoredAt(label_, SETTINGS.SecretKey("rhobs"));
  }

  lemma SmtpIsComplete()
    ensures SmtpComplete(map["host" := "h", "port" := "25", "username" := "u", "password" := "p"])
  {
  }

  /** The CSVs the operator sees. */
  function Listed(label_: bool): seq<Item> {
    AllOf(SETTINGS, Start(label_), CSV)
  }

  lemma IsListedThere(label_: bool, k: Key)
    requires At(label_, k).Some? && k.kind.CSV? && k.namespace == "ns"
    ensures Item(k, At(label_, k).value) in Listed(label_)
  {
    StartIsWellFormed(label_);
    StoredAt(label_, k);
    hide Start, At, WellFormed;
    IsListed(SETTINGS, Start(label_), CSV, k);
  }

  lemma ListedIsDeployer(label_: bool, item: Item)
    requires item in Listed(label_) && DEPLOYER_CSV_PREFIX <= item.key.name && At(label_, DEPLOYER).Some?
    ensures item == Item(DEPLOYER, At(label_, DEPLOYER).value)
  {
    SelectExact(Start(label_).objects, Start(label_).order, CSV, Some("ns"), item);
    StoredAt(label_, item.key);
    hide Start, At;
    OnlyDeployer(label_, item.key);
  }

  lemma OnlyDeployer(label_: bool, k: Key)
    requires At(label_, k).Some? && k.kind.CSV? && DEPLOYER_CSV_PREFIX <= k.name
    ensures k == DEPLOYER
  {
    assert DEPLOYER_CSV_PREFIX[0] == 'm' && OCS.name[0] == 'o';
  }

  lemma StartHasImage(label_: bool)
    ensures ProxyImage(Listed(label_)).Some?
  {
    hide Start, At, Listed, DeploymentsOf, LastDeployment, LastImage;
    DeployerIsStored(label_);
    IsListedThere(label_, DEPLOYER);
    var i :| 0 <= i < |Listed(label_)| && Listed(label_)[i] == Item(DEPLOYER, At(label_, DEPLOYER).value);
    FoundIsListed(Listed(label_), DEPLOYER_CSV_PREFIX, i);
    ListedIsDeployer(label_, FirstWithPrefix(Listed(label_), DEPLOYER_CSV_PREFIX).value);
    DeployerHasDeployment(label_);
  }

  lemma DeployerIsStored(label_: bool)
    ensures At(label_, DEPLOYER).Some? && DEPLOYER_CSV_PREFIX <= DEPLOYER.name
  {
  }

  lemma OcsIsStored(label_: bool)
    ensures At(label_, OCS).Some? && OCS_CSV_PREFIX <= OCS.name
  {
  }

  lemma DeployerHasDeployment(label_: bool)
    ensures LastDeployment(DeploymentsOf(At(label_, DEPLOYER).value), DEPLOYER_DEPLOYMENT).Some?
  {
    var d := DeploymentSpec(DEPLOYER_DEPLOYMENT, 1, [Container(PROXY_CONTAINER, "image")]);
    assert DeploymentsOf(At(label_, DEPLOYER).value) == [d];
    hide At;
    assert [d][|[d]| - 1] == d;
  }

  lemma StartHasOcs(label_: bool)
    ensures OcsPresent(SETTINGS, Start(label_))
  {
    hide Start, At;
    OcsIsStored(label_);
    IsListedThere(label_, OCS);
    var i :| 0 <= i < |Listed(label_)| && Listed(label_)[i] == Item(OCS, At(label_, OCS).value);
    PrefixFound(Listed(label_), i, OCS_CSV_PREFIX);
  }

  lemma StartIsSupplied(label_: bool)
    ensures Supplied(SETTINGS, InputsOf(SETTINGS, Start(label_)))
  {
    StartSecrets(label_);
    SmtpIsComplete();
    StartHasImage(label_);
    StoredAt(label_, SETTINGS.ConsoleDeploymentKey());
    hide Start, SecretData, ListOf, ProxyImage, DefaultStore, ClusterID, SmtpComplete;
  }

  lemma StartServes(label_: bool)
    ensures Serving(SETTINGS, Start(label_)) && (LabelIn(SETTINGS, Start(label_)) <==> label_)
  {
    StartIsWellFormed(label_);
    StoredAt(label_, SETTINGS.McgKey());
    StoredAt(label_, SETTINGS.AddonConfigMapKey());
    hide Start, WellFormed;
  }

  lemma TasksAreFree(label_: bool, t: Task, owner: Option<nat>)
    ensures Ownable(owner, Held(Start(label_), KeyOf(SETTINGS, t)))
  {
    hide At, Start, KeyOf;
    StoredAt(label_, KeyOf(SETTINGS, t));
    if At(label_, KeyOf(SETTINGS, t)).Some? {
      Numbered(label_, KeyOf(SETTINGS, t));
    }
  }

  lemma OrderIsKeys(label_: bool)
    ensures Start(label_).order == KEYS
  {
  }

  lemma StartIsEquipped(label_: bool)
    ensures SecretsApart(SETTINGS) && Equipped(SETTINGS, Start(label_))
  {
    hide Start, Supplied, InputsOf, OcsPresent, Serving, LabelIn, StatesIn, SecretData, KeyOf, OwnerFor, Distinct,
      SecretsApart, Held, Ownable;
    StartServes(label_);
    StartsWithMcg(label_);
    KeysAreDistinct();
    OrderIsKeys(label_);
    StartIsSupplied(label_);
    StartHasOcs(label_);
    StartSecrets(label_);
    NamesApart();
    forall j: nat | j < ARM_LENGTH && ArmStep(j).Bring?
      ensures Ownable(OwnerFor(Start(label_).objects[SETTINGS.McgKey()].uid, InputsOf(SETTINGS, Start(label_)), ArmStep(j).task),
                      Held(Start(label_), KeyOf(SETTINGS, ArmStep(j).task)))
    {
      TasksAreFree(label_, ArmStep(j).task,
                   OwnerFor(Start(label_).objects[SETTINGS.McgKey()].uid, InputsOf(SETTINGS, Start(label_)), ArmStep(j).task));
    }
  }

  lemma StartsWithMcg(label_: bool)
    ensures SETTINGS.McgKey() in Start(label_).objects
  {
    StoredAt(label_, SETTINGS.McgKey());
    hide Start;
  }

  lemma NamesApart()
    ensures SecretsApart(SETTINGS)
  {
  }

  /** Without the label the example meets all conditions, so from it two passes succeed and the third changes nothing. */
  lemma StartIsProvided()
    ensures SecretsApart(SETTINGS) && Provided(SETTINGS, Start(false))
  {
    hide Start, Equipped, LabelIn, StatesIn, WillBeReady, SecretsApart;
    StartIsEquipped(false);
    StartServes(false);
  }

  lemma RunningAt(label_: bool, k: Key)
    requires Number(k) in {6, 10, 13, 14}
    ensures k in Start(label_).objects && Start(label_).objects[k].status == RUNNING.status
  {
    hide Number, Start;
    StoredAt(label_, k);
  }

  lemma BlankAt(label_: bool, k: Key)
    requires Number(k) in {11, 12, 15}
    ensures k in Start(label_).objects && Start(label_).objects[k].spec == Blank
  {
    hide Number, Start;
    StoredAt(label_, k);
  }

  lemma StartIsReady(label_: bool)
    ensures StatesIn(SETTINGS, Start(label_)) == ALL_READY
  {
    hide Number, Start;
    Numbers();
    RunningAt(label_, SETTINGS.NoobaaKey());
    BlankAt(label_, SETTINGS.PrometheusKey());
    RunningAt(label_, SETTINGS.PrometheusSetKey());
    BlankAt(label_, SETTINGS.AlertmanagerKey());
    RunningAt(label_, SETTINGS.AlertmanagerSetKey());
    BlankAt(label_, SETTINGS.ConsolePluginKey());
    RunningAt(label_, SETTINGS.ConsoleDeploymentKey());
  }

  lemma BareAt(label_: bool, k: Key)
    requires Number(k) == 1 || Number(k) == 10
    ensures k in Start(label_).objects
    ensures Start(label_).objects[k].finalizers == if Number(k) == 1 then [FINALIZER] else []
  {
    hide Number, Start;
    StoredAt(label_, k);
  }

  lemma NoClasses(label_: bool, k: Key)
    requires k.kind.BucketClass?
    ensures k !in Start(label_).objects
  {
    StoredAt(label_, k);
  }

  lemma StartIsUnhindered(label_: bool)
    ensures Unhindered(SETTINGS, Start(label_)) && DeployerCSV(SETTINGS, Start(label_), DEPLOYER)
  {
    hide Number, Start, At;
    Numbers();
    BareAt(label_, SETTINGS.McgKey());
    BareAt(label_, SETTINGS.NoobaaKey());
    StoredAt(label_, DEPLOYER);
    DeployerIsStored(label_);
    assert Removed([FINALIZER], FINALIZER) == [];
    forall k: Key | k.kind.BucketClass? ensures k !in Start(label_).objects {
      NoClasses(label_, k);
    }
  }

  /** With the label it meets the conditions of a whole uninstall, which then takes four passes. */
  lemma StartIsUninstalled(r0: bool, r1: bool, r2: bool, r3: bool) returns (k: Key)
    ensures var c3 := PassRun(SETTINGS, PassRun(SETTINGS, PassRun(SETTINGS, Start(true), r0).0, r1).0, r2).0;
      && SETTINGS.McgKey() !in c3.objects && SETTINGS.NoobaaKey() !in c3.objects && DeployerCSV(SETTINGS, c3, k)
  {
    hide Start, Equipped, LabelIn, StatesIn, SecretsApart, Unhindered, DeployerCSV, PassRun;
    StartIsEquipped(true);
    StartServes(true);
    StartIsReady(true);
    StartIsUnhindered(true);
    k := UninstallCompletes(SETTINGS, Start(true), DEPLOYER, r0, r1, r2, r3);
  }
}
