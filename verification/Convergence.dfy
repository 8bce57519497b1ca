/** The strict arm reaches a fixpoint in two passes. */
module Convergence {
  import opened Utils
  import opened Cluster
  import opened Config
  import opened Desired
  import opened StrictArm
  import opened States

  /** The secrets the operator reads are not the one it writes. */
  predicate SecretsApart(s: Settings) {
    && s.rhobsSecret != RELABEL_SECRET_NAME && s.pagerdutySecret != RELABEL_SECRET_NAME
    && s.deadMansSnitchSecret != RELABEL_SECRET_NAME && s.smtpSecret != RELABEL_SECRET_NAME
    && s.addonParamSecret != RELABEL_SECRET_NAME
  }

  /** The names main.go derives from the name of the addon, whichever it is, are apart. */
  lemma SecretsAreApart(s: Settings, addon: string)
    requires s.rhobsSecret == addon + "-prom-remote-write" && s.pagerdutySecret == addon + "-pagerduty"
    requires s.deadMansSnitchSecret == addon + "-deadmanssnitch" && s.smtpSecret == addon + "-smtp"
    requires s.addonParamSecret == "addon-" + addon + "-parameters"
    ensures SecretsApart(s)
  {
    assert Last(RELABEL_SECRET_NAME) == 't' && RELABEL_SECRET_NAME[0] == 'm';
    assert Last(s.rhobsSecret) == 'e' && Last(s.pagerdutySecret) == 'y' && Last(s.deadMansSnitchSecret) == 'h';
    assert Last(s.smtpSecret) == 'p' && s.addonParamSecret[0] == 'a';
  }

  /** The objects a step may write. */
  predicate MayTouch(s: Settings, step: Step, k: Key) {
    match step
    case Bring(t) => k == KeyOf(s, t)
    case ConsoleStep => k == s.ConsoleClusterKey()
    case OcsStep => k.kind.CSV? && OCS_CSV_PREFIX <= k.name
    case LabelStep => k.kind.PodMonitor? || k.kind.ServiceMonitor? || k.kind.PrometheusRule?
    case ReportStep => k == s.McgKey()
  }

  /** `d` comes from `c` by writing, never removing, objects that `step` may touch, and the step adds at most one. */
  ghost predicate StepFrame(s: Settings, step: Step, c: Cluster, d: Cluster) {
    && WellFormed(d)
    && (forall k :: !MayTouch(s, step, k) ==> SameAt(c, d, k))
    && (forall k :: k in c.objects ==> k in d.objects && (step.ReportStep? || KeepsIdentity(c.objects[k], d.objects[k])))
    && (d.order == c.order || (|d.order| > 0 && d.order[..|d.order| - 1] == c.order && MayTouch(s, step, d.order[|d.order| - 1])))
    && (!step.Bring? && !step.ConsoleStep? ==> d.order == c.order)
  }

  predicate KeepsIdentity(o: Object, p: Object) {
    o.uid == p.uid && o.status == p.status && o.finalizers == p.finalizers && o.deleting == p.deleting
  }

  // One write

  /** `d` is `c` with one object written or added. */
  ghost predicate OneKeyFrame(c: Cluster, d: Cluster, k: Key) {
    && WellFormed(d)
    && (forall j :: j != k ==> SameAt(c, d, j))
    && k in d.objects && (k in c.objects ==> KeepsIdentity(c.objects[k], d.objects[k]))
    && d.order == if k in c.objects then c.order else c.order + [k]
  }

  lemma OneKeyIsStep(s: Settings, step: Step, c: Cluster, d: Cluster, k: Key)
    requires OneKeyFrame(c, d, k) && MayTouch(s, step, k)
    requires k in c.objects || step.Bring? || step.ConsoleStep?
    ensures StepFrame(s, step, c, d)
  {
    forall j | j in c.objects ensures j in d.objects && KeepsIdentity(c.objects[j], d.objects[j]) {
      assert j != k ==> SameAt(c, d, j);
    }
  }

  /** An accepted update of an object read from the store itself. */
  lemma UpdateShape(c: Cluster, k: Key, o: Object)
    requires WellFormed(c) && k in c.objects && KeepsIdentity(o, c.objects[k]) && o.rv == c.objects[k].rv
    ensures var d := Accepted(Exec(c, Update(k, o)));
      && d.Some? && OneKeyFrame(c, d.value, k)
      && d.value.objects[k].(rv := o.rv) == o
      && (o == c.objects[k] ==> d.value == c)
  {
    ExecWellFormed(c, Update(k, o));
  }

  lemma CreateShape(c: Cluster, k: Key, o: Object)
    requires WellFormed(c) && k !in c.objects
    ensures var d := Accepted(Exec(c, Create(k, o)));
      d.Some? ==>
        && OneKeyFrame(c, d.value, k)
        && d.value.objects[k] == o.(uid := c.clock, rv := c.clock, deleting := false)
  {
    ExecWellFormed(c, Create(k, o));
  }

  /** The parts of an object that a mutate function reads and writes. */
  predicate SameContent(o: Object, p: Object) {
    o.labels == p.labels && o.annotations == p.annotations && o.owner == p.owner && o.spec == p.spec
  }

  lemma WantedKeepsIdentity(s: Settings, x: Context, i: Inputs, t: Task, o: Object)
    requires Wanted(s, x, i, t, o).Ok?
    ensures KeepsIdentity(o, Wanted(s, x, i, t, o).value) && Wanted(s, x, i, t, o).value.rv == o.rv
  {
    hide SnitchGroups, NoobaaGroups, RemoteWriteWanted, FilledAll;
  }

  lemma LabelTwice(o: Object, key: string, value: string)
    requires key in o.labels && o.labels[key] == value
    ensures WithLabel(o, key, value) == o
  {
    assert o.labels[key := value] == o.labels;
  }

  lemma AnnotationTwice(o: Object, key: string, value: string)
    requires key in o.annotations && o.annotations[key] == value
    ensures WithAnnotation(o, key, value) == o
  {
    assert o.annotations[key := value] == o.annotations;
  }

  lemma ServiceWantedTwice(uid: nat, o: Object, p: Object)
    requires PrometheusServiceWanted(uid, o).Ok? && SameContent(PrometheusServiceWanted(uid, o).value, p)
    ensures PrometheusServiceWanted(uid, p) == Ok(p)
  {
    AnnotationTwice(p, "service.beta.openshift.io/serving-cert-secret-name", SERVING_CERT_SECRET);
    AnnotationTwice(p, "service.alpha.openshift.io/serving-cert-secret-name", SERVING_CERT_SECRET);
    LabelTwice(p, MON_LABEL_KEY, MON_LABEL_VALUE);
  }

  /** Mutating a second time changes nothing, whatever the API server did to the other parts in between. */
  lemma WantedIdempotent(s: Settings, x: Context, i: Inputs, t: Task, o: Object, p: Object)
    requires !t.ConsoleClusterTask?
    requires Wanted(s, x, i, t, o).Ok? && SameContent(Wanted(s, x, i, t, o).value, p)
    ensures Wanted(s, x, i, t, p) == Ok(p)
  {
    match t {
      case NoobaaTask =>
        if Entry(x.noobaa.annotations, DEFAULT_STORE_ANNOTATION) == "" && i.defaultStore != "" {
          AnnotationTwice(p, DEFAULT_STORE_ANNOTATION, i.defaultStore);
        }
      case PrometheusTask => LabelTwice(p, MON_LABEL_KEY, MON_LABEL_VALUE);
      case AlertmanagerTask => LabelTwice(p, MON_LABEL_KEY, MON_LABEL_VALUE);
      case AlertmanagerConfigTask => LabelTwice(p, MON_LABEL_KEY, MON_LABEL_VALUE);
      case PrometheusServiceTask => ServiceWantedTwice(x.mcg.uid, o, p);
      case _ =>
    }
  }

  /** Writing the outcome of a mutate function on what was there. */
  lemma WrittenShape(s: Settings, t: Task, c: Cluster, o: Object)
    requires WellFormed(c) && Written(c, KeyOf(s, t), o).Some?
    requires KeyOf(s, t) in c.objects ==>
      KeepsIdentity(c.objects[KeyOf(s, t)], o) && o.rv == c.objects[KeyOf(s, t)].rv
    ensures var d := Written(c, KeyOf(s, t), o).value;
      StepFrame(s, Bring(t), c, d) && KeyOf(s, t) in d.objects && SameContent(o, d.objects[KeyOf(s, t)])
  {
    var k := KeyOf(s, t);
    if k in c.objects {
      UpdateShape(c, k, o);
    } else {
      CreateShape(c, k, o);
    }
    OneKeyIsStep(s, Bring(t), c, Written(c, k, o).value, k);
  }

  lemma BroughtShape(s: Settings, x: Context, c: Cluster, t: Task)
    requires WellFormed(c) && Brought(s, x, c, t).Some?
    ensures var d := Brought(s, x, c, t).value;
      && StepFrame(s, Bring(t), c, d) && KeyOf(s, t) in d.objects
      && (!t.ConsoleClusterTask? ==>
            Wanted(s, x, InputsOf(s, c), t, d.objects[KeyOf(s, t)]) == Ok(d.objects[KeyOf(s, t)]))
  {
    var k, i := KeyOf(s, t), InputsOf(s, c);
    var base := Present(x, c, t, k);
    var o := Wanted(s, x, i, t, base).value;
    WantedKeepsIdentity(s, x, i, t, base);
    WrittenShape(s, t, c, o);
    if !t.ConsoleClusterTask? {
      WantedIdempotent(s, x, i, t, base, Brought(s, x, c, t).value.objects[k]);
    }
  }

  // Lists

  lemma {:induction false} SelectAppend(objects: map<Key, Object>, a: seq<Key>, k: Key, kind: Kind, scope: Option<string>)
    requires k.kind != kind
    ensures Select(objects, a + [k], kind, scope) == Select(objects, a, kind, scope)
  {
    if a == [] {
      assert a + [k] == [k];
    } else {
      assert (a + [k])[1..] == a[1..] + [k];
      SelectAppend(objects, a[1..], k, kind, scope);
    }
  }

  lemma {:induction false} SelectAgrees(p: map<Key, Object>, q: map<Key, Object>, order: seq<Key>, kind: Kind,
                                        scope: Option<string>)
    requires forall k: Key :: k.kind == kind ==> (k in p <==> k in q) && (k in p ==> p[k] == q[k])
    ensures Select(p, order, kind, scope) == Select(q, order, kind, scope)
  {
    if order != [] {
      SelectAgrees(p, q, order[1..], kind, scope);
    }
  }

  predicate Writes(step: Step, kind: Kind) {
    match step
    case Bring(t) => KindOf(t) == kind
    case ConsoleStep => kind.Console?
    case OcsStep => kind.CSV?
    case LabelStep => kind.PodMonitor? || kind.ServiceMonitor? || kind.PrometheusRule?
    case ReportStep => kind.ManagedMCG?
  }

  function KindOf(t: Task): Kind {
    match t
    case NoobaaTask => NooBaa
    case ConsoleServiceTask => Service
    case ConsolePluginTask => ConsolePlugin
    case ConsoleClusterTask => Console
    case RBACTask => ConfigMap
    case PrometheusServiceTask => Service
    case ProxyPolicyTask => NetworkPolicy
    case RelabelTask => Secret
    case PrometheusTask => Prometheus
    case AlertmanagerTask => Alertmanager
    case AlertmanagerConfigTask => AlertmanagerConfig
    case DmsTask => PrometheusRule
    case NoobaaRulesTask => PrometheusRule
    case IngressTask => NetworkPolicy
  }

  lemma TouchKind(s: Settings, step: Step, k: Key)
    requires MayTouch(s, step, k)
    ensures Writes(step, k.kind)
  {
  }

  /** A step leaves the lists of all kinds it does not write as they are. */
  lemma ListKept(s: Settings, step: Step, c: Cluster, d: Cluster, kind: Kind, scope: Option<string>)
    requires StepFrame(s, step, c, d) && !Writes(step, kind)
    ensures ListOf(c, kind, scope) == ListOf(d, kind, scope)
  {
    forall k: Key | k.kind == kind ensures SameAt(c, d, k) {
      if MayTouch(s, step, k) {
        TouchKind(s, step, k);
      }
    }
    SelectAgrees(c.objects, d.objects, c.order, kind, scope);
    if d.order != c.order {
      var j := d.order[|d.order| - 1];
      TouchKind(s, step, j);
      SelectAppend(d.objects, c.order, j, kind, scope);
      assert d.order == c.order + [j];
    }
  }

  // The console, the OCS operator and the labels

  /** The key a search by name prefix finds, from the keys alone. */
  function FirstKey(keys: set<Key>, order: seq<Key>, kind: Kind, scope: Option<string>, prefix: string): (r: Option<Key>)
    ensures r.Some? ==> r.value in keys && Matches(r.value, kind, scope) && prefix <= r.value.name
  {
    if order == [] then None
    else if order[0] in keys && Matches(order[0], kind, scope) && prefix <= order[0].name then Some(order[0])
    else FirstKey(keys, order[1..], kind, scope, prefix)
  }

  lemma {:induction false} FirstByKey(p: map<Key, Object>, order: seq<Key>, kind: Kind, scope: Option<string>, prefix: string)
    ensures var k := FirstKey(p.Keys, order, kind, scope, prefix);
      FirstWithPrefix(Select(p, order, kind, scope), prefix) == if k.None? then None else Some(Item(k.value, p[k.value]))
  {
    if order != [] {
      FirstByKey(p, order[1..], kind, scope, prefix);
      var k := order[0];
      if k in p && Matches(k, kind, scope) {
        var rest := Select(p, order[1..], kind, scope);
        assert ([Item(k, p[k])] + rest)[1..] == rest;
      }
    }
  }

  lemma ConsoleShape(s: Settings, x: Context, c: Cluster)
    requires WellFormed(c) && ConsoleBrought(s, x, c).Some?
    ensures var d := ConsoleBrought(s, x, c).value;
      StepFrame(s, ConsoleStep, c, d) && Lists(ListOf(d, Console, None), CONSOLE_NAME)
  {
    hide Brought, WellFormed, Lists, ListOf, StepFrame;
    if Lists(ListOf(c, Console, None), CONSOLE_NAME) {
      NoStep(s, c);
    } else {
      var d := ConsoleBrought(s, x, c).value;
      BroughtShape(s, x, c, ConsoleClusterTask);
      ConsoleFrame(s, c, d);
      ConsoleWritten(s, x, c);
      ListedHere(d, s.ConsoleClusterKey());
    }
  }

  lemma NoStep(s: Settings, c: Cluster)
    requires WellFormed(c)
    ensures StepFrame(s, ConsoleStep, c, c)
  {
  }

  lemma ConsoleFrame(s: Settings, c: Cluster, d: Cluster)
    requires StepFrame(s, Bring(ConsoleClusterTask), c, d)
    ensures StepFrame(s, ConsoleStep, c, d) && WellFormed(d)
  {
    hide WellFormed, KeepsIdentity;
    forall k | !MayTouch(s, ConsoleStep, k) ensures SameAt(c, d, k) {
      assert !MayTouch(s, Bring(ConsoleClusterTask), k);
    }
  }

  lemma ListedHere(d: Cluster, k: Key)
    requires WellFormed(d) && k.kind.Console? && k in d.objects && CONSOLE_NAME in PluginsOf(d.objects[k])
    ensures Lists(ListOf(d, Console, None), CONSOLE_NAME)
  {
    var items := ListOf(d, Console, None);
    SelectExact(d.objects, d.order, Console, None, Item(k, d.objects[k]));
    var i :| 0 <= i < |items| && items[i] == Item(k, d.objects[k]);
  }

  lemma ConsoleWritten(s: Settings, x: Context, c: Cluster)
    requires WellFormed(c) && Brought(s, x, c, ConsoleClusterTask).Some?
    ensures var d, k := Brought(s, x, c, ConsoleClusterTask).value, s.ConsoleClusterKey();
      k in d.objects && PluginsOf(d.objects[k]) == PluginsOf(Present(x, c, ConsoleClusterTask, k)) + [CONSOLE_NAME]
  {
    var k := s.ConsoleClusterKey();
    var o := Wanted(s, x, InputsOf(s, c), ConsoleClusterTask, Present(x, c, ConsoleClusterTask, k)).value;
    WrittenShape(s, ConsoleClusterTask, c, o);
  }

  lemma DownscaledTwice(ds: seq<DeploymentSpec>)
    ensures Downscaled(Downscaled(ds)) == Downscaled(ds)
  {
  }

  lemma SameKeys(s: Settings, step: Step, c: Cluster, d: Cluster)
    requires WellFormed(c) && StepFrame(s, step, c, d) && !step.Bring? && !step.ConsoleStep?
    ensures c.objects.Keys == d.objects.Keys
  {
    forall k ensures k in c.objects <==> k in d.objects {
      assert k in c.order <==> k in d.order;
    }
  }

  /** With NooBaa ready, the first CSV with the OCS prefix has its three deployments at zero replicas. */
  predicate OcsDone(s: Settings, x: Context, c: Cluster) {
    NoobaaIsReady(x) ==>
      match FirstWithPrefix(ListOf(c, CSV, Some(s.namespace)), OCS_CSV_PREFIX)
      case None => false
      case Some(item) => Downscaled(DeploymentsOf(item.obj)) == DeploymentsOf(item.obj)
  }

  lemma OcsShape(s: Settings, x: Context, c: Cluster)
    requires WellFormed(c) && OcsScaled(s, x, c).Some?
    ensures var d := OcsScaled(s, x, c).value;
      StepFrame(s, OcsStep, c, d) && OcsDone(s, x, d)
  {
    if NoobaaIsReady(x) {
      FirstByKey(c.objects, c.order, CSV, Some(s.namespace), OCS_CSV_PREFIX);
      var item := FirstWithPrefix(ListOf(c, CSV, Some(s.namespace)), OCS_CSV_PREFIX).value;
      var ds := DeploymentsOf(item.obj);
      UpdateShape(c, item.key, item.obj.(spec := Deployments(Downscaled(ds))));
      DownscaledTwice(ds);
      var d := OcsScaled(s, x, c).value;
      OneKeyIsStep(s, OcsStep, c, d, item.key);
      SameKeys(s, OcsStep, c, d);
      FirstByKey(d.objects, d.order, CSV, Some(s.namespace), OCS_CSV_PREFIX);
    }
  }

  predicate IsLabelled(k: Key, o: Object) {
    Labelled(Item(k, o)) == o
  }

  ghost predicate AllLabelled(s: Settings, c: Cluster, kind: Kind) {
    forall k :: k in c.objects && k.kind == kind && k.namespace == s.namespace ==> IsLabelled(k, c.objects[k])
  }

  lemma LabelledIsLabelled(item: Item, o: Object)
    requires SameContent(o, Labelled(item))
    ensures IsLabelled(item.key, o)
  {
    if item.key.kind.PrometheusRule? && item.key.name == FOREIGN_RULES_NAME {
    } else {
      LabelTwice(o, MON_LABEL_KEY, MON_LABEL_VALUE);
    }
  }

  /** The listed objects are still the stored ones wherever the version says so. */
  ghost predicate Current(c: Cluster, items: seq<Item>, kind: Kind) {
    forall i :: 0 <= i < |items| ==>
      && items[i].key.kind == kind && items[i].key in c.objects && items[i].obj.rv < c.clock
      && (c.objects[items[i].key].rv == items[i].obj.rv ==> c.objects[items[i].key] == items[i].obj)
  }

  lemma UpdateOne(c: Cluster, item: Item)
    requires WellFormed(c) && item.key in c.objects && item.obj.rv < c.clock
    requires c.objects[item.key].rv == item.obj.rv ==> c.objects[item.key] == item.obj
    requires Accepted(Exec(c, Update(item.key, Labelled(item)))).Some?
    ensures var d := Accepted(Exec(c, Update(item.key, Labelled(item)))).value;
      && WellFormed(d) && d.order == c.order && c.clock <= d.clock
      && (forall j :: j != item.key ==> SameAt(c, d, j))
      && item.key in d.objects && KeepsIdentity(c.objects[item.key], d.objects[item.key])
      && IsLabelled(item.key, d.objects[item.key])
      && (d.objects[item.key] == c.objects[item.key] || d.objects[item.key].rv == c.clock)
  {
    UpdateShape(c, item.key, Labelled(item));
    var d := Accepted(Exec(c, Update(item.key, Labelled(item)))).value;
    LabelledIsLabelled(item, d.objects[item.key]);
    ExecFrame(c, Update(item.key, Labelled(item)), item.key);
    ExecWellFormed(c, Update(item.key, Labelled(item)));
  }

  /** `d` comes from `c` by labelling objects of one kind. */
  ghost predicate LabelFrame(c: Cluster, d: Cluster, kind: Kind) {
    && WellFormed(d) && d.order == c.order
    && (forall k: Key :: k.kind != kind ==> SameAt(c, d, k))
    && (forall k :: k in c.objects <==> k in d.objects)
    && (forall k :: k in c.objects ==> KeepsIdentity(c.objects[k], d.objects[k]))
    && (forall k :: k in c.objects && IsLabelled(k, c.objects[k]) ==> IsLabelled(k, d.objects[k]))
  }

  lemma LabelFrameTransitive(c: Cluster, d: Cluster, e: Cluster, kind: Kind)
    requires LabelFrame(c, d, kind) && LabelFrame(d, e, kind)
    ensures LabelFrame(c, e, kind)
  {
    hide Labelled;
    forall k: Key | k.kind != kind ensures SameAt(c, e, k) {
      assert SameAt(c, d, k) && SameAt(d, e, k);
    }
  }

  /** After all items were updated, each is labelled, and nothing else changed. */
  lemma {:induction false} UpdateAllShape(c: Cluster, items: seq<Item>, kind: Kind)
    requires WellFormed(c) && Current(c, items, kind) && UpdateAll(c, items).Some?
    ensures var d := UpdateAll(c, items).value;
      && LabelFrame(c, d, kind)
      && (forall i :: 0 <= i < |items| ==> items[i].key in d.objects && IsLabelled(items[i].key, d.objects[items[i].key]))
    decreases |items|
  {
    hide Exec, Labelled;
    if items != [] {
      var e := Accepted(Exec(c, Update(items[0].key, Labelled(items[0])))).value;
      OneLabelled(c, items, kind);
      UpdateAllShape(e, items[1..], kind);
      var d := UpdateAll(c, items).value;
      LabelFrameTransitive(c, e, d, kind);
      forall i | 0 <= i < |items| ensures items[i].key in d.objects && IsLabelled(items[i].key, d.objects[items[i].key]) {
        if i > 0 {
          assert items[i] == items[1..][i - 1];
        }
      }
    }
  }

  lemma OneLabelled(c: Cluster, items: seq<Item>, kind: Kind)
    requires WellFormed(c) && Current(c, items, kind) && items != []
    requires Accepted(Exec(c, Update(items[0].key, Labelled(items[0])))).Some?
    ensures var d := Accepted(Exec(c, Update(items[0].key, Labelled(items[0])))).value;
      LabelFrame(c, d, kind) && Current(d, items[1..], kind) && IsLabelled(items[0].key, d.objects[items[0].key])
  {
    hide Exec, Labelled;
    UpdateOne(c, items[0]);
    var d := Accepted(Exec(c, Update(items[0].key, Labelled(items[0])))).value;
    forall k | k in c.objects && k != items[0].key ensures k in d.objects && d.objects[k] == c.objects[k] {
      assert SameAt(c, d, k);
    }
    forall k | k in d.objects && k != items[0].key ensures k in c.objects {
      assert SameAt(c, d, k);
    }
    forall i | 0 <= i < |items[1..]|
      ensures var it := items[1..][i];
        && it.key.kind == kind && it.key in d.objects && it.obj.rv < d.clock
        && (d.objects[it.key].rv == it.obj.rv ==> d.objects[it.key] == it.obj)
    {
      assert items[1..][i] == items[i + 1];
    }
  }

  lemma LabelKindShape(s: Settings, c: Cluster, kind: Kind)
    requires WellFormed(c) && LabelKind(s, c, kind).Some?
    ensures LabelFrame(c, LabelKind(s, c, kind).value, kind) && AllLabelled(s, LabelKind(s, c, kind).value, kind)
  {
    var items := ListOf(c, kind, Some(s.namespace));
    forall i | 0 <= i < |items|
      ensures items[i].key.kind == kind && items[i].key in c.objects && c.objects[items[i].key] == items[i].obj
    {
      SelectExact(c.objects, c.order, kind, Some(s.namespace), items[i]);
    }
    assert Current(c, items, kind);
    UpdateAllShape(c, items, kind);
    var d := LabelKind(s, c, kind).value;
    forall k | k in d.objects && k.kind == kind && k.namespace == s.namespace
      ensures IsLabelled(k, d.objects[k])
    {
      SelectExact(c.objects, c.order, kind, Some(s.namespace), Item(k, c.objects[k]));
      var i :| 0 <= i < |items| && items[i] == Item(k, c.objects[k]);
    }
  }

  lemma LabelledKept(s: Settings, c: Cluster, d: Cluster, kind: Kind, other: Kind)
    requires LabelFrame(c, d, other) && AllLabelled(s, c, kind)
    ensures AllLabelled(s, d, kind)
  {
  }

  ghost predicate LabelsDone(s: Settings, c: Cluster) {
    AllLabelled(s, c, PodMonitor) && AllLabelled(s, c, ServiceMonitor) && AllLabelled(s, c, PrometheusRule)
  }

  lemma LabelShape(s: Settings, c: Cluster)
    requires WellFormed(c) && LabelledAll(s, c).Some?
    ensures StepFrame(s, LabelStep, c, LabelledAll(s, c).value) && LabelsDone(s, LabelledAll(s, c).value)
  {
    LabelKindShape(s, c, PodMonitor);
    var d := LabelKind(s, c, PodMonitor).value;
    LabelKindShape(s, d, ServiceMonitor);
    var e := LabelKind(s, d, ServiceMonitor).value;
    LabelKindShape(s, e, PrometheusRule);
    var f := LabelledAll(s, c).value;
    LabelledKept(s, d, e, PodMonitor, ServiceMonitor);
    LabelledKept(s, e, f, PodMonitor, PrometheusRule);
    LabelledKept(s, e, f, ServiceMonitor, PrometheusRule);
    LabelFrameIsStep(s, c, d, PodMonitor);
    LabelFrameIsStep(s, d, e, ServiceMonitor);
    LabelFrameIsStep(s, e, f, PrometheusRule);
    LabelStepsCompose(s, c, d, e);
    LabelStepsCompose(s, c, e, f);
  }

  lemma LabelFrameIsStep(s: Settings, c: Cluster, d: Cluster, kind: Kind)
    requires LabelFrame(c, d, kind) && Writes(LabelStep, kind)
    ensures StepFrame(s, LabelStep, c, d)
  {
    forall k: Key | !MayTouch(s, LabelStep, k) ensures SameAt(c, d, k) {
      assert k.kind != kind;
    }
  }

  lemma LabelStepsCompose(s: Settings, c: Cluster, d: Cluster, e: Cluster)
    requires StepFrame(s, LabelStep, c, d) && StepFrame(s, LabelStep, d, e)
    ensures StepFrame(s, LabelStep, c, e)
  {
    forall k: Key | !MayTouch(s, LabelStep, k) ensures SameAt(c, e, k) {
      assert SameAt(c, d, k) && SameAt(d, e, k);
    }
  }

  lemma ReportShape(s: Settings, x: Context, c: Cluster)
    requires WellFormed(c) && StepAfter(s, x, c, ReportStep).Some?
    ensures var d := StepAfter(s, x, c, ReportStep).value;
      && StepFrame(s, ReportStep, c, d) && s.McgKey() in c.objects && s.McgKey() in d.objects
      && d.objects[s.McgKey()].(rv := 0) == c.objects[s.McgKey()].(rv := 0, status := x.mcg.status)
  {
    ExecWellFormed(c, UpdateStatus(s.McgKey(), x.mcg));
  }

  // Steps that have nothing left to do

  ghost predicate Settled(s: Settings, x: Context, c: Cluster, step: Step) {
    match step
    case Bring(t) =>
      && KeyOf(s, t) in c.objects
      && Wanted(s, x, InputsOf(s, c), t, c.objects[KeyOf(s, t)]) == Ok(c.objects[KeyOf(s, t)])
    case ConsoleStep => Lists(ListOf(c, Console, None), CONSOLE_NAME)
    case OcsStep => OcsDone(s, x, c)
    case LabelStep => LabelsDone(s, c)
    case ReportStep => s.McgKey() in c.objects && c.objects[s.McgKey()].status == x.mcg.status
  }

  /** A step that went through is settled. */
  lemma StepSettles(s: Settings, x: Context, c: Cluster, step: Step)
    requires WellFormed(c) && StepAfter(s, x, c, step).Some? && step != Bring(ConsoleClusterTask)
    ensures StepFrame(s, step, c, StepAfter(s, x, c, step).value)
    ensures step.Bring? ==> KeyOf(s, step.task) in StepAfter(s, x, c, step).value.objects
    ensures SecretsApart(s) ==> Settled(s, x, StepAfter(s, x, c, step).value, step)
  {
    match step {
      case Bring(t) =>
        BroughtShape(s, x, c, t);
        if SecretsApart(s) {
          InputsKept(s, step, c, StepAfter(s, x, c, step).value);
        }
      case ConsoleStep => ConsoleShape(s, x, c);
      case OcsStep => OcsShape(s, x, c);
      case LabelStep => LabelShape(s, c);
      case ReportStep => ReportShape(s, x, c);
    }
  }

  /** No step writes anything that a mutate function reads besides its own object. */
  lemma InputsKept(s: Settings, step: Step, c: Cluster, d: Cluster)
    requires SecretsApart(s) && WellFormed(c) && StepFrame(s, step, c, d)
    ensures InputsOf(s, c) == InputsOf(s, d)
  {
    ListKept(s, step, c, d, BackingStore, Some(s.namespace));
    ListKept(s, step, c, d, ClusterVersion, None);
    ProxyImageKept(s, step, c, d);
    SecretKept(s, step, c, d, s.rhobsSecret);
    SecretKept(s, step, c, d, s.pagerdutySecret);
    SecretKept(s, step, c, d, s.deadMansSnitchSecret);
    SecretKept(s, step, c, d, s.smtpSecret);
    DeploymentKept(s, step, c, d);
  }

  lemma SecretKept(s: Settings, step: Step, c: Cluster, d: Cluster, name: string)
    requires StepFrame(s, step, c, d) && name != RELABEL_SECRET_NAME
    ensures SecretData(c, s.SecretKey(name)) == SecretData(d, s.SecretKey(name))
  {
    assert SameAt(c, d, s.SecretKey(name));
  }

  lemma DeploymentKept(s: Settings, step: Step, c: Cluster, d: Cluster)
    requires StepFrame(s, step, c, d)
    ensures SameAt(c, d, s.ConsoleDeploymentKey())
  {
  }

  lemma ProxyImageKept(s: Settings, step: Step, c: Cluster, d: Cluster)
    requires WellFormed(c) && StepFrame(s, step, c, d)
    ensures ProxyImage(ListOf(c, CSV, Some(s.namespace))) == ProxyImage(ListOf(d, CSV, Some(s.namespace)))
  {
    if !step.OcsStep? {
      ListKept(s, step, c, d, CSV, Some(s.namespace));
    } else {
      FirstByKey(c.objects, c.order, CSV, Some(s.namespace), DEPLOYER_CSV_PREFIX);
      FirstByKey(d.objects, d.order, CSV, Some(s.namespace), DEPLOYER_CSV_PREFIX);
      SameKeys(s, step, c, d);
      var k := FirstKey(c.objects.Keys, c.order, CSV, Some(s.namespace), DEPLOYER_CSV_PREFIX);
      if k.Some? {
        assert k.value.name[0] == 'm';
        assert SameAt(c, d, k.value);
      }
    }
  }

  /** No step writes what an earlier step of the arm depends on, except that rules are created after the labelling. */
  lemma LaterStepsApart(s: Settings, i: nat, j: nat)
    requires i < j < ARM_LENGTH
    ensures ArmStep(i).Bring? ==> !MayTouch(s, ArmStep(j), KeyOf(s, ArmStep(i).task))
    ensures ArmStep(i).ConsoleStep? ==> !Writes(ArmStep(j), Console)
    ensures ArmStep(i).OcsStep? ==> !Writes(ArmStep(j), CSV)
    ensures ArmStep(i).LabelStep? ==>
      ArmStep(j) == Bring(DmsTask) || ArmStep(j) == Bring(NoobaaRulesTask) || ArmStep(j) == Bring(IngressTask) || ArmStep(j) == ReportStep
    ensures !ArmStep(i).ReportStep?
    ensures ArmStep(j) != Bring(ConsoleClusterTask)
  {
  }

  lemma WantedRuleLabels(s: Settings, x: Context, i: Inputs, t: Task, o: Object)
    requires (t.DmsTask? || t.NoobaaRulesTask?) && Wanted(s, x, i, t, o).Ok?
    ensures Wanted(s, x, i, t, o).value.labels == o.labels
  {
  }

  lemma RuleLabelsKept(s: Settings, x: Context, c: Cluster, t: Task)
    requires WellFormed(c) && (t.DmsTask? || t.NoobaaRulesTask?) && KeyOf(s, t) in c.objects
    requires Brought(s, x, c, t).Some?
    ensures var d := Brought(s, x, c, t).value;
      KeyOf(s, t) in d.objects && d.objects[KeyOf(s, t)].labels == c.objects[KeyOf(s, t)].labels
  {
    var k, i := KeyOf(s, t), InputsOf(s, c);
    assert Present(x, c, t, k) == c.objects[k];
    var o := Wanted(s, x, i, t, c.objects[k]).value;
    WantedKeepsIdentity(s, x, i, t, c.objects[k]);
    WantedRuleLabels(s, x, i, t, c.objects[k]);
    WrittenShape(s, t, c, o);
  }

  lemma LabelledByLabels(k: Key, o: Object, p: Object)
    requires o.labels == p.labels && IsLabelled(k, o)
    ensures IsLabelled(k, p)
  {
    if k.kind.PrometheusRule? && k.name == FOREIGN_RULES_NAME {
      assert Labelled(Item(k, o)).labels == o.labels;
    } else {
      assert MON_LABEL_KEY in o.labels[MON_LABEL_KEY := MON_LABEL_VALUE];
      LabelTwice(p, MON_LABEL_KEY, MON_LABEL_VALUE);
    }
  }

  /** `d` has the labels of `c` on every rule `step` may write. */
  ghost predicate SameLabels(s: Settings, step: Step, c: Cluster, d: Cluster) {
    forall k :: MayTouch(s, step, k) && k.kind.PrometheusRule? ==>
      k in c.objects && k in d.objects && c.objects[k].labels == d.objects[k].labels
  }

  lemma LabelsKept(s: Settings, step: Step, c: Cluster, d: Cluster, kind: Kind)
    requires StepFrame(s, step, c, d) && SameLabels(s, step, c, d) && AllLabelled(s, c, kind)
    requires kind.PrometheusRule? || !Writes(step, kind)
    ensures AllLabelled(s, d, kind)
  {
    forall k | k in d.objects && k.kind == kind && k.namespace == s.namespace ensures IsLabelled(k, d.objects[k]) {
      if MayTouch(s, step, k) {
        TouchKind(s, step, k);
        LabelledByLabels(k, c.objects[k], d.objects[k]);
      } else {
        assert SameAt(c, d, k);
      }
    }
  }

  lemma SameLabelsAfter(s: Settings, x: Context, c: Cluster, step: Step)
    requires WellFormed(c) && StepAfter(s, x, c, step).Some? && RulesExist(s, c)
    requires step == Bring(DmsTask) || step == Bring(NoobaaRulesTask) || step == Bring(IngressTask) || step == ReportStep
    ensures SameLabels(s, step, c, StepAfter(s, x, c, step).value)
  {
    match step {
      case Bring(t) =>
        if t.DmsTask? || t.NoobaaRulesTask? {
          RuleLabelsKept(s, x, c, t);
        }
      case _ =>
    }
  }

  /** What comes after the labelling leaves it done, provided that it creates no rule. */
  lemma LabelsStayDone(s: Settings, step: Step, c: Cluster, d: Cluster)
    requires StepFrame(s, step, c, d) && SameLabels(s, step, c, d) && LabelsDone(s, c)
    requires !step.LabelStep?
    ensures LabelsDone(s, d)
  {
    LabelsKept(s, step, c, d, PodMonitor);
    LabelsKept(s, step, c, d, ServiceMonitor);
    LabelsKept(s, step, c, d, PrometheusRule);
  }

  predicate RulesExist(s: Settings, c: Cluster) {
    s.DmsRuleKey() in c.objects && s.NoobaaRulesKey() in c.objects
  }

  /** What an earlier step of the arm settled, a later one leaves settled. */
  lemma SettledKept(s: Settings, x: Context, c: Cluster, i: nat, j: nat)
    requires WellFormed(c) && SecretsApart(s) && i < j < ARM_LENGTH && StepAfter(s, x, c, ArmStep(j)).Some?
    requires StepFrame(s, ArmStep(j), c, StepAfter(s, x, c, ArmStep(j)).value)
    requires Settled(s, x, c, ArmStep(i))
    requires ArmStep(i).LabelStep? ==> RulesExist(s, c)
    ensures Settled(s, x, StepAfter(s, x, c, ArmStep(j)).value, ArmStep(i))
  {
    var d := StepAfter(s, x, c, ArmStep(j)).value;
    LaterStepsApart(s, i, j);
    match ArmStep(i) {
      case Bring(t) =>
        InputsKept(s, ArmStep(j), c, d);
        assert SameAt(c, d, KeyOf(s, t));
      case ConsoleStep => ListKept(s, ArmStep(j), c, d, Console, None);
      case OcsStep => ListKept(s, ArmStep(j), c, d, CSV, Some(s.namespace));
      case LabelStep =>
        SameLabelsAfter(s, x, c, ArmStep(j));
        LabelsStayDone(s, ArmStep(j), c, d);
      case ReportStep =>
    }
  }

  /** The first `n` steps are settled; the labelling step only if `labelled` says so. */
  ghost predicate SettledUpTo(s: Settings, x: Context, c: Cluster, n: nat, labelled: bool)
    requires n <= ARM_LENGTH
  {
    forall i: nat {:trigger Settled(s, x, c, ArmStep(i))} ::
      i < n && (ArmStep(i).LabelStep? ==> labelled) ==> Settled(s, x, c, ArmStep(i))
  }

  lemma OneMoreSettled(s: Settings, x: Context, c: Cluster, n: nat, labelled: bool)
    requires WellFormed(c) && SecretsApart(s) && n < ARM_LENGTH && StepAfter(s, x, c, ArmStep(n)).Some?
    requires SettledUpTo(s, x, c, n, labelled) && (labelled ==> RulesExist(s, c))
    ensures var d := StepAfter(s, x, c, ArmStep(n)).value;
      StepFrame(s, ArmStep(n), c, d) && SettledUpTo(s, x, d, n + 1, labelled) && (labelled ==> RulesExist(s, d))
  {
    var d := StepAfter(s, x, c, ArmStep(n)).value;
    NoPlainConsole(n);
    StepSettles(s, x, c, ArmStep(n));
    forall i | 0 <= i < n && (ArmStep(i).LabelStep? ==> labelled) ensures Settled(s, x, d, ArmStep(i)) {
      SettledKept(s, x, c, i, n);
    }
  }

  lemma NoPlainConsole(n: nat)
    requires n < ARM_LENGTH
    ensures ArmStep(n) != Bring(ConsoleClusterTask)
  {
  }

  /** In `c`, the first `n` steps are settled. */
  type Progress = (Cluster, nat, bool) -> bool

  ghost function SettledSoFar(s: Settings, x: Context): Progress {
    (c: Cluster, n: nat, labelled: bool) => n <= ARM_LENGTH && SettledUpTo(s, x, c, n, labelled)
  }

  /** Performing step `n` of the arm takes `before`, where `n` steps are settled, to `after`, where one more is. */
  ghost predicate Advances(s: Settings, settled: Progress, before: Cluster, n: nat, labelled: bool, after: Cluster) {
    WellFormed(before) && settled(before, n, labelled) && (labelled ==> RulesExist(s, before)) ==>
      WellFormed(after) && settled(after, n + 1, labelled) && (labelled ==> RulesExist(s, after))
  }

  ghost predicate Settling(s: Settings, f: Stepper, settled: Progress, labelled: bool) {
    forall c: Cluster, n: nat :: n < ARM_LENGTH && f(c, ArmStep(n)).Some? ==>
      Advances(s, settled, c, n, labelled, f(c, ArmStep(n)).value)
  }

  lemma {:induction false} ArmSettlesAny(s: Settings, f: Stepper, settled: Progress, c: Cluster, n: nat, labelled: bool)
    requires Settling(s, f, settled, labelled) && WellFormed(c) && settled(c, 0, labelled)
    requires labelled ==> RulesExist(s, c)
    requires n <= ARM_LENGTH && Arm(f, c, n).Some?
    ensures WellFormed(Arm(f, c, n).value) && settled(Arm(f, c, n).value, n, labelled)
    ensures labelled ==> RulesExist(s, Arm(f, c, n).value)
  {
    if n > 0 {
      var m: nat := n - 1;
      ArmSettlesAny(s, f, settled, c, m, labelled);
      var b := Arm(f, c, m).value;
      assert f(b, ArmStep(m)).Some?;
      assert Advances(s, settled, b, m, labelled, f(b, ArmStep(m)).value);
    }
  }

  lemma StepsSettling(s: Settings, x: Context, labelled: bool)
    requires SecretsApart(s)
    ensures Settling(s, Steps(s, x), SettledSoFar(s, x), labelled)
  {
    forall c: Cluster, n: nat | n < ARM_LENGTH && Steps(s, x)(c, ArmStep(n)).Some?
      ensures Advances(s, SettledSoFar(s, x), c, n, labelled, Steps(s, x)(c, ArmStep(n)).value)
    {
      if WellFormed(c) && SettledUpTo(s, x, c, n, labelled) && (labelled ==> RulesExist(s, c)) {
        OneMoreSettled(s, x, c, n, labelled);
      }
    }
  }

  /** After a successful arm every step is settled; the labelling step only if the rules existed before. */
  lemma ArmSettles(s: Settings, x: Context, c: Cluster)
    requires WellFormed(c) && SecretsApart(s) && ArmAfter(s, x, c).Some?
    ensures WellFormed(ArmAfter(s, x, c).value)
    ensures SettledUpTo(s, x, ArmAfter(s, x, c).value, ARM_LENGTH, RulesExist(s, c))
  {
    StepsSettling(s, x, RulesExist(s, c));
    ArmSettlesAny(s, Steps(s, x), SettledSoFar(s, x), c, ARM_LENGTH, RulesExist(s, c));
  }

  // What a whole arm leaves as it was

  /** Every step of the arm, as `f` performs it, stays within its frame. */
  ghost predicate Framed(s: Settings, f: Stepper) {
    forall c: Cluster, n: nat :: n < ARM_LENGTH && WellFormed(c) && f(c, ArmStep(n)).Some? ==>
      StepFrame(s, ArmStep(n), c, f(c, ArmStep(n)).value)
  }

  lemma StepsFramed(s: Settings, x: Context)
    ensures Framed(s, Steps(s, x))
  {
    forall c: Cluster, n: nat | n < ARM_LENGTH && WellFormed(c) && Steps(s, x)(c, ArmStep(n)).Some?
      ensures StepFrame(s, ArmStep(n), c, Steps(s, x)(c, ArmStep(n)).value)
    {
      NoPlainConsole(n);
      StepSettles(s, x, c, ArmStep(n));
    }
  }

  /** The stores an arm passes through. */
  ghost predicate Chain(s: Settings, f: Stepper, states: seq<Cluster>, n: nat)
    requires n <= ARM_LENGTH
  {
    && |states| == n + 1
    && (forall i :: 0 <= i <= n ==> WellFormed(states[i]))
    && (forall i: nat :: i < n ==> f(states[i], ArmStep(i)) == Some(states[i + 1]))
    && (forall i: nat :: i < n ==> StepFrame(s, ArmStep(i), states[i], states[i + 1]))
  }

  lemma {:induction false} ArmIsChain(s: Settings, f: Stepper, c: Cluster, n: nat) returns (states: seq<Cluster>)
    requires WellFormed(c) && Framed(s, f) && n <= ARM_LENGTH && Arm(f, c, n).Some?
    ensures Chain(s, f, states, n) && states[0] == c && states[n] == Arm(f, c, n).value
  {
    if n == 0 {
      states := [c];
    } else {
      var before := ArmIsChain(s, f, c, n - 1);
      states := before + [Arm(f, c, n).value];
    }
  }

  /** Only writes that keep an object's identity, and none on the ManagedMCG. */
  ghost predicate Kept(s: Settings, c: Cluster, d: Cluster) {
    && (forall k :: k in c.objects ==> k in d.objects && KeepsIdentity(c.objects[k], d.objects[k]))
    && SameAt(c, d, s.McgKey())
  }

  lemma KeptStep(s: Settings, step: Step, c: Cluster, b: Cluster, d: Cluster)
    requires Kept(s, c, b) && StepFrame(s, step, b, d) && !step.ReportStep?
    ensures Kept(s, c, d)
  {
    assert SameAt(b, d, s.McgKey());
  }

  /** All steps but the last, which reports, keep the identity of all objects. */
  lemma {:induction false} ChainKeeps(s: Settings, f: Stepper, states: seq<Cluster>, n: nat, m: nat)
    requires n <= ARM_LENGTH && Chain(s, f, states, n) && m <= n && m < ARM_LENGTH
    ensures Kept(s, states[0], states[m])
  {
    if m > 0 {
      ChainKeeps(s, f, states, n, m - 1);
      LaterStepsApart(s, m - 1, m);
      KeptStep(s, ArmStep(m - 1), states[0], states[m - 1], states[m]);
    }
  }

  lemma SameAtStep(s: Settings, step: Step, c: Cluster, b: Cluster, d: Cluster, k: Key)
    requires SameAt(c, b, k) && StepFrame(s, step, b, d) && !MayTouch(s, step, k)
    ensures SameAt(c, d, k)
  {
  }

  /** From step `i` on, an object that no later step may touch stays as it is. */
  lemma {:induction false} ChainSameAt(s: Settings, f: Stepper, states: seq<Cluster>, n: nat, i: nat, m: nat, k: Key)
    requires n <= ARM_LENGTH && Chain(s, f, states, n) && i <= m <= n
    requires forall j: nat :: i <= j < m ==> !MayTouch(s, ArmStep(j), k)
    ensures SameAt(states[i], states[m], k)
  {
    if i < m {
      ChainSameAt(s, f, states, n, i, m - 1, k);
      SameAtStep(s, ArmStep(m - 1), states[i], states[m - 1], states[m], k);
    }
  }

  lemma NeverTouched(s: Settings, j: nat)
    requires j < ARM_LENGTH
    ensures !MayTouch(s, ArmStep(j), s.PrometheusSetKey()) && !MayTouch(s, ArmStep(j), s.AlertmanagerSetKey())
    ensures !MayTouch(s, ArmStep(j), s.ConsoleDeploymentKey())
    ensures j >= 1 ==> !MayTouch(s, ArmStep(j), s.NoobaaKey())
  {
  }

  lemma ChainSameInputs(s: Settings, f: Stepper, states: seq<Cluster>)
    requires Chain(s, f, states, ARM_LENGTH)
    ensures SameAt(states[0], states[ARM_LENGTH], s.PrometheusSetKey())
    ensures SameAt(states[0], states[ARM_LENGTH], s.AlertmanagerSetKey())
    ensures SameAt(states[0], states[ARM_LENGTH], s.ConsoleDeploymentKey())
    ensures SameAt(states[1], states[ARM_LENGTH], s.NoobaaKey())
  {
    forall j: nat | j < ARM_LENGTH
      ensures !MayTouch(s, ArmStep(j), s.PrometheusSetKey()) && !MayTouch(s, ArmStep(j), s.AlertmanagerSetKey())
      ensures !MayTouch(s, ArmStep(j), s.ConsoleDeploymentKey()) && (j >= 1 ==> !MayTouch(s, ArmStep(j), s.NoobaaKey()))
    {
      NeverTouched(s, j);
    }
    ChainSameAt(s, f, states, ARM_LENGTH, 0, ARM_LENGTH, s.PrometheusSetKey());
    ChainSameAt(s, f, states, ARM_LENGTH, 0, ARM_LENGTH, s.AlertmanagerSetKey());
    ChainSameAt(s, f, states, ARM_LENGTH, 0, ARM_LENGTH, s.ConsoleDeploymentKey());
    ChainSameAt(s, f, states, ARM_LENGTH, 1, ARM_LENGTH, s.NoobaaKey());
  }

  lemma NoobaaStepKeepsAnnotation(s: Settings, x: Context, c: Cluster)
    requires WellFormed(c) && Brought(s, x, c, NoobaaTask).Some? && s.NoobaaKey() in c.objects
    requires Entry(x.noobaa.annotations, DEFAULT_STORE_ANNOTATION) != ""
    ensures var d := Brought(s, x, c, NoobaaTask).value;
      s.NoobaaKey() in d.objects && d.objects[s.NoobaaKey()].annotations == c.objects[s.NoobaaKey()].annotations
  {
    var o := NoobaaWanted(x.noobaa.annotations, InputsOf(s, c).defaultStore, c.objects[s.NoobaaKey()]);
    WrittenShape(s, NoobaaTask, c, o);
  }

  /** What a whole successful arm leaves as it was. */
  ghost predicate ArmPreserves(s: Settings, x: Context, c: Cluster, d: Cluster) {
    && WellFormed(d)
    && (forall k :: k in c.objects ==> k in d.objects && (k != s.McgKey() ==> KeepsIdentity(c.objects[k], d.objects[k])))
    && SameAt(c, d, s.PrometheusSetKey()) && SameAt(c, d, s.AlertmanagerSetKey()) && SameAt(c, d, s.ConsoleDeploymentKey())
    && (s.NoobaaKey() in c.objects && Entry(x.noobaa.annotations, DEFAULT_STORE_ANNOTATION) != "" ==>
          d.objects[s.NoobaaKey()].annotations == c.objects[s.NoobaaKey()].annotations)
    && s.McgKey() in c.objects && s.McgKey() in d.objects
    && d.objects[s.McgKey()].(rv := 0) == c.objects[s.McgKey()].(rv := 0, status := x.mcg.status)
  }

  lemma ReportedLast(s: Settings, c: Cluster, b: Cluster, d: Cluster)
    requires Kept(s, c, b) && StepFrame(s, ReportStep, b, d)
    ensures forall k :: k in c.objects ==> k in d.objects && (k != s.McgKey() ==> KeepsIdentity(c.objects[k], d.objects[k]))
  {
    forall k | k in c.objects ensures k in d.objects && (k != s.McgKey() ==> KeepsIdentity(c.objects[k], d.objects[k])) {
      assert k != s.McgKey() ==> SameAt(b, d, k);
    }
  }

  lemma FirstStep(s: Settings, x: Context, c: Cluster, d: Cluster)
    requires WellFormed(c) && Steps(s, x)(c, Bring(NoobaaTask)) == Some(d) && s.NoobaaKey() in c.objects
    requires Entry(x.noobaa.annotations, DEFAULT_STORE_ANNOTATION) != ""
    ensures s.NoobaaKey() in d.objects && d.objects[s.NoobaaKey()].annotations == c.objects[s.NoobaaKey()].annotations
  {
    NoobaaStepKeepsAnnotation(s, x, c);
  }

  lemma LastStep(s: Settings, x: Context, b: Cluster, d: Cluster)
    requires WellFormed(b) && Steps(s, x)(b, ReportStep) == Some(d)
    ensures s.McgKey() in b.objects && s.McgKey() in d.objects
    ensures d.objects[s.McgKey()].(rv := 0) == b.objects[s.McgKey()].(rv := 0, status := x.mcg.status)
  {
    ReportShape(s, x, b);
  }

  /** The first store after `c`, the last one before the report, and what happened in between. */
  lemma ArmEnds(s: Settings, f: Stepper, c: Cluster) returns (first: Cluster, last: Cluster)
    requires WellFormed(c) && Framed(s, f) && Arm(f, c, ARM_LENGTH).Some?
    ensures var d := Arm(f, c, ARM_LENGTH).value;
      && WellFormed(last) && WellFormed(d)
      && f(c, Bring(NoobaaTask)) == Some(first) && f(last, ReportStep) == Some(d)
      && SameAt(c, d, s.PrometheusSetKey()) && SameAt(c, d, s.AlertmanagerSetKey())
      && SameAt(c, d, s.ConsoleDeploymentKey()) && SameAt(first, d, s.NoobaaKey())
      && Kept(s, c, last) && StepFrame(s, ReportStep, last, d)
  {
    hide StepFrame, MayTouch, KeepsIdentity, WellFormed;
    var states := ArmIsChain(s, f, c, ARM_LENGTH);
    var d := Arm(f, c, ARM_LENGTH).value;
    assert SameAt(c, d, s.PrometheusSetKey()) && SameAt(c, d, s.AlertmanagerSetKey())
           && SameAt(c, d, s.ConsoleDeploymentKey()) && SameAt(states[1], d, s.NoobaaKey()) by {
      ChainSameInputs(s, f, states);
    }
    ChainKeeps(s, f, states, ARM_LENGTH, ARM_LENGTH - 1);
    first, last := states[1], states[ARM_LENGTH - 1];
    assert f(states[0], ArmStep(0)) == Some(states[1]);
    assert f(states[ARM_LENGTH - 1], ArmStep(ARM_LENGTH - 1)) == Some(states[ARM_LENGTH]);
  }

  lemma ArmKeepsMuch(s: Settings, x: Context, c: Cluster)
    requires WellFormed(c) && ArmAfter(s, x, c).Some?
    ensures ArmPreserves(s, x, c, ArmAfter(s, x, c).value)
  {
    hide StepAfter, Framed, MayTouch, KeepsIdentity, Exec, WellFormed;
    StepsFramed(s, x);
    var first, last := ArmEnds(s, Steps(s, x), c);
    var d := ArmAfter(s, x, c).value;
    if s.NoobaaKey() in c.objects && Entry(x.noobaa.annotations, DEFAULT_STORE_ANNOTATION) != "" {
      FirstStep(s, x, c, first);
    }
    LastStep(s, x, last, d);
    ReportedLast(s, c, last, d);
  }

  // The fixpoint

  lemma {:induction false} UpdateAllFixed(c: Cluster, items: seq<Item>)
    requires forall i :: 0 <= i < |items| ==>
      items[i].key in c.objects && c.objects[items[i].key] == items[i].obj && Labelled(items[i]) == items[i].obj
    ensures UpdateAll(c, items) == Some(c)
    decreases |items|
  {
    if items != [] {
      assert Accepted(Exec(c, Update(items[0].key, Labelled(items[0])))) == Some(c);
      UpdateAllFixed(c, items[1..]);
    }
  }

  lemma LabelKindFixed(s: Settings, c: Cluster, kind: Kind)
    requires WellFormed(c) && AllLabelled(s, c, kind)
    ensures LabelKind(s, c, kind) == Some(c)
  {
    var items := ListOf(c, kind, Some(s.namespace));
    forall i | 0 <= i < |items|
      ensures items[i].key in c.objects && c.objects[items[i].key] == items[i].obj && Labelled(items[i]) == items[i].obj
    {
      SelectExact(c.objects, c.order, kind, Some(s.namespace), items[i]);
      assert IsLabelled(items[i].key, c.objects[items[i].key]);
    }
    UpdateAllFixed(c, items);
  }

  /** A settled step, taken again, changes nothing at all. */
  lemma SettledIsFixed(s: Settings, x: Context, c: Cluster, step: Step)
    requires WellFormed(c) && Settled(s, x, c, step)
    requires step.ReportStep? ==> x.mcg.rv == c.objects[s.McgKey()].rv
    ensures StepAfter(s, x, c, step) == Some(c)
  {
    match step {
      case Bring(t) =>
      case ConsoleStep =>
      case OcsStep =>
      case LabelStep =>
        LabelKindFixed(s, c, PodMonitor);
        LabelKindFixed(s, c, ServiceMonitor);
        LabelKindFixed(s, c, PrometheusRule);
      case ReportStep =>
    }
  }

  lemma {:induction false} ArmFixed(f: Stepper, c: Cluster, n: nat)
    requires n <= ARM_LENGTH
    requires forall i: nat :: i < n ==> f(c, ArmStep(i)) == Some(c)
    ensures Arm(f, c, n) == Some(c)
  {
    if n > 0 {
      ArmFixed(f, c, n - 1);
    }
  }

  /** The parts of a context that mutate functions depend on, NooBaa's aside. */
  lemma WantedDependsOn(s: Settings, x: Context, y: Context, i: Inputs, t: Task, o: Object)
    requires !t.NoobaaTask? && x.mcg.uid == y.mcg.uid && x.params == y.params
    ensures Wanted(s, x, i, t, o) == Wanted(s, y, i, t, o)
  {
  }

  /** NooBaa stays settled for the next pass, which sees the annotation that this pass left. */
  lemma NoobaaSettledNext(s: Settings, x: Context, y: Context, c: Cluster)
    requires Settled(s, x, c, Bring(NoobaaTask)) && y.noobaa == c.objects[s.NoobaaKey()]
    requires Entry(x.noobaa.annotations, DEFAULT_STORE_ANNOTATION) != "" ==> y.noobaa.annotations == x.noobaa.annotations
    ensures Settled(s, y, c, Bring(NoobaaTask))
  {
    var o, d := c.objects[s.NoobaaKey()], InputsOf(s, c).defaultStore;
    assert NoobaaWanted(x.noobaa.annotations, d, o) == o;
    if Entry(x.noobaa.annotations, DEFAULT_STORE_ANNOTATION) == "" && d != "" {
      assert o.annotations == WithAnnotation(o, DEFAULT_STORE_ANNOTATION, d).annotations;
      assert Entry(o.annotations, DEFAULT_STORE_ANNOTATION) == d;
    }
  }

  /** What one successful pass leaves, as far as the reported component states depend on it. */
  predicate Established(s: Settings, c: Cluster) {
    && s.NoobaaKey() in c.objects && s.ConsolePluginKey() in c.objects
    && s.PrometheusKey() in c.objects && DesiredReplicas(c.objects[s.PrometheusKey()]) == 1
    && s.AlertmanagerKey() in c.objects && DesiredReplicas(c.objects[s.AlertmanagerKey()]) == 1
    && RulesExist(s, c)
  }

  lemma SettledPrometheus(s: Settings, x: Context, c: Cluster)
    requires Settled(s, x, c, Bring(PrometheusTask))
    ensures s.PrometheusKey() in c.objects && DesiredReplicas(c.objects[s.PrometheusKey()]) == 1
  {
    var o := c.objects[s.PrometheusKey()];
    assert PrometheusWanted(s, x.mcg.uid, InputsOf(s, c), o).value.spec == o.spec;
  }

  lemma SettledAlertmanager(s: Settings, x: Context, c: Cluster)
    requires Settled(s, x, c, Bring(AlertmanagerTask))
    ensures s.AlertmanagerKey() in c.objects && DesiredReplicas(c.objects[s.AlertmanagerKey()]) == 1
  {
    var o := c.objects[s.AlertmanagerKey()];
    assert AlertmanagerWanted(x.mcg.uid, o).value.spec == o.spec;
  }

  lemma TaskSettled(s: Settings, x: Context, c: Cluster, labelled: bool, n: nat, t: Task)
    requires n < ARM_LENGTH && SettledUpTo(s, x, c, ARM_LENGTH, labelled) && ArmStep(n) == Bring(t)
    ensures KeyOf(s, t) in c.objects
  {
    assert Settled(s, x, c, ArmStep(n));
  }

  lemma MonitorsSettled(s: Settings, x: Context, c: Cluster, labelled: bool)
    requires SettledUpTo(s, x, c, ARM_LENGTH, labelled)
    ensures s.PrometheusKey() in c.objects && DesiredReplicas(c.objects[s.PrometheusKey()]) == 1
    ensures s.AlertmanagerKey() in c.objects && DesiredReplicas(c.objects[s.AlertmanagerKey()]) == 1
  {
    assert Settled(s, x, c, ArmStep(9));
    SettledPrometheus(s, x, c);
    assert Settled(s, x, c, ArmStep(10));
    SettledAlertmanager(s, x, c);
  }

  lemma SettledEstablishes(s: Settings, x: Context, c: Cluster, labelled: bool)
    requires SettledUpTo(s, x, c, ARM_LENGTH, labelled)
    ensures Established(s, c)
  {
    TaskSettled(s, x, c, labelled, 0, NoobaaTask);
    TaskSettled(s, x, c, labelled, 2, ConsolePluginTask);
    MonitorsSettled(s, x, c, labelled);
    TaskSettled(s, x, c, labelled, 13, DmsTask);
    TaskSettled(s, x, c, labelled, 14, NoobaaRulesTask);
  }

  lemma SameStates(s: Settings, x: Context, c: Cluster, d: Cluster)
    requires ArmPreserves(s, x, c, d) && Established(s, c) && Established(s, d)
    ensures StatesIn(s, c) == StatesIn(s, d)
  {
    assert KeepsIdentity(c.objects[s.NoobaaKey()], d.objects[s.NoobaaKey()]);
  }

  /** The next pass over a settled store finds each step settled. */
  lemma SettledNext(s: Settings, c: Cluster, d: Cluster, params: map<string, string>, n: nat)
    requires WellFormed(c) && WellFormed(d) && s.McgKey() in c.objects && s.McgKey() in d.objects && n < ARM_LENGTH
    requires ArmPreserves(s, ContextAt(s, c, params), c, d) && Established(s, c) && Established(s, d)
    requires Settled(s, ContextAt(s, c, params), d, ArmStep(n))
    ensures Settled(s, ContextAt(s, d, params), d, ArmStep(n))
  {
    var x, y := ContextAt(s, c, params), ContextAt(s, d, params);
    SameStates(s, x, c, d);
    match ArmStep(n) {
      case Bring(t) =>
        if t.NoobaaTask? {
          NoobaaSettledNext(s, x, y, d);
        } else {
          WantedDependsOn(s, x, y, InputsOf(s, d), t, d.objects[KeyOf(s, t)]);
        }
      case _ =>
    }
  }

  /**
   Convergence: after a successful pass from any store, with whatever that pass remembered, and a second successful
   pass, a third pass changes no stored object, the reported status included.
   */
  lemma StrictArmConverges(s: Settings, c0: Cluster, x0: Context, params: map<string, string>)
    requires WellFormed(c0) && SecretsApart(s) && ArmAfter(s, x0, c0).Some?
    ensures var c1 := ArmAfter(s, x0, c0).value;
      && s.McgKey() in c1.objects
      && (var second := ArmAfter(s, ContextAt(s, c1, params), c1);
          second.Some? ==>
            && s.McgKey() in second.value.objects
            && ArmAfter(s, ContextAt(s, second.value, params), second.value) == second)
  {
    var c1 := ArmAfter(s, x0, c0).value;
    ArmSettles(s, x0, c0);
    ArmKeepsMuch(s, x0, c0);
    SettledEstablishes(s, x0, c1, RulesExist(s, c0));
    var x1 := ContextAt(s, c1, params);
    if ArmAfter(s, x1, c1).Some? {
      ThirdPassIsIdle(s, c1, params);
    }
  }

  lemma ThirdPassIsIdle(s: Settings, c: Cluster, params: map<string, string>)
    requires WellFormed(c) && SecretsApart(s) && Established(s, c) && s.McgKey() in c.objects
    requires ArmAfter(s, ContextAt(s, c, params), c).Some?
    ensures var d := ArmAfter(s, ContextAt(s, c, params), c).value;
      s.McgKey() in d.objects && ArmAfter(s, ContextAt(s, d, params), d) == Some(d)
  {
    var x := ContextAt(s, c, params);
    var d := ArmAfter(s, x, c).value;
    ArmSettles(s, x, c);
    ArmKeepsMuch(s, x, c);
    SettledEstablishes(s, x, d, true);
    var y := ContextAt(s, d, params);
    forall i: nat | i < ARM_LENGTH ensures Steps(s, y)(d, ArmStep(i)) == Some(d) {
      assert Settled(s, x, d, ArmStep(i));
      SettledNext(s, c, d, params, i);
      SettledIsFixed(s, y, d, ArmStep(i));
    }
    ArmFixed(Steps(s, y), d, ARM_LENGTH);
  }

  // One pass is not enough

  /** The steps that bring the two rules of the operator up to date. */
  predicate RuleStep(n: nat) {
    n == 13 || n == 14
  }

  function RuleKey(s: Settings, n: nat): Key
    requires RuleStep(n)
  {
    KeyOf(s, ArmStep(n).task)
  }

  lemma RuleCreatedBare(s: Settings, x: Context, c: Cluster, d: Cluster, n: nat)
    requires RuleStep(n) && WellFormed(c) && RuleKey(s, n) !in c.objects && Steps(s, x)(c, ArmStep(n)) == Some(d)
    ensures RuleKey(s, n) in d.objects && d.objects[RuleKey(s, n)].labels == map[]
  {
    var t := ArmStep(n).task;
    assert (t.DmsTask? || t.NoobaaRulesTask?) && Base(x, t) == NEW_OBJECT;
    hide InputsOf, ArmStep, KeyOf, WellFormed, Base;
    var o := Wanted(s, x, InputsOf(s, c), t, Base(x, t)).value;
    WantedRuleLabels(s, x, InputsOf(s, c), t, Base(x, t));
    WrittenShape(s, t, c, o);
  }

  lemma OnlyOneStepWritesRule(s: Settings, n: nat, j: nat)
    requires RuleStep(n) && j < ARM_LENGTH && j != 12 && j != n
    ensures !MayTouch(s, ArmStep(j), RuleKey(s, n))
  {
  }

  lemma LabellingCreatesNothing(s: Settings, c: Cluster, d: Cluster, k: Key)
    requires WellFormed(c) && StepFrame(s, LabelStep, c, d)
    ensures k in c.objects <==> k in d.objects
  {
    SameKeys(s, LabelStep, c, d);
  }

  lemma RuleUntilCreated(s: Settings, f: Stepper, states: seq<Cluster>, n: nat)
    requires RuleStep(n) && Chain(s, f, states, ARM_LENGTH) && RuleKey(s, n) !in states[0].objects
    ensures RuleKey(s, n) !in states[n].objects
  {
    var k := RuleKey(s, n);
    forall j: nat | j < n && j != 12 ensures !MayTouch(s, ArmStep(j), k) {
      OnlyOneStepWritesRule(s, n, j);
    }
    ChainSameAt(s, f, states, ARM_LENGTH, 0, 12, k);
    assert StepFrame(s, ArmStep(12), states[12], states[13]);
    LabellingCreatesNothing(s, states[12], states[13], k);
    ChainSameAt(s, f, states, ARM_LENGTH, 13, n, k);
  }

  lemma RuleAfterArm(s: Settings, f: Stepper, c: Cluster, n: nat) returns (before: Cluster, after: Cluster)
    requires RuleStep(n) && WellFormed(c) && Framed(s, f) && Arm(f, c, ARM_LENGTH).Some? && RuleKey(s, n) !in c.objects
    ensures WellFormed(before) && RuleKey(s, n) !in before.objects && f(before, ArmStep(n)) == Some(after)
    ensures SameAt(after, Arm(f, c, ARM_LENGTH).value, RuleKey(s, n))
  {
    var states := ArmIsChain(s, f, c, ARM_LENGTH);
    RuleUntilCreated(s, f, states, n);
    assert SameAt(states[n + 1], states[ARM_LENGTH], RuleKey(s, n)) by {
      forall j: nat | n + 1 <= j < ARM_LENGTH ensures !MayTouch(s, ArmStep(j), RuleKey(s, n)) {
        OnlyOneStepWritesRule(s, n, j);
      }
      ChainSameAt(s, f, states, ARM_LENGTH, n + 1, ARM_LENGTH, RuleKey(s, n));
    }
    before, after := states[n], states[n + 1];
    assert f(states[n], ArmStep(n)) == Some(states[n + 1]);
  }

  /** A rule that a pass creates is left without the monitoring label, since rules are created after the labelling. */
  lemma FirstPassLeavesBareRule(s: Settings, c: Cluster, x: Context, n: nat)
    requires RuleStep(n) && WellFormed(c) && ArmAfter(s, x, c).Some? && RuleKey(s, n) !in c.objects
    ensures var d := ArmAfter(s, x, c).value;
      RuleKey(s, n) in d.objects && d.objects[RuleKey(s, n)].labels == map[]
  {
    StepsFramed(s, x);
    var before, after := RuleAfterArm(s, Steps(s, x), c, n);
    RuleCreatedBare(s, x, before, after, n);
  }

  lemma PassEstablishes(s: Settings, c: Cluster, x: Context)
    requires WellFormed(c) && SecretsApart(s) && ArmAfter(s, x, c).Some?
    ensures WellFormed(ArmAfter(s, x, c).value) && Established(s, ArmAfter(s, x, c).value)
    ensures s.McgKey() in ArmAfter(s, x, c).value.objects
  {
    ArmSettles(s, x, c);
    ArmKeepsMuch(s, x, c);
    SettledEstablishes(s, x, ArmAfter(s, x, c).value, RulesExist(s, c));
  }

  lemma PassLabels(s: Settings, c: Cluster, x: Context)
    requires WellFormed(c) && SecretsApart(s) && ArmAfter(s, x, c).Some? && RulesExist(s, c)
    ensures LabelsDone(s, ArmAfter(s, x, c).value)
  {
    hide ArmAfter, Arm, StepAfter, WellFormed, SecretsApart, RulesExist, LabelsDone, Wanted, OcsDone, Lists;
    ArmSettles(s, x, c);
    assert Settled(s, x, ArmAfter(s, x, c).value, ArmStep(12));
  }

  lemma LabelsDoneOnRule(s: Settings, c: Cluster, n: nat)
    requires RuleStep(n) && LabelsDone(s, c) && RuleKey(s, n) in c.objects
    ensures MON_LABEL_KEY in c.objects[RuleKey(s, n)].labels
  {
    var k := RuleKey(s, n);
    assert IsLabelled(k, c.objects[k]);
    assert MON_LABEL_KEY in Monitored(c.objects[k]).labels;
  }

  /** A successful pass leaves the labelling complete exactly if both rules of the operator existed before it. */
  lemma PassLabelsIff(s: Settings, c: Cluster, x: Context)
    requires WellFormed(c) && SecretsApart(s) && ArmAfter(s, x, c).Some?
    ensures LabelsDone(s, ArmAfter(s, x, c).value) <==> RulesExist(s, c)
  {
    var d := ArmAfter(s, x, c).value;
    hide ArmAfter, LabelsDone, WellFormed, SecretsApart;
    if RulesExist(s, c) {
      PassLabels(s, c, x);
    } else {
      var n: nat := if s.DmsRuleKey() !in c.objects then 13 else 14;
      FirstPassLeavesBareRule(s, c, x, n);
      if LabelsDone(s, d) {
        LabelsDoneOnRule(s, d, n);
      }
    }
  }

  /**
   From a store that lacks one of the rules of the operator, one successful pass leaves the labelling incomplete; so a
   second successful pass always changes the store again, and completes it.
   */
  lemma OnePassIsNotEnough(s: Settings, c0: Cluster, x0: Context, params: map<string, string>)
    requires WellFormed(c0) && SecretsApart(s) && ArmAfter(s, x0, c0).Some? && !RulesExist(s, c0)
    ensures var c1 := ArmAfter(s, x0, c0).value;
      && !LabelsDone(s, c1) && s.McgKey() in c1.objects
      && (var second := ArmAfter(s, ContextAt(s, c1, params), c1);
          second.Some? ==> second.value != c1 && LabelsDone(s, second.value))
  {
    PassLabelsIff(s, c0, x0);
    PassEstablishes(s, c0, x0);
    var c1 := ArmAfter(s, x0, c0).value;
    var x1 := ContextAt(s, c1, params);
    hide ArmAfter, LabelsDone, ContextAt;
    if ArmAfter(s, x1, c1).Some? {
      PassLabelsIff(s, c1, x1);
    }
  }
}
