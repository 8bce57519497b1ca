/** The API server: a store of objects and the exact effect of every request on it. */
module Cluster {
  import opened Utils

  datatype Kind =
    | ManagedMCG | NooBaa | BucketClass | BackingStore | NamespaceStore | ObjectBucketClaim
    | CSV | ConfigMap | Secret | Service | NetworkPolicy | Deployment | StatefulSet
    | Prometheus | Alertmanager | AlertmanagerConfig | PrometheusRule | PodMonitor | ServiceMonitor
    | Console | ConsolePlugin | ClusterVersion

  predicate Namespaced(kind: Kind) {
    !kind.Console? && !kind.ConsolePlugin? && !kind.ClusterVersion?
  }

  datatype Key = Key(kind: Kind, namespace: string, name: string)

  datatype Container = Container(name: string, image: string)
  datatype DeploymentSpec = DeploymentSpec(name: string, replicas: int, containers: seq<Container>)
  datatype Rule = Rule(alert: string, labels: map<string, string>)
  datatype RuleGroup = RuleGroup(name: string, rules: seq<Rule>)
  datatype RemoteWrite = RemoteWrite(url: string, secretName: string, idKey: string, secretKey: string, tokenURL: string,
                                     audience: string)
  datatype Receiver =
    | NullReceiver(name: string)
    | PagerDuty(name: string, secretName: string, key: string, sop: string)
    | Webhook(name: string, url: string)
    | Email(name: string, smarthost: (string, string), username: string, passwordSecret: string, passwordKey: string,
            from: string, to: string, html: string)

  /** Contents of an object. `Fixed` stands for content copied unchanged from a named template. */
  datatype Spec =
    | Blank
    | Strategy(strategy: string)
    | Data(data: map<string, string>)
    | Fixed(template: string)
    | Replicated(replicas: Option<int>)
    | Deployments(deployments: seq<DeploymentSpec>)
    | Plugins(plugins: seq<string>)
    | Metrics(promReplicas: Option<int>, proxyImage: string, alertNamespace: string, relabelSecret: string,
              remoteWrite: Option<RemoteWrite>)
    | Receivers(receivers: seq<Receiver>)
    | Rules(groups: seq<RuleGroup>)
    | Version(clusterID: string)
    | Claim(bucketName: string, storageClass: string, generateName: string, bucketClass: string)

  datatype ComponentState = Ready | Pending | Missing | Unknown | Unset
  datatype Components = Components(noobaa: ComponentState, prometheus: ComponentState,
                                   alertmanager: ComponentState, console: ComponentState)
  const NO_COMPONENTS := Components(Unset, Unset, Unset, Unset)

  datatype Status = Status(phase: string, readyReplicas: int, components: Components, strategy: string)
  const NO_STATUS := Status("", 0, NO_COMPONENTS, "")

  /** `uid` and `rv` are 0 in an object that was never stored; `owner` is the uid of the controller owner. */
  datatype Object = Object(uid: nat, rv: nat, finalizers: seq<string>, deleting: bool,
                           labels: map<string, string>, annotations: map<string, string>,
                           owner: Option<nat>, spec: Spec, status: Status)
  const NEW_OBJECT := Object(0, 0, [], false, map[], map[], None, Blank, NO_STATUS)

  datatype Item = Item(key: Key, obj: Object)

  datatype Request =
    | Get(key: Key)
    | List(kind: Kind, scope: Option<string>)
    | Create(key: Key, obj: Object)
    | Update(key: Key, obj: Object)
    | UpdateStatus(key: Key, obj: Object)
    | Delete(key: Key)

  datatype Response =
    | Found(obj: Object)
    | Items(items: seq<Item>)
    | Stored(obj: Object)
    | Done
    | NotFound | AlreadyExists | Conflict | Invalid | Failure

  /** `order` lists the stored keys in the order a list request returns them; `clock` is the next fresh number. */
  datatype Cluster = Cluster(objects: map<Key, Object>, order: seq<Key>, clock: nat)

  ghost predicate WellFormed(c: Cluster) {
    && 0 < c.clock
    && (forall k :: k in c.order <==> k in c.objects)
    && (forall k :: k in c.objects ==> 0 < c.objects[k].rv < c.clock && 0 < c.objects[k].uid < c.clock)
    && (forall k :: k in c.objects && c.objects[k].deleting ==> c.objects[k].finalizers != [])
  }

  function Without(order: seq<Key>, key: Key): (r: seq<Key>)
    ensures forall k :: k in r <==> k in order && k != key
  {
    if order == [] then []
    else if order[0] == key then Without(order[1..], key)
    else [order[0]] + Without(order[1..], key)
  }

  /** Stores `obj` under `key` with a fresh resource version. */
  function Put(c: Cluster, key: Key, obj: Object): Cluster {
    Cluster(c.objects[key := obj.(rv := c.clock)],
            if key in c.objects then c.order else c.order + [key],
            c.clock + 1)
  }

  function Drop(c: Cluster, key: Key): Cluster {
    Cluster(c.objects - {key}, Without(c.order, key), c.clock + 1)
  }

  predicate Matches(key: Key, kind: Kind, scope: Option<string>) {
    key.kind == kind && (scope.Some? ==> key.namespace == scope.value)
  }

  function Select(objects: map<Key, Object>, order: seq<Key>, kind: Kind, scope: Option<string>): seq<Item> {
    if order == [] then []
    else
      var rest := Select(objects, order[1..], kind, scope);
      if order[0] in objects && Matches(order[0], kind, scope)
      then [Item(order[0], objects[order[0]])] + rest
      else rest
  }

  function ListOf(c: Cluster, kind: Kind, scope: Option<string>): seq<Item> {
    Select(c.objects, c.order, kind, scope)
  }

  /** A list holds exactly the stored objects of its kind and scope, each as it is stored. */
  lemma {:induction false} SelectExact(objects: map<Key, Object>, order: seq<Key>, kind: Kind, scope: Option<string>,
                                       item: Item)
    ensures item in Select(objects, order, kind, scope) <==>
            && item.key in order && item.key in objects
            && Matches(item.key, kind, scope) && objects[item.key] == item.obj
  {
    if order != [] {
      SelectExact(objects, order[1..], kind, scope, item);
    }
  }

  /** The two stores have the same object under `k`, or both have none. */
  ghost predicate SameAt(c: Cluster, d: Cluster, k: Key) {
    (k in c.objects <==> k in d.objects) && (k in c.objects ==> c.objects[k] == d.objects[k])
  }

  /** The store after `req` was served, and the reply. */
  function Exec(c: Cluster, req: Request): (Cluster, Response) {
    match req
    case Get(k) => (c, if k in c.objects then Found(c.objects[k]) else NotFound)
    case List(kind, scope) => (c, Items(ListOf(c, kind, scope)))
    case Create(k, o) =>
      if k in c.objects then (c, AlreadyExists)
      else if o.rv != 0 || (Namespaced(k.kind) && k.namespace == "") then (c, Invalid)
      else
        var stored := o.(uid := c.clock, deleting := false);
        (Put(c, k, stored), Stored(stored.(rv := c.clock)))
    case Update(k, o) =>
      if k !in c.objects then (c, NotFound)
      else
        var cur := c.objects[k];
        var new_ := o.(uid := cur.uid, deleting := cur.deleting, status := cur.status);
        if o.rv != cur.rv then (c, Conflict)
        else if new_ == cur then (c, Stored(cur))
        else if cur.deleting && o.finalizers == [] then (Drop(c, k), Stored(new_))
        else (Put(c, k, new_), Stored(new_.(rv := c.clock)))
    case UpdateStatus(k, o) =>
      if k !in c.objects then (c, NotFound)
      else
        var cur := c.objects[k];
        var new_ := cur.(status := o.status);
        if o.rv != cur.rv then (c, Conflict)
        else if new_ == cur then (c, Stored(cur))
        else (Put(c, k, new_), Stored(new_.(rv := c.clock)))
    case Delete(k) =>
      if k !in c.objects then (c, NotFound)
      else
        var cur := c.objects[k];
        if cur.finalizers == [] then (Drop(c, k), Done)
        else if cur.deleting then (c, Done)
        else (Put(c, k, cur.(deleting := true)), Done)
  }

  lemma PutWellFormed(c: Cluster, k: Key, o: Object)
    requires WellFormed(c) && 0 < o.uid <= c.clock && (o.deleting ==> o.finalizers != [])
    ensures WellFormed(Put(c, k, o))
  {
  }

  lemma DropWellFormed(c: Cluster, k: Key)
    requires WellFormed(c)
    ensures WellFormed(Drop(c, k))
  {
  }

  lemma ExecWellFormed(c: Cluster, req: Request)
    requires WellFormed(c)
    ensures WellFormed(Exec(c, req).0) && c.clock <= Exec(c, req).0.clock
  {
    match req {
      case Create(k, o) => PutWellFormed(c, k, o.(uid := c.clock, deleting := false));
      case Update(k, o) =>
        if k in c.objects && (c.objects[k].deleting ==> o.finalizers != []) {
          var cur := c.objects[k];
          PutWellFormed(c, k, o.(uid := cur.uid, deleting := cur.deleting, status := cur.status));
        }
        DropWellFormed(c, k);
      case UpdateStatus(k, o) =>
        if k in c.objects {
          PutWellFormed(c, k, c.objects[k].(status := o.status));
        }
      case Delete(k) =>
        if k in c.objects && c.objects[k].finalizers != [] {
          PutWellFormed(c, k, c.objects[k].(deleting := true));
        }
        DropWellFormed(c, k);
      case _ =>
    }
    hide WellFormed, Put, Drop;
  }

  /** A request touches no object but the one it names, and whatever it changes gets a fresh version. */
  lemma ExecFrame(c: Cluster, req: Request, k: Key)
    requires WellFormed(c)
    ensures var after := Exec(c, req).0.objects;
      && ((req.Get? || req.List? || k != req.key) ==>
            (k in after <==> k in c.objects) && (k in after ==> after[k] == c.objects[k]))
      && (k in after ==> (k in c.objects && after[k] == c.objects[k]) || after[k].rv == c.clock)
  {
  }
}
