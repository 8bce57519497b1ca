/**
 The install/uninstall protocol as a state machine over single API calls.

 A run is a sequence of events: a write by somebody else, the start of a pass, or one request of the operator with
 its fate and its reply. The operator may only send a request that `Allowed` permits, given what it has read since
 the pass began; that the operator keeps to `Allowed` is proved on its code in module Reconciler.
 */
module Protocol {
  import opened Utils
  import opened Cluster
  import opened Config
  import opened States
  import opened Desired
  import opened StrictArm
  import opened Logs

  /** Startup is the creation step of main.go; Reconciling is one call of Reconcile, for the ManagedMCG of that name. */
  datatype Mode = Idle | Startup | Reconciling(name: string)

  /**
   What the current pass has learned: the first reply to every Get, and the log of all its exchanges; whether it
   stored the ManagedMCG with the finalizer, listed no bucket classes, stored NooBaa, and had NooBaa's deletion
   accepted; and whether a write failed.
   */
  datatype View = View(mode: Mode, seen: map<Key, Response>, log: seq<Exchange>, added: bool, drained: bool,
                       stripped: bool, deleted: bool, writeFailed: bool)

  function Fresh(mode: Mode): View {
    View(mode, map[], [], false, false, false, false, false)
  }

  /** The settings for what a pass does: its request names the ManagedMCG. */
  function PassSettings(s: Settings, mode: Mode): Settings {
    match mode
    case Reconciling(name) => s.(request := name)
    case _ => s.(request := MCG_NAME)
  }

  lemma PassKeys(s: Settings, mode: Mode)
    ensures var t := PassSettings(s, mode);
      t.namespace == s.namespace && t.NoobaaKey() == s.NoobaaKey() && t.ConsoleClusterKey() == s.ConsoleClusterKey()
  {
  }

  /** What a reply adds to the knowledge of a pass, the log aside. */
  function Learn(s: Settings, v: View, req: Request, resp: Response): View {
    match req
    case Get(k) => if k in v.seen then v else v.(seen := v.seen[k := resp])
    case List(kind, scope) =>
      if kind.BucketClass? && scope == Some(s.namespace) && resp == Items([]) then v.(drained := true) else v
    case Create(k, o) => v.(writeFailed := v.writeFailed || !(resp.Stored? || resp.AlreadyExists?))
    case Update(k, o) =>
      if !resp.Stored? then v.(writeFailed := true)
      else if k == s.McgKey() then v.(added := v.added || FINALIZER in o.finalizers)
      else if k == s.NoobaaKey() then v.(stripped := true)
      else v
    case UpdateStatus(k, o) => v
    case Delete(k) =>
      if k == s.NoobaaKey() && (resp.Done? || resp.NotFound?) then v.(deleted := true) else v
  }

  function Observe(s: Settings, v: View, req: Request, resp: Response): View {
    Learn(s, v, req, resp).(log := v.log + [Exchange(req, resp)])
  }

  /** `w` knows all that `v` knows, in the same pass. */
  predicate Extends(v: View, w: View) {
    && v.mode == w.mode && v.log <= w.log
    && (forall k :: k in v.seen ==> k in w.seen && w.seen[k] == v.seen[k])
    && (v.added ==> w.added) && (v.drained ==> w.drained) && (v.stripped ==> w.stripped)
    && (v.deleted ==> w.deleted) && (v.writeFailed ==> w.writeFailed)
  }

  predicate Saw(v: View, k: Key, resp: Response) {
    k in v.seen && v.seen[k] == resp
  }

  /** The pass's copy of the ManagedMCG. */
  predicate HasCopy(s: Settings, v: View) {
    v.mode.Reconciling? && s.McgKey() in v.seen && v.seen[s.McgKey()].Found?
  }

  function Copy(s: Settings, v: View): Object
    requires HasCopy(s, v)
  {
    v.seen[s.McgKey()].obj
  }

  predicate Stamped(s: Settings, v: View) {
    HasCopy(s, v) && Copy(s, v).deleting
  }

  /** The live copy is not stamped and carries the finalizer, or was stored with it in this pass. */
  predicate Installing(s: Settings, v: View) {
    && HasCopy(s, v) && !Copy(s, v).deleting
    && (FINALIZER in Copy(s, v).finalizers || v.added)
  }

  predicate Gone(s: Settings, v: View) {
    v.mode.Reconciling? && Saw(v, s.McgKey(), NotFound)
  }

  predicate SawDeletionLabel(s: Settings, v: View) {
    && s.AddonConfigMapKey() in v.seen && v.seen[s.AddonConfigMapKey()].Found?
    && s.deleteLabel in v.seen[s.AddonConfigMapKey()].obj.labels
  }

  /** The first reply to a Get of `k` in this pass; before there is one, it says as little as a failed Get. */
  function First(v: View, k: Key): Response {
    if k in v.seen then v.seen[k] else Failure
  }

  function NoobaaState(s: Settings, v: View): ComponentState {
    PhaseState(First(v, s.NoobaaKey()))
  }

  /** The component states as the pass's own first reads show them. */
  function StatesSeen(s: Settings, v: View): Components {
    Components(NoobaaState(s, v),
               ReplicaState(First(v, s.PrometheusKey()), First(v, s.PrometheusSetKey())),
               ReplicaState(First(v, s.AlertmanagerKey()), First(v, s.AlertmanagerSetKey())),
               ConsoleState(First(v, s.ConsolePluginKey()), First(v, s.ConsoleDeploymentKey())))
  }

  function NoobaaCopy(s: Settings, v: View): Object {
    SeenObject(v, s.NoobaaKey())
  }

  /** The kinds no pass may write while installing. */
  predicate OffLimits(kind: Kind) {
    kind.ManagedMCG? || kind.BucketClass? || kind.BackingStore? || kind.NamespaceStore? || kind.ObjectBucketClaim?
  }

  /** The object the pass saw first under `k`, or an empty one. */
  function SeenObject(v: View, k: Key): Object {
    if k in v.seen && v.seen[k].Found? then v.seen[k].obj else NEW_OBJECT
  }

  function DefaultStoreOf(o: Object): string {
    Entry(o.annotations, DEFAULT_STORE_ANNOTATION)
  }

  /** So far a pass has written nothing but its ManagedMCG. */
  ghost predicate QuietSoFar(s: Settings, log: seq<Exchange>) {
    forall i :: 0 <= i < |log| ==> IsRead(log[i]) || log[i].req.key == s.McgKey()
  }

  /**
   NooBaa is brought up to date before all else, right after the list of the backing stores and a get of NooBaa: with
   the store chosen from that list, unless the annotations noted at first had one.
   */
  ghost predicate NoobaaGranted(s: Settings, v: View, req: Request) {
    && |v.log| >= 2 && QuietSoFar(s, v.log) && s.NoobaaKey() in v.seen
    && var listed, got := v.log[|v.log| - 2], v.log[|v.log| - 1];
       && listed.req == List(BackingStore, Some(s.namespace)) && got.req == Get(s.NoobaaKey())
       && var noted, store := NoobaaCopy(s, v).annotations, DefaultStore(ItemsIn(listed.resp));
          match got.resp
          case Found(o) => req == Update(s.NoobaaKey(), NoobaaWanted(noted, store, o))
          case NotFound => req == Create(s.NoobaaKey(), NoobaaWanted(noted, store, NoobaaCopy(s, v)))
          case _ => false
  }

  /** A Console is written right after a list in which none has the plugin and a get of the one to be written. */
  predicate ConsoleGranted(s: Settings, v: View, req: Request) {
    |v.log| >= 2
    && var listed, got := v.log[|v.log| - 2], v.log[|v.log| - 1];
       && listed.req == List(Console, None) && listed.resp.Items? && !Lists(listed.resp.items, CONSOLE_NAME)
       && got.req == Get(s.ConsoleClusterKey())
       && match got.resp
          case Found(o) => req == Update(s.ConsoleClusterKey(), o.(spec := Plugins(PluginsOf(o) + [CONSOLE_NAME])))
          case NotFound => req == Create(s.ConsoleClusterKey(), NEW_OBJECT.(spec := Plugins([CONSOLE_NAME])))
          case _ => false
  }

  /**
   The log of the pass ends with a read of the parameters and a complete strict arm: every step of it succeeded, for
   the objects and parameters the pass had read and with all components ready.
   */
  ghost predicate CompletedAs(s: Settings, v: View, x: Context, before: seq<Exchange>, params: Object,
                              logs: seq<seq<Exchange>>)
  {
    && v.log == before + [Exchange(Get(s.AddonParamsKey()), Found(params))] + Flat(logs)
    && |logs| == RESOURCE_STEPS && ArmLogged(s, x, logs, false)
    && x.params == DataOf(params) && x.mcg.status.components == ALL_READY
    && x.mcg.uid == SeenObject(v, s.McgKey()).uid && x.noobaa == SeenObject(v, s.NoobaaKey())
    && x.prometheus == SeenObject(v, s.PrometheusKey()) && x.alertmanager == SeenObject(v, s.AlertmanagerKey())
  }

  ghost predicate Completed(s: Settings, v: View) {
    exists x, before, params, logs :: CompletedAs(s, v, x, before, params, logs)
  }

  ghost predicate Allowed(s: Settings, v: View, req: Request) {
    match v.mode
    case Idle => false
    case Startup => req == Create(s.McgKey(), BOOT_OBJECT)
    case Reconciling =>
      match req
      case Get(_) => true
      case List(_, _) => true
      case Create(k, _) =>
        && Installing(s, v) && !OffLimits(k.kind) && !k.kind.CSV?
        && (k.kind.Console? ==> ConsoleGranted(s, v, req)) && (k.kind.NooBaa? ==> NoobaaGranted(s, v, req))
      case Update(k, o) =>
        if k == s.McgKey() then AllowedOwnUpdate(s, v, o)
        else if k.kind.NooBaa? then
          || (Installing(s, v) && NoobaaGranted(s, v, req))
          || (k == s.NoobaaKey() && Stamped(s, v) && !NoobaaState(s, v).Missing? && v.drained
              && o == NoobaaCopy(s, v).(finalizers := Removed(NoobaaCopy(s, v).finalizers, NOOBAA_FINALIZER)))
        else Installing(s, v) && !OffLimits(k.kind) && (k.kind.Console? ==> ConsoleGranted(s, v, req))
      case UpdateStatus(k, _) => k == s.McgKey() && HasCopy(s, v)
      case Delete(k) =>
        match k.kind
        case ManagedMCG =>
          && k == s.McgKey() && Installing(s, v) && SawDeletionLabel(s, v) && !v.writeFailed
          && Completed(s, v)
          && (FINALIZER in Copy(s, v).finalizers ==> StatesSeen(s, v) == ALL_READY)
        case NooBaa => k == s.NoobaaKey() && Stamped(s, v) && v.drained && v.stripped
        case BucketClass => Stamped(s, v) && !NoobaaState(s, v).Missing?
        case BackingStore => Stamped(s, v) && v.deleted
        case NamespaceStore => Stamped(s, v) && v.deleted
        case CSV => Gone(s, v) && SawDeletionLabel(s, v) && DEPLOYER_CSV_PREFIX <= k.name
        case _ => false
  }

  /** The two edits the operator makes to its own object: add the finalizer, or take it away. */
  predicate AllowedOwnUpdate(s: Settings, v: View, o: Object) {
    && HasCopy(s, v)
    && var m := Copy(s, v);
       || (!m.deleting && FINALIZER !in m.finalizers && !v.added
           && o.(status := m.status) == m.(finalizers := m.finalizers + [FINALIZER]))
       || (m.deleting && NoobaaState(s, v).Missing?
           && o.(status := m.status) == m.(finalizers := Removed(m.finalizers, FINALIZER)))
  }

  /** Whether a request went through, was refused without effect, or took effect while its reply was lost. */
  datatype Fate = Served | Refused | ReplyLost

  /** A write by anybody but the operator. `Shuffle` changes the order in which lists are returned. */
  datatype Outside = Edit(key: Key, obj: Object) | Erase(key: Key) | Shuffle(order: seq<Key>)

  datatype Event =
    | Env(act: Outside)
    | Begin(mode: Mode)
    | Call(req: Request, fate: Fate, resp: Response)

  /** A ManagedMCG of the namespace, of whatever name. */
  predicate IsMcg(s: Settings, k: Key) {
    k.kind.ManagedMCG? && k.namespace == s.namespace
  }

  predicate GuardedAt(c: Cluster, k: Key) {
    k in c.objects && "managedmcg.openshift.io" in c.objects[k].finalizers
  }

  /** The ManagedMCG that was asked for carries the operator's finalizer. */
  predicate Guard(s: Settings, c: Cluster) {
    GuardedAt(c, s.McgKey())
  }

  /** Some ManagedMCG of the namespace does. */
  ghost predicate SomeGuard(s: Settings, c: Cluster) {
    exists k :: IsMcg(s, k) && GuardedAt(c, k)
  }

  /** One of another name does. */
  ghost predicate OtherGuard(s: Settings, c: Cluster) {
    exists k :: IsMcg(s, k) && k != s.McgKey() && GuardedAt(c, k)
  }

  /**
   What others may do: anything, except create the NooBaa CR and take the operator's own finalizer off a ManagedMCG,
   with which the object cannot vanish either. A stamped object that loses its last finalizer is removed, not written.
   */
  predicate Permitted(s: Settings, c: Cluster, a: Outside) {
    match a
    case Edit(k, o) =>
      && (k == s.NoobaaKey() ==> k in c.objects)
      && (IsMcg(s, k) && GuardedAt(c, k) ==> FINALIZER in o.finalizers)
      && (o.deleting || (k in c.objects && c.objects[k].deleting) ==> o.finalizers != [])
    case Erase(k) => k in c.objects && !(IsMcg(s, k) && GuardedAt(c, k))
    case Shuffle(order) => multiset(order) == multiset(c.order)
  }

  /** A write to an existing object keeps its uid and never lifts its deletion stamp; a new one gets a fresh uid. */
  function Apply(c: Cluster, a: Outside): Cluster {
    match a
    case Edit(k, o) =>
      if k in c.objects then
        Put(c, k, o.(uid := c.objects[k].uid, deleting := o.deleting || c.objects[k].deleting))
      else Put(c, k, o.(uid := c.clock))
    case Erase(k) => Drop(c, k)
    case Shuffle(order) => c.(order := order)
  }

  function Effect(c: Cluster, req: Request, fate: Fate): Cluster {
    if fate.Refused? then c else Exec(c, req).0
  }

  function Reply(c: Cluster, req: Request, fate: Fate): Response {
    if fate.Served? then Exec(c, req).1 else Failure
  }

  function Next(c: Cluster, e: Event): Cluster {
    match e
    case Env(a) => Apply(c, a)
    case Begin(_) => c
    case Call(req, fate, _) => Effect(c, req, fate)
  }

  function NextView(s: Settings, v: View, e: Event): View {
    match e
    case Env(_) => v
    case Begin(mode) => Fresh(mode)
    case Call(req, _, resp) => Observe(PassSettings(s, v.mode), v, req, resp)
  }

  ghost predicate Legal(s: Settings, c: Cluster, v: View, e: Event) {
    match e
    case Env(a) => Permitted(s, c, a)
    case Begin(_) => true
    case Call(req, fate, resp) => Allowed(PassSettings(s, v.mode), v, req) && resp == Reply(c, req, fate)
  }

  /** The events of a run, and the store and the pass's knowledge before the first event and after each. */
  datatype Run = Run(events: seq<Event>, states: seq<Cluster>, views: seq<View>)

  /** A store in which a run may start: well formed, and without a NooBaa CR. */
  ghost predicate Initial(s: Settings, c: Cluster) {
    WellFormed(c) && s.NoobaaKey() !in c.objects
  }

  /** Every event was legal when it happened, and each store and view follows from the ones before. */
  ghost predicate IsRun(s: Settings, r: Run) {
    && |r.states| == |r.views| == |r.events| + 1
    && Initial(s, r.states[0]) && r.views[0] == Fresh(Idle)
    && (forall n :: 0 <= n < |r.events| ==>
          && Legal(s, r.states[n], r.views[n], r.events[n])
          && r.states[n + 1] == Next(r.states[n], r.events[n])
          && r.views[n + 1] == NextView(s, r.views[n], r.events[n]))
  }

  function Extend(s: Settings, r: Run, e: Event): Run
    requires r.states != [] && r.views != []
  {
    Run(r.events + [e], r.states + [Next(Last(r.states), e)], r.views + [NextView(s, Last(r.views), e)])
  }

  lemma ExtendIsRun(s: Settings, r: Run, e: Event)
    requires IsRun(s, r) && Legal(s, Last(r.states), Last(r.views), e)
    ensures IsRun(s, Extend(s, r, e))
  {
    hide Legal, Next, NextView, Initial;
  }

  /** An object that was read is still the stored one as long as its resource version is. */
  predicate StillStored(c: Cluster, k: Key, o: Object) {
    o.rv < c.clock && (k in c.objects && c.objects[k].rv == o.rv ==> c.objects[k] == o)
  }

  ghost predicate Remembers(c: Cluster, v: View) {
    forall n: nat :: n < |v.log| && v.log[n].req.Get? && v.log[n].resp.Found? ==>
      StillStored(c, v.log[n].req.key, v.log[n].resp.obj)
  }

  /** What the pass has seen is in its log. */
  ghost predicate SeenLogged(v: View) {
    forall k :: k in v.seen ==> Exchange(Get(k), v.seen[k]) in v.log
  }

  lemma RememberedSeen(c: Cluster, v: View, k: Key)
    requires Remembers(c, v) && SeenLogged(v) && k in v.seen && v.seen[k].Found?
    ensures StillStored(c, k, v.seen[k].obj)
  {
    var n :| 0 <= n < |v.log| && v.log[n] == Exchange(Get(k), v.seen[k]);
  }

  /** What links the store to the flags and first reads of the pass. */
  ghost predicate Facts(s: Settings, c: Cluster, v: View) {
    && WellFormed(c)
    && (s.NoobaaKey() in c.objects ==> SomeGuard(s, c))
    && (Installing(s, v) ==> Guard(s, c))
    && (v.added ==> HasCopy(s, v))
    && (v.mode.Reconciling? && NoobaaState(s, v).Missing? && !Installing(s, v) ==> s.NoobaaKey() !in c.objects)
    && (Gone(s, v) && s.NoobaaKey() in c.objects ==> OtherGuard(s, c))
  }

  /** What holds between any two events, linking the store to what the pass remembers of it. */
  ghost predicate Inv(s: Settings, c: Cluster, v: View) {
    Facts(s, c, v) && Remembers(c, v) && SeenLogged(v)
  }

  lemma FactsIgnoreLog(s: Settings, c: Cluster, v: View, log: seq<Exchange>)
    ensures Facts(s, c, v.(log := log)) <==> Facts(s, c, v)
  {
  }

  lemma ObserveRemembers(s: Settings, c: Cluster, v: View, req: Request, resp: Response)
    requires Remembers(c, v) && (req.Get? && resp.Found? ==> StillStored(c, req.key, resp.obj))
    ensures Remembers(c, Observe(s, v, req, resp))
  {
    hide Learn, StillStored;
    var w := Observe(s, v, req, resp);
    forall n: nat | n < |w.log| && w.log[n].req.Get? && w.log[n].resp.Found?
      ensures StillStored(c, w.log[n].req.key, w.log[n].resp.obj)
    {
      assert n < |v.log| ==> w.log[n] == v.log[n];
    }
  }

  lemma LearntFromRead(s: Settings, v: View, req: Request, resp: Response)
    ensures Learn(s, v, req, resp).seen == if req.Get? && req.key !in v.seen then v.seen[req.key := resp] else v.seen
  {
  }

  lemma ObserveLogs(s: Settings, v: View, req: Request, resp: Response)
    requires SeenLogged(v)
    ensures SeenLogged(Observe(s, v, req, resp))
  {
    var w := Observe(s, v, req, resp);
    LearntFromRead(s, v, req, resp);
    hide Learn;
    forall k | k in w.seen ensures Exchange(Get(k), w.seen[k]) in w.log {
      if k in v.seen {
        var n :| 0 <= n < |v.log| && v.log[n] == Exchange(Get(k), v.seen[k]);
        assert w.log[n] == v.log[n];
      } else {
        assert w.log[|v.log|] == Exchange(req, resp);
      }
    }
  }

  lemma EnvKeepsStore(s: Settings, c: Cluster, a: Outside)
    requires WellFormed(c) && Permitted(s, c, a)
    ensures WellFormed(Apply(c, a))
    ensures forall k :: IsMcg(s, k) && GuardedAt(c, k) ==> GuardedAt(Apply(c, a), k)
    ensures s.NoobaaKey() in Apply(c, a).objects ==> s.NoobaaKey() in c.objects
  {
    if a.Shuffle? {
      forall k ensures k in a.order <==> k in c.order {
        assert k in a.order <==> k in multiset(a.order);
      }
    }
  }

  lemma EnvKeepsMemory(c: Cluster, v: View, a: Outside)
    requires WellFormed(c) && Remembers(c, v)
    ensures Remembers(Apply(c, a), v)
  {
    forall n: nat | n < |v.log| && v.log[n].req.Get? && v.log[n].resp.Found?
      ensures StillStored(Apply(c, a), v.log[n].req.key, v.log[n].resp.obj)
    {
      assert StillStored(c, v.log[n].req.key, v.log[n].resp.obj);
    }
  }

  /** Guards that stay are guards still. */
  lemma GuardsCarryOver(s: Settings, c: Cluster, d: Cluster)
    requires forall k :: IsMcg(s, k) && GuardedAt(c, k) ==> GuardedAt(d, k)
    ensures SomeGuard(s, c) ==> SomeGuard(s, d)
    ensures OtherGuard(s, c) ==> OtherGuard(s, d)
    ensures Guard(s, c) ==> Guard(s, d)
  {
    hide GuardedAt;
  }

  lemma EnvKeepsInv(s: Settings, c: Cluster, v: View, a: Outside)
    requires Inv(s, c, v) && Permitted(s, c, a)
    ensures Inv(s, Apply(c, a), v)
  {
    hide Installing, NoobaaState, Gone, HasCopy, Permitted, Apply, Remembers, WellFormed, Guard, GuardedAt, SomeGuard, OtherGuard;
    EnvKeepsStore(s, c, a);
    GuardsCarryOver(s, c, Apply(c, a));
    EnvKeepsMemory(c, v, a);
  }

  /** A request that is allowed names no ManagedMCG but the one the pass was asked for. */
  lemma OnlyOwnMcg(s: Settings, v: View, req: Request)
    requires Allowed(s, v, req) && !req.List? && !req.Get?
    ensures req.key.kind.ManagedMCG? ==> req.key == s.McgKey()
  {
    hide Completed, ConsoleGranted, NoobaaGranted;
  }

  /**
   What an allowed request can do to a guarded ManagedMCG: take the guard away only from the one the pass was asked
   for, and only when the pass saw no NooBaa and an old stamp.
   */
  lemma CallKeepsGuard(s: Settings, c: Cluster, v: View, req: Request, k: Key)
    requires Facts(s, c, v) && Allowed(s, v, req) && IsMcg(s, k) && GuardedAt(c, k)
    ensures GuardedAt(Exec(c, req).0, k) || (k == s.McgKey() && Stamped(s, v) && NoobaaState(s, v).Missing?)
  {
    ExecFrame(c, req, k);
    if !req.List? && !req.Get? && req.key == k {
      OnlyOwnMcg(s, v, req);
      OwnCallKeepsGuard(s, c, v, req);
    }
  }

  lemma OwnCallKeepsGuard(s: Settings, c: Cluster, v: View, req: Request)
    requires Facts(s, c, v) && Allowed(s, v, req) && Guard(s, c) && !req.List? && !req.Get? && req.key == s.McgKey()
    ensures Guard(s, Exec(c, req).0) || (Stamped(s, v) && NoobaaState(s, v).Missing?)
  {
    hide Completed, ConsoleGranted, NoobaaGranted, SomeGuard, OtherGuard;
    match req {
      case Create(k, o) =>
      case Update(k, o) =>
      case UpdateStatus(k, o) =>
      case Delete(k) =>
    }
  }

  lemma CallCreatesNoobaa(s: Settings, c: Cluster, v: View, req: Request)
    requires Facts(s, c, v) && Allowed(s, v, req)
    ensures s.NoobaaKey() in Exec(c, req).0.objects ==> s.NoobaaKey() in c.objects || Installing(s, v)
  {
    ExecFrame(c, req, s.NoobaaKey());
  }

  /** An accepted addition of the finalizer leaves the guard in place. */
  lemma AddingGuards(s: Settings, c: Cluster, v: View, req: Request)
    requires WellFormed(c) && req.Update? && req.key == s.McgKey() && FINALIZER in req.obj.finalizers
    requires Exec(c, req).1.Stored?
    ensures Guard(s, Exec(c, req).0)
  {
  }

  lemma GetKeepsFacts(s: Settings, c: Cluster, v: View, k: Key, resp: Response)
    requires Facts(s, c, v) && v.mode.Reconciling? && (resp == Look(c, k) || resp == Failure)
    ensures Facts(s, c, Learn(s, v, Get(k), resp))
  {
    var w := Learn(s, v, Get(k), resp);
    if k !in v.seen {
      assert w.seen == v.seen[k := resp];
      if k == s.McgKey() && resp.Found? {
        assert HasCopy(s, w) && Copy(s, w) == c.objects[k];
      }
      assert k != s.McgKey() && HasCopy(s, w) ==> Copy(s, w) == Copy(s, v);
      assert k != s.NoobaaKey() ==> NoobaaState(s, w) == NoobaaState(s, v);
      if k == s.McgKey() && resp.NotFound? && s.NoobaaKey() in c.objects {
        assert !GuardedAt(c, k);
      }
    }
  }

  /** Lists, and writes that are refused, leave the facts as they are. */
  lemma QuietKeepsFacts(s: Settings, c: Cluster, v: View, req: Request, resp: Response)
    requires Facts(s, c, v) && !req.Get? && (req.List? || resp == Failure)
    ensures Facts(s, c, Learn(s, v, req, resp))
  {
    var w := Learn(s, v, req, resp);
    assert w == v.(writeFailed := w.writeFailed, drained := w.drained);
  }

  /** In a pass that found no ManagedMCG, a write leaves every guard, and NooBaa where it is. */
  lemma GoneWrite(s: Settings, c: Cluster, v: View, req: Request)
    requires WellFormed(c) && Allowed(s, v, req) && !req.Get? && !req.List? && Gone(s, v)
    ensures req.Delete? && req.key.kind.CSV?
    ensures forall k: Key :: !k.kind.CSV? ==> SameAt(c, Exec(c, req).0, k)
  {
    hide Completed, ConsoleGranted, NoobaaGranted;
    assert req.Delete? && req.key.kind.CSV?;
    forall k: Key | !k.kind.CSV? ensures SameAt(c, Exec(c, req).0, k) {
      ExecFrame(c, req, k);
    }
  }

  lemma GoneKeepsGuards(s: Settings, c: Cluster, d: Cluster)
    requires forall k: Key :: !k.kind.CSV? ==> SameAt(c, d, k)
    ensures OtherGuard(s, c) ==> OtherGuard(s, d)
    ensures s.NoobaaKey() in d.objects ==> s.NoobaaKey() in c.objects
  {
    if k :| IsMcg(s, k) && k != s.McgKey() && GuardedAt(c, k) {
      assert SameAt(c, d, k);
    }
    assert SameAt(c, d, s.NoobaaKey());
  }

  /** Where NooBaa is stored after a write, some ManagedMCG is guarded after it. */
  lemma WriteKeepsSomeGuard(s: Settings, c: Cluster, v: View, req: Request)
    requires Facts(s, c, v) && Allowed(s, v, req) && s.NoobaaKey() in Exec(c, req).0.objects
    ensures SomeGuard(s, Exec(c, req).0)
  {
    CallCreatesNoobaa(s, c, v, req);
    var k :| IsMcg(s, k) && GuardedAt(c, k);
    CallKeepsGuard(s, c, v, req, k);
  }

  /** A write that takes effect keeps the store's half of the invariant. */
  lemma WriteKeepsStore(s: Settings, c: Cluster, v: View, req: Request)
    requires Facts(s, c, v) && Allowed(s, v, req) && !req.Get? && !req.List?
    ensures var after := Exec(c, req).0;
      && WellFormed(after)
      && (s.NoobaaKey() in after.objects ==> SomeGuard(s, after))
      && (Installing(s, v) ==> Guard(s, after))
      && (s.NoobaaKey() in after.objects ==> s.NoobaaKey() in c.objects || Installing(s, v))
      && (Gone(s, v) && s.NoobaaKey() in after.objects ==> OtherGuard(s, after))
  {
    var after := Exec(c, req).0;
    ExecWellFormed(c, req);
    CallCreatesNoobaa(s, c, v, req);
    hide Exec, Allowed, NoobaaState, SomeGuard, OtherGuard, GuardedAt, WellFormed;
    if s.NoobaaKey() in after.objects {
      WriteKeepsSomeGuard(s, c, v, req);
    }
    if Installing(s, v) {
      CallKeepsGuard(s, c, v, req, s.McgKey());
    }
    if Gone(s, v) {
      GoneWrite(s, c, v, req);
      GoneKeepsGuards(s, c, after);
    }
  }

  /** A request leaves what the pass remembers true. */
  lemma ExecKeepsMemory(c: Cluster, v: View, req: Request)
    requires WellFormed(c) && Remembers(c, v)
    ensures Remembers(Exec(c, req).0, v)
  {
    ExecWellFormed(c, req);
    forall n: nat | n < |v.log| && v.log[n].req.Get? && v.log[n].resp.Found?
      ensures StillStored(Exec(c, req).0, v.log[n].req.key, v.log[n].resp.obj)
    {
      ExecFrame(c, req, v.log[n].req.key);
      assert StillStored(c, v.log[n].req.key, v.log[n].resp.obj);
    }
  }

  lemma LearntFromWrite(s: Settings, v: View, req: Request, resp: Response)
    requires !req.Get? && !req.List?
    ensures var w := Learn(s, v, req, resp);
      && w.seen == v.seen && w.mode == v.mode
      && (w.added <==> v.added || (req.Update? && req.key == s.McgKey() && FINALIZER in req.obj.finalizers && resp.Stored?))
  {
  }

  /** The facts carry over to a store and a view related to the old ones as a write relates them. */
  lemma FactsCarryOver(s: Settings, c: Cluster, after: Cluster, v: View, w: View)
    requires Facts(s, c, v) && WellFormed(after)
    requires w.seen == v.seen && w.mode == v.mode && (v.added ==> w.added)
    requires w.added && !v.added ==> HasCopy(s, v) && Guard(s, after)
    requires s.NoobaaKey() in after.objects ==> SomeGuard(s, after)
    requires Installing(s, v) ==> Guard(s, after)
    requires s.NoobaaKey() in after.objects ==> s.NoobaaKey() in c.objects || Installing(s, v)
    requires Gone(s, v) && s.NoobaaKey() in after.objects ==> OtherGuard(s, after)
    ensures Facts(s, after, w)
  {
    hide SomeGuard, OtherGuard, WellFormed, GuardedAt;
  }

  lemma WriteKeepsFacts(s: Settings, c: Cluster, v: View, req: Request, resp: Response)
    requires Facts(s, c, v) && Allowed(s, v, req) && !req.Get? && !req.List?
    requires resp == Exec(c, req).1 || resp == Failure
    ensures Facts(s, Exec(c, req).0, Learn(s, v, req, resp))
  {
    LearntFromWrite(s, v, req, resp);
    WriteKeepsStore(s, c, v, req);
    var w := Learn(s, v, req, resp);
    if w.added && !v.added {
      AddingGuards(s, c, v, req);
    }
    FactsCarryOver(s, c, Exec(c, req).0, v, w);
  }

  lemma CallKeepsFacts(s: Settings, c: Cluster, v: View, req: Request, fate: Fate)
    requires Facts(s, c, v) && Allowed(s, v, req)
    ensures Facts(s, Effect(c, req, fate), Learn(s, v, req, Reply(c, req, fate)))
  {
    if req.Get? {
      GetKeepsFacts(s, c, v, req.key, Reply(c, req, fate));
    } else if req.List? || fate.Refused? {
      QuietKeepsFacts(s, c, v, req, Reply(c, req, fate));
    } else {
      WriteKeepsFacts(s, c, v, req, Reply(c, req, fate));
    }
  }

  lemma CallKeepsMemory(s: Settings, c: Cluster, v: View, req: Request, fate: Fate)
    requires WellFormed(c) && Remembers(c, v)
    ensures Remembers(Effect(c, req, fate), Observe(s, v, req, Reply(c, req, fate)))
  {
    var d := Effect(c, req, fate);
    ExecKeepsMemory(c, v, req);
    hide Observe, Learn, Remembers;
    ObserveRemembers(s, d, v, req, Reply(c, req, fate));
  }

  lemma CallKeepsInv(s: Settings, c: Cluster, v: View, req: Request, fate: Fate)
    requires Inv(s, c, v) && Allowed(s, v, req)
    ensures Inv(s, Effect(c, req, fate), Observe(s, v, req, Reply(c, req, fate)))
  {
    var d, resp := Effect(c, req, fate), Reply(c, req, fate);
    WellFormedFact(s, c, v);
    hide Effect, Reply, Learn, Allowed, Facts, Remembers, SeenLogged;
    CallKeepsFacts(s, c, v, req, fate);
    FactsIgnoreLog(s, d, Learn(s, v, req, resp), v.log + [Exchange(req, resp)]);
    CallKeepsMemory(s, c, v, req, fate);
    ObserveLogs(s, v, req, resp);
  }

  lemma WellFormedFact(s: Settings, c: Cluster, v: View)
    requires Facts(s, c, v)
    ensures WellFormed(c)
  {
  }

  /** The start of a pass, for whichever ManagedMCG, forgets all but the store. */
  lemma BeginKeepsInv(s: Settings, t: Settings, c: Cluster, v: View, mode: Mode)
    requires Inv(s, c, v) && t == s.(request := t.request)
    ensures Inv(t, c, Fresh(mode))
  {
    hide WellFormed, GuardedAt;
    if s.NoobaaKey() in c.objects {
      var k :| IsMcg(s, k) && GuardedAt(c, k);
      assert IsMcg(t, k);
    }
  }

  lemma {:induction false} RunKeepsInv(s: Settings, r: Run, n: nat)
    requires IsRun(s, r) && n <= |r.events|
    ensures Inv(PassSettings(s, r.views[n].mode), r.states[n], r.views[n])
  {
    hide Inv, Allowed, Permitted, Observe, Exec, Apply;
    if n == 0 {
      FirstInv(PassSettings(s, r.views[0].mode), r.states[0]);
    } else {
      RunKeepsInv(s, r, n - 1);
      var c, v := r.states[n - 1], r.views[n - 1];
      var p := PassSettings(s, v.mode);
      match r.events[n - 1] {
        case Env(a) =>
          SamePermits(s, p, c, a);
          EnvKeepsInv(p, c, v, a);
        case Begin(mode) => BeginKeepsInv(p, PassSettings(s, mode), c, v, mode);
        case Call(req, fate, resp) =>
          CallKeepsInv(p, c, v, req, fate);
          SameMode(p, v, req, resp);
      }
    }
  }

  lemma FirstInv(s: Settings, c: Cluster)
    requires Initial(s, c)
    ensures Inv(s, c, Fresh(Idle))
  {
  }

  /** What others may do does not depend on the request of a pass. */
  lemma SamePermits(s: Settings, t: Settings, c: Cluster, a: Outside)
    requires t == s.(request := t.request)
    ensures Permitted(s, c, a) <==> Permitted(t, c, a)
  {
  }

  lemma SameMode(s: Settings, v: View, req: Request, resp: Response)
    ensures Observe(s, v, req, resp).mode == v.mode
  {
  }

  /**
   In every state of every run, whatever others write in between, whichever requests fail or lose their reply, wherever
   a pass is cut short, and whichever ManagedMCG each pass is for: if the NooBaa CR exists, a ManagedMCG exists in the
   namespace that carries the operator's finalizer.
   */
  lemma NoobaaIsAlwaysGuarded(s: Settings, r: Run, n: nat)
    requires IsRun(s, r) && n <= |r.events|
    ensures s.NoobaaKey() in r.states[n].objects ==> SomeGuard(s, r.states[n])
  {
    RunKeepsInv(s, r, n);
    SameGuards(s, PassSettings(s, r.views[n].mode), r.states[n]);
  }

  lemma SameGuards(s: Settings, t: Settings, c: Cluster)
    requires t == s.(request := t.request)
    ensures SomeGuard(s, c) <==> SomeGuard(t, c)
  {
    hide GuardedAt;
    if k :| IsMcg(s, k) && GuardedAt(c, k) {
      assert IsMcg(t, k);
    }
    if k :| IsMcg(t, k) && GuardedAt(c, k) {
      assert IsMcg(s, k);
    }
  }

  /** No ManagedMCG of the namespace but that of this name is stored. */
  ghost predicate OnlyNamed(s: Settings, c: Cluster, name: string) {
    forall k :: IsMcg(s, k) && k in c.objects ==> k.name == name
  }

  /** As long as there is but the one ManagedMCG that the operator creates, that is the one. */
  lemma NoobaaGuardedByItsOwn(s: Settings, r: Run, n: nat)
    requires IsRun(s, r) && n <= |r.events| && OnlyNamed(s, r.states[n], MCG_NAME)
    ensures s.NoobaaKey() in r.states[n].objects ==> Guard(s.(request := MCG_NAME), r.states[n])
  {
    NoobaaIsAlwaysGuarded(s, r, n);
    hide IsRun;
    if s.NoobaaKey() in r.states[n].objects {
      var k :| IsMcg(s, k) && GuardedAt(r.states[n], k);
      assert k == s.(request := MCG_NAME).McgKey();
    }
  }

  /**
   When the deletion of any CSV is requested, the pass saw the deletion label and no ManagedMCG of its name; and if the
   NooBaa CR is in the store then, it is guarded by a ManagedMCG of another name.
   */
  lemma CSVDeletedLast(s: Settings, r: Run, n: nat)
    requires IsRun(s, r) && n < |r.events|
    requires r.events[n].Call? && r.events[n].req.Delete? && r.events[n].req.key.kind.CSV?
    ensures var p := PassSettings(s, r.views[n].mode);
      && Gone(p, r.views[n]) && SawDeletionLabel(p, r.views[n])
      && (s.NoobaaKey() in r.states[n].objects ==> OtherGuard(p, r.states[n]))
  {
    hide Completed, ConsoleGranted, NoobaaGranted, Observe, OtherGuard, SomeGuard;
    RunKeepsInv(s, r, n);
  }

  /** So with no ManagedMCG of another name in the store, the CSV goes last. */
  lemma CSVDeletedLastOfOne(s: Settings, r: Run, n: nat)
    requires IsRun(s, r) && n < |r.events|
    requires r.events[n].Call? && r.events[n].req.Delete? && r.events[n].req.key.kind.CSV?
    requires OnlyNamed(s, r.states[n], PassSettings(s, r.views[n].mode).request)
    ensures s.NoobaaKey() !in r.states[n].objects
  {
    CSVDeletedLast(s, r, n);
  }
}
