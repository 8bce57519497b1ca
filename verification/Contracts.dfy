/**
 The vocabulary of the contracts of module Reconciler: what a pass may have sent and learned between two points, and
 the facts about views, logs and steps that its methods use.
 */
module Contracts {
  import opened Utils
  import opened Cluster
  import opened Config
  import opened States
  import opened Logs
  import opened Protocol
  import opened ApiServer
  import opened Desired
  import opened StrictArm

  /** `w` extends `v` by reads alone. */
  ghost predicate ReadOn(v: View, w: View) {
    Extends(v, w) && w.writeFailed == v.writeFailed && w.added == v.added && OnlyRead(w.log[|v.log|..])
  }

  lemma ReadOnTwice(u: View, v: View, w: View)
    requires ReadOn(u, v) && ReadOn(v, w)
    ensures ReadOn(u, w)
  {
    assert w.log[|u.log|..] == v.log[|u.log|..] + w.log[|v.log|..];
  }

  lemma ModeNamed(s: Settings, mode: Mode, name: string)
    requires mode.Reconciling? && PassSettings(s, mode) == s.(request := name)
    ensures mode == Reconciling(name)
  {
  }

  lemma ExtendsSelf(v: View)
    ensures Extends(v, v)
  {
  }

  lemma ReadOnSelf(v: View)
    ensures ReadOn(v, v)
  {
  }

  lemma FirstKept(v: View, w: View, k: Key)
    requires ReadOn(v, w) && k in v.seen
    ensures k in w.seen && First(w, k) == First(v, k)
  {
  }

  lemma ExtendsTwice(u: View, v: View, w: View)
    requires Extends(u, v) && Extends(v, w)
    ensures Extends(u, w)
  {
  }

  lemma SeenKept(v: View, w: View, k: Key)
    requires Extends(v, w) && k in v.seen
    ensures k in w.seen && w.seen[k] == v.seen[k]
  {
  }

  lemma StillInstalling(s: Settings, v: View, w: View)
    requires Extends(v, w) && Installing(s, v)
    ensures Installing(s, w)
  {
  }

  function WithComponents(o: Object, components: Components): Object {
    o.(status := o.status.(components := components))
  }

  /** An object in memory after a Get that may have filled it. */
  function Loaded(resp: Response, o: Object): Object {
    if resp.Found? then resp.obj else o
  }

  lemma RefusedUpdate(c: Cluster, k: Key, o: Object)
    ensures !Exec(c, Update(k, o)).1.Stored? ==> Exec(c, Update(k, o)).0 == c
  {
  }

  lemma SeenDecides(s: Settings, v: View, w: View)
    requires v.seen == w.seen && v.mode == w.mode
    ensures Stamped(s, v) == Stamped(s, w) && NoobaaState(s, v) == NoobaaState(s, w) && NoobaaCopy(s, v) == NoobaaCopy(s, w)
  {
  }

  lemma DrainedExtends(v: View, drained: bool, log: seq<Exchange>)
    ensures var w := Drained(v, drained, log);
      Extends(v, w) && w.log == v.log + log && w.seen == v.seen && w.mode == v.mode && w.writeFailed == v.writeFailed && w.added == v.added
  {
  }

  lemma SweepAllowed(s: Settings, v: View, drained: bool, log: seq<Exchange>, kind: Kind, name: string)
    requires Stamped(s, v) && s.NoobaaKey() in v.seen && (kind.BucketClass? ==> !NoobaaState(s, v).Missing?)
    requires kind.BucketClass? || ((kind.BackingStore? || kind.NamespaceStore?) && v.deleted)
    ensures Allowed(s, Drained(v, drained, log), Delete(Key(kind, s.namespace, name)))
  {
  }

  lemma DrainedMore(v: View, drained: bool, log: seq<Exchange>, e: Exchange)
    ensures var w := Drained(v, drained, log);
      w.(log := w.log + [e]) == Drained(v, drained, log + [e]) && w.seen == v.seen && w.mode == v.mode
  {
    assert v.log + log + [e] == v.log + (log + [e]);
  }

  lemma DrainedSame(v: View, drained: bool, log: seq<Exchange>)
    ensures var w := Drained(v, drained, log); Drained(v, w.drained, log) == w
  {
  }

  lemma MayRead(s: Settings, v: View)
    requires v.mode.Reconciling?
    ensures forall k :: Allowed(s, v, Get(k))
    ensures forall kind, scope :: Allowed(s, v, List(kind, scope))
  {
  }

  lemma GetObserved(s: Settings, v: View, k: Key, resp: Response)
    ensures Observe(s, v, Get(k), resp) == AfterGet(v, k, resp) && ReadOn(v, AfterGet(v, k, resp))
    ensures AfterGet(v, k, resp).mode == v.mode
  {
  }

  lemma GetServed(c: Cluster, k: Key)
    ensures Exec(c, Get(k)) == (c, Look(c, k))
  {
  }

  lemma ListObserved(s: Settings, v: View, kind: Kind, scope: Option<string>, resp: Response)
    ensures var w := Observe(s, v, List(kind, scope), resp);
      && w == Drained(v, w.drained, [Exchange(List(kind, scope), resp)]) && ReadOn(v, w) && w.mode == v.mode
      && (kind.BucketClass? && scope == Some(s.namespace) && resp == Items([]) ==> w.drained)
  {
  }

  /** The keys whose objects decide the component states. */
  function StatusKeys(s: Settings): set<Key> {
    {s.NoobaaKey(), s.PrometheusKey(), s.PrometheusSetKey(), s.AlertmanagerKey(), s.AlertmanagerSetKey(),
     s.ConsolePluginKey(), s.ConsoleDeploymentKey()}
  }

  predicate NoneSeen(v: View, keys: set<Key>) {
    forall k :: k in keys ==> k !in v.seen
  }

  /** Nothing was looked up since `v` but some of these keys. */
  predicate SeenMore(v: View, w: View, keys: set<Key>) {
    forall k :: k in w.seen ==> k in v.seen || k in keys
  }

  /** The view after a get. */
  function AfterGet(v: View, k: Key, resp: Response): View {
    (if k in v.seen then v else v.(seen := v.seen[k := resp])).(log := v.log + [Exchange(Get(k), resp)])
  }

  /** The replies for `k` and, if the object was found, for its workload are in. */
  predicate Asked(v: View, k: Key, workload: Key) {
    k in v.seen && (First(v, k).Found? ==> workload in v.seen)
  }

  /** `v` has for `k`, and for its workload as far as that matters, what the store `c` has. */
  predicate Shows(v: View, c: Cluster, k: Key, workload: Key) {
    First(v, k) == Look(c, k) && (First(v, k).Found? ==> First(v, workload) == Look(c, workload))
  }

  lemma GotOne(v: View, k: Key, workload: Key, resp: Response)
    requires k !in v.seen && k != workload
    ensures var w := AfterGet(v, k, resp);
      && First(w, k) == resp && SeenMore(v, w, {k, workload}) && (!resp.Found? ==> Asked(w, k, workload))
  {
  }

  lemma GotBoth(v: View, k: Key, workload: Key, resp: Response, reply: Response)
    requires k !in v.seen && workload !in v.seen && k != workload
    ensures var w := AfterGet(AfterGet(v, k, resp), workload, reply);
      && First(w, k) == resp && First(w, workload) == reply && SeenMore(v, w, {k, workload}) && Asked(w, k, workload)
  {
  }

  /** Once its replies are in, a component's state stays the same for the rest of the pass. */
  lemma ReplicaStateKept(v: View, w: View, k: Key, workload: Key)
    requires ReadOn(v, w) && Asked(v, k, workload)
    ensures Asked(w, k, workload) && First(w, k) == First(v, k) && (First(v, k).Found? ==> First(w, workload) == First(v, workload))
    ensures ReplicaState(First(w, k), First(w, workload)) == ReplicaState(First(v, k), First(v, workload))
    ensures ConsoleState(First(w, k), First(w, workload)) == ConsoleState(First(v, k), First(v, workload))
  {
    FirstKept(v, w, k);
    if First(v, k).Found? {
      FirstKept(v, w, workload);
    }
  }

  lemma ShowsKept(v: View, w: View, c: Cluster, k: Key, workload: Key)
    requires ReadOn(v, w) && Asked(v, k, workload) && Shows(v, c, k, workload)
    ensures Shows(w, c, k, workload)
  {
    ReplicaStateKept(v, w, k, workload);
  }

  lemma ReadOnFourTimes(u: View, v1: View, v2: View, v3: View, w: View)
    requires ReadOn(u, v1) && ReadOn(v1, v2) && ReadOn(v2, v3) && ReadOn(v3, w)
    ensures ReadOn(u, w) && ReadOn(v1, w) && ReadOn(v2, w)
  {
    ReadOnTwice(u, v1, v2);
    ReadOnTwice(u, v2, v3);
    ReadOnTwice(u, v3, w);
    ReadOnTwice(v2, v3, w);
    ReadOnTwice(v1, v2, w);
  }

  lemma StatesGathered(s: Settings, v1: View, v2: View, v3: View, w: View)
    requires ReadOn(v1, w) && ReadOn(v2, w) && ReadOn(v3, w) && s.NoobaaKey() in v1.seen
    requires Asked(v2, s.PrometheusKey(), s.PrometheusSetKey()) && Asked(v3, s.AlertmanagerKey(), s.AlertmanagerSetKey())
    ensures s.NoobaaKey() in w.seen && First(w, s.NoobaaKey()) == First(v1, s.NoobaaKey())
    ensures Asked(w, s.PrometheusKey(), s.PrometheusSetKey()) && Asked(w, s.AlertmanagerKey(), s.AlertmanagerSetKey())
    ensures First(w, s.PrometheusKey()) == First(v2, s.PrometheusKey())
    ensures First(w, s.AlertmanagerKey()) == First(v3, s.AlertmanagerKey())
    ensures StatesSeen(s, w) == Components(
      NoobaaState(s, v1),
      ReplicaState(First(v2, s.PrometheusKey()), First(v2, s.PrometheusSetKey())),
      ReplicaState(First(v3, s.AlertmanagerKey()), First(v3, s.AlertmanagerSetKey())),
      ConsoleState(First(w, s.ConsolePluginKey()), First(w, s.ConsoleDeploymentKey())))
  {
    hide ReadOn, ReplicaState, ConsoleState, First;
    FirstKept(v1, w, s.NoobaaKey());
    ReplicaStateKept(v2, w, s.PrometheusKey(), s.PrometheusSetKey());
    ReplicaStateKept(v3, w, s.AlertmanagerKey(), s.AlertmanagerSetKey());
  }

  /** The component states are those that the pass's own first replies show. */
  predicate ComponentsShown(s: Settings, v: View, components: Components) {
    && PhaseShown(First(v, s.NoobaaKey()), components.noobaa)
    && ReplicasShown(First(v, s.PrometheusKey()), First(v, s.PrometheusSetKey()), components.prometheus)
    && ReplicasShown(First(v, s.AlertmanagerKey()), First(v, s.AlertmanagerSetKey()), components.alertmanager)
    && ConsoleShown(First(v, s.ConsolePluginKey()), First(v, s.ConsoleDeploymentKey()), components.console)
  }

  lemma StatesSeenAreShown(s: Settings, v: View)
    ensures ComponentsShown(s, v, StatesSeen(s, v))
  {
    hide PhaseShown, ReplicasShown, ConsoleShown, PhaseState, ReplicaState, ConsoleState, First;
    StatesShown(First(v, s.NoobaaKey()), Failure);
    StatesShown(First(v, s.PrometheusKey()), First(v, s.PrometheusSetKey()));
    StatesShown(First(v, s.AlertmanagerKey()), First(v, s.AlertmanagerSetKey()));
    StatesShown(First(v, s.ConsolePluginKey()), First(v, s.ConsoleDeploymentKey()));
  }

  lemma StatesMatch(s: Settings, v: View, c: Cluster)
    requires First(v, s.NoobaaKey()) == Look(c, s.NoobaaKey())
    requires Shows(v, c, s.PrometheusKey(), s.PrometheusSetKey())
    requires Shows(v, c, s.AlertmanagerKey(), s.AlertmanagerSetKey())
    requires Shows(v, c, s.ConsolePluginKey(), s.ConsoleDeploymentKey())
    ensures StatesSeen(s, v) == StatesIn(s, c)
    ensures First(v, s.PrometheusKey()) == Look(c, s.PrometheusKey()) && First(v, s.AlertmanagerKey()) == Look(c, s.AlertmanagerKey())
  {
  }

  /** The view after exchanges that may have shown that no bucket class is left. */
  function Drained(v: View, drained: bool, log: seq<Exchange>): View {
    v.(drained := v.drained || drained, log := v.log + log)
  }

  predicate Accepts(e: Exchange) {
    e.resp.Done? || e.resp.NotFound?
  }

  /** A list of one kind, then the deletion of the listed objects in their order, up to the first refusal. */
  ghost predicate Swept(s: Settings, kind: Kind, log: seq<Exchange>, done: bool) {
    && 1 <= |log| && log[0].req == List(kind, Some(s.namespace))
    && (!log[0].resp.Items? ==> !done && |log| == 1)
    && (log[0].resp.Items? ==>
          && |log| <= 1 + |log[0].resp.items|
          && (forall i :: 1 <= i < |log| ==> log[i].req == Delete(log[0].resp.items[i - 1].key))
          && (forall i :: 1 <= i < |log| && (done || i < |log| - 1) ==> Accepts(log[i]))
          && (done ==> |log| == 1 + |log[0].resp.items|)
          && (!done ==> 1 < |log| && !Accepts(Last(log))))
  }

  /** One attempt at once, one per interval, and perhaps one more when the time is up; slow replies make it fewer. */
  const MOST_POLLS := 7

  /** Lists of the bucket classes, stopping at the first that is empty or fails, or when the time is up. */
  ghost predicate Polled(s: Settings, log: seq<Exchange>, done: bool) {
    && 1 <= |log| <= 7
    && (forall i :: 0 <= i < |log| ==> log[i].req == List(BucketClass, Some(s.namespace)))
    && (forall i :: 0 <= i < |log| - 1 ==> log[i].resp.Items? && log[i].resp != Items([]))
    && (done <==> Last(log).resp == Items([]))
  }

  /** What removeNoobaa sends, part by part. */
  datatype Removal = Removal(classes: seq<Exchange>, polls: seq<Exchange>, strip: seq<Exchange>, backing: seq<Exchange>,
                             spaces: seq<Exchange>)
  {
    function All(): seq<Exchange> {
      classes + polls + strip + backing + spaces
    }
  }

  const NO_REMOVAL := Removal([], [], [], [], [])

  /** NooBaa's finalizer is taken off, then the deletion of NooBaa requested. */
  ghost predicate Struck(s: Settings, stripped: Object, log: seq<Exchange>, done: bool) {
    && 1 <= |log| <= 2 && log[0].req == Update(s.NoobaaKey(), stripped)
    && (|log| == 2 <==> log[0].resp.Stored?)
    && (|log| == 2 ==> log[1].req == Delete(s.NoobaaKey()))
    && (done <==> |log| == 2 && Accepts(log[1]))
  }

  /** The stores go after NooBaa was struck, namespace stores last. */
  ghost predicate StoresInOrder(s: Settings, stripped: Object, r: Removal, err: bool) {
    && Struck(s, stripped, r.strip, r.backing != [])
    && (if r.backing == [] then r.spaces == [] else Swept(s, BackingStore, r.backing, r.spaces != []))
    && (if r.spaces == [] then err else Swept(s, NamespaceStore, r.spaces, !err))
  }

  /** Each part is sent only after the one before was completed; without an error, all were. */
  ghost predicate InOrder(s: Settings, stripped: Object, r: Removal, err: bool) {
    && Swept(s, BucketClass, r.classes, r.polls != [])
    && (if r.polls == [] then r.strip == [] else Polled(s, r.polls, r.strip != []))
    && if r.strip == [] then r.backing == r.spaces == [] && err else StoresInOrder(s, stripped, r, err)
  }

  /** The first checks on the way to the AlertmanagerConfig. */
  predicate PrerequisitesMet(s: Settings, uid: nat, i: Inputs, o: Object) {
    && Owned(uid, o).Ok? && i.pagerduty.Some? && Entry(i.pagerduty.value, PAGERDUTY_KEY) != ""
    && i.deadMansSnitch.Some?
  }

  /** What the replies must say for the prerequisites to be met. */
  lemma PrerequisitesHeard(s: Settings, uid: nat, asked: seq<Exchange>, o: Object)
    ensures var pager, snitch := DataIn(ReplyAt(asked, 0)), DataIn(ReplyAt(asked, 1));
      PrerequisitesMet(s, uid, InputsHeard(AlertmanagerConfigTask, NOTHING_GIVEN, asked), o) <==>
      Owned(uid, o).Ok? && pager.Some? && Entry(pager.value, PAGERDUTY_KEY) != "" && snitch.Some?
  {
  }

  lemma PrerequisitesStored(s: Settings, uid: nat, c: Cluster, o: Object)
    ensures var pager, snitch := DataIn(Look(c, s.SecretKey(s.pagerdutySecret))), DataIn(Look(c, s.SecretKey(s.deadMansSnitchSecret)));
      && (PrerequisitesMet(s, uid, InputsOf(s, c), o) <==>
          Owned(uid, o).Ok? && pager.Some? && Entry(pager.value, PAGERDUTY_KEY) != "" && snitch.Some?)
      && InputsOf(s, c).deadMansSnitch == snitch
  {
  }

  /** Once a reply falls short of the prerequisites, no further one can help. */
  lemma PrerequisitesMissed(s: Settings, uid: nat, asked: seq<Exchange>, o: Object)
    ensures Owned(uid, o).Err?
            || (0 < |asked| && (!asked[0].resp.Found? || Entry(DataOf(asked[0].resp.obj), PAGERDUTY_KEY) == ""))
            || (1 < |asked| && !asked[1].resp.Found?) ==>
      forall more :: asked <= more ==>
        !PrerequisitesMet(s, uid, InputsHeard(AlertmanagerConfigTask, NOTHING_GIVEN, more), o)
  {
    hide InputsHeard, DataOf, Owned;
    forall more | asked <= more
      ensures PrerequisitesMet(s, uid, InputsHeard(AlertmanagerConfigTask, NOTHING_GIVEN, more), o) <==>
              var pager, snitch := DataIn(ReplyAt(more, 0)), DataIn(ReplyAt(more, 1));
              Owned(uid, o).Ok? && pager.Some? && Entry(pager.value, PAGERDUTY_KEY) != "" && snitch.Some?
    {
      PrerequisitesHeard(s, uid, more, o);
    }
  }

  lemma FilledAllAt(s: Settings, snitchURL: string, addresses: seq<string>, smtp: map<string, string>, html: string,
                    template: seq<Receiver>, filled: seq<Receiver>)
    requires |filled| == |template|
    requires forall k :: 0 <= k < |template| ==> filled[k] == Filled(s, snitchURL, addresses, smtp, html, template[k])
    ensures filled == FilledAll(s, snitchURL, addresses, smtp, html, template)
  {
  }

  /** In this pass a write of the Console would follow its list and its get. */
  predicate ConsoleAsked(s: Settings, v: View, base: Object, found: bool) {
    |v.log| >= 2
    && var listed, got := v.log[|v.log| - 2], v.log[|v.log| - 1];
       && listed.req == List(Console, None) && listed.resp.Items? && !Lists(listed.resp.items, CONSOLE_NAME)
       && got.req == Get(s.ConsoleClusterKey())
       && if found then got.resp == Found(base) else got.resp.NotFound? && base == NEW_OBJECT
  }

  /** The pass has just listed the Consoles, and none of them has the plugin. */
  predicate ConsoleListed(v: View) {
    && v.log != [] && Last(v.log).req == List(Console, None)
    && Last(v.log).resp.Items? && !Lists(Last(v.log).resp.items, CONSOLE_NAME)
  }

  lemma ConsoleGot(s: Settings, v: View, resp: Response)
    requires ConsoleListed(v) && (resp.Found? || resp.NotFound?)
    ensures ConsoleAsked(s, AfterGet(v, s.ConsoleClusterKey(), resp), if resp.Found? then resp.obj else NEW_OBJECT, resp.Found?)
  {
  }

  lemma InstallingReconciles(s: Settings, v: View)
    requires Installing(s, v)
    ensures v.mode.Reconciling?
  {
  }

  lemma TaskKeys(s: Settings, t: Task)
    ensures var k := KeyOf(s, t);
      && !OffLimits(k.kind) && !k.kind.CSV? && (k.kind.NooBaa? <==> t.NoobaaTask?) && (k == s.NoobaaKey() <==> t.NoobaaTask?)
      && (k.kind.Console? <==> t.ConsoleClusterTask?)
  {
  }

  lemma ConsoleOwed(s: Settings, v: View, x: Context, i: Inputs, base: Object, found: bool)
    requires ConsoleAsked(s, v, base, found)
    ensures var req := WriteOwed(s.ConsoleClusterKey(), base, found, Wanted(s, x, i, ConsoleClusterTask, base).value);
      req.Some? ==> ConsoleGranted(s, v, req.value)
  {
    assert [] + [CONSOLE_NAME] == [CONSOLE_NAME];
  }

  /** In this pass a write of NooBaa would follow its list and its get, for what the caller gives. */
  ghost predicate NoobaaAsked(s: Settings, v: View, g: Given, base: Object, found: bool) {
    && |v.log| >= 2 && QuietSoFar(s, v.log) && s.NoobaaKey() in v.seen && g.annotations == NoobaaCopy(s, v).annotations
    && var listed, got := v.log[|v.log| - 2], v.log[|v.log| - 1];
       && listed.req == List(BackingStore, Some(s.namespace)) && g.defaultStore == DefaultStore(ItemsIn(listed.resp))
       && got.req == Get(s.NoobaaKey())
       && if found then got.resp == Found(base) else got.resp.NotFound? && base == NoobaaCopy(s, v)
  }

  /** The pass has just listed the backing stores, and written nothing yet but its ManagedMCG. */
  ghost predicate NoobaaListed(s: Settings, v: View, g: Given) {
    && v.log != [] && QuietSoFar(s, v.log) && s.NoobaaKey() in v.seen && g.annotations == NoobaaCopy(s, v).annotations
    && Last(v.log).req == List(BackingStore, Some(s.namespace)) && g.defaultStore == DefaultStore(ItemsIn(Last(v.log).resp))
  }

  lemma NoobaaGot(s: Settings, v: View, g: Given, resp: Response)
    requires NoobaaListed(s, v, g) && (resp.Found? || resp.NotFound?)
    ensures NoobaaAsked(s, AfterGet(v, s.NoobaaKey(), resp), g, if resp.Found? then resp.obj else NoobaaCopy(s, v), resp.Found?)
  {
  }

  lemma NoobaaOwed(s: Settings, v: View, x: Context, i: Inputs, g: Given, base: Object, found: bool)
    requires NoobaaAsked(s, v, g, base, found) && i.defaultStore == g.defaultStore && x.noobaa.annotations == g.annotations
    ensures var req := WriteOwed(s.NoobaaKey(), base, found, Wanted(s, x, i, NoobaaTask, base).value);
      req.Some? ==> NoobaaGranted(s, v, req.value)
  {
    hide QuietSoFar, NoobaaWanted, DefaultStore;
  }

  lemma QuietMore(s: Settings, log: seq<Exchange>, more: seq<Exchange>)
    requires QuietSoFar(s, log) && forall i :: 0 <= i < |more| ==> IsRead(more[i]) || more[i].req.key == s.McgKey()
    ensures QuietSoFar(s, log + more)
  {
  }

  lemma StillQuiet(s: Settings, v: View, w: View, e: Exchange)
    requires QuietSoFar(s, v.log) && w.log == v.log + [e] && IsRead(e)
    ensures QuietSoFar(s, w.log)
  {
  }

  lemma StoresListed(s: Settings, v: View, w: View, e: Exchange, g: Given)
    requires QuietSoFar(s, v.log) && w.log == v.log + [e] && s.NoobaaKey() in w.seen
    requires e.req == List(BackingStore, Some(s.namespace)) && g.defaultStore == DefaultStore(ItemsIn(e.resp))
    requires g.annotations == NoobaaCopy(s, w).annotations
    ensures NoobaaListed(s, w, g)
  {
    hide DefaultStore, NoobaaCopy;
  }

  lemma QuietReads(s: Settings, log: seq<Exchange>)
    requires OnlyRead(log)
    ensures QuietSoFar(s, log)
  {
  }

  /** The write that create-or-update owes is one the pass may send. */
  lemma OwedIsAllowed(s: Settings, v: View, x: Context, i: Inputs, t: Task, g: Given, base: Object, found: bool)
    requires Installing(s, v) && Wanted(s, x, i, t, base).Ok?
    requires t.NoobaaTask? ==>
      NoobaaAsked(s, v, g, base, found) && i.defaultStore == g.defaultStore && x.noobaa.annotations == g.annotations
    requires t.ConsoleClusterTask? ==> ConsoleAsked(s, v, base, found)
    ensures var req := WriteOwed(KeyOf(s, t), base, found, Wanted(s, x, i, t, base).value);
      req.Some? ==> Allowed(s, v, req.value) && (req.value.Create? || req.value.Update?) && req.value.key == KeyOf(s, t)
  {
    InstallingReconciles(s, v);
    TaskKeys(s, t);
    if t.ConsoleClusterTask? {
      ConsoleOwed(s, v, x, i, base, found);
    }
    if t.NoobaaTask? {
      NoobaaOwed(s, v, x, i, g, base, found);
    }
    hide Installing, Wanted, KeyOf, ConsoleGranted, ConsoleAsked, NoobaaGranted, NoobaaAsked, Completed;
  }

  /** What the caller gives matters to two tasks only. */
  lemma GivenIgnored(s: Settings, x: Context, t: Task, g: Given, asked: seq<Exchange>, o: Object)
    requires t.PrometheusTask? || t.AlertmanagerConfigTask? || t.NoobaaRulesTask?
    ensures Mutated(s, x, t, g, asked, o) == Mutated(s, x, t, NOTHING_GIVEN, asked, o)
    ensures Asks(s, x, t, g, asked, o) <==> Asks(s, x, t, NOTHING_GIVEN, asked, o)
  {
    hide Wanted;
    forall more ensures Mutated(s, x, t, g, more, o) == Mutated(s, x, t, NOTHING_GIVEN, more, o) {
    }
  }

  lemma NoPrerequisites(s: Settings, x: Context, asked: seq<Exchange>, o: Object)
    requires forall more :: asked <= more ==> !PrerequisitesMet(s, x.mcg.uid, InputsHeard(AlertmanagerConfigTask, NOTHING_GIVEN, more), o)
    ensures InVain(s, x, AlertmanagerConfigTask, NOTHING_GIVEN, asked, o)
    ensures Mutated(s, x, AlertmanagerConfigTask, NOTHING_GIVEN, asked, o).Err?
  {
    hide InputsHeard, FilledAll, SmtpComplete;
    forall more | asked <= more ensures Mutated(s, x, AlertmanagerConfigTask, NOTHING_GIVEN, more, o).Err? {
      assert !PrerequisitesMet(s, x.mcg.uid, InputsHeard(AlertmanagerConfigTask, NOTHING_GIVEN, more), o);
    }
  }

  lemma MutatedIsWanted(s: Settings, x: Context, t: Task, g: Given, asked: seq<Exchange>, o: Object)
    requires Mutated(s, x, t, g, asked, o).Ok?
    ensures Mutated(s, x, t, g, asked, o) == Wanted(s, x, InputsHeard(t, g, asked), t, o)
  {
    hide Wanted, InputsHeard;
  }

  lemma SameLogAsks(s: Settings, v: View, w: View, g: Given, base: Object, found: bool)
    requires Extends(v, w) && w.log == v.log
    ensures ConsoleAsked(s, v, base, found) ==> ConsoleAsked(s, w, base, found)
    ensures NoobaaAsked(s, v, g, base, found) ==> NoobaaAsked(s, w, g, base, found)
  {
  }

  lemma ConsoleTaskKey(s: Settings, x: Context)
    ensures KeyOf(s, ConsoleClusterTask) == s.ConsoleClusterKey() && Base(x, ConsoleClusterTask) == NEW_OBJECT
  {
  }

  lemma ReadOnExtends(v: View, w: View)
    requires ReadOn(v, w)
    ensures Extends(v, w) && w.writeFailed == v.writeFailed && w.added == v.added
  {
  }

  lemma SameNoobaaCopy(s: Settings, v: View, w: View)
    requires Extends(v, w) && s.NoobaaKey() in v.seen
    ensures NoobaaCopy(s, w) == NoobaaCopy(s, v)
  {
  }

  lemma NoobaaTaskKey(s: Settings)
    ensures KeyOf(s, NoobaaTask) == s.NoobaaKey()
  {
  }

  /** How writing in the calm ends: with the written store, or with an error and nothing changed. */
  predicate WrittenAs(written: Option<Cluster>, before: Cluster, after: Cluster, out: Outcome) {
    !out.Exists? && if out.Nil? then written == Some(after) else written.None? && after == before
  }

  lemma WriteOutcome(c: Cluster, k: Key, o: Object)
    requires k in c.objects ==> o != c.objects[k]
    ensures var r := Exec(c, if k in c.objects then Update(k, o) else Create(k, o));
      WrittenAs(Written(c, k, o), c, r.0, OutcomeOf(r.1))
  {
  }

  /** Without its deployment the console's service is not brought up to date. */
  lemma NoDeployment(s: Settings, x: Context, c: Cluster)
    requires !Look(c, s.ConsoleDeploymentKey()).Found?
    ensures StepRun(s, x, c, Bring(ConsoleServiceTask)) == (c, true)
  {
  }

  lemma NothingGiven(t: Task)
    requires !t.NoobaaTask? && !t.ConsoleServiceTask?
    ensures forall i :: GivenMatches(t, NOTHING_GIVEN, i)
  {
  }

  lemma DeploymentGiven(s: Settings, c: Cluster, o: Object)
    requires Look(c, s.ConsoleDeploymentKey()) == Found(o)
    ensures GivenMatches(ConsoleServiceTask, Given(map[], "", o.uid), InputsOf(s, c))
  {
  }

  /** Components seen ready stay so for the rest of the pass. */
  lemma ReadyStays(s: Settings, v: View, w: View)
    requires Extends(v, w) && StatesSeen(s, v) == ALL_READY
    ensures StatesSeen(s, w) == ALL_READY
  {
  }

  lemma SeenLabel(s: Settings, v: View, w: View)
    requires Extends(v, w) && s.AddonConfigMapKey() in v.seen
    ensures SawDeletionLabel(s, w) == SawDeletionLabel(s, v)
  {
  }

  lemma SameCopy(s: Settings, v: View, w: View)
    requires Extends(v, w) && HasCopy(s, v)
    ensures HasCopy(s, w) && Copy(s, w) == Copy(s, v)
  {
  }

  lemma SameStates(s: Settings, v: View, w: View)
    requires v.seen == w.seen
    ensures StatesSeen(s, v) == StatesSeen(s, w)
  {
  }

  lemma GoneKept(s: Settings, v: View, w: View)
    requires Extends(v, w) && Gone(s, v)
    ensures !HasCopy(s, w)
  {
  }

  /** Bringing an object up to date in terms of the mutated object. */
  lemma BroughtIs(s: Settings, x: Context, c: Cluster, t: Task)
    ensures forall d: Cluster, out: Outcome ::
      (match Wanted(s, x, InputsOf(s, c), t, Present(x, c, t, KeyOf(s, t)))
       case Err => out.Failed? && d == c
       case Ok(o) => WrittenAs(Written(c, KeyOf(s, t), o), c, d, out))
      ==> WrittenAs(Brought(s, x, c, t), c, d, out)
  {
    hide Wanted, KeyOf, Written, InputsOf, Present;
  }

  /** Step `n` is one that needs nothing but its mutate function, and starts from `base`. */
  predicate PlainStep(x: Context, n: nat, base: Object)
    requires n < RESOURCE_STEPS
  {
    && ArmStep(n).Bring? && base == Base(x, ArmStep(n).task)
    && var t := ArmStep(n).task;
       !t.NoobaaTask? && !t.ConsoleServiceTask? && !t.ConsolePluginTask? && !t.ConsoleClusterTask?
  }

  lemma PlainSteps(x: Context)
    ensures PlainStep(x, 5, NEW_OBJECT) && PlainStep(x, 6, NEW_OBJECT) && PlainStep(x, 7, NEW_OBJECT)
    ensures PlainStep(x, 8, NEW_OBJECT) && PlainStep(x, 9, x.prometheus) && PlainStep(x, 10, x.alertmanager)
    ensures PlainStep(x, 11, NEW_OBJECT) && PlainStep(x, 13, NEW_OBJECT) && PlainStep(x, 14, NEW_OBJECT)
    ensures PlainStep(x, 15, NEW_OBJECT)
  {
  }

  lemma LabelAllowed(s: Settings, v: View, k: Key, o: Object)
    requires Installing(s, v) && (k.kind.PodMonitor? || k.kind.ServiceMonitor? || k.kind.PrometheusRule?)
    ensures Allowed(s, v, Update(k, o))
  {
    InstallingReconciles(s, v);
    hide Installing;
  }

  lemma CsvUpdateAllowed(s: Settings, v: View, k: Key, o: Object)
    requires Installing(s, v) && k.kind.CSV?
    ensures Allowed(s, v, Update(k, o))
  {
    InstallingReconciles(s, v);
    hide Installing;
  }

  lemma ListMatches(kind: Kind, scope: Option<string>, resp: Response)
    requires Fits(List(kind, scope), resp) && resp.Items?
    ensures forall i :: 0 <= i < |resp.items| ==> resp.items[i].key.kind == kind
  {
  }

  /** From store `c`, labelling the items that are left leads where the labelling of the kind leads from `start`. */
  ghost predicate LabelsTo(s: Settings, start: Cluster, kind: Kind, c: Cluster, left: seq<Item>) {
    UpdateAll(c, left) == LabelKind(s, start, kind) && UpdatedUntil(c, left) == LabelledUntil(s, start, kind)
  }

  lemma LabelsFrom(s: Settings, start: Cluster, kind: Kind)
    ensures LabelsTo(s, start, kind, start, ListOf(start, kind, Some(s.namespace)))
  {
  }

  lemma LabelNext(s: Settings, start: Cluster, kind: Kind, c: Cluster, items: seq<Item>, i: nat)
    requires i < |items| && LabelsTo(s, start, kind, c, items[i..])
    ensures match Accepted(Exec(c, Update(items[i].key, Labelled(items[i]))))
            case None => LabelKind(s, start, kind).None? && LabelledUntil(s, start, kind) == c
            case Some(d) => LabelsTo(s, start, kind, d, items[i + 1..])
  {
    hide Exec, Labelled, LabelKind, LabelledUntil;
    assert items[i..][1..] == items[i + 1..];
  }

  lemma LabelsOver(s: Settings, start: Cluster, kind: Kind, c: Cluster)
    requires LabelsTo(s, start, kind, c, [])
    ensures LabelKind(s, start, kind) == Some(c) && LabelledUntil(s, start, kind) == c
  {
  }

  lemma LabelsNoted(s: Settings, kind: Kind, log: seq<Exchange>, err: bool)
    requires 1 <= |log| && log[0].req == List(kind, Some(s.namespace))
    requires if !log[0].resp.Items? then err && |log| == 1
             else
               && |log| <= 1 + |log[0].resp.items|
               && (forall j :: 1 <= j < |log| ==>
                     log[j].req == Update(log[0].resp.items[j - 1].key, Labelled(log[0].resp.items[j - 1])))
               && (forall j :: 1 <= j < |log| && (!err || j < |log| - 1) ==> log[j].resp.Stored?)
               && (if err then 1 < |log| && !Last(log).resp.Stored? else |log| == 1 + |log[0].resp.items|)
    ensures LabelsInOrder(s, kind, log, err)
  {
    hide Labelled;
  }

  lemma LabelPartsDone(s: Settings, pods: seq<Exchange>, services: seq<Exchange>, rules: seq<Exchange>, err: bool)
    requires LabelPartsLogged(s, pods, services, rules, err)
    ensures LabelsLogged(s, pods + services + rules, err)
  {
    hide LabelPartsLogged;
  }

  lemma StillOnlyReads(v: View, w: View)
    requires OnlyRead(v.log) && ReadOn(v, w)
    ensures OnlyRead(w.log)
  {
    assert w.log == v.log + w.log[|v.log|..];
  }

  // Logs of create-or-update

  lemma GetFailed(s: Settings, x: Context, t: Task, g: Given)
    ensures BroughtUp(s, x, t, g, [Exchange(Get(KeyOf(s, t)), Failure)], Failed)
  {
  }

  lemma LookupThenWrite(s: Settings, x: Context, t: Task, g: Given, resp: Response, rest: seq<Exchange>, out: Outcome)
    requires resp.Found? || resp.NotFound?
    requires Brings(s, x, t, g, if resp.Found? then resp.obj else Base(x, t), resp.Found?, rest, out)
    ensures BroughtUp(s, x, t, g, [Exchange(Get(KeyOf(s, t)), resp)] + rest, out)
  {
    hide Brings, KeyOf, Base;
    assert ([Exchange(Get(KeyOf(s, t)), resp)] + rest)[1..] == rest;
  }

  lemma NothingOwed(s: Settings, x: Context, t: Task, g: Given, base: Object, found: bool, asked: seq<Exchange>, out: Outcome)
    requires Asks(s, x, t, g, asked, base) && OnlyRead(asked)
    requires match Mutated(s, x, t, g, asked, base)
             case Err => out.Failed?
             case Ok(o) => WriteOwed(KeyOf(s, t), base, found, o).None? && out.Nil?
    ensures Brings(s, x, t, g, base, found, asked, out)
  {
    hide Mutated, KeyOf, Asks;
    assert ReadsOf(asked) == asked;
  }

  lemma WriteSent(s: Settings, x: Context, t: Task, g: Given, base: Object, found: bool, asked: seq<Exchange>, e: Exchange)
    requires Asks(s, x, t, g, asked, base) && Mutated(s, x, t, g, asked, base).Ok? && !IsRead(e)
    requires WriteOwed(KeyOf(s, t), base, found, Mutated(s, x, t, g, asked, base).value) == Some(e.req)
    ensures Brings(s, x, t, g, base, found, asked + [e], OutcomeOf(e.resp))
  {
    hide Mutated, KeyOf, Asks, WriteOwed;
    assert (asked + [e])[..|asked|] == asked && ReadsOf(asked + [e]) == asked;
  }

  // Logs of the arm

  lemma ArmLoggedMore(s: Settings, x: Context, logs: seq<seq<Exchange>>, log: seq<Exchange>, err: bool)
    requires ArmLogged(s, x, logs, false) && |logs| < RESOURCE_STEPS && StepLogged(s, x, ArmStep(|logs|), log, err)
    ensures ArmLogged(s, x, logs + [log], err)
  {
    hide StepLogged;
    forall n: nat | n < |logs + [log]|
      ensures StepLogged(s, x, ArmStep(n), (logs + [log])[n], err && n == |logs + [log]| - 1)
    {
      assert n < |logs| ==> (logs + [log])[n] == logs[n];
    }
  }

  /** Once a step has failed, it stays so. */
  lemma {:induction false} ArmRunStuck(s: Settings, x: Context, c: Cluster, n: nat, m: nat)
    requires n <= m <= ARM_LENGTH && ArmRun(s, x, c, n).1
    ensures ArmRun(s, x, c, m) == ArmRun(s, x, c, n)
  {
    hide StepRun;
    if n < m {
      ArmRunStuck(s, x, c, n, m - 1);
    }
  }

  lemma ArmRunNext(s: Settings, x: Context, c: Cluster, n: nat, d: Cluster)
    requires n < ARM_LENGTH && ArmRun(s, x, c, n) == (d, false)
    ensures ArmRun(s, x, c, n + 1) == StepRun(s, x, d, ArmStep(n))
  {
    hide StepRun;
  }
}
