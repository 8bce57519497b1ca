/** Single passes within a run: what a pass has done and seen before it sends a given request. */
module Passes {
  import opened Utils
  import opened Cluster
  import opened Config
  import opened States
  import opened Desired
  import opened Logs
  import opened Protocol

  /** No pass begins among the events from `b` up to `n`. */
  predicate SamePass(r: Run, b: nat, n: nat) {
    b <= n <= |r.events| && forall m :: b <= m < n ==> !r.events[m].Begin?
  }

  lemma ObserveExtends(s: Settings, v: View, req: Request, resp: Response)
    ensures Extends(v, Observe(s, v, req, resp))
  {
    LearntFromRead(s, v, req, resp);
    LearntFlags(s, v, req, resp);
    hide Learn;
  }

  lemma LearntFlags(s: Settings, v: View, req: Request, resp: Response)
    ensures var w := Learn(s, v, req, resp);
      && w.mode == v.mode && (v.added ==> w.added) && (v.drained ==> w.drained) && (v.stripped ==> w.stripped)
      && (v.deleted ==> w.deleted) && (v.writeFailed ==> w.writeFailed)
  {
  }

  /** Within a pass, knowledge only grows. */
  lemma {:induction false} ViewsGrow(s: Settings, r: Run, b: nat, n: nat)
    requires IsRun(s, r) && SamePass(r, b, n)
    ensures Extends(r.views[b], r.views[n])
    decreases n - b
  {
    hide Legal, Next, Observe;
    if b < n {
      ViewsGrow(s, r, b, n - 1);
      var v := r.views[n - 1];
      match r.events[n - 1] {
        case Env(_) =>
        case Call(req, _, resp) => ObserveExtends(PassSettings(s, v.mode), v, req, resp);
      }
    }
  }

  // Events of one pass

  /** Event `m` is served, a list or a get, and its reply is what the store had then. */
  lemma ServedRead(s: Settings, r: Run, m: nat)
    requires IsRun(s, r) && m < |r.events| && r.events[m].Call? && (r.events[m].req.Get? || r.events[m].req.List?)
    ensures r.events[m].resp == Exec(r.states[m], r.events[m].req).1 || r.events[m].resp == Failure
  {
    hide Allowed, Observe, Exec;
  }

  /** Between two entries of the log that are next to each other, only others act. */
  lemma {:induction false} OnlyOthers(s: Settings, r: Run, m: nat, n: nat)
    requires IsRun(s, r) && SamePass(r, m, n) && m <= n <= |r.events| && r.views[m].log == r.views[n].log
    ensures forall e :: m <= e < n ==> r.events[e].Env?
    decreases n - m
  {
    hide Legal, Next, Learn;
    if m < n {
      ViewsGrow(s, r, m, n - 1);
      ViewsGrow(s, r, n - 1, n);
      OnlyOthers(s, r, m, n - 1);
    }
  }

  lemma CallLogged(s: Settings, r: Run, m: nat)
    requires IsRun(s, r) && m < |r.events| && r.events[m].Call?
    ensures r.views[m + 1].log == r.views[m].log + [Exchange(r.events[m].req, r.events[m].resp)]
  {
    hide Allowed, Learn;
  }

  lemma RunLengths(s: Settings, r: Run)
    requires IsRun(s, r)
    ensures |r.states| == |r.events| + 1 == |r.views|
  {
  }

  /** Events of one pass stand in the order of the logs before them. */
  lemma InOrderInPass(s: Settings, r: Run, l: nat, g: nat, n: nat)
    requires IsRun(s, r) && l < n <= |r.events| && g < n && SamePass(r, l, n) && SamePass(r, g, n)
    requires |r.views[l].log| < |r.views[g].log|
    ensures l < g
  {
    hide Legal, Next, NextView;
    if g <= l {
      ViewsGrow(s, r, g, l);
    }
  }

  lemma WriteEffect(s: Settings, r: Run, n: nat)
    requires IsRun(s, r) && n < |r.events| && r.events[n].Call?
    ensures r.states[n + 1] == r.states[n] || r.states[n + 1] == Exec(r.states[n], r.events[n].req).0
  {
    hide Allowed, Exec, Observe;
  }

  lemma CallIsLegal(s: Settings, r: Run, n: nat)
    requires IsRun(s, r) && n < |r.events| && r.events[n].Call?
    ensures Allowed(PassSettings(s, r.views[n].mode), r.views[n], r.events[n].req)
  {
    hide Allowed, Next, NextView;
  }

  // No resurrection

  /** All but the finalizers, the deletion stamp, the status and the version. */
  predicate SameBody(o: Object, p: Object) {
    o.uid == p.uid && o.labels == p.labels && o.annotations == p.annotations && o.owner == p.owner && o.spec == p.spec
  }

  /** `after` has no object that `before` lacks, and none with another body. */
  ghost predicate OnlyLess(before: Cluster, after: Cluster) {
    forall k :: k in after.objects ==> k in before.objects && SameBody(before.objects[k], after.objects[k])
  }

  lemma StampedIsNotInstalling(s: Settings, v: View, w: View)
    requires Extends(v, w) && Stamped(s, w)
    ensures !Installing(s, v) && v.mode.Reconciling? && (HasCopy(s, v) ==> Stamped(s, v))
  {
  }

  /** An update of a remembered object that only touches finalizers and status keeps the body. */
  lemma BodyKept(c: Cluster, v: View, k: Key, o: Object)
    requires WellFormed(c) && Remembers(c, v) && SeenLogged(v)
    requires o.rv == SeenObject(v, k).rv && SameBody(o, SeenObject(v, k))
    ensures OnlyLess(c, Exec(c, Update(k, o)).0)
  {
    if k in v.seen && v.seen[k].Found? {
      RememberedSeen(c, v, k);
    }
  }

  lemma RemovalsOnlyLess(c: Cluster, req: Request)
    requires req.Delete? || req.UpdateStatus? || req.Get? || req.List?
    ensures OnlyLess(c, Exec(c, req).0)
  {
  }

  lemma UninstallingRequest(s: Settings, c: Cluster, v: View, req: Request)
    requires Inv(s, c, v) && Allowed(s, v, req) && !Installing(s, v) && v.mode.Reconciling? && (HasCopy(s, v) ==> Stamped(s, v))
    ensures !req.Create? && OnlyLess(c, Exec(c, req).0)
  {
    hide Installing, NoobaaState, Gone, Exec, OnlyLess;
    match req {
      case Update(k, o) => BodyKept(c, v, k, o);
      case Create(_, _) =>
      case _ => RemovalsOnlyLess(c, req);
    }
  }

  /**
   No resurrection: in a pass that finds the ManagedMCG stamped, no request creates an object, and none changes the
   spec, the labels, the annotations or the owner of any, wherever the pass fails and whatever it sees.
   */
  lemma NoResurrection(s: Settings, r: Run, b: nat, n: nat, e: nat)
    requires IsRun(s, r) && SamePass(r, b, e) && b <= n < e && r.events[n].Call?
    requires Stamped(PassSettings(s, r.views[e].mode), r.views[e])
    ensures !r.events[n].req.Create? && OnlyLess(r.states[n], r.states[n + 1])
  {
    RunKeepsInv(s, r, n);
    ViewsGrow(s, r, n, e);
    var p := PassSettings(s, r.views[n].mode);
    StampedIsNotInstalling(p, r.views[n], r.views[e]);
    UninstallingRequest(p, r.states[n], r.views[n], r.events[n].req);
  }

  // NooBaa is struck only after the bucket classes are gone

  /** Event `m` is a served list of the namespace's bucket classes that came back empty. */
  predicate ListedNone(s: Settings, r: Run, m: nat) {
    && m < |r.events| && r.events[m].Call?
    && r.events[m].req == List(BucketClass, Some(s.namespace)) && r.events[m].resp == Items([])
  }

  lemma Drains(s: Settings, v: View, req: Request, resp: Response)
    requires Observe(s, v, req, resp).drained && !v.drained
    ensures req == List(BucketClass, Some(s.namespace)) && resp == Items([])
  {
  }

  lemma {:induction false} DrainedSince(s: Settings, r: Run, n: nat) returns (m: nat)
    requires IsRun(s, r) && n <= |r.events| && r.views[n].drained
    ensures m < n && SamePass(r, m, n) && ListedNone(s, r, m)
  {
    hide Legal, Next, Observe;
    if !r.views[n - 1].drained {
      m := n - 1;
      match r.events[m] {
        case Env(_) =>
        case Begin(_) =>
        case Call(req, _, resp) => Drains(PassSettings(s, r.views[m].mode), r.views[m], req, resp);
      }
    } else {
      m := DrainedSince(s, r, n - 1);
    }
  }

  lemma EmptyListMeansNone(s: Settings, c: Cluster, k: Key)
    requires WellFormed(c) && ListOf(c, BucketClass, Some(s.namespace)) == []
    requires k.kind.BucketClass? && k.namespace == s.namespace
    ensures k !in c.objects
  {
    if k in c.objects {
      SelectExact(c.objects, c.order, BucketClass, Some(s.namespace), Item(k, c.objects[k]));
    }
  }

  /** A request to take NooBaa down: to strip it in an uninstalling pass, or to delete it. */
  predicate Strikes(s: Settings, v: View, req: Request) {
    || (req.Update? && req.key == s.NoobaaKey() && Stamped(s, v))
    || (req.Delete? && req.key.kind.NooBaa?)
  }

  lemma StrikesWhenDrained(s: Settings, v: View, req: Request)
    requires Allowed(s, v, req) && Strikes(s, v, req)
    ensures v.drained && (req.Delete? ==> v.stripped && req.key == s.NoobaaKey())
  {
  }

  /**
   Whenever the operator strips or deletes NooBaa, there was a moment earlier in the same pass at which the namespace
   had no bucket class, and the operator saw so.
   */
  lemma NoobaaStruckAfterDrain(s: Settings, r: Run, n: nat) returns (m: nat)
    requires IsRun(s, r) && n < |r.events| && r.events[n].Call?
    requires Strikes(PassSettings(s, r.views[n].mode), r.views[n], r.events[n].req)
    ensures m < n && SamePass(r, m, n) && ListedNone(s, r, m)
    ensures forall k: Key :: k.kind.BucketClass? && k.namespace == s.namespace ==> k !in r.states[m].objects
  {
    hide Allowed, Next, NextView;
    StrikesWhenDrained(PassSettings(s, r.views[n].mode), r.views[n], r.events[n].req);
    m := DrainedSince(s, r, n);
    RunKeepsInv(s, r, m);
    forall k: Key | k.kind.BucketClass? && k.namespace == s.namespace ensures k !in r.states[m].objects {
      EmptyListMeansNone(s, r.states[m], k);
    }
  }

  // The deletion gate

  /** Event `m` is a get of `k` with this reply. */
  predicate GotAt(r: Run, m: nat, k: Key, resp: Response) {
    m < |r.events| && r.events[m].Call? && r.events[m].req == Get(k) && r.events[m].resp == resp
  }

  lemma Learns(s: Settings, v: View, req: Request, resp: Response, k: Key)
    requires k in Observe(s, v, req, resp).seen && k !in v.seen
    ensures req == Get(k) && Observe(s, v, req, resp).seen[k] == resp
  {
  }

  lemma Recalls(s: Settings, v: View, req: Request, resp: Response, k: Key)
    requires k in v.seen
    ensures k in Observe(s, v, req, resp).seen && Observe(s, v, req, resp).seen[k] == v.seen[k]
  {
  }

  /** What the pass has seen, it has read: at some event of the same pass, from the store as it was then. */
  lemma {:induction false} SeenIsRead(s: Settings, r: Run, n: nat, k: Key) returns (m: nat)
    requires IsRun(s, r) && n <= |r.events| && k in r.views[n].seen
    ensures m < n && SamePass(r, m, n) && GotAt(r, m, k, r.views[n].seen[k])
    ensures r.views[n].seen[k].Found? ==> k in r.states[m].objects && r.states[m].objects[k] == r.views[n].seen[k].obj
  {
    hide Allowed, Permitted, Apply, Observe;
    var v := r.views[n - 1];
    match r.events[n - 1] {
      case Env(_) => m := SeenIsRead(s, r, n - 1, k);
      case Begin(_) => assert false;
      case Call(req, fate, resp) =>
        if k in v.seen {
          Recalls(PassSettings(s, v.mode), v, req, resp, k);
          m := SeenIsRead(s, r, n - 1, k);
        } else {
          Learns(PassSettings(s, v.mode), v, req, resp, k);
          m := n - 1;
        }
    }
  }

  /** A create or update that counts as done. */
  predicate WentThrough(e: Event) {
    e.Call? && (e.req.Create? || e.req.Update?) ==> e.resp.Stored? || (e.req.Create? && e.resp.AlreadyExists?)
  }

  lemma FailureIsNoted(s: Settings, v: View, req: Request, resp: Response)
    requires !Observe(s, v, req, resp).writeFailed
    ensures !v.writeFailed && WentThrough(Call(req, Served, resp))
  {
  }

  lemma {:induction false} NoFailureSoFar(s: Settings, r: Run, b: nat, n: nat)
    requires IsRun(s, r) && SamePass(r, b, n) && !r.views[n].writeFailed
    ensures forall m :: b <= m < n ==> WentThrough(r.events[m])
    decreases n - b
  {
    hide Legal, Next, Observe;
    if b < n {
      var e := r.events[n - 1];
      if e.Call? {
        FailureIsNoted(PassSettings(s, r.views[n - 1].mode), r.views[n - 1], e.req, e.resp);
      }
      NoFailureSoFar(s, r, b, n - 1);
    }
  }

  /** What a pass may have found out about an object. */
  datatype Finding =
    | Present | PhaseReady | WantsReplicas(n: int) | HasReplicas(n: int) | HasLabel(label_: string) | Unstamped(guarded: bool)

  predicate Meets(f: Finding, o: Object) {
    match f
    case Present => true
    case PhaseReady => o.status.phase == "Ready"
    case WantsReplicas(n) =>
      (match o.spec
       case Metrics(Some(m), _, _, _, _) => n == m
       case Replicated(Some(m)) => n == m
       case _ => n == 1)
    case HasReplicas(n) => o.status.readyReplicas >= n
    case HasLabel(l) => l in o.labels
    case Unstamped(guarded) => !o.deleting && (guarded <==> "managedmcg.openshift.io" in o.finalizers)
  }

  /** The pass's first get of `k` found an object as `f` says. */
  predicate Shown(v: View, k: Key, f: Finding) {
    First(v, k).Found? && Meets(f, First(v, k).obj)
  }

  /** The object of `k` was in the store, as `f` says, when this pass read it before event `n`. */
  ghost predicate ReadInPass(r: Run, n: nat, k: Key, f: Finding) {
    exists m: nat ::
      && m < n && SamePass(r, m, n) && m < |r.states| && k in r.states[m].objects
      && GotAt(r, m, k, Found(r.states[m].objects[k])) && Meets(f, r.states[m].objects[k])
  }

  lemma ReadOnce(s: Settings, r: Run, n: nat, k: Key, f: Finding)
    requires IsRun(s, r) && n <= |r.events| && Shown(r.views[n], k, f)
    ensures ReadInPass(r, n, k, f)
  {
    hide Meets;
    var m := SeenIsRead(s, r, n, k);
  }

  lemma MayDelete(s: Settings, v: View, req: Request)
    requires Allowed(s, v, req) && req.Delete? && req.key.kind.ManagedMCG?
    ensures req.key == s.McgKey() && HasCopy(s, v) && SawDeletionLabel(s, v) && !v.writeFailed && !Copy(s, v).deleting
    ensures FINALIZER in Copy(s, v).finalizers ==> StatesSeen(s, v) == ALL_READY
    ensures Completed(s, v)
  {
    hide Completed, StatesSeen;
  }

  /** The component states do not depend on the request. */
  lemma SameStatesSeen(s: Settings, t: Settings, v: View)
    requires t == s.(request := t.request)
    ensures StatesSeen(s, v) == StatesSeen(t, v)
  {
  }

  /** Every component was found ready by reads of this pass; `p` and `a` are the replicas that were wanted. */
  ghost predicate ReadReady(s: Settings, r: Run, n: nat, p: int, a: int) {
    && ReadInPass(r, n, Key(NooBaa, s.namespace, "noobaa"), PhaseReady)
    && ReadInPass(r, n, Key(Prometheus, s.namespace, "managed-mcg-prometheus"), WantsReplicas(p))
    && ReadInPass(r, n, Key(StatefulSet, s.namespace, "prometheus-managed-mcg-prometheus"), HasReplicas(p))
    && ReadInPass(r, n, Key(Alertmanager, s.namespace, "managed-mcg-alertmanager"), WantsReplicas(a))
    && ReadInPass(r, n, Key(StatefulSet, s.namespace, "alertmanager-managed-mcg-alertmanager"), HasReplicas(a))
    && ReadInPass(r, n, Key(ConsolePlugin, "", "mcg-ms-console"), Present)
    && ReadInPass(r, n, Key(Deployment, s.namespace, "mcg-ms-console"), HasReplicas(1))
  }

  /** What first replies that show all components ready have in common. */
  lemma ReadyShows(s: Settings, v: View)
    requires StatesSeen(s, v) == ALL_READY
    ensures Shown(v, s.NoobaaKey(), PhaseReady) && Shown(v, s.PrometheusKey(), Present) && Shown(v, s.AlertmanagerKey(), Present)
    ensures Shown(v, s.PrometheusSetKey(), HasReplicas(DesiredReplicas(First(v, s.PrometheusKey()).obj)))
    ensures Shown(v, s.AlertmanagerSetKey(), HasReplicas(DesiredReplicas(First(v, s.AlertmanagerKey()).obj)))
    ensures Shown(v, s.ConsolePluginKey(), Present) && Shown(v, s.ConsoleDeploymentKey(), HasReplicas(1))
  {
  }

  /** The replicas that were wanted, and the workload that had them. */
  lemma ReplicasRead(s: Settings, r: Run, n: nat, resource: Key, workload: Key) returns (wanted: int)
    requires IsRun(s, r) && n <= |r.events| && Shown(r.views[n], resource, Present)
    requires Shown(r.views[n], workload, HasReplicas(DesiredReplicas(First(r.views[n], resource).obj)))
    ensures ReadInPass(r, n, resource, WantsReplicas(wanted)) && ReadInPass(r, n, workload, HasReplicas(wanted))
  {
    var v := r.views[n];
    hide IsRun, ReadInPass, First;
    wanted := DesiredReplicas(First(v, resource).obj);
    ReadOnce(s, r, n, resource, WantsReplicas(wanted));
    ReadOnce(s, r, n, workload, HasReplicas(wanted));
  }

  lemma ReadyWasRead(s: Settings, r: Run, n: nat)
    requires IsRun(s, r) && n <= |r.events| && StatesSeen(s, r.views[n]) == ALL_READY
    ensures exists p, a :: ReadReady(s, r, n, p, a)
  {
    var v := r.views[n];
    hide IsRun, ReadInPass, StatesSeen, Shown;
    ReadyShows(s, v);
    ReadOnce(s, r, n, s.NoobaaKey(), PhaseReady);
    var p := ReplicasRead(s, r, n, s.PrometheusKey(), s.PrometheusSetKey());
    var a := ReplicasRead(s, r, n, s.AlertmanagerKey(), s.AlertmanagerSetKey());
    ReadOnce(s, r, n, s.ConsolePluginKey(), Present);
    ReadOnce(s, r, n, s.ConsoleDeploymentKey(), HasReplicas(1));
    assert ReadReady(s, r, n, p, a);
  }

  /**
   The deletion gate: when the deletion of the ManagedMCG is requested, all that this pass has sent since it began is
   in its log, and the log ends with the read of the parameters and all sixteen steps of the arm, every one of which
   succeeded: its lists came, its mutate function did not fail, its writes were accepted. The pass has read the
   deletion label, read the object itself without a stamp, sent no create or update that failed, and, unless it had to
   add the finalizer first, read every component as ready.
   */
  lemma DeletionGate(s: Settings, r: Run, n: nat)
    returns (guarded: bool, x: Context, before: seq<Exchange>, params: Object, logs: seq<seq<Exchange>>)
    requires IsRun(s, r) && n < |r.events|
    requires r.events[n].Call? && r.events[n].req.Delete? && r.events[n].req.key.kind.ManagedMCG?
    ensures var t := PassSettings(s, r.views[n].mode);
      && r.events[n].req.key == Key(ManagedMCG, s.namespace, t.request)
      && CompletedAs(t, r.views[n], x, before, params, logs)
      && ReadInPass(r, n, Key(ManagedMCG, s.namespace, t.request), Unstamped(guarded))
    ensures r.views[n].log == Sent(r.events[..n])
    ensures ReadInPass(r, n, Key(ConfigMap, s.namespace, s.addonName), HasLabel(s.deleteLabel))
    ensures guarded ==> exists p, a :: ReadReady(s, r, n, p, a)
    ensures forall m: nat :: m < n && SamePass(r, m, n) ==> WentThrough(r.events[m])
  {
    hide Allowed, Next, NextView, ReadReady, ReadInPass, StatesSeen, CompletedAs;
    var v := r.views[n];
    var t := PassSettings(s, v.mode);
    MayDelete(t, v, r.events[n].req);
    x, before, params, logs :| CompletedAs(t, v, x, before, params, logs);
    LogIsPass(s, r, n);
    ReadOnce(s, r, n, s.AddonConfigMapKey(), HasLabel(s.deleteLabel));
    guarded := FINALIZER in Copy(t, v).finalizers;
    if guarded {
      SameStatesSeen(s, t, v);
      ReadyWasRead(s, r, n);
    }
    ReadOnce(s, r, n, t.McgKey(), Unstamped(guarded));
    forall m: nat | m < n && SamePass(r, m, n) ensures WentThrough(r.events[m]) {
      NoFailureSoFar(s, r, m, n);
    }
  }

  // The log of a pass

  /** The requests since the last start of a pass, with their replies. */
  function Sent(events: seq<Event>): seq<Exchange> {
    if events == [] then []
    else
      match Last(events)
      case Env(_) => Sent(events[..|events| - 1])
      case Begin(_) => []
      case Call(req, _, resp) => Sent(events[..|events| - 1]) + [Exchange(req, resp)]
  }

  /** The log is complete and holds nothing else. */
  lemma {:induction false} LogIsPass(s: Settings, r: Run, n: nat)
    requires IsRun(s, r) && n <= |r.events|
    ensures r.views[n].log == Sent(r.events[..n])
  {
    hide Legal, Next, Learn;
    if n > 0 {
      LogIsPass(s, r, n - 1);
      assert r.events[..n][..n - 1] == r.events[..n - 1];
    }
  }

  /** Entry `i` of the log is event `m` of the same pass, and the entries before it are what was sent before. */
  lemma {:induction false} LoggedAt(s: Settings, r: Run, n: nat, i: nat) returns (m: nat)
    requires IsRun(s, r) && n <= |r.events| && i < |r.views[n].log|
    ensures m < n && SamePass(r, m, n) && r.events[m].Call?
    ensures Exchange(r.events[m].req, r.events[m].resp) == r.views[n].log[i]
    ensures r.views[m].log == r.views[n].log[..i]
  {
    hide Legal, Next, Learn;
    if i < |r.views[n - 1].log| && !r.events[n - 1].Begin? {
      m := LoggedAt(s, r, n - 1, i);
    } else {
      m := n - 1;
    }
  }

  // The default store

  /** A request that changes the default store: how it came to be allowed. */
  lemma StoreChange(s: Settings, c: Cluster, v: View, req: Request)
    requires Inv(s, c, v) && Allowed(s, v, req) && s.NoobaaKey() in c.objects && s.NoobaaKey() in Exec(c, req).0.objects
    requires var d := Exec(c, req).0;
      DefaultStoreOf(d.objects[s.NoobaaKey()]) != DefaultStoreOf(c.objects[s.NoobaaKey()])
    ensures v.mode.Reconciling? && NoobaaGranted(s, v, req) && DefaultStoreOf(NoobaaCopy(s, v)) == ""
    ensures v.log[|v.log| - 1].resp == Found(c.objects[s.NoobaaKey()])
    ensures DefaultStoreOf(Exec(c, req).0.objects[s.NoobaaKey()]) == DefaultStore(ItemsIn(v.log[|v.log| - 2].resp))
  {
    hide Installing, NoobaaState, Gone, ConsoleGranted, Completed, QuietSoFar, DefaultStore;
    ExecFrame(c, req, s.NoobaaKey());
    assert req.Update? && req.key == s.NoobaaKey();
    if s.NoobaaKey() in v.seen && v.seen[s.NoobaaKey()].Found? {
      RememberedSeen(c, v, s.NoobaaKey());
    }
    assert NoobaaGranted(s, v, req);
    var n := |v.log| - 1;
    assert StillStored(c, v.log[n].req.key, v.log[n].resp.obj);
  }

  /**
   The default store is sticky: in a pass that saw NooBaa with a default store at its first look, no request changes
   the default store of the NooBaa that is stored by then, whoever wrote it since, not even while uninstalling.
   */
  lemma DefaultStoreIsSticky(s: Settings, r: Run, n: nat)
    requires IsRun(s, r) && n < |r.events| && r.events[n].Call?
    requires s.NoobaaKey() in r.states[n].objects && s.NoobaaKey() in r.states[n + 1].objects
    requires DefaultStoreOf(NoobaaCopy(s, r.views[n])) != ""
    ensures DefaultStoreOf(r.states[n + 1].objects[s.NoobaaKey()]) == DefaultStoreOf(r.states[n].objects[s.NoobaaKey()])
  {
    hide Allowed, Observe, Inv;
    RunKeepsInv(s, r, n);
    var c, d, k := r.states[n], r.states[n + 1], s.NoobaaKey();
    if !r.events[n].fate.Refused? && DefaultStoreOf(d.objects[k]) != DefaultStoreOf(c.objects[k]) {
      StoreChange(PassSettings(s, r.views[n].mode), c, r.views[n], r.events[n].req);
    }
  }
}
