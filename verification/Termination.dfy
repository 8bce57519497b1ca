/** Uninstalling comes to an end, when no request fails and nobody creates anything. */
module Termination {
  import opened Utils
  import opened Cluster
  import opened Config
  import opened States
  import opened Desired
  import opened Uninstall

  // How much is left to do

  /** The objects an uninstall waits for: the ManagedMCG, NooBaa and the bucket classes. */
  predicate Awaited(s: Settings, k: Key) {
    k == s.McgKey() || k == s.NoobaaKey() || (k.kind.BucketClass? && k.namespace == s.namespace)
  }

  /** An object has to be stamped, lose its finalizers one by one, and go. */
  function Weight(o: Object): nat {
    1 + |o.finalizers| + if o.deleting then 0 else 1
  }

  function WeightAt(s: Settings, objects: map<Key, Object>, k: Key): nat {
    if Awaited(s, k) && k in objects then Weight(objects[k]) else 0
  }

  function Sum(s: Settings, objects: map<Key, Object>, order: seq<Key>): nat {
    if order == [] then 0 else WeightAt(s, objects, order[0]) + Sum(s, objects, order[1..])
  }

  function Left(s: Settings, c: Cluster): nat {
    Sum(s, c.objects, c.order)
  }

  lemma {:induction false} SumAtMost(s: Settings, p: map<Key, Object>, q: map<Key, Object>, order: seq<Key>)
    requires forall k :: WeightAt(s, q, k) <= WeightAt(s, p, k)
    ensures Sum(s, q, order) <= Sum(s, p, order)
    ensures (exists k :: k in order && WeightAt(s, q, k) < WeightAt(s, p, k)) ==> Sum(s, q, order) < Sum(s, p, order)
  {
    hide WeightAt;
    if order != [] {
      SumAtMost(s, p, q, order[1..]);
      assert WeightAt(s, q, order[0]) <= WeightAt(s, p, order[0]);
    }
  }

  lemma {:induction false} SumWithout(s: Settings, q: map<Key, Object>, order: seq<Key>, k: Key)
    requires k !in q
    ensures Sum(s, q, Without(order, k)) == Sum(s, q, order)
  {
    if order != [] {
      SumWithout(s, q, order[1..], k);
      if order[0] != k {
        assert ([order[0]] + Without(order[1..], k))[1..] == Without(order[1..], k);
      }
    }
  }

  /** `d` comes from `c` by making the one object `k` lighter, or taking it away, or only renewing it. */
  ghost predicate Lightened(s: Settings, c: Cluster, d: Cluster, k: Key) {
    && WellFormed(d)
    && (forall j :: j != k ==> (j in d.objects <==> j in c.objects) && (j in c.objects ==> d.objects[j] == c.objects[j]))
    && (k in d.objects ==> k in c.objects && Weight(d.objects[k]) <= Weight(c.objects[k]))
    && (k in d.objects && c.objects[k].deleting ==> d.objects[k].deleting)
    && (d.order == c.order || (d.order == Without(c.order, k) && k !in d.objects))
  }

  lemma LightenedLeft(s: Settings, c: Cluster, d: Cluster, k: Key)
    requires WellFormed(c) && Lightened(s, c, d, k)
    ensures Left(s, d) <= Left(s, c)
    ensures WeightAt(s, d.objects, k) < WeightAt(s, c.objects, k) ==> Left(s, d) < Left(s, c)
  {
    forall j ensures WeightAt(s, d.objects, j) <= WeightAt(s, c.objects, j) {
    }
    SumAtMost(s, c.objects, d.objects, c.order);
    if d.order != c.order {
      SumWithout(s, d.objects, c.order, k);
    }
    if WeightAt(s, d.objects, k) < WeightAt(s, c.objects, k) {
      assert k in c.order;
    }
  }

  /** Deleting an object makes it lighter unless it is stamped already, and then nothing happens. */
  lemma DeleteLightens(s: Settings, c: Cluster, k: Key)
    requires WellFormed(c)
    ensures var d := Exec(c, Delete(k)).0;
      && Lightened(s, c, d, k)
      && (k in c.objects && c.objects[k].deleting ==> d == c)
      && (k in c.objects && !c.objects[k].deleting ==> k !in d.objects || Weight(d.objects[k]) < Weight(c.objects[k]))
      && (k in c.objects && c.objects[k].finalizers == [] ==> k !in d.objects)
      && (k in d.objects ==> d.objects[k].deleting)
  {
  }

  /** Taking a finalizer off. */
  lemma StripLightens(s: Settings, c: Cluster, k: Key, o: Object, f: string)
    requires WellFormed(c) && k in c.objects
    requires o.(status := c.objects[k].status) == c.objects[k].(finalizers := Removed(c.objects[k].finalizers, f))
    ensures var d := Exec(c, Update(k, o)).0;
      && Exec(c, Update(k, o)).1.Stored? && Lightened(s, c, d, k)
      && (f in c.objects[k].finalizers ==> k !in d.objects || Weight(d.objects[k]) < Weight(c.objects[k]))
      && (k in d.objects ==> d.objects[k].finalizers == Removed(c.objects[k].finalizers, f) && d.objects[k].deleting == c.objects[k].deleting)
      && (f !in c.objects[k].finalizers ==> d == c)
      && (c.objects[k].deleting && Removed(c.objects[k].finalizers, f) == [] ==> k !in d.objects)
  {
    if f in c.objects[k].finalizers {
      RemovedShorter(c.objects[k].finalizers, f);
    } else {
      RemovedKeepsOthers(c.objects[k].finalizers, f);
    }
  }

  /** Reporting the status leaves everything but the version and the status of the ManagedMCG. */
  ghost predicate OnlyReported(s: Settings, c: Cluster, d: Cluster) {
    && WellFormed(d) && d.order == c.order
    && (forall k :: k in d.objects <==> k in c.objects)
    && (forall k :: k in c.objects ==> d.objects[k].deleting == c.objects[k].deleting && d.objects[k].finalizers == c.objects[k].finalizers)
    && (forall k :: k in c.objects && k != s.McgKey() ==> d.objects[k] == c.objects[k])
  }

  lemma ReportOnly(s: Settings, c: Cluster, o: Object)
    requires WellFormed(c)
    ensures OnlyReported(s, c, Exec(c, UpdateStatus(s.McgKey(), o)).0)
  {
    ExecWellFormed(c, UpdateStatus(s.McgKey(), o));
    hide WellFormed;
  }

  lemma ReportedLeft(s: Settings, c: Cluster, d: Cluster)
    requires OnlyReported(s, c, d)
    ensures Left(s, d) == Left(s, c)
  {
    hide WellFormed;
    forall j ensures WeightAt(s, d.objects, j) == WeightAt(s, c.objects, j) {
    }
    SumAtMost(s, c.objects, d.objects, c.order);
    SumAtMost(s, d.objects, c.objects, c.order);
  }

  // Sweeping

  /** `d` comes from `c` by deletions of objects of one kind. */
  ghost predicate SweptOf(s: Settings, c: Cluster, d: Cluster, kind: Kind) {
    && WellFormed(d) && Left(s, d) <= Left(s, c)
    && (forall j: Key :: j.kind != kind ==> (j in d.objects <==> j in c.objects) && (j in c.objects ==> d.objects[j] == c.objects[j]))
    && (forall j :: j in d.objects ==> j in c.objects && (c.objects[j].deleting ==> d.objects[j].deleting))
  }

  lemma DeleteSweeps(s: Settings, c: Cluster, k: Key)
    requires WellFormed(c)
    ensures SweptOf(s, c, Exec(c, Delete(k)).0, k.kind)
    ensures k in c.objects && !c.objects[k].deleting && Awaited(s, k) ==> Left(s, Exec(c, Delete(k)).0) < Left(s, c)
  {
    DeleteLightens(s, c, k);
    hide Exec, Left, WellFormed;
    LightenedLeft(s, c, Exec(c, Delete(k)).0, k);
  }

  lemma SweepsCompose(s: Settings, c: Cluster, d: Cluster, e: Cluster, kind: Kind)
    requires SweptOf(s, c, d, kind) && SweptOf(s, d, e, kind)
    ensures SweptOf(s, c, e, kind)
  {
    hide WellFormed, Left;
  }

  /** What remains of a list after it was swept is stamped, and what had no finalizer is gone. */
  lemma {:induction false} SweepLightens(s: Settings, c: Cluster, items: seq<Item>, kind: Kind)
    requires WellFormed(c) && forall i :: 0 <= i < |items| ==> items[i].key.kind == kind
    ensures var d := DeleteAll(c, items);
      && SweptOf(s, c, d, kind)
      && (forall i :: 0 <= i < |items| && items[i].key in d.objects ==> d.objects[items[i].key].deleting)
      && (forall i :: 0 <= i < |items| && items[i].key in c.objects && c.objects[items[i].key].finalizers == [] ==> items[i].key !in d.objects)
    decreases |items|
  {
    hide Exec, WellFormed, Left;
    if items != [] {
      var k, e := items[0].key, Exec(c, Delete(items[0].key)).0;
      DeleteSweeps(s, c, k);
      DeleteLightens(s, c, k);
      SweepLightens(s, e, items[1..], kind);
      var d := DeleteAll(c, items);
      SweepsCompose(s, c, e, d, kind);
      forall i | 0 <= i < |items|
        ensures items[i].key in d.objects ==> d.objects[items[i].key].deleting
        ensures items[i].key in c.objects && c.objects[items[i].key].finalizers == [] ==> items[i].key !in d.objects
      {
        if i > 0 {
          assert items[i] == items[1..][i - 1];
        }
      }
    }
  }

  lemma {:induction false} SweepWorks(s: Settings, c: Cluster, items: seq<Item>, kind: Kind, i: nat)
    requires WellFormed(c) && forall j :: 0 <= j < |items| ==> items[j].key.kind == kind
    requires i < |items| && items[i].key in c.objects && !c.objects[items[i].key].deleting && Awaited(s, items[i].key)
    ensures Left(s, DeleteAll(c, items)) < Left(s, c)
    decreases |items|
  {
    hide Exec, WellFormed, Left;
    var k, e := items[0].key, Exec(c, Delete(items[0].key)).0;
    DeleteSweeps(s, c, k);
    SweepLightens(s, e, items[1..], kind);
    if !(k in c.objects && !c.objects[k].deleting && Awaited(s, k)) {
      DeleteLightens(s, c, k);
      SweepWorks(s, e, items[1..], kind, i - 1);
    }
  }

  lemma {:induction false} SweepIdles(s: Settings, c: Cluster, items: seq<Item>)
    requires WellFormed(c)
    requires forall i :: 0 <= i < |items| ==> items[i].key in c.objects && c.objects[items[i].key].deleting
    ensures DeleteAll(c, items) == c
    decreases |items|
  {
    hide WellFormed;
    if items != [] {
      DeleteLightens(s, c, items[0].key);
      hide Exec;
      SweepIdles(s, c, items[1..]);
    }
  }

  // Passes

  ghost predicate StampedIn(s: Settings, c: Cluster) {
    WellFormed(c) && s.McgKey() in c.objects && c.objects[s.McgKey()].deleting
  }

  /** Everything that is left waits for somebody else to take a finalizer off. */
  predicate Blocked(s: Settings, c: Cluster)
    requires s.McgKey() in c.objects
  {
    if s.NoobaaKey() !in c.objects then FINALIZER !in c.objects[s.McgKey()].finalizers
    else if AllOf(s, c, BucketClass) != [] then
      forall i :: 0 <= i < |AllOf(s, c, BucketClass)| ==> AllOf(s, c, BucketClass)[i].obj.deleting
    else c.objects[s.NoobaaKey()].deleting && NOOBAA_FINALIZER !in c.objects[s.NoobaaKey()].finalizers
  }

  lemma ListedIsStored(s: Settings, c: Cluster, kind: Kind)
    requires WellFormed(c)
    ensures forall i :: 0 <= i < |AllOf(s, c, kind)| ==>
      var item := AllOf(s, c, kind)[i];
      item.key.kind == kind && item.key.namespace == s.namespace && item.key in c.objects && c.objects[item.key] == item.obj
  {
    forall i | 0 <= i < |AllOf(s, c, kind)|
      ensures var item := AllOf(s, c, kind)[i];
        item.key.kind == kind && item.key.namespace == s.namespace && item.key in c.objects && c.objects[item.key] == item.obj
    {
      SelectExact(c.objects, c.order, kind, Some(s.namespace), AllOf(s, c, kind)[i]);
    }
  }

  /** The bucket classes first. */
  lemma ClassesSwept(s: Settings, c: Cluster)
    requires WellFormed(c)
    ensures var d := DeleteAll(c, AllOf(s, c, BucketClass));
      && SweptOf(s, c, d, BucketClass)
      && (var items := AllOf(s, c, BucketClass);
          if forall i :: 0 <= i < |items| ==> items[i].obj.deleting then d == c else Left(s, d) < Left(s, c))
  {
    var items := AllOf(s, c, BucketClass);
    ListedIsStored(s, c, BucketClass);
    hide AllOf, WellFormed, Left;
    SweepLightens(s, c, items, BucketClass);
    if i :| 0 <= i < |items| && !items[i].obj.deleting {
      SweepWorks(s, c, items, BucketClass, i);
    } else {
      SweepIdles(s, c, items);
    }
  }

  /** What is left of NooBaa after it was stripped and deleted: less, unless it was both stripped and stamped before. */
  lemma NoobaaStruck(s: Settings, c: Cluster)
    requires WellFormed(c) && s.NoobaaKey() in c.objects
    ensures var stripped := Exec(c, Update(s.NoobaaKey(), Stripped(c.objects[s.NoobaaKey()])));
      var d := Exec(stripped.0, Delete(s.NoobaaKey())).0;
      var o := c.objects[s.NoobaaKey()];
      && stripped.1.Stored? && SweptOf(s, c, d, NooBaa)
      && (if o.deleting && NOOBAA_FINALIZER !in o.finalizers then d == c else Left(s, d) < Left(s, c))
      && (Removed(o.finalizers, NOOBAA_FINALIZER) == [] ==> s.NoobaaKey() !in d.objects)
  {
    hide Exec, Left, WellFormed;
    var k, o := s.NoobaaKey(), c.objects[s.NoobaaKey()];
    StripLightens(s, c, k, Stripped(o), NOOBAA_FINALIZER);
    var e := Exec(c, Update(k, Stripped(o))).0;
    DeleteLightens(s, e, k);
    DeleteSweeps(s, e, k);
    LightenedLeft(s, c, e, k);
  }

  lemma UnawaitedDelete(s: Settings, c: Cluster, k: Key)
    requires WellFormed(c) && !Awaited(s, k)
    ensures Left(s, Exec(c, Delete(k)).0) == Left(s, c)
  {
    var d := Exec(c, Delete(k)).0;
    DeleteLightens(s, c, k);
    hide Exec, WellFormed;
    LightenedLeft(s, c, d, k);
    forall j ensures WeightAt(s, c.objects, j) <= WeightAt(s, d.objects, j) {
    }
    SumAtMost(s, d.objects, c.objects, c.order);
    if d.order != c.order {
      SumWithout(s, d.objects, c.order, k);
    }
  }

  lemma {:induction false} UnawaitedSweep(s: Settings, c: Cluster, items: seq<Item>, kind: Kind)
    requires WellFormed(c) && forall i :: 0 <= i < |items| ==> items[i].key.kind == kind
    requires kind.BackingStore? || kind.NamespaceStore?
    ensures Left(s, DeleteAll(c, items)) == Left(s, c)
    decreases |items|
  {
    hide Exec, Left, WellFormed;
    if items != [] {
      UnawaitedDelete(s, c, items[0].key);
      DeleteSweeps(s, c, items[0].key);
      UnawaitedSweep(s, Exec(c, Delete(items[0].key)).0, items[1..], kind);
    }
  }

  lemma StoresSwept(s: Settings, c: Cluster, kind: Kind)
    requires WellFormed(c) && (kind.BackingStore? || kind.NamespaceStore?)
    ensures var d := DeleteAll(c, AllOf(s, c, kind));
      SweptOf(s, c, d, kind) && Left(s, d) == Left(s, c)
  {
    ListedIsStored(s, c, kind);
    hide AllOf, Left, WellFormed;
    SweepLightens(s, c, AllOf(s, c, kind), kind);
    UnawaitedSweep(s, c, AllOf(s, c, kind), kind);
  }

  /** What a removal keeps: no awaited object becomes heavier, and the ManagedMCG is not touched. */
  ghost predicate Reduced(s: Settings, c: Cluster, d: Cluster) {
    && WellFormed(d) && Left(s, d) <= Left(s, c)
    && (s.McgKey() in d.objects <==> s.McgKey() in c.objects)
    && (s.McgKey() in c.objects ==> d.objects[s.McgKey()] == c.objects[s.McgKey()])
  }

  lemma SweepReduces(s: Settings, c: Cluster, d: Cluster, kind: Kind)
    requires SweptOf(s, c, d, kind) && !kind.ManagedMCG?
    ensures Reduced(s, c, d) && (!kind.NooBaa? && s.NoobaaKey() in c.objects ==> s.NoobaaKey() in d.objects && d.objects[s.NoobaaKey()] == c.objects[s.NoobaaKey()])
    ensures s.NoobaaKey() !in c.objects ==> s.NoobaaKey() !in d.objects
  {
    hide WellFormed, Left;
  }

  lemma DrainedProgress(s: Settings, c: Cluster)
    requires WellFormed(c) && s.NoobaaKey() in c.objects
    ensures var o := c.objects[s.NoobaaKey()];
      var r := DrainedRemoval(s, c, o);
      && r.Ok? && Reduced(s, c, r.value)
      && (if o.deleting && NOOBAA_FINALIZER !in o.finalizers then Left(s, r.value) == Left(s, c) else Left(s, r.value) < Left(s, c))
      && (Removed(o.finalizers, NOOBAA_FINALIZER) == [] ==> s.NoobaaKey() !in r.value.objects)
  {
    var o := c.objects[s.NoobaaKey()];
    NoobaaStruck(s, c);
    var c1 := Exec(Exec(c, Update(s.NoobaaKey(), Stripped(o))).0, Delete(s.NoobaaKey())).0;
    hide Exec, AllOf, DeleteAll, Left, WellFormed, Stripped;
    SweepReduces(s, c, c1, NooBaa);
    StoresSwept(s, c1, BackingStore);
    var c2 := DeleteAll(c1, AllOf(s, c1, BackingStore));
    SweepReduces(s, c1, c2, BackingStore);
    StoresSwept(s, c2, NamespaceStore);
    SweepReduces(s, c2, DeleteAll(c2, AllOf(s, c2, NamespaceStore)), NamespaceStore);
  }

  lemma RemovalProgress(s: Settings, c: Cluster)
    requires WellFormed(c) && s.NoobaaKey() in c.objects && s.McgKey() in c.objects
    ensures var d := NoobaaRemoval(s, c, c.objects[s.NoobaaKey()]).0;
      Reduced(s, c, d) && (Left(s, d) < Left(s, c) <==> !Blocked(s, c))
  {
    ClassesSwept(s, c);
    var c1 := DeleteAll(c, AllOf(s, c, BucketClass));
    hide Exec, AllOf, DeleteAll, Left, WellFormed, DrainedRemoval;
    SweepReduces(s, c, c1, BucketClass);
    if AllOf(s, c1, BucketClass) == [] {
      DrainedProgress(s, c1);
    }
  }

  /** The finalizer goes once NooBaa has gone. */
  lemma ReleaseProgress(s: Settings, c: Cluster, refreshed: bool)
    requires StampedIn(s, c) && s.NoobaaKey() !in c.objects
    ensures var d := StampedEnd(s, c, refreshed).store;
      && WellFormed(d) && (Left(s, d) < Left(s, c) <==> !Blocked(s, c)) && Left(s, d) <= Left(s, c)
      && (s.McgKey() in d.objects ==> d.objects[s.McgKey()].deleting)
      && s.NoobaaKey() !in d.objects
      && (Removed(c.objects[s.McgKey()].finalizers, FINALIZER) == [] ==> s.McgKey() !in d.objects)
  {
    var k := s.McgKey();
    var bare := WithStates(s, c, c.objects[k]).(finalizers := Removed(c.objects[k].finalizers, FINALIZER));
    StripLightens(s, c, k, bare, FINALIZER);
    hide Exec, Left, WellFormed, StatesIn;
    LightenedLeft(s, c, Exec(c, Update(k, bare)).0, k);
  }

  lemma EndProgress(s: Settings, c: Cluster, refreshed: bool)
    requires StampedIn(s, c)
    ensures var d := StampedEnd(s, c, refreshed).store;
      && WellFormed(d) && (Left(s, d) < Left(s, c) <==> !Blocked(s, c)) && Left(s, d) <= Left(s, c)
      && (s.McgKey() in d.objects ==> d.objects[s.McgKey()].deleting)
  {
    if s.NoobaaKey() !in c.objects {
      ReleaseProgress(s, c, refreshed);
    } else {
      RemovalProgress(s, c);
    }
  }

  /** A pass over a stamped ManagedMCG gets something done exactly if it is not blocked, and undoes nothing. */
  lemma PassProgress(s: Settings, c: Cluster, refreshed: bool)
    requires StampedIn(s, c)
    ensures var d := PassRun(s, c, refreshed).0;
      && WellFormed(d) && Left(s, d) <= Left(s, c) && (Left(s, d) < Left(s, c) <==> !Blocked(s, c))
      && (s.McgKey() in d.objects ==> StampedIn(s, d))
  {
    EndProgress(s, c, refreshed);
    var e := StampedEnd(s, c, refreshed);
    hide Exec, Left, WellFormed, StampedEnd, Blocked;
    ReportOnly(s, e.store, e.mcg);
    ReportedLeft(s, e.store, Concluded(s, e).0);
  }

  /** The pass that lets the ManagedMCG go ends with an error, because the status of what is gone cannot be reported. */
  lemma LastPassErrs(s: Settings, c: Cluster, refreshed: bool)
    requires StampedIn(s, c) && s.McgKey() !in PassRun(s, c, refreshed).0.objects
    ensures PassRun(s, c, refreshed).1
  {
    hide StampedEnd;
  }

  /** A blocked uninstall waits for an object that is stamped and carries a finalizer of somebody else. */
  predicate AwaitsOther(s: Settings, c: Cluster, k: Key, f: string) {
    && Awaited(s, k) && k in c.objects && c.objects[k].deleting && f in c.objects[k].finalizers
    && (k == s.McgKey() ==> f != FINALIZER) && (k == s.NoobaaKey() ==> f != NOOBAA_FINALIZER)
  }

  lemma BlockedByOther(s: Settings, c: Cluster) returns (k: Key, f: string)
    requires StampedIn(s, c) && Blocked(s, c)
    ensures AwaitsOther(s, c, k, f)
  {
    if s.NoobaaKey() !in c.objects {
      k := s.McgKey();
    } else if AllOf(s, c, BucketClass) != [] {
      ListedIsStored(s, c, BucketClass);
      k := AllOf(s, c, BucketClass)[0].key;
    } else {
      k := s.NoobaaKey();
    }
    f := c.objects[k].finalizers[0];
  }

  /** One turn of an uninstall: a pass, or somebody takes off a finalizer of theirs that is waited for. */
  datatype Turn = Pass(refreshed: bool) | Clear(key: Key, finalizer: string)

  predicate CanTake(s: Settings, c: Cluster, t: Turn) {
    match t
    case Pass(_) => s.McgKey() in c.objects && c.objects[s.McgKey()].deleting
    case Clear(k, f) => AwaitsOther(s, c, k, f)
  }

  /** The turn is a pass that is not blocked, or takes a finalizer off. */
  predicate Works(s: Settings, c: Cluster, t: Turn)
    requires CanTake(s, c, t)
  {
    t.Pass? ==> !Blocked(s, c)
  }

  function Cleared(c: Cluster, k: Key, f: string): Cluster
    requires k in c.objects
  {
    Exec(c, Update(k, c.objects[k].(finalizers := Removed(c.objects[k].finalizers, f)))).0
  }

  function Taken(s: Settings, c: Cluster, t: Turn): Cluster
    requires CanTake(s, c, t)
  {
    match t
    case Pass(refreshed) => PassRun(s, c, refreshed).0
    case Clear(k, f) => Cleared(c, k, f)
  }

  lemma TurnProgress(s: Settings, c: Cluster, t: Turn)
    requires WellFormed(c) && CanTake(s, c, t) && (s.McgKey() in c.objects ==> c.objects[s.McgKey()].deleting)
    ensures WellFormed(Taken(s, c, t)) && Left(s, Taken(s, c, t)) <= Left(s, c)
    ensures Left(s, Taken(s, c, t)) < Left(s, c) <==> Works(s, c, t)
    ensures s.McgKey() in Taken(s, c, t).objects ==> s.McgKey() in c.objects && Taken(s, c, t).objects[s.McgKey()].deleting
  {
    match t {
      case Pass(refreshed) =>
        hide PassRun, Left, WellFormed, Blocked;
        PassProgress(s, c, refreshed);
      case Clear(k, f) =>
        StripLightens(s, c, k, c.objects[k].(finalizers := Removed(c.objects[k].finalizers, f)), f);
        hide Exec, Left, WellFormed;
        LightenedLeft(s, c, Cleared(c, k, f), k);
    }
  }

  ghost predicate Uninstalls(s: Settings, turns: seq<Turn>, stores: seq<Cluster>) {
    && |stores| == |turns| + 1 && StampedIn(s, stores[0])
    && forall i :: 0 <= i < |turns| ==> CanTake(s, stores[i], turns[i]) && stores[i + 1] == Taken(s, stores[i], turns[i])
  }

  /** How many of the first `n` turns get something done. */
  function WorkDone(s: Settings, turns: seq<Turn>, stores: seq<Cluster>, n: nat): nat
    requires n <= |turns| && |stores| == |turns| + 1
    requires forall i :: 0 <= i < n ==> CanTake(s, stores[i], turns[i])
  {
    if n == 0 then 0
    else WorkDone(s, turns, stores, n - 1) + if Works(s, stores[n - 1], turns[n - 1]) then 1 else 0
  }

  lemma {:induction false} UninstallShrinks(s: Settings, turns: seq<Turn>, stores: seq<Cluster>, n: nat)
    requires Uninstalls(s, turns, stores) && n <= |turns|
    ensures WellFormed(stores[n]) && Left(s, stores[n]) + WorkDone(s, turns, stores, n) <= Left(s, stores[0])
    ensures s.McgKey() in stores[n].objects ==> stores[n].objects[s.McgKey()].deleting
  {
    hide WellFormed, Left, CanTake, Taken, Works;
    if n > 0 {
      UninstallShrinks(s, turns, stores, n - 1);
      assert CanTake(s, stores[n - 1], turns[n - 1]) && stores[n] == Taken(s, stores[n - 1], turns[n - 1]);
      TurnProgress(s, stores[n - 1], turns[n - 1]);
    }
  }

  /**
   Uninstalling terminates: however many passes run, blocked or not, at most `Left` turns of an uninstall get something
   done, and as long as the ManagedMCG is there, there is a turn that does: the pass, or the owner of a finalizer that
   is being waited for. So when no turn gets anything done any more, the ManagedMCG is gone.
   */
  lemma UninstallTerminates(s: Settings, turns: seq<Turn>, stores: seq<Cluster>)
    requires Uninstalls(s, turns, stores)
    ensures WorkDone(s, turns, stores, |turns|) <= Left(s, stores[0])
    ensures s.McgKey() in Last(stores).objects ==> exists t: Turn :: CanTake(s, Last(stores), t) && Works(s, Last(stores), t)
  {
    UninstallShrinks(s, turns, stores, |turns|);
    var c := Last(stores);
    hide WellFormed, Left;
    if s.McgKey() in c.objects {
      if Blocked(s, c) {
        var k, f := BlockedByOther(s, c);
        assert CanTake(s, c, Clear(k, f)) && Works(s, c, Clear(k, f));
      } else {
        assert CanTake(s, c, Pass(false)) && Works(s, c, Pass(false));
      }
    }
  }

  // Immediate deletion

  /** Nothing that is awaited carries a finalizer of somebody else. */
  ghost predicate Unhindered(s: Settings, c: Cluster) {
    && (forall k: Key :: k in c.objects && k.kind.BucketClass? && k.namespace == s.namespace ==> c.objects[k].finalizers == [])
    && (s.NoobaaKey() in c.objects ==> Removed(c.objects[s.NoobaaKey()].finalizers, "noobaa.io/graceful_finalizer") == [])
    && (s.McgKey() in c.objects ==> Removed(c.objects[s.McgKey()].finalizers, "managedmcg.openshift.io") == [])
  }

  lemma IsListed(s: Settings, c: Cluster, kind: Kind, k: Key)
    requires WellFormed(c) && k in c.objects && k.kind == kind && k.namespace == s.namespace
    ensures exists i :: 0 <= i < |AllOf(s, c, kind)| && AllOf(s, c, kind)[i] == Item(k, c.objects[k])
  {
    SelectExact(c.objects, c.order, kind, Some(s.namespace), Item(k, c.objects[k]));
    assert Item(k, c.objects[k]) in AllOf(s, c, kind);
  }

  lemma NoClassLeft(s: Settings, c: Cluster)
    requires WellFormed(c) && Unhindered(s, c)
    ensures AllOf(s, DeleteAll(c, AllOf(s, c, BucketClass)), BucketClass) == []
  {
    var items := AllOf(s, c, BucketClass);
    var d := DeleteAll(c, items);
    ListedIsStored(s, c, BucketClass);
    SweepLightens(s, c, items, BucketClass);
    ListedIsStored(s, d, BucketClass);
    if AllOf(s, d, BucketClass) != [] {
      var item := AllOf(s, d, BucketClass)[0];
      IsListed(s, c, BucketClass, item.key);
    }
  }

  lemma UnhinderedRemoval(s: Settings, c: Cluster)
    requires StampedIn(s, c) && Unhindered(s, c) && s.NoobaaKey() in c.objects
    ensures var r := NoobaaRemoval(s, c, c.objects[s.NoobaaKey()]);
      r.1 && s.NoobaaKey() !in r.0.objects && Reduced(s, c, r.0)
  {
    NoClassLeft(s, c);
    ClassesSwept(s, c);
    var c1 := DeleteAll(c, AllOf(s, c, BucketClass));
    hide Exec, AllOf, DeleteAll, Left, WellFormed, DrainedRemoval;
    SweepReduces(s, c, c1, BucketClass);
    DrainedProgress(s, c1);
  }

  /** A first pass takes NooBaa down, or lets the ManagedMCG go if there was no NooBaa. */
  lemma FirstPass(s: Settings, c: Cluster, refreshed: bool)
    requires StampedIn(s, c) && Unhindered(s, c)
    ensures var d := PassRun(s, c, refreshed).0;
      && s.NoobaaKey() !in d.objects
      && if s.NoobaaKey() !in c.objects then s.McgKey() !in d.objects
         else StampedIn(s, d) && Removed(d.objects[s.McgKey()].finalizers, FINALIZER) == []
  {
    PassProgress(s, c, refreshed);
    var e := StampedEnd(s, c, refreshed);
    if s.NoobaaKey() !in c.objects {
      ReleaseProgress(s, c, refreshed);
    } else {
      UnhinderedRemoval(s, c);
    }
    hide Exec, Left, StampedEnd, Blocked;
    ReportOnly(s, e.store, e.mcg);
  }

  /**
   With immediate deletion two passes suffice from any stamped state: NooBaa is gone after the first, and the
   ManagedMCG too if there was no NooBaa; otherwise both are gone after the second.
   */
  lemma TwoPassesSuffice(s: Settings, c: Cluster, r0: bool, r1: bool)
    requires StampedIn(s, c) && Unhindered(s, c)
    ensures var d := PassRun(s, c, r0).0;
      && s.NoobaaKey() !in d.objects
      && (s.McgKey() in d.objects <==> s.NoobaaKey() in c.objects)
      && (s.McgKey() in d.objects ==>
            var e := PassRun(s, d, r1).0; s.McgKey() !in e.objects && s.NoobaaKey() !in e.objects)
  {
    FirstPass(s, c, r0);
    var d := PassRun(s, c, r0).0;
    if s.McgKey() in d.objects {
      ReleaseProgress(s, d, r1);
      var e := StampedEnd(s, d, r1);
      hide Exec, Left, StampedEnd, Blocked;
      ReportOnly(s, e.store, e.mcg);
    }
  }

  predicate DeployerCSV(s: Settings, c: Cluster, k: Key) {
    k in c.objects && k.kind.CSV? && k.namespace == s.namespace && "mcg-osd-deployer" <= k.name
  }

  /**
   With the ManagedMCG gone, the deletion label set and a deployer CSV there, the next pass deletes one: it is gone at
   once unless it carries a finalizer, and nothing else changes.
   */
  lemma ThirdPassRemovesCSV(s: Settings, c: Cluster, any: Key) returns (k: Key)
    requires WellFormed(c) && LabelIn(s, c) && DeployerCSV(s, c, any)
    ensures DeployerCSV(s, c, k)
    ensures k in GonePass(s, c).objects <==> c.objects[k].finalizers != []
    ensures k in GonePass(s, c).objects ==> GonePass(s, c).objects[k].deleting
    ensures forall j :: j != k && j in c.objects ==> j in GonePass(s, c).objects && GonePass(s, c).objects[j] == c.objects[j]
    ensures forall j :: j in GonePass(s, c).objects ==> j in c.objects
  {
    var items := AllOf(s, c, CSV);
    ListedIsStored(s, c, CSV);
    IsListed(s, c, CSV, any);
    var i :| 0 <= i < |items| && items[i] == Item(any, c.objects[any]);
    FoundIsListed(items, DEPLOYER_CSV_PREFIX, i);
    k := FirstWithPrefix(items, DEPLOYER_CSV_PREFIX).value.key;
    hide ListOf;
    DeleteLightens(s, c, k);
  }

  lemma {:induction false} FoundIsListed(items: seq<Item>, prefix: string, i: nat)
    requires i < |items| && prefix <= items[i].key.name
    ensures FirstWithPrefix(items, prefix).Some? && FirstWithPrefix(items, prefix).value in items
    ensures prefix <= FirstWithPrefix(items, prefix).value.key.name
  {
    if !(prefix <= items[0].key.name) {
      FoundIsListed(items[1..], prefix, i - 1);
    }
  }
}
