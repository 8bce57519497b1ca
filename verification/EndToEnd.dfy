/** A whole uninstall: from a serving ManagedMCG with everything ready to the deletion of the CSV, in four passes. */
module EndToEnd {
  import opened Utils
  import opened Cluster
  import opened Config
  import opened States
  import opened Desired
  import opened StrictArm
  import opened Uninstall
  import opened Convergence
  import opened Fixpoint
  import opened Progress
  import opened Termination

  // The first pass

  /** What the steps of the arm never touch: bucket classes and NooBaa's stores, and the CSVs of others. */
  lemma OffTheArm(s: Settings, j: nat, k: Key)
    requires j < ARM_LENGTH && k.kind.BucketClass?
    ensures !MayTouch(s, ArmStep(j), k)
  {
  }

  /** The arm keeps every object, its finalizers and its stamp, the ManagedMCG altogether, and adds no bucket class. */
  ghost predicate ArmSpares(s: Settings, c: Cluster, d: Cluster) {
    && WellFormed(d) && SameAt(c, d, s.McgKey())
    && (forall k :: k in c.objects ==> k in d.objects && KeepsIdentity(c.objects[k], d.objects[k]))
    && (forall k: Key :: k.kind.BucketClass? ==> SameAt(c, d, k))
    && LabelIn(s, d) == LabelIn(s, c)
  }

  lemma ArmIsSparing(s: Settings, x: Context, c: Cluster)
    requires WellFormed(c) && s.McgKey() in c.objects && Arm(Steps(s, x), c, RESOURCE_STEPS).Some?
    ensures ArmSpares(s, c, Arm(Steps(s, x), c, RESOURCE_STEPS).value)
  {
    hide StepFrame, StepAfter, LabelIn, KeepsIdentity;
    StepsFramed(s, x);
    ArmLeavesMcg(s, x, c);
    ArmKeepsLabel(s, x, c, RESOURCE_STEPS);
    var states := ArmIsChain(s, Steps(s, x), c, RESOURCE_STEPS);
    ChainKeeps(s, Steps(s, x), states, RESOURCE_STEPS, RESOURCE_STEPS);
    forall k: Key | k.kind.BucketClass? ensures SameAt(c, Arm(Steps(s, x), c, RESOURCE_STEPS).value, k) {
      forall j: nat | j < RESOURCE_STEPS ensures !MayTouch(s, ArmStep(j), k) {
        OffTheArm(s, j, k);
      }
      ChainSameAt(s, Steps(s, x), states, RESOURCE_STEPS, 0, RESOURCE_STEPS, k);
    }
  }

  /** The pass gets through the arm and marks the ManagedMCG for deletion; its report is refused and changes nothing. */
  lemma FirstPassIs(s: Settings, c: Cluster, refreshed: bool) returns (d: Cluster)
    requires SecretsApart(s) && Equipped(s, c) && UninstallDue(s, c)
    ensures ArmSpares(s, c, d) && PassRun(s, c, refreshed) == (Exec(d, Delete(s.McgKey())).0, true)
  {
    var m := WithStates(s, c, c.objects[s.McgKey()]);
    var y, params := HeldContext(s, c, m), SecretData(c, s.AddonParamsKey()).value;
    var x := WithParams(y, params);
    SameContext(s, c, params);
    EquippedIsReady(s, c, params);
    hide InputsOf, Supplied, OcsPresent, Distinct, Exec, StatesIn, LabelIn, ReadyFrom, Arm, ArmRun, StepAfter, ArmSpares;
    ArmSucceeds(s, x, c, RESOURCE_STEPS);
    ArmRunIsArm(s, x, c, RESOURCE_STEPS);
    ArmIsSparing(s, x, c);
    ArmLeavesMcg(s, x, c);
    d := Arm(Steps(s, x), c, RESOURCE_STEPS).value;
    ReportAccepted(s, d, x.mcg);
    RefusedReport(s, Exec(d, Delete(s.McgKey())).0, x.mcg);
  }

  lemma RefusedReport(s: Settings, c: Cluster, o: Object)
    ensures !Exec(c, UpdateStatus(s.McgKey(), o)).1.Stored? ==> Exec(c, UpdateStatus(s.McgKey(), o)).0 == c
  {
  }

  /** What the rest of the uninstall needs: nothing hinders it, the label is set, and this deployer CSV is there. */
  ghost predicate Onward(s: Settings, c: Cluster, csv: Key, finalizers: seq<string>) {
    && WellFormed(c) && LabelIn(s, c) && DeployerCSV(s, c, csv) && c.objects[csv].finalizers == finalizers
  }

  lemma StampedNow(s: Settings, c: Cluster, d: Cluster, csv: Key)
    requires WellFormed(c) && ArmSpares(s, c, d) && Serving(s, c) && Unhindered(s, c) && DeployerCSV(s, c, csv) && LabelIn(s, c)
    requires s.NoobaaKey() in c.objects
    ensures var e := Exec(d, Delete(s.McgKey())).0;
      && StampedIn(s, e) && Unhindered(s, e) && Onward(s, e, csv, c.objects[csv].finalizers)
      && s.NoobaaKey() in e.objects
  {
    ExecWellFormed(d, Delete(s.McgKey()));
    assert SameAt(c, d, s.McgKey());
    var e := Exec(d, Delete(s.McgKey())).0;
    forall k | k != s.McgKey() ensures SameAt(d, e, k) {
      ExecFrame(d, Delete(s.McgKey()), k);
    }
    assert SameAt(d, e, s.AddonConfigMapKey()) && SameAt(d, e, csv) && SameAt(d, e, s.NoobaaKey());
    hide WellFormed;
    forall k: Key | k in e.objects && k.kind.BucketClass? && k.namespace == s.namespace ensures e.objects[k].finalizers == [] {
      assert SameAt(c, d, k) && SameAt(d, e, k);
    }
  }

  lemma ReadyHasNoobaa(s: Settings, c: Cluster)
    requires StatesIn(s, c) == ALL_READY
    ensures s.NoobaaKey() in c.objects
  {
  }

  // The passes over the stamped ManagedMCG

  /** The kinds that an uninstall removes before the CSV. */
  predicate Goes(k: Key) {
    k.kind.ManagedMCG? || k.kind.NooBaa? || k.kind.BucketClass? || k.kind.BackingStore? || k.kind.NamespaceStore?
  }

  ghost predicate OthersStay(c: Cluster, d: Cluster) {
    forall k: Key :: !Goes(k) ==> SameAt(c, d, k)
  }

  lemma OthersStayTwice(c: Cluster, d: Cluster, e: Cluster)
    requires OthersStay(c, d) && OthersStay(d, e)
    ensures OthersStay(c, e)
  {
    forall k: Key | !Goes(k) ensures SameAt(c, e, k) {
      assert SameAt(c, d, k) && SameAt(d, e, k);
    }
  }

  lemma SweepStays(s: Settings, c: Cluster, d: Cluster, kind: Kind)
    requires SweptOf(s, c, d, kind) && (kind.BucketClass? || kind.NooBaa? || kind.BackingStore? || kind.NamespaceStore?)
    ensures OthersStay(c, d)
  {
    hide WellFormed, Left;
  }

  lemma DrainedStays(s: Settings, c: Cluster)
    requires WellFormed(c) && s.NoobaaKey() in c.objects
    ensures var r := DrainedRemoval(s, c, c.objects[s.NoobaaKey()]); r.Ok? && OthersStay(c, r.value)
  {
    var o := c.objects[s.NoobaaKey()];
    NoobaaStruck(s, c);
    var c1 := Exec(Exec(c, Update(s.NoobaaKey(), Stripped(o))).0, Delete(s.NoobaaKey())).0;
    hide Exec, AllOf, DeleteAll, Left, WellFormed, Stripped, OthersStay;
    SweepStays(s, c, c1, NooBaa);
    SweptWellFormed(s, c, c1, NooBaa);
    StoresSwept(s, c1, BackingStore);
    var c2 := DeleteAll(c1, AllOf(s, c1, BackingStore));
    SweepStays(s, c1, c2, BackingStore);
    SweptWellFormed(s, c1, c2, BackingStore);
    StoresSwept(s, c2, NamespaceStore);
    var c3 := DeleteAll(c2, AllOf(s, c2, NamespaceStore));
    SweepStays(s, c2, c3, NamespaceStore);
    OthersStayTwice(c, c1, c2);
    OthersStayTwice(c, c2, c3);
  }

  lemma SweptWellFormed(s: Settings, c: Cluster, d: Cluster, kind: Kind)
    requires SweptOf(s, c, d, kind)
    ensures WellFormed(d)
  {
  }

  lemma RemovalStays(s: Settings, c: Cluster)
    requires WellFormed(c) && s.NoobaaKey() in c.objects
    ensures OthersStay(c, NoobaaRemoval(s, c, c.objects[s.NoobaaKey()]).0)
  {
    ClassesSwept(s, c);
    var c1 := DeleteAll(c, AllOf(s, c, BucketClass));
    hide Exec, AllOf, DeleteAll, Left, WellFormed, DrainedRemoval, OthersStay;
    SweepStays(s, c, c1, BucketClass);
    SweptWellFormed(s, c, c1, BucketClass);
    SweepReduces(s, c, c1, BucketClass);
    if AllOf(s, c1, BucketClass) == [] {
      DrainedStays(s, c1);
      OthersStayTwice(c, c1, DrainedRemoval(s, c1, c.objects[s.NoobaaKey()]).value);
    }
  }

  lemma OwnWriteStays(s: Settings, c: Cluster, req: Request)
    requires WellFormed(c) && (req.Update? || req.UpdateStatus?) && req.key == s.McgKey()
    ensures OthersStay(c, Exec(c, req).0)
  {
    forall k: Key | !Goes(k) ensures SameAt(c, Exec(c, req).0, k) {
      ExecFrame(c, req, k);
    }
  }

  /** A pass over a stamped ManagedMCG touches nothing but what is to go. */
  lemma StampedPassStays(s: Settings, c: Cluster, refreshed: bool)
    requires StampedIn(s, c)
    ensures OthersStay(c, PassRun(s, c, refreshed).0)
  {
    var e := StampedEnd(s, c, refreshed);
    EndProgress(s, c, refreshed);
    hide Exec, Left, WellFormed, NoobaaRemoval, OthersStay, StatesIn, Blocked;
    if s.NoobaaKey() !in c.objects {
      var k := s.McgKey();
      var bare := WithStates(s, c, c.objects[k]).(finalizers := Removed(c.objects[k].finalizers, FINALIZER));
      OwnWriteStays(s, c, Update(k, bare));
    } else {
      RemovalStays(s, c);
    }
    OwnWriteStays(s, e.store, UpdateStatus(s.McgKey(), e.mcg));
    OthersStayTwice(c, e.store, PassRun(s, c, refreshed).0);
  }

  lemma OnwardStays(s: Settings, c: Cluster, d: Cluster, csv: Key, finalizers: seq<string>)
    requires Onward(s, c, csv, finalizers) && OthersStay(c, d) && WellFormed(d)
    ensures Onward(s, d, csv, finalizers)
  {
    hide WellFormed;
    assert SameAt(c, d, s.AddonConfigMapKey()) && SameAt(c, d, csv);
  }

  lemma NextPass(s: Settings, c: Cluster, refreshed: bool, csv: Key, finalizers: seq<string>)
    requires StampedIn(s, c) && Onward(s, c, csv, finalizers)
    ensures Onward(s, PassRun(s, c, refreshed).0, csv, finalizers)
    ensures s.McgKey() in PassRun(s, c, refreshed).0.objects ==> StampedIn(s, PassRun(s, c, refreshed).0)
  {
    hide PassRun, Onward, OthersStay, Left, Blocked;
    PassProgress(s, c, refreshed);
    StampedPassStays(s, c, refreshed);
    OnwardStays(s, c, PassRun(s, c, refreshed).0, csv, finalizers);
  }

  /** With neither a ManagedMCG nor NooBaa, a pass deletes one deployer CSV. */
  lemma LeavingPass(s: Settings, c: Cluster, refreshed: bool, csv: Key, finalizers: seq<string>) returns (k: Key)
    requires Onward(s, c, csv, finalizers) && s.McgKey() !in c.objects
    ensures var d := PassRun(s, c, refreshed).0;
      && DeployerCSV(s, c, k) && (if c.objects[k].finalizers == [] then k !in d.objects else k in d.objects && d.objects[k].deleting)
      && (forall j :: j != k && j in c.objects ==> j in d.objects && d.objects[j] == c.objects[j])
      && (forall j :: j in d.objects ==> j in c.objects)
  {
    hide LabelIn, GonePass, WellFormed, DeployerCSV;
    k := ThirdPassRemovesCSV(s, c, csv);
  }

  /**
   A whole uninstall, when everything is ready, nothing hinders it and others keep still: the first pass marks the
   ManagedMCG for deletion, the second removes NooBaa, the third lets the ManagedMCG go, and the fourth deletes a
   deployer CSV, which is gone then unless it carries a finalizer. Label and CSV are there all along.
   */
  lemma UninstallCompletes(s: Settings, c: Cluster, csv: Key, r0: bool, r1: bool, r2: bool, r3: bool) returns (k: Key)
    requires SecretsApart(s) && Equipped(s, c) && UninstallDue(s, c) && Unhindered(s, c) && DeployerCSV(s, c, csv)
    ensures var c1 := PassRun(s, c, r0).0;
      && StampedIn(s, c1) && s.NoobaaKey() in c1.objects && DeployerCSV(s, c1, csv)
      && var c2 := PassRun(s, c1, r1).0;
         && StampedIn(s, c2) && s.NoobaaKey() !in c2.objects && DeployerCSV(s, c2, csv)
         && var c3 := PassRun(s, c2, r2).0;
            && s.McgKey() !in c3.objects && s.NoobaaKey() !in c3.objects && DeployerCSV(s, c3, csv)
            && var c4 := PassRun(s, c3, r3).0;
               && DeployerCSV(s, c3, k)
               && (if c3.objects[k].finalizers == [] then k !in c4.objects else k in c4.objects && c4.objects[k].deleting)
               && (forall j :: j != k && j in c3.objects ==> j in c4.objects && c4.objects[j] == c3.objects[j])
               && s.McgKey() !in c4.objects && s.NoobaaKey() !in c4.objects
  {
    var d := FirstPassIs(s, c, r0);
    ReadyHasNoobaa(s, c);
    StampedNow(s, c, d, csv);
    var f := c.objects[csv].finalizers;
    hide Exec, SecretsApart, Equipped, UninstallDue, ArmSpares, Unhindered, WellFormed, Left, LabelIn, PassRun;
    var c1 := PassRun(s, c, r0).0;
    TwoPassesSuffice(s, c1, r1, r2);
    NextPass(s, c1, r1, csv, f);
    var c2 := PassRun(s, c1, r1).0;
    NextPass(s, c2, r2, csv, f);
    k := LeavingPass(s, PassRun(s, c2, r2).0, r3, csv, f);
  }

  // What a removal leaves

  /** No object of this kind in the namespace but those that are stamped and had a finalizer. */
  ghost predicate OnlyStamped(s: Settings, c: Cluster, d: Cluster, kind: Kind) {
    forall k: Key :: k in d.objects && k.kind == kind && k.namespace == s.namespace ==>
      d.objects[k].deleting && k in c.objects && c.objects[k].finalizers != []
  }

  /** Other kinds stay as they are, and nothing is new. */
  ghost predicate OnlyKind(c: Cluster, d: Cluster, kind: Kind) {
    && WellFormed(d) && (forall k: Key :: k.kind != kind ==> SameAt(c, d, k)) && (forall k :: k in d.objects ==> k in c.objects)
  }

  lemma SweepLeaves(s: Settings, c: Cluster, kind: Kind)
    requires WellFormed(c)
    ensures var d := DeleteAll(c, AllOf(s, c, kind));
      OnlyKind(c, d, kind) && OnlyStamped(s, c, d, kind)
  {
    hide DeleteAll, Left, WellFormed, AllOf, SweptOf;
    var items := AllOf(s, c, kind);
    ListedIsStored(s, c, kind);
    SweepLightens(s, c, items, kind);
    var d := DeleteAll(c, items);
    SweepIsOnly(s, c, d, kind);
    forall k: Key | k in d.objects && k.kind == kind && k.namespace == s.namespace
      ensures d.objects[k].deleting && k in c.objects && c.objects[k].finalizers != []
    {
      var i := Listed(s, c, kind, k);
    }
  }

  lemma SweepIsOnly(s: Settings, c: Cluster, d: Cluster, kind: Kind)
    requires SweptOf(s, c, d, kind)
    ensures OnlyKind(c, d, kind)
  {
    hide WellFormed, Left;
  }

  lemma Listed(s: Settings, c: Cluster, kind: Kind, k: Key) returns (i: nat)
    requires WellFormed(c) && k in c.objects && k.kind == kind && k.namespace == s.namespace
    ensures i < |AllOf(s, c, kind)| && AllOf(s, c, kind)[i] == Item(k, c.objects[k])
  {
    var items := AllOf(s, c, kind);
    SelectExact(c.objects, c.order, kind, Some(s.namespace), Item(k, c.objects[k]));
    i :| 0 <= i < |items| && items[i] == Item(k, c.objects[k]);
  }

  lemma DeleteKeepsFinalizers(c: Cluster, k: Key)
    ensures k in Exec(c, Delete(k)).0.objects ==>
      k in c.objects && Exec(c, Delete(k)).0.objects[k].finalizers == c.objects[k].finalizers
  {
  }

  lemma StrikeLeaves(s: Settings, c: Cluster)
    requires WellFormed(c) && s.NoobaaKey() in c.objects
    ensures var d := Exec(Exec(c, Update(s.NoobaaKey(), Stripped(c.objects[s.NoobaaKey()]))).0, Delete(s.NoobaaKey())).0;
      && OnlyKind(c, d, NooBaa)
      && (s.NoobaaKey() in d.objects ==>
            d.objects[s.NoobaaKey()].deleting && "noobaa.io/graceful_finalizer" !in d.objects[s.NoobaaKey()].finalizers)
  {
    var k, o := s.NoobaaKey(), c.objects[s.NoobaaKey()];
    hide Exec, WellFormed, Left, SweptOf, Weight;
    NoobaaStruck(s, c);
    var e := Exec(c, Update(k, Stripped(o))).0;
    SweepIsOnly(s, c, Exec(e, Delete(k)).0, NooBaa);
    StripLightens(s, c, k, Stripped(o), NOOBAA_FINALIZER);
    DeleteLightens(s, e, k);
    DeleteKeepsFinalizers(e, k);
  }

  /** What a removal that began in `c` has got done, and, once it is through, all it is for. */
  ghost predicate ClearedBy(s: Settings, c: Cluster, d: Cluster, done: bool) {
    var k := Key(NooBaa, s.namespace, "noobaa");
    && OnlyStamped(s, c, d, BucketClass)
    && (done ==>
          && (forall j: Key :: j.kind == BucketClass && j.namespace == s.namespace ==> j !in d.objects)
          && OnlyStamped(s, c, d, BackingStore) && OnlyStamped(s, c, d, NamespaceStore)
          && (k in d.objects ==> d.objects[k].deleting && "noobaa.io/graceful_finalizer" !in d.objects[k].finalizers))
  }

  lemma RemovalClears(s: Settings, c: Cluster)
    requires WellFormed(c) && s.NoobaaKey() in c.objects
    ensures var (d, done) := NoobaaRemoval(s, c, c.objects[s.NoobaaKey()]);
      ClearedBy(s, c, d, done)
  {
    hide Exec, DeleteAll, WellFormed, AllOf, Stripped, DrainedRemoval;
    SweepLeaves(s, c, BucketClass);
    var c1 := DeleteAll(c, AllOf(s, c, BucketClass));
    if AllOf(s, c1, BucketClass) == [] {
      NoneLeft(s, c1);
      assert SameAt(c, c1, s.NoobaaKey());
      DrainedClears(s, c1);
      var r := DrainedRemoval(s, c1, c1.objects[s.NoobaaKey()]);
      if r.Ok? {
        ClearedSince(s, c, c1, r.value);
      }
    }
  }

  /** What a sweep of another kind leaves of this one. */
  lemma SweptBefore(s: Settings, c: Cluster, d: Cluster, e: Cluster, kind: Kind, other: Kind)
    requires kind != other && OnlyStamped(s, c, d, kind) && OnlyKind(d, e, other)
    ensures OnlyStamped(s, c, e, kind)
  {
    hide OnlyKind;
    forall k: Key | k in e.objects && k.kind == kind && k.namespace == s.namespace
      ensures e.objects[k].deleting && k in c.objects && c.objects[k].finalizers != []
    {
      KeptApart(d, e, other, k);
    }
  }

  lemma SweptAfter(s: Settings, c: Cluster, d: Cluster, e: Cluster, kind: Kind, other: Kind)
    requires kind != other && OnlyKind(c, d, other) && OnlyStamped(s, d, e, kind)
    ensures OnlyStamped(s, c, e, kind)
  {
    hide OnlyKind;
    forall k: Key | k in e.objects && k.kind == kind && k.namespace == s.namespace
      ensures e.objects[k].deleting && k in c.objects && c.objects[k].finalizers != []
    {
      KeptApart(c, d, other, k);
    }
  }

  lemma KeptApart(c: Cluster, d: Cluster, other: Kind, k: Key)
    requires OnlyKind(c, d, other)
    ensures k in d.objects ==> k in c.objects
    ensures k.kind != other ==> SameAt(c, d, k)
  {
    hide WellFormed;
  }

  lemma KindWellFormed(c: Cluster, d: Cluster, other: Kind)
    requires OnlyKind(c, d, other)
    ensures WellFormed(d)
  {
  }

  lemma DrainedClears(s: Settings, c: Cluster)
    requires WellFormed(c) && s.NoobaaKey() in c.objects
    requires forall j: Key :: j.kind == BucketClass && j.namespace == s.namespace ==> j !in c.objects
    ensures var r := DrainedRemoval(s, c, c.objects[s.NoobaaKey()]);
      r.Ok? ==> ClearedBy(s, c, r.value, true)
  {
    hide Exec, DeleteAll, WellFormed, AllOf, Stripped, OnlyKind, OnlyStamped;
    var k := s.NoobaaKey();
    StrikeLeaves(s, c);
    var c2 := Exec(Exec(c, Update(k, Stripped(c.objects[k]))).0, Delete(k)).0;
    KindWellFormed(c, c2, NooBaa);
    SweepLeaves(s, c2, BackingStore);
    var c3 := DeleteAll(c2, AllOf(s, c2, BackingStore));
    KindWellFormed(c2, c3, BackingStore);
    SweepLeaves(s, c3, NamespaceStore);
    var d := DeleteAll(c3, AllOf(s, c3, NamespaceStore));
    SweptAfter(s, c, c2, c3, BackingStore, NooBaa);
    SweptBefore(s, c, c3, d, BackingStore, NamespaceStore);
    SweptAfter(s, c2, c3, d, NamespaceStore, BackingStore);
    SweptAfter(s, c, c2, d, NamespaceStore, NooBaa);
    KeptApart(c2, c3, BackingStore, k);
    KeptApart(c3, d, NamespaceStore, k);
    forall j: Key | j.kind == BucketClass && j.namespace == s.namespace ensures j !in d.objects {
      KeptApart(c, c2, NooBaa, j);
      KeptApart(c2, c3, BackingStore, j);
      KeptApart(c3, d, NamespaceStore, j);
    }
    NoneStamped(s, c, d);
  }

  lemma NoneStamped(s: Settings, c: Cluster, d: Cluster)
    requires forall j: Key :: j.kind == BucketClass && j.namespace == s.namespace ==> j !in d.objects
    ensures OnlyStamped(s, c, d, BucketClass)
  {
  }

  /** Bucket classes were swept before. */
  lemma ClearedSince(s: Settings, c: Cluster, c1: Cluster, d: Cluster)
    requires OnlyKind(c, c1, BucketClass) && ClearedBy(s, c1, d, true)
    ensures ClearedBy(s, c, d, true)
  {
    hide WellFormed;
  }

  lemma StampedStays(s: Settings, c: Cluster, d: Cluster, e: Cluster, kind: Kind)
    requires OnlyStamped(s, c, d, kind) && OnlyReported(s, d, e)
    ensures OnlyStamped(s, c, e, kind)
  {
    hide WellFormed;
  }

  lemma ReportedSame(s: Settings, d: Cluster, e: Cluster, k: Key)
    requires OnlyReported(s, d, e) && !k.kind.ManagedMCG?
    ensures SameAt(d, e, k)
  {
    hide WellFormed;
  }

  lemma ClearedStays(s: Settings, c: Cluster, d: Cluster, e: Cluster, done: bool)
    requires ClearedBy(s, c, d, done) && OnlyReported(s, d, e)
    ensures ClearedBy(s, c, e, done)
  {
    hide OnlyReported, OnlyStamped;
    StampedStays(s, c, d, e, BucketClass);
    if done {
      StampedStays(s, c, d, e, BackingStore);
      StampedStays(s, c, d, e, NamespaceStore);
      ReportedSame(s, d, e, s.NoobaaKey());
      forall j: Key | j.kind == BucketClass && j.namespace == s.namespace ensures j !in e.objects {
        ReportedSame(s, d, e, j);
      }
    }
  }

  /**
   A pass over a stamped ManagedMCG that finds NooBaa stamps every bucket class of the namespace at least. If it
   returns no error, no bucket class is left, NooBaa is gone or stamped without the finalizer that the operator takes
   off, and of the backing and namespace stores of the namespace only stamped ones are left, which had a finalizer.
   */
  lemma StampedPassClears(s: Settings, c: Cluster, refreshed: bool)
    requires StampedIn(s, c) && s.NoobaaKey() in c.objects
    ensures var (d, err) := PassRun(s, c, refreshed);
      ClearedBy(s, c, d, false) && (!err ==> ClearedBy(s, c, d, true))
  {
    hide Exec, ClearedBy, NoobaaRemoval, OnlyReported;
    RemovalClears(s, c);
    RemovalProgress(s, c);
    var e := StampedEnd(s, c, refreshed);
    ReportOnly(s, e.store, e.mcg);
    var (d, done) := NoobaaRemoval(s, c, c.objects[s.NoobaaKey()]);
    ClearedStays(s, c, d, Concluded(s, e).0, done);
    DoneIsMore(s, c, Concluded(s, e).0, done);
  }

  lemma DoneIsMore(s: Settings, c: Cluster, d: Cluster, done: bool)
    requires ClearedBy(s, c, d, done)
    ensures ClearedBy(s, c, d, false)
  {
  }

  lemma NoneLeft(s: Settings, c: Cluster)
    requires WellFormed(c) && AllOf(s, c, BucketClass) == []
    ensures forall k: Key :: k.kind == BucketClass && k.namespace == s.namespace ==> k !in c.objects
  {
    forall k: Key | k.kind == BucketClass && k.namespace == s.namespace ensures k !in c.objects {
      if k in c.objects {
        SelectExact(c.objects, c.order, BucketClass, Some(s.namespace), Item(k, c.objects[k]));
      }
    }
  }
}
