/** The strict arm's convergence, stated about whole passes over a live ManagedMCG. */
module Fixpoint {
  import opened Utils
  import opened Cluster
  import opened Config
  import opened States
  import opened Desired
  import opened StrictArm
  import opened Convergence
  import opened Uninstall

  /** A live ManagedMCG with the finalizer. */
  ghost predicate Serving(s: Settings, c: Cluster) {
    Living(s, c) && FINALIZER in c.objects[s.McgKey()].finalizers
  }

  /** A live ManagedMCG, with or without the finalizer. */
  ghost predicate Living(s: Settings, c: Cluster) {
    WellFormed(c) && s.McgKey() in c.objects && !c.objects[s.McgKey()].deleting
  }

  /** Here a pass that finds the finalizer in place marks the ManagedMCG for deletion, if it gets through. */
  predicate UninstallDue(s: Settings, c: Cluster) {
    LabelIn(s, c) && StatesIn(s, c) == ALL_READY
  }

  lemma SameContext(s: Settings, c: Cluster, params: map<string, string>)
    requires s.McgKey() in c.objects
    ensures WithParams(HeldContext(s, c, WithStates(s, c, c.objects[s.McgKey()])), params) == ContextAt(s, c, params)
  {
  }

  /** Nothing in the arm touches the ManagedMCG before the report. */
  lemma ArmLeavesMcg(s: Settings, x: Context, c: Cluster)
    requires WellFormed(c) && s.McgKey() in c.objects && Arm(Steps(s, x), c, RESOURCE_STEPS).Some?
    ensures var d := Arm(Steps(s, x), c, RESOURCE_STEPS).value;
      WellFormed(d) && s.McgKey() in d.objects && d.objects[s.McgKey()] == c.objects[s.McgKey()]
  {
    hide StepFrame, StepAfter;
    StepsFramed(s, x);
    var states := ArmIsChain(s, Steps(s, x), c, RESOURCE_STEPS);
    ChainKeeps(s, Steps(s, x), states, RESOURCE_STEPS, RESOURCE_STEPS);
  }

  /** A report for the version that is stored is accepted, one for an object that was marked for deletion since is not. */
  lemma ReportAccepted(s: Settings, d: Cluster, mcg: Object)
    requires WellFormed(d) && s.McgKey() in d.objects && mcg.rv == d.objects[s.McgKey()].rv
    ensures Exec(d, UpdateStatus(s.McgKey(), mcg)).1.Stored?
    ensures !d.objects[s.McgKey()].deleting && d.objects[s.McgKey()].finalizers != [] ==>
      !Exec(Exec(d, Delete(s.McgKey())).0, UpdateStatus(s.McgKey(), mcg)).1.Stored?
  {
  }

  lemma ArmUnfolds(s: Settings, x: Context, c: Cluster)
    ensures ArmAfter(s, x, c) ==
            match Arm(Steps(s, x), c, RESOURCE_STEPS)
            case None => None
            case Some(d) => Accepted(Exec(d, UpdateStatus(s.McgKey(), x.mcg)))
  {
    hide Exec, Brought, ConsoleBrought, OcsScaled, LabelledAll;
  }

  /**
   The service of a live, guarded ManagedMCG ends without an error exactly if the parameters are there, the whole arm
   succeeds, and nothing is marked for deletion: that would make the report of the status fail.
   */
  lemma ServiceIsArm(s: Settings, c: Cluster, y: Context, label_: bool)
    requires Serving(s, c) && y.mcg.rv == c.objects[s.McgKey()].rv
    ensures var (d, err) := Concluded(s, Provisioned(s, c, y, label_));
      match SecretData(c, s.AddonParamsKey())
      case None => err
      case Some(params) =>
        var x := WithParams(y, params);
        if ArmAfter(s, x, c).None? || (label_ && y.mcg.status.components == ALL_READY) then err
        else !err && ArmAfter(s, x, c) == Some(d)
  {
    hide Arm, ArmRun, ArmAfter, StepAfter, Exec, WellFormed;
    var params := SecretData(c, s.AddonParamsKey());
    if params.Some? {
      var x := WithParams(y, params.value);
      ArmUnfolds(s, x, c);
      ArmRunIsArm(s, x, c, RESOURCE_STEPS);
      if Arm(Steps(s, x), c, RESOURCE_STEPS).Some? {
        ArmLeavesMcg(s, x, c);
        ReportAccepted(s, Arm(Steps(s, x), c, RESOURCE_STEPS).value, x.mcg);
      }
    }
  }

  /** A pass over a serving ManagedMCG is the whole arm, from what the store has. */
  lemma PassIsArm(s: Settings, c: Cluster, refreshed: bool)
    requires Serving(s, c)
    ensures GoodPass(s, c, refreshed) ==
            match SecretData(c, s.AddonParamsKey())
            case None => None
            case Some(params) => if UninstallDue(s, c) then None else ArmAfter(s, ContextAt(s, c, params), c)
  {
    hide ArmAfter, StatesIn, Provisioned, Concluded;
    var y := HeldContext(s, c, WithStates(s, c, c.objects[s.McgKey()]));
    ServiceIsArm(s, c, y, LabelIn(s, c));
    var params := SecretData(c, s.AddonParamsKey());
    if params.Some? {
      SameContext(s, c, params.value);
    }
  }

  /** The two stores differ at most in the ManagedMCG, which has the uid that it had. */
  ghost predicate OtherMcg(s: Settings, c: Cluster, d: Cluster) {
    && d.order == c.order && (forall k :: k != s.McgKey() ==> SameAt(c, d, k))
    && s.McgKey() in c.objects && s.McgKey() in d.objects && c.objects[s.McgKey()].uid == d.objects[s.McgKey()].uid
  }

  lemma AdmittedShape(s: Settings, c: Cluster, m: Object, refreshed: bool)
    requires Living(s, c) && m.rv == c.objects[s.McgKey()].rv
    requires m.finalizers == c.objects[s.McgKey()].finalizers && !Admitted(s, c, m, refreshed).err
    ensures var a := Admitted(s, c, m, refreshed);
      Serving(s, a.store) && a.mcg.rv == a.store.objects[s.McgKey()].rv && RulesExist(s, a.store) == RulesExist(s, c)
  {
    ExecWellFormed(c, Update(s.McgKey(), m.(finalizers := m.finalizers + [FINALIZER])));
  }

  lemma AdmittedFrame(s: Settings, c: Cluster, m: Object, refreshed: bool)
    requires Living(s, c) && m.uid == c.objects[s.McgKey()].uid && !Admitted(s, c, m, refreshed).err
    ensures var a := Admitted(s, c, m, refreshed);
      OtherMcg(s, c, a.store) && a.mcg.uid == m.uid
  {
    hide WellFormed;
  }

  /** A pass that cannot add the finalizer, or whose service fails, is no good pass. */
  lemma GoodPassEnds(s: Settings, c: Cluster, refreshed: bool)
    requires Living(s, c) && GoodPass(s, c, refreshed).Some?
    ensures var a := Admitted(s, c, WithStates(s, c, c.objects[s.McgKey()]), refreshed);
      && !a.err
      && Concluded(s, Provisioned(s, a.store, HeldContext(s, c, a.mcg), LabelIn(s, c))) == (GoodPass(s, c, refreshed).value, false)
  {
    hide Exec, StatesIn, Admitted, Provisioned, LabelIn;
  }

  /** A successful pass ends with a successful arm, also when it had to add the finalizer first. */
  lemma PassEndsInArm(s: Settings, c: Cluster, refreshed: bool) returns (d: Cluster, x: Context)
    requires Living(s, c) && GoodPass(s, c, refreshed).Some?
    ensures Serving(s, d) && RulesExist(s, d) == RulesExist(s, c) && ArmAfter(s, x, d) == GoodPass(s, c, refreshed)
    ensures OtherMcg(s, c, d) && x.noobaa == Held(c, s.NoobaaKey()) && x.mcg.uid == c.objects[s.McgKey()].uid
    ensures SecretData(d, s.AddonParamsKey()) == Some(x.params)
  {
    var m := WithStates(s, c, c.objects[s.McgKey()]);
    GoodPassEnds(s, c, refreshed);
    AdmittedShape(s, c, m, refreshed);
    AdmittedFrame(s, c, m, refreshed);
    var a := Admitted(s, c, m, refreshed);
    hide ArmAfter, Exec, StatesIn, Admitted, Concluded, Provisioned, GoodPass, LabelIn, OtherMcg, RulesExist;
    d := a.store;
    var y := HeldContext(s, c, a.mcg);
    ServiceIsArm(s, d, y, LabelIn(s, c));
    x := WithParams(y, SecretData(d, s.AddonParamsKey()).value);
  }

  lemma ParamsUntouched(s: Settings, j: nat)
    requires SecretsApart(s) && j < ARM_LENGTH
    ensures !MayTouch(s, ArmStep(j), s.AddonParamsKey())
  {
  }

  /** The parameter secret and all of the ManagedMCG but its status stay as they are. */
  lemma ArmKeepsInputs(s: Settings, x: Context, c: Cluster)
    requires WellFormed(c) && SecretsApart(s) && ArmAfter(s, x, c).Some?
    ensures SecretData(ArmAfter(s, x, c).value, s.AddonParamsKey()) == SecretData(c, s.AddonParamsKey())
  {
    hide StepFrame, StepAfter;
    StepsFramed(s, x);
    var states := ArmIsChain(s, Steps(s, x), c, ARM_LENGTH);
    forall j: nat | j < ARM_LENGTH ensures !MayTouch(s, ArmStep(j), s.AddonParamsKey()) {
      ParamsUntouched(s, j);
    }
    ChainSameAt(s, Steps(s, x), states, ARM_LENGTH, 0, ARM_LENGTH, s.AddonParamsKey());
  }

  lemma WantedConfigMapLabels(s: Settings, x: Context, i: Inputs, o: Object)
    requires Wanted(s, x, i, RBACTask, o).Ok?
    ensures Wanted(s, x, i, RBACTask, o).value.labels == o.labels
  {
  }

  lemma ConfigMapLabels(s: Settings, x: Context, c: Cluster)
    requires WellFormed(c) && Brought(s, x, c, RBACTask).Some?
    ensures LabelIn(s, Brought(s, x, c, RBACTask).value) == LabelIn(s, c)
  {
    var k, i := KeyOf(s, RBACTask), InputsOf(s, c);
    var o := Wanted(s, x, i, RBACTask, Present(x, c, RBACTask, k)).value;
    WantedKeepsIdentity(s, x, i, RBACTask, Present(x, c, RBACTask, k));
    WantedConfigMapLabels(s, x, i, Present(x, c, RBACTask, k));
    WrittenShape(s, RBACTask, c, o);
    hide InputsOf, Wanted, Written, WellFormed;
    if s.AddonConfigMapKey() != k {
      assert SameAt(c, Brought(s, x, c, RBACTask).value, s.AddonConfigMapKey());
    }
  }

  lemma OtherConfigMaps(s: Settings, n: nat)
    requires n < ARM_LENGTH && ArmStep(n) != Bring(RBACTask)
    ensures !MayTouch(s, ArmStep(n), s.AddonConfigMapKey())
  {
  }

  lemma StepKeepsLabel(s: Settings, x: Context, c: Cluster, n: nat)
    requires WellFormed(c) && n < ARM_LENGTH && StepAfter(s, x, c, ArmStep(n)).Some?
    ensures var d := StepAfter(s, x, c, ArmStep(n)).value;
      WellFormed(d) && LabelIn(s, d) == LabelIn(s, c)
  {
    NoPlainConsole(n);
    StepSettles(s, x, c, ArmStep(n));
    hide WellFormed, LabelIn, MayTouch, StepFrame, Settled, Brought;
    if ArmStep(n) == Bring(RBACTask) {
      ConfigMapLabels(s, x, c);
    } else {
      OtherConfigMaps(s, n);
    }
    FrameIsWellFormed(s, ArmStep(n), c, StepAfter(s, x, c, ArmStep(n)).value);
  }

  lemma FrameIsWellFormed(s: Settings, step: Step, c: Cluster, d: Cluster)
    requires StepFrame(s, step, c, d)
    ensures WellFormed(d) && (!MayTouch(s, step, s.AddonConfigMapKey()) ==> LabelIn(s, d) == LabelIn(s, c))
  {
    if !MayTouch(s, step, s.AddonConfigMapKey()) {
      LabelUntouched(s, step, c, d);
    }
  }

  /** No step sets or lifts the deletion label. */
  lemma {:induction false} ArmKeepsLabel(s: Settings, x: Context, c: Cluster, n: nat)
    requires WellFormed(c) && n <= ARM_LENGTH
    ensures var d := Arm(Steps(s, x), c, n);
      d.Some? ==> WellFormed(d.value) && LabelIn(s, d.value) == LabelIn(s, c)
  {
    hide WellFormed, LabelIn, StepAfter;
    if n > 0 && Arm(Steps(s, x), c, n).Some? {
      ArmKeepsLabel(s, x, c, n - 1);
      StepKeepsLabel(s, x, Arm(Steps(s, x), c, n - 1).value, n - 1);
    }
  }

  lemma LabelUntouched(s: Settings, step: Step, c: Cluster, d: Cluster)
    requires StepFrame(s, step, c, d) && !MayTouch(s, step, s.AddonConfigMapKey())
    ensures LabelIn(s, d) == LabelIn(s, c) && WellFormed(d)
  {
    assert SameAt(c, d, s.AddonConfigMapKey());
  }

  /** A successful pass over a live ManagedMCG leaves a serving one. */
  lemma PassServes(s: Settings, c: Cluster, refreshed: bool)
    requires Living(s, c)
    ensures GoodPass(s, c, refreshed).Some? ==> Serving(s, GoodPass(s, c, refreshed).value)
  {
    hide GoodPass;
    if GoodPass(s, c, refreshed).Some? {
      var d, x := PassEndsInArm(s, c, refreshed);
      hide StepAfter;
      ArmKeepsMuch(s, x, d);
    }
  }

  /**
   Convergence of passes: whatever the first successful pass started from, labelled for deletion or not, after it and
   a second successful one, any further pass goes through and changes nothing in the store.
   */
  lemma ThirdPassChangesNothing(s: Settings, c0: Cluster, r0: bool, r1: bool, r2: bool)
    requires SecretsApart(s) && Living(s, c0)
    ensures var first := GoodPass(s, c0, r0);
      first.Some? ==>
        var second := GoodPass(s, first.value, r1);
        second.Some? ==> GoodPass(s, second.value, r2) == second
  {
    PassServes(s, c0, r0);
    hide GoodPass, ArmAfter, SecretData, ContextAt, LabelIn, SecretsApart, WellFormed;
    var first := GoodPass(s, c0, r0);
    if first.Some? {
      var d, x := PassEndsInArm(s, c0, r0);
      PassEstablishes(s, d, x);
      PassServes(s, first.value, r1);
      var second := GoodPass(s, first.value, r1);
      if second.Some? {
        SecondPass(s, first.value, second.value, r1, r2);
      }
    }
  }

  lemma SecondPass(s: Settings, c1: Cluster, c2: Cluster, r1: bool, r2: bool)
    requires SecretsApart(s) && Serving(s, c1) && Established(s, c1)
    requires GoodPass(s, c1, r1) == Some(c2) && Serving(s, c2)
    ensures GoodPass(s, c2, r2) == Some(c2)
  {
    hide GoodPass, ArmAfter, SecretData, ContextAt, Established, LabelIn, SecretsApart, StatesIn, WellFormed;
    PassIsArm(s, c1, r1);
    var params := SecretData(c1, s.AddonParamsKey()).value;
    var x := ContextAt(s, c1, params);
    ArmKeepsInputs(s, x, c1);
    ThirdPassIsIdle(s, c1, params);
    StillNotUninstalling(s, x, c1);
    PassIsArm(s, c2, r2);
  }

  /** From one settled store to the next, neither the label nor the component states change. */
  lemma StillNotUninstalling(s: Settings, x: Context, c: Cluster)
    requires Serving(s, c) && Established(s, c) && SecretsApart(s) && ArmAfter(s, x, c).Some?
    ensures UninstallDue(s, ArmAfter(s, x, c).value) == UninstallDue(s, c)
  {
    var d := ArmAfter(s, x, c).value;
    ArmKeepsLabel(s, x, c, ARM_LENGTH);
    ArmKeepsMuch(s, x, c);
    PassEstablishes(s, c, x);
    hide StepAfter, StatesIn, LabelIn, Arm;
    SameStates(s, x, c, d);
  }

  /**
   One pass is enough for the labels exactly if both rules of the operator existed before it. If not, the first
   successful pass leaves the labelling incomplete, and the next one still changes the store and completes it.
   */
  lemma SecondPassStillWrites(s: Settings, c0: Cluster, r0: bool, r1: bool)
    requires SecretsApart(s) && Living(s, c0)
    ensures var first := GoodPass(s, c0, r0);
      first.Some? ==>
        && (LabelsDone(s, first.value) <==> RulesExist(s, c0))
        && var second := GoodPass(s, first.value, r1);
           second.Some? ==> LabelsDone(s, second.value) && (!RulesExist(s, c0) ==> second != first)
  {
    PassServes(s, c0, r0);
    hide GoodPass, ArmAfter, ContextAt, SecretsApart, LabelIn, SecretData, LabelsDone, Established;
    var first := GoodPass(s, c0, r0);
    if first.Some? {
      var d, x := PassEndsInArm(s, c0, r0);
      PassLabelsIff(s, d, x);
      PassEstablishes(s, d, x);
      EstablishedRules(s, first.value);
      PassIsArm(s, first.value, r1);
      var params := SecretData(first.value, s.AddonParamsKey());
      if GoodPass(s, first.value, r1).Some? {
        PassLabelsIff(s, first.value, ContextAt(s, first.value, params.value));
      }
    }
  }

  lemma EstablishedRules(s: Settings, c: Cluster)
    requires Established(s, c)
    ensures RulesExist(s, c)
  {
  }
}
