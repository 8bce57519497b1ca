/** With everything supplied that the arm needs, each pass over a live ManagedMCG succeeds, when others keep still. */
module Progress {
  import opened Utils
  import opened Cluster
  import opened Config
  import opened States
  import opened Desired
  import opened StrictArm
  import opened Convergence
  import opened Uninstall
  import opened StepLaws
  import opened Fixpoint

  /** No key is listed twice. */
  ghost predicate Distinct(order: seq<Key>) {
    forall i, j :: 0 <= i < j < |order| ==> order[i] != order[j]
  }

  /** The inputs the mutate functions insist on. */
  predicate Supplied(s: Settings, i: Inputs) {
    && i.consoleDeployment.Some? && i.proxyImage.Some? && RemoteWriteWanted(s, i.rhobs).Ok?
    && i.pagerduty.Some? && Entry(i.pagerduty.value, PAGERDUTY_KEY) != ""
    && i.deadMansSnitch.Some? && Entry(i.deadMansSnitch.value, SNITCH_URL_KEY) != ""
    && i.smtp.Some? && SmtpComplete(i.smtp.value) && s.notificationHTML.Some?
  }

  /** The owner a task gives its object, if it gives one. */
  function OwnerFor(uid: nat, i: Inputs, t: Task): Option<nat> {
    match t
    case NoobaaTask => None
    case ConsoleServiceTask => i.consoleDeployment
    case ConsolePluginTask => None
    case ConsoleClusterTask => None
    case _ => Some(uid)
  }

  predicate Ownable(owner: Option<nat>, o: Object) {
    owner.None? || o.owner.None? || o.owner == owner
  }

  lemma SuppliedIsWanted(s: Settings, x: Context, i: Inputs, t: Task, o: Object)
    requires Supplied(s, i) && Ownable(OwnerFor(x.mcg.uid, i, t), o)
    ensures Wanted(s, x, i, t, o).Ok?
  {
    hide SnitchGroups, NoobaaGroups, FilledAll, SmtpComplete, RemoteWriteWanted;
  }

  /** A task's own object is no obstacle. */
  ghost predicate TaskReady(s: Settings, x: Context, c: Cluster, t: Task) {
    var k := KeyOf(s, t);
    && (k !in c.objects ==> Base(x, t).rv == 0)
    && Ownable(OwnerFor(x.mcg.uid, InputsOf(s, c), t), Present(x, c, t, k))
  }

  lemma WrittenSucceeds(s: Settings, t: Task, c: Cluster, o: Object)
    requires WellFormed(c) && s.namespace != ""
    requires if KeyOf(s, t) in c.objects then o.rv == c.objects[KeyOf(s, t)].rv else o.rv == 0
    ensures Written(c, KeyOf(s, t), o).Some?
  {
  }

  lemma TaskSucceeds(s: Settings, x: Context, c: Cluster, t: Task)
    requires WellFormed(c) && s.namespace != "" && Supplied(s, InputsOf(s, c)) && TaskReady(s, x, c, t)
    ensures Brought(s, x, c, t).Some?
  {
    hide Wanted, InputsOf, Supplied, KeyOf, Base, OwnerFor, Written;
    var k, i := KeyOf(s, t), InputsOf(s, c);
    var base := Present(x, c, t, k);
    SuppliedIsWanted(s, x, i, t, base);
    WantedKeepsIdentity(s, x, i, t, base);
    WrittenSucceeds(s, t, c, Wanted(s, x, i, t, base).value);
  }

  // The order of lists

  lemma WrittenOrder(c: Cluster, k: Key, o: Object)
    requires WellFormed(c) && Distinct(c.order) && Written(c, k, o).Some?
    requires k in c.objects ==> KeepsIdentity(o, c.objects[k]) && o.rv == c.objects[k].rv
    ensures Distinct(Written(c, k, o).value.order)
  {
    if k in c.objects {
      UpdateShape(c, k, o);
    } else {
      CreateShape(c, k, o);
    }
    hide Exec;
    var d := Written(c, k, o).value;
    assert d.order == if k in c.objects then c.order else c.order + [k];
    assert k !in c.objects ==> k !in c.order;
  }

  lemma BroughtOrder(s: Settings, x: Context, c: Cluster, t: Task)
    requires WellFormed(c) && Distinct(c.order) && Brought(s, x, c, t).Some?
    ensures Distinct(Brought(s, x, c, t).value.order)
  {
    hide Wanted, InputsOf, KeyOf, Distinct, Written, Base;
    WantedKeepsIdentity(s, x, InputsOf(s, c), t, Present(x, c, t, KeyOf(s, t)));
    WrittenOrder(c, KeyOf(s, t), Wanted(s, x, InputsOf(s, c), t, Present(x, c, t, KeyOf(s, t))).value);
  }

  lemma StepKeepsOrder(s: Settings, x: Context, c: Cluster, n: nat)
    requires WellFormed(c) && Distinct(c.order) && n < ARM_LENGTH && StepAfter(s, x, c, ArmStep(n)).Some?
    ensures Distinct(StepAfter(s, x, c, ArmStep(n)).value.order)
  {
    NoPlainConsole(n);
    StepSettles(s, x, c, ArmStep(n));
    hide Distinct, Brought, OcsScaled, LabelledAll, Exec;
    match ArmStep(n) {
      case Bring(t) => BroughtOrder(s, x, c, t);
      case ConsoleStep =>
        if !Lists(ListOf(c, Console, None), CONSOLE_NAME) {
          BroughtOrder(s, x, c, ConsoleClusterTask);
        }
      case _ =>
    }
  }

  // Labelling succeeds

  ghost predicate AllPristine(c: Cluster, items: seq<Item>) {
    && (forall i :: 0 <= i < |items| ==> Pristine(c, items[i]))
    && (forall i, j :: 0 <= i < j < |items| ==> items[i].key != items[j].key)
  }

  lemma LabelOneSucceeds(c: Cluster, items: seq<Item>)
    requires WellFormed(c) && AllPristine(c, items) && items != []
    ensures var d := Accepted(Exec(c, Update(items[0].key, Labelled(items[0]))));
      d.Some? && WellFormed(d.value) && AllPristine(d.value, items[1..])
  {
    UpdateShape(c, items[0].key, Labelled(items[0]));
    var d := Accepted(Exec(c, Update(items[0].key, Labelled(items[0])))).value;
    hide Exec, Labelled;
    forall i | 0 <= i < |items[1..]| ensures Pristine(d, items[1..][i]) {
      assert items[1..][i] == items[i + 1];
      assert SameAt(c, d, items[i + 1].key);
    }
  }

  lemma {:induction false} UpdateAllSucceeds(c: Cluster, items: seq<Item>)
    requires WellFormed(c) && AllPristine(c, items)
    ensures UpdateAll(c, items).Some?
    decreases |items|
  {
    hide Exec, Labelled, AllPristine, WellFormed;
    if items != [] {
      LabelOneSucceeds(c, items);
      UpdateAllSucceeds(Accepted(Exec(c, Update(items[0].key, Labelled(items[0])))).value, items[1..]);
    }
  }

  lemma {:induction false} SelectDistinct(objects: map<Key, Object>, order: seq<Key>, kind: Kind, scope: Option<string>)
    requires Distinct(order)
    ensures var items := Select(objects, order, kind, scope);
      forall i, j :: 0 <= i < j < |items| ==> items[i].key != items[j].key
  {
    if order != [] {
      SelectDistinct(objects, order[1..], kind, scope);
      var rest := Select(objects, order[1..], kind, scope);
      forall j | 0 <= j < |rest| ensures rest[j].key != order[0] {
        SelectExact(objects, order[1..], kind, scope, rest[j]);
      }
    }
  }

  lemma ListIsPristine(c: Cluster, kind: Kind, scope: Option<string>)
    requires WellFormed(c) && Distinct(c.order)
    ensures AllPristine(c, ListOf(c, kind, scope))
  {
    var items := ListOf(c, kind, scope);
    SelectDistinct(c.objects, c.order, kind, scope);
    forall i | 0 <= i < |items| ensures Pristine(c, items[i]) {
      SelectExact(c.objects, c.order, kind, scope, items[i]);
    }
  }

  lemma LabelKindSucceeds(s: Settings, c: Cluster, kind: Kind)
    requires WellFormed(c) && Distinct(c.order)
    ensures LabelKind(s, c, kind).Some?
  {
    hide AllPristine, Distinct, WellFormed, ListOf, UpdateAll;
    ListIsPristine(c, kind, Some(s.namespace));
    UpdateAllSucceeds(c, ListOf(c, kind, Some(s.namespace)));
  }

  lemma LabellingSucceeds(s: Settings, c: Cluster)
    requires WellFormed(c) && Distinct(c.order)
    ensures LabelledAll(s, c).Some?
  {
    hide LabelKind, Distinct, LabelFrame, WellFormed;
    LabelKindSucceeds(s, c, PodMonitor);
    var d := LabelKind(s, c, PodMonitor).value;
    KindIsWellFormed(s, c, PodMonitor);
    LabelKindSucceeds(s, d, ServiceMonitor);
    KindIsWellFormed(s, d, ServiceMonitor);
    LabelKindSucceeds(s, LabelKind(s, d, ServiceMonitor).value, PrometheusRule);
  }

  // The steps, one after the other

  ghost predicate OcsPresent(s: Settings, c: Cluster) {
    FirstWithPrefix(ListOf(c, CSV, Some(s.namespace)), OCS_CSV_PREFIX).Some?
  }

  /** From step `n` on, nothing stands in the way. */
  ghost predicate ReadyFrom(s: Settings, x: Context, c: Cluster, n: nat) {
    && WellFormed(c) && Distinct(c.order) && s.namespace != "" && Supplied(s, InputsOf(s, c)) && OcsPresent(s, c)
    && forall j: nat {:trigger ArmStep(j)} :: n <= j < ARM_LENGTH && ArmStep(j).Bring? ==> TaskReady(s, x, c, ArmStep(j).task)
  }

  lemma ConsoleIsReady(s: Settings, x: Context, c: Cluster)
    ensures TaskReady(s, x, c, ConsoleClusterTask)
  {
  }

  lemma OcsSucceeds(s: Settings, x: Context, c: Cluster)
    requires WellFormed(c) && OcsPresent(s, c)
    ensures OcsScaled(s, x, c).Some?
  {
    if NoobaaIsReady(x) {
      FirstByKey(c.objects, c.order, CSV, Some(s.namespace), OCS_CSV_PREFIX);
      var item := FirstWithPrefix(ListOf(c, CSV, Some(s.namespace)), OCS_CSV_PREFIX).value;
      UpdateShape(c, item.key, item.obj.(spec := Deployments(Downscaled(DeploymentsOf(item.obj)))));
    }
  }

  lemma StepSucceeds(s: Settings, x: Context, c: Cluster, n: nat)
    requires n < ARM_LENGTH - 1 && ReadyFrom(s, x, c, n)
    ensures StepAfter(s, x, c, ArmStep(n)).Some?
  {
    hide Supplied, InputsOf, OcsPresent, TaskReady, Brought, OcsScaled, LabelledAll, Distinct;
    match ArmStep(n) {
      case Bring(t) => TaskSucceeds(s, x, c, t);
      case ConsoleStep =>
        ConsoleIsReady(s, x, c);
        TaskSucceeds(s, x, c, ConsoleClusterTask);
      case OcsStep => OcsSucceeds(s, x, c);
      case LabelStep => LabellingSucceeds(s, c);
      case ReportStep => assert false;
    }
  }

  lemma EarlierStepsApart(s: Settings, n: nat, j: nat)
    requires n < j < ARM_LENGTH && ArmStep(j).Bring? && !ArmStep(n).LabelStep?
    ensures !MayTouch(s, ArmStep(n), KeyOf(s, ArmStep(j).task))
  {
  }

  /** `d` has the object of `k` exactly if `c` has, and with the same owner. */
  predicate SameOwner(c: Cluster, d: Cluster, k: Key) {
    (k in c.objects <==> k in d.objects) && (k in c.objects ==> c.objects[k].owner == d.objects[k].owner)
  }

  lemma TaskStaysReady(s: Settings, x: Context, c: Cluster, d: Cluster, t: Task)
    requires TaskReady(s, x, c, t) && InputsOf(s, c) == InputsOf(s, d) && SameOwner(c, d, KeyOf(s, t))
    ensures TaskReady(s, x, d, t)
  {
    hide InputsOf, KeyOf, Base;
  }

  lemma LabellingKeepsOwner(s: Settings, c: Cluster, k: Key)
    requires WellFormed(c) && LabelledAll(s, c).Some?
    ensures SameOwner(c, LabelledAll(s, c).value, k)
  {
    hide LabelledAll, WellFormed;
    LabellingIsExact(s, c, k);
  }

  lemma StepKeepsOwner(s: Settings, x: Context, c: Cluster, n: nat, j: nat)
    requires WellFormed(c) && n < j < ARM_LENGTH && ArmStep(j).Bring? && StepAfter(s, x, c, ArmStep(n)).Some?
    requires StepFrame(s, ArmStep(n), c, StepAfter(s, x, c, ArmStep(n)).value)
    ensures SameOwner(c, StepAfter(s, x, c, ArmStep(n)).value, KeyOf(s, ArmStep(j).task))
  {
    var k := KeyOf(s, ArmStep(j).task);
    if ArmStep(n).LabelStep? {
      LabellingKeepsOwner(s, c, k);
    } else {
      EarlierStepsApart(s, n, j);
      assert SameAt(c, StepAfter(s, x, c, ArmStep(n)).value, k);
    }
  }

  lemma OcsStaysPresent(s: Settings, step: Step, c: Cluster, d: Cluster)
    requires WellFormed(c) && StepFrame(s, step, c, d) && OcsPresent(s, c)
    ensures OcsPresent(s, d)
  {
    if step.OcsStep? {
      SameKeys(s, step, c, d);
      FirstByKey(c.objects, c.order, CSV, Some(s.namespace), OCS_CSV_PREFIX);
      FirstByKey(d.objects, d.order, CSV, Some(s.namespace), OCS_CSV_PREFIX);
    } else {
      ListKept(s, step, c, d, CSV, Some(s.namespace));
    }
  }

  lemma StepKeepsReady(s: Settings, x: Context, c: Cluster, n: nat)
    requires SecretsApart(s) && n < ARM_LENGTH && ReadyFrom(s, x, c, n) && StepAfter(s, x, c, ArmStep(n)).Some?
    ensures ReadyFrom(s, x, StepAfter(s, x, c, ArmStep(n)).value, n + 1)
  {
    var d := StepAfter(s, x, c, ArmStep(n)).value;
    NoPlainConsole(n);
    StepSettles(s, x, c, ArmStep(n));
    StepKeepsOrder(s, x, c, n);
    OcsStaysPresent(s, ArmStep(n), c, d);
    InputsKept(s, ArmStep(n), c, d);
    hide Supplied, InputsOf, OcsPresent, TaskReady, StepAfter, Distinct, KeyOf, Settled, MayTouch;
    forall j: nat | n + 1 <= j < ARM_LENGTH && ArmStep(j).Bring? ensures TaskReady(s, x, d, ArmStep(j).task) {
      StepKeepsOwner(s, x, c, n, j);
      assert TaskReady(s, x, c, ArmStep(j).task);
      TaskStaysReady(s, x, c, d, ArmStep(j).task);
    }
  }

  lemma {:induction false} ArmSucceeds(s: Settings, x: Context, c: Cluster, n: nat)
    requires SecretsApart(s) && n < ARM_LENGTH && ReadyFrom(s, x, c, 0)
    ensures Arm(Steps(s, x), c, n).Some? && ReadyFrom(s, x, Arm(Steps(s, x), c, n).value, n)
  {
    hide ReadyFrom, StepAfter, SecretsApart;
    if n > 0 {
      ArmSucceeds(s, x, c, n - 1);
      var d := Arm(Steps(s, x), c, n - 1).value;
      StepSucceeds(s, x, d, n - 1);
      StepKeepsReady(s, x, d, n - 1);
    }
  }

  // Passes

  /** All components will be ready once a pass has brought up what is missing. */
  predicate WillBeReady(s: Settings, c: Cluster) {
    && s.NoobaaKey() in c.objects && c.objects[s.NoobaaKey()].status.phase == "Ready"
    && HasReady(c, s.PrometheusSetKey()) && HasReady(c, s.AlertmanagerSetKey()) && HasReady(c, s.ConsoleDeploymentKey())
  }

  predicate HasReady(c: Cluster, k: Key) {
    k in c.objects && c.objects[k].status.readyReplicas >= 1
  }

  /**
   A serving ManagedMCG with all that its passes need: inputs, parameters, an OCS operator, objects nobody else owns;
   and no uninstalling that would begin now or after a pass.
   */
  ghost predicate Provided(s: Settings, c: Cluster) {
    Equipped(s, c) && (LabelIn(s, c) ==> StatesIn(s, c) != ALL_READY && !WillBeReady(s, c))
  }

  /** All of that, whether uninstalling is due or not. */
  ghost predicate Equipped(s: Settings, c: Cluster) {
    && Serving(s, c)
    && Distinct(c.order) && s.namespace != "" && Supplied(s, InputsOf(s, c)) && OcsPresent(s, c)
    && SecretData(c, s.AddonParamsKey()).Some?
    && forall j: nat {:trigger ArmStep(j)} :: j < ARM_LENGTH && ArmStep(j).Bring? ==>
         Ownable(OwnerFor(c.objects[s.McgKey()].uid, InputsOf(s, c), ArmStep(j).task), Held(c, KeyOf(s, ArmStep(j).task)))
  }

  /** A NooBaa that the arm created is not ready yet. */
  lemma NewNoobaaIsBare(s: Settings, x: Context, c: Cluster)
    requires WellFormed(c) && ArmAfter(s, x, c).Some? && s.NoobaaKey() !in c.objects && x.noobaa == NEW_OBJECT
    ensures var d := ArmAfter(s, x, c).value;
      s.NoobaaKey() in d.objects ==> d.objects[s.NoobaaKey()].status == NO_STATUS
  {
    StepsFramed(s, x);
    var first, last := ArmEnds(s, Steps(s, x), c);
    CreatedBare(s, x, c, first);
  }

  lemma CreatedBare(s: Settings, x: Context, c: Cluster, d: Cluster)
    requires s.NoobaaKey() !in c.objects && Steps(s, x)(c, Bring(NoobaaTask)) == Some(d) && x.noobaa == NEW_OBJECT
    ensures s.NoobaaKey() in d.objects ==> d.objects[s.NoobaaKey()].status == NO_STATUS
  {
    hide InputsOf;
  }

  /** In an established store all components are ready exactly if it was clear before the pass that they would be. */
  lemma ReadyWasForeseen(s: Settings, c: Cluster, params: map<string, string>)
    requires WellFormed(c) && s.McgKey() in c.objects && ArmAfter(s, ContextAt(s, c, params), c).Some?
    requires Established(s, ArmAfter(s, ContextAt(s, c, params), c).value)
    ensures var d := ArmAfter(s, ContextAt(s, c, params), c).value;
      (StatesIn(s, d) == ALL_READY <==> WillBeReady(s, c)) && (WillBeReady(s, d) <==> WillBeReady(s, c))
  {
    var x := ContextAt(s, c, params);
    ArmKeepsMuch(s, x, c);
    if s.NoobaaKey() !in c.objects {
      NewNoobaaIsBare(s, x, c);
    }
    var d := ArmAfter(s, x, c).value;
    hide ArmAfter, WellFormed, RulesExist, Reported;
    assert s.NoobaaKey() in c.objects ==> KeepsIdentity(c.objects[s.NoobaaKey()], d.objects[s.NoobaaKey()]);
  }

  lemma HeldIsReady(s: Settings, c: Cluster, params: map<string, string>, t: Task)
    requires s.McgKey() in c.objects
    requires Ownable(OwnerFor(c.objects[s.McgKey()].uid, InputsOf(s, c), t), Held(c, KeyOf(s, t)))
    ensures TaskReady(s, ContextAt(s, c, params), c, t)
  {
    hide InputsOf, StatesIn;
  }

  lemma EquippedIsReady(s: Settings, c: Cluster, params: map<string, string>)
    requires Equipped(s, c)
    ensures ReadyFrom(s, ContextAt(s, c, params), c, 0)
  {
    hide InputsOf, Supplied, OcsPresent, Distinct, TaskReady, ContextAt, KeyOf, Ownable, OwnerFor;
    forall j: nat | j < ARM_LENGTH && ArmStep(j).Bring? ensures TaskReady(s, ContextAt(s, c, params), c, ArmStep(j).task) {
      HeldIsReady(s, c, params, ArmStep(j).task);
    }
  }

  lemma ProvidedPassSucceeds(s: Settings, c: Cluster, refreshed: bool)
    requires SecretsApart(s) && Provided(s, c)
    ensures GoodPass(s, c, refreshed).Some?
    ensures var x := ContextAt(s, c, SecretData(c, s.AddonParamsKey()).value);
      GoodPass(s, c, refreshed) == ArmAfter(s, x, c) && ReadyFrom(s, x, GoodPass(s, c, refreshed).value, ARM_LENGTH)
  {
    var x := ContextAt(s, c, SecretData(c, s.AddonParamsKey()).value);
    EquippedIsReady(s, c, x.params);
    PassIsArm(s, c, refreshed);
    ArmSucceeds(s, x, c, RESOURCE_STEPS);
    ArmUnfolds(s, x, c);
    ArmLeavesMcg(s, x, c);
    var d := Arm(Steps(s, x), c, RESOURCE_STEPS).value;
    ReportAccepted(s, d, x.mcg);
    hide InputsOf, Supplied, OcsPresent, Distinct, TaskReady, Arm, GoodPass, Exec, StatesIn, WillBeReady, LabelIn;
    StepKeepsReady(s, x, d, RESOURCE_STEPS);
  }

  lemma WantedOwner(s: Settings, x: Context, i: Inputs, t: Task, o: Object)
    requires Wanted(s, x, i, t, o) == Ok(o)
    ensures Ownable(OwnerFor(x.mcg.uid, i, t), o)
  {
    hide SnitchGroups, NoobaaGroups, FilledAll, SmtpComplete, RemoteWriteWanted;
  }

  lemma SettledIsOwned(s: Settings, x: Context, d: Cluster, labelled: bool, j: nat)
    requires SettledUpTo(s, x, d, ARM_LENGTH, labelled) && j < ARM_LENGTH && ArmStep(j).Bring?
    ensures Ownable(OwnerFor(x.mcg.uid, InputsOf(s, d), ArmStep(j).task), Held(d, KeyOf(s, ArmStep(j).task)))
  {
    var t := ArmStep(j).task;
    assert Settled(s, x, d, ArmStep(j));
    hide InputsOf, KeyOf, OwnerFor, Ownable, Wanted, SettledUpTo;
    WantedOwner(s, x, InputsOf(s, d), t, d.objects[KeyOf(s, t)]);
  }

  /** A pass takes none of what it needs away from the next. */
  lemma ProvidedStays(s: Settings, c: Cluster, refreshed: bool)
    requires SecretsApart(s) && Provided(s, c)
    ensures GoodPass(s, c, refreshed).Some? && Provided(s, GoodPass(s, c, refreshed).value)
  {
    ProvidedPassSucceeds(s, c, refreshed);
    PassServes(s, c, refreshed);
    var x, d := ContextAt(s, c, SecretData(c, s.AddonParamsKey()).value), GoodPass(s, c, refreshed).value;
    ArmSettles(s, x, c);
    ArmKeepsMuch(s, x, c);
    ArmKeepsInputs(s, x, c);
    StillNotForeseen(s, c, x.params);
    assert x.mcg.uid == d.objects[s.McgKey()].uid;
    hide InputsOf, Supplied, OcsPresent, Distinct, Ownable, OwnerFor, GoodPass, ArmAfter, SettledUpTo, StatesIn,
      KeyOf, LabelIn, WillBeReady, ContextAt;
    forall j: nat | j < ARM_LENGTH && ArmStep(j).Bring?
      ensures Ownable(OwnerFor(d.objects[s.McgKey()].uid, InputsOf(s, d), ArmStep(j).task), Held(d, KeyOf(s, ArmStep(j).task)))
    {
      SettledIsOwned(s, x, d, RulesExist(s, c), j);
    }
  }

  lemma StillNotForeseen(s: Settings, c: Cluster, params: map<string, string>)
    requires SecretsApart(s) && Provided(s, c) && ArmAfter(s, ContextAt(s, c, params), c).Some?
    ensures var d := ArmAfter(s, ContextAt(s, c, params), c).value;
      LabelIn(s, d) ==> StatesIn(s, d) != ALL_READY && !WillBeReady(s, d)
  {
    var x := ContextAt(s, c, params);
    PassEstablishes(s, c, x);
    ArmKeepsLabel(s, x, c, ARM_LENGTH);
    hide InputsOf, Supplied, OcsPresent, Distinct, Ownable, OwnerFor, StatesIn, LabelIn, WillBeReady, StepAfter;
    ReadyWasForeseen(s, c, params);
  }

  /**
   Progress and convergence together: with everything provided and others keeping still, a first and a second pass
   succeed, and every further one succeeds and changes nothing.
   */
  lemma ProvidedPassesConverge(s: Settings, c: Cluster, r0: bool, r1: bool, r2: bool)
    requires SecretsApart(s) && Provided(s, c)
    ensures GoodPass(s, c, r0).Some?
    ensures var c1 := GoodPass(s, c, r0).value;
      && GoodPass(s, c1, r1).Some?
      && var c2 := GoodPass(s, c1, r1).value;
         GoodPass(s, c2, r2) == Some(c2)
  {
    ProvidedStays(s, c, r0);
    hide GoodPass, Provided, SecretsApart, WellFormed;
    var c1 := GoodPass(s, c, r0).value;
    ProvidedIsServing(s, c);
    ProvidedIsServing(s, c1);
    ProvidedStays(s, c1, r1);
    ThirdPassChangesNothing(s, c, r0, r1, r2);
  }

  lemma ProvidedIsServing(s: Settings, c: Cluster)
    requires Provided(s, c)
    ensures Living(s, c)
  {
  }
}
