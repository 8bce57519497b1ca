/** Runs in which the operator does what it seems to rule out: the exceptions of the safety theorems do happen. */
module Witnesses {
  import opened Utils
  import opened Cluster
  import opened Config
  import opened States
  import opened Desired
  import opened StrictArm
  import opened Logs
  import opened Protocol
  import opened Contracts
  import opened Uninstall
  import opened StepLaws
  import opened Consoles

  // Building runs

  /** The run with one more request, and its reply. */
  function Requested(s: Settings, r: Run, req: Request, fate: Fate): Run
    requires r.states != [] && r.views != []
  {
    Extend(s, r, Call(req, fate, Reply(Last(r.states), req, fate)))
  }

  /** The run ends in store `c`, with a pass that knows `v`. */
  ghost predicate EndsIn(s: Settings, r: Run, c: Cluster, v: View) {
    IsRun(s, r) && r.states != [] && r.views != [] && Last(r.states) == c && Last(r.views) == v
  }

  lemma RunEnds(s: Settings, r: Run)
    requires IsRun(s, r)
    ensures r.states != [] && r.views != [] && EndsIn(s, r, Last(r.states), Last(r.views)) && WellFormed(Last(r.states))
  {
    RunKeepsInv(s, r, |r.events|);
    WellFormedFact(PassSettings(s, Last(r.views).mode), Last(r.states), Last(r.views));
  }

  lemma AfterRequest(s: Settings, r: Run, c: Cluster, v: View, req: Request, fate: Fate)
    requires EndsIn(s, r, c, v) && Allowed(PassSettings(s, v.mode), v, req)
    ensures EndsIn(s, Requested(s, r, req, fate), Effect(c, req, fate),
                   Observe(PassSettings(s, v.mode), v, req, Reply(c, req, fate)))
  {
    hide Allowed, Observe, Effect, Reply, Initial, Permitted, Apply;
    ExtendIsRun(s, r, Call(req, fate, Reply(c, req, fate)));
  }

  lemma AfterStart(s: Settings, r: Run, c: Cluster, v: View, mode: Mode)
    requires EndsIn(s, r, c, v)
    ensures EndsIn(s, Extend(s, r, Begin(mode)), c, Fresh(mode))
  {
    hide Allowed, Observe, Effect, Reply, Initial, Permitted, Apply;
    ExtendIsRun(s, r, Begin(mode));
  }

  lemma AfterEdit(s: Settings, r: Run, c: Cluster, v: View, a: Outside)
    requires EndsIn(s, r, c, v) && Permitted(s, c, a)
    ensures EndsIn(s, Extend(s, r, Env(a)), Apply(c, a), v)
  {
    hide Allowed, Observe, Effect, Reply, Initial, Permitted, Apply;
    ExtendIsRun(s, r, Env(a));
  }

  /** A read in a pass: the store stays, the reply is learned. */
  lemma AfterRead(s: Settings, r: Run, c: Cluster, v: View, req: Request, fate: Fate)
    requires EndsIn(s, r, c, v) && v.mode.Reconciling? && (req.Get? || req.List?)
    ensures EndsIn(s, Requested(s, r, req, fate), c, Observe(PassSettings(s, v.mode), v, req, Reply(c, req, fate)))
  {
    hide EndsIn;
    assert Allowed(PassSettings(s, v.mode), v, req) && Effect(c, req, fate) == c;
    AfterRequest(s, r, c, v, req, fate);
  }

  lemma AfterGetting(s: Settings, r: Run, c: Cluster, v: View, k: Key, fate: Fate)
    requires EndsIn(s, r, c, v) && v.mode.Reconciling?
    ensures EndsIn(s, Requested(s, r, Get(k), fate), c, AfterGet(v, k, if fate.Served? then Look(c, k) else Failure))
  {
    hide IsRun, AfterGet, Observe;
    AfterRead(s, r, c, v, Get(k), fate);
    GetObserved(PassSettings(s, v.mode), v, k, if fate.Served? then Look(c, k) else Failure);
  }

  lemma AfterListing(s: Settings, r: Run, c: Cluster, v: View, kind: Kind, scope: Option<string>)
    requires EndsIn(s, r, c, v) && v.mode.Reconciling? && !kind.BucketClass?
    ensures EndsIn(s, Requested(s, r, List(kind, scope), Served), c,
                   v.(log := v.log + [Exchange(List(kind, scope), Items(ListOf(c, kind, scope)))]))
  {
    hide IsRun;
    AfterRead(s, r, c, v, List(kind, scope), Served);
  }

  /** A pass of this name finds a live ManagedMCG with the finalizer. */
  ghost predicate Ready(s: Settings, c: Cluster, name: string) {
    var k := s.(request := name).McgKey();
    k in c.objects && !c.objects[k].deleting && FINALIZER in c.objects[k].finalizers
  }

  /** The pass has just begun and got its ManagedMCG. */
  function Entering(s: Settings, r: Run, name: string): Run
    requires r.states != [] && r.views != []
  {
    Requested(s, Extend(s, r, Begin(Reconciling(name))), Get(s.(request := name).McgKey()), Served)
  }

  function Entered(s: Settings, c: Cluster, name: string): View
    requires s.(request := name).McgKey() in c.objects
  {
    var k := s.(request := name).McgKey();
    var resp := Found(c.objects[k]);
    View(Reconciling(name), map[k := resp], [Exchange(Get(k), resp)], false, false, false, false, false)
  }

  lemma AfterEntering(s: Settings, r: Run, c: Cluster, v: View, name: string)
    requires EndsIn(s, r, c, v) && s.(request := name).McgKey() in c.objects
    ensures EndsIn(s, Entering(s, r, name), c, Entered(s, c, name))
  {
    var k := s.(request := name).McgKey();
    AfterStart(s, r, c, v, Reconciling(name));
    AfterRead(s, Extend(s, r, Begin(Reconciling(name))), c, Fresh(Reconciling(name)), Get(k), Served);
    hide EndsIn;
    assert map[][k := Found(c.objects[k])] == map[k := Found(c.objects[k])];
    assert [] + [Exchange(Get(k), Found(c.objects[k]))] == [Exchange(Get(k), Found(c.objects[k]))];
  }

  // The default store

  /** A default store that would not be chosen from the backing stores at hand. */
  ghost predicate ChosenByUser(s: Settings, c: Cluster) {
    && s.NoobaaKey() in c.objects && DefaultStoreOf(c.objects[s.NoobaaKey()]) != ""
    && DefaultStore(AllOf(s, c, BackingStore)) !in {"", DefaultStoreOf(c.objects[s.NoobaaKey()])}
  }

  /** NooBaa after its default store was replaced by one from the list. */
  function Overwritten(s: Settings, c: Cluster): Object
    requires s.NoobaaKey() in c.objects
  {
    NoobaaWanted(map[], DefaultStore(AllOf(s, c, BackingStore)), c.objects[s.NoobaaKey()])
  }

  /** The pass looks at NooBaa in vain, lists the backing stores, gets NooBaa and updates it. */
  function Losing(s: Settings, r: Run, c: Cluster, name: string): Run
    requires r.states != [] && r.views != [] && s.NoobaaKey() in c.objects
  {
    var looked := Requested(s, Entering(s, r, name), Get(s.NoobaaKey()), Refused);
    var listed := Requested(s, looked, List(BackingStore, Some(s.namespace)), Served);
    Requested(s, Requested(s, listed, Get(s.NoobaaKey()), Served), Update(s.NoobaaKey(), Overwritten(s, c)), Served)
  }

  lemma OverwriteTakesEffect(s: Settings, c: Cluster)
    requires WellFormed(c) && ChosenByUser(s, c)
    ensures var d := Exec(c, Update(s.NoobaaKey(), Overwritten(s, c))).0;
      s.NoobaaKey() in d.objects && DefaultStoreOf(d.objects[s.NoobaaKey()]) == DefaultStore(AllOf(s, c, BackingStore))
  {
    hide ListOf, DefaultStore;
  }

  /** What the pass knows before the update. */
  function Misled(s: Settings, c: Cluster, name: string): View
    requires s.(request := name).McgKey() in c.objects && s.NoobaaKey() in c.objects
  {
    var v := Entered(s, c, name);
    v.(seen := v.seen[s.NoobaaKey() := Failure],
       log := v.log + [Exchange(Get(s.NoobaaKey()), Failure),
                       Exchange(List(BackingStore, Some(s.namespace)), Items(AllOf(s, c, BackingStore))),
                       Exchange(Get(s.NoobaaKey()), Found(c.objects[s.NoobaaKey()]))])
  }

  lemma MisledIsGranted(s: Settings, c: Cluster, name: string)
    requires Ready(s, c, name) && s.NoobaaKey() in c.objects
    ensures Allowed(s.(request := name), Misled(s, c, name), Update(s.NoobaaKey(), Overwritten(s, c)))
  {
    hide ListOf, DefaultStore, NoobaaWanted;
    var v := Misled(s, c, name);
    assert v.log[|v.log| - 2].req == List(BackingStore, Some(s.namespace));
  }

  lemma MisledIs(s: Settings, c: Cluster, name: string)
    requires s.(request := name).McgKey() in c.objects && s.NoobaaKey() in c.objects
    ensures var v2 := AfterGet(Entered(s, c, name), s.NoobaaKey(), Failure);
      var listed := Exchange(List(BackingStore, Some(s.namespace)), Items(AllOf(s, c, BackingStore)));
      && v2.mode == Reconciling(name) == Misled(s, c, name).mode
      && AfterGet(v2.(log := v2.log + [listed]), s.NoobaaKey(), Look(c, s.NoobaaKey())) == Misled(s, c, name)
  {
    hide ListOf;
  }

  lemma AfterLosing(s: Settings, r: Run, c: Cluster, v: View, name: string)
    requires EndsIn(s, r, c, v) && Ready(s, c, name) && s.NoobaaKey() in c.objects
    ensures exists w :: EndsIn(s, Losing(s, r, c, name), Exec(c, Update(s.NoobaaKey(), Overwritten(s, c))).0, w)
  {
    hide IsRun, Entering, Entered, Requested, AfterGet, Misled, Overwritten, Allowed, Observe, Exec, DefaultStore, ListOf;
    var k, v1, r1 := s.NoobaaKey(), Entered(s, c, name), Entering(s, r, name);
    AfterEntering(s, r, c, v, name);
    EnteredMode(s, c, name);
    MisledIs(s, c, name);
    AfterGetting(s, r1, c, v1, k, Refused);
    var v2, r2 := AfterGet(v1, k, Failure), Requested(s, r1, Get(k), Refused);
    AfterListing(s, r2, c, v2, BackingStore, Some(s.namespace));
    var v3, r3 := v2.(log := v2.log + [Exchange(List(BackingStore, Some(s.namespace)), Items(AllOf(s, c, BackingStore)))]),
                  Requested(s, r2, List(BackingStore, Some(s.namespace)), Served);
    AfterGetting(s, r3, c, v3, k, Served);
    MisledIsGranted(s, c, name);
    var r4 := Requested(s, r3, Get(k), Served);
    AfterRequest(s, r4, c, Misled(s, c, name), Update(k, Overwritten(s, c)), Served);
    assert Losing(s, r, c, name) == Requested(s, r4, Update(k, Overwritten(s, c)), Served);
  }

  lemma EnteredMode(s: Settings, c: Cluster, name: string)
    requires s.(request := name).McgKey() in c.objects
    ensures Entered(s, c, name).mode == Reconciling(name)
  {
  }

  /**
   Every run that comes to a store with a default store that the user chose can go on so: a pass begins, its first look
   at NooBaa fails, and with its list, its get and its update it replaces the user's choice.
   */
  lemma StoreLostAfterFailedLook(s: Settings, r: Run, name: string) returns (q: Run)
    requires IsRun(s, r) && r.states != [] && Ready(s, Last(r.states), name) && ChosenByUser(s, Last(r.states))
    ensures IsRun(s, q) && q.states != [] && r.events <= q.events && |q.events| == |r.events| + 6
    ensures var c, d, k := Last(r.states), Last(q.states), s.NoobaaKey();
      && q.events[|r.events| + 2] == Call(Get(k), Refused, Failure)
      && k in d.objects && DefaultStoreOf(d.objects[k]) == DefaultStore(AllOf(s, c, BackingStore)) != DefaultStoreOf(c.objects[k])
  {
    hide IsRun, WellFormed, DefaultStoreOf, DefaultStore, ListOf, Exec, Overwritten, Requested, Entering;
    RunEnds(s, r);
    var c, v := Last(r.states), Last(r.views);
    q := Losing(s, r, c, name);
    LosingEvents(s, r, c, name);
    AfterLosing(s, r, c, v, name);
    OverwriteTakesEffect(s, c);
  }

  lemma LosingEvents(s: Settings, r: Run, c: Cluster, name: string)
    requires r.states != [] && r.views != [] && s.NoobaaKey() in c.objects
    ensures var q := Losing(s, r, c, name);
      && r.events <= q.events && |q.events| == |r.events| + 6
      && q.events[|r.events| + 2] == Call(Get(s.NoobaaKey()), Refused, Failure)
  {
    hide Overwritten, Exec, NextView, Next;
  }

  // The console plugin

  /** No Console has the plugin, and there is the one that the operator writes. */
  ghost predicate PluginFree(s: Settings, c: Cluster) {
    s.ConsoleClusterKey() in c.objects && !SomeConsoleLists(c)
  }

  /** The write of somebody who adds the plugin as well. */
  function Addition(s: Settings, c: Cluster): Outside
    requires s.ConsoleClusterKey() in c.objects
  {
    var o := c.objects[s.ConsoleClusterKey()];
    Edit(s.ConsoleClusterKey(), o.(spec := Plugins(PluginsOf(o) + [CONSOLE_NAME])))
  }

  function AddedTo(o: Object): Object {
    o.(spec := Plugins(PluginsOf(o) + [CONSOLE_NAME]))
  }

  /** The pass lists the Consoles; others add the plugin; the pass gets the Console and adds it once more. */
  function Doubling(s: Settings, r: Run, c: Cluster, name: string): Run
    requires r.states != [] && r.views != [] && s.ConsoleClusterKey() in c.objects
  {
    var k := s.ConsoleClusterKey();
    var listed := Requested(s, Entering(s, r, name), List(Console, None), Served);
    var d := Apply(c, Addition(s, c));
    Requested(s, Requested(s, Extend(s, listed, Env(Addition(s, c))), Get(k), Served), Update(k, AddedTo(d.objects[k])), Served)
  }

  lemma AdditionTakesEffect(s: Settings, c: Cluster)
    requires WellFormed(c) && PluginFree(s, c)
    ensures var k, d := s.ConsoleClusterKey(), Apply(c, Addition(s, c));
      && Permitted(s, c, Addition(s, c)) && k in d.objects
      && Count(PluginsOf(d.objects[k]), CONSOLE_NAME) == 1
      && var e := Exec(d, Update(k, AddedTo(d.objects[k]))).0;
         k in e.objects && Count(PluginsOf(e.objects[k]), CONSOLE_NAME) == 2
  {
    var k := s.ConsoleClusterKey();
    var o, d := c.objects[k], Apply(c, Addition(s, c));
    assert !(CONSOLE_NAME in PluginsOf(o));
    CountZero(PluginsOf(o), CONSOLE_NAME);
    CountAppend(PluginsOf(o), CONSOLE_NAME);
    hide SomeConsoleLists, Count;
    var p := d.objects[k];
    assert PluginsOf(p) == PluginsOf(o) + [CONSOLE_NAME];
    CountAppend(PluginsOf(p), CONSOLE_NAME);
    assert AddedTo(p) != p by {
      assert |PluginsOf(AddedTo(p))| > |PluginsOf(p)|;
    }
  }

  /** What the pass knows before the update. */
  function Outdated(s: Settings, c: Cluster, name: string): View
    requires s.(request := name).McgKey() in c.objects && s.ConsoleClusterKey() in c.objects
  {
    var v, k := Entered(s, c, name), s.ConsoleClusterKey();
    var got := Found(Apply(c, Addition(s, c)).objects[k]);
    v.(seen := v.seen[k := got],
       log := v.log + [Exchange(List(Console, None), Items(ListOf(c, Console, None))), Exchange(Get(k), got)])
  }

  lemma OutdatedIsGranted(s: Settings, c: Cluster, name: string)
    requires WellFormed(c) && Ready(s, c, name) && PluginFree(s, c)
    ensures var k := s.ConsoleClusterKey();
      Allowed(s.(request := name), Outdated(s, c, name), Update(k, AddedTo(Apply(c, Addition(s, c)).objects[k])))
  {
    ListsIff(c);
    hide ListOf, SomeConsoleLists, Lists, WellFormed;
    var v := Outdated(s, c, name);
    assert v.log[|v.log| - 2].req == List(Console, None);
  }

  lemma OutdatedIs(s: Settings, c: Cluster, name: string)
    requires s.(request := name).McgKey() in c.objects && s.ConsoleClusterKey() in c.objects
    ensures var v := Entered(s, c, name);
      var listed := Exchange(List(Console, None), Items(ListOf(c, Console, None)));
      && Outdated(s, c, name).mode == Reconciling(name)
      && AfterGet(v.(log := v.log + [listed]), s.ConsoleClusterKey(), Look(Apply(c, Addition(s, c)), s.ConsoleClusterKey()))
         == Outdated(s, c, name)
  {
    hide ListOf;
  }

  lemma AfterDoubling(s: Settings, r: Run, c: Cluster, v: View, name: string)
    requires EndsIn(s, r, c, v) && WellFormed(c) && Ready(s, c, name) && PluginFree(s, c)
    ensures var k, d := s.ConsoleClusterKey(), Apply(c, Addition(s, c));
      exists w :: EndsIn(s, Doubling(s, r, c, name), Exec(d, Update(k, AddedTo(d.objects[k]))).0, w)
  {
    hide IsRun, Entering, Entered, Requested, AfterGet, Outdated, Allowed, Observe, Exec, Apply, Permitted, Addition,
      SomeConsoleLists, ListOf, WellFormed, AddedTo, Count;
    var k, v1, r1 := s.ConsoleClusterKey(), Entered(s, c, name), Entering(s, r, name);
    AfterEntering(s, r, c, v, name);
    EnteredMode(s, c, name);
    AfterListing(s, r1, c, v1, Console, None);
    var v2, r2 := v1.(log := v1.log + [Exchange(List(Console, None), Items(ListOf(c, Console, None)))]),
                  Requested(s, r1, List(Console, None), Served);
    AdditionTakesEffect(s, c);
    AfterEdit(s, r2, c, v2, Addition(s, c));
    var d, r3 := Apply(c, Addition(s, c)), Extend(s, r2, Env(Addition(s, c)));
    AfterGetting(s, r3, d, v2, k, Served);
    OutdatedIs(s, c, name);
    OutdatedIsGranted(s, c, name);
    var r4 := Requested(s, r3, Get(k), Served);
    AfterRequest(s, r4, d, Outdated(s, c, name), Update(k, AddedTo(d.objects[k])), Served);
    assert Doubling(s, r, c, name) == Requested(s, r4, Update(k, AddedTo(d.objects[k])), Served);
  }

  /**
   Every run that comes to a store in which no Console has the plugin can go on so: others add it between the list and
   the get of a pass, which then makes a second entry.
   */
  lemma SecondEntryBetween(s: Settings, r: Run, name: string) returns (q: Run)
    requires IsRun(s, r) && r.states != [] && Ready(s, Last(r.states), name) && PluginFree(s, Last(r.states))
    ensures IsRun(s, q) && q.states != [] && r.events <= q.events && |q.events| == |r.events| + 6
    ensures q.events[|r.events| + 3] == Env(Addition(s, Last(r.states))) && WritesConsole(q, |q.events| - 1)
    ensures var d, k := Last(q.states), s.ConsoleClusterKey();
      k in d.objects && Count(PluginsOf(d.objects[k]), CONSOLE_NAME) == 2
  {
    hide IsRun, WellFormed, Exec, Requested, Entering, Addition, AddedTo, SomeConsoleLists, Apply, Count;
    RunEnds(s, r);
    var c, v := Last(r.states), Last(r.views);
    q := Doubling(s, r, c, name);
    DoublingEvents(s, r, c, name);
    AfterDoubling(s, r, c, v, name);
    AdditionTakesEffect(s, c);
  }

  lemma DoublingEvents(s: Settings, r: Run, c: Cluster, name: string)
    requires r.states != [] && r.views != [] && s.ConsoleClusterKey() in c.objects
    ensures var q := Doubling(s, r, c, name);
      && r.events <= q.events && |q.events| == |r.events| + 6
      && q.events[|r.events| + 3] == Env(Addition(s, c)) && WritesConsole(q, |q.events| - 1)
  {
    hide Addition, Exec, NextView, Next, AddedTo;
  }

  // The deployer CSV

  /** The label is set and NooBaa is there, but no ManagedMCG of this name. */
  ghost predicate Misnamed(s: Settings, c: Cluster, name: string) {
    s.(request := name).McgKey() !in c.objects && LabelIn(s, c) && s.NoobaaKey() in c.objects
  }

  /** A pass for this name looks for the ManagedMCG and for the label, and deletes the CSV. */
  function Leaving(s: Settings, r: Run, name: string, csv: Key): Run
    requires r.states != [] && r.views != []
  {
    var begun := Extend(s, r, Begin(Reconciling(name)));
    var looked := Requested(s, begun, Get(s.(request := name).McgKey()), Served);
    Requested(s, Requested(s, looked, Get(s.AddonConfigMapKey()), Served), Delete(csv), Served)
  }

  lemma AfterLeaving(s: Settings, r: Run, c: Cluster, v: View, name: string, csv: Key)
    requires EndsIn(s, r, c, v) && Misnamed(s, c, name) && csv.kind.CSV? && DEPLOYER_CSV_PREFIX <= csv.name
    ensures exists w :: EndsIn(s, Leaving(s, r, name, csv), Exec(c, Delete(csv)).0, w)
  {
    hide IsRun, Requested, Observe, Exec, AfterGet;
    var t := s.(request := name);
    var v0, r0 := Fresh(Reconciling(name)), Extend(s, r, Begin(Reconciling(name)));
    AfterStart(s, r, c, v, Reconciling(name));
    AfterGetting(s, r0, c, v0, t.McgKey(), Served);
    var v1, r1 := AfterGet(v0, t.McgKey(), Look(c, t.McgKey())), Requested(s, r0, Get(t.McgKey()), Served);
    LeaverKnows(s, c, name);
    AfterGetting(s, r1, c, v1, s.AddonConfigMapKey(), Served);
    var v2 := AfterGet(v1, s.AddonConfigMapKey(), Look(c, s.AddonConfigMapKey()));
    LeaverMayDelete(t, v2, csv);
    hide Allowed;
    var r2 := Requested(s, r1, Get(s.AddonConfigMapKey()), Served);
    AfterRequest(s, r2, c, v2, Delete(csv), Served);
    assert Leaving(s, r, name, csv) == Requested(s, r2, Delete(csv), Served);
  }

  lemma LeaverKnows(s: Settings, c: Cluster, name: string)
    requires Misnamed(s, c, name)
    ensures var t := s.(request := name);
      var v1 := AfterGet(Fresh(Reconciling(name)), t.McgKey(), Look(c, t.McgKey()));
      var v2 := AfterGet(v1, s.AddonConfigMapKey(), Look(c, s.AddonConfigMapKey()));
      v1.mode == v2.mode == Reconciling(name) && Gone(t, v2) && SawDeletionLabel(t, v2)
  {
  }

  lemma LeaverMayDelete(s: Settings, v: View, csv: Key)
    requires Gone(s, v) && SawDeletionLabel(s, v) && csv.kind.CSV? && DEPLOYER_CSV_PREFIX <= csv.name
    ensures Allowed(s, v, Delete(csv))
  {
    hide SawDeletionLabel;
  }

  /**
   Every run that comes to such a store can go on so: a pass for the other name requests the deletion of the CSV while
   NooBaa is stored, before and after.
   */
  lemma CSVDeletedTooEarly(s: Settings, r: Run, name: string, csv: Key) returns (q: Run)
    requires IsRun(s, r) && r.states != [] && Misnamed(s, Last(r.states), name)
    requires csv in Last(r.states).objects && csv.kind.CSV? && DEPLOYER_CSV_PREFIX <= csv.name
    ensures IsRun(s, q) && q.states != [] && r.events <= q.events && |q.events| == |r.events| + 4
    ensures q.events[|r.events| + 3] == Call(Delete(csv), Served, Done)
    ensures s.NoobaaKey() in Last(q.states).objects
    ensures Last(r.states).objects[csv].finalizers == [] ==> csv !in Last(q.states).objects
  {
    hide IsRun, WellFormed, Requested;
    RunEnds(s, r);
    var c, v := Last(r.states), Last(r.views);
    q := Leaving(s, r, name, csv);
    AfterLeaving(s, r, c, v, name, csv);
    LeavingEvents(s, r, c, v, name, csv);
  }

  lemma LeavingEvents(s: Settings, r: Run, c: Cluster, v: View, name: string, csv: Key)
    requires EndsIn(s, r, c, v) && csv in c.objects
    ensures var q := Leaving(s, r, name, csv);
      && r.events <= q.events && |q.events| == |r.events| + 4
      && q.events[|r.events| + 3] == Call(Delete(csv), Served, Done)
  {
    hide NextView;
  }

  // Such runs exist

  /** NooBaa as a pass creates it. */
  function Installed(s: Settings, c: Cluster): Object {
    NoobaaWanted(map[], DefaultStore(AllOf(s, c, BackingStore)), NEW_OBJECT)
  }

  /** What the installing pass knows before the creation. */
  function Wanting(s: Settings, c: Cluster, name: string): View
    requires s.(request := name).McgKey() in c.objects
  {
    var v2 := AfterGet(Entered(s, c, name), s.NoobaaKey(), NotFound);
    AfterGet(v2.(log := v2.log + [Exchange(List(BackingStore, Some(s.namespace)), Items(AllOf(s, c, BackingStore)))]),
             s.NoobaaKey(), NotFound)
  }

  lemma WantingIsGranted(s: Settings, c: Cluster, name: string)
    requires Ready(s, c, name)
    ensures Wanting(s, c, name).mode == Reconciling(name)
    ensures Allowed(s.(request := name), Wanting(s, c, name), Create(s.NoobaaKey(), Installed(s, c)))
  {
    hide ListOf, DefaultStore, NoobaaWanted;
    var v := Wanting(s, c, name);
    assert v.log[|v.log| - 2].req == List(BackingStore, Some(s.namespace));
  }

  lemma AfterInstalling(s: Settings, r: Run, c: Cluster, v: View, name: string) returns (q: Run, w: View)
    requires EndsIn(s, r, c, v) && Ready(s, c, name) && s.NoobaaKey() !in c.objects
    ensures EndsIn(s, q, Exec(c, Create(s.NoobaaKey(), Installed(s, c))).0, w)
  {
    hide IsRun, Entering, Entered, Requested, AfterGet, Installed, Allowed, Observe, Exec, DefaultStore, ListOf;
    var k, v1, r1 := s.NoobaaKey(), Entered(s, c, name), Entering(s, r, name);
    AfterEntering(s, r, c, v, name);
    EnteredMode(s, c, name);
    AfterGetting(s, r1, c, v1, k, Served);
    var v2, r2 := AfterGet(v1, k, NotFound), Requested(s, r1, Get(k), Served);
    GotMode(v1, k, NotFound);
    AfterListing(s, r2, c, v2, BackingStore, Some(s.namespace));
    var v3, r3 := v2.(log := v2.log + [Exchange(List(BackingStore, Some(s.namespace)), Items(AllOf(s, c, BackingStore)))]),
                  Requested(s, r2, List(BackingStore, Some(s.namespace)), Served);
    AfterGetting(s, r3, c, v3, k, Served);
    WantingIsGranted(s, c, name);
    var req := Create(k, Installed(s, c));
    AfterRequest(s, Requested(s, r3, Get(k), Served), c, Wanting(s, c, name), req, Served);
    q := Requested(s, Requested(s, r3, Get(k), Served), req, Served);
    w := Observe(s.(request := name), Wanting(s, c, name), req, Reply(c, req, Served));
  }

  lemma GotMode(v: View, k: Key, resp: Response)
    ensures AfterGet(v, k, resp).mode == v.mode
  {
  }

  const NAMES := Settings(MCG_NAME, "ns", "mcg", "delete", "params", "pager", "snitch", "smtp", "rhobs", "sop", "from",
                          "rhobs-url", "token-url", "test", None, [])
  const STORE_NAME := "other"
  const CSV_KEY := Key(CSV, "ns", DEPLOYER_CSV_PREFIX)
  const STORE_KEY := Key(BackingStore, "ns", STORE_NAME)
  const ORDER := [NAMES.McgKey(), NAMES.AddonConfigMapKey(), CSV_KEY, STORE_KEY, NAMES.ConsoleClusterKey()]

  function Plain(n: nat): Object {
    NEW_OBJECT.(uid := n, rv := n)
  }

  /** A guarded ManagedMCG, the label, the CSV, a backing store and a Console. */
  function Beginning(): Cluster {
    Cluster(map[NAMES.McgKey() := Plain(1).(finalizers := [FINALIZER]),
                NAMES.AddonConfigMapKey() := Plain(2).(labels := map["delete" := ""]),
                CSV_KEY := Plain(3), STORE_KEY := Plain(4), NAMES.ConsoleClusterKey() := Plain(5)],
            ORDER, 6)
  }

  lemma BeginningIsInitial()
    ensures Initial(NAMES, Beginning())
  {
    assert ORDER[0] == NAMES.McgKey() && ORDER[1] == NAMES.AddonConfigMapKey() && ORDER[2] == CSV_KEY;
    assert ORDER[3] == STORE_KEY && ORDER[4] == NAMES.ConsoleClusterKey();
  }

  /** What the user's choice makes of the store. */
  function Choice(s: Settings, c: Cluster): Outside
    requires s.NoobaaKey() in c.objects
  {
    Edit(s.NoobaaKey(), c.objects[s.NoobaaKey()].(annotations := map[DEFAULT_STORE_ANNOTATION := "chosen"]))
  }

  /** All objects of `c` are in `d` as they are in `c`, and besides there is a NooBaa with the user's choice. */
  ghost predicate ChoiceMade(s: Settings, c: Cluster, d: Cluster) {
    && (forall k :: k != s.NoobaaKey() ==> SameAt(c, d, k))
    && s.NoobaaKey() in d.objects && DefaultStoreOf(d.objects[s.NoobaaKey()]) == "chosen"
  }

  lemma ChoiceTakesEffect(s: Settings, c: Cluster)
    requires WellFormed(c) && s.NoobaaKey() !in c.objects && s.namespace != ""
    ensures var b := Exec(c, Create(s.NoobaaKey(), Installed(s, c))).0;
      s.NoobaaKey() in b.objects && Permitted(s, b, Choice(s, b)) && ChoiceMade(s, c, Apply(b, Choice(s, b)))
  {
    hide ListOf, DefaultStore;
  }

  /** All backing stores of the beginning have one name, which is then the one that would be chosen. */
  lemma OtherWouldBeChosen(d: Cluster)
    requires WellFormed(d) && ChoiceMade(NAMES, Beginning(), d)
    ensures DefaultStore(AllOf(NAMES, d, BackingStore)) == STORE_NAME
  {
    var items := AllOf(NAMES, d, BackingStore);
    assert SameAt(Beginning(), d, STORE_KEY);
    SelectExact(d.objects, d.order, BackingStore, Some("ns"), Item(STORE_KEY, d.objects[STORE_KEY]));
    forall i | 0 <= i < |items| ensures items[i].key == STORE_KEY {
      SelectExact(d.objects, d.order, BackingStore, Some("ns"), items[i]);
      assert SameAt(Beginning(), d, items[i].key);
    }
    hide Beginning, ListOf;
    assert items != [];
    DefaultStoreValues(items);
    assert |DEFAULT_STORE| > |STORE_NAME|;
  }

  lemma NoPluginYet(d: Cluster)
    requires ChoiceMade(NAMES, Beginning(), d)
    ensures PluginFree(NAMES, d)
  {
    assert SameAt(Beginning(), d, NAMES.ConsoleClusterKey());
    forall k: Key | k.kind.Console? && k in d.objects ensures CONSOLE_NAME !in PluginsOf(d.objects[k]) {
      assert SameAt(Beginning(), d, k);
    }
  }

  lemma OtherObjectsStay(d: Cluster)
    requires ChoiceMade(NAMES, Beginning(), d)
    ensures Ready(NAMES, d, MCG_NAME) && Misnamed(NAMES, d, "x")
    ensures CSV_KEY in d.objects && d.objects[CSV_KEY].finalizers == []
  {
    assert SameAt(Beginning(), d, NAMES.McgKey()) && SameAt(Beginning(), d, NAMES.AddonConfigMapKey());
    assert SameAt(Beginning(), d, CSV_KEY) && SameAt(Beginning(), d, NAMES.(request := "x").McgKey());
    assert "x" != MCG_NAME by {
      assert |"x"| != |MCG_NAME|;
    }
  }

  /** A store from which each of the three can happen. */
  ghost predicate Prone(c: Cluster) {
    && Ready(NAMES, c, MCG_NAME) && ChosenByUser(NAMES, c) && PluginFree(NAMES, c) && Misnamed(NAMES, c, "x")
    && CSV_KEY in c.objects && c.objects[CSV_KEY].finalizers == []
  }

  lemma ProneAfterChoice(d: Cluster)
    requires WellFormed(d) && ChoiceMade(NAMES, Beginning(), d)
    ensures Prone(d)
  {
    hide Beginning, WellFormed, Ready, PluginFree, Misnamed, DefaultStore, ListOf;
    OtherWouldBeChosen(d);
    NoPluginYet(d);
    OtherObjectsStay(d);
    assert STORE_NAME != "chosen" by {
      assert |STORE_NAME| != |"chosen"|;
    }
  }

  lemma FirstRun() returns (r: Run)
    ensures EndsIn(NAMES, r, Beginning(), Fresh(Idle)) && WellFormed(Beginning())
    ensures Ready(NAMES, Beginning(), MCG_NAME) && NAMES.NoobaaKey() !in Beginning().objects
  {
    BeginningIsInitial();
    r := Run([], [Beginning()], [Fresh(Idle)]);
  }

  /** There is a run to such a store: from the beginning, by a pass that creates NooBaa and a choice of the user. */
  lemma WitnessRun() returns (r: Run)
    ensures IsRun(NAMES, r) && r.states != [] && Prone(Last(r.states))
  {
    hide Beginning, Exec, Apply, Installed, Choice, Permitted, Prone, ChoiceMade, WellFormed, Ready;
    var c := Beginning();
    var r0 := FirstRun();
    var r1, w := AfterInstalling(NAMES, r0, c, Fresh(Idle), MCG_NAME);
    ChoiceTakesEffect(NAMES, c);
    var b := Exec(c, Create(NAMES.NoobaaKey(), Installed(NAMES, c))).0;
    AfterEdit(NAMES, r1, b, w, Choice(NAMES, b));
    r := Extend(NAMES, r1, Env(Choice(NAMES, b)));
    hide IsRun;
    RunEnds(NAMES, r);
    ProneAfterChoice(Apply(b, Choice(NAMES, b)));
  }
}
