/** The console plugin over whole runs: no list of plugins gets a second entry of ours unless others write in between. */
module Consoles {
  import opened Utils
  import opened Cluster
  import opened Config
  import opened States
  import opened Desired
  import opened StrictArm
  import opened Logs
  import opened Protocol
  import opened Passes

  // Plugin lists

  function Count(plugins: seq<string>, plugin: string): nat {
    if plugins == [] then 0 else (if plugins[0] == plugin then 1 else 0) + Count(plugins[1..], plugin)
  }

  lemma {:induction false} CountAppend(plugins: seq<string>, plugin: string)
    ensures Count(plugins + [plugin], plugin) == Count(plugins, plugin) + 1
  {
    if plugins == [] {
      assert plugins + [plugin] == [plugin];
    } else {
      assert (plugins + [plugin])[1..] == plugins[1..] + [plugin];
      CountAppend(plugins[1..], plugin);
    }
  }

  lemma {:induction false} CountZero(plugins: seq<string>, plugin: string)
    ensures Count(plugins, plugin) == 0 <==> plugin !in plugins
  {
    if plugins != [] {
      CountZero(plugins[1..], plugin);
    }
  }

  lemma {:induction false} RemovedAppend(plugins: seq<string>, plugin: string)
    ensures Removed(plugins + [plugin], plugin) == Removed(plugins, plugin)
  {
    RemovedSplit(plugins, [plugin], plugin);
  }

  /** `p` has the plugins of others as `o` has them, in their order, and one entry of ours more. */
  predicate OneMore(o: Object, p: Object) {
    && Removed(PluginsOf(p), CONSOLE_NAME) == Removed(PluginsOf(o), CONSOLE_NAME)
    && Count(PluginsOf(p), CONSOLE_NAME) == Count(PluginsOf(o), CONSOLE_NAME) + 1
  }

  lemma AppendedIsOneMore(o: Object, p: Object)
    requires PluginsOf(p) == PluginsOf(o) + [CONSOLE_NAME]
    ensures OneMore(o, p) && (Count(PluginsOf(p), CONSOLE_NAME) >= 2 <==> CONSOLE_NAME in PluginsOf(o))
  {
    CountAppend(PluginsOf(o), CONSOLE_NAME);
    CountZero(PluginsOf(o), CONSOLE_NAME);
    RemovedAppend(PluginsOf(o), CONSOLE_NAME);
  }

  /** The mutate function itself always adds one: it makes a second one exactly if the Console it got has one already. */
  lemma PluginAlwaysAdded(s: Settings, x: Context, i: Inputs, o: Object)
    ensures var p := Wanted(s, x, i, ConsoleClusterTask, o).value;
      OneMore(o, p) && (Count(PluginsOf(p), CONSOLE_NAME) >= 2 <==> CONSOLE_NAME in PluginsOf(o))
  {
    AppendedIsOneMore(o, Wanted(s, x, i, ConsoleClusterTask, o).value);
  }

  // One write of a Console

  ghost predicate SomeConsoleLists(c: Cluster) {
    exists k: Key :: k.kind.Console? && k in c.objects && CONSOLE_NAME in PluginsOf(c.objects[k])
  }

  lemma ListsIff(c: Cluster)
    requires WellFormed(c)
    ensures Lists(ListOf(c, Console, None), CONSOLE_NAME) <==> SomeConsoleLists(c)
  {
    var items := ListOf(c, Console, None);
    if SomeConsoleLists(c) {
      var k: Key :| k.kind.Console? && k in c.objects && CONSOLE_NAME in PluginsOf(c.objects[k]);
      SelectExact(c.objects, c.order, Console, None, Item(k, c.objects[k]));
      var i :| 0 <= i < |items| && items[i] == Item(k, c.objects[k]);
    }
    if i :| 0 <= i < |items| && CONSOLE_NAME in PluginsOf(items[i].obj) {
      SelectExact(c.objects, c.order, Console, None, items[i]);
      assert items[i].key.kind.Console?;
    }
  }

  /** A create or an update of a Console by the operator. */
  predicate WritesConsole(r: Run, n: nat) {
    n < |r.events| && r.events[n].Call? && (r.events[n].req.Create? || r.events[n].req.Update?)
    && r.events[n].req.key.kind.Console?
  }

  /** Others wrote the Console of `k` at event `m`. */
  ghost predicate OthersWrote(r: Run, m: nat, k: Key) {
    m < |r.events| && m + 1 < |r.states| && r.events[m].Env? && !SameAt(r.states[m], r.states[m + 1], k)
  }

  lemma MayWriteConsole(s: Settings, v: View, req: Request)
    requires Allowed(s, v, req) && (req.Create? || req.Update?) && req.key.kind.Console?
    ensures v.mode.Reconciling? && ConsoleGranted(s, v, req)
  {
    hide ConsoleGranted, Installing;
  }

  /** The list at `l` and the get at `g` are the last two things the pass sent before event `n`. */
  ghost predicate LookedBefore(s: Settings, r: Run, l: nat, g: nat, n: nat) {
    && l < g < n <= |r.events| && |r.states| == |r.events| + 1 && SamePass(r, l, n)
    && r.events[l].Call? && r.events[l].req == List(Console, None) && r.events[l].resp == Items(ListOf(r.states[l], Console, None))
    && r.events[g].Call? && r.events[g].req == Get(s.ConsoleClusterKey()) && r.events[g].resp == Look(r.states[g], s.ConsoleClusterKey())
    && (forall m :: l < m < n && m != g ==> r.events[m].Env?)
  }

  lemma LookedJustBefore(s: Settings, r: Run, n: nat) returns (l: nat, g: nat)
    requires IsRun(s, r) && WritesConsole(r, n)
    ensures LookedBefore(s, r, l, g, n) && ConsoleGranted(s, r.views[n], r.events[n].req)
    ensures r.events[n].req.key == s.ConsoleClusterKey()
    ensures Last(r.views[n].log) == Exchange(r.events[g].req, r.events[g].resp)
    ensures !SomeConsoleLists(r.states[l])
  {
    hide Allowed, Next, NextView, SomeConsoleLists;
    var log := r.views[n].log;
    CallIsLegal(s, r, n);
    MayWriteConsole(PassSettings(s, r.views[n].mode), r.views[n], r.events[n].req);
    hide IsRun;
    l := LoggedAt(s, r, n, |log| - 2);
    g := LoggedAt(s, r, n, |log| - 1);
    InOrderInPass(s, r, l, g, n);
    CallLogged(s, r, l);
    CallLogged(s, r, g);
    assert r.views[l + 1].log == r.views[g].log && r.views[g + 1].log == log;
    OnlyOthers(s, r, l + 1, g);
    OnlyOthers(s, r, g + 1, n);
    ServedRead(s, r, l);
    ServedRead(s, r, g);
    RunKeepsInv(s, r, l);
    WellFormedFact(PassSettings(s, r.views[l].mode), r.states[l], r.views[l]);
    ListsIff(r.states[l]);
    RunLengths(s, r);
  }

  lemma QuietStep(s: Settings, r: Run, m: nat, k: Key)
    requires IsRun(s, r) && m < |r.events| && !OthersWrote(r, m, k)
    requires r.events[m].Env? || (r.events[m].Call? && (r.events[m].req.Get? || r.events[m].req.List?))
    ensures SameAt(r.states[m], r.states[m + 1], k)
  {
    hide Allowed, Observe, Apply;
  }

  /** An object changes between two events only if others write it or the operator sends a write. */
  lemma {:induction false} SameSince(s: Settings, r: Run, l: nat, n: nat, k: Key)
    requires IsRun(s, r) && l <= n <= |r.events|
    requires forall m :: l <= m < n ==> !OthersWrote(r, m, k)
    requires forall m :: l <= m < n ==>
      r.events[m].Env? || (r.events[m].Call? && (r.events[m].req.Get? || r.events[m].req.List?))
    ensures SameAt(r.states[l], r.states[n], k)
    decreases n - l
  {
    hide IsRun, OthersWrote;
    RunLengths(s, r);
    if l < n {
      SameSince(s, r, l, n - 1, k);
      QuietStep(s, r, n - 1, k);
    }
  }

  /** A granted write that takes effect adds one entry to the Console as the pass got it, which is as it still is. */
  lemma GrantedWrite(s: Settings, c: Cluster, v: View, req: Request)
    requires Inv(s, c, v) && ConsoleGranted(s, v, req)
    ensures var k, d := s.ConsoleClusterKey(), Exec(c, req).0;
      && (forall j :: j != k ==> SameAt(c, d, j))
      && (SameAt(c, d, k) ||
          (Last(v.log).resp == Look(c, k) && k in d.objects && PluginsOf(d.objects[k]) == PluginsOf(Held(c, k)) + [CONSOLE_NAME]))
  {
    var k := s.ConsoleClusterKey();
    var got := v.log[|v.log| - 1];
    if got.resp.Found? {
      assert StillStored(c, got.req.key, got.resp.obj);
    } else {
      assert [] + [CONSOLE_NAME] == [CONSOLE_NAME];
    }
    hide Facts, Remembers, SeenLogged;
  }

  /** The Console was written by others after the pass had listed the Consoles and before it got this one. */
  ghost predicate WrittenBetween(r: Run, l: nat, g: nat, k: Key) {
    exists m: nat :: l < m < g && OthersWrote(r, m, k)
  }

  ghost predicate SameApartFrom(c: Cluster, d: Cluster, k: Key) {
    forall j :: j != k ==> SameAt(c, d, j)
  }

  /** The Console of `k`, which was `got` and still is, has one more entry of ours: the second exactly if it had one. */
  predicate EntryAdded(got: Object, before: Object, after: Object) {
    && PluginsOf(before) == PluginsOf(got) && OneMore(got, after)
    && (Count(PluginsOf(after), CONSOLE_NAME) >= 2 <==> CONSOLE_NAME in PluginsOf(got))
  }

  lemma SameGrant(s: Settings, t: Settings, v: View, req: Request)
    requires s.ConsoleClusterKey() == t.ConsoleClusterKey()
    ensures ConsoleGranted(s, v, req) <==> ConsoleGranted(t, v, req)
  {
  }

  lemma GrantedEffect(s: Settings, r: Run, n: nat, g: nat)
    requires IsRun(s, r) && n < |r.events| && r.events[n].Call? && ConsoleGranted(s, r.views[n], r.events[n].req)
    requires g < |r.states| && Last(r.views[n].log).resp == Look(r.states[g], s.ConsoleClusterKey())
    ensures var c, d, k := r.states[n], r.states[n + 1], s.ConsoleClusterKey();
      && SameApartFrom(c, d, k)
      && (SameAt(c, d, k) || EntryAdded(Held(r.states[g], k), Held(c, k), Held(d, k)))
  {
    hide IsRun, Inv, ConsoleGranted, Exec, OneMore, PluginsOf, PassSettings;
    RunLengths(s, r);
    PassKeys(s, r.views[n].mode);
    RunKeepsInv(s, r, n);
    WriteEffect(s, r, n);
    SameGrant(s, PassSettings(s, r.views[n].mode), r.views[n], r.events[n].req);
    GrantedWrite(PassSettings(s, r.views[n].mode), r.states[n], r.views[n], r.events[n].req);
    var c, d, k := r.states[n], r.states[n + 1], s.ConsoleClusterKey();
    if !SameAt(c, d, k) {
      AppendedIsOneMore(Held(c, k), Held(d, k));
      assert Held(c, k) == Held(r.states[g], k);
    }
  }

  lemma ListedByOthers(s: Settings, r: Run, l: nat, g: nat, n: nat)
    requires IsRun(s, r) && LookedBefore(s, r, l, g, n) && !SomeConsoleLists(r.states[l])
    requires CONSOLE_NAME in PluginsOf(Held(r.states[g], s.ConsoleClusterKey()))
    ensures WrittenBetween(r, l, g, s.ConsoleClusterKey())
  {
    hide IsRun, OthersWrote;
    var k := s.ConsoleClusterKey();
    if !WrittenBetween(r, l, g, k) {
      ListIsNoWrite(r, l, k);
      SameSince(s, r, l, g, k);
    }
  }

  lemma ListIsNoWrite(r: Run, l: nat, k: Key)
    requires l < |r.events| && r.events[l].Call?
    ensures !OthersWrote(r, l, k)
  {
  }

  /**
   Whenever the operator writes a Console, it has listed the Consoles and got this one just before, in the same pass,
   and none listed the plugin. No other Console is touched. If the write takes effect, the plugins of others keep
   their order and ours is added once; there is a second entry then exactly if the Console had one when it was got,
   and that takes a write of others between the list and the get.
   */
  lemma ConsoleWriteExplained(s: Settings, r: Run, n: nat) returns (l: nat, g: nat)
    requires IsRun(s, r) && WritesConsole(r, n)
    ensures LookedBefore(s, r, l, g, n) && !SomeConsoleLists(r.states[l])
    ensures var c, d, k := r.states[n], r.states[n + 1], s.ConsoleClusterKey();
      && SameApartFrom(c, d, k)
      && (SameAt(c, d, k) || EntryAdded(Held(r.states[g], k), Held(c, k), Held(d, k)))
      && (CONSOLE_NAME in PluginsOf(Held(r.states[g], k)) ==> WrittenBetween(r, l, g, k))
  {
    l, g := LookedJustBefore(s, r, n);
    GrantedEffect(s, r, n, g);
    hide IsRun, SomeConsoleLists, EntryAdded, SameApartFrom, OthersWrote;
    if CONSOLE_NAME in PluginsOf(Held(r.states[g], s.ConsoleClusterKey())) {
      ListedByOthers(s, r, l, g, n);
    }
  }

  // Whole runs

  /** From `o` to `p`, the plugins of others keep their order, and ours is added at most once and only if it was not there. */
  predicate PluginsTame(o: Object, p: Object) {
    && Removed(PluginsOf(p), CONSOLE_NAME) == Removed(PluginsOf(o), CONSOLE_NAME)
    && Count(PluginsOf(p), CONSOLE_NAME) <= if CONSOLE_NAME in PluginsOf(o) then Count(PluginsOf(o), CONSOLE_NAME) else 1
  }

  lemma TameTwice(o: Object, p: Object, q: Object)
    requires PluginsTame(o, p) && PluginsTame(p, q)
    ensures PluginsTame(o, q)
  {
    CountZero(PluginsOf(o), CONSOLE_NAME);
    CountZero(PluginsOf(p), CONSOLE_NAME);
    CountZero(PluginsOf(q), CONSOLE_NAME);
  }

  lemma TameIfSame(o: Object)
    ensures PluginsTame(o, o)
  {
    CountZero(PluginsOf(o), CONSOLE_NAME);
  }

  /** No Console is lost, each keeps its plugins tame, and if one listed ours already, none is written at all. */
  ghost predicate ConsolesTame(c: Cluster, d: Cluster) {
    && (forall k: Key :: k.kind.Console? && k in c.objects ==> k in d.objects)
    && (forall k: Key :: k.kind.Console? && k in d.objects ==> PluginsTame(Held(c, k), d.objects[k]))
    && (SomeConsoleLists(c) ==> SomeConsoleLists(d) && forall k: Key :: k.kind.Console? ==> SameAt(c, d, k))
  }

  ghost predicate SameConsoles(c: Cluster, d: Cluster) {
    forall k: Key :: k.kind.Console? ==> SameAt(c, d, k)
  }

  lemma SameConsolesAreTame(c: Cluster, d: Cluster)
    requires SameConsoles(c, d)
    ensures ConsolesTame(c, d)
  {
    hide PluginsTame;
    forall k: Key | k.kind.Console? && k in d.objects ensures PluginsTame(Held(c, k), d.objects[k]) {
      assert SameAt(c, d, k);
      TameIfSame(d.objects[k]);
    }
    if k: Key :| k.kind.Console? && k in c.objects && CONSOLE_NAME in PluginsOf(c.objects[k]) {
      assert SameAt(c, d, k);
    }
  }

  lemma TameTransitive(c: Cluster, d: Cluster, e: Cluster)
    requires ConsolesTame(c, d) && ConsolesTame(d, e)
    ensures ConsolesTame(c, e)
  {
    hide PluginsTame, SomeConsoleLists;
    forall k: Key | k.kind.Console? && k in e.objects ensures PluginsTame(Held(c, k), e.objects[k]) {
      if k in d.objects {
        TameTwice(Held(c, k), d.objects[k], e.objects[k]);
      }
    }
    if SomeConsoleLists(c) {
      forall k: Key | k.kind.Console? ensures SameAt(c, e, k) {
        assert SameAt(c, d, k) && SameAt(d, e, k);
      }
    }
  }

  lemma OneConsoleWritten(c: Cluster, d: Cluster, k: Key)
    requires forall j: Key :: j.kind.Console? && j != k ==> SameAt(c, d, j)
    requires !SomeConsoleLists(c) && k.kind.Console? && k in d.objects && OneMore(Held(c, k), d.objects[k])
    ensures ConsolesTame(c, d)
  {
    hide OneMore;
    assert CONSOLE_NAME !in PluginsOf(Held(c, k));
    assert PluginsTame(Held(c, k), d.objects[k]) by {
      assert OneMore(Held(c, k), d.objects[k]);
      OneMoreIsTame(Held(c, k), d.objects[k]);
    }
    hide PluginsTame, SomeConsoleLists;
    forall j: Key | j.kind.Console? && j in d.objects ensures PluginsTame(Held(c, j), d.objects[j]) {
      if j != k {
        assert SameAt(c, d, j);
        TameIfSame(d.objects[j]);
      }
    }
  }

  lemma OneMoreIsTame(o: Object, p: Object)
    requires OneMore(o, p) && CONSOLE_NAME !in PluginsOf(o)
    ensures PluginsTame(o, p)
  {
    CountZero(PluginsOf(o), CONSOLE_NAME);
  }

  /** Nobody but the operator writes a Console at the events from `i` up to `j`. */
  ghost predicate OthersLeaveConsoles(r: Run, i: nat, j: nat) {
    forall m: nat, k: Key :: i <= m < j && k.kind.Console? ==> !OthersWrote(r, m, k)
  }

  /** A request that does not write a Console leaves all Consoles as they are. */
  lemma OtherRequests(s: Settings, c: Cluster, v: View, req: Request)
    requires WellFormed(c) && Allowed(s, v, req) && !((req.Create? || req.Update?) && req.key.kind.Console?)
    ensures SameConsoles(c, Exec(c, req).0)
  {
    hide Installing, Stamped, Completed, NoobaaGranted, ConsoleGranted, Gone, StatesSeen;
    forall k: Key | k.kind.Console? ensures SameAt(c, Exec(c, req).0, k) {
      ExecFrame(c, req, k);
    }
  }

  /** Where no pass was under way at `i`, all that is in the log later was sent since. */
  lemma SinceThen(s: Settings, r: Run, i: nat, l: nat, n: nat)
    requires IsRun(s, r) && i <= n <= |r.events| && r.views[i].log == [] && l < n && SamePass(r, l, n) && r.events[l].Call?
    ensures i <= l
  {
    CallLogged(s, r, l);
    hide Legal, Next, NextView;
    if l < i {
      ViewsGrow(s, r, l + 1, i);
    }
  }

  lemma EventIsTame(s: Settings, r: Run, i: nat, n: nat)
    requires IsRun(s, r) && i <= n < |r.events| && r.views[i].log == [] && OthersLeaveConsoles(r, i, n + 1)
    ensures ConsolesTame(r.states[n], r.states[n + 1])
  {
    hide Legal, Observe, ConsolesTame, LookedBefore, OneMore, SomeConsoleLists, Exec, OthersWrote;
    if WritesConsole(r, n) {
      WriteIsTame(s, r, i, n);
    } else {
      match r.events[n] {
        case Env(_) => assert SameConsoles(r.states[n], r.states[n + 1]) by { EnvLeaves(s, r, n); }
        case Begin(_) =>
        case Call(req, _, _) =>
          RunKeepsInv(s, r, n);
          WellFormedFact(PassSettings(s, r.views[n].mode), r.states[n], r.views[n]);
          CallIsLegal(s, r, n);
          OtherRequests(PassSettings(s, r.views[n].mode), r.states[n], r.views[n], req);
      }
      SameConsolesAreTame(r.states[n], r.states[n + 1]);
    }
  }

  lemma EnvLeaves(s: Settings, r: Run, n: nat)
    requires IsRun(s, r) && n < |r.events| && r.events[n].Env? && OthersLeaveConsoles(r, n, n + 1)
    ensures SameConsoles(r.states[n], r.states[n + 1])
  {
    RunLengths(s, r);
    hide IsRun;
    forall k: Key | k.kind.Console? ensures SameAt(r.states[n], r.states[n + 1], k) {
      assert !OthersWrote(r, n, k);
    }
  }

  /** From its list to its write, the operator finds the Consoles unchanged. */
  lemma SameSinceList(s: Settings, r: Run, i: nat, l: nat, g: nat, n: nat)
    requires IsRun(s, r) && LookedBefore(s, r, l, g, n) && i <= l && OthersLeaveConsoles(r, i, n)
    ensures SameConsoles(r.states[l], r.states[n])
    ensures SameAt(r.states[g], r.states[n], s.ConsoleClusterKey())
  {
    hide IsRun, OthersWrote;
    forall j: Key | j.kind.Console? ensures SameAt(r.states[l], r.states[n], j) {
      SameSince(s, r, l, n, j);
    }
    SameSince(s, r, g, n, s.ConsoleClusterKey());
  }

  lemma WriteIsTame(s: Settings, r: Run, i: nat, n: nat)
    requires IsRun(s, r) && i <= n < |r.events| && r.views[i].log == [] && OthersLeaveConsoles(r, i, n + 1)
    requires WritesConsole(r, n)
    ensures ConsolesTame(r.states[n], r.states[n + 1])
  {
    var k := s.ConsoleClusterKey();
    var l, g := ConsoleWriteExplained(s, r, n);
    SinceThen(s, r, i, l, n);
    assert OthersLeaveConsoles(r, i, n);
    SameSinceList(s, r, i, l, g, n);
    SameConsolesSame(r.states[l], r.states[n]);
    RunLengths(s, r);
    hide IsRun, OneMore, PluginsOf, OthersWrote, OthersLeaveConsoles, LookedBefore, SomeConsoleLists, ConsolesTame;
    if SameAt(r.states[n], r.states[n + 1], k) {
      SameConsolesAreTame(r.states[n], r.states[n + 1]);
    } else {
      OneConsoleWritten(r.states[n], r.states[n + 1], k);
    }
  }

  lemma SameConsolesSame(c: Cluster, d: Cluster)
    requires SameConsoles(c, d)
    ensures SomeConsoleLists(c) <==> SomeConsoleLists(d)
  {
    if k: Key :| k.kind.Console? && k in c.objects && CONSOLE_NAME in PluginsOf(c.objects[k]) {
      assert SameAt(c, d, k);
    }
    if k: Key :| k.kind.Console? && k in d.objects && CONSOLE_NAME in PluginsOf(d.objects[k]) {
      assert SameAt(c, d, k);
    }
  }

  /**
   Over any stretch of a run that begins between two passes, with passes finished or cut short, requests refused or
   their replies lost, and others writing anything but Consoles: no plugin list gains a second entry of ours, the
   plugins of others keep their order, and once some Console lists ours, no Console is written any more.
   */
  lemma {:induction false} ConsolesStayTame(s: Settings, r: Run, i: nat, j: nat)
    requires IsRun(s, r) && i <= j <= |r.events| && r.views[i].log == [] && OthersLeaveConsoles(r, i, j)
    ensures ConsolesTame(r.states[i], r.states[j])
    decreases j - i
  {
    hide IsRun, ConsolesTame, OthersWrote;
    RunLengths(s, r);
    if i == j {
      SameConsolesAreTame(r.states[i], r.states[i]);
    } else {
      ConsolesStayTame(s, r, i, j - 1);
      EventIsTame(s, r, i, j - 1);
      TameTransitive(r.states[i], r.states[j - 1], r.states[j]);
    }
  }
}
