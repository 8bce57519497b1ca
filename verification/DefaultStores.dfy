/** The default store over whole runs: when a request of the operator may replace one that is set. */
module DefaultStores {
  import opened Utils
  import opened Cluster
  import opened Config
  import opened States
  import opened Desired
  import opened Logs
  import opened Protocol
  import opened Passes

  /** At event `m`, others gave NooBaa a default store where it had none. */
  predicate OthersChose(s: Settings, r: Run, m: nat) {
    && m < |r.events| && m + 1 < |r.states| && r.events[m].Env?
    && s.NoobaaKey() in r.states[m].objects && s.NoobaaKey() in r.states[m + 1].objects
    && DefaultStoreOf(r.states[m].objects[s.NoobaaKey()]) == "" != DefaultStoreOf(r.states[m + 1].objects[s.NoobaaKey()])
  }

  /** What a pass has sent by `n` it has in its log. */
  lemma CallIsLogged(s: Settings, r: Run, m: nat, n: nat)
    requires IsRun(s, r) && m < n <= |r.events| && SamePass(r, m, n) && r.events[m].Call?
    ensures |r.views[m].log| < |r.views[n].log|
    ensures r.views[n].log[|r.views[m].log|] == Exchange(r.events[m].req, r.events[m].resp)
  {
    hide Legal, Next, NextView;
    CallLogged(s, r, m);
    ViewsGrow(s, r, m + 1, n);
  }

  /** While a pass is quiet, it writes nothing but its ManagedMCG. */
  lemma QuietCall(s: Settings, r: Run, m: nat, n: nat)
    requires IsRun(s, r) && m < n <= |r.events| && SamePass(r, m, n) && r.events[m].Call?
    requires QuietSoFar(PassSettings(s, r.views[n].mode), r.views[n].log)
    ensures SameAt(r.states[m], r.states[m + 1], s.NoobaaKey())
  {
    CallIsLogged(s, r, m, n);
    WriteEffect(s, r, m);
    var e := r.views[n].log[|r.views[m].log|];
    assert IsRead(e) || e.req.key == PassSettings(s, r.views[n].mode).McgKey();
    RunKeepsInv(s, r, m);
    WellFormedFact(PassSettings(s, r.views[m].mode), r.states[m], r.views[m]);
    hide IsRun, Inv;
    ExecFrame(r.states[m], e.req, s.NoobaaKey());
  }

  /** Others do not bring NooBaa into being. */
  lemma EnvCreatesNoNoobaa(s: Settings, r: Run, m: nat)
    requires IsRun(s, r) && m < |r.events| && r.events[m].Env? && s.NoobaaKey() !in r.states[m].objects
    ensures s.NoobaaKey() !in r.states[m + 1].objects
  {
    hide Allowed, Observe;
  }

  /** NooBaa is not there, or has no default store. */
  predicate Unchosen(s: Settings, c: Cluster) {
    s.NoobaaKey() !in c.objects || DefaultStoreOf(c.objects[s.NoobaaKey()]) == ""
  }

  /** While a pass is quiet, NooBaa does not come into being. */
  lemma {:induction false} NoobaaStaysAway(s: Settings, r: Run, i: nat, j: nat, n: nat)
    requires IsRun(s, r) && i <= j <= n <= |r.events| && SamePass(r, i, n)
    requires QuietSoFar(PassSettings(s, r.views[n].mode), r.views[n].log)
    requires |r.states| == |r.events| + 1 && s.NoobaaKey() !in r.states[i].objects
    ensures s.NoobaaKey() !in r.states[j].objects
    decreases j - i
  {
    hide IsRun, QuietSoFar;
    if i < j {
      NoobaaStaysAway(s, r, i, j - 1, n);
      if r.events[j - 1].Call? {
        QuietCall(s, r, j - 1, n);
      } else {
        EnvCreatesNoNoobaa(s, r, j - 1);
      }
    }
  }

  /** Nor does it get a default store but from others. */
  lemma {:induction false} StaysUnchosen(s: Settings, r: Run, i: nat, j: nat, n: nat)
    requires IsRun(s, r) && i <= j <= n <= |r.events| && SamePass(r, i, n)
    requires QuietSoFar(PassSettings(s, r.views[n].mode), r.views[n].log)
    requires |r.states| == |r.events| + 1 && Unchosen(s, r.states[i]) && forall m :: i <= m < j ==> !OthersChose(s, r, m)
    ensures Unchosen(s, r.states[j])
    decreases j - i
  {
    hide IsRun, QuietSoFar, DefaultStoreOf;
    if i < j {
      StaysUnchosen(s, r, i, j - 1, n);
      assert !OthersChose(s, r, j - 1);
      if r.events[j - 1].Call? {
        QuietCall(s, r, j - 1, n);
      } else if s.NoobaaKey() !in r.states[j - 1].objects {
        EnvCreatesNoNoobaa(s, r, j - 1);
      }
    }
  }

  /** Among the events since the first look, others chose a default store. */
  ghost predicate ChosenSince(s: Settings, r: Run, first: nat, g: nat) {
    exists m: nat :: first < m < g && OthersChose(s, r, m)
  }

  /** The pass's list of backing stores at `l`, its get of NooBaa at `g`, and its first look at NooBaa at `first`. */
  ghost predicate Looks(s: Settings, r: Run, first: nat, l: nat, g: nat, n: nat) {
    && first < n && l < g < n <= |r.events| && SamePass(r, first, n) && SamePass(r, l, n)
    && r.events[l].Call? && r.events[l].req == List(BackingStore, Some(s.namespace))
    && r.events[g].Call? && r.events[g].req == Get(s.NoobaaKey())
    && r.events[first].Call? && r.events[first].req == Get(s.NoobaaKey())
  }

  /** The events behind the grant of a write of NooBaa. */
  lemma GrantTraced(s: Settings, r: Run, n: nat) returns (first: nat, l: nat, g: nat)
    requires IsRun(s, r) && n <= |r.events| && r.views[n].mode.Reconciling?
    requires |r.views[n].log| >= 2 && s.NoobaaKey() in r.views[n].seen
    requires var log := r.views[n].log;
      log[|log| - 2].req == List(BackingStore, Some(s.namespace)) && log[|log| - 1].req == Get(s.NoobaaKey())
    ensures Looks(s, r, first, l, g, n) && first <= g
    ensures r.events[l].resp == r.views[n].log[|r.views[n].log| - 2].resp
    ensures r.events[g].resp == r.views[n].log[|r.views[n].log| - 1].resp
    ensures r.events[first].resp == r.views[n].seen[s.NoobaaKey()]
  {
    var log := r.views[n].log;
    hide Legal, Next, Permitted, Allowed, Observe;
    l := LoggedAt(s, r, n, |log| - 2);
    g := LoggedAt(s, r, n, |log| - 1);
    InOrderInPass(s, r, l, g, n);
    first := SeenIsRead(s, r, n, s.NoobaaKey());
    if g < first {
      CallIsLogged(s, r, first, n);
      ViewsGrow(s, r, g, first);
      CallLogged(s, r, g);
      ViewsGrow(s, r, g + 1, first);
    }
  }

  /** What a get found is what the store had, and what it did not find the store did not have. */
  lemma ReadOf(s: Settings, r: Run, m: nat)
    requires IsRun(s, r) && m < |r.events| && r.events[m].Call? && r.events[m].req == Get(s.NoobaaKey())
    ensures r.events[m].resp == Failure || r.events[m].resp == Look(r.states[m], s.NoobaaKey())
    ensures r.states[m + 1] == r.states[m]
  {
    ServedRead(s, r, m);
    WriteEffect(s, r, m);
  }

  /** How the request that changes the default store was granted. */
  lemma StoreChangeAt(s: Settings, r: Run, n: nat)
    requires IsRun(s, r) && n < |r.events| && r.events[n].Call?
    requires s.NoobaaKey() in r.states[n].objects && s.NoobaaKey() in r.states[n + 1].objects
    requires DefaultStoreOf(r.states[n + 1].objects[s.NoobaaKey()]) != DefaultStoreOf(r.states[n].objects[s.NoobaaKey()])
    ensures var v := r.views[n];
      && v.mode.Reconciling? && |v.log| >= 2 && QuietSoFar(PassSettings(s, v.mode), v.log) && s.NoobaaKey() in v.seen
      && v.log[|v.log| - 2].req == List(BackingStore, Some(s.namespace)) && v.log[|v.log| - 1].req == Get(s.NoobaaKey())
      && v.log[|v.log| - 1].resp == Found(r.states[n].objects[s.NoobaaKey()])
      && DefaultStoreOf(SeenObject(v, s.NoobaaKey())) == ""
      && DefaultStoreOf(r.states[n + 1].objects[s.NoobaaKey()]) == DefaultStore(ItemsIn(v.log[|v.log| - 2].resp))
  {
    hide IsRun, Inv, Exec, DefaultStore, DefaultStoreOf, Allowed, QuietSoFar, NoobaaGranted, PassSettings;
    RunLengths(s, r);
    PassKeys(s, r.views[n].mode);
    var c, v, t := r.states[n], r.views[n], PassSettings(s, r.views[n].mode);
    RunKeepsInv(s, r, n);
    CallIsLegal(s, r, n);
    WriteEffect(s, r, n);
    StoreChange(t, c, v, r.events[n].req);
    GrantedParts(t, v, r.events[n].req);
  }

  /** A first look that came back, and showed no default store, is one at a store without. */
  lemma UnchosenThen(s: Settings, c: Cluster, d: Cluster, v: View)
    requires s.NoobaaKey() in v.seen && v.seen[s.NoobaaKey()] == Look(c, s.NoobaaKey())
    requires DefaultStoreOf(SeenObject(v, s.NoobaaKey())) == ""
    requires s.NoobaaKey() in d.objects && DefaultStoreOf(d.objects[s.NoobaaKey()]) != ""
    ensures Unchosen(s, c) && !Unchosen(s, d)
    ensures v.seen[s.NoobaaKey()].Found? ==> DefaultStoreOf(v.seen[s.NoobaaKey()].obj) == ""
  {
    hide DefaultStoreOf;
  }

  /**
   Whenever a request of the operator changes a default store that is set, it puts there the store chosen from its own
   list; and its first look at NooBaa, earlier in the same pass, either failed, or found NooBaa without a default store,
   which others have chosen since.
   */
  lemma DefaultStoreChangeExplained(s: Settings, r: Run, n: nat) returns (first: nat, l: nat, g: nat)
    requires IsRun(s, r) && n < |r.events| && r.events[n].Call?
    requires s.NoobaaKey() in r.states[n].objects && s.NoobaaKey() in r.states[n + 1].objects
    requires var before, after := r.states[n].objects[s.NoobaaKey()], r.states[n + 1].objects[s.NoobaaKey()];
      DefaultStoreOf(before) != "" && DefaultStoreOf(after) != DefaultStoreOf(before)
    ensures Looks(s, r, first, l, g, n) && r.events[g].resp == Found(r.states[n].objects[s.NoobaaKey()])
    ensures DefaultStoreOf(r.states[n + 1].objects[s.NoobaaKey()]) == DefaultStore(ItemsIn(r.events[l].resp))
    ensures || r.events[first].resp == Failure
            || (r.events[first].resp.Found? && DefaultStoreOf(r.events[first].resp.obj) == "" && ChosenSince(s, r, first, g))
  {
    StoreChangeAt(s, r, n);
    hide IsRun, DefaultStore, DefaultStoreOf, QuietSoFar, PassSettings, SamePass, Unchosen;
    first, l, g := GrantTraced(s, r, n);
    ReadOf(s, r, first);
    ReadOf(s, r, g);
    RunLengths(s, r);
    if r.events[first].resp != Failure {
      UnchosenThen(s, r.states[first], r.states[g], r.views[n]);
      FirstLook(s, r, first, g, n);
    }
  }

  lemma GrantedParts(s: Settings, v: View, req: Request)
    requires NoobaaGranted(s, v, req)
    ensures |v.log| >= 2 && QuietSoFar(s, v.log) && s.NoobaaKey() in v.seen
    ensures v.log[|v.log| - 2].req == List(BackingStore, Some(s.namespace)) && v.log[|v.log| - 1].req == Get(s.NoobaaKey())
  {
    hide QuietSoFar;
  }

  lemma FirstLook(s: Settings, r: Run, first: nat, g: nat, n: nat)
    requires IsRun(s, r) && first <= g < n <= |r.events| && SamePass(r, first, n)
    requires QuietSoFar(PassSettings(s, r.views[n].mode), r.views[n].log)
    requires |r.states| == |r.events| + 1 && r.events[first].Call?
    requires r.events[first].resp == Look(r.states[first], s.NoobaaKey())
    requires !Unchosen(s, r.states[g]) && Unchosen(s, r.states[first])
    ensures r.events[first].resp.Found? && ChosenSince(s, r, first, g)
  {
    hide IsRun, QuietSoFar, DefaultStoreOf;
    if !r.events[first].resp.Found? {
      NoobaaStaysAway(s, r, first, g, n);
    }
    if !ChosenSince(s, r, first, g) {
      StaysUnchosen(s, r, first, g, n);
    }
  }
}
