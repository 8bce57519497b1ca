/** When a pass requests the deletion of the deployer CSV, and when it does so too early. */
module CSVs {
  import opened Utils
  import opened Cluster
  import opened Config
  import opened Desired
  import opened Logs
  import opened Protocol
  import opened Passes
  import opened Contracts
  import opened PassLogs
  import opened Uninstall
  import opened Termination

  ghost predicate AsksForCSV(log: seq<Exchange>) {
    exists i :: 0 <= i < |log| && log[i].req.Delete? && log[i].req.key.kind.CSV?
  }

  /** A pass that has asked for the deletion of a CSV found no ManagedMCG and saw the label. */
  lemma AskedWhenGone(s: Settings, r: Run, n: nat)
    requires IsRun(s, r) && n <= |r.events| && AsksForCSV(r.views[n].log)
    ensures var t := PassSettings(s, r.views[n].mode); Gone(t, r.views[n]) && SawDeletionLabel(t, r.views[n])
  {
    hide IsRun;
    RunLengths(s, r);
    var i :| 0 <= i < |r.views[n].log| && r.views[n].log[i].req.Delete? && r.views[n].log[i].req.key.kind.CSV?;
    var m := LoggedAt(s, r, n, i);
    CSVDeletedLast(s, r, m);
    ViewsGrow(s, r, m, n);
  }

  /** A pass that found no ManagedMCG deletes nothing but CSVs. */
  lemma GoneDeletesCSVs(s: Settings, r: Run, n: nat, i: nat)
    requires IsRun(s, r) && n <= |r.events| && Gone(PassSettings(s, r.views[n].mode), r.views[n])
    requires i < |r.views[n].log| && r.views[n].log[i].req.Delete?
    ensures r.views[n].log[i].req.key.kind.CSV?
  {
    hide IsRun, Allowed, Gone;
    RunLengths(s, r);
    var m := LoggedAt(s, r, n, i);
    ViewsGrow(s, r, m, n);
    CallIsLegal(s, r, m);
    DeletesWithoutCopy(PassSettings(s, r.views[n].mode), r.views[m], r.views[n], r.events[m].req);
  }

  lemma DeletesWithoutCopy(s: Settings, v: View, w: View, req: Request)
    requires Extends(v, w) && Gone(s, w) && Allowed(s, v, req) && req.Delete?
    ensures req.key.kind.CSV?
  {
    hide Completed, SawDeletionLabel;
  }

  /** A pass deletes a CSV exactly if it comes to leave and finds one on its list. */
  lemma CSVAskedIff(s: Settings, r: Run, p: PassLog, refreshed: bool, err: bool)
    requires IsRun(s, r) && r.views != []
    requires PassLogged(PassSettings(s, Last(r.views).mode), Last(r.views), p, refreshed, err)
    ensures AsksForCSV(Last(r.views).log) <==> p.phase.Leaving? && |p.phase.sent| == 2
  {
    hide IsRun, PassSettings;
    RunLengths(s, r);
    var v, t := Last(r.views), PassSettings(s, Last(r.views).mode);
    if AsksForCSV(v.log) {
      AskedWhenGone(s, r, |r.events|);
      GoneLeaves(t, v, p, refreshed, err);
    }
    if p.phase.Leaving? && |p.phase.sent| == 2 {
      LeavesGone(t, v, p, refreshed, err);
      GoneDeletesCSVs(s, r, |r.events|, |p.looked.log| + 1);
    }
  }

  lemma GoneLeaves(s: Settings, v: View, p: PassLog, refreshed: bool, err: bool)
    requires PassLogged(s, v, p, refreshed, err) && Gone(s, v) && SawDeletionLabel(s, v) && AsksForCSV(v.log)
    ensures p.phase.Leaving? && |p.phase.sent| == 2
  {
    hide StatesSeen, LiveLogged, InOrder, OwnUpdated, FirstWithPrefix, Asked;
    var i :| 0 <= i < |v.log| && v.log[i].req.Delete? && v.log[i].req.key.kind.CSV?;
    SeenLabel(s, p.looked, v);
    assert p.phase.Leaving?;
  }

  lemma LeavesGone(s: Settings, v: View, p: PassLog, refreshed: bool, err: bool)
    requires PassLogged(s, v, p, refreshed, err) && p.phase.Leaving? && |p.phase.sent| == 2
    ensures Gone(s, v) && |p.looked.log| + 1 < |v.log| && v.log[|p.looked.log| + 1].req.Delete?
  {
    hide StatesSeen, LiveLogged, InOrder, OwnUpdated, FirstWithPrefix, Asked;
  }

  // Too early

  /**
   In any state of any run, a pass for this name that is not disturbed requests the deletion of a CSV while NooBaa is
   stored if and only if there is no ManagedMCG of the name but the label, a deployer CSV and NooBaa. Then it has its
   way with the CSV, NooBaa stays, and a ManagedMCG of another name guards it.
   */
  lemma TooEarlyIff(s: Settings, r: Run, n: nat, name: string, refreshed: bool)
    requires IsRun(s, r) && n <= |r.events|
    ensures var c, t := r.states[n], s.(request := name);
      && (CSVDue(t, c) && t.NoobaaKey() in c.objects <==>
            t.McgKey() !in c.objects && LabelIn(t, c) && (exists k :: DeployerCSV(t, c, k)) && t.NoobaaKey() in c.objects)
      && (CSVDue(t, c) && t.NoobaaKey() in c.objects ==>
            var d := PassRun(t, c, refreshed).0;
            && OtherGuard(t, c) && t.NoobaaKey() in d.objects
            && exists k :: DeployerCSV(t, c, k) && (k !in d.objects || d.objects[k].deleting))
  {
    var c, t := r.states[n], s.(request := name);
    RunKeepsInv(s, r, n);
    WellFormedFact(PassSettings(s, r.views[n].mode), c, r.views[n]);
    NoobaaIsAlwaysGuarded(s, r, n);
    hide IsRun, Inv, SomeGuard, OtherGuard, DeployerCSV;
    DueIff(t, c);
    if CSVDue(t, c) && t.NoobaaKey() in c.objects {
      GuardedByOther(s, c, name);
      hide WellFormed, LabelIn, ListOf, FirstWithPrefix, Exec;
      var any :| DeployerCSV(t, c, any);
      var k := ThirdPassRemovesCSV(t, c, any);
      GoneKeepsNoobaa(t, c, k);
    }
  }

  lemma GoneKeepsNoobaa(s: Settings, c: Cluster, k: Key)
    requires DeployerCSV(s, c, k) && s.NoobaaKey() in c.objects
    requires forall j :: j != k && j in c.objects ==> j in GonePass(s, c).objects && GonePass(s, c).objects[j] == c.objects[j]
    ensures s.NoobaaKey() in GonePass(s, c).objects
  {
    hide GonePass;
  }

  lemma GuardedByOther(s: Settings, c: Cluster, name: string)
    requires SomeGuard(s, c) && s.(request := name).McgKey() !in c.objects
    ensures OtherGuard(s.(request := name), c)
  {
    var k :| IsMcg(s, k) && GuardedAt(c, k);
    assert IsMcg(s.(request := name), k);
  }

  lemma DueIff(s: Settings, c: Cluster)
    requires WellFormed(c)
    ensures CSVDue(s, c) <==> s.McgKey() !in c.objects && LabelIn(s, c) && exists k :: DeployerCSV(s, c, k)
  {
    hide LabelIn, WellFormed;
    var items := AllOf(s, c, CSV);
    if FirstWithPrefix(items, DEPLOYER_CSV_PREFIX).Some? {
      FirstIsListed(items, DEPLOYER_CSV_PREFIX);
      var item := FirstWithPrefix(items, DEPLOYER_CSV_PREFIX).value;
      SelectExact(c.objects, c.order, CSV, Some(s.namespace), item);
      assert DeployerCSV(s, c, item.key);
    }
    if k :| DeployerCSV(s, c, k) {
      IsListed(s, c, CSV, k);
      var i :| 0 <= i < |items| && items[i] == Item(k, c.objects[k]);
      FoundIsListed(items, DEPLOYER_CSV_PREFIX, i);
    }
  }

  lemma {:induction false} FirstIsListed(items: seq<Item>, prefix: string)
    requires FirstWithPrefix(items, prefix).Some?
    ensures FirstWithPrefix(items, prefix).value in items && prefix <= FirstWithPrefix(items, prefix).value.key.name
  {
    if !(prefix <= items[0].key.name) {
      FirstIsListed(items[1..], prefix);
    }
  }
}
