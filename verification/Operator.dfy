/** main.go: the creation step at startup, and the process as a whole. */
module Operator {
  import opened Cluster
  import opened Config
  import opened Protocol
  import opened ApiServer
  import opened PassLogs
  import opened Uninstall
  import opened Reconciler

  /** Creates the ManagedMCG with its finalizer; one that exists already is left as it is. */
  method EnsureManagedMCG(api: Server) returns (err: bool)
    requires api.Valid()
    modifies api
    ensures api.Valid()
    ensures api.calm ==>
      var own := api.settings.(request := MCG_NAME);
      if own.McgKey() in old(api.cluster).objects then !err && api.cluster == old(api.cluster)
      else (err <==> own.namespace == "") && (!err ==> Guard(own, api.cluster))
  {
    hide api.Valid, Allowed, Fits, Repeats, Observe;
    api.Start(Startup);
    var own := api.settings.(request := MCG_NAME);
    StartupMayCreate(own);
    var resp := api.Do(Create(own.McgKey(), BOOT_OBJECT));
    match resp {
      case Stored(_) => err := false;
      case AlreadyExists => err := false;
      case _ => err := true;
    }
  }

  lemma StartupMayCreate(s: Settings)
    ensures Allowed(s, Fresh(Startup), Create(s.McgKey(), BOOT_OBJECT))
  {
  }

  /**
   In every state so far: NooBaa only with a guarded ManagedMCG, and no CSV deletion while there is a NooBaa, unless a
   ManagedMCG of another name than the pass was for guards it.
   */
  ghost predicate SafeSoFar(s: Settings, r: Run)
    requires IsRun(s, r)
  {
    && (forall n :: 0 <= n < |r.states| ==> (s.NoobaaKey() in r.states[n].objects ==> SomeGuard(s, r.states[n])))
    && (forall n :: 0 <= n < |r.events| && r.events[n].Call? && r.events[n].req.Delete? && r.events[n].req.key.kind.CSV? ==>
          s.NoobaaKey() in r.states[n].objects ==> OtherGuard(PassSettings(s, r.views[n].mode), r.states[n]))
  }

  lemma RunsAreSafe(s: Settings, r: Run)
    requires IsRun(s, r)
    ensures SafeSoFar(s, r)
  {
    RunShape(s, r);
    hide IsRun, SomeGuard, OtherGuard;
    forall n | 0 <= n < |r.states| && s.NoobaaKey() in r.states[n].objects ensures SomeGuard(s, r.states[n]) {
      NoobaaIsAlwaysGuarded(s, r, n);
    }
    forall n | 0 <= n < |r.events| && r.events[n].Call? && r.events[n].req.Delete? && r.events[n].req.key.kind.CSV?
      ensures s.NoobaaKey() in r.states[n].objects ==> OtherGuard(PassSettings(s, r.views[n].mode), r.states[n])
    {
      CSVDeletedLast(s, r, n);
    }
  }

  lemma RunShape(s: Settings, r: Run)
    requires IsRun(s, r)
    ensures |r.states| == |r.events| + 1 == |r.views|
  {
  }

  /**
   The process over any number of rounds, each a restart or a pass, while others write and requests fail as they may.
   Whatever happened is a run of the protocol, hence safe at every point.
   */
  method Operate(api: Server, rounds: nat)
    requires api.Valid()
    modifies api
    ensures api.Valid() && SafeSoFar(api.settings, api.run)
  {
    hide api.Valid, PassLogged, NeverBegun, PassRun, SafeSoFar;
    var r := new ManagedMCGReconciler(api);
    for i := 0 to rounds
      invariant api.Valid() && fresh(r) && r.api == api
    {
      var restart: bool := *;
      if restart {
        var err := EnsureManagedMCG(api);
        r := new ManagedMCGReconciler(api);
      } else {
        var name: string := *;
        var err, _, _ := r.Reconcile(name);
      }
    }
    ServerRun(api);
    RunsAreSafe(api.settings, api.run);
  }

  lemma ServerRun(api: Server)
    requires api.Valid()
    ensures IsRun(api.settings, api.run)
  {
  }
}
