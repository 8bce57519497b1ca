# A model of the ManagedMCG operator

The operator installs, configures and uninstalls NooBaa on a managed OpenShift cluster. It is a Kubernetes controller:
each pass of `Reconcile` looks at the cluster through the API server and sends requests, any of which may fail, while
other clients write to the same objects. This project models the operator and the API server and proves what the
order of checks inside a pass is there for.

## How it is built

- `Utils`, `Cluster`, `Config`: helpers, the API server's store with the exact effect of every request
  (resource versions, finalizers, deletion stamps, status subresource), and the operator's keys and settings.
- `Logs`: which requests and replies each part of a pass may leave, and how the replies decide whether it succeeded:
  mutate functions as functions of the replies to their reads, create-or-update, the steps of the arm.
- `Protocol`: the install/uninstall protocol as a state machine over single requests. A run is a sequence of events:
  writes of others, the start of a pass, requests of the operator with their fate and reply. `Allowed` says which
  requests the operator may send, given what it has read and sent since the pass began; the deletion of the ManagedMCG
  takes a log in which every step of the arm succeeded. The safety theorems are about all runs. `Passes` looks back
  from a request into its own pass, `Consoles` at the console plugin over whole runs, `DefaultStores` at the default
  store, `CSVs` at the deletion of the CSV. `Witnesses` has runs in which the exceptions happen.
- `ApiServer`: the connection. `Server.Do` demands that each request is `Allowed`, lets others write before it is
  served and lets it fail or lose its reply, and records the run. A crash is a pass whose remaining requests are all
  refused. On a `calm` server nobody interferes and nothing fails.
- `Contracts`, `PassLogs`, `Reconciler`, `Operator`: the vocabulary of the contracts, the log of a whole pass, and the
  code of the controller and of the start-up step, method by method, with the fields the source updates. That it
  verifies against `Server.Do` means that it keeps to the protocol on every path. Whatever fails and whoever
  interferes, the log of each part says what was sent, and the replies in it decide the returned error. Besides, on a
  calm server each method does exactly what a function of the store says (`StrictArm`, `Uninstall`), errors included.
- `Desired`, `Emails`, `States`: what the mutate functions make of an object, the notification addresses, and the
  component states.
- `Contents`, `Outcomes`: what the objects of the operator hold, field by field with all names and values spelled out,
  apart from the functions that compute it: after a step, after a pass, and in what is sent where requests fail.
- `Convergence`, `Fixpoint`, `Progress`, `Example`, `StepLaws`: the strict arm reaches a fixpoint in two passes; when
  passes succeed, and a cluster where they do and can be undone; what single steps guarantee.
- `Termination`, `Removals`, `EndToEnd`: uninstalling comes to an end; what a removal writes and in which order; a whole
  uninstall in four passes.
- `Claims`: the bucket class handlers and the correspondence of claims and classes.
- `Regex`: the expressions compiled for relabelling and routing, with a parser and a meaning.

## Assumptions

- One worker: passes do not overlap. Reads are fresh.
- The operator works in one namespace. A pass may be for a ManagedMCG of any name.
- No backing store has an empty name.
- Only a pass creates the NooBaa CR, and there is none at first. Only the operator takes its own finalizer off a
  ManagedMCG. Everybody may do anything else at any time, deleting and creating ManagedMCGs included.

## Where the code differs from what it seems to promise

- The deployer CSV does not always go last. The watch lets requests for any name through, and a pass whose name has no
  ManagedMCG deletes the CSV while NooBaa is there, guarded by a ManagedMCG of another name: `CSVDeletedTooEarly` (such a
  run). It does so if and only if no ManagedMCG has the name but the label is set and a deployer CSV and NooBaa are
  there: `TooEarlyIff`. With but the one ManagedMCG in the store it goes last: `CSVDeletedLastOfOne`.
- A default store once chosen is kept only if NooBaa could be read at the start of the pass: `DefaultStoreIsSticky`. A
  request that replaces one comes from a pass whose first look at NooBaa failed, or found it without a default store,
  which others have chosen since: `DefaultStoreChangeExplained`; `DefaultStoreOverwritten` (exactly when the mutate
  function replaces it), `StoreLostAfterFailedLook` (such a run).
- A default store that the pass noted, and that others removed before its write, is not put back: after the step NooBaa
  has one if and only if it had one then, or none was noted and there is a backing store: `StepSetsDefaultStoreIff`,
  `RemovedStoreIsNotPutBack` (an example).
- The default store need not be an existing one: `DefaultStoreNeedNotExist` (an example). It is one if and only if some
  store has the very name of the constant or none has it as a prefix: `DefaultStoreExistsIff`.
- The console plugin is added without looking at the Console that is updated: `PluginAlwaysAdded`. A second entry
  appears exactly if that Console had one when it was got, which takes a write of others between the list and the get:
  `ConsoleWriteExplained`, `SecondEntryBetween` (such a run). If others leave the Consoles alone there never is a second
  one: `ConsolesStayTame`.
- The relabelling expression means its two lists if and only if there is an alert (or ALERTS is itself a metric), and
  the matcher of an empty list accepts the empty name: `RelabelIsExactIff`, `MatcherMeaning`.
- One pass is not enough, since rules are created after the labelling: a successful pass leaves the labelling complete
  if and only if both rules of the operator existed before it: `PassLabelsIff`, `SecondPassStillWrites`.
- A failed search for the deployer CSV is no error, because an inner `err` shadows the outer one:
  `FailedSearchIsNoError` (an example). Leaving fails if and only if a deletion was sent and not accepted:
  `LeavingFailsIff`.
- The pass that marks the ManagedMCG for deletion, and the one that lets it go, end with an error, because the report of
  the status is refused then: `ServiceIsArm`, `LastPassErrs`.
- The claim of the default bucket class is never removed. A class that comes back while its old claim is stamped and
  waits for a finalizer gets none, and has none once that one is gone: `NoClaimAfterLingering` (an example). Which live
  and which stamped claims there are, exactly: `ClaimsCorrespond`.

## Model

| member | source | states |
|---|---|---|
| Protocol.NoobaaIsAlwaysGuarded | controllers/managedmcg_controller.go:236-285 | in every state of every run, whatever others write, whichever requests fail and whichever ManagedMCG each pass is for: if the NooBaa CR exists, a ManagedMCG exists that carries the operator's finalizer |
| Protocol.NoobaaGuardedByItsOwn | main.go:187-207 | where there is no ManagedMCG but the one the operator creates, it is that one |
| Protocol.CSVDeletedLast | controllers/managedmcg_controller.go:280-282 | whenever the deletion of a CSV is requested, the pass has seen the deletion label and no ManagedMCG of its name; and if the NooBaa CR is in the store, a ManagedMCG of another name guards it |
| Protocol.CSVDeletedLastOfOne | controllers/managedmcg_controller.go:280-282 | with no ManagedMCG of another name there is no NooBaa CR in the store then |
| CSVs.TooEarlyIff | controllers/managedmcg_controller.go:205-285 | in any state of any run, an undisturbed pass requests the deletion of a CSV while NooBaa is stored if and only if its name has no ManagedMCG but the label, a deployer CSV and NooBaa are there; then the CSV goes, NooBaa stays, and a ManagedMCG of another name guards it |
| CSVs.CSVAskedIff | controllers/managedmcg_controller.go:280-282 | a pass deletes a CSV exactly if it comes to leave and finds one on its list, whatever failed |
| Witnesses.CSVDeletedTooEarly | controllers/managedmcg_controller.go:209-216 | every run that comes to such a store goes on to a deletion of the CSV while NooBaa is there |
| Witnesses.WitnessRun | controllers/managedmcg_controller.go:770 | there is a run to a store from which this, the loss of a chosen default store and a second console entry can happen |
| Protocol.RunKeepsInv | controllers/managedmcg_controller.go:240-270 | the inductive invariant that ties what a pass remembers to the store: it survives every event of every run |
| Protocol.CallKeepsGuard | controllers/managedmcg_controller.go:339-348 | a request takes the finalizer off, or the object away, only from the ManagedMCG the pass is for, in a pass that saw the stamp and found NooBaa missing; an unknown state never counts |
| Protocol.CallKeepsInv | controllers/managedmcg_controller.go:824-859 | one request keeps the invariant, whether it is served, refused, or served with its reply lost |
| Protocol.EnvKeepsInv | controllers/managedmcg_controller.go:205-234 | so does any write of others |
| Passes.NoResurrection | controllers/managedmcg_controller.go:240-250 | in a pass that finds the ManagedMCG stamped, no request creates an object or changes the spec, labels, annotations or owner of one, wherever the pass fails |
| Passes.NoobaaStruckAfterDrain | controllers/managedmcg_controller.go:374-397 | NooBaa's finalizer is stripped and its deletion requested only after a moment in the same pass at which the namespace had no bucket class and the operator saw so |
| Passes.DeletionGate | controllers/managedmcg_controller.go:251-279 | when the deletion of the ManagedMCG is requested, the log of this pass is all it sent, and ends with the read parameters and all sixteen steps of the arm, every one of them successful: lists, mutate functions and writes; the pass has read the deletion label and the unstamped object, and, where the finalizer was there before, every component as ready, with at least as many replicas ready as the spec that was read asks for |
| Passes.LogIsPass | controllers/managedmcg_controller.go:824-859 | the log of a pass holds the requests sent since it began, with their replies, and nothing else |
| Passes.LoggedAt | controllers/managedmcg_controller.go:824-859 | each entry of the log is an event of the same pass, and the entries before it were sent before |
| Passes.ReadyWasRead | controllers/managedmcg_controller.go:564-673 | component states that are all ready come from objects read in this very pass: NooBaa's phase, and as many ready replicas as the spec of Prometheus or Alertmanager gives, or one if it gives none |
| Passes.SeenIsRead | controllers/managedmcg_controller.go:824-832 | what a pass knows of an object is what the store had at some event of the same pass |
| Passes.DefaultStoreIsSticky | controllers/managedmcg_controller.go:480-501 | in a pass that saw a default store at its first look at NooBaa, no request changes the default store of the NooBaa that is stored by then, whoever wrote it since |
| DefaultStores.DefaultStoreChangeExplained | controllers/managedmcg_controller.go:480-501 | a request that changes a default store that is set writes the one chosen from its own list, in a pass whose first look at NooBaa failed, or found no default store, which others have chosen since |
| Passes.ViewsGrow | controllers/managedmcg_controller.go:133-171 | between two starts of a pass nothing that was learned is forgotten or replaced |
| ApiServer.Server.Do | controllers/managedmcg_controller.go:824-859 | every request sent extends the run, fits its reply and, on a calm server, has exactly the effect the store defines |
| Operator.EnsureManagedMCG | main.go:187-207 | creates the guarded ManagedMCG; an existing one is no error and left alone |
| Operator.Operate | main.go:144-160 | any number of restarts and passes for whatever names, under interference and failures, yields a run that is safe at every point |
| Reconciler.ManagedMCGReconciler.Reconcile | controllers/managedmcg_controller.go:205-234 | a whole pass for a name keeps to the protocol on every path; whatever fails, its log is reads, the requests of one phase, and the report, and it returns an error exactly if the phase or the report failed; on a calm server store and error are those of the function `PassRun`, and a CSV is deleted exactly where one is due |
| PassLogs.PhaseDecides | controllers/managedmcg_controller.go:205-285 | what a phase sent and was told decides its error and what it leaves in memory: no log allows two ends |
| PassLogs.StepDecides | controllers/managedmcg_controller.go:287-318 | no log says of a step of the arm both that it succeeded and that it failed |
| Reconciler.ManagedMCGReconciler.ReconcilePhases | controllers/managedmcg_controller.go:236-285 | the three-way choice by stamp, uid and deletion label; the log of the phase and the error it ends with, and on a calm server the store and the ManagedMCG in memory |
| Reconciler.ManagedMCGReconciler.ReconcileStamped | controllers/managedmcg_controller.go:241-250 | a stamped object loses the finalizer if NooBaa was not found, else NooBaa is removed; the error is that of the update or the removal |
| Reconciler.ManagedMCGReconciler.ReconcileLive | controllers/managedmcg_controller.go:251-279 | finalizer, parameters, resources, and the deletion where uninstalling has begun, in this order, each only after the one before succeeded, also under interference; store, memory and error exact on a calm server |
| Reconciler.ManagedMCGReconciler.DeleteIfDue | controllers/managedmcg_controller.go:274-279 | the deletion is requested if and only if the label was found and all components are ready, on any server; an error exactly if it was not accepted |
| Reconciler.ManagedMCGReconciler.ReconcileResources | controllers/managedmcg_controller.go:287-318 | the steps of the arm in order up to the first failure, each with the log that decides its success; on a calm server the store is the one that `ArmRun` reaches, also where it stops |
| Reconciler.ManagedMCGReconciler.RemoveManagedMCG | controllers/managedmcg_controller.go:339-348 | takes the finalizer, and only it, off the object the pass read; an error exactly if the update was not accepted; whether the answer brings the stored status is left open |
| Reconciler.ManagedMCGReconciler.AddManagedMCG | controllers/managedmcg_controller.go:350-358 | after it the pass may install; the status in memory is kept or replaced by the stored one |
| Reconciler.ManagedMCGReconciler.RemoveNoobaa | controllers/managedmcg_controller.go:360-424 | the requests come part by part, each only after the one before was completed; on a calm server the store becomes what the removal says |
| Reconciler.ManagedMCGReconciler.DeleteListed | controllers/managedmcg_controller.go:363-373 | requests the deletion of each listed object in order and stops at the first refusal; without an error all were accepted |
| Reconciler.ManagedMCGReconciler.AwaitNoBucketClasses | controllers/managedmcg_controller.go:374-389 | at most seven lists, ended by the first that is empty or fails; succeeds only on an empty one |
| Reconciler.ManagedMCGReconciler.StrikeNoobaa | controllers/managedmcg_controller.go:391-397 | the deletion follows only an accepted removal of the finalizer |
| Reconciler.ManagedMCGReconciler.UpdateAddonParams | controllers/managedmcg_controller.go:426-438 | afterwards the parameters in memory are the old ones overlaid with the entries of the secret |
| Reconciler.ManagedMCGReconciler.MergeParams | controllers/managedmcg_controller.go:433-435 | taking the entries over one by one in any order overlays the map |
| Reconciler.ManagedMCGReconciler.RemoveOLMComponents | controllers/managedmcg_controller.go:440-450 | deletes the first deployer CSV on the list; an error exactly if the last request is a deletion that was not accepted, so finding none, or failing to list, is none |
| PassLogs.LeavingFailsIff | controllers/managedmcg_controller.go:440-450 | leaving fails if and only if a deletion was sent and not accepted; a list that failed ends it without an error |
| PassLogs.FailedSearchIsNoError | controllers/managedmcg_controller.go:440-450 | the example: a failing list, no error |
| Reconciler.ManagedMCGReconciler.VerifyAddonDeletionKey | controllers/managedmcg_controller.go:463-478 | true exactly if the config map was found with the label |
| Reconciler.ManagedMCGReconciler.ReconcileNoobaaComponent | controllers/managedmcg_controller.go:480-501 | what is written, also under interference: the mutated NooBaa for the annotations noted at the start and the default store chosen from the reply to this list, before anything else is written; what that NooBaa holds is in LogHolds and PassSetsDefaultStore |
| Reconciler.ManagedMCGReconciler.GetDefaultBackingStore | controllers/mcg_bucket.go:67-84 | the store chosen from the listed ones; none if the list failed |
| Reconciler.ManagedMCGReconciler.ReconcileOCSCSV | controllers/managedmcg_controller.go:503-540 | nothing is sent before NooBaa is ready, and an update of the first listed CSV only if one of its three deployments is not at zero; an error without a CSV, or if the update is refused |
| Reconciler.ManagedMCGReconciler.Downscale | controllers/managedmcg_controller.go:517-532 | the loop sets ocs-operator, ocs-metrics-exporter and rook-ceph-operator to zero, leaves all else alone, and reports a change exactly if one of the three was not at zero |
| Reconciler.ManagedMCGReconciler.UpdateComponentStatus | controllers/managedmcg_controller.go:564-572 | each component state is assigned on every path and is the one that the pass's own first reads show: ready exactly with the phase, or as many ready replicas as the spec asks for |
| Reconciler.ManagedMCGReconciler.UpdateNoobaaComponentStatus | controllers/managedmcg_controller.go:574-590 | ready exactly in phase Ready, pending in any other, missing if not found, unknown on any other error |
| Reconciler.ManagedMCGReconciler.UpdatePrometheusComponentStatus | controllers/managedmcg_controller.go:594-616 | ready exactly if the stateful set has as many ready replicas as the spec of the Prometheus that was read gives, or one if it gives none, pending with fewer; the object found stays in memory |
| Reconciler.ManagedMCGReconciler.UpdateAlertmanagerComponentStatus | controllers/managedmcg_controller.go:620-642 | the same for Alertmanager |
| Reconciler.ManagedMCGReconciler.UpdateConsoleComponentStatus | controllers/managedmcg_controller.go:645-665 | the same for the console deployment, which wants one replica |
| Contracts.StatesSeenAreShown | controllers/managedmcg_controller.go:564-673 | ready, pending, missing and unknown, for each component, exactly by the fields of the objects that the pass first read |
| Reconciler.ManagedMCGReconciler.GetCSVByPrefix | controllers/managedmcg_controller.go:870-888 | the first CSV of the reply to the list whose name has the prefix; none if the list failed |
| Reconciler.ManagedMCGReconciler.ReconcileConsoleCluster | controllers/managedmcg_controller.go:890-913 | a Console is read or written only after a list on which none has the plugin; a failed list is an error |
| Reconciler.ManagedMCGReconciler.EnsureConsolePlugin | controllers/managedmcg_controller.go:915-954 | service, then plugin, once the deployment exists; "already exists" is swallowed, any other failure ends it, on any server |
| Reconciler.ManagedMCGReconciler.EnsureConsoleService | controllers/managedmcg_controller.go:919-941 | the service is owned by the deployment that was got; without it nothing is sent and the step fails |
| Reconciler.ManagedMCGReconciler.CreateOrUpdate | controllers/managedmcg_controller.go:486-498 | get, mutate, then create, or update only if something changed; nothing is written after a failed get or mutate |
| Reconciler.ManagedMCGReconciler.MutateAndWrite | controllers/monitoring_alert.go:144-165 | the one write is the outcome of the mutate function on what was found, or on the object in memory |
| Reconciler.ManagedMCGReconciler.Mutate | controllers/monitoring_alert.go:410-501 | the outcome is that of the mutate function for the replies to its own reads, on any server; it leaves a read out only once no further reply could make it succeed; what the outcome holds is in WantedHolds |
| Reconciler.ManagedMCGReconciler.ReconcileAlertMonitoring | controllers/monitoring_alert.go:116-140 | steps eight to fourteen of the arm in their order, each only after the one before succeeded, on any server |
| Reconciler.ManagedMCGReconciler.LabelSnitch | controllers/monitoring_alert.go:148-158 | the nested loops label exactly the snitch rule of its group |
| Reconciler.ManagedMCGReconciler.AddRuleLabel | controllers/monitoring_alert.go:180-193 | the nested loops add the label to every rule of every group and change nothing else |
| Reconciler.ManagedMCGReconciler.MutateNoobaaRules | controllers/monitoring_alert.go:169-219 | variant, environment and, if the reply to the list has a cluster version of that name, cluster id on every rule; an error if the list failed |
| Reconciler.ManagedMCGReconciler.ReconcileMonitoringResources | controllers/monitoring_alert.go:225-275 | pod monitors, service monitors, rules; each kind only after the one before was completed |
| Reconciler.ManagedMCGReconciler.LabelListed | controllers/monitoring_alert.go:228-238 | the listed objects are labelled in order; on an error a prefix is done and the rest untouched |
| Reconciler.ManagedMCGReconciler.MutateAlertmanagerConfig | controllers/monitoring_alert.go:277-329 | succeeds exactly with all prerequisites, and then yields the receivers filled from the secrets in the replies and from the parameters, as ReceiversAre of WantedHolds spells them out |
| Reconciler.ManagedMCGReconciler.CheckPrerequisites | controllers/monitoring_alert.go:331-350 | ownership, the pager key and the snitch secret, in this order; success exactly if the replies meet them, and it stops only when no further reply could |
| Reconciler.ManagedMCGReconciler.ConfigReceiver | controllers/monitoring_alert.go:352-381 | filling the copied template in place gives each receiver its settings by name; mail only if there are addresses |
| Reconciler.ManagedMCGReconciler.MutatePrometheus | controllers/monitoring_alert.go:503-558 | proxy image from the listed CSVs, remote write from the reply for its secret; an error exactly if either is wanting or the owner is another; the fields are in PrometheusHolds of WantedHolds |
| Reconciler.ManagedMCGReconciler.FindProxyImage | controllers/monitoring_alert.go:511-530 | the image of the last container of that name in the last deployment of that name in the first deployer CSV of the reply |
| Reconciler.ManagedMCGReconciler.ConfigureRHOBSRemoteWrite | controllers/monitoring_alert.go:579-610 | off if the secret is not found, an error if an entry is missing or the read fails, else the remote write to the RHOBS endpoint with the token endpoint, the secret and its audience, as RemoteWriteIs of WantedHolds spells it out |
| Emails.CollectAddresses | controllers/monitoring_alert.go:291-299 | the unbounded loop ends after at most one lookup more than there are parameters and returns the addresses at notification-email-0, -1, ... in order, up to the first number without one |
| Emails.AddressesUpToFirstGap | controllers/monitoring_alert.go:291-299 | the addresses are, in order, those at 0 .. n-1, where n is the least index without an entry; which keys those are is in AddressKeyIs |
| Emails.AddressesAreListed | controllers/monitoring_alert.go:291-299 | the list is that of the parameters whose keys are the prefix and a decimal numeral, read digit by digit, of value 0, 1, ...; it is empty exactly if notification-email-0 is missing |
| Emails.AddressKeyIs | controllers/monitoring_alert.go:293 | a key is that of index i if and only if it is the prefix followed by a numeral without leading zeros whose value is i |
| Emails.DecimalReads | controllers/monitoring_alert.go:293 | decimal notation is such a numeral, and reading it gives the number back |
| Emails.AddressesBounded | controllers/monitoring_alert.go:293-297 | n consecutive addresses need n parameters |
| Emails.EmailKeyInjective | controllers/monitoring_alert.go:293 | keys of different indices differ |
| Emails.DecimalInjective | controllers/monitoring_alert.go:293 | decimal notation is injective |
| Fixpoint.ThirdPassChangesNothing | controllers/managedmcg_controller.go:287-318 | after two passes that return no error, from any store with a live ManagedMCG, labelled for deletion or not, any further pass returns none and changes no stored object |
| Progress.ProvidedPassesConverge | controllers/managedmcg_controller.go:251-318 | with inputs, parameters and an OCS operator provided, no foreign owners, and no uninstalling that would begin, the first and the second pass succeed and every further one succeeds and changes nothing |
| Progress.ProvidedStays | controllers/managedmcg_controller.go:287-318 | such a pass succeeds and takes nothing away that the next one needs |
| Progress.ReadyWasForeseen | controllers/managedmcg_controller.go:564-673 | after a pass all components are ready exactly if NooBaa was ready and the workloads were there before it |
| Example.StartIsProvided | controllers/managedmcg_controller.go:251-318 | a concrete cluster with the secrets, the console deployment and the two CSVs meets these conditions |
| Progress.StepSucceeds | controllers/monitoring_alert.go:116-140 | no step of the arm before the report fails when nothing stands in its way |
| Fixpoint.SecondPassStillWrites | controllers/monitoring_alert.go:129-137 | a successful pass leaves the labelling complete exactly if both rules of the operator existed before it; if not, the next one changes the store and completes it |
| Fixpoint.PassIsArm | controllers/managedmcg_controller.go:251-272 | a pass over a serving ManagedMCG is the whole arm, its report included, and returns an error exactly if parameters are missing, the arm fails, or the ManagedMCG is marked for deletion |
| Fixpoint.ServiceIsArm | controllers/managedmcg_controller.go:251-279 | the same from any memory; marking the ManagedMCG for deletion makes the report of the status fail |
| Fixpoint.PassServes | controllers/managedmcg_controller.go:251-272 | a successful pass leaves a ManagedMCG that is live and guarded |
| Fixpoint.ArmKeepsLabel | controllers/managedmcg_controller.go:463-478 | no step of the arm sets or lifts the deletion label |
| Convergence.StrictArmConverges | controllers/managedmcg_controller.go:287-318 | two successful arms, whatever the first remembered, reach a fixpoint |
| Convergence.OnePassIsNotEnough | controllers/monitoring_alert.go:116-140 | the arm that creates one of the two rules does not label it, so the next successful arm changes the store and completes the labelling |
| Convergence.PassLabelsIff | controllers/monitoring_alert.go:116-140 | a successful arm leaves the labelling complete if and only if both rules existed before it |
| Convergence.ArmSettles | controllers/managedmcg_controller.go:287-318 | after a successful arm every step has nothing left to do, the labelling if the rules existed before |
| Convergence.SettledKept | controllers/managedmcg_controller.go:287-318 | a later step leaves settled what an earlier one settled |
| Convergence.WantedIdempotent | controllers/monitoring_alert.go:277-610 | mutating a second time changes nothing |
| Convergence.BroughtShape | controllers/monitoring_alert.go:144-165 | a success touches its own object only, keeps its identity, and leaves it as wanted |
| Convergence.SettledIsFixed | controllers/managedmcg_controller.go:287-318 | a settled step taken again writes nothing |
| Convergence.SecretsAreApart | main.go:129-139 | the secret names derived from any addon name differ from the one the operator writes |
| Contents.WantedHolds | controllers/monitoring_alert.go:144-610 | what each mutate function makes of an object, field by field with every name spelled out: owner, labels, annotations, the default store, the proxy image, the remote write, the four receivers, the labels of each rule; all it does not set is as it was |
| Contents.WantedSucceedsIff | controllers/monitoring_alert.go:277-610 | a mutate function succeeds if and only if everything it needs is there: no other owner, the deployer CSV with its deployment, no secret for the remote write or one with its three entries, the pager, snitch and mail entries, none of them empty, and the mail body |
| Outcomes.StepHolds | controllers/monitoring_alert.go:144-165 | a create-or-update that succeeds leaves that object in its place, made of the one that was there or of a fresh one, and touches no other |
| Outcomes.StepSucceedsIff | controllers/monitoring_alert.go:144-165 | a step succeeds if and only if everything it needs is there and an object that is missing can be created |
| Outcomes.LogHolds | controllers/monitoring_alert.go:277-610 | whatever fails and whoever interferes: what a step writes holds that for the object it got and the replies that its log shows at the places named, and a step that succeeds without a write found it so |
| Outcomes.LogFails | controllers/monitoring_alert.go:277-350 | a step that was answered for its object and fails without a write lacks something it needs, by the replies in its log and whatever else it might have heard, or its list of versions did not come |
| Outcomes.PassHolds | controllers/managedmcg_controller.go:251-318 | after a successful pass every object of the operator is in its place and holds what it should for the lists, secrets and parameters in the store, owned by the ManagedMCG |
| Outcomes.PassSetsDefaultStore | controllers/managedmcg_controller.go:480-501 | after a successful pass with a backing store NooBaa has a default store: the one it had, else the constant if a store's name begins so, else the first listed one; without backing stores its annotations are as they were |
| Outcomes.StepSetsDefaultStoreIff | controllers/managedmcg_controller.go:480-501 | after the step NooBaa has a default store if and only if it had one, or none was noted at the first look and there is a backing store |
| Outcomes.RemovedStoreIsNotPutBack | controllers/managedmcg_controller.go:480-501 | the example: noted, then removed by others, and still missing after the step |
| Outcomes.PassSetsRemoteWrite | controllers/monitoring_alert.go:579-610 | the Prometheus that a successful pass leaves has a remote write exactly if the secret is there, with the RHOBS endpoint, that secret, the token endpoint and the secret's audience each in its field |
| Outcomes.PassReports | controllers/managedmcg_controller.go:221-272 | a successful pass over a guarded ManagedMCG leaves it with the component states that the store showed when it began and its own strategy, anything but none being strict, and otherwise as it was |
| Outcomes.PassSettlesTheRest | controllers/managedmcg_controller.go:503-540 | after such a pass a Console lists the plugin, and, where NooBaa was ready, the first OCS CSV has its three deployments at zero |
| Outcomes.ForeignOwnerFails | controllers/managedmcg_controller.go:861-868 | an object that another controller owns is not taken over: the step fails |
| Outcomes.UninstallDueIff | controllers/managedmcg_controller.go:251-279 | where a pass goes on to mark the ManagedMCG for deletion, exactly: the config map of the addon has the label, and the four components are ready by their own fields |
| Outcomes.StepsOpen | controllers/managedmcg_controller.go:287-318 | the first request of each of the sixteen steps, in order; only the step for the OCS operator may send nothing, exactly while NooBaa is not ready |
| StepLaws.DefaultStoreValues | controllers/mcg_bucket.go:67-84 | none only for an empty list, the constant whenever a name has it as a prefix, and the first listed name otherwise |
| StepLaws.DefaultStoreExistsIff | controllers/mcg_bucket.go:67-84 | the chosen store is a listed one if and only if one has the very name of the constant or none has it as a prefix |
| StepLaws.DefaultStoreNeedNotExist | controllers/mcg_bucket.go:77-81 | the constant can be chosen without a store of that name |
| StepLaws.DefaultStoreOverwritten | controllers/managedmcg_controller.go:488-491 | exactly when a default store that is set is replaced |
| Witnesses.StoreLostAfterFailedLook | controllers/managedmcg_controller.go:483-491 | every run that comes to a default store the list would not yield goes on, by a failed look, a list, a get and an update, to its replacement |
| StepLaws.DefaultStoreLostAfterFailedRead | controllers/managedmcg_controller.go:488-491 | what the mutate function does with nothing noted: the chosen store is replaced |
| Consoles.ConsoleWriteExplained | controllers/managedmcg_controller.go:890-913 | in every run, a write of a Console follows a list without the plugin and a get in the same pass, touches no other Console and adds one entry behind those of others; a second entry of ours takes one that was there when it was got, hence a foreign write between list and get |
| Witnesses.SecondEntryBetween | controllers/managedmcg_controller.go:890-913 | every run that comes to Consoles without the plugin goes on, with a write of others between list and get, to a second entry |
| Consoles.ConsolesStayTame | controllers/managedmcg_controller.go:890-913 | over any stretch of a run in which others leave Consoles alone, passes cut short and requests failing: no second entry of ours, foreign plugins in order, and no Console written once one lists ours |
| Consoles.PluginAlwaysAdded | controllers/managedmcg_controller.go:902-907 | the mutate function adds one entry always, so a second one exactly if the Console it got has one |
| StepLaws.OcsScaledDown | controllers/managedmcg_controller.go:503-540 | in the first matching CSV ocs-operator, ocs-metrics-exporter and rook-ceph-operator are at zero, all else is as it was, the store changes exactly if one of the three was not at zero, and a second run writes nothing |
| StepLaws.OcsSends | controllers/managedmcg_controller.go:503-540 | the same for what is sent, on any server: an update of the first listed OCS CSV exactly if one of the three is not at zero, which puts them there; without such a CSV an error and no update |
| StepLaws.FirstWithPrefixIs | controllers/managedmcg_controller.go:870-888 | the search finds the first listed object whose name has the prefix, and none only if there is none |
| StepLaws.LabellingIsExact | controllers/monitoring_alert.go:225-275 | afterwards each pod monitor, service monitor and rule of the namespace carries the label exactly if it is not the foreign rule, other labels and all else unchanged; every other object, of other kinds or namespaces, is as it was |
| StepLaws.LabelledRulesAreQuiet | controllers/managedmcg_controller.go:710-718 | after the labelling the watch lets no rule through but the foreign one |
| Termination.UninstallTerminates | controllers/managedmcg_controller.go:241-250 | from any stamped state, of all passes, blocked or not, and removals of finalizers that are waited for, only finitely many get something done, and while the ManagedMCG exists one can: a pass, or the owner of a finalizer |
| Termination.PassProgress | controllers/managedmcg_controller.go:360-424 | a pass over a stamped ManagedMCG makes the measure smaller if and only if it is not blocked by foreign finalizers, and never larger |
| Termination.BlockedByOther | controllers/managedmcg_controller.go:360-424 | whenever it is blocked, a stamped awaited object carries a finalizer that is not the operator's to remove |
| Termination.TwoPassesSuffice | controllers/managedmcg_controller.go:241-250 | with immediate deletion NooBaa is gone after the first pass from any stamped state, and the ManagedMCG with it if there was no NooBaa; after the second both are gone |
| Termination.LastPassErrs | controllers/managedmcg_controller.go:221-231 | the pass that lets the ManagedMCG go ends with an error |
| Termination.ThirdPassRemovesCSV | controllers/managedmcg_controller.go:440-450 | with the label, a deployer CSV and no ManagedMCG the pass deletes one such CSV and nothing else |
| EndToEnd.UninstallCompletes | controllers/managedmcg_controller.go:236-285 | a whole uninstall from a serving ManagedMCG with all components ready: the first pass stamps it, the second removes NooBaa, the third lets the ManagedMCG go, the fourth deletes a deployer CSV; label and CSV survive the passes before |
| Example.StartIsUninstalled | controllers/managedmcg_controller.go:236-285 | a concrete cluster, with the label and everything ready, meets the conditions of a whole uninstall |
| EndToEnd.StampedPassStays | controllers/managedmcg_controller.go:360-424 | a pass over a stamped ManagedMCG touches nothing but ManagedMCG, NooBaa, bucket classes and the two kinds of stores |
| EndToEnd.StampedPassClears | controllers/managedmcg_controller.go:360-424 | a pass over a stamped ManagedMCG that finds NooBaa stamps every bucket class at least; without an error no bucket class is left, NooBaa is gone or stamped without the graceful finalizer, and of backing and namespace stores only stamped ones with finalizers are left |
| Termination.RemovalProgress | controllers/managedmcg_controller.go:360-424 | a removal gets something done exactly if it is not blocked, and leaves the ManagedMCG alone |
| Removals.RemovalFollowsPlan | controllers/managedmcg_controller.go:360-424 | on failure the writes are a prefix of classes, NooBaa, backing stores, namespace stores; without an error they are all of them |
| Removals.RemovalIsComplete | controllers/managedmcg_controller.go:360-424 | without an error bucket classes, backing stores and namespace stores were listed, the deletion of every listed object was accepted, and so were the update and the deletion of NooBaa |
| Claims.ClaimsCorrespond | controllers/mcg_bucket.go:37-65 | after any run of events, with finalizers set by others, a live claim exists exactly if it belongs to a live annotated class that was ready when added, or to the default class, and no old claim lingered then; a stamped one exactly if it was given up while held and not freed since |
| Claims.FatesShown | controllers/mcg_bucket.go:37-65 | the store follows the life of each claim: absent, live, or stamped and waiting for its finalizers |
| Claims.ClaimsHoldTheirClass | controllers/mcg_bucket.go:131-149 | after any run of events each claim, live or stamped, was made by one of them, in the namespace of the class's annotation, and has the class's name as bucket name, generated name and bucket class, the storage class of its namespace, and its owner |
| Claims.NoClaimAfterLingering | controllers/mcg_bucket.go:45-49 | an example: a class that comes back while its old claim lingers ends up without one |
| Claims.ReplayChangesNothing | controllers/mcg_bucket.go:37-49 | adding classes again after a restart, in whatever state they are by then, changes nothing if and only if every claim they call for is there already, live or stamped |
| Claims.ReplayOfLiveClasses | controllers/mcg_bucket.go:37-49 | in particular the same events of classes that are still there change nothing |
| Claims.ClaimsDoNotInterfere | controllers/mcg_bucket.go:131-177 | handling one class leaves the claims of the others alone |
| Claims.PathsAgree | controllers/mcg_bucket.go:151-177 | the create and the delete path compute the same key exactly for the annotated classes |
| Claims.ClaimKeyInjective | controllers/mcg_bucket.go:170-177 | different classes of the watched namespace have different claims |
| Claims.BucketClassHandlers.BucketClassAdded | controllers/mcg_bucket.go:37-65 | touches no object but the claim of the class; the requests sent, from the polls to the create, which holds bucket name, storage class and owner of the class in their fields; nothing at all for a class without the annotation, and only polls for one that does not become ready |
| Claims.BucketClassHandlers.IsBucketClassCreationSuccess | controllers/mcg_bucket.go:86-117 | gets of the class, at most seven, up to the first that shows it ready, while its phase changes in between; true exactly if it was ready at once or the last get shows it so |
| Claims.BucketClassHandlers.CreateOrUpdateClaim | controllers/mcg_bucket.go:50-63 | get, then create the claim with the owner, names and storage class that are the class's, field by field, or update the one that exists exactly if it differs from that; an error exactly if the get or the write fails |
| Claims.BucketClassHandlers.BucketClassDeleted | controllers/mcg_bucket.go:159-168 | requests the deletion of the claim of the class and of nothing else |
| Claims.BucketClassHandlers.OnDelete | controllers/managedmcg_controller.go:748-755 | the default class is passed over |
| Regex.RelabelMeaning | templates/prometheus.go:132-164 | the expression, parsed and fully anchored, accepts a subject exactly if it is a listed alert or a listed series, with the case of no alerts spelled out |
| Regex.RelabelIsExactIff | templates/prometheus.go:155-164 | it means just the two lists for all subjects if and only if there is an alert or ALERTS is a metric |
| Regex.GetRelabelRegex | templates/prometheus.go:155-164 | the compiled expression accepts `name;alertname` exactly for the alerts and series of the two lists, with the case of no alerts spelled out, for all names without special characters |
| Regex.MatcherMeaning | templates/alertmanagerconfig.go:137-139 | the matcher accepts exactly the listed names, and the empty one if nothing is listed |
| Regex.RoutingByPriority | templates/alertmanagerconfig.go:53-102 | the receiver of every alert for any non-empty lists, also overlapping ones |
| Regex.EachAlertToItsReceiver | templates/alertmanagerconfig.go:53-102 | with disjoint lists each receiver gets exactly its alerts and all others go to the root |
| Utils.RemoveUndoesAppend | utils/utils.go:48-57 | removing a finalizer that was just added gives the list back |
| Utils.Contains | utils/utils.go:37-45 | true exactly if the entry is there |
| Utils.Remove | utils/utils.go:48-57 | the list without any occurrence, the others in order |
| Utils.MapItems | utils/utils.go:84-91 | entry by entry the image |

## Left out

- Manager set-up, flags, schemes, leader election, health checks, image lookup and the environment: plumbing.
- Real time: polling is a bounded number of attempts. How many polls fit into the time is left open: at least one, and
  at most seven where there are intervals for five.
- Cache staleness, and the race between the event handlers and a pass on shared scratch fields: handlers are one step.
- Event delivery and requeueing: passes are counted, not events; the watches on config maps, secrets and NooBaa.
- Templates: their static contents, resource quantities and the console objects are named constants; JSON, YAML and the
  mail body are not encoded, and the host and port of the mail server are a pair.
- Unmarshalling the NooBaa rules into a spec that is already filled: the model replaces the groups as a whole.
- Fields the API server fills in by itself, such as the cluster IP of a service: a stored object is what was sent.
- Objects are values in the store; the operator's memory has its own copies, so aliasing of cached objects is not shown.
- Labels and annotations that are nil and those that are empty are the same here.
- Lists come in an order that others may change at any time but that a calm server keeps.
- The names of a claim in an annotated empty namespace: such a create is refused and such a claim never exists.
- Reconciler.ManagedMCGReconciler.FindProxyImage: a deployer CSV without its deployment makes the operator panic; here it is an error that ends the pass.
- Reconciler.ManagedMCGReconciler.ReconcileOCSCSV: replica counts are never nil, because the type of a deployment here has a count.
- Reconciler.ManagedMCGReconciler.RemoveManagedMCG: the refreshed status is the one in memory or the stored one as a whole, not a mixture of the two.
- Reconciler.ManagedMCGReconciler.AddManagedMCG: the refreshed status is the one in memory or the stored one as a whole, not a mixture of the two.
