/** The uninstall arms of a pass as functions of the store, when no request fails and nobody else writes. */
module Uninstall {
  import opened Utils
  import opened Cluster
  import opened Config
  import opened States
  import opened Desired
  import opened StrictArm

  function DeleteAll(c: Cluster, items: seq<Item>): Cluster
    decreases |items|
  {
    if items == [] then c else DeleteAll(Exec(c, Delete(items[0].key)).0, items[1..])
  }

  function AllOf(s: Settings, c: Cluster, kind: Kind): seq<Item> {
    ListOf(c, kind, Some(s.namespace))
  }

  function Stripped(noobaa: Object): Object {
    noobaa.(finalizers := Removed(noobaa.finalizers, NOOBAA_FINALIZER))
  }

  /** What happens once no bucket class is left. */
  function DrainedRemoval(s: Settings, c: Cluster, noobaa: Object): Result<Cluster> {
    var stripped := Exec(c, Update(s.NoobaaKey(), Stripped(noobaa)));
    if !stripped.1.Stored? then Err
    else
      var c1 := Exec(stripped.0, Delete(s.NoobaaKey())).0;
      var c2 := DeleteAll(c1, AllOf(s, c1, BackingStore));
      Ok(DeleteAll(c2, AllOf(s, c2, NamespaceStore)))
  }

  /** The store after removeNoobaa, which fails while bucket classes linger on foreign finalizers. */
  function NoobaaRemoval(s: Settings, c: Cluster, noobaa: Object): (Cluster, bool) {
    var c1 := DeleteAll(c, AllOf(s, c, BucketClass));
    if AllOf(s, c1, BucketClass) != [] then (c1, false)
    else
      match DrainedRemoval(s, c1, noobaa)
      case Err => (c1, false)
      case Ok(d) => (d, true)
  }

  /** An object in memory after the API server answered an update of it, which may or may not send the status back. */
  function Decoded(memory: Object, reply: Object, refreshed: bool): Object {
    if refreshed then reply else reply.(status := memory.status)
  }

  function WithStates(s: Settings, c: Cluster, mcg: Object): Object {
    mcg.(status := mcg.status.(components := StatesIn(s, c)))
  }

  /** The store, the ManagedMCG in memory, and whether there was an error, when a pass comes to report the status. */
  datatype End = End(store: Cluster, mcg: Object, err: bool)

  /** The end of a pass over a stamped object; `refreshed` is whether the answer to an update has the status. */
  function StampedEnd(s: Settings, c: Cluster, refreshed: bool): End
    requires s.McgKey() in c.objects
  {
    var k := s.McgKey();
    var m := WithStates(s, c, c.objects[k]);
    if s.NoobaaKey() !in c.objects then Released(s, c, m, refreshed)
    else
      var (d, done) := NoobaaRemoval(s, c, c.objects[s.NoobaaKey()]);
      End(d, m, !done)
  }

  /** The finalizer is taken off the ManagedMCG. */
  function Released(s: Settings, c: Cluster, m: Object, refreshed: bool): End {
    var bare := m.(finalizers := Removed(m.finalizers, FINALIZER));
    OwnUpdate(s, c, bare, refreshed)
  }

  /** An update of the ManagedMCG in memory. */
  function OwnUpdate(s: Settings, c: Cluster, m: Object, refreshed: bool): End {
    match Exec(c, Update(s.McgKey(), m))
    case (d, Stored(reply)) => End(d, Decoded(m, reply, refreshed), false)
    case (d, _) => End(d, m, true)
  }

  predicate LabelIn(s: Settings, c: Cluster) {
    s.AddonConfigMapKey() in c.objects && s.deleteLabel in c.objects[s.AddonConfigMapKey()].labels
  }

  /** The first deployer CSV deleted, if there is one. */
  function OLMRemoved(s: Settings, c: Cluster): Cluster {
    match FirstWithPrefix(AllOf(s, c, CSV), DEPLOYER_CSV_PREFIX)
    case None => c
    case Some(item) => Exec(c, Delete(item.key)).0
  }

  /** A pass over this store requests the deletion of a deployer CSV. */
  predicate CSVDue(s: Settings, c: Cluster) {
    s.McgKey() !in c.objects && LabelIn(s, c) && FirstWithPrefix(AllOf(s, c, CSV), DEPLOYER_CSV_PREFIX).Some?
  }

  /** A pass that finds no ManagedMCG. */
  function GonePass(s: Settings, c: Cluster): Cluster {
    if LabelIn(s, c) then OLMRemoved(s, c) else c
  }

  /** A live ManagedMCG gets the finalizer unless it has it. */
  function Admitted(s: Settings, c: Cluster, m: Object, refreshed: bool): End {
    if FINALIZER in m.finalizers then End(c, m, false)
    else OwnUpdate(s, c, m.(finalizers := m.finalizers + [FINALIZER]), refreshed)
  }

  /** A context once the strategy is chosen and the parameters are read. */
  function WithParams(y: Context, params: map<string, string>): Context {
    y.(mcg := y.mcg.(status := y.mcg.status.(strategy := StrategyOf(y.mcg))), params := params)
  }

  /** All steps but the report; then, where uninstalling has begun and all is ready, the ManagedMCG is deleted. */
  function Provisioned(s: Settings, c: Cluster, y: Context, uninstalling: bool): End {
    match SecretData(c, s.AddonParamsKey())
    case None => End(c, y.mcg, true)
    case Some(params) =>
      var x := WithParams(y, params);
      var (d, err) := ArmRun(s, x, c, RESOURCE_STEPS);
      if err then End(d, y.mcg, true)
      else End(if uninstalling && x.mcg.status.components == ALL_READY then Exec(d, Delete(s.McgKey())).0 else d, x.mcg, false)
  }

  /** What a pass that first looked at `c` holds in memory for its resources. */
  function HeldContext(s: Settings, c: Cluster, mcg: Object): Context {
    Context(mcg, Held(c, s.NoobaaKey()), Held(c, s.PrometheusKey()), Held(c, s.AlertmanagerKey()), map[])
  }

  /** The end of a pass over a live object. */
  function LiveEnd(s: Settings, c: Cluster, refreshed: bool): End
    requires s.McgKey() in c.objects
  {
    var a := Admitted(s, c, WithStates(s, c, c.objects[s.McgKey()]), refreshed);
    if a.err then a else Provisioned(s, a.store, HeldContext(s, c, a.mcg), LabelIn(s, c))
  }

  /** The status is reported whatever happened; an error is an error of either. */
  function Concluded(s: Settings, e: End): (Cluster, bool) {
    var r := Exec(e.store, UpdateStatus(s.McgKey(), e.mcg));
    (r.0, e.err || !r.1.Stored?)
  }

  /** A whole pass: the store it leaves, and whether it returns an error. */
  function PassRun(s: Settings, c: Cluster, refreshed: bool): (Cluster, bool) {
    if s.McgKey() !in c.objects then (GonePass(s, c), false)
    else if c.objects[s.McgKey()].deleting then Concluded(s, StampedEnd(s, c, refreshed))
    else Concluded(s, LiveEnd(s, c, refreshed))
  }

  /** A pass that returns no error. */
  function GoodPass(s: Settings, c: Cluster, refreshed: bool): Option<Cluster> {
    var (d, err) := PassRun(s, c, refreshed);
    if err then None else Some(d)
  }
}
