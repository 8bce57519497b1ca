/** controllers/mcg_bucket.go: object bucket claims that follow the bucket classes. */
module Claims {
  import opened Utils
  import opened Cluster
  import opened Logs

  const OBC_NAMESPACE := "mcgms-obc-namespace"
  const DEFAULT_CLASS := "noobaa-default-bucket-class"
  const READY := "Ready"

  /** One poll at once, one per interval, and perhaps one more when the time is up; slow replies make it fewer. */
  const MOST_CLASS_POLLS := 7

  // Keys and contents

  predicate Annotated(item: Item) {
    OBC_NAMESPACE in item.obj.annotations
  }

  /** The key the delete path computes: a missing annotation reads as the empty namespace. */
  function ClaimKey(item: Item): Key {
    Key(ObjectBucketClaim, Entry(item.obj.annotations, OBC_NAMESPACE), item.key.name)
  }

  /** The key the create path computes: a missing annotation reads as the namespace of the class. */
  function CreationKey(item: Item): Key {
    Key(ObjectBucketClaim,
        if OBC_NAMESPACE in item.obj.annotations then item.obj.annotations[OBC_NAMESPACE] else item.key.namespace,
        item.key.name)
  }

  /** The two paths meet exactly on the annotated classes, or where a class has no namespace either. */
  lemma PathsAgree(item: Item)
    ensures CreationKey(item) == ClaimKey(item) <==> Annotated(item) || item.key.namespace == ""
  {
  }

  /** Within the one watched namespace, different classes have different claims. */
  lemma ClaimKeyInjective(a: Item, b: Item)
    requires a.key.kind == b.key.kind && a.key.namespace == b.key.namespace && ClaimKey(a) == ClaimKey(b)
    ensures a.key == b.key
  {
    assert a.key == Key(a.key.kind, a.key.namespace, a.key.name) && b.key == Key(b.key.kind, b.key.namespace, b.key.name);
  }

  function ClaimSpec(item: Item): Spec {
    Claim(item.key.name, item.key.namespace + ".noobaa.io", item.key.name, item.key.name)
  }

  function DesiredClaim(item: Item, o: Object): Object {
    o.(owner := item.obj.owner, spec := ClaimSpec(item))
  }

  /** What a claim holds that is made, or brought up to date, for a class: names, storage class and owner. */
  predicate HoldsFor(item: Item, o: Object) {
    && o.spec.Claim? && o.owner == item.obj.owner
    && o.spec.bucketName == item.key.name && o.spec.generateName == item.key.name && o.spec.bucketClass == item.key.name
    && o.spec.storageClass == item.key.namespace + ".noobaa.io"
  }

  /** `p` is `o` with what a claim of this class holds, and otherwise the same. */
  predicate ClaimFor(item: Item, o: Object, p: Object) {
    HoldsFor(item, p) && p.(owner := o.owner, spec := o.spec) == o
  }

  lemma DesiredIsClaimFor(item: Item, o: Object)
    ensures forall p :: ClaimFor(item, o, p) <==> p == DesiredClaim(item, o)
  {
  }

  // Effects of the handlers when no call fails

  predicate ShowsReady(resp: Response) {
    resp.Found? && resp.obj.status.phase == "Ready"
  }

  /** The class was ready when it was added, or the last poll found it so. */
  predicate BecameReady(item: Item, polls: seq<Exchange>) {
    item.obj.status.phase == "Ready" || (polls != [] && ShowsReady(Last(polls).resp))
  }

  /** Gets of the class, none if it was ready at once, up to the first that shows it ready or until the time is up. */
  ghost predicate PolledClass(item: Item, polls: seq<Exchange>) {
    && (forall i :: 0 <= i < |polls| ==> polls[i].req == Get(item.key))
    && (forall i :: 0 <= i < |polls| - 1 ==> !ShowsReady(polls[i].resp))
    && (if item.obj.status.phase == "Ready" then polls == [] else 1 <= |polls| <= 7)
  }

  /** Get, then create or update; nothing is written after a failed get, or where the claim is as desired. */
  ghost predicate ClaimBroughtUp(item: Item, k: Key, base: Object, log: seq<Exchange>, err: bool) {
    && 1 <= |log| <= 2 && log[0].req == Get(k)
    && match log[0].resp
       case NotFound =>
         && |log| == 2 && log[1].req.Create? && log[1].req.key == k && ClaimFor(item, base, log[1].req.obj)
         && (err <==> !log[1].resp.Stored?)
       case Found(o) =>
         if ClaimFor(item, o, o) then |log| == 1 && !err
         else
           && |log| == 2 && log[1].req.Update? && log[1].req.key == k && ClaimFor(item, o, log[1].req.obj)
           && (err <==> !log[1].resp.Stored?)
       case _ => |log| == 1 && err
  }

  /** The whole handler: polls, a look for the claim, and its creation unless it was found. */
  ghost predicate AddedLogged(item: Item, polls: seq<Exchange>, log: seq<Exchange>) {
    if !Annotated(item) then polls == [] && log == []
    else
      && PolledClass(item, polls)
      && if !BecameReady(item, polls) then log == polls
         else
           && |polls| < |log| && log[..|polls|] == polls && log[|polls|].req == Get(ClaimKey(item))
           && if log[|polls|].resp.Found? then |log| == |polls| + 1
              else
                || ClaimBroughtUp(item, ClaimKey(item), NEW_OBJECT, log[|polls| + 1..], true)
                || ClaimBroughtUp(item, ClaimKey(item), NEW_OBJECT, log[|polls| + 1..], false)
  }

  /** What create-or-update makes of the claim. */
  function ClaimBrought(c: Cluster, item: Item, k: Key, base: Object): Cluster {
    if k !in c.objects then Exec(c, Create(k, DesiredClaim(item, base))).0
    else if DesiredClaim(item, c.objects[k]) == c.objects[k] then c
    else Exec(c, Update(k, DesiredClaim(item, c.objects[k]))).0
  }

  function AfterAdded(c: Cluster, item: Item, ready: bool): Cluster {
    if !Annotated(item) || !ready || ClaimKey(item) in c.objects then c
    else Exec(c, Create(ClaimKey(item), DesiredClaim(item, NEW_OBJECT))).0
  }

  function AfterDeleted(c: Cluster, item: Item): Cluster {
    if item.key.name == DEFAULT_CLASS then c else Exec(c, Delete(ClaimKey(item))).0
  }

  /** All objects but that of `k` are the same. */
  ghost predicate Apart(c: Cluster, d: Cluster, k: Key) {
    forall j :: j != k ==> (j in c.objects <==> j in d.objects) && (j in c.objects ==> d.objects[j] == c.objects[j])
  }

  /** At most bucket classes differ. */
  ghost predicate OnlyClassesDiffer(c: Cluster, d: Cluster) {
    forall k: Key :: !k.kind.BucketClass? ==> SameAt(c, d, k)
  }

  /**
   The handlers share the reconciler's scratch fields; each runs as one step, but for the polling, during which the
   phases of bucket classes may change. `log` holds all requests and replies.
   */
  class BucketClassHandlers {
    const calm: bool
    var cluster: Cluster
    var objectBucketClaim: Item
    var bucketClass: Item
    ghost var log: seq<Exchange>

    constructor (calm: bool, cluster: Cluster)
      ensures this.calm == calm && this.cluster == cluster && log == []
    {
      this.calm, this.cluster := calm, cluster;
      objectBucketClaim := Item(Key(ObjectBucketClaim, "", ""), NEW_OBJECT);
      bucketClass := Item(Key(BucketClass, "", ""), NEW_OBJECT);
      log := [];
    }

    /** One request. Unless the server is calm it may be refused, or go through while its reply is lost. */
    method Send(req: Request) returns (resp: Response)
      modifies this`cluster, this`log
      ensures log == old(log) + [Exchange(req, resp)]
      ensures cluster == old(cluster) || cluster == Exec(old(cluster), req).0
      ensures resp == Failure || (cluster, resp) == Exec(old(cluster), req)
      ensures calm ==> (cluster, resp) == Exec(old(cluster), req)
    {
      var served: bool, answered: bool := *, *;
      resp := Failure;
      if calm || served {
        var (after, reply) := Exec(cluster, req);
        cluster := after;
        if calm || answered {
          resp := reply;
        }
      }
      log := log + [Exchange(req, resp)];
    }

    /** Between two polls, the phases of bucket classes change. */
    method Wait()
      modifies this`cluster
      ensures OnlyClassesDiffer(old(cluster), cluster)
    {
      var changes: nat := *;
      while 0 < changes
        invariant OnlyClassesDiffer(old(cluster), cluster)
      {
        var k: Key, phase: string := *, *;
        if k.kind.BucketClass? && k in cluster.objects {
          var o := cluster.objects[k];
          cluster := Put(cluster, k, o.(status := o.status.(phase := phase)));
        }
        changes := changes - 1;
      }
    }

    /** Polls until the class is ready or the time is up; a poll that fails is a poll without success. */
    method IsBucketClassCreationSuccess(item: Item) returns (success: bool, ghost polls: seq<Exchange>)
      modifies this`cluster, this`bucketClass, this`log
      ensures OnlyClassesDiffer(old(cluster), cluster)
      ensures log == old(log) + polls && PolledClass(item, polls) && (success <==> BecameReady(item, polls))
    {
      polls := [];
      if item.obj.status.phase == READY {
        return true, polls;
      }
      var fewer: nat := *;
      var limit := if 1 <= fewer <= MOST_CLASS_POLLS then fewer else MOST_CLASS_POLLS;
      for i := 0 to limit
        invariant |polls| == i && log == old(log) + polls && OnlyClassesDiffer(old(cluster), cluster)
        invariant forall k :: 0 <= k < i ==> polls[k].req == Get(item.key) && !ShowsReady(polls[k].resp)
      {
        bucketClass := Item(item.key, NEW_OBJECT);
        Wait();
        var resp := Send(Get(item.key));
        polls := polls + [Exchange(Get(item.key), resp)];
        if resp.Found? {
          bucketClass := Item(item.key, resp.obj);
          if bucketClass.obj.status.phase == READY {
            return true, polls;
          }
        }
      }
      return false, polls;
    }

    method CreateOrUpdateClaim(item: Item) returns (err: bool, ghost sent: seq<Exchange>)
      modifies this`cluster, this`objectBucketClaim, this`log
      ensures Apart(old(cluster), cluster, old(objectBucketClaim).key)
      ensures log == old(log) + sent
      ensures ClaimBroughtUp(item, old(objectBucketClaim).key, old(objectBucketClaim).obj, sent, err)
      ensures calm ==>
        cluster == ClaimBrought(old(cluster), item, old(objectBucketClaim).key, old(objectBucketClaim).obj)
    {
      var k := objectBucketClaim.key;
      var resp := Send(Get(k));
      DesiredIsClaimFor(item, if resp.Found? then resp.obj else objectBucketClaim.obj);
      sent := [Exchange(Get(k), resp)];
      match resp {
        case NotFound =>
          objectBucketClaim := Item(k, DesiredClaim(item, objectBucketClaim.obj));
          var reply := Send(Create(k, objectBucketClaim.obj));
          sent := sent + [Exchange(Create(k, objectBucketClaim.obj), reply)];
          err := !reply.Stored?;
        case Found(o) =>
          objectBucketClaim := Item(k, DesiredClaim(item, o));
          err := false;
          if objectBucketClaim.obj != o {
            var reply := Send(Update(k, objectBucketClaim.obj));
            sent := sent + [Exchange(Update(k, objectBucketClaim.obj), reply)];
            err := !reply.Stored?;
          }
        case _ => err := true;
      }
    }

    /** `waited` is the store when the polling was over. */
    method BucketClassAdded(item: Item) returns (ghost waited: Cluster, ghost polls: seq<Exchange>, ghost sent: seq<Exchange>)
      modifies this
      ensures OnlyClassesDiffer(old(cluster), waited) && Apart(waited, cluster, ClaimKey(item))
      ensures log == old(log) + sent && AddedLogged(item, polls, sent)
      ensures !Annotated(item) || !BecameReady(item, polls) ==> cluster == waited
      ensures calm ==> cluster == AfterAdded(waited, item, BecameReady(item, polls))
    {
      waited, polls, sent := cluster, [], [];
      if OBC_NAMESPACE !in item.obj.annotations {
        return;
      }
      var success;
      success, polls := IsBucketClassCreationSuccess(item);
      waited, sent := cluster, polls;
      if !success {
        return;
      }
      var existing := Send(Get(ClaimKey(item)));
      sent := sent + [Exchange(Get(ClaimKey(item)), existing)];
      if existing.Found? {
        return;
      }
      objectBucketClaim := Item(CreationKey(item), NEW_OBJECT);
      var err;
      ghost var more;
      err, more := CreateOrUpdateClaim(item);
      sent := sent + more;
      assert sent[..|polls|] == polls && sent[|polls| + 1..] == more;
    }

    method BucketClassDeleted(item: Item)
      modifies this`cluster, this`log
      ensures Apart(old(cluster), cluster, ClaimKey(item))
      ensures exists resp :: log == old(log) + [Exchange(Delete(ClaimKey(item)), resp)]
      ensures calm ==> cluster == Exec(old(cluster), Delete(ClaimKey(item))).0
    {
      var resp := Send(Delete(ClaimKey(item)));
    }

    /** The watch on bucket classes: the deletion of the default class is passed over. */
    method OnDelete(item: Item)
      modifies this`cluster, this`log
      ensures Apart(old(cluster), cluster, ClaimKey(item))
      ensures item.key.name == "noobaa-default-bucket-class" ==> cluster == old(cluster) && log == old(log)
      ensures calm ==> cluster == AfterDeleted(old(cluster), item)
    {
      if item.key.name == DEFAULT_CLASS {
        return;
      }
      BucketClassDeleted(item);
    }
  }

  // Runs of events

  /**
   A bucket class was added, having become ready or not, or deleted; or somebody else, such as the provisioner, set the
   finalizers of a claim.
   */
  datatype ClassEvent =
    | Added(item: Item, ready: bool)
    | Removed(item: Item)
    | Refinalized(claim: Key, finalizers: seq<string>)

  predicate AboutClass(e: ClassEvent) {
    e.Added? || e.Removed?
  }

  /** The finalizers of a claim are set; a stamped claim that loses its last one is gone. */
  function AfterRefinalized(c: Cluster, k: Key, finalizers: seq<string>): Cluster {
    if !k.kind.ObjectBucketClaim? || k !in c.objects then c
    else if c.objects[k].deleting && finalizers == [] then Drop(c, k)
    else Put(c, k, c.objects[k].(finalizers := finalizers))
  }

  function AfterEvent(c: Cluster, e: ClassEvent): Cluster {
    match e
    case Added(item, ready) => AfterAdded(c, item, ready)
    case Removed(item) => AfterDeleted(c, item)
    case Refinalized(k, finalizers) => AfterRefinalized(c, k, finalizers)
  }

  function AfterAll(c: Cluster, events: seq<ClassEvent>): Cluster
    decreases |events|
  {
    if events == [] then c else AfterEvent(AfterAll(c, events[..|events| - 1]), Last(events))
  }

  /** All events are about classes of the one watched namespace, and a class never changes its annotation. */
  ghost predicate OneNamespace(namespace: string, events: seq<ClassEvent>) {
    && (forall i :: 0 <= i < |events| && AboutClass(events[i]) ==>
          events[i].item.key.kind.BucketClass? && events[i].item.key.namespace == namespace)
    && (forall i, j :: 0 <= i < |events| && 0 <= j < |events| && AboutClass(events[i]) && AboutClass(events[j])
                       && events[i].item.key == events[j].item.key ==>
          ClaimKey(events[i].item) == ClaimKey(events[j].item) && Annotated(events[i].item) == Annotated(events[j].item))
  }

  /** A store in which nobody has made claims. */
  ghost predicate NoClaims(c: Cluster) {
    WellFormed(c) && forall k: Key :: k in c.objects ==> !k.kind.ObjectBucketClaim?
  }

  /** Event `e` calls for the claim `k`: a class with a usable annotation was added and became ready. */
  predicate Claims(e: ClassEvent, k: Key) {
    e.Added? && e.ready && Annotated(e.item) && ClaimKey(e.item) == k && k.namespace != ""
  }

  /** Event `e` gives the claim `k` up: its class was deleted, and is not the default class. */
  predicate Releases(e: ClassEvent, k: Key) {
    e.Removed? && e.item.key.name != "noobaa-default-bucket-class" && ClaimKey(e.item) == k
  }

  /** Event `e` takes all finalizers off the claim `k`. */
  predicate Frees(e: ClassEvent, k: Key) {
    e == Refinalized(k, [])
  }

  // The life of a claim

  /** A claim is not there, or live, held by a finalizer or not, or stamped and waiting for its finalizers to go. */
  datatype Fate = Absent | Live(held: bool) | Lingering

  function Turned(f: Fate, e: ClassEvent, k: Key): Fate {
    if Claims(e, k) then if f.Absent? then Live(false) else f
    else if Releases(e, k) then
      match f
      case Live(held) => if held then Lingering else Absent
      case _ => f
    else if e.Refinalized? && e.claim == k then
      match f
      case Absent => Absent
      case Live(_) => Live(e.finalizers != [])
      case Lingering => if e.finalizers == [] then Absent else Lingering
    else f
  }

  /** The life of the claim `k` by the events alone. */
  function FateOf(events: seq<ClassEvent>, k: Key): Fate
    decreases |events|
  {
    if events == [] then Absent else Turned(FateOf(events[..|events| - 1], k), Last(events), k)
  }

  /** The store has the claim `k` as its fate says. */
  predicate Shows(c: Cluster, k: Key, f: Fate) {
    match f
    case Absent => k !in c.objects
    case Live(held) => k in c.objects && !c.objects[k].deleting && (c.objects[k].finalizers != [] <==> held)
    case Lingering => k in c.objects && c.objects[k].deleting
  }

  lemma EventKeepsWellFormed(c: Cluster, e: ClassEvent)
    requires WellFormed(c)
    ensures WellFormed(AfterEvent(c, e))
  {
    match e {
      case Added(item, ready) => ExecWellFormed(c, Create(ClaimKey(item), DesiredClaim(item, NEW_OBJECT)));
      case Removed(item) => ExecWellFormed(c, Delete(ClaimKey(item)));
      case Refinalized(_, _) =>
    }
  }

  lemma EventTurnsFate(c: Cluster, e: ClassEvent, k: Key, f: Fate)
    requires WellFormed(c) && k.kind.ObjectBucketClaim? && Shows(c, k, f)
    ensures Shows(AfterEvent(c, e), k, Turned(f, e, k))
  {
    match e {
      case Added(item, ready) =>
      case Removed(item) =>
      case Refinalized(_, _) =>
    }
  }

  /** After any run of events from a store without claims, the store has each claim as its life says. */
  lemma {:induction false} FatesShown(c: Cluster, events: seq<ClassEvent>, k: Key)
    requires NoClaims(c) && k.kind.ObjectBucketClaim?
    ensures WellFormed(AfterAll(c, events)) && Shows(AfterAll(c, events), k, FateOf(events, k))
    decreases |events|
  {
    hide Turned, AfterEvent, WellFormed;
    if events != [] {
      var n := |events| - 1;
      FatesShown(c, events[..n], k);
      EventKeepsWellFormed(AfterAll(c, events[..n]), events[n]);
      EventTurnsFate(AfterAll(c, events[..n]), events[n], k, FateOf(events[..n], k));
    }
  }

  /** Event `i` calls for the claim `k` when no old claim of that key lingers. */
  predicate Deserves(events: seq<ClassEvent>, i: nat, k: Key)
    requires i < |events|
  {
    Claims(events[i], k) && !FateOf(events[..i], k).Lingering?
  }

  /** The claim was called for, with effect, and not given up since. */
  ghost predicate Due(events: seq<ClassEvent>, k: Key) {
    exists i :: 0 <= i < |events| && Deserves(events, i, k) && forall j :: i < j < |events| ==> !Releases(events[j], k)
  }

  lemma DueStep(events: seq<ClassEvent>, k: Key)
    requires events != []
    ensures var n := |events| - 1;
      Due(events, k) <==> Deserves(events, n, k) || (Due(events[..n], k) && !Releases(events[n], k))
  {
    hide Claims, Releases, FateOf;
    var n := |events| - 1;
    var before := events[..n];
    forall i | 0 <= i < n ensures before[..i] == events[..i] && before[i] == events[i] {
    }
    if Due(before, k) && !Releases(events[n], k) {
      var i :| 0 <= i < |before| && Deserves(before, i, k) && forall j :: i < j < |before| ==> !Releases(before[j], k);
      assert Deserves(events, i, k);
      forall j | i < j < |events| ensures !Releases(events[j], k) {
        assert j < n ==> events[j] == before[j];
      }
    }
    if Due(events, k) && !Deserves(events, n, k) {
      var i :| 0 <= i < |events| && Deserves(events, i, k) && forall j :: i < j < |events| ==> !Releases(events[j], k);
      assert Deserves(before, i, k);
      forall j | i < j < |before| ensures !Releases(before[j], k) {
        assert before[j] == events[j];
      }
    }
  }

  lemma {:induction false} LiveIffDue(events: seq<ClassEvent>, k: Key)
    ensures FateOf(events, k).Live? <==> Due(events, k)
    decreases |events|
  {
    if events != [] {
      hide Due;
      LiveIffDue(events[..|events| - 1], k);
      DueStep(events, k);
    }
  }

  /** The claim was given up while it was held, and has not been freed since. */
  ghost predicate Lingers(events: seq<ClassEvent>, k: Key) {
    exists i :: 0 <= i < |events| && Releases(events[i], k) && FateOf(events[..i], k) == Live(true)
                && forall j :: i < j < |events| ==> !Frees(events[j], k)
  }

  lemma LingersStep(events: seq<ClassEvent>, k: Key)
    requires events != []
    ensures var n := |events| - 1;
      Lingers(events, k) <==>
      (Releases(events[n], k) && FateOf(events[..n], k) == Live(true)) || (Lingers(events[..n], k) && !Frees(events[n], k))
  {
    hide Releases, FateOf, Frees;
    var n := |events| - 1;
    var before := events[..n];
    forall i | 0 <= i < n ensures before[..i] == events[..i] && before[i] == events[i] {
    }
    if Lingers(before, k) && !Frees(events[n], k) {
      var i :| 0 <= i < |before| && Releases(before[i], k) && FateOf(before[..i], k) == Live(true)
               && forall j :: i < j < |before| ==> !Frees(before[j], k);
      assert Releases(events[i], k) && FateOf(events[..i], k) == Live(true);
      forall j | i < j < |events| ensures !Frees(events[j], k) {
        assert j < n ==> events[j] == before[j];
      }
    }
    if Lingers(events, k) {
      var i :| 0 <= i < |events| && Releases(events[i], k) && FateOf(events[..i], k) == Live(true)
               && forall j :: i < j < |events| ==> !Frees(events[j], k);
      if i < n {
        assert Releases(before[i], k) && FateOf(before[..i], k) == Live(true);
        forall j | i < j < |before| ensures !Frees(before[j], k) {
          assert before[j] == events[j];
        }
      }
    }
  }

  lemma {:induction false} LingeringIff(events: seq<ClassEvent>, k: Key)
    ensures FateOf(events, k).Lingering? <==> Lingers(events, k)
    decreases |events|
  {
    if events != [] {
      hide Lingers;
      LingeringIff(events[..|events| - 1], k);
      LingersStep(events, k);
    }
  }

  // Claims and classes

  /** Event `i` adds the class, annotated and ready, and finds no old claim lingering. */
  ghost predicate AddedInGoodTime(events: seq<ClassEvent>, i: nat, class_: Key)
    requires i < |events|
  {
    events[i].Added? && events[i].item.key == class_ && Deserves(events, i, ClaimKey(events[i].item))
  }

  /** A live class with a claim: it was added in good time and has not been deleted since. */
  ghost predicate LiveAndReady(events: seq<ClassEvent>, class_: Key) {
    exists i :: 0 <= i < |events| && AddedInGoodTime(events, i, class_)
                && forall j :: i < j < |events| && events[j].Removed? ==> events[j].item.key != class_
  }

  /** The deletion of the default class leaves its claim behind. */
  ghost predicate LeakedDefault(events: seq<ClassEvent>, class_: Key) {
    class_.name == "noobaa-default-bucket-class" && exists i :: 0 <= i < |events| && AddedInGoodTime(events, i, class_)
  }

  /** The claim of the class is called for: by a live and ready class, or by the default class, deleted or not. */
  ghost predicate CalledFor(events: seq<ClassEvent>, item: Item) {
    LiveAndReady(events, item.key) || LeakedDefault(events, item.key)
  }

  lemma SameClass(namespace: string, events: seq<ClassEvent>, i: nat, item: Item)
    requires OneNamespace(namespace, events) && i < |events| && AboutClass(events[i])
    requires exists n :: 0 <= n < |events| && AboutClass(events[n]) && events[n].item == item
    ensures ClaimKey(events[i].item) == ClaimKey(item) <==> events[i].item.key == item.key
  {
    if ClaimKey(events[i].item) == ClaimKey(item) {
      ClaimKeyInjective(events[i].item, item);
    }
  }

  lemma DueIsCalledFor(namespace: string, events: seq<ClassEvent>, item: Item)
    requires OneNamespace(namespace, events) && exists n :: 0 <= n < |events| && AboutClass(events[n]) && events[n].item == item
    requires Due(events, ClaimKey(item))
    ensures CalledFor(events, item)
  {
    var k := ClaimKey(item);
    var i :| 0 <= i < |events| && Deserves(events, i, k) && forall j :: i < j < |events| ==> !Releases(events[j], k);
    SameClass(namespace, events, i, item);
    hide OneNamespace, FateOf;
    assert AddedInGoodTime(events, i, item.key);
    if item.key.name != DEFAULT_CLASS {
      forall j | i < j < |events| && events[j].Removed? ensures events[j].item.key != item.key {
        SameClass(namespace, events, j, item);
        assert !Releases(events[j], k);
      }
    }
  }

  lemma CalledForIsDue(namespace: string, events: seq<ClassEvent>, item: Item)
    requires OneNamespace(namespace, events) && exists n :: 0 <= n < |events| && AboutClass(events[n]) && events[n].item == item
    requires CalledFor(events, item)
    ensures Due(events, ClaimKey(item))
  {
    var k := ClaimKey(item);
    var i :| 0 <= i < |events| && AddedInGoodTime(events, i, item.key)
             && (item.key.name == DEFAULT_CLASS
                 || forall j :: i < j < |events| && events[j].Removed? ==> events[j].item.key != item.key);
    SameClass(namespace, events, i, item);
    hide OneNamespace, FateOf;
    assert Deserves(events, i, k);
    forall j | i < j < |events| ensures !Releases(events[j], k) {
      if Releases(events[j], k) {
        SameClass(namespace, events, j, item);
      }
    }
  }

  /**
   Correspondence, after any run of events from a store without claims, the provisioner's finalizers included: a live
   claim exists exactly if it is the claim of a live annotated class that was ready when it was added, or of the default
   class, and no old claim lingered then; a stamped one exists exactly if it was given up while held and is still.
   */
  lemma ClaimsCorrespond(namespace: string, c: Cluster, events: seq<ClassEvent>, k: Key)
    requires NoClaims(c) && OneNamespace(namespace, events) && k.kind.ObjectBucketClaim?
    ensures var d := AfterAll(c, events);
      && (k in d.objects && !d.objects[k].deleting <==>
            exists n :: 0 <= n < |events| && AboutClass(events[n]) && ClaimKey(events[n].item) == k && CalledFor(events, events[n].item))
      && (k in d.objects && d.objects[k].deleting <==> Lingers(events, k))
  {
    FatesShown(c, events, k);
    LiveIffDue(events, k);
    LingeringIff(events, k);
    hide LiveAndReady, LeakedDefault, OneNamespace, AfterAll, NoClaims, FateOf, Lingers, WellFormed;
    if Due(events, k) {
      var i :| 0 <= i < |events| && Deserves(events, i, k) && forall j :: i < j < |events| ==> !Releases(events[j], k);
      DueIsCalledFor(namespace, events, events[i].item);
    }
    if n :| 0 <= n < |events| && AboutClass(events[n]) && ClaimKey(events[n].item) == k && CalledFor(events, events[n].item) {
      CalledForIsDue(namespace, events, events[n].item);
    }
  }

  /** A class that comes back while its old claim lingers gets none: once that is freed, there is no claim. */
  lemma NoClaimAfterLingering(item: Item, finalizer: string)
    requires Annotated(item) && ClaimKey(item).namespace != "" && item.key.name != DEFAULT_CLASS
    ensures var k := ClaimKey(item);
      FateOf([Added(item, true), Refinalized(k, [finalizer]), Removed(item), Added(item, true), Refinalized(k, [])], k) == Absent
  {
    var k := ClaimKey(item);
    var e := [Added(item, true), Refinalized(k, [finalizer]), Removed(item), Added(item, true), Refinalized(k, [])];
    var e1 := [Added(item, true)];
    var e2 := e1 + [Refinalized(k, [finalizer])];
    var e3 := e2 + [Removed(item)];
    var e4 := e3 + [Added(item, true)];
    assert e1[..0] == [] && e2[..1] == e1 && e3[..2] == e2 && e4[..3] == e3 && e[..4] == e4;
    assert FateOf(e1, k) == Live(false);
    assert FateOf(e2, k) == Live(true);
    assert FateOf(e3, k) == Lingering && FateOf(e4, k) == Lingering;
  }

  // The contents of claims

  /** Event `i` made the claim `k`, which has been there since, and holds what it should for the class of that event. */
  ghost predicate MadeAt(events: seq<ClassEvent>, i: nat, k: Key, o: Object) {
    && i < |events| && Claims(events[i], k) && FateOf(events[..i], k).Absent?
    && (forall j :: i < j <= |events| ==> !FateOf(events[..j], k).Absent?)
    && HoldsFor(events[i].item, o) && k.name == events[i].item.key.name
    && "mcgms-obc-namespace" in events[i].item.obj.annotations
    && k.namespace == events[i].item.obj.annotations["mcgms-obc-namespace"]
  }

  /** An event makes a claim for its class, or leaves the spec and the owner of the claim as they are. */
  lemma EventKeepsContent(c: Cluster, e: ClassEvent, k: Key)
    requires WellFormed(c) && k.kind.ObjectBucketClaim? && k in AfterEvent(c, e).objects
    ensures var o := AfterEvent(c, e).objects[k];
      if k in c.objects then o.spec == c.objects[k].spec && o.owner == c.objects[k].owner
      else
        && Claims(e, k) && HoldsFor(e.item, o) && k.name == e.item.key.name
        && "mcgms-obc-namespace" in e.item.obj.annotations && k.namespace == e.item.obj.annotations["mcgms-obc-namespace"]
  {
  }

  lemma StillMade(events: seq<ClassEvent>, e: ClassEvent, i: nat, k: Key, o: Object, p: Object)
    requires MadeAt(events, i, k, o) && p.spec == o.spec && p.owner == o.owner && !FateOf(events + [e], k).Absent?
    ensures MadeAt(events + [e], i, k, p)
  {
    hide FateOf, Claims;
    var all := events + [e];
    assert all[..i] == events[..i] && all[..|all|] == all;
    forall j | i < j <= |all| ensures !FateOf(all[..j], k).Absent? {
      assert j <= |events| ==> all[..j] == events[..j];
    }
  }

  lemma JustMade(events: seq<ClassEvent>, e: ClassEvent, k: Key, o: Object)
    requires Claims(e, k) && FateOf(events, k).Absent? && !FateOf(events + [e], k).Absent? && HoldsFor(e.item, o)
    requires k.name == e.item.key.name && "mcgms-obc-namespace" in e.item.obj.annotations
    requires k.namespace == e.item.obj.annotations["mcgms-obc-namespace"]
    ensures MadeAt(events + [e], |events|, k, o)
  {
    hide FateOf, Claims;
    var all := events + [e];
    assert all[..|events|] == events && all[..|all|] == all;
  }

  /**
   After any run of events from a store without claims, each claim that is there, live or stamped, was made for a class
   by one of the events, under the name of the class in the namespace of its annotation, and still has that class's
   name as bucket name, generated name and bucket class, its namespace's storage class, and its owner.
   */
  lemma {:induction false} ClaimsHoldTheirClass(c: Cluster, events: seq<ClassEvent>, k: Key) returns (i: nat)
    requires NoClaims(c) && k.kind.ObjectBucketClaim? && k in AfterAll(c, events).objects
    ensures MadeAt(events, i, k, AfterAll(c, events).objects[k])
    decreases |events|
  {
    hide FateOf, AfterEvent, Claims, HoldsFor, MadeAt, Shows;
    NothingAtFirst(c, events, k);
    var before, e := events[..|events| - 1], Last(events);
    assert events == before + [e];
    var d := AfterAll(c, before);
    FatesShown(c, before, k);
    FatesShown(c, events, k);
    ShownIffThere(d, k, FateOf(before, k));
    ShownIffThere(AfterAll(c, events), k, FateOf(events, k));
    EventKeepsContent(d, e, k);
    if k in d.objects {
      i := ClaimsHoldTheirClass(c, before, k);
      StillMade(before, e, i, k, d.objects[k], AfterAll(c, events).objects[k]);
    } else {
      i := |before|;
      JustMade(before, e, k, AfterAll(c, events).objects[k]);
    }
  }

  lemma NothingAtFirst(c: Cluster, events: seq<ClassEvent>, k: Key)
    requires NoClaims(c) && k.kind.ObjectBucketClaim? && k in AfterAll(c, events).objects
    ensures events != []
  {
  }

  lemma ShownIffThere(c: Cluster, k: Key, f: Fate)
    requires Shows(c, k, f)
    ensures k in c.objects <==> !f.Absent?
  {
  }

  // Replays

  lemma IdleAdd(d: Cluster, e: ClassEvent)
    requires WellFormed(d) && e.Added? && (Claims(e, ClaimKey(e.item)) ==> ClaimKey(e.item) in d.objects)
    ensures AfterEvent(d, e) == d
  {
  }

  lemma {:induction false} IdleAdds(d: Cluster, replay: seq<ClassEvent>)
    requires WellFormed(d)
    requires forall i :: 0 <= i < |replay| ==>
      replay[i].Added? && (Claims(replay[i], ClaimKey(replay[i].item)) ==> ClaimKey(replay[i].item) in d.objects)
    ensures AfterAll(d, replay) == d
    decreases |replay|
  {
    hide Claims, AfterEvent, WellFormed;
    if replay != [] {
      IdleAdds(d, replay[..|replay| - 1]);
      IdleAdd(d, replay[|replay| - 1]);
    }
  }

  /** Added classes make the claims they call for, and take none away. */
  lemma AddOnClaim(d: Cluster, e: ClassEvent, k: Key)
    requires WellFormed(d) && e.Added? && k.kind.ObjectBucketClaim?
    ensures k in AfterEvent(d, e).objects <==> k in d.objects || Claims(e, k)
  {
  }

  lemma {:induction false} AddsKeepAndMake(d: Cluster, replay: seq<ClassEvent>, k: Key)
    requires WellFormed(d) && k.kind.ObjectBucketClaim? && forall i :: 0 <= i < |replay| ==> replay[i].Added?
    ensures WellFormed(AfterAll(d, replay))
    ensures k in AfterAll(d, replay).objects <==> k in d.objects || exists i :: 0 <= i < |replay| && Claims(replay[i], k)
    decreases |replay|
  {
    hide Claims, AfterEvent, WellFormed;
    if replay != [] {
      var n := |replay| - 1;
      AddsKeepAndMake(d, replay[..n], k);
      EventKeepsWellFormed(AfterAll(d, replay[..n]), replay[n]);
      AddOnClaim(AfterAll(d, replay[..n]), replay[n], k);
      if i :| 0 <= i < |replay| && Claims(replay[i], k) {
        assert i < n ==> Claims(replay[..n][i], k);
      }
    }
  }

  /** Each claim that a replayed event calls for is there already, live or stamped. */
  ghost predicate AllThere(events: seq<ClassEvent>, replay: seq<ClassEvent>) {
    forall i :: 0 <= i < |replay| && replay[i].Added? && Claims(replay[i], ClaimKey(replay[i].item)) ==>
      Due(events, ClaimKey(replay[i].item)) || Lingers(events, ClaimKey(replay[i].item))
  }

  lemma ThereIff(c: Cluster, events: seq<ClassEvent>, k: Key)
    requires NoClaims(c) && k.kind.ObjectBucketClaim?
    ensures WellFormed(AfterAll(c, events)) && (k in AfterAll(c, events).objects <==> Due(events, k) || Lingers(events, k))
  {
    hide Due, Lingers, NoClaims, AfterAll, FateOf;
    FatesShown(c, events, k);
    LiveIffDue(events, k);
    LingeringIff(events, k);
  }

  /**
   After a restart the classes that are there are added once more, in whatever state they are by then. That changes
   nothing in the store if and only if every claim they call for is there already; a class that became ready only later
   than its last poll gets its claim now.
   */
  lemma ReplayChangesNothing(c: Cluster, events: seq<ClassEvent>, replay: seq<ClassEvent>)
    requires NoClaims(c) && forall i :: 0 <= i < |replay| ==> replay[i].Added?
    ensures AfterAll(AfterAll(c, events), replay) == AfterAll(c, events) <==> AllThere(events, replay)
  {
    hide Claims, Due, Lingers, NoClaims, AfterAll, WellFormed;
    var d := AfterAll(c, events);
    forall i | 0 <= i < |replay|
      ensures var k := ClaimKey(replay[i].item); k in d.objects <==> Due(events, k) || Lingers(events, k)
    {
      ThereIff(c, events, ClaimKey(replay[i].item));
    }
    ThereIff(c, events, Key(ObjectBucketClaim, "", ""));
    if AllThere(events, replay) {
      IdleAdds(d, replay);
    } else {
      var i :| 0 <= i < |replay| && Claims(replay[i], ClaimKey(replay[i].item)) && ClaimKey(replay[i].item) !in d.objects;
      AddsKeepAndMake(d, replay, ClaimKey(replay[i].item));
    }
  }

  /** A past add event that found no old claim lingering, and whose class has not been deleted since. */
  ghost predicate StillLive(events: seq<ClassEvent>, e: ClassEvent) {
    e.Added? && exists i :: 0 <= i < |events| && events[i] == e && !FateOf(events[..i], ClaimKey(e.item)).Lingering?
                            && forall j :: i < j < |events| && events[j].Removed? ==> events[j].item.key != e.item.key
  }

  lemma LiveIsDue(namespace: string, events: seq<ClassEvent>, e: ClassEvent)
    requires OneNamespace(namespace, events) && StillLive(events, e) && Claims(e, ClaimKey(e.item))
    ensures Due(events, ClaimKey(e.item))
  {
    var i :| 0 <= i < |events| && events[i] == e && !FateOf(events[..i], ClaimKey(e.item)).Lingering?
             && forall j :: i < j < |events| && events[j].Removed? ==> events[j].item.key != e.item.key;
    hide OneNamespace, FateOf;
    assert AddedInGoodTime(events, i, e.item.key);
    CalledForIsDue(namespace, events, e.item);
  }

  /** Replaying add events of classes that are still there, as after a restart, changes nothing in the store. */
  lemma ReplayOfLiveClasses(namespace: string, c: Cluster, events: seq<ClassEvent>, replay: seq<ClassEvent>)
    requires NoClaims(c) && OneNamespace(namespace, events)
    requires forall i :: 0 <= i < |replay| ==> StillLive(events, replay[i])
    ensures AfterAll(AfterAll(c, events), replay) == AfterAll(c, events)
  {
    forall i | 0 <= i < |replay| ensures replay[i].Added? {
      assert StillLive(events, replay[i]);
    }
    hide StillLive, OneNamespace, NoClaims, Claims, Due, AfterAll, Lingers;
    forall i | 0 <= i < |replay| && Claims(replay[i], ClaimKey(replay[i].item)) ensures Due(events, ClaimKey(replay[i].item)) {
      LiveIsDue(namespace, events, replay[i]);
    }
    ReplayChangesNothing(c, events, replay);
  }

  /** Handling one class leaves the claim of every other class of the namespace alone. */
  lemma ClaimsDoNotInterfere(c: Cluster, e: ClassEvent, other: Item)
    requires AboutClass(e) && other.key.kind == e.item.key.kind && other.key.namespace == e.item.key.namespace
    requires other.key != e.item.key
    ensures SameAt(c, AfterEvent(c, e), ClaimKey(other))
  {
    if ClaimKey(other) == ClaimKey(e.item) {
      ClaimKeyInjective(other, e.item);
    }
  }
}
