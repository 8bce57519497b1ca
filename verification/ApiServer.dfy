/**
 The operator's connection to the API server.

 `Do` sends one request. Unless the server is `calm`, others may write any number of times before the request is
 served, and the request may be refused or lose its reply. `run` records all that ever happened, `view` what the
 current pass has learned, its log included. A crash is a pass whose remaining requests are all refused.
 */
module ApiServer {
  import opened Utils
  import opened Cluster
  import opened Config
  import opened Protocol

  /** The shapes a reply can have: stored objects carry a uid and a version, and lists hold what was asked for. */
  ghost predicate Fits(req: Request, resp: Response) {
    resp.Failure? ||
    match req
    case Get(_) => resp.NotFound? || (resp.Found? && 0 < resp.obj.uid && 0 < resp.obj.rv)
    case List(kind, scope) =>
      resp.Items? && forall i :: 0 <= i < |resp.items| ==> Matches(resp.items[i].key, kind, scope)
    case Create(_, _) => resp.Stored? || resp.AlreadyExists? || resp.Invalid?
    case Update(_, _) => (resp.Stored? && 0 < resp.obj.uid) || resp.NotFound? || resp.Conflict?
    case UpdateStatus(_, _) => resp.Stored? || resp.NotFound? || resp.Conflict?
    case Delete(_) => resp.Done? || resp.NotFound?
  }

  /**
   An object that still has the version seen first is the one seen first: a second get returns it, and an update based
   on it is answered with its uid.
   */
  predicate Repeats(v: View, req: Request, resp: Response) {
    && (req.Get? && req.key in v.seen && v.seen[req.key].Found? && resp.Found? && resp.obj.rv == v.seen[req.key].obj.rv ==>
          resp == v.seen[req.key])
    && (req.Update? && req.key in v.seen && v.seen[req.key].Found? && resp.Stored? && req.obj.rv == v.seen[req.key].obj.rv ==>
          resp.obj.uid == v.seen[req.key].obj.uid)
  }

  lemma ReplyFits(c: Cluster, req: Request)
    requires WellFormed(c)
    ensures Fits(req, Exec(c, req).1)
  {
    match req {
      case List(kind, scope) =>
        var items := ListOf(c, kind, scope);
        forall i | 0 <= i < |items| ensures Matches(items[i].key, kind, scope) {
          SelectExact(c.objects, c.order, kind, scope, items[i]);
        }
      case _ =>
    }
  }

  lemma ReplyRepeats(s: Settings, c: Cluster, v: View, req: Request)
    requires WellFormed(c) && Remembers(c, v) && SeenLogged(v)
    ensures Repeats(v, req, Exec(c, req).1)
  {
    if (req.Get? || req.Update?) && req.key in v.seen && v.seen[req.key].Found? {
      RememberedSeen(c, v, req.key);
    }
  }

  lemma ReplyIsSound(s: Settings, r: Run, req: Request, fate: Fate)
    requires IsRun(s, r)
    ensures Fits(req, Reply(Last(r.states), req, fate)) && Repeats(Last(r.views), req, Reply(Last(r.states), req, fate))
  {
    RunKeepsInv(s, r, |r.events|);
    WellFormedFact(PassSettings(s, Last(r.views).mode), Last(r.states), Last(r.views));
    hide IsRun, Facts, Remembers, SeenLogged, WellFormed, Exec;
    ReplyFits(Last(r.states), req);
    ReplyRepeats(s, Last(r.states), Last(r.views), req);
  }

  class Server {
    const settings: Settings
    const calm: bool
    var cluster: Cluster
    ghost var run: Run
    ghost var view: View

    ghost predicate Valid()
      reads this
    {
      && IsRun(settings, run)
      && cluster == Last(run.states)
      && view == Last(run.views)
    }

    constructor (settings: Settings, calm: bool, start: Cluster)
      requires Initial(settings, start)
      ensures Valid() && this.settings == settings && this.calm == calm && cluster == start
    {
      this.settings, this.calm, this.cluster := settings, calm, start;
      run, view := Run([], [start], [Fresh(Idle)]), Fresh(Idle);
    }

    method Start(mode: Mode)
      requires Valid()
      modifies this
      ensures Valid() && view == Fresh(mode) && cluster == old(cluster)
      ensures old(run.events) <= run.events
    {
      ExtendIsRun(settings, run, Begin(mode));
      run, view := Extend(settings, run, Begin(mode)), Fresh(mode);
    }

    /** Anybody else's writes, as many and whichever they like. */
    method Interfere()
      requires Valid()
      modifies this
      ensures Valid() && view == old(view)
      ensures old(run.events) <= run.events
    {
      var n: nat := *;
      while 0 < n
        invariant Valid() && view == old(view)
        invariant old(run.events) <= run.events
      {
        var a: Outside := *;
        if Permitted(settings, cluster, a) {
          ExtendIsRun(settings, run, Env(a));
          run, cluster := Extend(settings, run, Env(a)), Apply(cluster, a);
        }
        n := n - 1;
      }
    }

    method Do(req: Request) returns (resp: Response)
      requires Valid() && Allowed(PassSettings(settings, view.mode), view, req)
      modifies this
      ensures Valid() && Fits(req, resp) && Repeats(old(view), req, resp)
      ensures view == Observe(PassSettings(settings, old(view).mode), old(view), req, resp)
      ensures old(run.events) <= run.events
      ensures calm ==> (cluster, resp) == Exec(old(cluster), req)
    {
      hide Observe, Allowed, Permitted, Fits, Repeats, Exec;
      var fate := Served;
      if !calm {
        Interfere();
        fate := *;
      }
      resp := Reply(cluster, req, fate);
      ReplyIsSound(settings, run, req, fate);
      var e := Call(req, fate, resp);
      ExtendIsRun(settings, run, e);
      run, view := Extend(settings, run, e), Observe(PassSettings(settings, view.mode), view, req, resp);
      cluster := Effect(cluster, req, fate);
    }
  }
}
