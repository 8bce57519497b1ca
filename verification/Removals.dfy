/** What removeNoobaa asks for, in which order, and how much of it when it fails. */
module Removals {
  import opened Utils
  import opened Cluster
  import opened Config
  import opened Logs
  import opened Contracts

  /** The writes among the exchanges, in their order. */
  function WritesOf(log: seq<Exchange>): seq<Request> {
    if log == [] then []
    else (if IsRead(log[0]) then [] else [log[0].req]) + WritesOf(log[1..])
  }

  lemma {:induction false} WritesSplit(a: seq<Exchange>, b: seq<Exchange>)
    ensures WritesOf(a + b) == WritesOf(a) + WritesOf(b)
  {
    if a == [] {
      assert a + b == b;
    } else {
      assert (a + b)[1..] == a[1..] + b;
      WritesSplit(a[1..], b);
    }
  }

  function DeletionsOf(items: seq<Item>): seq<Request> {
    seq(|items|, i requires 0 <= i < |items| => Delete(items[i].key))
  }

  /** The objects that a sweep found on its list; none if it did not come to a list. */
  function ListedBy(log: seq<Exchange>): seq<Item> {
    if log != [] && log[0].resp.Items? then log[0].resp.items else []
  }

  /** All that a removal is to write, as far as its lists are known: classes, NooBaa, backing and namespace stores. */
  function Plan(s: Settings, stripped: Object, r: Removal): seq<Request> {
    DeletionsOf(ListedBy(r.classes))
    + ([Update(s.NoobaaKey(), stripped), Delete(s.NoobaaKey())]
       + (DeletionsOf(ListedBy(r.backing)) + DeletionsOf(ListedBy(r.spaces))))
  }

  lemma {:induction false} OnlyDeletes(log: seq<Exchange>, items: seq<Item>)
    requires |log| <= |items| && forall i :: 0 <= i < |log| ==> log[i].req == Delete(items[i].key)
    ensures WritesOf(log) == DeletionsOf(items)[..|log|]
  {
    if log != [] {
      OnlyDeletes(log[1..], items[1..]);
      assert DeletionsOf(items) == [Delete(items[0].key)] + DeletionsOf(items[1..]);
    }
  }

  /** A sweep writes a prefix of the deletions of what it listed; once done, all of them. */
  lemma SweepWrites(s: Settings, kind: Kind, log: seq<Exchange>, done: bool)
    requires Swept(s, kind, log, done)
    ensures WritesOf(log) <= DeletionsOf(ListedBy(log))
    ensures done ==> WritesOf(log) == DeletionsOf(ListedBy(log))
  {
    if log[0].resp.Items? {
      var rest := log[1..];
      forall i | 0 <= i < |rest| ensures rest[i].req == Delete(ListedBy(log)[i].key) {
        assert rest[i] == log[i + 1];
      }
      OnlyDeletes(rest, ListedBy(log));
    } else {
      assert log[1..] == [];
    }
  }

  lemma {:induction false} ReadsWriteNothing(log: seq<Exchange>)
    requires OnlyRead(log)
    ensures WritesOf(log) == []
  {
    if log != [] {
      ReadsWriteNothing(log[1..]);
    }
  }

  lemma StrikeWrites(s: Settings, stripped: Object, log: seq<Exchange>, done: bool)
    requires Struck(s, stripped, log, done)
    ensures WritesOf(log) <= [Update(s.NoobaaKey(), stripped), Delete(s.NoobaaKey())]
    ensures done ==> WritesOf(log) == [Update(s.NoobaaKey(), stripped), Delete(s.NoobaaKey())]
  {
    assert WritesOf(log) == [log[0].req] + WritesOf(log[1..]);
    if |log| == 2 {
      assert WritesOf(log[1..]) == [log[1].req] + WritesOf(log[1..][1..]);
    }
  }

  lemma AllWrites(r: Removal)
    ensures WritesOf(r.All()) == WritesOf(r.classes) + WritesOf(r.polls) + (WritesOf(r.strip) + (WritesOf(r.backing) + WritesOf(r.spaces)))
  {
    hide WritesOf;
    WritesSplit(r.classes, r.polls);
    WritesSplit(r.classes + r.polls, r.strip);
    WritesSplit(r.classes + r.polls + r.strip, r.backing);
    WritesSplit(r.classes + r.polls + r.strip + r.backing, r.spaces);
  }

  /** Prefixes add up if the second starts only after the first is complete. */
  lemma PrefixesAdd<T>(a: seq<T>, a': seq<T>, b: seq<T>, b': seq<T>)
    requires a <= a' && b <= b' && (a == a' || b == [])
    ensures a + b <= a' + b'
  {
  }

  lemma StoresFollowPlan(s: Settings, r: Removal, err: bool)
    requires if r.backing == [] then r.spaces == [] else Swept(s, BackingStore, r.backing, r.spaces != [])
    requires if r.spaces == [] then err else Swept(s, NamespaceStore, r.spaces, !err)
    ensures var w, p := WritesOf(r.backing) + WritesOf(r.spaces), DeletionsOf(ListedBy(r.backing)) + DeletionsOf(ListedBy(r.spaces));
      && w <= p && (r.backing == [] ==> w == []) && (!err ==> w == p && r.backing != [])
  {
    if r.backing != [] {
      SweepWrites(s, BackingStore, r.backing, r.spaces != []);
    }
    if r.spaces != [] {
      SweepWrites(s, NamespaceStore, r.spaces, !err);
    }
    hide Swept;
    PrefixesAdd(WritesOf(r.backing), DeletionsOf(ListedBy(r.backing)), WritesOf(r.spaces), DeletionsOf(ListedBy(r.spaces)));
  }

  lemma DrainedFollowsPlan(s: Settings, stripped: Object, r: Removal, err: bool)
    requires StoresInOrder(s, stripped, r, err)
    ensures var strike := [Update(s.NoobaaKey(), stripped), Delete(s.NoobaaKey())];
      var w := WritesOf(r.strip) + (WritesOf(r.backing) + WritesOf(r.spaces));
      var p := strike + (DeletionsOf(ListedBy(r.backing)) + DeletionsOf(ListedBy(r.spaces)));
      w <= p && (!err ==> w == p)
  {
    StrikeWrites(s, stripped, r.strip, r.backing != []);
    StoresFollowPlan(s, r, err);
    hide Swept, Struck, WritesOf, DeletionsOf;
    PrefixesAdd(WritesOf(r.strip), [Update(s.NoobaaKey(), stripped), Delete(s.NoobaaKey())],
                WritesOf(r.backing) + WritesOf(r.spaces), DeletionsOf(ListedBy(r.backing)) + DeletionsOf(ListedBy(r.spaces)));
  }

  /**
   On failure the writes of a removal are a prefix of its plan: nothing is skipped and nothing comes early. Without an
   error they are the whole plan.
   */
  lemma RemovalFollowsPlan(s: Settings, stripped: Object, r: Removal, err: bool)
    requires InOrder(s, stripped, r, err)
    ensures WritesOf(r.All()) <= Plan(s, stripped, r)
    ensures !err ==> WritesOf(r.All()) == Plan(s, stripped, r)
  {
    hide StoresInOrder;
    AllWrites(r);
    SweepWrites(s, BucketClass, r.classes, r.polls != []);
    ReadsWriteNothing(r.polls);
    var later := WritesOf(r.strip) + (WritesOf(r.backing) + WritesOf(r.spaces));
    var planned := [Update(s.NoobaaKey(), stripped), Delete(s.NoobaaKey())]
                   + (DeletionsOf(ListedBy(r.backing)) + DeletionsOf(ListedBy(r.spaces)));
    if r.strip != [] {
      DrainedFollowsPlan(s, stripped, r, err);
    }
    hide Swept, DeletionsOf, Polled;
    PrefixesAdd(WritesOf(r.classes), DeletionsOf(ListedBy(r.classes)), later, planned);
  }

  /** Part of the log lists the objects of this kind in the namespace, and the list came. */
  predicate ListCame(s: Settings, kind: Kind, log: seq<Exchange>) {
    log != [] && log[0].req == List(kind, Some(s.namespace)) && log[0].resp.Items?
  }

  /**
   Without an error, bucket classes, backing stores and namespace stores were listed, the deletion of every object on
   those lists was accepted, and so were the update and the deletion of NooBaa.
   */
  lemma RemovalIsComplete(s: Settings, stripped: Object, r: Removal)
    requires InOrder(s, stripped, r, false)
    ensures ListCame(s, BucketClass, r.classes) && ListCame(s, BackingStore, r.backing) && ListCame(s, NamespaceStore, r.spaces)
    ensures |r.strip| == 2 && r.strip[0].resp.Stored? && Accepts(r.strip[1])
    ensures r.strip[0].req == Update(Key(NooBaa, s.namespace, "noobaa"), stripped)
    ensures r.strip[1].req == Delete(Key(NooBaa, s.namespace, "noobaa"))
    ensures forall item :: item in ListedBy(r.classes) || item in ListedBy(r.backing) || item in ListedBy(r.spaces) ==>
      exists i :: 0 <= i < |r.All()| && r.All()[i].req == Delete(item.key) && Accepts(r.All()[i])
  {
    forall item | item in ListedBy(r.classes) || item in ListedBy(r.backing) || item in ListedBy(r.spaces)
      ensures exists e :: e in r.All() && e.req == Delete(item.key) && Accepts(e)
    {
      if item in ListedBy(r.classes) {
        SweepAccepted(s, BucketClass, r.classes, item);
      } else if item in ListedBy(r.backing) {
        SweepAccepted(s, BackingStore, r.backing, item);
      } else {
        SweepAccepted(s, NamespaceStore, r.spaces, item);
      }
    }
  }

  lemma SweepAccepted(s: Settings, kind: Kind, log: seq<Exchange>, item: Item)
    requires Swept(s, kind, log, true) && item in ListedBy(log)
    ensures exists e :: e in log && e.req == Delete(item.key) && Accepts(e)
  {
    var i :| 0 <= i < |ListedBy(log)| && ListedBy(log)[i] == item;
    assert log[i + 1] in log && log[i + 1].req == Delete(item.key);
  }
}
