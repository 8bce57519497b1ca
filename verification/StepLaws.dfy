/** What single steps of the strict arm guarantee. */
module StepLaws {
  import opened Utils
  import opened Cluster
  import opened Config
  import opened Desired
  import opened StrictArm
  import opened Logs
  import opened Convergence

  // The default store

  /** Some listed object's name has the prefix. */
  predicate NamedFrom(items: seq<Item>, prefix: string) {
    exists i :: 0 <= i < |items| && prefix <= items[i].key.name
  }

  /** Some listed object has the name. */
  predicate Named(items: seq<Item>, name: string) {
    exists i :: 0 <= i < |items| && items[i].key.name == name
  }

  /** None without stores; the constant where a store has the prefix; otherwise the first that is listed. */
  lemma DefaultStoreValues(items: seq<Item>)
    requires forall i :: 0 <= i < |items| ==> items[i].key.name != ""
    ensures DefaultStore(items) == "" <==> items == []
    ensures NamedFrom(items, DEFAULT_STORE) ==> DefaultStore(items) == DEFAULT_STORE
    ensures items != [] && !NamedFrom(items, DEFAULT_STORE) ==> DefaultStore(items) == items[0].key.name
  {
    PrefixFoundIff(items, DEFAULT_STORE);
  }

  /** The store that is chosen exists exactly if one has the very name of the constant, or none has it as a prefix. */
  lemma DefaultStoreExistsIff(items: seq<Item>)
    requires items != []
    ensures Named(items, DefaultStore(items)) <==> Named(items, DEFAULT_STORE) || !NamedFrom(items, DEFAULT_STORE)
  {
    PrefixFoundIff(items, DEFAULT_STORE);
    if !NamedFrom(items, DEFAULT_STORE) {
      assert items[0].key.name == DefaultStore(items);
    }
  }

  /** The first listed object whose name has the prefix. */
  predicate FirstNamedFrom(items: seq<Item>, prefix: string, item: Item) {
    exists i :: 0 <= i < |items| && items[i] == item && prefix <= items[i].key.name
                && forall j :: 0 <= j < i ==> !(prefix <= items[j].key.name)
  }

  lemma {:induction false} FirstWithPrefixIs(items: seq<Item>, prefix: string)
    ensures match FirstWithPrefix(items, prefix)
            case None => !NamedFrom(items, prefix)
            case Some(item) => FirstNamedFrom(items, prefix, item)
  {
    if items != [] && !(prefix <= items[0].key.name) {
      FirstWithPrefixIs(items[1..], prefix);
      if item :| FirstWithPrefix(items[1..], prefix) == Some(item) {
        var i :| 0 <= i < |items[1..]| && items[1..][i] == item && prefix <= items[1..][i].key.name
                 && forall j :: 0 <= j < i ==> !(prefix <= items[1..][j].key.name);
        assert items[i + 1] == item;
        forall j | 0 <= j < i + 1 ensures !(prefix <= items[j].key.name) {
          assert j > 0 ==> items[j] == items[1..][j - 1];
        }
      }
      if i :| 0 <= i < |items| && prefix <= items[i].key.name {
        assert items[1..][i - 1] == items[i];
      }
    }
  }

  lemma PrefixFoundIff(items: seq<Item>, prefix: string)
    ensures FirstWithPrefix(items, prefix).Some? <==> NamedFrom(items, prefix)
  {
    if i :| 0 <= i < |items| && prefix <= items[i].key.name {
      PrefixFound(items, i, prefix);
    }
    if FirstWithPrefix(items, prefix).Some? {
      FoundHasPrefix(items, prefix);
    }
  }

  lemma {:induction false} FoundHasPrefix(items: seq<Item>, prefix: string)
    requires FirstWithPrefix(items, prefix).Some?
    ensures NamedFrom(items, prefix)
  {
    if !(prefix <= items[0].key.name) {
      FoundHasPrefix(items[1..], prefix);
      var i :| 0 <= i < |items[1..]| && prefix <= items[1..][i].key.name;
      assert items[i + 1] == items[1..][i];
    }
  }

  lemma {:induction false} PrefixFound(items: seq<Item>, i: nat, prefix: string)
    requires i < |items| && prefix <= items[i].key.name
    ensures FirstWithPrefix(items, prefix).Some?
  {
    if i > 0 && !(prefix <= items[0].key.name) {
      PrefixFound(items[1..], i - 1, prefix);
    }
  }

  /** The constant may name no store at all. */
  lemma DefaultStoreNeedNotExist(k: Key, o: Object)
    requires k.name == "noobaa-default-backing-store-2"
    ensures DefaultStore([Item(k, o)]) == DEFAULT_STORE != k.name
  {
    assert |k.name| > |DEFAULT_STORE|;
    assert DEFAULT_STORE <= k.name;
  }

  /**
   A default store that is set is overwritten in just one case: the annotations noted at the start of the pass do not
   have it, as when NooBaa could not be read then, and the stores at hand suggest another one.
   */
  lemma DefaultStoreOverwritten(snapshot: map<string, string>, defaultStore: string, o: Object)
    requires Entry(o.annotations, DEFAULT_STORE_ANNOTATION) != ""
    ensures Entry(NoobaaWanted(snapshot, defaultStore, o).annotations, DEFAULT_STORE_ANNOTATION) !=
            Entry(o.annotations, DEFAULT_STORE_ANNOTATION) <==>
            && Entry(snapshot, DEFAULT_STORE_ANNOTATION) == ""
            && defaultStore != "" && defaultStore != Entry(o.annotations, DEFAULT_STORE_ANNOTATION)
  {
  }

  /** After a failed read of NooBaa, a pass replaces the store the user chose. */
  lemma DefaultStoreLostAfterFailedRead(o: Object)
    requires o.annotations == map[DEFAULT_STORE_ANNOTATION := "chosen"]
    ensures NoobaaWanted(NEW_OBJECT.annotations, "other", o).annotations[DEFAULT_STORE_ANNOTATION] == "other"
  {
  }

  // The OCS operator

  /**
   With NooBaa ready, success means that the first CSV with the prefix has its three deployments at zero and is
   otherwise as it was, as is every other object; the store changes only if some count was not zero, and a second run
   changes nothing.
   */
  lemma OcsScaledDown(s: Settings, x: Context, c: Cluster)
    requires WellFormed(c) && NoobaaIsReady(x) && OcsScaled(s, x, c).Some?
    ensures FirstWithPrefix(ListOf(c, CSV, Some(s.namespace)), OCS_CSV_PREFIX).Some?
    ensures var d := OcsScaled(s, x, c).value;
      var item := FirstWithPrefix(ListOf(c, CSV, Some(s.namespace)), OCS_CSV_PREFIX).value;
      var before := DeploymentsOf(item.obj);
      && item.key in c.objects && item.obj == c.objects[item.key] && item.key in d.objects
      && ScaledDown(before, DeploymentsOf(d.objects[item.key]))
      && SameContent(d.objects[item.key].(spec := item.obj.spec), item.obj)
      && (forall k :: k != item.key ==> SameAt(c, d, k))
      && (d != c <==> SomeToStop(before))
      && OcsScaled(s, x, d) == Some(d)
  {
    var item := FirstWithPrefix(ListOf(c, CSV, Some(s.namespace)), OCS_CSV_PREFIX).value;
    FirstByKey(c.objects, c.order, CSV, Some(s.namespace), OCS_CSV_PREFIX);
    OcsOneWrite(s, c, item.key);
    OcsShape(s, x, c);
  }

  lemma OcsOneWrite(s: Settings, c: Cluster, k: Key)
    requires WellFormed(c) && k in c.objects
    ensures var o := c.objects[k];
      var ds := DeploymentsOf(o);
      var d := if Downscaled(ds) == ds then Some(c) else Accepted(Exec(c, Update(k, o.(spec := Deployments(Downscaled(ds))))));
      d.Some? ==>
        && k in d.value.objects && ScaledDown(ds, DeploymentsOf(d.value.objects[k]))
        && SameContent(d.value.objects[k].(spec := o.spec), o)
        && (forall j :: j != k ==> SameAt(c, d.value, j))
        && (d.value != c <==> SomeToStop(ds))
  {
    var ds := DeploymentsOf(c.objects[k]);
    DownscaledDiffers(ds);
  }

  /**
   What the step sends, on any server: with NooBaa ready a list, and for the first listed OCS CSV an update exactly if
   one of the three deployments is not at zero, which puts them there; without such a CSV it fails.
   */
  lemma OcsSends(s: Settings, x: Context, log: seq<Exchange>, err: bool)
    requires OcsLogged(s, x, log, err) && x.mcg.status.components.noobaa.Ready?
    ensures 1 <= |log| <= 2 && log[0].req == List(CSV, Some(s.namespace))
    ensures !NamedFrom(ItemsIn(log[0].resp), "ocs-operator") ==> err && |log| == 1
    ensures forall item :: FirstNamedFrom(ItemsIn(log[0].resp), "ocs-operator", item) ==>
      && (|log| == 2 <==> SomeToStop(DeploymentsOf(item.obj))) && (err <==> |log| == 2 && !log[1].resp.Stored?)
      && (|log| == 2 ==>
            && log[1].req.Update? && log[1].req.key == item.key && log[1].req.obj.spec.Deployments?
            && ScaledDown(DeploymentsOf(item.obj), log[1].req.obj.spec.deployments)
            && log[1].req.obj.(spec := item.obj.spec) == item.obj)
  {
    var items := ItemsIn(log[0].resp);
    FirstWithPrefixIs(items, "ocs-operator");
    hide FirstWithPrefix, Downscaled, SomeToStop, ScaledDown;
    if first :| FirstWithPrefix(items, "ocs-operator") == Some(first) {
      forall item | FirstNamedFrom(items, "ocs-operator", item) ensures item == first {
      }
      DownscaledDiffers(DeploymentsOf(first.obj));
    }
  }

  lemma DownscaledDiffers(ds: seq<DeploymentSpec>)
    ensures ScaledDown(ds, Downscaled(ds))
    ensures Downscaled(ds) != ds <==> SomeToStop(ds)
  {
    if i :| 0 <= i < |ds| && ToStop(ds[i]) && ds[i].replicas != 0 {
      assert Downscaled(ds)[i] != ds[i];
    }
    if !SomeToStop(ds) {
      forall i | 0 <= i < |ds| ensures Downscaled(ds)[i] == ds[i] {
        assert ToStop(ds[i]) ==> ds[i].replicas == 0;
      }
    }
  }

  // The monitoring label

  predicate Foreign(k: Key) {
    k.kind.PrometheusRule? && k.name == "noobaa-prometheus-rules"
  }

  predicate HasMonitoringLabel(o: Object) {
    "app" in o.labels && o.labels["app"] == "managed-mcg"
  }

  /** The watch on rules lets those through that do not carry the label. */
  predicate RuleWatched(o: Object) {
    "app" !in o.labels || o.labels["app"] != "managed-mcg"
  }

  /** The label is there exactly where it should be, other labels and all else are as they were. */
  predicate LabelledFrom(k: Key, o: Object, p: Object) {
    && (HasMonitoringLabel(p) <==> !Foreign(k))
    && p.labels - {"app"} == o.labels - {"app"}
    && p.annotations == o.annotations && p.spec == o.spec && p.owner == o.owner && KeepsIdentity(o, p)
    && (Foreign(k) && !HasMonitoringLabel(o) ==> p.labels == o.labels)
  }

  lemma LabelOneLaw(item: Item, p: Object)
    requires p.(rv := 0) == Labelled(item).(rv := 0)
    ensures LabelledFrom(item.key, item.obj, p)
  {
    var l := item.obj.labels;
    assert l[MON_LABEL_KEY := MON_LABEL_VALUE] - {MON_LABEL_KEY} == l - {MON_LABEL_KEY};
    assert (l - {MON_LABEL_KEY}) - {MON_LABEL_KEY} == l - {MON_LABEL_KEY};
  }

  ghost predicate Done(c: Cluster, item: Item) {
    item.key in c.objects && c.objects[item.key].(rv := 0) == Labelled(item).(rv := 0)
  }

  /** The item is stored as it was listed. */
  ghost predicate Pristine(c: Cluster, item: Item) {
    item.key in c.objects && c.objects[item.key] == item.obj
  }

  lemma UpdateElsewhere(c: Cluster, item: Item, other: Item)
    requires item.key != other.key && Accepted(Exec(c, Update(other.key, Labelled(other)))).Some?
    ensures SameAt(c, Accepted(Exec(c, Update(other.key, Labelled(other)))).value, item.key)
  {
  }

  lemma UpdateHere(c: Cluster, item: Item)
    requires WellFormed(c) && (Done(c, item) || Pristine(c, item))
    requires Accepted(Exec(c, Update(item.key, Labelled(item)))).Some?
    ensures Done(Accepted(Exec(c, Update(item.key, Labelled(item)))).value, item)
  {
  }

  /** Each listed object ends up as its labelling says, even if the list named it twice. */
  lemma {:induction false} ItemDone(c: Cluster, items: seq<Item>, item: Item)
    requires WellFormed(c) && UpdateAll(c, items).Some?
    requires forall i :: 0 <= i < |items| && items[i].key == item.key ==> items[i] == item
    requires Done(c, item) || (Pristine(c, item) && item in items)
    ensures Done(UpdateAll(c, items).value, item)
    decreases |items|
  {
    if items != [] {
      var d := Accepted(Exec(c, Update(items[0].key, Labelled(items[0])))).value;
      ExecWellFormed(c, Update(items[0].key, Labelled(items[0])));
      hide Exec, Labelled, WellFormed;
      if items[0].key == item.key {
        UpdateHere(c, item);
      } else {
        UpdateElsewhere(c, item, items[0]);
      }
      ItemDone(d, items[1..], item);
    }
  }

  /** Objects that are not listed are left alone. */
  lemma {:induction false} UnlistedUntouched(c: Cluster, items: seq<Item>, k: Key)
    requires UpdateAll(c, items).Some? && forall i :: 0 <= i < |items| ==> items[i].key != k
    ensures SameAt(c, UpdateAll(c, items).value, k)
    decreases |items|
  {
    hide Labelled;
    if items != [] {
      var d := Accepted(Exec(c, Update(items[0].key, Labelled(items[0])))).value;
      assert SameAt(c, d, k);
      hide Exec;
      UnlistedUntouched(d, items[1..], k);
    }
  }

  /** The labelling of one kind touches the objects of that kind in the namespace, and no others. */
  lemma KindLabellingIsExact(s: Settings, c: Cluster, kind: Kind, k: Key)
    requires WellFormed(c) && LabelKind(s, c, kind).Some?
    ensures var d := LabelKind(s, c, kind).value;
      && (k in d.objects <==> k in c.objects)
      && (k in c.objects && k.kind == kind && k.namespace == s.namespace ==> LabelledFrom(k, c.objects[k], d.objects[k]))
      && (k.kind != kind || k.namespace != s.namespace ==> SameAt(c, d, k))
  {
    var items, d := ListOf(c, kind, Some(s.namespace)), LabelKind(s, c, kind).value;
    LabelKindShape(s, c, kind);
    hide Exec, Labelled, UpdateAll, LabelledFrom, WellFormed;
    forall i | 0 <= i < |items| ensures Matches(items[i].key, kind, Some(s.namespace)) && Pristine(c, items[i]) {
      SelectExact(c.objects, c.order, kind, Some(s.namespace), items[i]);
    }
    if k.kind != kind || k.namespace != s.namespace {
      UnlistedUntouched(c, items, k);
    } else if k in c.objects {
      StoredIsListed(s, c, kind, k);
      ItemDone(c, items, Item(k, c.objects[k]));
      LabelOneLaw(Item(k, c.objects[k]), d.objects[k]);
    }
  }

  lemma StoredIsListed(s: Settings, c: Cluster, kind: Kind, k: Key)
    requires WellFormed(c) && k in c.objects && k.kind == kind && k.namespace == s.namespace
    ensures Item(k, c.objects[k]) in ListOf(c, kind, Some(s.namespace))
  {
    SelectExact(c.objects, c.order, kind, Some(s.namespace), Item(k, c.objects[k]));
  }

  /** The monitors and rules of the operator's namespace. */
  predicate Labellable(s: Settings, k: Key) {
    (k.kind.PodMonitor? || k.kind.ServiceMonitor? || k.kind.PrometheusRule?) && k.namespace == s.namespace
  }

  /**
   The labelling: afterwards each pod monitor, service monitor and rule of the namespace carries the label exactly if
   it is not the foreign rule, with its other labels and all else unchanged, and every other object is as it was.
   */
  lemma LabellingIsExact(s: Settings, c: Cluster, k: Key)
    requires WellFormed(c) && LabelledAll(s, c).Some?
    ensures var d := LabelledAll(s, c).value;
      && (k in d.objects <==> k in c.objects)
      && (Labellable(s, k) && k in c.objects ==> LabelledFrom(k, c.objects[k], d.objects[k]))
      && (!Labellable(s, k) ==> SameAt(c, d, k))
  {
    hide LabelKind, LabelledFrom, WellFormed;
    var d := LabelKind(s, c, PodMonitor).value;
    KindIsWellFormed(s, c, PodMonitor);
    KindLabellingIsExact(s, c, PodMonitor, k);
    var e := LabelKind(s, d, ServiceMonitor).value;
    KindIsWellFormed(s, d, ServiceMonitor);
    KindLabellingIsExact(s, d, ServiceMonitor, k);
    KindLabellingIsExact(s, e, PrometheusRule, k);
  }

  lemma KindIsWellFormed(s: Settings, c: Cluster, kind: Kind)
    requires WellFormed(c) && LabelKind(s, c, kind).Some?
    ensures WellFormed(LabelKind(s, c, kind).value) && LabelKind(s, c, kind).value.order == c.order
  {
    LabelKindShape(s, c, kind);
  }

  lemma FromTwice(k: Key, o: Object, p: Object)
    requires LabelledFrom(k, o, p)
    ensures RuleWatched(p) <==> Foreign(k)
  {
  }

  /**
   Finished work does not set off another pass: after the labelling, the watch on rules lets no rule of the namespace
   through but the foreign one.
   */
  lemma LabelledRulesAreQuiet(s: Settings, c: Cluster, k: Key)
    requires WellFormed(c) && LabelledAll(s, c).Some?
    requires k in LabelledAll(s, c).value.objects && k.kind.PrometheusRule? && k.namespace == s.namespace
    ensures RuleWatched(LabelledAll(s, c).value.objects[k]) <==> k.name == "noobaa-prometheus-rules"
  {
    LabellingIsExact(s, c, k);
    hide LabelledFrom, LabelledAll;
    FromTwice(k, c.objects[k], LabelledAll(s, c).value.objects[k]);
  }
}
