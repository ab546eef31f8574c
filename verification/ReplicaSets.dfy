// The ReplicaSet controller: how many Pods a ReplicaSet has, how new ones are named, and the
// requests that bring the number to the desired one.
module ReplicaSets {
  import opened Text
  import opened Etcd
  import opened Api
  import opened ApiServer
  import opened Services

  const REPLICA_SET := "ReplicaSet"

  // ---------- managed Pods ----------

  // Both the owner reference and the selector decide.
  predicate IsManaged(rs: ReplicaSet, pod: Pod)
  {
    HasOwner(pod.meta.ownerReferences, REPLICA_SET, rs.meta.name, rs.meta.uid) &&
      LabelsMatch(rs.spec.selector, pod.meta.labels)
  }

  function ManagedPods(rs: ReplicaSet, pods: seq<Pod>): (managed: seq<Pod>)
    ensures forall pod :: pod in managed <==> pod in pods && IsManaged(rs, pod)
  {
    if pods == [] then []
    else
      var last := pods[|pods| - 1];
      assert pods == pods[..|pods| - 1] + [last];
      ManagedPods(rs, pods[..|pods| - 1]) + if IsManaged(rs, last) then [last] else []
  }

  lemma {:induction false} ManagedPodsKeepOrder(rs: ReplicaSet, pods: seq<Pod>)
    requires SortedPods(pods)
    ensures SortedPods(ManagedPods(rs, pods))
  {
    if pods != [] {
      var n := |pods| - 1;
      ManagedPodsKeepOrder(rs, pods[..n]);
      var earlier := ManagedPods(rs, pods[..n]);
      forall i | 0 <= i < |earlier| ensures Less(earlier[i].meta.name, pods[n].meta.name) {
        assert earlier[i] in pods[..n];
      }
    }
  }

  predicate ManagedKey(live: Objects, rs: ReplicaSet, key: Key)
  {
    key in live && key.kind.PodKind? && live[key].value.PodObject? && IsManaged(rs, live[key].value.pod)
  }

  function ManagedNames(live: Objects, rs: ReplicaSet): set<string>
  {
    set key | key in live && ManagedKey(live, rs, key) :: key.name
  }

  function Names(pods: seq<Pod>): set<string> { set i | 0 <= i < |pods| :: pods[i].meta.name }

  lemma {:induction false} SortedPodsHaveDistinctNames(pods: seq<Pod>)
    requires SortedPods(pods)
    ensures |Names(pods)| == |pods|
  {
    if pods != [] {
      var n := |pods| - 1;
      SortedPodsHaveDistinctNames(pods[..n]);
      forall i | 0 <= i < n ensures pods[i].meta.name != pods[n].meta.name {
        LessIsAsymmetric(pods[i].meta.name, pods[n].meta.name);
      }
      assert Names(pods) == Names(pods[..n]) + {pods[n].meta.name};
    }
  }

  // On a fresh list, the managed Pods are the stored ones.
  ghost predicate AreFresh(live: Objects, rs: ReplicaSet, managed: seq<Pod>)
  {
    && SortedPods(managed) && StoredAndManaged(live, rs, managed)
    && Names(managed) == ManagedNames(live, rs) && |managed| == |ManagedNames(live, rs)|
  }

  predicate StoredAndManaged(live: Objects, rs: ReplicaSet, pods: seq<Pod>)
  {
    forall i :: 0 <= i < |pods| ==> StoredPod(live, pods[i]) && IsManaged(rs, pods[i])
  }

  lemma ManagedPodsOfAFreshList(live: Objects, rs: ReplicaSet)
    requires WellTyped(live)
    ensures AreFresh(live, rs, ManagedPods(rs, ListPods(live)))
  {
    hide StoredPod, ManagedKey, IsManaged, Names, ManagedNames;
    var pods := ListPods(live);
    var managed := ManagedPods(rs, pods);
    ManagedPodsKeepOrder(rs, pods);
    SortedPodsHaveDistinctNames(managed);
    forall i | 0 <= i < |managed| ensures StoredPod(live, managed[i]) && IsManaged(rs, managed[i]) {
      assert managed[i] in managed;
    }
    NamesOfManagedPods(live, rs, managed);
  }

  // The managed Pods of a fresh list are the stored Pods that name the ReplicaSet as an owner,
  // by its uid where it has one, and have the labels that it selects.
  lemma ManagedExactly(live: Objects, rs: ReplicaSet, pod: Pod)
    requires WellTyped(live)
    ensures pod in ManagedPods(rs, ListPods(live)) <==>
      && StoredPod(live, pod) && LabelsMatch(rs.spec.selector, pod.meta.labels)
      && exists owner :: owner in pod.meta.ownerReferences && owner.kind == "ReplicaSet" &&
           owner.name == rs.meta.name && (rs.meta.uid == "" || owner.uid == rs.meta.uid)
  {
    OwnersAreFoundExactly(pod.meta.ownerReferences, "ReplicaSet", rs.meta.name, rs.meta.uid);
  }

  lemma NamesOfManagedPods(live: Objects, rs: ReplicaSet, managed: seq<Pod>)
    requires WellTyped(live) && forall pod :: pod in managed <==> StoredPod(live, pod) && IsManaged(rs, pod)
    ensures Names(managed) == ManagedNames(live, rs)
  {
    hide StoredPod, ManagedKey, IsManaged;
    forall name | name in Names(managed) ensures name in ManagedNames(live, rs) {
      var i :| 0 <= i < |managed| && managed[i].meta.name == name;
      assert managed[i] in managed;
      StoredIsManagedKey(live, rs, managed[i]);
    }
    forall name | name in ManagedNames(live, rs) ensures name in Names(managed) {
      var key :| key in live && ManagedKey(live, rs, key) && key.name == name;
      var pod := ManagedKeyIsStored(live, rs, key);
      assert pod in managed;
    }
  }

  lemma StoredIsManagedKey(live: Objects, rs: ReplicaSet, pod: Pod)
    requires StoredPod(live, pod) && IsManaged(rs, pod)
    ensures ManagedKey(live, rs, Key(PodKind, pod.meta.name))
  {
  }

  lemma ManagedKeyIsStored(live: Objects, rs: ReplicaSet, key: Key) returns (pod: Pod)
    requires WellTyped(live) && ManagedKey(live, rs, key)
    ensures StoredPod(live, pod) && IsManaged(rs, pod) && pod.meta.name == key.name
  {
    assert KeyOf(live[key].value) == key;
    pod := Read(live, key).pod;
  }

  // ---------- names of new Pods ----------

  function PodName(rsName: string, index: nat): string { Numbered(rsName, '-', index) }

  // Generated names never meet: not within one ReplicaSet, not across two.
  lemma PodNamesNeverMeet(rsName: string, index: nat, rsName': string, index': nat)
    ensures PodName(rsName, index) == PodName(rsName', index') <==> rsName == rsName' && index == index'
  {
    if PodName(rsName, index) == PodName(rsName', index') {
      NumberedIsInjective(rsName, '-', index, rsName', index');
    }
  }

  lemma PodNamesInWords()
    ensures PodName("web", 1) == "web-1" && PodName("web-2", 10) == "web-2-10"
  {
    assert Decimal(1) == "1" && Decimal(10) == "10";
  }

  predicate AllUsedBelow(rsName: string, used: set<string>, index: nat)
  {
    forall j :: 1 <= j < index ==> PodName(rsName, j) in used
  }

  lemma {:induction false} Pigeonhole(rsName: string, used: set<string>, index: nat)
    requires 1 <= index && AllUsedBelow(rsName, used, index)
    ensures index <= |used| + 1
  {
    if 1 < index {
      var last := PodName(rsName, index - 1);
      forall j | 1 <= j < index - 1 ensures PodName(rsName, j) in used - {last} {
        PodNamesNeverMeet(rsName, j, rsName, index - 1);
      }
      Pigeonhole(rsName, used - {last}, index - 1);
    }
  }

  // The search for a free index, from 1 up, ends: by the pigeonhole principle it looks at no
  // more than one index above the number of names in use.
  function LeastUnused(rsName: string, used: set<string>, index: nat): (least: nat)
    requires 1 <= index && AllUsedBelow(rsName, used, index)
    ensures 1 <= least <= |used| + 1
    ensures PodName(rsName, least) !in used && AllUsedBelow(rsName, used, least)
    decreases |used| + 1 - index
  {
    Pigeonhole(rsName, used, index);
    if PodName(rsName, index) !in used then index
    else
      Pigeonhole(rsName, used, index + 1);
      LeastUnused(rsName, used, index + 1)
  }

  function NextName(rsName: string, used: set<string>): string { PodName(rsName, LeastUnused(rsName, used, 1)) }

  // ---------- the requests of one reconcile ----------

  function Desired(rs: ReplicaSet): nat { if rs.spec.replicas < 0 then 0 else rs.spec.replicas }

  function NewPod(rs: ReplicaSet, name: string): Pod
  {
    var template := rs.spec.template;
    Pod(
      Meta(name, "", 0, template.meta.labels, map[], [OwnerReference(REPLICA_SET, rs.meta.name, rs.meta.uid)]),
      template.spec,
      PodStatus(NoPhase, ""))
  }

  // Names that have just been given out count as used.
  function Creations(rs: ReplicaSet, used: set<string>, count: nat): seq<Request>
    decreases count
  {
    if count == 0 then []
    else
      var name := NextName(rs.meta.name, used);
      [Post(PodObject(NewPod(rs, name)))] + Creations(rs, used + {name}, count - 1)
  }

  function Deletions(pods: seq<Pod>): seq<Request>
  {
    if pods == [] then []
    else [Remove(Key(PodKind, pods[0].meta.name), Some(pods[0].meta.resourceVersion))] + Deletions(pods[1..])
  }

  // sort.Slice by name.
  function Inserted(pod: Pod, pods: seq<Pod>): seq<Pod>
  {
    if pods == [] || !Less(pods[0].meta.name, pod.meta.name) then [pod] + pods
    else [pods[0]] + Inserted(pod, pods[1..])
  }

  function Sorted(pods: seq<Pod>): seq<Pod>
  {
    if pods == [] then [] else Inserted(pods[0], Sorted(pods[1..]))
  }

  lemma {:induction false} SortedListsStay(pods: seq<Pod>)
    requires SortedPods(pods)
    ensures Sorted(pods) == pods
  {
    if pods != [] {
      SortedListsStay(pods[1..]);
      if |pods| > 1 {
        LessIsAsymmetric(pods[0].meta.name, pods[1].meta.name);
      }
    }
  }

  function PodRequests(rs: ReplicaSet, managed: seq<Pod>): seq<Request>
  {
    if |managed| < Desired(rs) then Creations(rs, Names(managed), Desired(rs) - |managed|)
    else Deletions(Excess(rs, managed))
  }

  function Excess(rs: ReplicaSet, managed: seq<Pod>): seq<Pod>
  {
    if |Sorted(managed)| < Desired(rs) then [] else Sorted(managed)[Desired(rs)..]
  }

  function StatusRequests(rs: ReplicaSet): seq<Request>
  {
    if rs.statusReplicas == Desired(rs) then []
    else [Update(rs.meta.name, ReplicaSetObject(rs.(statusReplicas := Desired(rs))))]
  }

  function ScaleRequests(rs: ReplicaSet, managed: seq<Pod>): seq<Request>
  {
    PodRequests(rs, managed) + StatusRequests(rs)
  }

  // ---------- what a reconcile stores and removes ----------

  // The Pod is what the template says, and the ReplicaSet owns it.
  ghost predicate IsMadeFrom(rs: ReplicaSet, pod: Pod)
  {
    && pod.spec == rs.spec.template.spec && pod.meta.labels == rs.spec.template.meta.labels
    && pod.meta.annotations == map[] && pod.status == PodStatus(NoPhase, "")
    && pod.meta.ownerReferences == [OwnerReference("ReplicaSet", rs.meta.name, rs.meta.uid)]
    && exists index: nat :: pod.meta.name == PodName(rs.meta.name, index)
  }

  // The ReplicaSet as it was listed, with max(0, replicas) in its status.
  predicate OnlyStatusChanged(rs: ReplicaSet, stored: ReplicaSet)
  {
    && stored.meta == rs.meta && stored.spec == rs.spec
    && stored.statusReplicas == (if rs.spec.replicas < 0 then 0 else rs.spec.replicas)
  }

  ghost predicate IsStoredByScaling(rs: ReplicaSet, o: Object)
  {
    if o.PodObject? then IsMadeFrom(rs, o.pod) else o.ReplicaSetObject? && OnlyStatusChanged(rs, o.replicaSet)
  }

  lemma {:induction false} CreationsAreMadeFrom(rs: ReplicaSet, used: set<string>, count: nat)
    ensures forall i :: 0 <= i < |Creations(rs, used, count)| ==>
      var request := Creations(rs, used, count)[i];
      request.Post? && request.body.PodObject? && IsMadeFrom(rs, request.body.pod)
    decreases count
  {
    if count > 0 {
      var name := NextName(rs.meta.name, used);
      assert NewPod(rs, name).meta.name == PodName(rs.meta.name, LeastUnused(rs.meta.name, used, 1));
      CreationsAreMadeFrom(rs, used + {name}, count - 1);
    }
  }

  lemma {:induction false} DeletionsAreRemovals(pods: seq<Pod>)
    ensures |Deletions(pods)| == |pods|
    ensures forall i :: 0 <= i < |pods| ==>
      Deletions(pods)[i].Remove? && Deletions(pods)[i].key == Key(PodKind, pods[i].meta.name) &&
        Deletions(pods)[i].resourceVersion == Some(pods[i].meta.resourceVersion)
  {
    if pods != [] {
      DeletionsAreRemovals(pods[1..]);
    }
  }

  lemma ScaleRequestsStore(rs: ReplicaSet, managed: seq<Pod>)
    ensures NoServices(ScaleRequests(rs, managed))
    ensures forall i :: 0 <= i < |ScaleRequests(rs, managed)| ==>
      var request := ScaleRequests(rs, managed)[i];
      !request.Remove? ==> IsStoredByScaling(rs, request.body)
  {
    hide IsMadeFrom, Creations, Deletions, Excess;
    CreationsAreMadeFrom(rs, Names(managed), if |managed| < Desired(rs) then Desired(rs) - |managed| else 0);
    DeletionsAreRemovals(Excess(rs, managed));
  }

  // Whatever the network does, from a list of any age: every Pod that is stored after a
  // reconcile and was not stored before is what the template says, and the ReplicaSet itself
  // changes in nothing but its status.
  lemma ScalingStoresTheTemplate(log: seq<Write<Object>>, faults: seq<Fault>, rs: ReplicaSet, managed: seq<Pod>,
                                 key: Key)
    requires Sound(log)
    ensures var after := Live(SendAll(log, faults, ScaleRequests(rs, managed)).log);
      key in after && !SameEntry(Live(log), after, key) ==> IsStoredByScaling(rs, after[key].value)
  {
    hide Sound, Live, SendAll, ScaleRequests, IsStoredByScaling, SameEntry;
    ScaleRequestsStore(rs, managed);
    NewEntriesAreBodies(log, faults, ScaleRequests(rs, managed), key);
  }

  // The names of managed Pods that sort before the given one.
  function NamesBefore(live: Objects, rs: ReplicaSet, name: string): set<string>
  {
    set other | other in ManagedNames(live, rs) && Less(other, name)
  }

  // Whatever the network does, from a fresh list: a Pod that a reconcile removes is one that the
  // ReplicaSet manages, and at least max(0, replicas) of its Pods sort before it, so that the
  // last ones in name order go.
  lemma ScalingRemovesTheLast(log: seq<Write<Object>>, faults: seq<Fault>, rs: ReplicaSet, managed: seq<Pod>, key: Key)
    requires Sound(log) && AreFresh(Live(log), rs, managed)
    requires key in Live(log) && key !in Live(SendAll(log, faults, ScaleRequests(rs, managed)).log)
    ensures key.kind.PodKind? && key.name in ManagedNames(Live(log), rs)
    ensures |NamesBefore(Live(log), rs, key.name)| >= rs.spec.replicas
  {
    hide Sound, Live, SendAll, Creations, Deletions, IsManaged, StoredPod, ManagedNames, ManagedKey;
    GoneEntriesAreRemoved(log, faults, ScaleRequests(rs, managed), key);
    SortedListsStay(managed);
    CreationsAreMadeFrom(rs, Names(managed), if |managed| < Desired(rs) then Desired(rs) - |managed| else 0);
    DeletionsAreRemovals(Excess(rs, managed));
    var i :| 0 <= i < |ScaleRequests(rs, managed)| && ScaleRequests(rs, managed)[i].Remove? &&
      ScaleRequests(rs, managed)[i].key == key;
    assert ScaleRequests(rs, managed)[i] == PodRequests(rs, managed)[i];
    var j := Desired(rs) + i;
    assert managed[j].meta.name == key.name;
    AtLeastBefore(Live(log), rs, managed, j);
  }

  lemma {:induction false} SortedAreTheSame(pods: seq<Pod>)
    ensures forall pod :: pod in Sorted(pods) <==> pod in pods
  {
    if pods != [] {
      SortedAreTheSame(pods[1..]);
      InsertedIsThere(pods[0], Sorted(pods[1..]));
      assert pods == [pods[0]] + pods[1..];
    }
  }

  lemma {:induction false} InsertedIsThere(pod: Pod, pods: seq<Pod>)
    ensures forall other :: other in Inserted(pod, pods) <==> other == pod || other in pods
  {
    if pods != [] {
      InsertedIsThere(pod, pods[1..]);
      assert pods == [pods[0]] + pods[1..];
    }
  }

  // Whatever the network does, from a list of any age: a Pod that a reconcile removes was still
  // stored at the very version that was listed.
  lemma ScalingSparesNewerPods(log: seq<Write<Object>>, faults: seq<Fault>, rs: ReplicaSet, managed: seq<Pod>, key: Key)
    requires Sound(log)
    requires key in Live(log) && key !in Live(SendAll(log, faults, ScaleRequests(rs, managed)).log)
    ensures key.kind.PodKind?
    ensures exists pod ::
      pod in managed && pod.meta.name == key.name && pod.meta.resourceVersion == Live(log)[key].modRevision
  {
    hide Sound, Live, SendAll, Creations, Deletions;
    var requests := ScaleRequests(rs, managed);
    GoneEntriesAreRemoved(log, faults, requests, key);
    CreationsAreMadeFrom(rs, Names(managed), if |managed| < Desired(rs) then Desired(rs) - |managed| else 0);
    DeletionsAreRemovals(Excess(rs, managed));
    var i :| 0 <= i < |requests| && requests[i].Remove? && requests[i].key == key;
    assert requests[i] == PodRequests(rs, managed)[i];
    GoneEntriesHadTheVersion(log, faults, requests, key);
    var j :| 0 <= j < |requests| && requests[j].Remove? && requests[j].key == key &&
      (requests[j].resourceVersion.None? || requests[j].resourceVersion.value == Live(log)[key].modRevision);
    assert requests[j] == PodRequests(rs, managed)[j];
    SortedAreTheSame(managed);
    assert Excess(rs, managed)[j] in Sorted(managed);
  }

  lemma AtLeastBefore(live: Objects, rs: ReplicaSet, managed: seq<Pod>, j: nat)
    requires SortedPods(managed) && Names(managed) == ManagedNames(live, rs) && j < |managed|
    ensures |NamesBefore(live, rs, managed[j].meta.name)| >= j
  {
    hide ManagedNames;
    var earlier := Names(managed[..j]);
    SortedPodsHaveDistinctNames(managed[..j]);
    assert earlier <= NamesBefore(live, rs, managed[j].meta.name);
    Fewer(earlier, NamesBefore(live, rs, managed[j].meta.name));
  }

  lemma Fewer(some: set<string>, all: set<string>)
    requires some <= all
    ensures |some| <= |all|
  {
    if x :| x in some {
      Fewer(some - {x}, all - {x});
    }
  }

  // ---------- progress ----------

  // The template yields Pods the server takes and the selector finds.
  predicate TemplateFits(rs: ReplicaSet)
  {
    LabelsMatch(rs.spec.selector, rs.spec.template.meta.labels) && rs.spec.template.spec.containers != []
  }

  // No Pod that the ReplicaSet does not manage holds one of its generated names.
  ghost predicate NamesAreOurs(live: Objects, rs: ReplicaSet)
  {
    forall index: nat :: Key(PodKind, PodName(rs.meta.name, index)) in live ==>
      ManagedKey(live, rs, Key(PodKind, PodName(rs.meta.name, index)))
  }

  function Count(live: Objects, rs: ReplicaSet): nat { |ManagedNames(live, rs)| }

  function Distance(live: Objects, rs: ReplicaSet): nat
  {
    if Count(live, rs) <= Desired(rs) then Desired(rs) - Count(live, rs) else Count(live, rs) - Desired(rs)
  }

  // Writes to Pods that have been made.
  function PodWrites(log: seq<Write<Object>>): nat
  {
    if log == [] then 0 else PodWrites(log[..|log| - 1]) + if log[|log| - 1].key.kind.PodKind? then 1 else 0
  }

  lemma PodWritesGrow(log: seq<Write<Object>>, write: Write<Object>)
    ensures PodWrites(log + [write]) == PodWrites(log) + if write.key.kind.PodKind? then 1 else 0
  {
    assert (log + [write])[..|log|] == log;
  }

  lemma NewPodsAreManaged(rs: ReplicaSet, name: string)
    requires TemplateFits(rs)
    ensures IsManaged(rs, NewPod(rs, name)) && NewPod(rs, name).meta.name == name
  {
    var owner := NewPod(rs, name).meta.ownerReferences[0];
    assert owner.kind == REPLICA_SET && owner.name == rs.meta.name;
  }

  lemma NextNameIsFree(live: Objects, rs: ReplicaSet)
    requires NamesAreOurs(live, rs)
    ensures var name := NextName(rs.meta.name, ManagedNames(live, rs));
      name !in ManagedNames(live, rs) && Key(PodKind, name) !in live
  {
    var used := ManagedNames(live, rs);
    var index := LeastUnused(rs.meta.name, used, 1);
    var key := Key(PodKind, PodName(rs.meta.name, index));
    assert ManagedKey(live, rs, key) ==> key.name in used;
  }

  // Posting a valid Pod under a free name.
  lemma PostingOne(log: seq<Write<Object>>, pod: Pod)
    requires Sound(log) && Key(PodKind, pod.meta.name) !in Live(log)
    requires pod.meta.name != "" && pod.spec.containers != []
    ensures var request, write := Post(PodObject(pod)), Put(Key(PodKind, pod.meta.name), PodObject(pod), 0);
      && Attempt(Live(log), request) == Success(write)
      && AfterRequest(log, request) == log + [write] && Sound(log + [write])
      && Live(log + [write]) == Applied(Live(log), write, |log| + 2)
      && PodWrites(log + [write]) == PodWrites(log) + 1
  {
    hide Sound, Live, PodWrites, Prepare;
    VersionIsZeroExactlyWhenAbsent(log, Key(PodKind, pod.meta.name));
    ServingKeepsSoundness(log, Post(PodObject(pod)));
    PodWritesGrow(log, Put(Key(PodKind, pod.meta.name), PodObject(pod), 0));
  }

  // Removing a Pod at its current version.
  lemma RemovingOne(log: seq<Write<Object>>, key: Key)
    requires Sound(log) && key in Live(log) && key.kind.PodKind?
    ensures var request := Remove(key, Some(Live(log)[key].modRevision));
      && Attempt(Live(log), request) == Success(Erase(key))
      && AfterRequest(log, request) == log + [Erase(key)] && Sound(log + [Erase(key)])
      && Live(log + [Erase(key)]) == Applied(Live(log), Erase(key), |log| + 2)
      && PodWrites(log + [Erase(key)]) == PodWrites(log) + 1
  {
    hide Sound, Live, PodWrites;
    VersionIsZeroExactlyWhenAbsent(log, key);
    ServingKeepsSoundness(log, Remove(key, Some(Live(log)[key].modRevision)));
    PodWritesGrow(log, Erase(key));
  }

  lemma AddingOneManagedPod(live: Objects, rs: ReplicaSet, pod: Pod, revision: nat)
    requires IsManaged(rs, pod)
    ensures var after := Applied(live, Put(Key(PodKind, pod.meta.name), PodObject(pod), 0), revision);
      && ManagedNames(after, rs) == ManagedNames(live, rs) + {pod.meta.name}
      && (NamesAreOurs(live, rs) ==> NamesAreOurs(after, rs))
  {
    var key := Key(PodKind, pod.meta.name);
    var after := Applied(live, Put(key, PodObject(pod), 0), revision);
    forall other | other != key ensures ManagedKey(after, rs, other) <==> ManagedKey(live, rs, other) {
    }
    assert ManagedKey(after, rs, key);
    forall name ensures name in ManagedNames(after, rs) <==> name in ManagedNames(live, rs) + {pod.meta.name} {
      var other := Key(PodKind, name);
      assert name in ManagedNames(after, rs) <==> ManagedKey(after, rs, other);
      assert name in ManagedNames(live, rs) <==> ManagedKey(live, rs, other);
    }
  }

  lemma RemovingOneManagedPod(live: Objects, rs: ReplicaSet, key: Key, revision: nat)
    requires ManagedKey(live, rs, key)
    ensures var after := Applied(live, Erase(key), revision);
      && ManagedNames(after, rs) == ManagedNames(live, rs) - {key.name} && key.name in ManagedNames(live, rs)
      && (NamesAreOurs(live, rs) ==> NamesAreOurs(after, rs))
  {
    var after := Applied(live, Erase(key), revision);
    forall other ensures ManagedKey(after, rs, other) <==> other != key && ManagedKey(live, rs, other) {
    }
    forall name ensures name in ManagedNames(after, rs) <==> name in ManagedNames(live, rs) - {key.name} {
      var other := Key(PodKind, name);
      assert name in ManagedNames(after, rs) <==> ManagedKey(after, rs, other);
      assert name in ManagedNames(live, rs) <==> ManagedKey(live, rs, other);
    }
  }

  // Where a run of Pod requests has brought the number of managed Pods: `steps` of them took
  // effect and each moved it by one in the same direction.
  ghost predicate Moved(log: seq<Write<Object>>, after: seq<Write<Object>>, rs: ReplicaSet, up: bool)
  {
    && Sound(after) && PodWrites(log) <= PodWrites(after)
    && (NamesAreOurs(Live(log), rs) ==> NamesAreOurs(Live(after), rs))
    && (if up then Count(Live(after), rs) - Count(Live(log), rs) else Count(Live(log), rs) - Count(Live(after), rs)) ==
         PodWrites(after) - PodWrites(log)
  }

  // The first of the planned creations succeeds and leaves the plan for the rest in place.
  lemma CreatingOne(log: seq<Write<Object>>, rs: ReplicaSet, name: string, pod: Pod)
    requires Sound(log) && NamesAreOurs(Live(log), rs) && TemplateFits(rs)
    requires name == NextName(rs.meta.name, ManagedNames(Live(log), rs)) && pod == NewPod(rs, name)
    ensures var after := log + [Put(Key(PodKind, name), PodObject(pod), 0)];
      && Attempt(Live(log), Post(PodObject(pod))) == Success(after[|log|])
      && Sound(after) && NamesAreOurs(Live(after), rs)
      && ManagedNames(Live(after), rs) == ManagedNames(Live(log), rs) + {name}
      && name !in ManagedNames(Live(log), rs)
      && PodWrites(after) == PodWrites(log) + 1
  {
    NewPodsAreManaged(rs, name);
    NextNameIsFree(Live(log), rs);
    NamesAreNotEmpty(rs, ManagedNames(Live(log), rs));
    PostingOne(log, pod);
    AddingOneManagedPod(Live(log), rs, pod, |log| + 2);
  }

  lemma NamesAreNotEmpty(rs: ReplicaSet, used: set<string>)
    ensures NextName(rs.meta.name, used) != ""
  {
  }

  lemma CreationsUnfold(log: seq<Write<Object>>, faults: seq<Fault>, rs: ReplicaSet, used: set<string>, count: nat)
    requires count > 0 && Attempt(Live(log), Post(PodObject(NewPod(rs, NextName(rs.meta.name, used))))).Success?
    ensures var name := NextName(rs.meta.name, used);
      SendAll(log, faults, Creations(rs, used, count)) ==
        Continued(log, Attempt(Live(log), Post(PodObject(NewPod(rs, name)))).value, faults,
          Creations(rs, used + {name}, count - 1))
  {
    var name := NextName(rs.meta.name, used);
    var requests := Creations(rs, used, count);
    assert requests[0] == Post(PodObject(NewPod(rs, name))) && requests[1..] == Creations(rs, used + {name}, count - 1);
    SendAllStep(log, faults, requests);
  }

  lemma CreationsStep(log: seq<Write<Object>>, faults: seq<Fault>, rs: ReplicaSet, used: set<string>, count: nat,
                      write: Write<Object>)
    requires count > 0 && Sound(log) && NamesAreOurs(Live(log), rs) && TemplateFits(rs)
    requires used == ManagedNames(Live(log), rs)
    requires var name := NextName(rs.meta.name, used); write == Put(Key(PodKind, name), PodObject(NewPod(rs, name)), 0)
    ensures var name := NextName(rs.meta.name, used);
      && Sound(log + [write]) && Moved(log, log + [write], rs, true) && NamesAreOurs(Live(log + [write]), rs)
      && PodWrites(log + [write]) == PodWrites(log) + 1
      && ManagedNames(Live(log + [write]), rs) == used + {name}
      && SendAll(log, faults, Creations(rs, used, count)) ==
         Continued(log, write, faults, Creations(rs, used + {name}, count - 1))
  {
    var name := NextName(rs.meta.name, used);
    CreatingOne(log, rs, name, NewPod(rs, name));
    CreationsUnfold(log, faults, rs, used, count);
  }

  lemma NotMoved(log: seq<Write<Object>>, rs: ReplicaSet, up: bool)
    requires Sound(log)
    ensures Moved(log, log, rs, up)
  {
  }

  lemma MovedOn(a: seq<Write<Object>>, b: seq<Write<Object>>, c: seq<Write<Object>>, rs: ReplicaSet, up: bool)
    requires Moved(a, b, rs, up) && Moved(b, c, rs, up)
    ensures Moved(a, c, rs, up)
  {
  }

  lemma {:induction false} CreationsMoveUp(log: seq<Write<Object>>, faults: seq<Fault>, rs: ReplicaSet,
                                           used: set<string>, count: nat)
    requires Sound(log) && NamesAreOurs(Live(log), rs) && TemplateFits(rs) && used == ManagedNames(Live(log), rs)
    ensures var out := SendAll(log, faults, Creations(rs, used, count));
      && Moved(log, out.log, rs, true)
      && PodWrites(out.log) - PodWrites(log) <= count
      && (out.ok ==> PodWrites(out.log) - PodWrites(log) == count)
      && (faults == [] ==> out.ok)
    decreases count
  {
    hide Sound, Moved, NamesAreOurs, Live, PodWrites, ManagedNames, NextName, NewPod, TemplateFits;
    NotMoved(log, rs, true);
    if count > 0 {
      var name := NextName(rs.meta.name, used);
      var write := Put(Key(PodKind, name), PodObject(NewPod(rs, name)), 0);
      CreationsStep(log, faults, rs, used, count, write);
      CreationsMoveUp(log + [write], TailFaults(faults), rs, used + {name}, count - 1);
      MovedOn(log, log + [write],
        SendAll(log + [write], TailFaults(faults), Creations(rs, used + {name}, count - 1)).log, rs, true);
    }
  }

  lemma DeletionsStep(log: seq<Write<Object>>, faults: seq<Fault>, rs: ReplicaSet, pods: seq<Pod>, write: Write<Object>)
    requires pods != [] && write == Erase(Key(PodKind, pods[0].meta.name))
    requires Sound(log) && SortedPods(pods) && StoredAndManaged(Live(log), rs, pods)
    ensures Sound(log + [write]) && Moved(log, log + [write], rs, false)
    ensures PodWrites(log + [write]) == PodWrites(log) + 1
    ensures SortedPods(pods[1..]) && StoredAndManaged(Live(log + [write]), rs, pods[1..])
    ensures SendAll(log, faults, Deletions(pods)) == Continued(log, write, faults, Deletions(pods[1..]))
  {
    hide Sound, Attempt, NamesAreOurs, Live, IsManaged, StoredPod, ManagedKey, ManagedNames;
    var key := Key(PodKind, pods[0].meta.name);
    assert StoredPod(Live(log), pods[0]) && IsManaged(rs, pods[0]);
    StoredAtItsVersion(Live(log), pods[0]);
    RemovingOne(log, key);
    StoredIsManagedKey(Live(log), rs, pods[0]);
    RemovingOneManagedPod(Live(log), rs, key, |log| + 2);
    forall i | 0 <= i < |pods[1..]|
      ensures StoredPod(Live(log + [write]), pods[1..][i]) && IsManaged(rs, pods[1..][i])
    {
      assert StoredPod(Live(log), pods[i + 1]) && IsManaged(rs, pods[i + 1]);
      LessIsAsymmetric(pods[0].meta.name, pods[i + 1].meta.name);
      OtherPodsStayStored(Live(log), write, pods[i + 1], |log| + 2);
    }
    var requests := Deletions(pods);
    assert requests[0] == Remove(key, Some(Live(log)[key].modRevision)) && requests[1..] == Deletions(pods[1..]);
    SendAllStep(log, faults, requests);
  }

  lemma StoredAtItsVersion(live: Objects, pod: Pod)
    requires StoredPod(live, pod)
    ensures var key := Key(PodKind, pod.meta.name);
      key in live && live[key].value.PodObject? && pod.meta.resourceVersion == live[key].modRevision
  {
  }

  lemma OtherPodsStayStored(live: Objects, write: Write<Object>, pod: Pod, revision: nat)
    requires StoredPod(live, pod) && write.key != Key(PodKind, pod.meta.name)
    ensures StoredPod(Applied(live, write, revision), pod)
  {
  }

  lemma {:induction false} DeletionsMoveDown(log: seq<Write<Object>>, faults: seq<Fault>, rs: ReplicaSet,
                                             pods: seq<Pod>)
    requires Sound(log) && SortedPods(pods) && StoredAndManaged(Live(log), rs, pods)
    ensures var out := SendAll(log, faults, Deletions(pods));
      && Moved(log, out.log, rs, false)
      && PodWrites(out.log) - PodWrites(log) <= |pods|
      && (out.ok ==> PodWrites(out.log) - PodWrites(log) == |pods|)
      && (faults == [] ==> out.ok)
    decreases |pods|
  {
    hide Sound, Moved, NamesAreOurs, Live, PodWrites, SortedPods, StoredAndManaged;
    NotMoved(log, rs, false);
    if pods != [] {
      var write := Erase(Key(PodKind, pods[0].meta.name));
      DeletionsStep(log, faults, rs, pods, write);
      DeletionsMoveDown(log + [write], TailFaults(faults), rs, pods[1..]);
      MovedOn(log, log + [write], SendAll(log + [write], TailFaults(faults), Deletions(pods[1..])).log, rs, false);
    }
  }

  lemma OtherKindsKeepPods(live: Objects, rs: ReplicaSet, write: Write<Object>, revision: nat)
    requires !write.key.kind.PodKind?
    ensures ManagedNames(Applied(live, write, revision), rs) == ManagedNames(live, rs)
    ensures NamesAreOurs(live, rs) ==> NamesAreOurs(Applied(live, write, revision), rs)
  {
    var after := Applied(live, write, revision);
    forall key: Key | key.kind.PodKind? ensures ManagedKey(after, rs, key) <==> ManagedKey(live, rs, key) {
    }
    forall name ensures name in ManagedNames(after, rs) <==> name in ManagedNames(live, rs) {
      var key := Key(PodKind, name);
      assert name in ManagedNames(after, rs) <==> ManagedKey(after, rs, key);
      assert name in ManagedNames(live, rs) <==> ManagedKey(live, rs, key);
    }
  }

  // The status update touches no Pod, and it is accepted when the list was fresh.
  lemma StatusKeepsPods(log: seq<Write<Object>>, faults: seq<Fault>, rs: ReplicaSet)
    requires Sound(log)
    ensures var out := SendAll(log, faults, StatusRequests(rs));
      && Sound(out.log) && PodWrites(out.log) == PodWrites(log)
      && Count(Live(out.log), rs) == Count(Live(log), rs)
      && (NamesAreOurs(Live(log), rs) ==> NamesAreOurs(Live(out.log), rs))
      && (faults == [] && StoredReplicaSet(Live(log), rs) ==> out.ok)
  {
    var requests := StatusRequests(rs);
    if requests != [] {
      var request, fault := requests[0], HeadFault(faults);
      StatusAttempt(log, rs);
      ExchangeKeepsSoundness(log, request, fault);
      var attempt := Attempt(Live(log), request);
      if attempt.Success? && !fault.RequestLost? {
        OtherKindsKeepPods(Live(log), rs, attempt.value, |log| + 2);
        ServingKeepsSoundness(log, request);
        PodWritesGrow(log, attempt.value);
      }
      OneRequest(log, faults, requests);
    }
  }

  lemma StatusAttempt(log: seq<Write<Object>>, rs: ReplicaSet)
    requires Sound(log)
    ensures var attempt :=
      Attempt(Live(log), Update(rs.meta.name, ReplicaSetObject(rs.(statusReplicas := Desired(rs)))));
      && (attempt.Success? ==> attempt.value.key == Key(ReplicaSetKind, rs.meta.name))
      && (StoredReplicaSet(Live(log), rs) ==> attempt.Success?)
  {
    var key := Key(ReplicaSetKind, rs.meta.name);
    if StoredReplicaSet(Live(log), rs) {
      LiveKeysAreNamed(log, key);
      VersionIsZeroExactlyWhenAbsent(log, key);
      assert rs.meta.resourceVersion == Live(log)[key].modRevision;
    }
  }

  predicate AreAboutPods(requests: seq<Request>)
  {
    forall i :: 0 <= i < |requests| ==> RequestKey(requests[i]).kind.PodKind?
  }

  lemma {:induction false} CreationsAreAboutPods(rs: ReplicaSet, used: set<string>, count: nat)
    ensures AreAboutPods(Creations(rs, used, count))
    decreases count
  {
    if count > 0 {
      CreationsAreAboutPods(rs, used + {NextName(rs.meta.name, used)}, count - 1);
    }
  }

  lemma {:induction false} DeletionsAreAboutPods(pods: seq<Pod>)
    ensures AreAboutPods(Deletions(pods))
  {
    if pods != [] {
      DeletionsAreAboutPods(pods[1..]);
    }
  }

  lemma PodRequestsAreAboutPods(rs: ReplicaSet, managed: seq<Pod>)
    ensures AreAboutPods(PodRequests(rs, managed))
  {
    if |managed| < Desired(rs) {
      CreationsAreAboutPods(rs, Names(managed), Desired(rs) - |managed|);
    } else {
      DeletionsAreAboutPods(Excess(rs, managed));
    }
  }

  ghost predicate MovedTowards(log: seq<Write<Object>>, after: seq<Write<Object>>, rs: ReplicaSet)
  {
    && Sound(after) && (NamesAreOurs(Live(log), rs) ==> NamesAreOurs(Live(after), rs))
    && (if Count(Live(log), rs) <= Desired(rs) then Count(Live(log), rs) <= Count(Live(after), rs) <= Desired(rs)
        else Desired(rs) <= Count(Live(after), rs) <= Count(Live(log), rs))
    && Distance(Live(log), rs) - Distance(Live(after), rs) == PodWrites(after) - PodWrites(log)
  }

  lemma MovedUpTowards(log: seq<Write<Object>>, after: seq<Write<Object>>, rs: ReplicaSet)
    requires Moved(log, after, rs, true) && Count(Live(log), rs) + (PodWrites(after) - PodWrites(log)) <= Desired(rs)
    ensures MovedTowards(log, after, rs)
  {
  }

  lemma MovedDownTowards(log: seq<Write<Object>>, after: seq<Write<Object>>, rs: ReplicaSet)
    requires Moved(log, after, rs, false) && Count(Live(log), rs) >= Desired(rs) + (PodWrites(after) - PodWrites(log))
    ensures MovedTowards(log, after, rs)
  {
  }

  lemma PodRequestsMoveTowardsDesired(log: seq<Write<Object>>, faults: seq<Fault>, rs: ReplicaSet, managed: seq<Pod>)
    requires Sound(log) && NamesAreOurs(Live(log), rs) && TemplateFits(rs) && AreFresh(Live(log), rs, managed)
    ensures var out := SendAll(log, faults, PodRequests(rs, managed));
      && MovedTowards(log, out.log, rs)
      && (out.ok ==> Distance(Live(out.log), rs) == 0)
      && (faults == [] ==> out.ok)
  {
    hide Sound, NamesAreOurs, Live, PodWrites, ManagedNames, SendAll, Creations, Deletions;
    var after := SendAll(log, faults, PodRequests(rs, managed)).log;
    if |managed| < Desired(rs) {
      CreationsMoveUp(log, faults, rs, Names(managed), Desired(rs) - |managed|);
      MovedUpTowards(log, after, rs);
    } else {
      SortedListsStay(managed);
      var excess := Excess(rs, managed);
      DeletionsMoveDown(log, faults, rs, excess);
      MovedDownTowards(log, after, rs);
    }
  }

  // One reconcile of one ReplicaSet from a fresh list, whatever the network does to its
  // requests: every Pod request that took effect brought the count one closer to the desired
  // number, none went past it, and a reconcile that ends without an error has reached it.
  lemma ReconcileMovesTowardsDesired(log: seq<Write<Object>>, faults: seq<Fault>, rs: ReplicaSet)
    requires Sound(log) && NamesAreOurs(Live(log), rs) && TemplateFits(rs)
    ensures WellTyped(Live(log))
    ensures var out := SendAll(log, faults, ScaleRequests(rs, ManagedPods(rs, ListPods(Live(log)))));
      && MovedTowards(log, out.log, rs)
      && (out.ok ==> Distance(Live(out.log), rs) == 0)
      && (faults == [] && StoredReplicaSet(Live(log), rs) ==> out.ok)
  {
    hide NamesAreOurs, Live, PodWrites, ManagedNames, SendAll, PodRequests, StatusRequests, ManagedPods, TemplateFits;
    WellTypedLogGivesWellTypedObjects(log);
    var managed := ManagedPods(rs, ListPods(Live(log)));
    var first := SendAll(log, faults, PodRequests(rs, managed));
    ManagedPodsOfAFreshList(Live(log), rs);
    PodRequestsMoveTowardsDesired(log, faults, rs, managed);
    SendAllInTwoParts(log, faults, PodRequests(rs, managed), StatusRequests(rs));
    StatusKeepsPods(first.log, first.faults, rs);
    if faults == [] && StoredReplicaSet(Live(log), rs) {
      NoFaultsStayNoFaults(log, PodRequests(rs, managed));
      PodRequestsAreAboutPods(rs, managed);
      SendAllKeepsOtherKeys(log, faults, PodRequests(rs, managed), Key(ReplicaSetKind, rs.meta.name));
    }
  }

  // ---------- retries ----------

  predicate SameScale(a: ReplicaSet, b: ReplicaSet)
  {
    a.meta.name == b.meta.name && a.meta.uid == b.meta.uid && a.spec == b.spec
  }

  lemma SameScaleSameCount(live: Objects, a: ReplicaSet, b: ReplicaSet)
    requires SameScale(a, b)
    ensures ManagedNames(live, a) == ManagedNames(live, b) && Desired(a) == Desired(b)
    ensures Distance(live, a) == Distance(live, b)
    ensures (NamesAreOurs(live, a) <==> NamesAreOurs(live, b)) && (TemplateFits(a) <==> TemplateFits(b))
  {
    forall key: Key ensures ManagedKey(live, a, key) <==> ManagedKey(live, b, key) {
    }
  }

  predicate IsReplicaSet(live: Objects, name: string)
  {
    Key(ReplicaSetKind, name) in live && live[Key(ReplicaSetKind, name)].value.ReplicaSetObject?
  }

  function ReplicaSetAt(live: Objects, name: string): ReplicaSet
    requires IsReplicaSet(live, name)
  {
    Read(live, Key(ReplicaSetKind, name)).replicaSet
  }

  lemma ReconcileKeepsTheReplicaSet(log: seq<Write<Object>>, faults: seq<Fault>, rs: ReplicaSet, managed: seq<Pod>)
    requires Sound(log) && StoredReplicaSet(Live(log), rs)
    ensures var after := Live(SendAll(log, faults, ScaleRequests(rs, managed)).log);
      IsReplicaSet(after, rs.meta.name) && SameScale(ReplicaSetAt(after, rs.meta.name), rs)
  {
    var key := Key(ReplicaSetKind, rs.meta.name);
    var first := SendAll(log, faults, PodRequests(rs, managed));
    PodRequestsAreAboutPods(rs, managed);
    SendAllKeepsOtherKeys(log, faults, PodRequests(rs, managed), key);
    SendAllInTwoParts(log, faults, PodRequests(rs, managed), StatusRequests(rs));
    if first.ok {
      StatusKeepsTheReplicaSet(first.log, first.faults, rs);
    }
  }

  lemma StatusKeepsTheReplicaSet(log: seq<Write<Object>>, faults: seq<Fault>, rs: ReplicaSet)
    requires Sound(log) && StoredReplicaSet(Live(log), rs)
    ensures var after := Live(SendAll(log, faults, StatusRequests(rs)).log);
      IsReplicaSet(after, rs.meta.name) && SameScale(ReplicaSetAt(after, rs.meta.name), rs)
  {
    hide Sound, Attempt, Live;
    var requests := StatusRequests(rs);
    if requests != [] {
      OneRequest(log, faults, requests);
      StatusAttempt(log, rs);
      StatusIsWritten(log, rs);
      ServingKeepsSoundness(log, requests[0]);
    }
  }

  lemma StatusIsWritten(log: seq<Write<Object>>, rs: ReplicaSet)
    requires Attempt(Live(log), Update(rs.meta.name, ReplicaSetObject(rs.(statusReplicas := Desired(rs))))).Success?
    ensures var write :=
      Attempt(Live(log), Update(rs.meta.name, ReplicaSetObject(rs.(statusReplicas := Desired(rs))))).value;
      write.Put? && write.key == Key(ReplicaSetKind, rs.meta.name) &&
        write.value == ReplicaSetObject(rs.(statusReplicas := Desired(rs)))
  {
  }

  // Reconciles of one ReplicaSet, each from a fresh list, each with its own network trouble.
  ghost function Retries(log: seq<Write<Object>>, name: string, troubles: seq<seq<Fault>>): (seq<Write<Object>>, bool)
    decreases |troubles|
  {
    if troubles == [] || !WellTyped(Live(log)) || !IsReplicaSet(Live(log), name) then (log, false)
    else
      var rs := ReplicaSetAt(Live(log), name);
      var out := SendAll(log, troubles[0], ScaleRequests(rs, ManagedPods(rs, ListPods(Live(log)))));
      if out.ok then (out.log, true) else Retries(out.log, name, troubles[1..])
  }

  // However many reconciles fail on the way, once one succeeds the Pod requests that took
  // effect in all of them together are exactly the initial difference, and a reconcile with
  // no network trouble does succeed.
  lemma {:induction false} RetriesMakeExactlyTheMissingRequests(log: seq<Write<Object>>, name: string,
      troubles: seq<seq<Fault>>, rs: ReplicaSet)
    requires Sound(log) && IsReplicaSet(Live(log), name) && SameScale(ReplicaSetAt(Live(log), name), rs)
    requires rs.meta.name == name
    requires NamesAreOurs(Live(log), rs) && TemplateFits(rs)
    ensures var (after, ok) := Retries(log, name, troubles);
      && PodWrites(after) - PodWrites(log) == Distance(Live(log), rs) - Distance(Live(after), rs)
      && (ok ==> Count(Live(after), rs) == Desired(rs) && PodWrites(after) - PodWrites(log) == Distance(Live(log), rs))
      && ([] in troubles ==> ok)
    decreases |troubles|
  {
    hide Sound, NamesAreOurs, SameScale, TemplateFits, Live, PodWrites, ManagedNames, Count, Desired, Distance,
      SendAll, ScaleRequests, IsReplicaSet, ReplicaSetAt;
    if troubles != [] {
      var out := OneRetry(log, name, troubles[0], rs);
      if !out.ok {
        assert troubles == [troubles[0]] + troubles[1..];
        RetriesMakeExactlyTheMissingRequests(out.log, name, troubles[1..], rs);
      }
    }
  }

  lemma OneRetry(log: seq<Write<Object>>, name: string, faults: seq<Fault>, rs: ReplicaSet) returns (out: Outcome)
    requires Sound(log) && IsReplicaSet(Live(log), name) && SameScale(ReplicaSetAt(Live(log), name), rs)
    requires rs.meta.name == name
    requires NamesAreOurs(Live(log), rs) && TemplateFits(rs)
    ensures WellTyped(Live(log))
    ensures var current := ReplicaSetAt(Live(log), name);
      out == SendAll(log, faults, ScaleRequests(current, ManagedPods(current, ListPods(Live(log)))))
    ensures Sound(out.log) && IsReplicaSet(Live(out.log), name) && SameScale(ReplicaSetAt(Live(out.log), name), rs)
    ensures NamesAreOurs(Live(out.log), rs)
    ensures PodWrites(out.log) - PodWrites(log) == Distance(Live(log), rs) - Distance(Live(out.log), rs)
    ensures out.ok ==> Distance(Live(out.log), rs) == 0 && Count(Live(out.log), rs) == Desired(rs)
    ensures faults == [] ==> out.ok
  {
    WellTypedLogGivesWellTypedObjects(log);
    var current := ReplicaSetAt(Live(log), name);
    assert KeyOf(Live(log)[Key(ReplicaSetKind, name)].value) == Key(ReplicaSetKind, name);
    assert StoredReplicaSet(Live(log), current);
    var managed := ManagedPods(current, ListPods(Live(log)));
    out := SendAll(log, faults, ScaleRequests(current, managed));
    SameScaleSameCount(Live(log), current, rs);
    SameScaleSameCount(Live(out.log), current, rs);
    ReconcileMovesTowardsDesired(log, faults, current);
    ReconcileKeepsTheReplicaSet(log, faults, current, managed);
  }
}
