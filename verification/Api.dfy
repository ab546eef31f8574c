// The resources the API server stores, as values.
module Api {
  import opened Text
  import opened Etcd

  datatype Result<+T, +E> = Success(value: T) | Failure(error: E)

  datatype OwnerReference = OwnerReference(kind: string, name: string, uid: string)

  datatype Meta = Meta(
    name: string,
    uid: string,
    resourceVersion: nat,
    labels: map<string, string>,
    annotations: map<string, string>,
    ownerReferences: seq<OwnerReference>)

  datatype Container = Container(name: string, image: string, command: seq<string>)

  datatype PodSpec = PodSpec(nodeName: string, hostNetwork: bool, containers: seq<Container>)

  datatype PodPhase = NoPhase | Pending | Running | Succeeded | Failed

  datatype PodStatus = PodStatus(phase: PodPhase, podIP: string)

  datatype Pod = Pod(meta: Meta, spec: PodSpec, status: PodStatus)

  datatype PodTemplate = PodTemplate(meta: Meta, spec: PodSpec)

  // DeploymentSpec and ReplicaSetSpec have the same fields.
  datatype ScaleSpec = ScaleSpec(replicas: int, selector: map<string, string>, template: PodTemplate)

  datatype Deployment = Deployment(meta: Meta, spec: ScaleSpec, statusReplicas: int)

  datatype ReplicaSet = ReplicaSet(meta: Meta, spec: ScaleSpec, statusReplicas: int)

  datatype NodePhase = NodeReady | NodeNotReady | NodePhaseUnset

  datatype Node = Node(meta: Meta, podCIDR: string, phase: NodePhase)

  datatype ServiceType = TypeUnset | TypeClusterIP | TypeNodePort | TypeOther(text: string)

  datatype ServiceSpec = ServiceSpec(
    selector: map<string, string>,
    serviceType: ServiceType,
    clusterIP: string,
    port: int,
    targetPort: int,
    nodePort: int)

  datatype Service = Service(meta: Meta, spec: ServiceSpec)

  datatype Object =
    | NodeObject(node: Node)
    | PodObject(pod: Pod)
    | DeploymentObject(deployment: Deployment)
    | ReplicaSetObject(replicaSet: ReplicaSet)
    | ServiceObject(service: Service)

  function KindOf(o: Object): Kind
  {
    match o
    case NodeObject(_) => NodeKind
    case PodObject(_) => PodKind
    case DeploymentObject(_) => DeploymentKind
    case ReplicaSetObject(_) => ReplicaSetKind
    case ServiceObject(_) => ServiceKind
  }

  function MetaOf(o: Object): Meta
  {
    match o
    case NodeObject(node) => node.meta
    case PodObject(pod) => pod.meta
    case DeploymentObject(deployment) => deployment.meta
    case ReplicaSetObject(replicaSet) => replicaSet.meta
    case ServiceObject(service) => service.meta
  }

  function KeyOf(o: Object): Key { Key(KindOf(o), MetaOf(o).name) }

  function WithVersion(o: Object, version: nat): Object
  {
    var meta := MetaOf(o).(resourceVersion := version);
    match o
    case NodeObject(node) => NodeObject(node.(meta := meta))
    case PodObject(pod) => PodObject(pod.(meta := meta))
    case DeploymentObject(deployment) => DeploymentObject(deployment.(meta := meta))
    case ReplicaSetObject(replicaSet) => ReplicaSetObject(replicaSet.(meta := meta))
    case ServiceObject(service) => ServiceObject(service.(meta := meta))
  }

  // A missing label reads as the empty string.
  predicate LabelsMatch(selector: map<string, string>, labels: map<string, string>)
  {
    forall key :: key in selector ==> selector[key] == if key in labels then labels[key] else ""
  }

  // A value that differs is refused, and so is a value for a label that is missing; nothing
  // else is.
  lemma LabelsAreRefusedExactly(selector: map<string, string>, labels: map<string, string>)
    ensures !LabelsMatch(selector, labels) <==>
      || (exists key :: key in selector && key in labels && labels[key] != selector[key])
      || (exists key :: key in selector && key !in labels && selector[key] != "")
    ensures LabelsMatch(map[], labels)
  {
  }

  // An empty uid in the question matches every owner of that kind and name.
  predicate HasOwner(owners: seq<OwnerReference>, kind: string, name: string, uid: string)
  {
    exists i ::
      0 <= i < |owners| && owners[i].kind == kind && owners[i].name == name && (uid == "" || owners[i].uid == uid)
  }

  lemma OwnersAreFoundExactly(owners: seq<OwnerReference>, kind: string, name: string, uid: string)
    ensures HasOwner(owners, kind, name, uid) <==>
      exists owner :: owner in owners && owner.kind == kind && owner.name == name && (uid == "" || owner.uid == uid)
  {
  }

  // ---------- the store as the API server reads it ----------

  type Objects = map<Key, Entry<Object>>

  // Every object is stored under its own kind and name.
  predicate WellTyped(live: Objects)
  {
    forall key :: key in live ==> KeyOf(live[key].value) == key
  }

  predicate WellTypedLog(log: seq<Write<Object>>)
  {
    forall i :: 0 <= i < |log| && log[i].Put? ==> KeyOf(log[i].value) == log[i].key
  }

  lemma {:induction false} WellTypedLogGivesWellTypedObjects(log: seq<Write<Object>>)
    requires WellTypedLog(log)
    ensures WellTyped(Live(log))
  {
    forall key | key in Live(log) ensures KeyOf(Live(log)[key].value) == key {
      EntryIsLastWrite(log, key);
    }
  }

  // Reads replace the stored resourceVersion with the ModRevision.
  function Read(live: Objects, key: Key): (o: Object)
    requires key in live
    ensures WellTyped(live) ==> KeyOf(o) == key
  {
    WithVersion(live[key].value, live[key].modRevision)
  }

  // A read gives the stored object with its version, and keeps everything else.
  lemma ReadsKeepAllButTheVersion(live: Objects, key: Key)
    requires key in live
    ensures var o, stored := Read(live, key), live[key].value;
      && KindOf(o) == KindOf(stored)
      && MetaOf(o).resourceVersion == live[key].modRevision
      && MetaOf(o).name == MetaOf(stored).name && MetaOf(o).uid == MetaOf(stored).uid
      && MetaOf(o).labels == MetaOf(stored).labels && MetaOf(o).annotations == MetaOf(stored).annotations
      && MetaOf(o).ownerReferences == MetaOf(stored).ownerReferences
      && match stored
         case NodeObject(node) => o.NodeObject? && o.node.podCIDR == node.podCIDR && o.node.phase == node.phase
         case PodObject(pod) => o.PodObject? && o.pod.spec == pod.spec && o.pod.status == pod.status
         case DeploymentObject(d) =>
           o.DeploymentObject? && o.deployment.spec == d.spec && o.deployment.statusReplicas == d.statusReplicas
         case ReplicaSetObject(rs) =>
           o.ReplicaSetObject? && o.replicaSet.spec == rs.spec && o.replicaSet.statusReplicas == rs.statusReplicas
         case ServiceObject(service) => o.ServiceObject? && o.service.spec == service.spec
  {
  }

  // ---------- lists, in key order ----------

  predicate SortedNames(names: seq<string>)
  {
    forall i, j :: 0 <= i < j < |names| ==> Less(names[i], names[j])
  }

  function NamesOf(live: Objects, kind: Kind): set<string>
  {
    set key | key in live && key.kind == kind :: key.name
  }

  ghost predicate Enumerates(names: seq<string>, s: set<string>)
  {
    SortedNames(names) && forall name :: name in names <==> name in s
  }

  predicate IsLeast(least: string, s: set<string>)
  {
    least in s && forall name :: name in s && name != least ==> Less(least, name)
  }

  lemma {:induction false} SomeLeastName(s: set<string>)
    requires s != {}
    ensures exists least :: IsLeast(least, s)
  {
    var some :| some in s;
    if s == {some} {
      assert IsLeast(some, s);
    } else {
      SomeLeastName(s - {some});
      var rest :| IsLeast(rest, s - {some});
      LessIsTotal(some, rest);
      if Less(some, rest) {
        forall name | name in s && name != some && name != rest ensures Less(some, name) {
          LessIsTransitive(some, rest, name);
        }
        assert IsLeast(some, s);
      } else {
        assert IsLeast(rest, s);
      }
    }
  }

  lemma LeastFirst(least: string, rest: seq<string>, s: set<string>)
    requires IsLeast(least, s) && Enumerates(rest, s - {least})
    ensures Enumerates([least] + rest, s)
  {
    var names := [least] + rest;
    forall i, j | 0 <= i < j < |names| ensures Less(names[i], names[j]) {
      assert names[j] in rest;
    }
  }

  lemma {:induction false} SomeEnumeration(s: set<string>)
    ensures exists names :: Enumerates(names, s)
  {
    if s == {} {
      assert Enumerates([], s);
    } else {
      SomeLeastName(s);
      var least :| IsLeast(least, s);
      SomeEnumeration(s - {least});
      var rest :| Enumerates(rest, s - {least});
      LeastFirst(least, rest, s);
    }
  }

  lemma EmptyEnumeration(names: seq<string>, s: set<string>)
    requires Enumerates(names, s)
    ensures names == [] <==> s == {}
  {
    if names != [] {
      assert names[0] in names;
    } else {
      assert forall name :: name in s ==> name in names;
    }
  }

  lemma {:induction false} EnumerationIsUnique(a: seq<string>, b: seq<string>, s: set<string>)
    requires Enumerates(a, s) && Enumerates(b, s)
    ensures a == b
  {
    EmptyEnumeration(a, s);
    EmptyEnumeration(b, s);
    if s != {} {
      assert a[0] in b && b[0] in a;
      if a[0] != b[0] {
        LessIsAsymmetric(a[0], b[0]);
      }
      TailEnumerates(a, s);
      TailEnumerates(b, s);
      EnumerationIsUnique(a[1..], b[1..], s - {a[0]});
    }
  }

  lemma TailEnumerates(names: seq<string>, s: set<string>)
    requires Enumerates(names, s) && names != []
    ensures Enumerates(names[1..], s - {names[0]})
  {
    LessIsIrreflexive(names[0]);
    forall name ensures name in names[1..] <==> name in s - {names[0]} {
      if name in names[1..] {
        var i :| 0 <= i < |names[1..]| && names[1..][i] == name;
        assert names[i + 1] == name && Less(names[0], names[i + 1]);
      }
    }
  }

  ghost function NamesInOrder(s: set<string>): (names: seq<string>)
    ensures Enumerates(names, s)
  {
    SomeEnumeration(s);
    var result :| Enumerates(result, s);
    result
  }

  function ReadAll(live: Objects, kind: Kind, names: seq<string>): (items: seq<Object>)
    requires forall i :: 0 <= i < |names| ==> Key(kind, names[i]) in live
  {
    seq(|names|, i requires 0 <= i < |names| => Read(live, Key(kind, names[i])))
  }

  // What a List request of one kind returns.
  ghost function List(live: Objects, kind: Kind): (items: seq<Object>)
    requires WellTyped(live)
    ensures forall i :: 0 <= i < |items| ==>
      KindOf(items[i]) == kind && KeyOf(items[i]) in live && items[i] == Read(live, KeyOf(items[i]))
    ensures forall key :: key in live && key.kind == kind ==> Read(live, key) in items
    ensures forall i, j :: 0 <= i < j < |items| ==> Less(MetaOf(items[i]).name, MetaOf(items[j]).name)
  {
    var names := NamesInOrder(NamesOf(live, kind));
    ListOfNames(live, kind, names);
    var items := ReadAll(live, kind, names);
    assert forall key :: key in live && key.kind == kind ==>
      exists i :: 0 <= i < |names| && names[i] == key.name && items[i] == Read(live, key);
    items
  }

  lemma ListOfNames(live: Objects, kind: Kind, names: seq<string>)
    requires Enumerates(names, NamesOf(live, kind))
    ensures forall i :: 0 <= i < |names| ==> Key(kind, names[i]) in live
    ensures forall key :: key in live && key.kind == kind ==> exists i :: 0 <= i < |names| && names[i] == key.name
  {
    forall i | 0 <= i < |names| ensures Key(kind, names[i]) in live {
      assert names[i] in names;
    }
    forall key | key in live && key.kind == kind ensures exists i :: 0 <= i < |names| && names[i] == key.name {
      assert key.name in NamesOf(live, kind);
      assert key.name in names;
    }
  }

  // ---------- typed lists ----------

  function PodsOf(items: seq<Object>): (pods: seq<Pod>)
    requires forall i :: 0 <= i < |items| ==> items[i].PodObject?
  {
    seq(|items|, i requires 0 <= i < |items| => items[i].pod)
  }

  function ReplicaSetsOf(items: seq<Object>): seq<ReplicaSet>
    requires forall i :: 0 <= i < |items| ==> items[i].ReplicaSetObject?
  {
    seq(|items|, i requires 0 <= i < |items| => items[i].replicaSet)
  }

  function DeploymentsOf(items: seq<Object>): seq<Deployment>
    requires forall i :: 0 <= i < |items| ==> items[i].DeploymentObject?
  {
    seq(|items|, i requires 0 <= i < |items| => items[i].deployment)
  }

  function NodesOf(items: seq<Object>): seq<Node>
    requires forall i :: 0 <= i < |items| ==> items[i].NodeObject?
  {
    seq(|items|, i requires 0 <= i < |items| => items[i].node)
  }

  predicate SortedPods(pods: seq<Pod>)
  {
    forall i, j :: 0 <= i < j < |pods| ==> Less(pods[i].meta.name, pods[j].meta.name)
  }

  predicate StoredPod(live: Objects, pod: Pod)
  {
    var key := Key(PodKind, pod.meta.name);
    key in live && live[key].value.PodObject? && Read(live, key) == PodObject(pod)
  }

  ghost function ListPods(live: Objects): (pods: seq<Pod>)
    requires WellTyped(live)
    ensures SortedPods(pods)
    ensures forall pod :: pod in pods <==> StoredPod(live, pod)
  {
    var items := List(live, PodKind);
    var pods := PodsOf(items);
    assert forall i :: 0 <= i < |pods| ==> items[i] == PodObject(pods[i]);
    assert forall pod :: StoredPod(live, pod) ==> Read(live, Key(PodKind, pod.meta.name)) in items;
    pods
  }

  predicate StoredReplicaSet(live: Objects, rs: ReplicaSet)
  {
    var key := Key(ReplicaSetKind, rs.meta.name);
    key in live && live[key].value.ReplicaSetObject? && Read(live, key) == ReplicaSetObject(rs)
  }

  ghost function ListReplicaSets(live: Objects): (sets: seq<ReplicaSet>)
    requires WellTyped(live)
    ensures forall i, j :: 0 <= i < j < |sets| ==> Less(sets[i].meta.name, sets[j].meta.name)
    ensures forall rs :: rs in sets <==> StoredReplicaSet(live, rs)
  {
    var items := List(live, ReplicaSetKind);
    var sets := ReplicaSetsOf(items);
    assert forall i :: 0 <= i < |sets| ==> items[i] == ReplicaSetObject(sets[i]);
    assert forall rs :: StoredReplicaSet(live, rs) ==> Read(live, Key(ReplicaSetKind, rs.meta.name)) in items;
    sets
  }

  ghost function ListDeployments(live: Objects): (deployments: seq<Deployment>)
    requires WellTyped(live)
    ensures forall i, j :: 0 <= i < j < |deployments| ==> Less(deployments[i].meta.name, deployments[j].meta.name)
    ensures forall d :: d in deployments <==>
      var key := Key(DeploymentKind, d.meta.name);
      key in live && live[key].value.DeploymentObject? && Read(live, key) == DeploymentObject(d)
  {
    var items := List(live, DeploymentKind);
    var deployments := DeploymentsOf(items);
    assert forall i :: 0 <= i < |deployments| ==> items[i] == DeploymentObject(deployments[i]);
    assert forall d: Deployment :: var key := Key(DeploymentKind, d.meta.name); key in live ==>
      Read(live, key) in items;
    deployments
  }

  ghost function ListNodes(live: Objects): (nodes: seq<Node>)
    requires WellTyped(live)
    ensures forall i, j :: 0 <= i < j < |nodes| ==> Less(nodes[i].meta.name, nodes[j].meta.name)
    ensures forall node :: node in nodes <==>
      var key := Key(NodeKind, node.meta.name);
      key in live && live[key].value.NodeObject? && Read(live, key) == NodeObject(node)
  {
    var items := List(live, NodeKind);
    var nodes := NodesOf(items);
    assert forall i :: 0 <= i < |nodes| ==> items[i] == NodeObject(nodes[i]);
    assert forall node: Node :: var key := Key(NodeKind, node.meta.name); key in live ==> Read(live, key) in items;
    nodes
  }

  // Two lists of Pods in name order with the same elements are the same list.
  lemma {:induction false} SortedPodsAreDetermined(a: seq<Pod>, b: seq<Pod>)
    requires SortedPods(a) && SortedPods(b) && (forall pod :: pod in a <==> pod in b)
    ensures a == b
  {
    SameElementsBothEmpty(a, b);
    if a != [] {
      FirstPodsAgree(a, b);
      forall pod ensures pod in a[1..] <==> pod in b[1..] {
        TailMembers(a, pod);
        TailMembers(b, pod);
      }
      SortedPodsAreDetermined(a[1..], b[1..]);
    }
  }

  lemma SameElementsBothEmpty<T(!new)>(a: seq<T>, b: seq<T>)
    requires forall x :: x in a <==> x in b
    ensures a == [] <==> b == []
  {
    if a != [] {
      assert a[0] in b;
    }
    if b != [] {
      assert b[0] in a;
    }
  }

  lemma FirstPodsAgree(a: seq<Pod>, b: seq<Pod>)
    requires SortedPods(a) && SortedPods(b) && (forall pod :: pod in a <==> pod in b)
    requires a != [] && b != []
    ensures a[0] == b[0]
  {
    assert a[0] in b && b[0] in a;
    if a[0] != b[0] {
      LessIsAsymmetric(a[0].meta.name, b[0].meta.name);
    }
  }

  lemma TailMembers(pods: seq<Pod>, pod: Pod)
    requires SortedPods(pods) && pods != []
    ensures pod in pods[1..] <==> pod in pods && pod != pods[0]
  {
    LessIsIrreflexive(pods[0].meta.name);
    if pod in pods[1..] {
      var i :| 0 <= i < |pods[1..]| && pods[1..][i] == pod;
      assert pods[i + 1] == pod;
    }
  }

  // The order the keys come in: least name first.
  method InKeyOrder(s: set<string>) returns (names: seq<string>)
    ensures Enumerates(names, s)
  {
    names := [];
    var remaining := s;
    while remaining != {}
      invariant remaining <= s
      invariant Enumerates(names, s - remaining)
      invariant forall name, later :: name in names && later in remaining ==> Less(name, later)
      decreases remaining
    {
      SomeLeastName(remaining);
      var least :| IsLeast(least, remaining);
      forall i | 0 <= i < |names| ensures Less(names[i], least) {
        assert names[i] in names;
      }
      names := names + [least];
      remaining := remaining - {least};
    }
    assert s - remaining == s;
  }
}
