// All components at once: any number of controllers, schedulers and kubelets, each of which
// may act on lists that are arbitrarily old, in any interleaving.
module ControlPlane {
  import opened Text
  import opened Etcd
  import opened Api
  import opened ApiServer
  import opened ReplicaSets
  import opened Services
  import D = Deployments
  import S = Scheduler
  import M = MirrorPods
  import R = ReplicaSetController
  import K = Kubelet
  import U = PodUpdates

  // ---------- actions ----------

  // One request of one component, with the lengths the log had when it made its lists.
  datatype Action =
    | Scale(setsAt: nat, podsAt: nat, rs: ReplicaSet)
    | Sync(deploymentsAt: nat, setsAt: nat, deployment: Deployment)
    | Bind(nodesAt: nat, podsAt: nat, pod: Pod, node: Node)
    | Report(podsAt: nat, pod: Pod, podIP: string)
    | Mirror(podsAt: nat, staticPods: seq<Pod>, nodeName: string)
    | Outside(request: Request)

  predicate HasReplicaSetOwner(pod: Pod, rsName: string)
  {
    HasOwner(pod.meta.ownerReferences, REPLICA_SET, rsName, "")
  }

  predicate NoReplicaSetOwner(pod: Pod)
  {
    forall i :: 0 <= i < |pod.meta.ownerReferences| ==> pod.meta.ownerReferences[i].kind != REPLICA_SET
  }

  // Users may create, change and delete anything, except that they do not overwrite Pods and
  // do not create Pods in the name of a ReplicaSet.
  predicate IsAllowed(request: Request)
  {
    match request
    case Post(body) => body.PodObject? ==> NoReplicaSetOwner(body.pod)
    case Update(_, body) => !body.PodObject?
    case Remove(_, _) => true
  }

  ghost predicate IsMirrorRequest(live: Objects, staticPods: seq<Pod>, nodeName: string, request: Request)
    requires WellTyped(live)
  {
    var current := M.MirrorsIn(ListPods(live));
    || request in M.ShowAll(staticPods, nodeName, current)
    || (exists name ::
      name in current && request == Remove(Key(PodKind, name), Some(current[name].meta.resourceVersion)))
  }

  ghost predicate ListedAt(log: seq<Write<Object>>, at: nat)
  {
    at <= |log| && WellTyped(Live(log[..at]))
  }

  ghost predicate Sends(log: seq<Write<Object>>, action: Action, request: Request)
  {
    match action
    case Scale(setsAt, podsAt, rs) =>
      && ListedAt(log, setsAt) && StoredReplicaSet(Live(log[..setsAt]), rs)
      && ListedAt(log, podsAt) && request in ScaleRequests(rs, ManagedPods(rs, ListPods(Live(log[..podsAt]))))
    case Sync(deploymentsAt, setsAt, deployment) =>
      && ListedAt(log, deploymentsAt) && deployment in ListDeployments(Live(log[..deploymentsAt]))
      && ListedAt(log, setsAt) && request in D.SyncRequests(deployment, ListReplicaSets(Live(log[..setsAt])))
    case Bind(nodesAt, podsAt, pod, node) =>
      && ListedAt(log, nodesAt) && node in ListNodes(Live(log[..nodesAt])) && S.IsReady(node)
      && ListedAt(log, podsAt) && StoredPod(Live(log[..podsAt]), pod)
      && pod.spec.nodeName == "" && request == S.BindRequest(pod, node)
    case Report(podsAt, pod, podIP) =>
      && ListedAt(log, podsAt) && StoredPod(Live(log[..podsAt]), pod)
      && !M.IsMirror(pod) && request == U.RunningRequest(pod, podIP)
    case Mirror(podsAt, staticPods, nodeName) =>
      && (forall i :: 0 <= i < |staticPods| ==> NoReplicaSetOwner(staticPods[i]))
      && ListedAt(log, podsAt) && IsMirrorRequest(Live(log[..podsAt]), staticPods, nodeName, request)
    case Outside(sent) => sent == request && IsAllowed(request)
  }

  ghost predicate Steps(log: seq<Write<Object>>, write: Write<Object>)
  {
    exists action, request :: Sends(log, action, request) && Attempt(Live(log), request) == Success(write)
  }

  // Every write is the effect of some component's request. Refused and lost requests leave
  // no trace in the log.
  ghost predicate Run(log: seq<Write<Object>>)
  {
    forall i :: 0 <= i < |log| ==> Steps(log[..i], log[i])
  }

  lemma RunsArePrefixClosed(log: seq<Write<Object>>, n: nat)
    requires Run(log) && n <= |log|
    ensures Run(log[..n])
  {
    hide Steps;
    forall i | 0 <= i < n ensures Steps(log[..n][..i], log[..n][i]) {
      assert log[..n][..i] == log[..i];
    }
  }

  lemma RunsAreSound(log: seq<Write<Object>>)
    requires Run(log)
    ensures Sound(log) && WellTyped(Live(log))
  {
    hide Attempt, Sends, Sound;
    forall i | 0 <= i < |log| ensures ServedAt(Live(log[..i]), log[i]) {
      assert Steps(log[..i], log[i]);
    }
    EveryServedLogIsSound(log);
    SoundIsWellTyped(log);
  }

  // ---------- the components' own passes are such runs ----------

  ghost predicate SomeoneSends(log: seq<Write<Object>>, request: Request)
  {
    exists action :: Sends(log, action, request)
  }

  ghost predicate SomeoneSendsEach(log: seq<Write<Object>>, requests: seq<Request>)
  {
    forall i :: 0 <= i < |requests| ==> SomeoneSends(log, requests[i])
  }

  // A list does not get wrong by getting old: it stays what was true at its time.
  lemma SentLater(log: seq<Write<Object>>, write: Write<Object>, request: Request)
    requires SomeoneSends(log, request)
    ensures SomeoneSends(log + [write], request)
  {
    var action :| Sends(log, action, request);
    forall at | 0 <= at <= |log| ensures (log + [write])[..at] == log[..at] {
    }
    SameListsSameRequests(log, log + [write], action, request);
  }

  lemma SameListsSameRequests(log: seq<Write<Object>>, later: seq<Write<Object>>, action: Action, request: Request)
    requires Sends(log, action, request) && |log| <= |later|
    requires forall at :: 0 <= at <= |log| ==> later[..at] == log[..at]
    ensures Sends(later, action, request)
  {
    hide Live, ScaleRequests, D.SyncRequests, IsMirrorRequest, StoredPod, StoredReplicaSet, WellTyped;
  }

  lemma OneMoreStep(log: seq<Write<Object>>, request: Request, fault: Fault)
    requires Run(log) && SomeoneSends(log, request)
    ensures Run(AfterExchange(log, request, fault))
  {
    hide Sends, Attempt, Live;
    var after := AfterExchange(log, request, fault);
    var action :| Sends(log, action, request);
    forall i | 0 <= i < |after| ensures Steps(after[..i], after[i]) {
      assert after[..i] == log[..i];
      if i < |log| {
        assert Steps(log[..i], log[i]);
      } else {
        assert log[..i] == log;
      }
    }
  }

  lemma AllSentLater(log: seq<Write<Object>>, request: Request, fault: Fault, requests: seq<Request>)
    requires SomeoneSendsEach(log, requests)
    ensures SomeoneSendsEach(AfterExchange(log, request, fault), requests)
  {
    hide SomeoneSends, Attempt, Live;
    var attempt := Attempt(Live(log), request);
    if attempt.Success? {
      forall i | 0 <= i < |requests| ensures SomeoneSends(log + [attempt.value], requests[i]) {
        SentLater(log, attempt.value, requests[i]);
      }
    }
  }

  lemma {:induction false} SentRequestsExtendTheRun(log: seq<Write<Object>>, faults: seq<Fault>, requests: seq<Request>)
    requires Run(log) && SomeoneSendsEach(log, requests)
    ensures Run(SendAll(log, faults, requests).log)
    decreases |requests|
  {
    hide Run, SomeoneSends, Attempt, Live, AfterExchange, ReplyTo;
    if requests != [] {
      var fault := HeadFault(faults);
      assert SomeoneSends(log, requests[0]);
      OneMoreStep(log, requests[0], fault);
      AllSentLater(log, requests[0], fault, requests[1..]);
      SentRequestsExtendTheRun(AfterExchange(log, requests[0], fault), TailFaults(faults), requests[1..]);
    }
  }

  lemma {:induction false} PassRequestsAreScales(sets: seq<ReplicaSet>, pods: seq<Pod>, request: Request)
    requires request in R.PassRequests(sets, pods)
    ensures exists i :: 0 <= i < |sets| && request in ScaleRequests(sets[i], ManagedPods(sets[i], pods))
  {
    hide ScaleRequests, ManagedPods;
    if request in ScaleRequests(sets[0], ManagedPods(sets[0], pods)) {
    } else {
      PassRequestsAreScales(sets[1..], pods, request);
      var i :| 0 <= i < |sets[1..]| && request in ScaleRequests(sets[1..][i], ManagedPods(sets[1..][i], pods));
      assert sets[i + 1] == sets[1..][i];
    }
  }

  // A pass of the ReplicaSet controller, with lists taken at any earlier points and any
  // network trouble, only makes steps of the run.
  lemma ReplicaSetPassesAreRuns(log: seq<Write<Object>>, faults: seq<Fault>, setsAt: nat, podsAt: nat)
    requires Run(log) && ListedAt(log, setsAt) && ListedAt(log, podsAt)
    ensures Run(SendAll(log, faults,
      R.PassRequests(ListReplicaSets(Live(log[..setsAt])), ListPods(Live(log[..podsAt])))).log)
  {
    hide ScaleRequests, ManagedPods, Live, Run, StoredReplicaSet, SendAll;
    var sets, pods := ListReplicaSets(Live(log[..setsAt])), ListPods(Live(log[..podsAt]));
    var requests := R.PassRequests(sets, pods);
    forall k | 0 <= k < |requests| ensures SomeoneSends(log, requests[k]) {
      PassRequestsAreScales(sets, pods, requests[k]);
      var i :| 0 <= i < |sets| && requests[k] in ScaleRequests(sets[i], ManagedPods(sets[i], pods));
      assert sets[i] in sets;
      assert Sends(log, Scale(setsAt, podsAt, sets[i]), requests[k]);
    }
    SentRequestsExtendTheRun(log, faults, requests);
  }

  lemma {:induction false} SyncAllIsSyncs(deployments: seq<Deployment>, sets: seq<ReplicaSet>, request: Request)
    requires request in D.SyncAll(deployments, sets)
    ensures exists i :: 0 <= i < |deployments| && request in D.SyncRequests(deployments[i], sets)
  {
    hide D.SyncRequests;
    if request in D.SyncRequests(deployments[0], sets) {
    } else {
      SyncAllIsSyncs(deployments[1..], sets, request);
      var i :| 0 <= i < |deployments[1..]| && request in D.SyncRequests(deployments[1..][i], sets);
      assert deployments[i + 1] == deployments[1..][i];
    }
  }

  lemma DeploymentPassesAreRuns(log: seq<Write<Object>>, faults: seq<Fault>, deploymentsAt: nat, setsAt: nat)
    requires Run(log) && ListedAt(log, deploymentsAt) && ListedAt(log, setsAt)
    ensures Run(SendAll(log, faults,
      D.SyncAll(ListDeployments(Live(log[..deploymentsAt])), ListReplicaSets(Live(log[..setsAt])))).log)
  {
    hide D.SyncRequests, Live, Run, StoredReplicaSet, SendAll;
    var deployments, sets := ListDeployments(Live(log[..deploymentsAt])), ListReplicaSets(Live(log[..setsAt]));
    var requests := D.SyncAll(deployments, sets);
    forall k | 0 <= k < |requests| ensures SomeoneSends(log, requests[k]) {
      SyncAllIsSyncs(deployments, sets, requests[k]);
      var i :| 0 <= i < |deployments| && requests[k] in D.SyncRequests(deployments[i], sets);
      assert deployments[i] in deployments;
      assert Sends(log, Sync(deploymentsAt, setsAt, deployments[i]), requests[k]);
    }
    SentRequestsExtendTheRun(log, faults, requests);
  }

  ghost predicate CanBind(log: seq<Write<Object>>, nodes: seq<Node>, pods: seq<Pod>)
  {
    forall i, j :: 0 <= i < |pods| && 0 <= j && S.ReadyAt(nodes, j) && pods[i].spec.nodeName == "" ==>
      SomeoneSends(log, S.BindRequest(pods[i], nodes[j]))
  }

  lemma {:induction false} BindsExtendTheRun(log: seq<Write<Object>>, faults: seq<Fault>, nodes: seq<Node>,
                                             pods: seq<Pod>, cursor: nat)
    requires Run(log) && CanBind(log, nodes, pods)
    ensures Run(S.BindAll(log, faults, nodes, pods, cursor).outcome.log)
    decreases |pods|
  {
    hide Run, SomeoneSends, Attempt, Live, AfterExchange, ReplyTo, S.BindAll, S.NextReady, S.BindRequest;
    if pods == [] {
      S.NothingToBind(log, faults, nodes, cursor);
    } else {
      S.BindAllStep(log, faults, nodes, pods, cursor);
      if pods[0].spec.nodeName != "" {
        BindsExtendTheRun(log, faults, nodes, pods[1..], cursor);
      } else {
        var found := S.NextReady(nodes, cursor);
        if found.Some? {
          var request, fault := S.BindRequest(pods[0], nodes[found.value]), HeadFault(faults);
          var after := AfterExchange(log, request, fault);
          assert SomeoneSends(log, request);
          OneMoreStep(log, request, fault);
          forall i, j | 0 <= i < |pods[1..]| && 0 <= j && S.ReadyAt(nodes, j) && pods[1..][i].spec.nodeName == ""
            ensures SomeoneSends(after, S.BindRequest(pods[1..][i], nodes[j]))
          {
            var later := S.BindRequest(pods[i + 1], nodes[j]);
            assert SomeoneSendsEach(log, [later]);
            AllSentLater(log, request, fault, [later]);
            assert SomeoneSends(after, [later][0]);
          }
          BindsExtendTheRun(after, TailFaults(faults), nodes, pods[1..], S.Advanced(nodes, found.value));
        }
      }
    }
  }

  lemma ListedPodsCanBeBound(log: seq<Write<Object>>, nodesAt: nat, podsAt: nat, pod: Pod, node: Node)
    requires ListedAt(log, nodesAt) && node in ListNodes(Live(log[..nodesAt])) && S.IsReady(node)
    requires ListedAt(log, podsAt) && StoredPod(Live(log[..podsAt]), pod) && pod.spec.nodeName == ""
    ensures SomeoneSends(log, S.BindRequest(pod, node))
  {
    hide Live, StoredPod;
    assert Sends(log, Bind(nodesAt, podsAt, pod, node), S.BindRequest(pod, node));
  }

  lemma SchedulerPassesAreRuns(log: seq<Write<Object>>, faults: seq<Fault>, nodesAt: nat, podsAt: nat, cursor: nat)
    requires Run(log) && ListedAt(log, nodesAt) && ListedAt(log, podsAt)
    ensures Run(S.BindAll(log, faults, ListNodes(Live(log[..nodesAt])), ListPods(Live(log[..podsAt])),
      cursor).outcome.log)
  {
    hide Live, Run, StoredPod, S.BindAll, S.BindRequest, SomeoneSends, Sends;
    var nodes, pods := ListNodes(Live(log[..nodesAt])), ListPods(Live(log[..podsAt]));
    forall i, j | 0 <= i < |pods| && 0 <= j && S.ReadyAt(nodes, j) && pods[i].spec.nodeName == ""
      ensures SomeoneSends(log, S.BindRequest(pods[i], nodes[j]))
    {
      assert pods[i] in pods && nodes[j] in nodes;
      ListedPodsCanBeBound(log, nodesAt, podsAt, pods[i], nodes[j]);
    }
    BindsExtendTheRun(log, faults, nodes, pods, cursor);
  }

  // What a kubelet reports, for the Pods it found assigned to its node.
  lemma KubeletPassesAreRuns(log: seq<Write<Object>>, faults: seq<Fault>, podsAt: nat, nodeName: string,
                             sent: seq<Request>)
    requires Run(log) && ListedAt(log, podsAt)
    requires U.AreReports(K.AssignedPods(ListPods(Live(log[..podsAt])), nodeName), sent)
    ensures Run(SendAll(log, faults, sent).log)
  {
    hide Live, Run, StoredPod, SendAll, SomeoneSends, K.AssignedPods, U.RunningRequest;
    var desired := K.AssignedPods(ListPods(Live(log[..podsAt])), nodeName);
    forall k | 0 <= k < |sent| ensures SomeoneSends(log, sent[k]) {
      assert U.IsReport(desired, sent[k]);
      K.FreshlyAssigned(Live(log[..podsAt]), nodeName, sent[k].name);
      ReportsAreSent(log, podsAt, desired[sent[k].name], sent[k].body.pod.status.podIP);
    }
    SentRequestsExtendTheRun(log, faults, sent);
  }

  lemma ReportsAreSent(log: seq<Write<Object>>, podsAt: nat, pod: Pod, podIP: string)
    requires ListedAt(log, podsAt) && StoredPod(Live(log[..podsAt]), pod) && !M.IsMirror(pod)
    ensures SomeoneSends(log, U.RunningRequest(pod, podIP))
  {
    hide Live, StoredPod;
    assert Sends(log, Report(podsAt, pod, podIP), U.RunningRequest(pod, podIP));
  }

  function RemovalOf(current: map<string, Pod>, name: string): Request
    requires name in current
  {
    Remove(Key(PodKind, current[name].meta.name), Some(current[name].meta.resourceVersion))
  }

  ghost predicate RemovalsAreSent(log: seq<Write<Object>>, current: map<string, Pod>)
  {
    forall name :: name in current ==> SomeoneSends(log, RemovalOf(current, name))
  }

  lemma RemovalsStaySent(log: seq<Write<Object>>, request: Request, fault: Fault, current: map<string, Pod>)
    requires RemovalsAreSent(log, current)
    ensures RemovalsAreSent(AfterExchange(log, request, fault), current)
  {
    hide SomeoneSends, Attempt, Live, RemovalOf;
    var attempt := Attempt(Live(log), request);
    if attempt.Success? {
      forall name | name in current ensures SomeoneSends(log + [attempt.value], RemovalOf(current, name)) {
        SentLater(log, attempt.value, RemovalOf(current, name));
      }
    }
  }

  lemma {:induction false} RemovalsStaySentThroughAll(log: seq<Write<Object>>, faults: seq<Fault>,
                                                      requests: seq<Request>, current: map<string, Pod>)
    requires RemovalsAreSent(log, current)
    ensures RemovalsAreSent(SendAll(log, faults, requests).log, current)
    decreases |requests|
  {
    hide RemovalsAreSent, AfterExchange, ReplyTo;
    if requests != [] {
      RemovalsStaySent(log, requests[0], HeadFault(faults), current);
      RemovalsStaySentThroughAll(AfterExchange(log, requests[0], HeadFault(faults)), TailFaults(faults), requests[1..],
        current);
    }
  }

  lemma {:induction false} RemovalsExtendTheRun(log: seq<Write<Object>>, faults: seq<Fault>, order: seq<string>,
                                                current: map<string, Pod>, desired: set<string>)
    requires (forall i :: 0 <= i < |order| ==> order[i] in current) && Run(log) && RemovalsAreSent(log, current)
    ensures Run(M.HideAll(log, faults, order, current, desired).log)
    decreases |order|
  {
    hide Run, SomeoneSends, AfterExchange, ReplyTo;
    if order != [] {
      if order[0] in desired {
        RemovalsExtendTheRun(log, faults, order[1..], current, desired);
      } else {
        var request, fault := RemovalOf(current, order[0]), HeadFault(faults);
        OneMoreStep(log, request, fault);
        RemovalsStaySent(log, request, fault, current);
        RemovalsExtendTheRun(AfterExchange(log, request, fault), TailFaults(faults), order[1..], current, desired);
      }
    }
  }

  // What a kubelet does about its mirror Pods, with the Pods listed at any earlier point and
  // any network trouble, for manifests that no ReplicaSet owns.
  lemma MirrorPassesAreRuns(log: seq<Write<Object>>, faults: seq<Fault>, podsAt: nat, staticPods: seq<Pod>,
                            nodeName: string, order: seq<string>)
    requires Run(log) && ListedAt(log, podsAt) && forall i :: 0 <= i < |staticPods| ==> NoReplicaSetOwner(staticPods[i])
    requires forall i :: 0 <= i < |order| ==> order[i] in M.MirrorsIn(ListPods(Live(log[..podsAt])))
    ensures Run(M.MirrorPass(log, faults, staticPods, nodeName, M.MirrorsIn(ListPods(Live(log[..podsAt]))), order).log)
  {
    hide Live, Run, SendAll, SomeoneSends, M.MirrorsIn, M.ShowAll, M.HideAll, RemovalsAreSent, NoReplicaSetOwner;
    var current := M.MirrorsIn(ListPods(Live(log[..podsAt])));
    var requests := M.ShowAll(staticPods, nodeName, current);
    forall k | 0 <= k < |requests| ensures SomeoneSends(log, requests[k]) {
      MirrorRequestsAreSent(log, podsAt, staticPods, nodeName, requests[k]);
    }
    SentRequestsExtendTheRun(log, faults, requests);
    MirrorRemovalsAreSent(log, podsAt, nodeName);
    RemovalsStaySentThroughAll(log, faults, requests, current);
    var shown := SendAll(log, faults, requests);
    RemovalsExtendTheRun(shown.log, shown.faults, order, current, M.DesiredNames(staticPods, nodeName));
  }

  lemma MirrorRequestsAreSent(log: seq<Write<Object>>, podsAt: nat, staticPods: seq<Pod>, nodeName: string,
                              request: Request)
    requires ListedAt(log, podsAt) && forall i :: 0 <= i < |staticPods| ==> NoReplicaSetOwner(staticPods[i])
    requires IsMirrorRequest(Live(log[..podsAt]), staticPods, nodeName, request)
    ensures SomeoneSends(log, request)
  {
    hide Live, IsMirrorRequest, NoReplicaSetOwner;
    assert Sends(log, Mirror(podsAt, staticPods, nodeName), request);
  }

  lemma MirrorRemovalsAreSent(log: seq<Write<Object>>, podsAt: nat, nodeName: string)
    requires ListedAt(log, podsAt)
    ensures RemovalsAreSent(log, M.MirrorsIn(ListPods(Live(log[..podsAt]))))
  {
    hide Live, SomeoneSends, M.MirrorsIn;
    var live := Live(log[..podsAt]);
    var current := M.MirrorsIn(ListPods(live));
    forall name | name in current ensures SomeoneSends(log, RemovalOf(current, name)) {
      M.FreshMirrorsAreRight(live, name);
      assert IsMirrorRequest(live, [], nodeName, RemovalOf(current, name));
      MirrorRequestsAreSent(log, podsAt, [], nodeName, RemovalOf(current, name));
    }
  }

  // ---------- never too many replicas ----------

  // No version of the ReplicaSet that was ever stored asks for more than `limit`.
  predicate AsksForAtMost(log: seq<Write<Object>>, rsName: string, limit: nat)
  {
    forall i ::
      0 <= i < |log| && log[i].Put? && log[i].key == Key(ReplicaSetKind, rsName) && log[i].value.ReplicaSetObject? ==>
      Desired(log[i].value.replicaSet) <= limit
  }

  predicate IsNumbered(name: string, rsName: string, limit: nat)
  {
    exists index :: 1 <= index <= limit && PodName(rsName, index) == name
  }

  predicate NumberedIfOwned(key: Key, o: Object, rsName: string, limit: nat)
  {
    o.PodObject? && HasReplicaSetOwner(o.pod, rsName) ==> IsNumbered(key.name, rsName, limit)
  }

  predicate OwnedPodsAreNumbered(log: seq<Write<Object>>, rsName: string, limit: nat)
  {
    forall i :: 0 <= i < |log| && log[i].Put? ==> NumberedIfOwned(log[i].key, log[i].value, rsName, limit)
  }

  lemma {:induction false} CreatedNamesAreSmall(rs: ReplicaSet, used: set<string>, count: nat, request: Request)
    requires request in Creations(rs, used, count)
    ensures request.Post? && request.body.PodObject?
    ensures request.body.pod.meta.ownerReferences == [OwnerReference(REPLICA_SET, rs.meta.name, rs.meta.uid)]
    ensures IsNumbered(request.body.pod.meta.name, rs.meta.name, |used| + count)
    decreases count
  {
    var index := LeastUnused(rs.meta.name, used, 1);
    var name := NextName(rs.meta.name, used);
    var first := Post(PodObject(NewPod(rs, name)));
    assert Creations(rs, used, count) == [first] + Creations(rs, used + {name}, count - 1);
    if request == first {
      assert 1 <= index <= |used| + count && PodName(rs.meta.name, index) == name;
    } else {
      CreatedNamesAreSmall(rs, used + {name}, count - 1, request);
    }
  }

  lemma {:induction false} DeletionsOnlyRemove(pods: seq<Pod>, request: Request)
    requires request in Deletions(pods)
    ensures request.Remove?
  {
    if request != Deletions(pods)[0] {
      DeletionsOnlyRemove(pods[1..], request);
    }
  }

  // By the pigeonhole principle a new Pod's index never passes the desired number: the list
  // may be old, but it has fewer entries than that.
  lemma ScalingCreatesSmallNames(rs: ReplicaSet, live: Objects, request: Request)
    requires WellTyped(live) && request in ScaleRequests(rs, ManagedPods(rs, ListPods(live)))
    ensures request.Post? ==>
      && request.body.PodObject?
      && request.body.pod.meta.ownerReferences == [OwnerReference(REPLICA_SET, rs.meta.name, rs.meta.uid)]
      && IsNumbered(request.body.pod.meta.name, rs.meta.name, Desired(rs))
    ensures request.Update? ==> request.body.ReplicaSetObject?
  {
    hide ScaleRequests, IsNumbered, ManagedNames, StoredAndManaged;
    var managed := ManagedPods(rs, ListPods(live));
    ManagedPodsOfAFreshList(live, rs);
    SortedPodsHaveDistinctNames(managed);
    PlannedNamesAreSmall(rs, managed, request);
  }

  lemma PlannedNamesAreSmall(rs: ReplicaSet, managed: seq<Pod>, request: Request)
    requires request in ScaleRequests(rs, managed) && |Names(managed)| == |managed|
    ensures request.Post? ==>
      && request.body.PodObject?
      && request.body.pod.meta.ownerReferences == [OwnerReference(REPLICA_SET, rs.meta.name, rs.meta.uid)]
      && IsNumbered(request.body.pod.meta.name, rs.meta.name, Desired(rs))
    ensures request.Update? ==> request.body.ReplicaSetObject?
  {
    hide Creations, Deletions, Excess, IsNumbered, Names;
    if request in PodRequests(rs, managed) {
      if |managed| < Desired(rs) {
        CreatedNamesAreSmall(rs, Names(managed), Desired(rs) - |managed|, request);
      } else {
        DeletionsOnlyRemove(Excess(rs, managed), request);
      }
    }
  }

  lemma ListedSetsAskForAtMost(log: seq<Write<Object>>, at: nat, rs: ReplicaSet, limit: nat)
    requires AsksForAtMost(log, rs.meta.name, limit) && at <= |log| && StoredReplicaSet(Live(log[..at]), rs)
    ensures Desired(rs) <= limit
  {
    var key := Key(ReplicaSetKind, rs.meta.name);
    EntryIsLastWrite(log[..at], key);
    var i := Live(log[..at])[key].modRevision - 2;
    assert log[..at][i] == log[i];
  }

  lemma ListedPodsAreNumbered(log: seq<Write<Object>>, at: nat, pod: Pod, rsName: string, limit: nat)
    requires OwnedPodsAreNumbered(log, rsName, limit) && at <= |log| && StoredPod(Live(log[..at]), pod)
    ensures NumberedIfOwned(Key(PodKind, pod.meta.name), PodObject(pod), rsName, limit)
  {
    var key := Key(PodKind, pod.meta.name);
    EntryIsLastWrite(log[..at], key);
    var i := Live(log[..at])[key].modRevision - 2;
    assert log[..at][i] == log[i];
    assert NumberedIfOwned(log[i].key, log[i].value, rsName, limit);
  }

  lemma {:induction false} MirrorsHaveNoOwner(staticPods: seq<Pod>, nodeName: string, current: map<string, Pod>,
                                              request: Request)
    requires (forall i :: 0 <= i < |staticPods| ==> NoReplicaSetOwner(staticPods[i]))
    requires request in M.ShowAll(staticPods, nodeName, current)
    ensures !request.Remove? && request.body.PodObject? && NoReplicaSetOwner(request.body.pod)
    ensures M.IsMirror(request.body.pod)
  {
    hide NoReplicaSetOwner;
    var mirror := M.MirrorOf(staticPods[0], nodeName);
    if request in M.MirrorRequests(mirror, current) {
      MirrorKeepsOwners(staticPods[0], nodeName, current, request);
    } else {
      MirrorsHaveNoOwner(staticPods[1..], nodeName, current, request);
    }
  }

  lemma MirrorKeepsOwners(staticPod: Pod, nodeName: string, current: map<string, Pod>, request: Request)
    requires NoReplicaSetOwner(staticPod) && request in M.MirrorRequests(M.MirrorOf(staticPod, nodeName), current)
    ensures !request.Remove? && request.body.PodObject? && NoReplicaSetOwner(request.body.pod)
    ensures M.IsMirror(request.body.pod)
  {
  }

  lemma SyncSendsReplicaSets(d: Deployment, sets: seq<ReplicaSet>, request: Request)
    requires request in D.SyncRequests(d, sets)
    ensures !request.Remove? && request.body.ReplicaSetObject?
  {
  }

  // What a component sends keeps the numbering, whatever it read.
  lemma SentPodsAreNumbered(log: seq<Write<Object>>, action: Action, request: Request, rsName: string, limit: nat)
    requires Sends(log, action, request) && !request.Remove?
    requires AsksForAtMost(log, rsName, limit) && OwnedPodsAreNumbered(log, rsName, limit)
    ensures NumberedIfOwned(KeyOf(request.body), request.body, rsName, limit)
  {
    hide AsksForAtMost, OwnedPodsAreNumbered, ScaleRequests, IsMirrorRequest, Live, D.SyncRequests, NumberedIfOwned,
      NoReplicaSetOwner;
    match action {
      case Scale(setsAt, podsAt, rs) =>
        ScalingCreatesSmallNames(rs, Live(log[..podsAt]), request);
        if rs.meta.name == rsName {
          ListedSetsAskForAtMost(log, setsAt, rs, limit);
        }
        CreatedPodsAreNumbered(rs, request.body, rsName, limit);
      case Sync(deploymentsAt, setsAt, d) =>
        SyncSendsReplicaSets(d, ListReplicaSets(Live(log[..setsAt])), request);
        OtherObjectsAreNumbered(request.body, rsName, limit);
      case Bind(nodesAt, podsAt, pod, node) =>
        ListedPodsAreNumbered(log, podsAt, pod, rsName, limit);
        SameMetaSameNumber(pod, request.body.pod, rsName, limit);
      case Report(podsAt, pod, podIP) =>
        ListedPodsAreNumbered(log, podsAt, pod, rsName, limit);
        SameMetaSameNumber(pod, request.body.pod, rsName, limit);
      case Mirror(podsAt, staticPods, nodeName) =>
        MirrorRequestsHaveNoOwner(Live(log[..podsAt]), staticPods, nodeName, request);
        OtherObjectsAreNumbered(request.body, rsName, limit);
      case Outside(_) =>
        OtherObjectsAreNumbered(request.body, rsName, limit);
    }
  }

  lemma CreatedPodsAreNumbered(rs: ReplicaSet, o: Object, rsName: string, limit: nat)
    requires o.PodObject? ==>
      && o.pod.meta.ownerReferences == [OwnerReference(REPLICA_SET, rs.meta.name, rs.meta.uid)]
      && IsNumbered(o.pod.meta.name, rs.meta.name, Desired(rs))
    requires rs.meta.name == rsName ==> Desired(rs) <= limit
    ensures NumberedIfOwned(KeyOf(o), o, rsName, limit)
  {
  }

  lemma OtherObjectsAreNumbered(o: Object, rsName: string, limit: nat)
    requires o.PodObject? ==> NoReplicaSetOwner(o.pod)
    ensures NumberedIfOwned(KeyOf(o), o, rsName, limit)
  {
  }

  lemma SameMetaSameNumber(pod: Pod, after: Pod, rsName: string, limit: nat)
    requires NumberedIfOwned(Key(PodKind, pod.meta.name), PodObject(pod), rsName, limit) && after.meta == pod.meta
    ensures NumberedIfOwned(Key(PodKind, after.meta.name), PodObject(after), rsName, limit)
  {
  }

  lemma MirrorRequestsHaveNoOwner(live: Objects, staticPods: seq<Pod>, nodeName: string, request: Request)
    requires forall i :: 0 <= i < |staticPods| ==> NoReplicaSetOwner(staticPods[i])
    requires WellTyped(live) && IsMirrorRequest(live, staticPods, nodeName, request) && !request.Remove?
    ensures request.body.PodObject? && NoReplicaSetOwner(request.body.pod) && M.IsMirror(request.body.pod)
  {
    MirrorsHaveNoOwner(staticPods, nodeName, M.MirrorsIn(ListPods(live)), request);
  }

  lemma StoredAsSent(live: Objects, request: Request)
    requires WellTyped(live) && Attempt(live, request).Success? && Attempt(live, request).value.Put?
    ensures var write := Attempt(live, request).value;
      && !request.Remove? && write.key == KeyOf(request.body)
      && (write.value.PodObject? || request.body.PodObject? ==> write.value == request.body)
  {
    hide Prepare;
    if request.Post? {
      PreparedKeepsKey(live, request.body, "");
    } else if request.Update? {
      PreparedKeepsKey(live, request.body, request.name);
    }
  }

  lemma {:induction false} OwnedPodsStayNumbered(log: seq<Write<Object>>, rsName: string, limit: nat)
    requires Run(log) && AsksForAtMost(log, rsName, limit)
    ensures OwnedPodsAreNumbered(log, rsName, limit)
  {
    hide NumberedIfOwned, Attempt, Sends, Sound;
    if log != [] {
      var n := |log| - 1;
      var before := log[..n];
      RunsArePrefixClosed(log, n);
      RunsAreSound(before);
      assert AsksForAtMost(before, rsName, limit);
      OwnedPodsStayNumbered(before, rsName, limit);
      assert Steps(before, log[n]);
      if log[n].Put? {
        var action, request :| Sends(before, action, request) && Attempt(Live(before), request) == Success(log[n]);
        StoredAsSent(Live(before), request);
        SentPodsAreNumbered(before, action, request, rsName, limit);
        WriteIsNumbered(log[n], request, rsName, limit);
      }
      forall i | 0 <= i < |log| && log[i].Put? ensures NumberedIfOwned(log[i].key, log[i].value, rsName, limit) {
        assert i < n ==> log[i] == before[i];
      }
    }
  }

  lemma WriteIsNumbered(write: Write<Object>, request: Request, rsName: string, limit: nat)
    requires write.Put? && !request.Remove? && write.key == KeyOf(request.body)
    requires write.value.PodObject? ==> write.value == request.body
    requires NumberedIfOwned(KeyOf(request.body), request.body, rsName, limit)
    ensures NumberedIfOwned(write.key, write.value, rsName, limit)
  {
  }

  predicate OwnedKey(live: Objects, rsName: string, key: Key)
  {
    key in live && key.kind.PodKind? && live[key].value.PodObject? && HasReplicaSetOwner(live[key].value.pod, rsName)
  }

  function OwnedNames(live: Objects, rsName: string): set<string>
  {
    set key | key in live && OwnedKey(live, rsName, key) :: key.name
  }

  // Under any number of controllers acting on lists of any age, with Pods deleted, bound and
  // reported in between, a ReplicaSet that never asks for more than `limit` never owns more
  // than `limit` Pods at a time, and they all carry the first `limit` of its names.
  lemma NeverTooManyReplicas(log: seq<Write<Object>>, at: nat, rsName: string, limit: nat)
    requires Run(log) && AsksForAtMost(log, rsName, limit) && at <= |log|
    ensures |OwnedNames(Live(log[..at]), rsName)| <= limit
    ensures forall name :: name in OwnedNames(Live(log[..at]), rsName) ==> IsNumbered(name, rsName, limit)
  {
    OwnedPodsStayNumbered(log, rsName, limit);
    var owned := OwnedNames(Live(log[..at]), rsName);
    forall name | name in owned ensures IsNumbered(name, rsName, limit) {
      var key := Key(PodKind, name);
      EntryIsLastWrite(log[..at], key);
      var i := Live(log[..at])[key].modRevision - 2;
      assert log[..at][i] == log[i];
    }
    NumberedNamesAreFew(owned, rsName, limit);
  }

  lemma {:induction false} NumberedNamesAreFew(names: set<string>, rsName: string, limit: nat)
    requires forall name :: name in names ==> IsNumbered(name, rsName, limit)
    ensures |names| <= limit
  {
    if limit == 0 {
      if name :| name in names {
        assert IsNumbered(name, rsName, limit);
      }
    } else {
      var last := PodName(rsName, limit);
      forall name | name in names - {last} ensures IsNumbered(name, rsName, limit - 1) {
        var index :| 1 <= index <= limit && PodName(rsName, index) == name;
      }
      NumberedNamesAreFew(names - {last}, rsName, limit - 1);
    }
  }

  // ---------- binding is permanent ----------

  // What may happen to a stored Pod without deleting it. Mirrors stay mirrors. Any other Pod
  // keeps its owners, labels and spec, except that it may be given a node if it has none.
  predicate GoesOn(before: Pod, after: Pod)
  {
    && (M.IsMirror(before) <==> M.IsMirror(after))
    && (!M.IsMirror(before) ==>
          && after.meta.ownerReferences == before.meta.ownerReferences && after.meta.labels == before.meta.labels
          && after.spec == before.spec.(nodeName := after.spec.nodeName)
          && (before.spec.nodeName != "" ==> after.spec.nodeName == before.spec.nodeName))
  }

  // The sender changes the Pod it read, and the server takes the update only if that Pod is
  // still the stored one.
  lemma ReadPodIsTheStoredOne(log: seq<Write<Object>>, at: nat, pod: Pod)
    requires at <= |log| && StoredPod(Live(log[..at]), pod)
    requires CanUpdate(Live(log), Key(PodKind, pod.meta.name), pod.meta.resourceVersion)
    ensures StoredPod(Live(log), pod)
  {
    VersionsPreventLostUpdates(log, at, Key(PodKind, pod.meta.name));
  }

  lemma StoredPodGoesOn(live: Objects, pod: Pod, after: Pod)
    requires StoredPod(live, pod) && GoesOn(pod, after)
    ensures GoesOn(live[Key(PodKind, pod.meta.name)].value.pod, after)
  {
  }

  lemma UpdatesNeedTheVersion(live: Objects, request: Request)
    requires Attempt(live, request).Success? && request.Update?
    ensures CanUpdate(live, KeyOf(request.body), MetaOf(request.body).resourceVersion)
  {
  }

  lemma CreationsNeedAbsence(log: seq<Write<Object>>, request: Request)
    requires Attempt(Live(log), request).Success? && request.Post?
    ensures KeyOf(request.body) !in Live(log)
  {
    VersionIsZeroExactlyWhenAbsent(log, KeyOf(request.body));
  }

  lemma {:induction false} MirrorUpdatesReplaceMirrors(staticPods: seq<Pod>, nodeName: string, live: Objects,
                                                       current: map<string, Pod>, request: Request)
    requires (forall name :: M.RightFor(live, current, name)) && request in M.ShowAll(staticPods, nodeName, current)
    requires request.Update?
    ensures request.body.PodObject? && M.IsMirror(request.body.pod)
    ensures var name := request.body.pod.meta.name;
      name in current && M.IsMirror(current[name]) && StoredPod(live, current[name]) &&
      current[name].meta.name == name && current[name].meta.resourceVersion == request.body.pod.meta.resourceVersion
  {
    hide M.RightFor;
    var mirror := M.MirrorOf(staticPods[0], nodeName);
    if request in M.MirrorRequests(mirror, current) {
      assert M.RightFor(live, current, mirror.meta.name);
      RightMirrorsAreStored(live, current, mirror.meta.name);
    } else {
      MirrorUpdatesReplaceMirrors(staticPods[1..], nodeName, live, current, request);
    }
  }

  lemma RightMirrorsAreStored(live: Objects, current: map<string, Pod>, name: string)
    requires M.RightFor(live, current, name)
    ensures name in current ==>
      StoredPod(live, current[name]) && current[name].meta.name == name && M.IsMirror(current[name])
  {
  }

  lemma MirrorActionGoesOn(log: seq<Write<Object>>, at: nat, staticPods: seq<Pod>, nodeName: string, request: Request)
    requires ListedAt(log, at) && IsMirrorRequest(Live(log[..at]), staticPods, nodeName, request)
    requires request.Update? && request.body.PodObject?
    requires CanUpdate(Live(log), KeyOf(request.body), MetaOf(request.body).resourceVersion)
    ensures exists pod ::
      StoredPod(Live(log), pod) && pod.meta.name == request.body.pod.meta.name && GoesOn(pod, request.body.pod)
  {
    hide Live, StoredPod, M.RightFor, M.ShowAll;
    var listed := Live(log[..at]);
    var current := M.MirrorsIn(ListPods(listed));
    forall name ensures M.RightFor(listed, current, name) {
      M.FreshMirrorsAreRight(listed, name);
    }
    MirrorUpdatesReplaceMirrors(staticPods, nodeName, listed, current, request);
    ReadPodIsTheStoredOne(log, at, current[request.body.pod.meta.name]);
  }

  lemma SentUpdateGoesOn(log: seq<Write<Object>>, action: Action, request: Request)
    requires Sends(log, action, request) && request.Update? && request.body.PodObject?
    requires CanUpdate(Live(log), KeyOf(request.body), MetaOf(request.body).resourceVersion)
    ensures exists pod ::
      StoredPod(Live(log), pod) && pod.meta.name == request.body.pod.meta.name && GoesOn(pod, request.body.pod)
  {
    hide ScaleRequests, IsMirrorRequest, Live, StoredPod, D.SyncRequests;
    match action {
      case Scale(setsAt, podsAt, rs) =>
        ScalingCreatesSmallNames(rs, Live(log[..podsAt]), request);
      case Sync(deploymentsAt, setsAt, d) =>
        SyncSendsReplicaSets(d, ListReplicaSets(Live(log[..setsAt])), request);
      case Bind(nodesAt, podsAt, pod, node) =>
        ReadPodIsTheStoredOne(log, podsAt, pod);
        assert GoesOn(pod, request.body.pod);
      case Report(podsAt, pod, podIP) =>
        ReadPodIsTheStoredOne(log, podsAt, pod);
        assert GoesOn(pod, request.body.pod);
      case Mirror(podsAt, staticPods, nodeName) =>
        MirrorActionGoesOn(log, podsAt, staticPods, nodeName, request);
      case Outside(_) =>
    }
  }

  // A write to the key of a stored Pod that is not its deletion is an update of that very Pod.
  lemma OverwritingGoesOn(log: seq<Write<Object>>, write: Write<Object>, key: Key)
    requires Sound(log) && WellTyped(Live(log)) && Steps(log, write)
    requires write.Put? && write.key == key && key.kind.PodKind? && key in Live(log)
    ensures Live(log)[key].value.PodObject? && write.value.PodObject?
    ensures GoesOn(Live(log)[key].value.pod, write.value.pod)
  {
    hide Sends, Attempt, Live, Sound, GoesOn;
    var action, request :| Sends(log, action, request) && Attempt(Live(log), request) == Success(write);
    StoredAsSent(Live(log), request);
    PodKeysHoldPods(Live(log), key);
    if request.Post? {
      CreationsNeedAbsence(log, request);
    } else {
      UpdatesNeedTheVersion(Live(log), request);
      assert request.body.PodObject?;
      SentUpdateGoesOn(log, action, request);
      var pod :| StoredPod(Live(log), pod) && pod.meta.name == request.body.pod.meta.name &&
        GoesOn(pod, request.body.pod);
      StoredPodGoesOn(Live(log), pod, request.body.pod);
    }
  }

  lemma PodKeysHoldPods(live: Objects, key: Key)
    requires WellTyped(live) && key in live && key.kind.PodKind?
    ensures live[key].value.PodObject?
  {
    assert KeyOf(live[key].value) == key;
  }

  ghost predicate NotDeleted(log: seq<Write<Object>>, key: Key, from: nat, to: nat)
  {
    forall i :: from <= i < to && i < |log| ==> log[i] != Erase(key)
  }

  // In every run, from one deletion of a Pod to the next: a Pod once bound stays bound to
  // the same node, whatever schedulers, kubelets and controllers do with old lists; and
  // nothing else in its spec ever changes.
  lemma {:induction false} BindingIsPermanent(log: seq<Write<Object>>, a: nat, b: nat, key: Key)
    requires Run(log) && a <= b <= |log| && key.kind.PodKind? && key in Live(log[..a]) && NotDeleted(log, key, a, b)
    ensures key in Live(log[..b])
    ensures Live(log[..a])[key].value.PodObject? && Live(log[..b])[key].value.PodObject?
    ensures GoesOn(Live(log[..a])[key].value.pod, Live(log[..b])[key].value.pod)
    decreases b
  {
    hide Sound, Steps, GoesOn, WellTyped;
    RunsArePrefixClosed(log, a);
    RunsAreSound(log[..a]);
    PodKeysHoldPods(Live(log[..a]), key);
    if a == b {
      ItGoesOn(Live(log[..a])[key].value.pod);
    } else {
      var before := log[..b - 1];
      BindingIsPermanent(log, a, b - 1, key);
      RunsArePrefixClosed(log, b - 1);
      RunsAreSound(before);
      assert log[..b][..b - 1] == before && log[..b][b - 1] == log[b - 1];
      assert Steps(before, log[b - 1]);
      if log[b - 1].key == key {
        OverwritingGoesOn(before, log[b - 1], key);
        GoesOnAndOn(Live(log[..a])[key].value.pod, Live(before)[key].value.pod, log[b - 1].value.pod);
      }
    }
  }

  lemma ItGoesOn(pod: Pod)
    ensures GoesOn(pod, pod)
  {
  }

  lemma GoesOnAndOn(a: Pod, b: Pod, c: Pod)
    requires GoesOn(a, b) && GoesOn(b, c)
    ensures GoesOn(a, c)
  {
  }
}
