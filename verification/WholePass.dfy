// One pass of every component with the network doing its work: the controllers, the scheduler
// and the kubelets of all nodes, one after another.
module WholePass {
  import opened Text
  import opened Etcd
  import opened Api
  import opened ApiServer
  import opened Cni
  import opened PodUpdates
  import opened Convergence
  import C = Cri
  import M = Runtime
  import T = StaticPods
  import B = Starts
  import D = Deployments
  import R = ReplicaSetController
  import S = Scheduler
  import K = Kubelet

  // ---------- one kubelet ----------

  // The node can take the Pods it is assigned: their processes start, there are addresses for
  // those that need one, and none has the name of a static Pod.
  ghost predicate CanHost(net: M.Network, node: M.Machine, starts: map<string, T.Start>, desired: map<string, Pod>)
  {
    K.CanRun(net, node, starts, desired, desired.Keys) && K.NamesApart(node, desired)
  }

  // The same Pods, as far as starting them goes.
  predicate SameToStart(a: map<string, Pod>, b: map<string, Pod>)
  {
    a.Keys == b.Keys && forall name :: name in a ==>
      a[name].meta.name == b[name].meta.name && a[name].spec == b[name].spec
  }

  lemma ReportsKeepAssignments(bound: seq<Write<Object>>, log: seq<Write<Object>>, nodeName: string)
    requires WellTyped(Live(bound)) && WellTyped(Live(log)) && GoOn(Live(bound), Live(log))
    requires EveryPodIsBound(Live(bound))
    ensures SameToStart(K.Assigned(bound, nodeName), K.Assigned(log, nodeName))
  {
    hide Live, GoOn, EveryPodIsBound, K.AssignedPods, K.AssignedAt, StoredPod;
    var a, b := K.Assigned(bound, nodeName), K.Assigned(log, nodeName);
    forall name
      ensures name in a <==> name in b
      ensures name in a ==> a[name].meta.name == b[name].meta.name && a[name].spec == b[name].spec
    {
      K.FreshlyAssigned(Live(bound), nodeName, name);
      K.FreshlyAssigned(Live(log), nodeName, name);
      AssignedStays(Live(bound), Live(log), name, nodeName);
      if name in a {
        SameSpec(Live(bound), Live(log), a[name], b[name]);
      }
    }
  }

  lemma SameSpec(before: Objects, after: Objects, a: Pod, b: Pod)
    requires GoOn(before, after) && EveryPodIsBound(before)
    requires StoredPod(before, a) && StoredPod(after, b) && a.meta.name == b.meta.name
    ensures a.spec == b.spec
  {
    assert GoesOnAt(before, after, Key(PodKind, a.meta.name));
  }

  lemma SameToHost(net: M.Network, node: M.Machine, starts: map<string, T.Start>, a: map<string, Pod>,
                   b: map<string, Pod>)
    requires SameToStart(a, b)
    ensures CanHost(net, node, starts, a) ==> CanHost(net, node, starts, b)
    ensures K.HasStarts(node, starts, a) ==> K.HasStarts(node, starts, b)
  {
    hide K.NewStartsFor, K.Idle, B.FreeHosts, M.HasBox, K.IsRunning;
    assert K.Addressless(net, node, a, a.Keys) == K.Addressless(net, node, b, b.Keys);
    assert forall name :: name in b && name in starts ==>
      (K.StartWorks(net, node, a[name], starts[name]) <==> K.StartWorks(net, node, b[name], starts[name]));
  }

  // Between the kubelets' reconciles: everything is scheduled, and nothing but statuses has
  // changed since `bound`.
  ghost predicate Reporting(bound: seq<Write<Object>>, log: seq<Write<Object>>)
  {
    IsScheduled(bound) && IsScheduled(log) && GoOn(Live(bound), Live(log))
  }

  lemma Beforehand(bound: seq<Write<Object>>, log: seq<Write<Object>>, nodeName: string, net: M.Network,
                   node: M.Machine, starts: map<string, T.Start>)
    requires Reporting(bound, log) && K.HasStarts(node, starts, K.Assigned(bound, nodeName))
    ensures WellTyped(Live(log)) && PodsAreValid(Live(log))
    ensures K.HasStarts(node, starts, K.Assigned(log, nodeName))
    ensures CanHost(net, node, starts, K.Assigned(bound, nodeName)) ==>
      CanHost(net, node, starts, K.Assigned(log, nodeName))
    ensures NodeIsRight(Live(log), View(nodeName, node)) ==> K.IsSettled(node, K.Assigned(log, nodeName))
  {
    hide Sound, Live, K.HasStarts, NodeIsRight, CanHost, GoOn, K.AssignedPods, K.IsSettled, PodsAreValid,
      EveryPodIsBound,
      DeploymentsAreSynced, ReplicaSetsAreScaled, SomeReadyNode;
    ReportsKeepAssignments(bound, log, nodeName);
    SameToHost(net, node, starts, K.Assigned(bound, nodeName), K.Assigned(log, nodeName));
    if NodeIsRight(Live(log), View(nodeName, node)) {
      RightNodesAreSettled(Live(log), View(nodeName, node));
    }
  }

  lemma Afterwards(bound: seq<Write<Object>>, log: seq<Write<Object>>, nodeName: string, before: M.Machine,
                   after: M.Machine, sent: seq<Request>)
    requires Reporting(bound, log) && HasReconciled(Live(log), KubeletPass(nodeName, before, after, sent))
    ensures var out := SendAll(log, [], sent);
      && out.faults == [] && Reporting(bound, out.log) && GoOn(Live(log), Live(out.log))
      && NodeIsRight(Live(out.log), View(nodeName, after))
  {
    hide Sound, Live, SendAll, NodeIsRight, GoOn, HasReconciled, PodsAreValid, EveryPodIsBound, DeploymentsAreSynced,
      ReplicaSetsAreScaled, SomeReadyNode;
    PassMakesTheNodeRight(log, KubeletPass(nodeName, before, after, sent));
    NoFaultsStayNoFaults(log, sent);
    var end := SendAll(log, [], sent).log;
    ScheduledGoesOn(log, end);
    GoOnAndOn(Live(bound), Live(log), Live(end));
  }

  lemma ReportingIsWellTyped(bound: seq<Write<Object>>, log: seq<Write<Object>>)
    requires Reporting(bound, log)
    ensures WellTyped(Live(bound)) && WellTyped(Live(log))
  {
  }

  lemma HostsHaveNamesApart(net: M.Network, node: M.Machine, starts: map<string, T.Start>, desired: map<string, Pod>)
    requires CanHost(net, node, starts, desired)
    ensures K.CanRun(net, node, starts, desired, desired.Keys) && K.NamesApart(node, desired)
  {
  }

  method ReconcileNode(kubelet: K.Kubelet, starts: map<string, T.Start>, stops: Commands,
                       ghost bound: seq<Write<Object>>)
    returns (ok: bool)
    requires kubelet.Ready() && kubelet.client.faults == [] && Reporting(bound, kubelet.client.server.etcd.log)
    requires K.HasStarts(kubelet.runtime.Held(), starts, K.Assigned(bound, kubelet.nodeName))
    requires CanHost(kubelet.runtime.Net(), kubelet.runtime.Held(), starts, K.Assigned(bound, kubelet.nodeName)) ||
      NodeIsRight(Live(kubelet.client.server.etcd.log), View(kubelet.nodeName, kubelet.runtime.Held()))
    modifies kubelet.client, kubelet.client.server.etcd, kubelet.runtime, kubelet.runtime.network
    ensures kubelet.Ready() && kubelet.client.faults == [] && ok
    ensures Reporting(bound, kubelet.client.server.etcd.log)
    ensures GoOn(Live(old(kubelet.client.server.etcd.log)), Live(kubelet.client.server.etcd.log))
    ensures NodeIsRight(Live(kubelet.client.server.etcd.log), View(kubelet.nodeName, kubelet.runtime.Held()))
    ensures NodeIsRight(Live(old(kubelet.client.server.etcd.log)),
      View(kubelet.nodeName, old(kubelet.runtime.Held()))) ==>
      kubelet.client.server.etcd.log == old(kubelet.client.server.etcd.log) &&
        kubelet.runtime.Held() == old(kubelet.runtime.Held())
  {
    hide Sound, Live, SendAll, K.HasStarts, NodeIsRight, CanHost, GoOn, IsScheduled, K.AssignedPods, K.IsSettled,
      K.IsExact, AreReports, ReportedNames, K.NeedsReport, K.NamesApart, T.Runs, K.CanRun, PodsAreValid,
      EveryPodIsBound;
    ghost var log, before, net := kubelet.client.server.etcd.log, kubelet.runtime.Held(), kubelet.runtime.Net();
    ghost var right := NodeIsRight(Live(log), View(kubelet.nodeName, before));
    assert Reporting(bound, log) && WellTyped(Live(log)) by { ReportingIsWellTyped(bound, log); }
    Beforehand(bound, log, kubelet.nodeName, net, before, starts);
    ghost var mine := K.Assigned(log, kubelet.nodeName);
    if !right {
      HostsHaveNamesApart(net, before, starts, mine);
    }
    ghost var desired, sent;
    ok, desired, sent := kubelet.ReconcileWorkloads(starts, stops);
    if right {
      ItGoesOn(Live(log));
      K.NothingSent(log, []);
    } else {
      Afterwards(bound, log, kubelet.nodeName, before, kubelet.runtime.Held(), sent);
    }
  }

  // ---------- all kubelets ----------

  // The kubelets of one server, each with a runtime and a network of its own.
  predicate AreSeparate(client: Client, kubelets: seq<K.Kubelet>)
  {
    && (forall i :: 0 <= i < |kubelets| ==> kubelets[i].client == client)
    && (forall i, j :: 0 <= i < |kubelets| && 0 <= j < |kubelets| && i != j ==>
          kubelets[i].runtime != kubelets[j].runtime &&
          (kubelets[i].runtime.network == null || kubelets[i].runtime.network != kubelets[j].runtime.network))
  }

  function Machines(kubelets: seq<K.Kubelet>): set<object?>
  {
    (set i | 0 <= i < |kubelets| :: kubelets[i].runtime) + (set i | 0 <= i < |kubelets| :: kubelets[i].runtime.network)
  }

  ghost predicate NodesAreValid(kubelets: seq<K.Kubelet>)
    reads Machines(kubelets)
  {
    forall i :: 0 <= i < |kubelets| ==> kubelets[i].runtime.Valid() && T.Tidy(kubelets[i].runtime.Held())
  }

  function Views(kubelets: seq<K.Kubelet>): (views: seq<View>)
    reads Machines(kubelets)
    ensures |views| == |kubelets|
    ensures forall i :: 0 <= i < |views| ==> views[i] == View(kubelets[i].nodeName, kubelets[i].runtime.Held())
  {
    if kubelets == [] then []
    else
      var n := |kubelets| - 1;
      assert Machines(kubelets[..n]) <= Machines(kubelets);
      Views(kubelets[..n]) + [View(kubelets[n].nodeName, kubelets[n].runtime.Held())]
  }

  // Every kubelet has fresh processes to start its Pods with, and can take them or has
  // nothing to do.
  ghost predicate CanReconcile(log: seq<Write<Object>>, kubelets: seq<K.Kubelet>, starts: seq<map<string, T.Start>>)
    requires |starts| == |kubelets|
    reads Machines(kubelets)
  {
    && IsScheduled(log)
    && forall i :: 0 <= i < |kubelets| ==>
         NodeCanReconcile(log, kubelets[i].nodeName, kubelets[i].runtime.Net(), Views(kubelets)[i].node, starts[i])
  }

  ghost predicate NodeCanReconcile(log: seq<Write<Object>>, nodeName: string, net: M.Network, node: M.Machine,
                                   starts: map<string, T.Start>)
  {
    && K.HasStarts(node, starts, K.Assigned(log, nodeName))
    && (CanHost(net, node, starts, K.Assigned(log, nodeName)) || NodeIsRight(Live(log), View(nodeName, node)))
  }

  lemma NodeStaysReady(bound: seq<Write<Object>>, log: seq<Write<Object>>, nodeName: string, net: M.Network,
                       node: M.Machine, starts: map<string, T.Start>)
    requires Reporting(bound, log) && NodeCanReconcile(bound, nodeName, net, node, starts)
    ensures K.HasStarts(node, starts, K.Assigned(bound, nodeName))
    ensures CanHost(net, node, starts, K.Assigned(bound, nodeName)) || NodeIsRight(Live(log), View(nodeName, node))
    ensures NodeIsRight(Live(bound), View(nodeName, node)) ==> NodeIsRight(Live(log), View(nodeName, node))
  {
    hide Live, NodeIsRight, CanHost, GoOn, K.AssignedPods, EveryPodIsBound, K.HasStarts;
    if NodeIsRight(Live(bound), View(nodeName, node)) {
      NodesStayRight(Live(bound), Live(log), View(nodeName, node));
    }
  }

  lemma RightOnesStayRight(bound: seq<Write<Object>>, before: seq<Write<Object>>, after: seq<Write<Object>>,
                           views: seq<View>)
    requires Reporting(bound, before) && GoOn(Live(before), Live(after)) && NodesAreRight(Live(before), views)
    ensures NodesAreRight(Live(after), views)
  {
    hide Live, NodeIsRight, GoOn, EveryPodIsBound;
    forall i | 0 <= i < |views| ensures NodeIsRight(Live(after), views[i]) {
      NodesStayRight(Live(before), Live(after), views[i]);
    }
  }

  lemma OneMoreRight(bound: seq<Write<Object>>, before: seq<Write<Object>>, after: seq<Write<Object>>,
                     current: seq<View>, now: seq<View>, views: seq<View>, i: nat)
    requires Reporting(bound, before) && GoOn(Live(before), Live(after)) && i < |current| == |views|
    requires NodesAreRight(Live(before), current[..i]) && current[i..] == views[i..]
    requires |now| == |current| && now == current[i := now[i]] && NodeIsRight(Live(after), now[i])
    ensures NodesAreRight(Live(after), now[..i + 1]) && now[i + 1..] == views[i + 1..]
    ensures current == views && now[i] == current[i] ==> now == views
  {
    hide Live, NodeIsRight, GoOn, Reporting;
    RightOnesStayRight(bound, before, after, current[..i]);
    var upTo := now[..i + 1];
    forall j | 0 <= j < |upTo| ensures NodeIsRight(Live(after), upTo[j]) {
      assert j < i ==> upTo[j] == current[..i][j];
    }
    assert now[i + 1..] == current[i..][1..] == views[i + 1..];
  }

  lemma ItIsNext(client: Client, bound: seq<Write<Object>>, kubelets: seq<K.Kubelet>, starts: seq<map<string, T.Start>>,
                 views: seq<View>, current: seq<View>, i: nat)
    requires i < |kubelets| == |views| == |current| == |starts| && current[i..] == views[i..]
    requires AreSeparate(client, kubelets)
    ensures current[i] == views[i] && kubelets[i].client == client
    ensures kubelets[i].runtime in Machines(kubelets) && kubelets[i].runtime.network in Machines(kubelets)
    ensures NodesAreRight(Live(bound), views) ==> NodeIsRight(Live(bound), views[i])
  {
    assert current[i] == current[i..][0] == views[i..][0] == views[i];
  }

  // One of several kubelets; the other nodes are as they were.
  method ReconcileNext(kubelets: seq<K.Kubelet>, i: nat, starts: map<string, T.Start>, stops: Commands,
                       ghost bound: seq<Write<Object>>)
    returns (ok: bool)
    requires i < |kubelets| && AreSeparate(kubelets[i].client, kubelets) && NodesAreValid(kubelets)
    requires kubelets[i].client.Valid() && kubelets[i].client.faults == []
    requires Reporting(bound, kubelets[i].client.server.etcd.log)
    requires NodeCanReconcile(bound, kubelets[i].nodeName, kubelets[i].runtime.Net(), kubelets[i].runtime.Held(),
      starts)
    modifies kubelets[i].client, kubelets[i].client.server.etcd, kubelets[i].runtime, kubelets[i].runtime.network
    ensures kubelets[i].client.Valid() && kubelets[i].client.faults == [] && NodesAreValid(kubelets) && ok
    ensures Reporting(bound, kubelets[i].client.server.etcd.log)
    ensures GoOn(Live(old(kubelets[i].client.server.etcd.log)), Live(kubelets[i].client.server.etcd.log))
    ensures NodeIsRight(Live(kubelets[i].client.server.etcd.log), Views(kubelets)[i])
    ensures Views(kubelets) == old(Views(kubelets))[i := Views(kubelets)[i]]
    ensures NodeIsRight(Live(bound), old(Views(kubelets))[i]) ==>
      kubelets[i].client.server.etcd.log == old(kubelets[i].client.server.etcd.log) &&
        Views(kubelets)[i] == old(Views(kubelets))[i]
  {
    hide Sound, Live, NodeIsRight, Reporting, IsScheduled, NodeCanReconcile, CanHost, K.HasStarts, GoOn, M.Inv,
      T.Tidy, K.AssignedPods;
    ghost var log, current := kubelets[i].client.server.etcd.log, Views(kubelets);
    ReportingIsWellTyped(bound, log);
    NodeStaysReady(bound, log, kubelets[i].nodeName, kubelets[i].runtime.Net(), kubelets[i].runtime.Held(), starts);
    label Before:
    ok := ReconcileNode(kubelets[i], starts, stops, bound);
    forall j | 0 <= j < |kubelets| && j != i
      ensures kubelets[j].runtime.Valid() && T.Tidy(kubelets[j].runtime.Held()) && Views(kubelets)[j] == current[j]
    {
      assert kubelets[j].runtime != kubelets[i].runtime;
      assert kubelets[j].runtime.Held() == old(kubelets[j].runtime.Held());
    }
  }

  method ReconcileNodes(client: Client, kubelets: seq<K.Kubelet>, starts: seq<map<string, T.Start>>, stops: Commands)
    returns (ok: bool)
    requires client.Valid() && client.faults == [] && AreSeparate(client, kubelets) && NodesAreValid(kubelets)
    requires |starts| == |kubelets| && CanReconcile(client.server.etcd.log, kubelets, starts)
    modifies client, client.server.etcd, Machines(kubelets)
    ensures client.Valid() && client.faults == [] && NodesAreValid(kubelets)
    ensures ok && Converged(client.server.etcd.log, Views(kubelets))
    ensures Reporting(old(client.server.etcd.log), client.server.etcd.log)
    ensures NodesAreRight(Live(old(client.server.etcd.log)), old(Views(kubelets))) ==>
      client.server.etcd.log == old(client.server.etcd.log) && Views(kubelets) == old(Views(kubelets))
  {
    hide Sound, Live, NodeIsRight, Reporting, IsScheduled, NodeCanReconcile, GoOn, M.Inv, T.Tidy, Views, NodesAreValid,
      Converged,
      NodesAreRight, CanReconcile, AreSeparate, Machines;
    ghost var bound, views := client.server.etcd.log, Views(kubelets);
    assert IsScheduled(bound) && forall j :: 0 <= j < |kubelets| ==>
      NodeCanReconcile(bound, kubelets[j].nodeName, kubelets[j].runtime.Net(), views[j].node, starts[j])
    by { AllCanReconcile(bound, kubelets, starts); }
    ReportingFromTheStart(bound);
    NoneYet(Live(bound));
    for i := 0 to |kubelets|
      invariant client.Valid() && client.faults == [] && NodesAreValid(kubelets)
      invariant Reporting(bound, client.server.etcd.log)
      invariant NodesAreRight(Live(client.server.etcd.log), Views(kubelets)[..i])
      invariant Views(kubelets)[i..] == views[i..]
      invariant forall j :: 0 <= j < |kubelets| ==>
        NodeCanReconcile(bound, kubelets[j].nodeName, kubelets[j].runtime.Net(), views[j].node, starts[j])
      invariant NodesAreRight(Live(bound), views) ==> client.server.etcd.log == bound && Views(kubelets) == views
    {
      ghost var log, current := client.server.etcd.log, Views(kubelets);
      ItIsNext(client, bound, kubelets, starts, views, current, i);
      ok := ReconcileNext(kubelets, i, starts[i], stops, bound);
      OneMoreRight(bound, log, client.server.etcd.log, current, Views(kubelets), views, i);
    }
    ok := true;
    assert Views(kubelets)[..|kubelets|] == Views(kubelets);
    FinallyConverged(bound, client.server.etcd.log, Views(kubelets));
  }

  lemma AllCanReconcile(log: seq<Write<Object>>, kubelets: seq<K.Kubelet>, starts: seq<map<string, T.Start>>)
    requires |starts| == |kubelets| && CanReconcile(log, kubelets, starts)
    ensures IsScheduled(log)
    ensures forall j :: 0 <= j < |kubelets| ==>
      NodeCanReconcile(log, kubelets[j].nodeName, kubelets[j].runtime.Net(), Views(kubelets)[j].node, starts[j])
  {
  }

  lemma NoneYet(live: Objects)
    ensures NodesAreRight(live, [])
  {
  }

  lemma ReportingFromTheStart(log: seq<Write<Object>>)
    requires IsScheduled(log)
    ensures Reporting(log, log)
  {
    ItGoesOn(Live(log));
  }

  lemma FinallyConverged(bound: seq<Write<Object>>, log: seq<Write<Object>>, views: seq<View>)
    requires Reporting(bound, log) && NodesAreRight(Live(log), views)
    ensures Converged(log, views)
  {
  }

  // ---------- everything ----------

  // The Deployment controller, the ReplicaSet controller and the scheduler.
  method ReconcileControlPlane(client: Client, deployments: D.Controller, replicaSets: R.Controller,
                               scheduler: S.Scheduler)
    returns (ok: bool)
    requires client.Valid() && client.faults == []
    requires deployments.client == client && replicaSets.client == client && scheduler.client == client
    requires AllAccepted(client.server.etcd.log, scheduler.nextNode)
    modifies scheduler, client, client.server.etcd
    ensures client.Valid() && client.faults == [] && ok
    ensures client.server.etcd.log == ControlPlanePass(old(client.server.etcd.log), old(scheduler.nextNode))
  {
    hide Sound, Live, SendAll, D.SyncAll, R.PassRequests, S.BindAll;
    ghost var log, cursor := client.server.etcd.log, scheduler.nextNode;
    NoFaultsStayNoFaults(log, D.SyncAll(ListDeployments(Live(log)), ListReplicaSets(Live(log))));
    ok := deployments.Reconcile();
    if !ok {
      return;
    }
    ghost var synced := client.server.etcd.log;
    NoFaultsStayNoFaults(synced, R.PassRequests(ListReplicaSets(Live(synced)), ListPods(Live(synced))));
    ok := replicaSets.Reconcile();
    if !ok {
      return;
    }
    ghost var picks;
    ok, picks := scheduler.Reconcile();
  }

  // The store can be scheduled, and the nodes can take what the control plane will give them.
  ghost predicate CanConverge(log: seq<Write<Object>>, cursor: nat, kubelets: seq<K.Kubelet>,
                              starts: seq<map<string, T.Start>>)
    requires |starts| == |kubelets|
    reads Machines(kubelets)
  {
    && CanBeScheduled(log)
    && forall i :: 0 <= i < |kubelets| ==>
         CanHost(kubelets[i].runtime.Net(), Views(kubelets)[i].node, starts[i],
           K.Assigned(ControlPlanePass(log, cursor), kubelets[i].nodeName))
  }

  // Each kubelet has a new process for every Pod that it will be assigned.
  ghost predicate HaveStarts(bound: seq<Write<Object>>, kubelets: seq<K.Kubelet>, starts: seq<map<string, T.Start>>)
    requires |starts| == |kubelets|
    reads Machines(kubelets)
  {
    forall i :: 0 <= i < |kubelets| ==>
      K.HasStarts(Views(kubelets)[i].node, starts[i], K.Assigned(bound, kubelets[i].nodeName))
  }

  lemma ConvergedOrWillBe(log: seq<Write<Object>>, cursor: nat, kubelets: seq<K.Kubelet>,
                          starts: seq<map<string, T.Start>>)
    requires |starts| == |kubelets| && HaveStarts(ControlPlanePass(log, cursor), kubelets, starts)
    requires CanConverge(log, cursor, kubelets, starts) || Converged(log, Views(kubelets))
    ensures AllAccepted(log, cursor) && CanReconcile(ControlPlanePass(log, cursor), kubelets, starts)
    ensures Converged(log, Views(kubelets)) ==> ControlPlanePass(log, cursor) == log
    ensures CanBeScheduled(log) || Converged(log, Views(kubelets))
    ensures Converged(log, Views(kubelets)) ==> NodesAreRight(Live(log), Views(kubelets))
  {
    hide CanHost, K.HasStarts, ControlPlanePass, NodeIsRight, CanBeScheduled, AllAccepted, K.Assigned, IsScheduled;
    if Converged(log, Views(kubelets)) {
      SecondPassWritesNothing(log, cursor, Views(kubelets));
    } else {
      ControlPlanePassSchedules(log, cursor);
    }
  }

  // Undisturbed, from a store that can be scheduled and with nodes that can take the Pods, one
  // pass of all components reaches the desired state. A pass in that state writes nothing to
  // the store and leaves every runtime alone.
  method ReconcileEverything(client: Client, deployments: D.Controller, replicaSets: R.Controller,
                             scheduler: S.Scheduler, kubelets: seq<K.Kubelet>, starts: seq<map<string, T.Start>>,
                             stops: Commands)
    returns (ok: bool)
    requires client.Valid() && client.faults == [] && AreSeparate(client, kubelets) && NodesAreValid(kubelets)
    requires deployments.client == client && replicaSets.client == client && scheduler.client == client
    requires |starts| == |kubelets|
    requires HaveStarts(ControlPlanePass(client.server.etcd.log, scheduler.nextNode), kubelets, starts)
    requires CanConverge(client.server.etcd.log, scheduler.nextNode, kubelets, starts) ||
      Converged(client.server.etcd.log, Views(kubelets))
    modifies scheduler, client, client.server.etcd, Machines(kubelets)
    ensures client.Valid() && client.faults == [] && NodesAreValid(kubelets)
    ensures ok && Converged(client.server.etcd.log, Views(kubelets))
    ensures NodesAreGiven(Live(old(client.server.etcd.log)), Live(client.server.etcd.log))
    ensures Converged(old(client.server.etcd.log), old(Views(kubelets))) ==>
      client.server.etcd.log == old(client.server.etcd.log) && Views(kubelets) == old(Views(kubelets))
  {
    hide Sound, CanConverge, HaveStarts, ControlPlanePass, NodesAreValid, AllAccepted, NodesAreRight, IsScheduled,
      CanReconcile, Live, Converged, Reporting, NodesAreGiven, CanBeScheduled, Views;
    ghost var log, cursor, views := client.server.etcd.log, scheduler.nextNode, Views(kubelets);
    ConvergedOrWillBe(log, cursor, kubelets, starts);
    ok := ReconcileControlPlane(client, deployments, replicaSets, scheduler);
    if !ok {
      return;
    }
    assert NodesAreValid(kubelets) && CanReconcile(client.server.etcd.log, kubelets, starts) &&
      Views(kubelets) == views;
    ok := ReconcileNodes(client, kubelets, starts, stops);
    NodesStayGiven(log, cursor, views, client.server.etcd.log);
  }

  lemma NodesStayGiven(log: seq<Write<Object>>, cursor: nat, views: seq<View>, end: seq<Write<Object>>)
    requires CanBeScheduled(log) || Converged(log, views)
    requires Reporting(ControlPlanePass(log, cursor), end)
    ensures NodesAreGiven(Live(log), Live(end))
  {
    hide Live, ControlPlanePass, CanBeScheduled, NodesAreRight, NodesAreGiven, AllAccepted, GoOn, EveryPodIsBound,
      SomeReadyNode, DeploymentsAreSynced, ReplicaSetsAreScaled, IsReadyNode, IsTemplateNode, SameEntry;
    var bound := ControlPlanePass(log, cursor);
    ReportsKeepNodes(Live(bound), Live(end));
    if CanBeScheduled(log) {
      ControlPlanePassSchedules(log, cursor);
      OnlyPodEntriesGoOn(Live(bound), Live(end));
      SameNodesAndTemplates(Live(bound), Live(end));
      GivenOnAndOn(Live(log), Live(bound), Live(end));
    } else {
      SecondPassWritesNothing(log, cursor, views);
    }
  }

  // What convergence means for a Pod, in the words of the store and of the runtime: a stored Pod
  // that names the node and has no mirror annotation is shown as Running, and on the node its
  // container is Running in a Running sandbox of its own that is no static one.
  lemma ConvergedPodsRun(log: seq<Write<Object>>, views: seq<View>, i: nat, name: string)
    requires Converged(log, views) && i < |views|
    requires var key := Key(PodKind, name);
      && key in Live(log) && Live(log)[key].value.PodObject?
      && Live(log)[key].value.pod.spec.nodeName == views[i].nodeName
      && "kubernetes.io/config.mirror" !in Live(log)[key].value.pod.meta.annotations
    ensures Live(log)[Key(PodKind, name)].value.pod.status.phase == Running
    ensures var node := views[i].node;
      && name in node.containers && node.containers[name].container.state == C.Running
      && var id := node.containers[name].container.sandboxID;
         && id in node.sandboxes && node.sandboxes[id].sandbox.podName == name
         && node.sandboxes[id].sandbox.source == C.Workload && node.sandboxes[id].sandbox.state == C.Running
  {
    hide Live, Sound, DeploymentsAreSynced, ReplicaSetsAreScaled, EveryPodIsBound, PodsAreValid, SomeReadyNode;
    assert NodeIsRight(Live(log), views[i]);
    assert K.AssignedAt(Live(log), name, views[i].nodeName);
  }
}
