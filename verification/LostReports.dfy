// A report that gets lost: the Pod runs, and the store never learns its address.
module LostReports {
  import opened Text
  import opened Etcd
  import opened Api
  import opened ApiServer
  import opened Cni
  import opened PodUpdates
  import C = Cri
  import M = Runtime
  import P = KubeProxy
  import T = StaticPods
  import K = Kubelet

  // One Pod is assigned to the node, has no address yet, and can be started on the Pod network.
  ghost predicate HasOneToStart(log: seq<Write<Object>>, nodeName: string, net: M.Network, node: M.Machine,
                                starts: map<string, T.Start>, name: string)
  {
    var desired := K.Assigned(log, nodeName);
    && Sound(log) && PodsAreValid(Live(log)) && nodeName != ""
    && desired.Keys == {name} && desired[name].status == PodStatus(NoPhase, "")
    && net.Bridge? && !desired[name].spec.hostNetwork
    && !K.IsRunning(node, name) && !M.HasBox(node.sandboxes, name, C.Workload)
    && K.HasStarts(node, starts, desired) && K.CanRun(net, node, starts, desired, desired.Keys)
  }

  // The Pod runs at the address, and the store has none.
  ghost predicate RunsUnknown(log: seq<Write<Object>>, nodeName: string, node: M.Machine, name: string, ip: string)
  {
    && Sound(log) && PodsAreValid(Live(log)) && nodeName != ""
    && K.Assigned(log, nodeName).Keys == {name} && K.RunsAt(node, name, ip) && ip != ""
    && K.AssignedAt(Live(log), name, nodeName) && K.StoredIP(Live(log), name) == ""
  }

  // ---------- the pass whose report is lost ----------

  lemma FirstRequestLost(log: seq<Write<Object>>, requests: seq<Request>)
    ensures SendAll(log, [RequestLost], requests) ==
            if requests == [] then Outcome(log, [RequestLost], true) else Outcome(log, [], false)
  {
  }

  lemma StartedButNotReported(log: seq<Write<Object>>, nodeName: string, net: M.Network, before: M.Machine,
                              after: M.Machine, starts: map<string, T.Start>, name: string, sent: seq<Request>)
    requires HasOneToStart(log, nodeName, net, before, starts, name)
    requires K.ReportsAreTrue(net, before, after, K.Assigned(log, nodeName), sent)
    requires SendAll(log, [RequestLost], sent).ok ==> ReportedNames(sent) == {name}
    ensures SendAll(log, [RequestLost], sent) == Outcome(log, [], false)
    ensures RunsUnknown(log, nodeName, after, name, SentIP(sent, name))
  {
    hide Sound, Live, SendAll, PodsAreValid, K.AssignedPods, K.NewStartsFor, K.CanRun, M.HasBox, K.RunsAt, SentIP,
      K.AssignedAt, K.IsRunning;
    FirstRequestLost(log, sent);
    NothingReported();
    SomethingReported(K.Assigned(log, nodeName), sent);
    assert K.ReportIsTrue(net, before, after, name, K.Assigned(log, nodeName)[name], SentIP(sent, name));
    SoundIsWellTyped(log);
    K.FreshlyAssigned(Live(log), nodeName, name);
    StoredAddressOf(Live(log), K.Assigned(log, nodeName)[name]);
  }

  lemma NothingReported()
    ensures ReportedNames([]) == {}
  {
  }

  lemma SomethingReported(desired: map<string, Pod>, sent: seq<Request>)
    requires AreReports(desired, sent)
    ensures sent != [] ==> sent[0].Update? && sent[0].name in ReportedNames(sent)
  {
    assert sent != [] ==> IsReport(desired, sent[0]);
  }

  lemma StoredAddressOf(live: Objects, pod: Pod)
    requires StoredPod(live, pod)
    ensures Key(PodKind, pod.meta.name) in live && live[Key(PodKind, pod.meta.name)].value.PodObject?
    ensures K.StoredIP(live, pod.meta.name) == pod.status.podIP
  {
  }

  // ---------- the next pass ----------

  lemma NoneIdle(net: M.Network, node: M.Machine, desired: map<string, Pod>)
    requires forall name :: name in desired ==> K.IsRunning(node, name)
    ensures K.HasStarts(node, map[], desired) && K.CanRun(net, node, map[], desired, desired.Keys)
  {
    assert K.Idle(node, desired.Keys) == {};
    assert K.Addressless(net, node, desired, desired.Keys) == {};
  }

  lemma UnknownIsRunning(log: seq<Write<Object>>, nodeName: string, net: M.Network, node: M.Machine, name: string,
                         ip: string)
    requires RunsUnknown(log, nodeName, node, name, ip)
    ensures K.HasStarts(node, map[], K.Assigned(log, nodeName)) && K.IsRunning(node, name)
    ensures K.CanRun(net, node, map[], K.Assigned(log, nodeName), K.Assigned(log, nodeName).Keys)
  {
    NoneIdle(net, node, K.Assigned(log, nodeName));
  }

  // Undisturbed reports of a node's Pods leave the same Pods assigned to it.
  lemma ReportsKeepTheAssigned(log: seq<Write<Object>>, nodeName: string, sent: seq<Request>, name: string)
    requires Sound(log) && WellTyped(Live(log)) && PodsAreValid(Live(log)) && nodeName != ""
    requires AreReports(K.Assigned(log, nodeName), sent)
    ensures K.AssignedAt(Live(SendAll(log, [], sent).log), name, nodeName) <==> K.AssignedAt(Live(log), name, nodeName)
  {
    hide Sound, Live, SendAll, PodsAreValid, K.AssignedPods, K.AssignedAt, GoOn, ReportedNames, AreReports,
      ShowsAddress;
    var desired, after := K.Assigned(log, nodeName), Live(SendAll(log, [], sent).log);
    K.ReportsAreOfStoredPods(Live(log), nodeName, sent);
    ReportsSucceed(log, desired, sent);
    ReportsAreStored(log, desired, sent, name);
    if name in ReportedNames(sent) {
      ReportedAreDesired(desired, sent, name);
      K.FreshlyAssigned(Live(log), nodeName, name);
      AssignedGoesOn(Live(log), after, name, nodeName);
    } else {
      SameIsAssigned(Live(log), after, name, nodeName);
    }
  }

  lemma ReportedAreDesired(desired: map<string, Pod>, sent: seq<Request>, name: string)
    requires AreReports(desired, sent) && name in ReportedNames(sent)
    ensures name in desired
  {
    var i :| 0 <= i < |sent| && sent[i].Update? && sent[i].name == name;
    assert IsReport(desired, sent[i]);
  }

  lemma AssignedGoesOn(before: Objects, after: Objects, name: string, nodeName: string)
    requires GoOn(before, after) && nodeName != "" && K.AssignedAt(before, name, nodeName)
    ensures K.AssignedAt(after, name, nodeName)
  {
    assert GoesOnAt(before, after, Key(PodKind, name));
  }

  lemma SameIsAssigned(before: Objects, after: Objects, name: string, nodeName: string)
    requires var key := Key(PodKind, name);
      (key in after <==> key in before) && (key in after ==> after[key] == before[key])
    ensures K.AssignedAt(after, name, nodeName) <==> K.AssignedAt(before, name, nodeName)
  {
  }

  // The Pod is shown as Running without an address, and the kubelet has nothing to do.
  ghost predicate StaysUnknown(log: seq<Write<Object>>, nodeName: string, node: M.Machine, name: string, ip: string)
  {
    && RunsUnknown(log, nodeName, node, name, ip) && ShowsAddress(Live(log), name, "")
    && K.IsSettled(node, K.Assigned(log, nodeName))
  }

  lemma ShownWithoutAddress(log: seq<Write<Object>>, nodeName: string, net: M.Network, before: M.Machine,
                            after: M.Machine, name: string, ip: string, sent: seq<Request>)
    requires RunsUnknown(log, nodeName, before, name, ip)
    requires K.ReportsAreTrue(net, before, after, K.Assigned(log, nodeName), sent)
    requires K.IsExact(before, after, K.Assigned(log, nodeName))
    requires K.RunningKept(before, after, K.Assigned(log, nodeName))
    requires K.AddressesAreStored(nodeName, Live(log), before, Live(SendAll(log, [], sent).log), after)
    ensures SendAll(log, [], sent).faults == [] && StaysUnknown(SendAll(log, [], sent).log, nodeName, after, name, ip)
  {
    hide Sound, Live, SendAll, PodsAreValid, K.AssignedPods, K.AssignedAt, GoOn, ReportedNames, AreReports, K.IsSettled,
      K.IsExact, K.RunsAt, K.IsRunning, IsReportedRunning, ShowsAddress, SentIP;
    var end := SendAll(log, [], sent).log;
    SoundIsWellTyped(log);
    NoFaultsStayNoFaults(log, sent);
    K.ReportsAreOfStoredPods(Live(log), nodeName, sent);
    ReportsSucceed(log, K.Assigned(log, nodeName), sent);
    SoundIsWellTyped(end);
    forall other ensures other in K.Assigned(end, nodeName) <==> other in K.Assigned(log, nodeName) {
      ReportsKeepTheAssigned(log, nodeName, sent, other);
      K.FreshlyAssigned(Live(log), nodeName, other);
      K.FreshlyAssigned(Live(end), nodeName, other);
    }
    assert K.RunsAt(before, name, ip) && K.RunsAt(after, name, ip);
    K.RunsAtIsRunning(before, name, ip);
    K.FreshlyAssigned(Live(end), nodeName, name);
    ShownIsStored(Live(end), name, "");
    NowSettled(before, after, Live(end), K.Assigned(log, nodeName), K.Assigned(end, nodeName), name, ip);
  }

  lemma ShownIsStored(live: Objects, name: string, ip: string)
    requires ShowsAddress(live, name, ip)
    ensures K.StoredIP(live, name) == ip
  {
  }

  lemma NowSettled(before: M.Machine, after: M.Machine, live: Objects, desired: map<string, Pod>, now: map<string, Pod>,
                   name: string, ip: string)
    requires K.IsExact(before, after, desired) && desired.Keys == now.Keys == {name}
    requires StoredPod(live, now[name]) && now[name].meta.name == name && ShowsAddress(live, name, "")
    requires K.RunsAt(after, name, ip)
    ensures K.IsSettled(after, now)
  {
    hide K.InStaticBox;
    forall other | K.IsRunning(after, other) ensures other in now || K.InStaticBox(after, other) {
      assert K.IsExactFor(before, after, desired, other);
    }
  }

  // No Service sends it traffic.
  lemma NoEndpointWithoutAddress(live: Objects, name: string, s: Service, pod: Pod)
    requires ShowsAddress(live, name, "") && StoredPod(live, pod) && pod.meta.name == name
    ensures !P.IsEndpoint(s, pod)
  {
  }

  // ---------- the whole story ----------

  // The report of the only Pod's start is lost. The next, undisturbed pass leaves the Pod shown
  // as Running without an address, and no later pass mends it: none has anything to send.
  method LoseTheReport(kubelet: K.Kubelet, starts: map<string, T.Start>, stops: Commands, later: nat,
                       ghost name: string)
    returns (ghost ip: string)
    requires kubelet.Ready() && kubelet.client.faults == [RequestLost]
    requires HasOneToStart(kubelet.client.server.etcd.log, kubelet.nodeName, kubelet.runtime.Net(),
      kubelet.runtime.Held(),
                           starts, name)
    modifies kubelet.client, kubelet.client.server.etcd, kubelet.runtime, kubelet.runtime.network
    ensures kubelet.Ready() && kubelet.client.faults == []
    ensures StaysUnknown(kubelet.client.server.etcd.log, kubelet.nodeName, kubelet.runtime.Held(), name, ip)
    ensures forall s, pod :: StoredPod(Live(kubelet.client.server.etcd.log), pod) && pod.meta.name == name ==>
      !P.IsEndpoint(s, pod)
  {
    hide Sound, Live, SendAll, HasOneToStart, K.HasStarts, K.ReportsAreTrue, K.IsExact, K.RunningKept, K.IsSettled,
      K.AddressesAreStored, ReportedNames, PodsAreValid, K.CanRun, K.Assigned, RunsUnknown, StaysUnknown, StoredPod,
      K.AssignedPods, K.NeedsReport, K.NamesApart, T.Runs, ShowsAddress;
    ghost var net, log0, node0 := kubelet.runtime.Net(), kubelet.client.server.etcd.log, kubelet.runtime.Held();
    OneToStart(log0, kubelet.nodeName, net, node0, starts, name);
    ghost var desired, sent;
    var ok;
    ok, desired, sent := kubelet.ReconcileWorkloads(starts, stops);
    StartedButNotReported(log0, kubelet.nodeName, net, node0, kubelet.runtime.Held(), starts, name, sent);
    ip := SentIP(sent, name);
    ghost var node1 := kubelet.runtime.Held();
    Unknown(log0, kubelet.nodeName, net, node1, name, ip);
    ok, desired, sent := kubelet.ReconcileWorkloads(map[], stops);
    ShownWithoutAddress(log0, kubelet.nodeName, net, node1, kubelet.runtime.Held(), name, ip, sent);
    ghost var end, node2 := kubelet.client.server.etcd.log, kubelet.runtime.Held();
    for i := 0 to later
      invariant kubelet.Ready() && kubelet.client.faults == []
      invariant kubelet.client.server.etcd.log == end && kubelet.runtime.Held() == node2
    {
      Still(end, kubelet.nodeName, net, node2, name, ip);
      ok, desired, sent := kubelet.ReconcileWorkloads(map[], stops);
      K.NothingSent(end, []);
    }
    Shown(end, kubelet.nodeName, node2, name, ip);
    forall s, pod | StoredPod(Live(end), pod) && pod.meta.name == name ensures !P.IsEndpoint(s, pod) {
      NoEndpointWithoutAddress(Live(end), name, s, pod);
    }
  }

  lemma OneToStart(log: seq<Write<Object>>, nodeName: string, net: M.Network, node: M.Machine,
                   starts: map<string, T.Start>, name: string)
    requires HasOneToStart(log, nodeName, net, node, starts, name)
    ensures WellTyped(Live(log)) && K.Assigned(log, nodeName) == K.AssignedPods(ListPods(Live(log)), nodeName)
    ensures K.HasStarts(node, starts, K.Assigned(log, nodeName))
    ensures K.CanRun(net, node, starts, K.Assigned(log, nodeName), K.Assigned(log, nodeName).Keys)
    ensures (set other | other in K.Assigned(log, nodeName) && K.NeedsReport(node, K.Assigned(log, nodeName), other)) ==
      {name}
  {
    hide K.AssignedPods, K.HasStarts, K.CanRun, K.IsRunning;
    SoundIsWellTyped(log);
  }

  lemma Unknown(log: seq<Write<Object>>, nodeName: string, net: M.Network, node: M.Machine, name: string, ip: string)
    requires RunsUnknown(log, nodeName, node, name, ip)
    ensures WellTyped(Live(log)) && PodsAreValid(Live(log))
    ensures K.Assigned(log, nodeName) == K.AssignedPods(ListPods(Live(log)), nodeName)
    ensures K.HasStarts(node, map[], K.Assigned(log, nodeName))
    ensures K.CanRun(net, node, map[], K.Assigned(log, nodeName), K.Assigned(log, nodeName).Keys)
  {
    hide K.AssignedPods, K.HasStarts, K.CanRun, K.IsRunning, PodsAreValid;
    SoundIsWellTyped(log);
    UnknownIsRunning(log, nodeName, net, node, name, ip);
  }

  lemma Still(log: seq<Write<Object>>, nodeName: string, net: M.Network, node: M.Machine, name: string, ip: string)
    requires StaysUnknown(log, nodeName, node, name, ip)
    ensures WellTyped(Live(log)) && K.IsSettled(node, K.AssignedPods(ListPods(Live(log)), nodeName))
    ensures K.HasStarts(node, map[], K.AssignedPods(ListPods(Live(log)), nodeName))
  {
    hide K.AssignedPods, K.HasStarts, K.CanRun, K.IsRunning, PodsAreValid, K.IsSettled;
    Unknown(log, nodeName, net, node, name, ip);
  }

  lemma Shown(log: seq<Write<Object>>, nodeName: string, node: M.Machine, name: string, ip: string)
    requires StaysUnknown(log, nodeName, node, name, ip)
    ensures ShowsAddress(Live(log), name, "")
  {
  }
}
