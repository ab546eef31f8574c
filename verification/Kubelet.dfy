// The kubelet: the Pods assigned to its node, run by the runtime and reported to the server.
module Kubelet {
  import opened Text
  import opened Etcd
  import opened Api
  import opened ApiServer
  import opened PodUpdates
  import opened Cni
  import C = Cri
  import opened M = Runtime
  import opened RuntimeService
  import opened StaticPods
  import opened Starts
  import opened MirrorPods

  // ---------- what is desired ----------

  predicate IsAssigned(pod: Pod, nodeName: string) { pod.spec.nodeName == nodeName && !IsMirror(pod) }

  function AssignedPods(pods: seq<Pod>, nodeName: string): map<string, Pod>
  {
    if pods == [] then map[]
    else
      var last := pods[|pods| - 1];
      var earlier := AssignedPods(pods[..|pods| - 1], nodeName);
      if IsAssigned(last, nodeName) then earlier[last.meta.name := last] else earlier
  }

  // What a kubelet that lists the Pods now finds assigned to its node.
  ghost function Assigned(log: seq<Write<Object>>, nodeName: string): map<string, Pod>
  {
    if WellTyped(Live(log)) then AssignedPods(ListPods(Live(log)), nodeName) else map[]
  }

  predicate AssignedAt(live: Objects, name: string, nodeName: string)
  {
    var key := Key(PodKind, name);
    key in live && live[key].value.PodObject? && IsAssigned(live[key].value.pod, nodeName)
  }

  lemma {:induction false} AssignedInAFreshList(live: Objects, pods: seq<Pod>, nodeName: string, name: string)
    requires WellTyped(live) && SortedPods(pods) && forall pod :: pod in pods ==> StoredPod(live, pod)
    ensures var mine := AssignedPods(pods, nodeName);
      && (name in mine <==> exists pod :: pod in pods && pod.meta.name == name && IsAssigned(pod, nodeName))
      && (name in mine ==>
            StoredPod(live, mine[name]) && mine[name].meta.name == name && IsAssigned(mine[name], nodeName))
  {
    if pods != [] {
      var n := |pods| - 1;
      var last := pods[n];
      assert pods == pods[..n] + [last];
      assert last in pods && StoredPod(live, last);
      AssignedInAFreshList(live, pods[..n], nodeName, name);
    }
  }

  // On a fresh list they are the stored, non-mirror Pods that name the node.
  lemma FreshlyAssigned(live: Objects, nodeName: string, name: string)
    requires WellTyped(live)
    ensures var mine := AssignedPods(ListPods(live), nodeName);
      && (name in mine <==> AssignedAt(live, name, nodeName))
      && (name in mine <==>
            var key := Key(PodKind, name);
            && key in live && live[key].value.PodObject? && live[key].value.pod.spec.nodeName == nodeName
            && "kubernetes.io/config.mirror" !in live[key].value.pod.meta.annotations)
      && (name in mine ==>
            StoredPod(live, mine[name]) && mine[name].meta.name == name && IsAssigned(mine[name], nodeName))
  {
    var pods := ListPods(live);
    AssignedInAFreshList(live, pods, nodeName, name);
    if AssignedAt(live, name, nodeName) {
      var pod := Read(live, Key(PodKind, name)).pod;
      assert StoredPod(live, pod) && pod in pods && IsAssigned(pod, nodeName);
    }
  }

  // ---------- reports ----------

  predicate IsRunning(node: Machine, name: string)
  {
    name in node.containers && node.containers[name].container.state == C.Running
  }

  // A Pod is reported when its container has been started, or the store does not say it runs.
  predicate NeedsReport(node: Machine, desired: map<string, Pod>, name: string)
  {
    name in desired && (!IsRunning(node, name) || !desired[name].status.phase.Running?)
  }

  // ---------- running one Pod ----------

  // A step on behalf of one workload Pod.
  ghost predicate OnlyRun(before: Machine, after: Machine, names: set<string>)
  {
    && OthersKept(before, after, names)
    && (forall id :: id in before.sandboxes ==> id in after.sandboxes && after.sandboxes[id] == before.sandboxes[id])
    && (forall id :: id in after.sandboxes && id !in before.sandboxes ==>
          after.sandboxes[id].sandbox.source == C.Workload && after.sandboxes[id].sandbox.podName in names)
  }

  lemma NothingRun(node: Machine, names: set<string>)
    ensures OnlyRun(node, node, names)
  {
  }

  lemma OneMoreRun(a: Machine, b: Machine, c: Machine, names: set<string>, name: string)
    requires OnlyRun(a, b, names) && OnlyRun(b, c, {name})
    ensures OnlyRun(a, c, names + {name})
  {
    hide SameAttachmentsBut;
    FewerOthers(a, b, names, names + {name});
    FewerOthers(b, c, {name}, names + {name});
    OthersKeptTransitively(a, b, c, names + {name});
  }

  lemma BoxRun(net: Network, node: Machine, podName: string, hostNetwork: bool, launch: Launch)
    requires Inv(net, node) && IsNew(node, launch.pid) && Tidy(node)
    ensures var (after, r) := M.RunPodSandbox(net, node, podName, C.Workload, hostNetwork, launch);
      && OnlyRun(node, after, {podName}) && Tidy(after)
      && (forall pid :: IsNew(node, pid) && pid != launch.pid ==> IsNew(after, pid))
      && (r.Success? ==> r.value.id in after.sandboxes && after.sandboxes[r.value.id].sandbox == r.value)
      && (r.Success? ==> IsBoxOf(after.sandboxes[r.value.id], podName, C.Workload))
  {
    hide Inv, M.RunPodSandbox, LivePids;
    BoxStarts(net, node, podName, C.Workload, hostNetwork, launch);
    var (after, r) := M.RunPodSandbox(net, node, podName, C.Workload, hostNetwork, launch);
    if r.Success? {
      StartedBoxIsTidy(net, node, after, r.value, launch.pid);
      forall pid | IsNew(node, pid) && pid != launch.pid ensures IsNew(after, pid) {
        StartedBoxLeavesNew(node, after, r.value, launch.pid, pid);
      }
    } else {
      SameBoxesSameNew(node, after);
    }
  }

  lemma SameBoxesSameNew(node: Machine, after: Machine)
    requires after.sandboxes == node.sandboxes && after.containers == node.containers && after.waiting == node.waiting
    ensures forall pid :: IsNew(node, pid) ==> IsNew(after, pid)
    ensures Tidy(node) ==> Tidy(after)
  {
  }

  lemma ContainerRun(net: Network, node: Machine, podName: string, id: string, launch: Launch)
    requires Inv(net, node) && Tidy(node) && id in node.sandboxes && node.sandboxes[id].sandbox.podName == podName
    ensures var (after, r) := M.RunInSandbox(node, podName, id, launch);
      && OnlyRun(node, after, {podName}) && Tidy(after) && after.sandboxes == node.sandboxes
      && (forall pid :: IsNew(node, pid) && pid != launch.pid ==> IsNew(after, pid))
      && (r.Success? ==> IsRunning(after, podName) && after.containers[podName].container.sandboxID == id)
  {
    hide Inv, M.RunInSandbox, IsNew, Tidy;
    ContainerStarts(net, node, podName, id, launch);
    StartedContainerIsTidy(node, podName, id, launch);
    var (after, r) := M.RunInSandbox(node, podName, id, launch);
    forall pid | IsNew(node, pid) && pid != launch.pid ensures IsNew(after, pid) {
      StartedContainerLeavesNew(net, node, podName, id, launch, pid);
    }
  }

  // The Pod's container runs in a workload sandbox with that address.
  predicate RunsAt(node: Machine, name: string, ip: string)
  {
    && IsRunning(node, name) && node.containers[name].container.sandboxID in node.sandboxes
    && var box := node.sandboxes[node.containers[name].container.sandboxID];
       IsBoxOf(box, name, C.Workload) && box.sandbox.ip == ip
  }

  // What the operating system has to do for the Pod to start; a free address aside.
  predicate StartWorks(net: Network, node: Machine, pod: Pod, start: Start)
  {
    start.container.starts && BoxWorks(net, node, pod, C.Workload, start.sandbox)
  }

  predicate CanStart(net: Network, node: Machine, pod: Pod, start: Start)
  {
    StartWorks(net, node, pod, start) && (NeedsAddress(net, node, pod, C.Workload) ==> FreeHosts(net, node) != {})
  }

  // A first sandbox has an address exactly on the Pod network.
  predicate IsFirstAddress(net: Network, node: Machine, pod: Pod, ip: string)
  {
    !HasBox(node.sandboxes, pod.meta.name, C.Workload) ==> (ip == "" <==> net.NoNetwork? || pod.spec.hostNetwork)
  }

  method RunPod(runtime: Runtime, pod: Pod, start: Start) returns (r: Result<C.Sandbox, C.CriError>)
    requires runtime.Valid() && Tidy(runtime.Held()) && IsNewStart(runtime.Held(), start)
    modifies runtime, runtime.network
    ensures runtime.Valid() && Tidy(runtime.Held())
    ensures OnlyRun(old(runtime.Held()), runtime.Held(), {pod.meta.name})
    ensures forall pid :: IsNew(old(runtime.Held()), pid) && pid !in {start.sandbox.pid, start.container.pid} ==>
      IsNew(runtime.Held(), pid)
    ensures r.Success? ==> RunsAt(runtime.Held(), pod.meta.name, r.value.ip)
    ensures r.Success? <==> CanStart(runtime.Net(), old(runtime.Held()), pod, start)
    ensures r.Success? ==> IsFirstAddress(runtime.Net(), old(runtime.Held()), pod, r.value.ip)
    ensures r.Success? ==>
      |FreeHosts(runtime.Net(), runtime.Held())| +
      OneIf(NeedsAddress(runtime.Net(), old(runtime.Held()), pod, C.Workload)) ==
      |FreeHosts(runtime.Net(), old(runtime.Held()))|
  {
    hide Inv, Tidy, IsNew, OnlyRun, M.RunPodSandbox, M.RunInSandbox, FreeHosts, HasBox;
    ghost var before, net := runtime.Held(), runtime.Net();
    StartIsNotLive(before, start.sandbox.pid);
    BoxRun(net, before, pod.meta.name, pod.spec.hostNetwork, start.sandbox);
    BoxStartsExactly(net, before, pod, C.Workload, start.sandbox);
    r := runtime.RunPodSandbox(pod.meta.name, C.Workload, pod.spec.hostNetwork, start.sandbox);
    if r.Failure? {
      return;
    }
    ghost var middle := runtime.Held();
    StartIsNotLive(middle, start.container.pid);
    ContainerRun(net, middle, pod.meta.name, r.value.id, start.container);
    ContainerStartsExactly(middle, pod.meta.name, r.value.id, start.container);
    var started := runtime.RunInSandbox(pod.meta.name, r.value.id, start.container);
    SameHosts(net, middle, runtime.Held());
    OneMoreRun(before, middle, runtime.Held(), {pod.meta.name}, pod.meta.name);
    assert {pod.meta.name} + {pod.meta.name} == {pod.meta.name};
    if started.Failure? {
      return Failure(started.error);
    }
  }

  // ---------- all assigned Pods ----------

  ghost predicate NewStartsFor(node: Machine, starts: map<string, Start>, names: set<string>)
  {
    && (forall name :: name in names ==> name in starts && IsNewStart(node, starts[name]))
    && (forall a, b :: a in names && b in names && a != b ==> Apart(starts[a], starts[b]))
  }

  // Those of the Pods whose containers do not run.
  function Idle(node: Machine, names: set<string>): set<string> { set name | name in names && !IsRunning(node, name) }

  // New processes for every Pod that has to be started.
  ghost predicate HasStarts(node: Machine, starts: map<string, Start>, desired: map<string, Pod>)
  {
    NewStartsFor(node, starts, Idle(node, desired.Keys))
  }

  lemma IdleStarts(node: Machine, starts: map<string, Start>, names: set<string>)
    requires NewStartsFor(node, starts, names)
    ensures NewStartsFor(node, starts, Idle(node, names))
  {
  }

  lemma OneStartLess(before: Machine, after: Machine, starts: map<string, Start>, names: set<string>, name: string)
    requires NewStartsFor(before, starts, names) && name in names
    requires forall pid :: IsNew(before, pid) && pid !in {starts[name].sandbox.pid, starts[name].container.pid} ==>
      IsNew(after, pid)
    ensures NewStartsFor(after, starts, names - {name})
  {
    hide IsNew;
    forall other | other in names - {name} ensures IsNewStart(after, starts[other]) {
      assert Apart(starts[name], starts[other]) && IsNewStart(before, starts[other]);
    }
  }

  lemma StartFor(node: Machine, starts: map<string, Start>, names: set<string>, name: string)
    requires NewStartsFor(node, starts, names) && name in names
    ensures name in starts && IsNewStart(node, starts[name]) && NewStartsFor(node, starts, names - {name})
  {
  }

  // Desired Pods that run stay where they are.
  ghost predicate RunningKept(before: Machine, after: Machine, desired: map<string, Pod>)
  {
    forall name, ip :: name in desired && RunsAt(before, name, ip) ==> RunsAt(after, name, ip)
  }

  // ---------- when running them succeeds ----------

  // Those Pods that need an address of their own before they can be started.
  function Addressless(net: Network, node: Machine, desired: map<string, Pod>, names: set<string>): set<string>
  {
    set name | name in names && name in desired && !IsRunning(node, name) &&
      NeedsAddress(net, node, desired[name], C.Workload)
  }

  // Every Pod that has to be started can be, and there are addresses for all of them.
  predicate CanRun(net: Network, node: Machine, starts: map<string, Start>, desired: map<string, Pod>,
                   names: set<string>)
  {
    && (forall name :: name in names && name in desired && !IsRunning(node, name) ==>
          name in starts && StartWorks(net, node, desired[name], starts[name]))
    && |Addressless(net, node, desired, names)| <= |FreeHosts(net, node)|
  }

  lemma CanRunNext(net: Network, node: Machine, starts: map<string, Start>, desired: map<string, Pod>,
                   names: set<string>, name: string)
    requires CanRun(net, node, starts, desired, names) && name in names && name in desired && !IsRunning(node, name)
    ensures name in starts && CanStart(net, node, desired[name], starts[name])
  {
    hide StartWorks, NeedsAddress, FreeHosts;
    if NeedsAddress(net, node, desired[name], C.Workload) {
      assert name in Addressless(net, node, desired, names);
    }
  }

  // Once a Pod has been started, the rest can be run exactly if all could.
  lemma CanRunTheRest(net: Network, before: Machine, after: Machine, starts: map<string, Start>,
                      desired: map<string, Pod>, names: set<string>, name: string)
    requires name in names && name in desired && name in starts
    requires forall other :: other in desired ==> desired[other].meta.name == other
    requires OnlyRun(before, after, {name}) && !IsRunning(before, name)
    requires CanStart(net, before, desired[name], starts[name])
    requires |FreeHosts(net, after)| + OneIf(NeedsAddress(net, before, desired[name], C.Workload)) ==
             |FreeHosts(net, before)|
    ensures CanRun(net, after, starts, desired, names - {name}) <==> CanRun(net, before, starts, desired, names)
  {
    hide FreeHosts;
    forall other | other in names - {name} && other in desired
      ensures IsRunning(after, other) <==> IsRunning(before, other)
      ensures NeedsAddress(net, after, desired[other], C.Workload) <==>
        NeedsAddress(net, before, desired[other], C.Workload)
      ensures other in starts ==>
        (StartWorks(net, after, desired[other], starts[other]) <==>
          StartWorks(net, before, desired[other], starts[other]))
    {
      SameNeeds(net, before, after, desired[other], {name});
      assert other !in {name};
    }
    FewerNeedIt(net, before, after, desired, names, name);
  }

  lemma SameNeeds(net: Network, before: Machine, after: Machine, pod: Pod, names: set<string>)
    requires OnlyRun(before, after, names) && pod.meta.name !in names
    ensures NeedsAddress(net, after, pod, C.Workload) <==> NeedsAddress(net, before, pod, C.Workload)
    ensures HasBox(after.sandboxes, pod.meta.name, C.Workload) <==> HasBox(before.sandboxes, pod.meta.name, C.Workload)
  {
    if HasBox(before.sandboxes, pod.meta.name, C.Workload) {
      var id := BoxOf(before.sandboxes, pod.meta.name, C.Workload);
      assert IsBoxOf(after.sandboxes[id], pod.meta.name, C.Workload);
    }
    if HasBox(after.sandboxes, pod.meta.name, C.Workload) {
      var id := BoxOf(after.sandboxes, pod.meta.name, C.Workload);
      assert id in before.sandboxes && IsBoxOf(before.sandboxes[id], pod.meta.name, C.Workload);
    }
  }

  lemma FewerNeedIt(net: Network, before: Machine, after: Machine, desired: map<string, Pod>, names: set<string>,
                    name: string)
    requires name in names && name in desired && !IsRunning(before, name)
    requires forall other :: other in names - {name} && other in desired ==>
      (IsRunning(after, other) <==> IsRunning(before, other)) &&
      (NeedsAddress(net, after, desired[other], C.Workload) <==> NeedsAddress(net, before, desired[other], C.Workload))
    ensures |Addressless(net, before, desired, names)| ==
            |Addressless(net, after, desired,
              names - {name})| + OneIf(NeedsAddress(net, before, desired[name], C.Workload))
  {
    hide NeedsAddress, IsRunning;
    var rest := Addressless(net, after, desired, names - {name});
    if NeedsAddress(net, before, desired[name], C.Workload) {
      assert Addressless(net, before, desired, names) == rest + {name};
    } else {
      assert Addressless(net, before, desired, names) == rest;
    }
  }

  lemma CanRunWithout(net: Network, node: Machine, starts: map<string, Start>, desired: map<string, Pod>,
                      names: set<string>, name: string)
    requires IsRunning(node, name)
    ensures CanRun(net, node, starts, desired, names - {name}) <==> CanRun(net, node, starts, desired, names)
  {
    hide StartWorks, NeedsAddress, FreeHosts;
    assert Addressless(net, node, desired, names - {name}) == Addressless(net, node, desired, names);
  }

  // No network trouble to come, a store of valid Pods, and the Pods as they are stored.
  ghost predicate ReportsAreTaken(log: seq<Write<Object>>, faults: seq<Fault>, desired: map<string, Pod>)
  {
    && faults == [] && Sound(log) && PodsAreValid(Live(log))
    && forall name :: name in desired ==> desired[name].meta.name == name && StoredPod(Live(log), desired[name])
  }

  lemma ReportsOfStoredPodsSucceed(log: seq<Write<Object>>, faults: seq<Fault>, desired: map<string, Pod>,
                                   sent: seq<Request>)
    requires ReportsAreTaken(log, faults, desired) && AreReports(desired, sent)
    ensures SendAll(log, faults, sent).ok
  {
    hide Sound, Live, SendAll, PodsAreValid, StoredPod;
    assert ReportedPodsStored(Live(log), desired, sent);
    ReportsSucceed(log, desired, sent);
  }

  // ---------- progress ----------

  // The Pods looked at so far run; a container that ran before is as it was.
  ghost predicate RunSoFar(before: Machine, node: Machine, done: set<string>)
  {
    && OnlyRun(before, node, done)
    && (forall name :: name in done ==> IsRunning(node, name))
    && (forall name :: name in done && IsRunning(before, name) ==> node.containers[name] == before.containers[name])
  }

  // The address reported for a Pod: where it has been started, the one it runs at; where it
  // ran already, the one that the store had.
  predicate ReportIsTrue(net: Network, before: Machine, node: Machine, name: string, pod: Pod, ip: string)
  {
    if IsRunning(before, name) then ip == pod.status.podIP
    else RunsAt(node, name, ip) && IsFirstAddress(net, before, pod, ip)
  }

  // Of the Pods looked at so far, exactly the ones that need it are reported, truly.
  ghost predicate ReportedSoFar(net: Network, before: Machine, node: Machine, desired: map<string, Pod>,
                                done: set<string>, sent: seq<Request>)
  {
    && AreReports(desired, sent)
    && ReportedNames(sent) == (set name | name in done && NeedsReport(before, desired, name))
    && (forall name :: name in done && NeedsReport(before, desired, name) ==>
          ReportIsTrue(net, before, node, name, desired[name], SentIP(sent, name)))
  }

  // Whatever becomes of the reports and of the reconcile, they are of Pods that need one, and
  // true.
  ghost predicate ReportsAreTrue(net: Network, before: Machine, node: Machine, desired: map<string, Pod>,
                                 sent: seq<Request>)
  {
    && AreReports(desired, sent)
    && (forall name :: name in ReportedNames(sent) ==>
          NeedsReport(before, desired, name) &&
          ReportIsTrue(net, before, node, name, desired[name], SentIP(sent, name)))
  }

  lemma NoneSoFar(net: Network, node: Machine, desired: map<string, Pod>)
    ensures RunSoFar(node, node, {}) && ReportedSoFar(net, node, node, desired, {}, [])
  {
  }

  lemma OneMoreReport(desired: map<string, Pod>, sent: seq<Request>, pod: Pod, ip: string, name: string)
    requires AreReports(desired, sent) && name in desired && desired[name] == pod && pod.meta.name == name
    requires name !in ReportedNames(sent)
    ensures AreReports(desired, sent + [RunningRequest(pod, ip)])
    ensures ReportedNames(sent + [RunningRequest(pod, ip)]) == ReportedNames(sent) + {name}
    ensures SentIP(sent + [RunningRequest(pod, ip)], name) == ip
    ensures forall other :: other != name ==> SentIP(sent + [RunningRequest(pod, ip)], other) == SentIP(sent, other)
  {
    var more := sent + [RunningRequest(pod, ip)];
    assert more[..|sent|] == sent;
    assert forall i :: 0 <= i < |sent| ==> more[i] == sent[i];
    forall i | 0 <= i < |sent| ensures sent[i].Update? ==> sent[i].name != name {
      assert sent[i].Update? ==> sent[i].name in ReportedNames(sent);
    }
    forall other ensures other in ReportedNames(more) <==> other in ReportedNames(sent) + {name} {
      if other in ReportedNames(sent) {
        var i :| 0 <= i < |sent| && sent[i].Update? && sent[i].name == other;
        assert more[i].name == other;
      }
      if other == name {
        assert more[|sent|].name == name;
      }
    }
  }

  lemma OneMoreRuns(before: Machine, middle: Machine, node: Machine, done: set<string>, name: string)
    requires RunSoFar(before, middle, done) && OnlyRun(middle, node, {name}) && IsRunning(node, name) && name !in done
    requires IsRunning(before, name) ==> node.containers[name] == before.containers[name]
    ensures RunSoFar(before, node, done + {name})
    ensures forall other, ip :: other in done && RunsAt(middle, other, ip) ==> RunsAt(node, other, ip)
  {
    hide SameAttachmentsBut;
    OneMoreRun(before, middle, node, done, name);
    forall other | other in done
      ensures other in node.containers && node.containers[other] == middle.containers[other]
    {
      assert other !in {name};
    }
  }

  lemma OneMoreNeedsIt(net: Network, before: Machine, middle: Machine, node: Machine, desired: map<string, Pod>,
                       done: set<string>, sent: seq<Request>, name: string, ip: string)
    requires ReportedSoFar(net, before, middle, desired, done, sent) && name !in done
    requires NeedsReport(before, desired, name) && desired[name].meta.name == name
    requires ReportIsTrue(net, before, node, name, desired[name], ip)
    requires forall other, ip :: other in done && RunsAt(middle, other, ip) ==> RunsAt(node, other, ip)
    ensures ReportedSoFar(net, before, node, desired, done + {name}, sent + [RunningRequest(desired[name], ip)])
  {
    hide AreReports, ReportedNames, SentIP, RunsAt, NeedsReport, IsRunning, IsFirstAddress;
    assert name !in ReportedNames(sent);
    NeedsToBeDesired(before, desired, name);
    OneMoreReport(desired, sent, desired[name], ip, name);
  }

  ghost predicate NobodyNeedsReport(node: Machine, desired: map<string, Pod>)
  {
    forall name :: name in desired ==> !NeedsReport(node, desired, name)
  }

  lemma NeedsIt(node: Machine, desired: map<string, Pod>, name: string)
    requires name in desired && (!IsRunning(node, name) || !desired[name].status.phase.Running?)
    ensures !NobodyNeedsReport(node, desired)
  {
    assert NeedsReport(node, desired, name);
  }

  lemma NeedsToBeDesired(node: Machine, desired: map<string, Pod>, name: string)
    ensures NeedsReport(node, desired, name) ==> name in desired
  {
  }

  lemma OneMoreIsFine(net: Network, before: Machine, node: Machine, desired: map<string, Pod>, done: set<string>,
                      sent: seq<Request>, name: string)
    requires ReportedSoFar(net, before, node, desired, done, sent)
    requires !NeedsReport(before, desired, name) && IsRunning(before, name)
    ensures ReportedSoFar(net, before, node, desired, done + {name}, sent)
  {
    hide AreReports, ReportedNames, SentIP, ReportIsTrue, NeedsReport, IsRunning;
  }

  // Where a reconcile is with the Pods `todo` still to be looked at; `smooth` says whether all
  // Pods can be run, which comes down to those that are left.
  ghost predicate Progress(net: Network, before: Machine, node: Machine, desired: map<string, Pod>,
                           starts: map<string, Start>, todo: set<string>, sent: seq<Request>, smooth: bool)
  {
    && NewStartsFor(node, starts, Idle(before, todo)) && (smooth <==> CanRun(net, node, starts, desired, todo))
    && RunSoFar(before, node, desired.Keys - todo)
    && ReportedSoFar(net, before, node, desired, desired.Keys - todo, sent)
    && (forall name :: name in desired ==> desired[name].meta.name == name)
  }

  lemma NoProgress(net: Network, node: Machine, desired: map<string, Pod>, starts: map<string, Start>, smooth: bool)
    requires HasStarts(node, starts, desired) && (smooth <==> CanRun(net, node, starts, desired, desired.Keys))
    requires forall name :: name in desired ==> desired[name].meta.name == name
    ensures Progress(net, node, node, desired, starts, desired.Keys, [], smooth)
  {
    NoneSoFar(net, node, desired);
    assert desired.Keys - desired.Keys == {};
  }

  lemma ProgressIsOnlyRun(net: Network, before: Machine, node: Machine, desired: map<string, Pod>,
                          starts: map<string, Start>, todo: set<string>, sent: seq<Request>, smooth: bool)
    requires Progress(net, before, node, desired, starts, todo, sent, smooth)
    ensures OnlyRun(before, node, desired.Keys) && ReportsAreTrue(net, before, node, desired, sent)
    ensures todo == {} ==> RunSoFar(before, node, desired.Keys)
    ensures todo == {} ==> ReportedSoFar(net, before, node, desired, desired.Keys, sent) && smooth
  {
    NothingLeftToRun(net, node, starts, desired);
    hide RunSoFar, ReportedSoFar, OnlyRun, AreReports, NewStartsFor, CanRun, ReportsAreTrue;
    SoFarIsOnlyRun(net, before, node, desired, desired.Keys - todo, sent);
    assert todo == {} ==> desired.Keys - todo == desired.Keys;
  }

  lemma NothingLeftToRun(net: Network, node: Machine, starts: map<string, Start>, desired: map<string, Pod>)
    ensures CanRun(net, node, starts, desired, {})
  {
    assert Addressless(net, node, desired, {}) == {};
  }

  lemma ProgressCanStart(net: Network, before: Machine, node: Machine, desired: map<string, Pod>,
                         starts: map<string, Start>, todo: set<string>, sent: seq<Request>, smooth: bool, name: string)
    requires Progress(net, before, node, desired, starts, todo, sent, smooth)
    requires name in todo && name in desired && !IsRunning(before, name)
    ensures name in starts && IsNewStart(node, starts[name]) && !IsRunning(node, name)
    ensures smooth ==> CanStart(net, node, desired[name], starts[name])
  {
    hide RunSoFar, ReportedSoFar, OnlyRun, AreReports, NewStartsFor, CanRun, CanStart, IsNewStart, IsRunning, Idle;
    IdleWithout(before, todo, name);
    SoFarIsOnlyRun(net, before, node, desired, desired.Keys - todo, sent);
    RunsAsBefore(before, node, desired.Keys - todo, name);
    StartFor(node, starts, Idle(before, todo), name);
    if smooth {
      CanRunNext(net, node, starts, desired, todo, name);
    }
  }

  // A Pod has been started: the next step of the reconcile, reported or not.
  lemma MoreProgress(net: Network, before: Machine, middle: Machine, node: Machine, desired: map<string, Pod>,
                     starts: map<string, Start>, todo: set<string>, sent: seq<Request>, smooth: bool, name: string,
                     ip: string)
    requires Progress(net, before, middle, desired, starts, todo, sent, smooth)
    requires name in todo && name in desired && !IsRunning(before, name) && !IsRunning(middle, name)
    requires name in starts && OnlyRun(middle, node, {name}) && RunsAt(node, name, ip)
    requires CanStart(net, middle, desired[name], starts[name]) && IsFirstAddress(net, middle, desired[name], ip)
    requires forall pid :: IsNew(middle, pid) && pid !in {starts[name].sandbox.pid, starts[name].container.pid} ==>
      IsNew(node, pid)
    requires |FreeHosts(net, node)| + OneIf(NeedsAddress(net, middle, desired[name], C.Workload)) ==
             |FreeHosts(net, middle)|
    ensures Progress(net, before, node, desired, starts, todo - {name}, sent + [RunningRequest(desired[name], ip)],
                     smooth)
  {
    hide RunSoFar, ReportedSoFar, OnlyRun, AreReports, NewStartsFor, CanRun, IsNew, FreeHosts, NeedsAddress,
      RunningRequest, CanStart, IsFirstAddress, Idle, RunsAt, NeedsReport;
    var done, idle := desired.Keys - todo, Idle(before, todo);
    IdleWithout(before, todo, name);
    FirstAddressFromTheStart(net, before, middle, desired, done, sent, name, ip);
    ItNeedsReport(before, desired, name);
    RunsAtIsRunning(node, name, ip);
    OneMoreRuns(before, middle, node, done, name);
    OneMoreNeedsIt(net, before, middle, node, desired, done, sent, name, ip);
    OneStartLess(middle, node, starts, idle, name);
    CanRunTheRest(net, middle, node, starts, desired, todo, name);
    assert done + {name} == desired.Keys - (todo - {name});
  }

  lemma IdleWithout(node: Machine, names: set<string>, name: string)
    requires name in names
    ensures name in Idle(node, names) <==> !IsRunning(node, name)
    ensures Idle(node, names - {name}) == Idle(node, names) - {name}
  {
  }

  lemma ItNeedsReport(node: Machine, desired: map<string, Pod>, name: string)
    requires name in desired && !IsRunning(node, name)
    ensures NeedsReport(node, desired, name)
  {
  }

  lemma RunsAtIsRunning(node: Machine, name: string, ip: string)
    requires RunsAt(node, name, ip)
    ensures IsRunning(node, name)
  {
  }

  lemma FirstAddressFromTheStart(net: Network, before: Machine, middle: Machine, desired: map<string, Pod>,
                                 done: set<string>, sent: seq<Request>, name: string, ip: string)
    requires RunSoFar(before, middle, done) && name in desired && desired[name].meta.name == name && name !in done
    requires IsFirstAddress(net, middle, desired[name], ip)
    ensures IsFirstAddress(net, before, desired[name], ip)
  {
    hide OnlyRun, HasBox;
    SameNeeds(net, before, middle, desired[name], done);
  }

  // A start that failed: what has been reported stays true.
  lemma NoMoreProgress(net: Network, before: Machine, middle: Machine, node: Machine, desired: map<string, Pod>,
                       starts: map<string, Start>, todo: set<string>, sent: seq<Request>, smooth: bool, name: string)
    requires Progress(net, before, middle, desired, starts, todo, sent, smooth)
    requires name in todo && name in desired && OnlyRun(middle, node, {name})
    ensures OnlyRun(before, node, desired.Keys) && ReportsAreTrue(net, before, node, desired, sent)
  {
    hide RunSoFar, OnlyRun, AreReports, NewStartsFor, CanRun, NeedsReport, IsRunning, RunsAt, IsFirstAddress, SentIP,
      Idle, ReportedNames;
    var done := desired.Keys - todo;
    OtherPodsRunOn(middle, node, done, name);
    SoFarIsOnlyRun(net, before, middle, desired, done, sent);
    OneMoreRun(before, middle, node, desired.Keys, name);
    assert desired.Keys + {name} == desired.Keys;
  }

  lemma OtherPodsRunOn(middle: Machine, node: Machine, done: set<string>, name: string)
    requires OnlyRun(middle, node, {name}) && name !in done
    ensures forall other, ip :: other in done && RunsAt(middle, other, ip) ==> RunsAt(node, other, ip)
  {
    hide SameAttachmentsBut;
    forall other | other in done && other in middle.containers
      ensures other in node.containers && node.containers[other] == middle.containers[other]
    {
      assert other !in {name};
    }
  }

  // A Pod whose container runs already, reported or not.
  lemma StillProgress(net: Network, before: Machine, node: Machine, desired: map<string, Pod>,
                      starts: map<string, Start>, todo: set<string>, sent: seq<Request>, smooth: bool, name: string)
    requires Progress(net, before, node, desired, starts, todo, sent, smooth)
    requires name in todo && name in desired && IsRunning(before, name)
    ensures Progress(net, before, node, desired, starts, todo - {name},
                     if desired[name].status.phase.Running? then sent
                     else sent + [RunningRequest(desired[name], desired[name].status.podIP)], smooth)
  {
    hide RunSoFar, ReportedSoFar, OnlyRun, AreReports, NewStartsFor, CanRun, RunningRequest, Idle, IsRunning;
    var done := desired.Keys - todo;
    IdleWithout(before, todo, name);
    assert Idle(before, todo - {name}) == Idle(before, todo);
    StillRuns(net, before, node, desired, done, sent, name);
    CanRunWithout(net, node, starts, desired, todo, name);
    assert done + {name} == desired.Keys - (todo - {name});
  }

  // ---------- the addresses that the store shows ----------

  // The address stored with an assigned Pod.
  function StoredIP(live: Objects, name: string): string
    requires Key(PodKind, name) in live && live[Key(PodKind, name)].value.PodObject?
  {
    live[Key(PodKind, name)].value.pod.status.podIP
  }

  // After an undisturbed reconcile every assigned Pod is shown as Running. One whose container
  // ran before keeps the address that was stored, whatever that is, so that the address shown
  // is that of the Pod's sandbox exactly when the container did not run before or the address
  // was right already.
  ghost predicate AddressesAreStored(nodeName: string, live: Objects, before: Machine, shown: Objects, after: Machine)
  {
    forall name, ip :: AssignedAt(live, name, nodeName) && RunsAt(after, name, ip) ==>
      && IsReportedRunning(shown, name)
      && (ShowsAddress(shown, name, ip) <==> !IsRunning(before, name) || StoredIP(live, name) == ip)
      && (IsRunning(before, name) ==> ShowsAddress(shown, name, StoredIP(live, name)))
  }

  lemma StoredAddressIsRightExactly(net: Network, log: seq<Write<Object>>, nodeName: string, before: Machine,
                                    after: Machine, sent: seq<Request>)
    requires Sound(log) && WellTyped(Live(log)) && PodsAreValid(Live(log))
    requires var desired := AssignedPods(ListPods(Live(log)), nodeName);
      && ReportsAreTrue(net, before, after, desired, sent)
      && ReportedNames(sent) == (set name | name in desired && NeedsReport(before, desired, name))
    ensures AddressesAreStored(nodeName, Live(log), before, Live(SendAll(log, [], sent).log), after)
  {
    hide Sound, Live, SendAll, PodsAreValid, AssignedPods, ReportedNames, AreReports, SentIP, AssignedAt, RunsAt,
      IsRunning, IsReportedRunning, ShowsAddress;
    var live, shown := Live(log), Live(SendAll(log, [], sent).log);
    var desired := AssignedPods(ListPods(live), nodeName);
    ReportsAreOfStoredPods(live, nodeName, sent);
    forall name, ip | AssignedAt(live, name, nodeName) && RunsAt(after, name, ip)
      ensures Key(PodKind, name) in live && live[Key(PodKind, name)].value.PodObject?
      ensures IsReportedRunning(shown, name)
      ensures ShowsAddress(shown, name, ip) <==> !IsRunning(before, name) || StoredIP(live, name) == ip
      ensures IsRunning(before, name) ==> ShowsAddress(shown, name, StoredIP(live, name))
    {
      FreshlyAssigned(live, nodeName, name);
      ReportsAreStored(log, desired, sent, name);
      if name in ReportedNames(sent) {
        assert ReportIsTrue(net, before, after, name, desired[name], SentIP(sent, name));
        ReportedShows(shown, after, name, SentIP(sent, name), ip);
      } else {
        UnreportedShows(live, shown, desired[name], ip);
      }
    }
  }

  lemma ReportedShows(shown: Objects, node: Machine, name: string, sent: string, ip: string)
    requires ShowsAddress(shown, name, sent) && RunsAt(node, name, ip)
    ensures IsReportedRunning(shown, name) && (ShowsAddress(shown, name, ip) <==> sent == ip)
    ensures RunsAt(node, name, sent) ==> sent == ip
  {
  }

  lemma UnreportedShows(live: Objects, shown: Objects, pod: Pod, ip: string)
    requires StoredPod(live, pod) && pod.status.phase.Running?
    requires var key := Key(PodKind, pod.meta.name);
      (key in shown <==> key in live) && (key in shown ==> shown[key] == live[key])
    ensures IsReportedRunning(shown, pod.meta.name)
    ensures ShowsAddress(shown, pod.meta.name, pod.status.podIP)
    ensures ShowsAddress(shown, pod.meta.name, ip) <==> pod.status.podIP == ip
  {
  }

  lemma ReportsAreOfStoredPods(live: Objects, nodeName: string, sent: seq<Request>)
    requires WellTyped(live) && AreReports(AssignedPods(ListPods(live), nodeName), sent)
    ensures ReportedPodsStored(live, AssignedPods(ListPods(live), nodeName), sent)
  {
    hide AssignedPods, StoredPod;
    var desired := AssignedPods(ListPods(live), nodeName);
    forall i | 0 <= i < |sent|
      ensures IsReport(desired, sent[i]) && desired[sent[i].name].meta.name == sent[i].name
      ensures StoredPod(live, desired[sent[i].name])
    {
      assert IsReport(desired, sent[i]);
      FreshlyAssigned(live, nodeName, sent[i].name);
    }
  }

  // ---------- containers that are not desired ----------

  // The container is in a sandbox of a static Pod.
  predicate InStaticBox(node: Machine, name: string)
  {
    name in node.containers && IsStatic(node, node.containers[name].container.sandboxID)
  }

  predicate IsStatic(node: Machine, id: string)
  {
    id in node.sandboxes && node.sandboxes[id].sandbox.source == C.StaticPod
  }

  predicate IsSandboxOf(node: Machine, names: set<string>, id: string)
  {
    exists name :: name in names && name in node.containers && node.containers[name].container.sandboxID == id
  }

  // The containers of the given names have been stopped and their sandboxes removed.
  ghost predicate Cleared(before: Machine, node: Machine, gone: set<string>)
  {
    && gone <= before.containers.Keys && node.containers.Keys == before.containers.Keys
    && (forall name :: name in before.containers && name !in gone ==> node.containers[name] == before.containers[name])
    && (forall name :: name in gone ==>
          node.containers[name].container == before.containers[name].container.(state := C.Stopped))
    && (forall id :: id in node.sandboxes <==> id in before.sandboxes && !IsSandboxOf(before, gone, id))
    && (forall id :: id in node.sandboxes ==> node.sandboxes[id] == before.sandboxes[id])
    && SameAttachmentsBut(before, node, gone)
  }

  lemma NothingCleared(node: Machine)
    ensures Cleared(node, node, {})
  {
  }

  lemma ContainerStops(net: Network, node: Machine, name: string)
    requires Inv(net, node) && Tidy(node) && IsRunning(node, name)
    ensures var (after, error) := StopContainer(node, name);
      && error.None? && Inv(net, after) && Tidy(after) && after.sandboxes == node.sandboxes
      && after.attachments == node.attachments
      && after.containers == node.containers[name := Ended(node.containers[name])]
      && node.containers[name].container.sandboxID in node.sandboxes
      && node.sandboxes[node.containers[name].container.sandboxID].sandbox.podName == name
  {
    assert ContainerOk(node, name);
    assert SitsInItsSandbox(node, name);
    var after := StopContainer(node, name).0;
    forall other | other in after.containers ensures SitsInItsSandbox(after, other) {
      assert SitsInItsSandbox(node, other);
    }
    hide Inv;
    StepKeepsInv(net, node, DoStop(name));
  }

  lemma OneMoreCleared(net: Network, before: Machine, middle: Machine, gone: set<string>, name: string, stops: Commands)
    requires Inv(net, middle) && Tidy(middle) && Cleared(before, middle, gone) && IsRunning(before, name)
    requires name !in gone
    ensures IsRunning(middle, name) && StopContainer(middle, name).1.None?
    ensures before.containers[name].container.sandboxID in StopContainer(middle, name).0.sandboxes
    ensures var stopped := StopContainer(middle, name).0;
      var (after, error) := StopPodSandbox(net, stopped, before.containers[name].container.sandboxID, stops);
      error.None? && Tidy(after) && Cleared(before, after, gone + {name})
  {
    hide Inv, Tidy, StopContainer, StopPodSandbox;
    var id := before.containers[name].container.sandboxID;
    ContainerStops(net, middle, name);
    var stopped := StopContainer(middle, name).0;
    BoxStops(net, stopped, id, stops);
    StoppedBoxIsTidy(net, stopped, id, stops);
    ClearedBoth(before, middle, stopped, StopPodSandbox(net, stopped, id, stops).0, gone, name, id);
  }

  lemma ClearedBoth(before: Machine, middle: Machine, stopped: Machine, after: Machine, gone: set<string>, name: string,
                    id: string)
    requires Cleared(before, middle, gone) && IsRunning(before, name) && name !in gone
    requires before.containers[name].container.sandboxID == id
    requires stopped.sandboxes == middle.sandboxes && stopped.attachments == middle.attachments
    requires name in middle.containers
    requires stopped.containers == middle.containers[name := Ended(middle.containers[name])]
    requires after.sandboxes == stopped.sandboxes - {id} && after.containers.Keys == stopped.containers.Keys
    requires forall other :: other in stopped.containers && other != name ==>
      after.containers[other] == stopped.containers[other]
    requires after.containers[name].container == stopped.containers[name].container.(state := C.Stopped)
    requires SameAttachmentsBut(stopped, after, {name})
    ensures Cleared(before, after, gone + {name})
  {
    hide SameAttachmentsBut;
    OneMoreSandbox(before, gone, name, id);
    MoreAttachments(before, middle, gone, gone + {name});
    MoreAttachments(stopped, after, {name}, gone + {name});
    SameAttachments(before, middle, stopped, gone + {name});
    AttachmentsOn(before, stopped, after, gone + {name});
  }

  lemma OneMoreSandbox(node: Machine, gone: set<string>, name: string, id: string)
    requires name in node.containers && node.containers[name].container.sandboxID == id
    ensures forall other :: IsSandboxOf(node, gone + {name}, other) <==> IsSandboxOf(node, gone, other) || other == id
  {
    forall other ensures IsSandboxOf(node, gone + {name}, other) <==> IsSandboxOf(node, gone, other) || other == id {
      assert name in gone + {name};
      if IsSandboxOf(node, gone, other) {
        var of :| of in gone && of in node.containers && node.containers[of].container.sandboxID == other;
        assert of in gone + {name};
      }
    }
  }

  lemma MoreAttachments(before: Machine, after: Machine, some: set<string>, names: set<string>)
    requires SameAttachmentsBut(before, after, some) && some <= names
    ensures SameAttachmentsBut(before, after, names)
  {
  }

  lemma SameAttachments(before: Machine, middle: Machine, after: Machine, names: set<string>)
    requires SameAttachmentsBut(before, middle, names) && after.attachments == middle.attachments
    ensures SameAttachmentsBut(before, after, names)
  {
  }

  // ---------- the goal ----------

  // No static Pod has the name of an assigned one.
  ghost predicate NamesApart(node: Machine, desired: map<string, Pod>)
  {
    forall id :: IsStatic(node, id) ==> node.sandboxes[id].sandbox.podName !in desired
  }

  ghost predicate StaticBoxesKept(before: Machine, after: Machine)
  {
    forall id ::
      (IsStatic(before, id) <==> IsStatic(after, id)) &&
        (IsStatic(before, id) ==> after.sandboxes[id] == before.sandboxes[id])
  }

  predicate ToBeCleared(before: Machine, desired: map<string, Pod>, name: string)
  {
    IsRunning(before, name) && name !in desired && !InStaticBox(before, name)
  }

  // The containers that run are those of the assigned Pods and of static sandboxes. Every
  // other container that ran is stopped, and its sandbox removed. Static sandboxes and their
  // containers are as they were.
  ghost predicate IsExact(before: Machine, after: Machine, desired: map<string, Pod>)
  {
    StaticBoxesKept(before, after) && forall name :: IsExactFor(before, after, desired, name)
  }

  predicate IsExactFor(before: Machine, after: Machine, desired: map<string, Pod>, name: string)
  {
    && (name in desired ==> IsRunning(after, name))
    && (IsRunning(after, name) ==> name in desired || InStaticBox(after, name))
    && (ToBeCleared(before, desired, name) ==>
          !IsRunning(after, name) && before.containers[name].container.sandboxID !in after.sandboxes)
    && (InStaticBox(before, name) && name !in desired ==>
          name in after.containers && after.containers[name] == before.containers[name])
  }

  // Nothing to do: the assigned Pods run and are known to, and nothing else runs.
  ghost predicate IsSettled(node: Machine, desired: map<string, Pod>)
  {
    && (forall name :: name in desired ==> IsRunning(node, name) && desired[name].status.phase.Running?)
    && (forall name :: IsRunning(node, name) ==> name in desired || InStaticBox(node, name))
  }

  lemma RunningAndClearedIsExact(before: Machine, middle: Machine, after: Machine, desired: map<string, Pod>,
                                 gone: set<string>)
    requires Tidy(before) && Tidy(middle) && RunSoFar(before, middle, desired.Keys) && Cleared(middle, after, gone)
    requires forall name :: name in gone <==> ToBeCleared(before, desired, name)
    ensures IsExact(before, after, desired)
  {
    hide Tidy, RunSoFar, Cleared, StaticBoxesKept, InStaticBox, IsRunning;
    ClearingSpares(before, middle, after, desired, gone);
    forall name ensures IsExactFor(before, after, desired, name) {
      if name in desired {
        DesiredAfter(before, middle, after, desired, gone, name);
      } else {
        UndesiredAfter(before, middle, after, desired, gone, name);
      }
    }
  }

  lemma DesiredAfter(before: Machine, middle: Machine, after: Machine, desired: map<string, Pod>, gone: set<string>,
                     name: string)
    requires RunSoFar(before, middle, desired.Keys) && Cleared(middle, after, gone) && name in desired && name !in gone
    ensures IsRunning(after, name)
  {
    hide SameAttachmentsBut, IsSandboxOf;
  }

  lemma UndesiredAfter(before: Machine, middle: Machine, after: Machine, desired: map<string, Pod>, gone: set<string>,
                       name: string)
    requires RunSoFar(before, middle, desired.Keys) && Cleared(middle, after, gone) && name !in desired
    requires StaticBoxesKept(before, after) && (name in gone <==> ToBeCleared(before, desired, name))
    ensures IsRunning(after, name) ==> InStaticBox(after, name)
    ensures ToBeCleared(before, desired, name) ==>
      !IsRunning(after, name) && before.containers[name].container.sandboxID !in after.sandboxes
    ensures InStaticBox(before, name) ==> name in after.containers && after.containers[name] == before.containers[name]
  {
    hide SameAttachmentsBut;
    assert name in before.containers <==> name in middle.containers;
    if name in before.containers {
      assert middle.containers[name] == before.containers[name];
      if name in gone {
        assert IsSandboxOf(middle, gone, middle.containers[name].container.sandboxID);
      }
    }
  }

  // With names apart, the assigned Pods run in sandboxes of their own kind.
  lemma DesiredRunAsWorkloads(net: Network, before: Machine, middle: Machine, after: Machine, desired: map<string, Pod>,
                              gone: set<string>, sent: seq<Request>, name: string)
    requires Tidy(before) && Inv(net, before) && Tidy(middle) && RunSoFar(before, middle, desired.Keys)
    requires Cleared(middle, after, gone)
    requires ReportedSoFar(net, before, middle, desired, desired.Keys, sent)
    requires NamesApart(before, desired) && name in desired && name !in gone
    requires forall other :: other in gone ==> IsRunning(middle, other)
    ensures Runs(after, name, C.Workload)
  {
    hide Inv, Tidy, Cleared, RunSoFar, Runs, NamesApart, AreReports, ReportedNames, SentIP;
    if IsRunning(before, name) {
      RunningInItsBox(net, before, name);
      KeptRunning(before, middle, desired, name);
    } else {
      RunsAtRuns(middle, name, SentIP(sent, name));
    }
    ClearedOthersRun(middle, after, gone, name);
  }

  lemma RunsAtRuns(node: Machine, name: string, ip: string)
    requires RunsAt(node, name, ip)
    ensures Runs(node, name, C.Workload)
  {
    assert RunsIn(node, name, node.containers[name].container.sandboxID, C.Workload);
  }

  // Static sandboxes hold no container that is cleared, since its name would be desired or it
  // would be in the static sandbox itself.
  lemma ClearingSpares(before: Machine, middle: Machine, after: Machine, desired: map<string, Pod>, gone: set<string>)
    requires Tidy(before) && Tidy(middle) && RunSoFar(before, middle, desired.Keys) && Cleared(middle, after, gone)
    requires forall name :: name in gone <==> ToBeCleared(before, desired, name)
    ensures StaticBoxesKept(before, after)
  {
    hide SameAttachmentsBut;
    forall id | IsStatic(middle, id) ensures !IsSandboxOf(middle, gone, id) {
      forall name | name in gone
        ensures name in middle.containers && middle.containers[name].container.sandboxID != id
      {
        assert name in before.containers && middle.containers[name] == before.containers[name];
        if middle.containers[name].container.sandboxID == id {
          StaticBefore(before, middle, desired.Keys, id);
          assert false;
        }
      }
    }
    forall id ensures IsStatic(before, id) <==> IsStatic(middle, id) {
    }
  }

  lemma StaticBefore(before: Machine, middle: Machine, names: set<string>, id: string)
    requires OnlyRun(before, middle, names) && IsStatic(middle, id)
    ensures IsStatic(before, id)
  {
  }

  lemma RunningInItsBox(net: Network, node: Machine, name: string)
    requires Inv(net, node) && Tidy(node) && IsRunning(node, name)
    ensures var id := node.containers[name].container.sandboxID;
      id in node.sandboxes && node.sandboxes[id].sandbox.podName == name &&
        node.sandboxes[id].sandbox.state == C.Running
  {
    assert ContainerOk(node, name) && SitsInItsSandbox(node, name);
    var id := node.containers[name].container.sandboxID;
    assert BoxOk(id, node.sandboxes[id]);
  }

  lemma KeptRunning(before: Machine, middle: Machine, desired: map<string, Pod>, name: string)
    requires RunSoFar(before, middle, desired.Keys) && NamesApart(before, desired) && name in desired
    requires IsRunning(before, name)
    requires var id := before.containers[name].container.sandboxID;
      id in before.sandboxes && before.sandboxes[id].sandbox.podName == name &&
        before.sandboxes[id].sandbox.state == C.Running
    ensures Runs(middle, name, C.Workload)
  {
    var id := before.containers[name].container.sandboxID;
    assert !IsStatic(before, id);
    assert RunsIn(middle, name, id, C.Workload);
  }

  lemma ClearedOthersRun(middle: Machine, after: Machine, gone: set<string>, name: string)
    requires Tidy(middle) && Cleared(middle, after, gone) && name !in gone && Runs(middle, name, C.Workload)
    requires forall other :: other in gone ==> IsRunning(middle, other)
    ensures Runs(after, name, C.Workload)
  {
    var id :| id in middle.sandboxes && RunsIn(middle, name, id, C.Workload);
    forall other | other in gone ensures middle.containers[other].container.sandboxID != id {
      assert SitsInItsSandbox(middle, other);
    }
    assert RunsIn(after, name, id, C.Workload);
  }

  lemma ClearedOthersRunAt(middle: Machine, after: Machine, gone: set<string>, name: string, ip: string)
    requires Tidy(middle) && Cleared(middle, after, gone) && name !in gone && RunsAt(middle, name, ip)
    requires forall other :: other in gone ==> IsRunning(middle, other)
    ensures RunsAt(after, name, ip)
  {
    var id := middle.containers[name].container.sandboxID;
    forall other | other in gone ensures middle.containers[other].container.sandboxID != id {
      assert SitsInItsSandbox(middle, other);
    }
  }

  // ---------- the phases of a reconcile leave each other's work alone ----------

  // Static Pods that match their manifests still do after the workloads, names being apart.
  lemma WorkloadsLeaveStaticPodsMatched(before: Machine, after: Machine, desired: map<string, Pod>,
                                        staticPods: seq<Pod>)
    requires IsExact(before, after, desired) && NamesApart(before, desired) && StaticPodsMatch(before, staticPods)
    ensures StaticPodsMatch(after, staticPods)
  {
    hide ManifestNames;
    forall name | name in ManifestNames(staticPods) ensures Runs(after, name, C.StaticPod) {
      var id :| id in before.sandboxes && RunsIn(before, name, id, C.StaticPod);
      assert IsStatic(before, id) && InStaticBox(before, name);
      assert IsExactFor(before, after, desired, name);
      assert RunsIn(after, name, id, C.StaticPod);
    }
    forall id | id in after.sandboxes && after.sandboxes[id].sandbox.source == C.StaticPod
      ensures after.sandboxes[id].sandbox.podName in ManifestNames(staticPods)
    {
      assert IsStatic(after, id) && IsStatic(before, id);
    }
  }

  // Whatever happens to the requests for mirrors, the Pods assigned to a node stay the same.
  lemma MirrorsLeaveAssignmentsAlone(before: Objects, after: Objects, nodeName: string)
    requires OnlyMirrorsChange(before, after)
    ensures forall name :: AssignedAt(after, name, nodeName) <==> AssignedAt(before, name, nodeName)
  {
    forall name ensures AssignedAt(after, name, nodeName) <==> AssignedAt(before, name, nodeName) {
      assert SamePod(before, after, name) || (FreeOfOthers(before, name) && FreeOfOthers(after, name));
    }
  }

  lemma SameAssigned(before: Objects, after: Objects, nodeName: string)
    requires WellTyped(before) && WellTyped(after) && OnlyMirrorsChange(before, after)
    ensures AssignedPods(ListPods(after), nodeName) == AssignedPods(ListPods(before), nodeName)
  {
    hide AssignedPods, AssignedAt, OnlyMirrorsChange, StoredPod;
    MirrorsLeaveAssignmentsAlone(before, after, nodeName);
    var now, was := AssignedPods(ListPods(after), nodeName), AssignedPods(ListPods(before), nodeName);
    forall name ensures (name in now <==> name in was) && (name in now ==> now[name] == was[name]) {
      FreshlyAssigned(before, nodeName, name);
      FreshlyAssigned(after, nodeName, name);
      if name in now {
        SameStoredPod(before, after, was[name], now[name]);
      }
    }
  }

  lemma SameStoredPod(before: Objects, after: Objects, was: Pod, now: Pod)
    requires OnlyMirrorsChange(before, after) && StoredPod(before, was) && StoredPod(after, now)
    requires was.meta.name == now.meta.name && !IsMirror(was)
    ensures was == now
  {
    var name := was.meta.name;
    assert SamePod(before, after, name) || (FreeOfOthers(before, name) && FreeOfOthers(after, name));
  }

  // Nor do the reports touch a mirror.
  lemma ReportsLeaveMirrorsAlone(log: seq<Write<Object>>, faults: seq<Fault>, nodeName: string, sent: seq<Request>)
    requires Sound(log) && WellTyped(Live(log)) && AreReports(AssignedPods(ListPods(Live(log)), nodeName), sent)
    ensures MirrorsKept(Live(log), Live(SendAll(log, faults, sent).log))
  {
    hide Sound, Live, SendAll, AssignedPods, MirrorsKept;
    var desired := AssignedPods(ListPods(Live(log)), nodeName);
    forall i | 0 <= i < |sent| ensures AvoidsMirrors(Live(log), sent[i]) {
      assert IsReport(desired, sent[i]);
      FreshlyAssigned(Live(log), nodeName, sent[i].name);
    }
    SendAllAvoidsMirrors(log, faults, sent);
  }

  // No process of a static Pod gets the id of one of these Pods' processes.
  ghost predicate PidsApart(starts: map<string, Start>, names: set<string>, pids: set<nat>)
  {
    forall name :: name in names && name in starts ==>
      starts[name].sandbox.pid !in pids && starts[name].container.pid !in pids
  }

  lemma StartsStayNew(before: Machine, after: Machine, starts: map<string, Start>, names: set<string>, pids: set<nat>)
    requires NewStartsFor(before, starts, names) && LeavesNew(before, after, pids) && PidsApart(starts, names, pids)
    ensures NewStartsFor(after, starts, names)
  {
    hide IsNew;
    forall name | name in names ensures IsNewStart(after, starts[name]) {
      assert IsNewStart(before, starts[name]);
    }
  }

  // What runs on the node is what the manifests and the assignments say, each in a sandbox of
  // its kind.
  ghost predicate NodeMatches(node: Machine, staticPods: seq<Pod>, desired: map<string, Pod>)
  {
    && StaticPodsMatch(node, staticPods)
    && (forall name :: name in desired ==> Runs(node, name, C.Workload))
    && (forall name :: IsRunning(node, name) <==> name in desired || name in ManifestNames(staticPods))
  }

  lemma BothKindsMatch(net: Network, before: Machine, after: Machine, staticPods: seq<Pod>, desired: map<string, Pod>)
    requires Inv(net, after) && Tidy(after)
    requires StaticPodsMatch(before, staticPods) && IsExact(before, after, desired)
    requires ManifestNames(staticPods) !! desired.Keys
    requires NamesApart(before, desired) ==> forall name :: name in desired ==> Runs(after, name, C.Workload)
    ensures NodeMatches(after, staticPods, desired)
  {
    hide Inv, Tidy, ManifestNames, StaticBoxesKept, Runs;
    WorkloadsLeaveStaticPodsMatched(before, after, desired, staticPods);
    forall name ensures IsRunning(after, name) <==> name in desired || name in ManifestNames(staticPods) {
      assert IsExactFor(before, after, desired, name);
      if IsRunning(after, name) && name !in desired {
        RunningInItsBox(net, after, name);
      }
      if name in ManifestNames(staticPods) {
        StaticPodRuns(after, name);
      }
    }
  }

  // The node can take the Pods of the manifests and the assigned ones: all starts that are
  // needed work, the names are apart, and there are addresses for all that need one.
  ghost predicate CanRunBoth(net: Network, node: Machine, staticPods: seq<Pod>, staticStarts: seq<Start>,
                             starts: map<string, Start>, desired: map<string, Pod>)
  {
    && CanShow(net, node, staticPods, staticStarts)
    && (forall name :: name in desired && !IsRunning(node, name) ==>
          name in starts && StartWorks(net, node, desired[name], starts[name]))
    && ManifestNames(staticPods) !! desired.Keys && StaticNames(node) !! desired.Keys
    && |StaticAddressless(net, node, staticPods)| + |Addressless(net, node, desired, desired.Keys)| <=
       |FreeHosts(net, node)|
  }

  lemma StaticPodsLeaveRoom(net: Network, before: Machine, middle: Machine, staticPods: seq<Pod>,
                            staticStarts: seq<Start>, starts: map<string, Start>, desired: map<string, Pod>)
    requires CanRunBoth(net, before, staticPods, staticStarts, starts, desired)
    requires forall name :: name in desired ==> desired[name].meta.name == name
    requires WorkloadsKept(before, middle) && LeavesRoom(net, before, middle, staticPods, [])
    requires OthersKept(before, middle, ManifestNames(staticPods) + StaticNames(before))
    ensures CanRun(net, middle, starts, desired, desired.Keys)
  {
    hide FreeHosts, ManifestNames, StaticNames, StaticAddressless, CanShow, HasBox;
    var touched := ManifestNames(staticPods) + StaticNames(before);
    forall name | name in desired
      ensures IsRunning(middle, name) <==> IsRunning(before, name)
      ensures NeedsAddress(net, middle, desired[name], C.Workload) <==>
              NeedsAddress(net, before, desired[name], C.Workload)
      ensures HasBox(middle.sandboxes, name, C.Workload) <==> HasBox(before.sandboxes, name, C.Workload)
    {
      assert name !in touched;
      SameWorkloadBox(before, middle, name);
    }
    assert Addressless(net, middle, desired, desired.Keys) == Addressless(net, before, desired, desired.Keys);
  }

  lemma SameWorkloadBox(before: Machine, after: Machine, name: string)
    requires WorkloadsKept(before, after)
    ensures HasBox(after.sandboxes, name, C.Workload) <==> HasBox(before.sandboxes, name, C.Workload)
  {
    if HasBox(before.sandboxes, name, C.Workload) {
      var id := BoxOf(before.sandboxes, name, C.Workload);
      assert IsWorkload(before, id) && IsBoxOf(after.sandboxes[id], name, C.Workload);
    }
    if HasBox(after.sandboxes, name, C.Workload) {
      var id := BoxOf(after.sandboxes, name, C.Workload);
      assert IsWorkload(after, id) && IsBoxOf(before.sandboxes[id], name, C.Workload);
    }
  }

  lemma StaticPodRuns(node: Machine, name: string)
    requires Runs(node, name, C.StaticPod)
    ensures IsRunning(node, name)
  {
  }

  // ---------- the kubelet ----------

  // The manifest directory of a kubelet.
  datatype Manifests = NoDirectory | Unreadable | Loaded(pods: seq<Pod>)

  // The store after the mirrors of the manifests have been seen to.
  ghost function Mirrored(log: seq<Write<Object>>, faults: seq<Fault>, manifests: Manifests, nodeName: string,
                          order: seq<string>): Outcome
    requires WellTyped(Live(log)) && forall i :: 0 <= i < |order| ==> order[i] in MirrorsIn(ListPods(Live(log)))
  {
    if manifests.Loaded? then MirrorPass(log, faults, manifests.pods, nodeName, MirrorsIn(ListPods(Live(log))), order)
    else Outcome(log, faults, true)
  }

  class Kubelet {
    const client: Client
    const runtime: Runtime
    const nodeName: string

    ghost predicate Ready()
      reads client, client.server.etcd, runtime, runtime.network
    {
      client.Valid() && runtime.Valid() && Tidy(runtime.Held())
    }

    constructor (client: Client, runtime: Runtime, nodeName: string)
      ensures this.client == client && this.runtime == runtime && this.nodeName == nodeName
    {
      this.client, this.runtime, this.nodeName := client, runtime, nodeName;
    }

    method FindAssigned(pods: seq<Pod>) returns (desired: map<string, Pod>)
      ensures desired == AssignedPods(pods, nodeName)
    {
      desired := map[];
      for i := 0 to |pods|
        invariant desired == AssignedPods(pods[..i], nodeName)
      {
        assert pods[..i + 1][..i] == pods[..i];
        if IsAssigned(pods[i], nodeName) {
          desired := desired[pods[i].meta.name := pods[i]];
        }
      }
      assert pods[..|pods|] == pods;
    }

    // The desired Pods, in the order the map gives them. It succeeds exactly when all can be
    // run and every report is answered Ok.
    method RunDesired(desired: map<string, Pod>, containers: map<string, C.Container>, starts: map<string, Start>)
      returns (ok: bool, ghost sent: seq<Request>)
      requires Ready() && HasStarts(runtime.Held(), starts, desired)
      requires containers == map name | name in runtime.containers :: runtime.containers[name].container
      requires forall name :: name in desired ==> desired[name].meta.name == name
      modifies client, client.server.etcd, runtime, runtime.network
      ensures Ready()
      ensures var out := SendAll(old(client.server.etcd.log), old(client.faults), sent);
        && client.server.etcd.log == out.log && client.faults == out.faults
        && (ok <==> out.ok && CanRun(runtime.Net(), old(runtime.Held()), starts, desired, desired.Keys))
      ensures OnlyRun(old(runtime.Held()), runtime.Held(), desired.Keys)
      ensures ReportsAreTrue(runtime.Net(), old(runtime.Held()), runtime.Held(), desired, sent)
      ensures ok ==> RunSoFar(old(runtime.Held()), runtime.Held(), desired.Keys)
      ensures ok ==>
        ReportedSoFar(runtime.Net(), old(runtime.Held()), runtime.Held(), desired, desired.Keys, sent)
      ensures NobodyNeedsReport(old(runtime.Held()), desired) ==>
        ok && sent == [] && runtime.Held() == old(runtime.Held())
    {
      hide Inv, Tidy, Sound, SendAll, NewStartsFor, RunSoFar, ReportedSoFar, OnlyRun, AfterExchange, ReplyTo, Progress,
        NobodyNeedsReport, RunningRequest, AreReports, CanRun, ReportsAreTrue;
      ghost var before, log0, faults0 := runtime.Held(), client.server.etcd.log, client.faults;
      ghost var net := runtime.Net();
      ghost var smooth := CanRun(net, before, starts, desired, desired.Keys);
      sent := [];
      var remaining := desired.Keys;
      NoProgress(net, before, desired, starts, smooth);
      NothingSent(log0, faults0);
      while remaining != {}
        invariant Ready() && remaining <= desired.Keys
        invariant Progress(net, before, runtime.Held(), desired, starts, remaining, sent, smooth)
        invariant SendAll(log0, faults0, sent) == Outcome(client.server.etcd.log, client.faults, true)
        invariant NobodyNeedsReport(before, desired) ==> sent == [] && runtime.Held() == before
        decreases remaining
      {
        var name :| name in remaining;
        ghost var todo := remaining;
        var pod := desired[name];
        remaining := remaining - {name};
        if name !in containers || containers[name].state != C.Running {
          NeedsIt(before, desired, name);
          ok, sent := StartDesired(pod, starts, todo, before, desired, smooth, log0, faults0, sent);
          if !ok {
            return;
          }
          continue;
        }
        StillProgress(net, before, runtime.Held(), desired, starts, todo, sent, smooth, name);
        if !pod.status.phase.Running? {
          NeedsIt(before, desired, name);
          var reported := UpdateStatus(pod, pod.status.podIP, log0, faults0, sent);
          sent := sent + [RunningRequest(pod, pod.status.podIP)];
          ProgressIsOnlyRun(net, before, runtime.Held(), desired, starts, remaining, sent, smooth);
          if !reported {
            return false, sent;
          }
        }
      }
      ProgressIsOnlyRun(net, before, runtime.Held(), desired, starts, {}, sent, smooth);
      return true, sent;
    }

    // A desired Pod without a Running container is started and reported.
    method StartDesired(pod: Pod, starts: map<string, Start>, ghost todo: set<string>, ghost before: Machine,
                        ghost desired: map<string, Pod>, ghost smooth: bool, ghost log0: seq<Write<Object>>,
                        ghost faults0: seq<Fault>, ghost sent: seq<Request>)
      returns (ok: bool, ghost more: seq<Request>)
      requires Ready() && Progress(runtime.Net(), before, runtime.Held(), desired, starts, todo, sent, smooth)
      requires SendAll(log0, faults0, sent) == Outcome(client.server.etcd.log, client.faults, true)
      requires todo <= desired.Keys && pod.meta.name in todo && desired[pod.meta.name] == pod
      requires !IsRunning(before, pod.meta.name)
      modifies client, client.server.etcd, runtime, runtime.network
      ensures Ready()
      ensures var out := SendAll(log0, faults0, more);
        && client.server.etcd.log == out.log && client.faults == out.faults
        && (ok ==> out.ok) && (smooth && out.ok ==> ok)
      ensures OnlyRun(before, runtime.Held(), desired.Keys)
      ensures ReportsAreTrue(runtime.Net(), before, runtime.Held(), desired, more)
      ensures ok ==>
        Progress(runtime.Net(), before, runtime.Held(), desired, starts, todo - {pod.meta.name}, more, smooth)
    {
      hide Inv, Tidy, OnlyRun, IsNew, CanStart, FreeHosts, NeedsAddress, IsNewStart, SendAll, AreReports,
        RunningRequest, Sound, Progress, ReportsAreTrue, IsFirstAddress;
      ghost var middle, name, net := runtime.Held(), pod.meta.name, runtime.Net();
      ProgressCanStart(net, before, middle, desired, starts, todo, sent, smooth, name);
      var r := RunPod(runtime, pod, starts[pod.meta.name]);
      if r.Failure? {
        NoMoreProgress(net, before, middle, runtime.Held(), desired, starts, todo, sent, smooth, name);
        return false, sent;
      }
      MoreProgress(net, before, middle, runtime.Held(), desired, starts, todo, sent, smooth, name, r.value.ip);
      more := sent + [RunningRequest(pod, r.value.ip)];
      ProgressIsOnlyRun(net, before, runtime.Held(), desired, starts, todo - {name}, more, smooth);
      ok := UpdateStatus(pod, r.value.ip, log0, faults0, sent);
    }

    // The report that a Pod runs, after the requests already sent.
    method UpdateStatus(pod: Pod, podIP: string, ghost log0: seq<Write<Object>>, ghost faults0: seq<Fault>,
                        ghost sent: seq<Request>)
      returns (ok: bool)
      requires client.Valid() && SendAll(log0, faults0, sent) == Outcome(client.server.etcd.log, client.faults, true)
      modifies client, client.server.etcd
      ensures client.Valid()
      ensures SendAll(log0, faults0, sent + [RunningRequest(pod, podIP)]) ==
        Outcome(client.server.etcd.log, client.faults, ok)
    {
      hide Sound, SendAll, AfterExchange, ReplyTo;
      OneMoreSent(log0, faults0, sent, client.server.etcd.log, client.faults, RunningRequest(pod, podIP));
      var reply := client.Send(RunningRequest(pod, podIP));
      ok := reply.Ok?;
    }

    // Static Pods, their mirrors, and the assigned Pods, in this order; the first failure ends
    // it. After success, names being apart, exactly the Pods of the manifests and the assigned
    // ones run, and undisturbed the mirrors match as well. It succeeds when the node can take
    // the Pods and nothing disturbs it.
    method Reconcile(manifests: Manifests, staticStarts: seq<Start>, starts: map<string, Start>, stops: Commands)
      returns (ok: bool, ghost desired: map<string, Pod>, ghost order: seq<string>, ghost sent: seq<Request>)
      requires Ready()
      requires manifests.Loaded? ==> |staticStarts| == |manifests.pods| && AreNewStarts(runtime.Held(), staticStarts)
      requires var names := Assigned(client.server.etcd.log, nodeName).Keys;
        NewStartsFor(runtime.Held(), starts, names) && PidsApart(starts, names, PidsOf(staticStarts))
      modifies client, client.server.etcd, runtime, runtime.network
      ensures Ready() && WellTyped(Live(old(client.server.etcd.log)))
      ensures manifests.Unreadable? ==>
        !ok && client.server.etcd.log == old(client.server.etcd.log) && runtime.Held() == old(runtime.Held())
      ensures forall i :: 0 <= i < |order| ==> order[i] in MirrorsIn(ListPods(Live(old(client.server.etcd.log))))
      ensures ok ==>
        var mirrored := Mirrored(old(client.server.etcd.log), old(client.faults), manifests, nodeName, order);
        && mirrored.ok && WellTyped(Live(mirrored.log)) && desired == Assigned(mirrored.log, nodeName)
        && AreReports(desired, sent)
        && SendAll(mirrored.log, mirrored.faults, sent) == Outcome(client.server.etcd.log, client.faults, true)
      ensures ok ==> desired == Assigned(old(client.server.etcd.log), nodeName)
      ensures ok && manifests.NoDirectory? ==> IsExact(old(runtime.Held()), runtime.Held(), desired)
      ensures ok && manifests.Loaded? && ManifestNames(manifests.pods) !! desired.Keys ==>
        NodeMatches(runtime.Held(), manifests.pods, desired)
      ensures ok && manifests.Loaded? ==>
        CanMirror(old(client.server.etcd.log), old(client.faults), manifests.pods, nodeName) ==>
        MirrorsMatch(Live(client.server.etcd.log), manifests.pods, nodeName)
      ensures var able := CanReconcile(old(client.server.etcd.log), old(client.faults), nodeName, runtime.Net(),
                                       old(runtime.Held()), manifests, staticStarts, starts);
        able ==> ok
      ensures manifests.Loaded? ==>
        IsAtRest(old(client.server.etcd.log), old(client.faults), old(runtime.Held()), manifests.pods, nodeName) ==>
        ok && client.server.etcd.log == old(client.server.etcd.log) && runtime.Held() == old(runtime.Held())
    {
      hide Inv, Tidy, Sound, Live, SendAll, NewStartsFor, AreReports, IsExact, NamesApart, Runs, NeedsReport, IsSettled,
        AssignedPods, CanRun, PodsAreValid, StoredPod, AreNewStarts, PidsApart, PidsOf, LeavesNew, StaticPodsMatch,
        ManifestNames, WorkloadsKept, OthersKept, NodeMatches, MirrorsMatch, MirrorPass, MirrorsIn, ReportedNames,
        CanMirror, LeavesRoom, CanShow, StaticNames, IsPartOfAnOrder,
        IsOrder, IsAtRest, ReportsAreTrue, RunningKept, Idle, CanReconcile, CanRunBoth, Assigned, AddressesAreStored;
      ghost var log, faults, before, net := client.server.etcd.log, client.faults, runtime.Held(), runtime.Net();
      ghost var mine := Assigned(log, nodeName);
      desired, order, sent := map[], [], [];
      SoundIsAssigned(log, nodeName);
      NothingWalked(MirrorsIn(ListPods(Live(log))));
      WithoutManifests(log, faults, nodeName, net, before, staticStarts, starts);
      if manifests.Unreadable? {
        return false, desired, order, sent;
      }
      if manifests.Loaded? {
        ok, order := ReconcileManifests(manifests.pods, staticStarts, stops);
        AfterTheManifests(log, faults, nodeName, net, before, runtime.Held(), manifests.pods, staticStarts, starts,
          order, ok);
        if !ok {
          return;
        }
        StartsStayNew(before, runtime.Held(), starts, mine.Keys, PidsOf(staticStarts));
      }
      ghost var middle, mirrored := runtime.Held(), client.server.etcd.log;
      IdleStarts(middle, starts, mine.Keys);
      SoundIsAssigned(mirrored, nodeName);
      NothingSent(mirrored, client.faults);
      ok, desired, sent := ReconcileWorkloads(starts, stops);
      TrueReportsAreReports(net, middle, runtime.Held(), desired, sent);
      if ok && manifests.Loaded? {
        if ManifestNames(manifests.pods) !! desired.Keys {
          BothKindsMatch(net, middle, runtime.Held(), manifests.pods, desired);
        }
        MirrorsEndUpMatched(log, faults, manifests.pods, nodeName, order, sent);
      }
    }

    // The static Pods of the manifests, then their mirrors.
    method ReconcileManifests(pods: seq<Pod>, staticStarts: seq<Start>, stops: Commands)
      returns (ok: bool, ghost order: seq<string>)
      requires Ready() && |staticStarts| == |pods| && AreNewStarts(runtime.Held(), staticStarts)
      modifies client, client.server.etcd, runtime, runtime.network
      ensures Ready() && WellTyped(Live(old(client.server.etcd.log)))
      ensures var current := MirrorsIn(ListPods(Live(old(client.server.etcd.log))));
        && IsPartOfAnOrder(order, current) && (ok ==> IsOrder(order, current))
        && (ok ==> MirrorPass(old(client.server.etcd.log), old(client.faults), pods, nodeName, current, order) ==
                   Outcome(client.server.etcd.log, client.faults, true))
      ensures ok ==> StaticPodsMatch(runtime.Held(), pods)
      ensures ok ==> LeavesRoom(runtime.Net(), old(runtime.Held()), runtime.Held(), pods, [])
      ensures WorkloadsKept(old(runtime.Held()), runtime.Held())
      ensures OthersKept(old(runtime.Held()), runtime.Held(), ManifestNames(pods) + StaticNames(old(runtime.Held())))
      ensures LeavesNew(old(runtime.Held()), runtime.Held(), PidsOf(staticStarts))
      ensures CanShow(runtime.Net(), old(runtime.Held()), pods, staticStarts) ==>
        CanMirror(old(client.server.etcd.log), old(client.faults), pods, nodeName) ==> ok
      ensures IsAtRest(old(client.server.etcd.log), old(client.faults), old(runtime.Held()), pods, nodeName) ==>
        ok && client.server.etcd.log == old(client.server.etcd.log) && client.faults == old(client.faults) &&
        runtime.Held() == old(runtime.Held())
    {
      hide Inv, Tidy, Sound, Live, AreNewStarts, LeavesNew, PidsOf, StaticPodsMatch, ManifestNames, WorkloadsKept,
        OthersKept,
        MirrorPass, MirrorsIn, CanMirror, LeavesRoom, CanShow, NoneStale, DistinctPods, IsOrder, IsAtRest, StaticNames,
        IsPartOfAnOrder;
      ghost var log, faults, before := client.server.etcd.log, client.faults, runtime.Held();
      order := [];
      SoundIsWellTyped(log);
      NothingWalked(MirrorsIn(ListPods(Live(log))));
      RestingPods(log, faults, before, pods, nodeName);
      ok := ReconcileStaticPods(runtime, pods, staticStarts, stops);
      if !ok {
        return;
      }
      ok, order := ReconcileMirrorPods(client, pods, nodeName);
      WalkedAreListed(order, MirrorsIn(ListPods(Live(log))));
      RestingMirrors(log, faults, before, pods, nodeName, order);
      if CanMirror(log, faults, pods, nodeName) {
        MirrorsCanBeShown(log, faults, pods, nodeName, order);
      }
    }

    // Exactness. After success the Running containers are those of the assigned Pods, in live
    // workload sandboxes, and of static ones; what ran besides is stopped and its sandbox
    // gone. Exactly the Pods that need it have been reported, once each, with the address of
    // their sandbox; when nothing needs doing, nothing is done.
    method ReconcileWorkloads(starts: map<string, Start>, stops: Commands)
      returns (ok: bool, ghost desired: map<string, Pod>, ghost sent: seq<Request>)
      requires Ready()
      requires WellTyped(Live(client.server.etcd.log)) ==>
        HasStarts(runtime.Held(), starts, AssignedPods(ListPods(Live(client.server.etcd.log)), nodeName))
      modifies client, client.server.etcd, runtime, runtime.network
      ensures Ready() && WellTyped(Live(old(client.server.etcd.log)))
      ensures desired == AssignedPods(ListPods(Live(old(client.server.etcd.log))), nodeName)
      ensures var out := SendAll(old(client.server.etcd.log), old(client.faults), sent);
        && client.server.etcd.log == out.log && client.faults == out.faults
        && (ok <==> out.ok && CanRun(runtime.Net(), old(runtime.Held()), starts, desired, desired.Keys))
      ensures ok ==> IsExact(old(runtime.Held()), runtime.Held(), desired)
      ensures ok && NamesApart(old(runtime.Held()), desired) ==>
        forall name :: name in desired ==> Runs(runtime.Held(), name, C.Workload)
      ensures ReportsAreTrue(runtime.Net(), old(runtime.Held()), runtime.Held(), desired, sent)
      ensures ok ==>
        ReportedNames(sent) == set name | name in desired && NeedsReport(old(runtime.Held()), desired, name)
      ensures ok ==> RunningKept(old(runtime.Held()), runtime.Held(), desired)
      ensures IsSettled(old(runtime.Held()), desired) ==> ok && sent == [] && runtime.Held() == old(runtime.Held())
      ensures old(client.faults) == [] && PodsAreValid(Live(old(client.server.etcd.log))) ==>
        (ok <==> CanRun(runtime.Net(), old(runtime.Held()), starts, desired, desired.Keys))
      ensures old(client.faults) == [] && PodsAreValid(Live(old(client.server.etcd.log))) && ok ==>
        AddressesAreStored(nodeName, Live(old(client.server.etcd.log)), old(runtime.Held()),
                           Live(client.server.etcd.log), runtime.Held())
    {
      hide Inv, Tidy, Sound, SendAll, NewStartsFor, AreReports, IsExact, NamesApart, Runs, NeedsReport, IsSettled,
        AssignedPods, CanRun, PodsAreValid, StoredPod, ReportsAreTrue, RunningKept,
        ReportedNames, AddressesAreStored;
      ghost var log, before := client.server.etcd.log, runtime.Held();
      var items := client.server.List(PodKind);
      var containers := runtime.List();
      var sandboxes := runtime.ListSandboxes();
      var staticIDs := set id | id in sandboxes && sandboxes[id].source == C.StaticPod;
      var mine := FindAssigned(PodsOf(items));
      desired := mine;
      forall name | name in desired
        ensures desired[name].meta.name == name && StoredPod(Live(client.server.etcd.log), desired[name])
      {
        FreshlyAssigned(Live(client.server.etcd.log), nodeName, name);
      }
      ok, sent := ReconcileListed(mine, containers, staticIDs, starts, stops);
      if ok && old(client.faults) == [] && PodsAreValid(Live(log)) {
        StoredAddressIsRightExactly(runtime.Net(), log, nodeName, before, runtime.Held(), sent);
      }
    }

    method ReconcileListed(desired: map<string, Pod>, containers: map<string, C.Container>, staticIDs: set<string>,
                           starts: map<string, Start>, stops: Commands)
      returns (ok: bool, ghost sent: seq<Request>)
      requires Ready() && HasStarts(runtime.Held(), starts, desired)
      requires containers == map name | name in runtime.containers :: runtime.containers[name].container
      requires forall id :: id in staticIDs <==> IsStatic(runtime.Held(), id)
      requires forall name :: name in desired ==> desired[name].meta.name == name
      modifies client, client.server.etcd, runtime, runtime.network
      ensures Ready()
      ensures var out := SendAll(old(client.server.etcd.log), old(client.faults), sent);
        && client.server.etcd.log == out.log && client.faults == out.faults
        && (ok <==> out.ok && CanRun(runtime.Net(), old(runtime.Held()), starts, desired, desired.Keys))
      ensures ok ==> IsExact(old(runtime.Held()), runtime.Held(), desired)
      ensures ok && NamesApart(old(runtime.Held()), desired) ==>
        forall name :: name in desired ==> Runs(runtime.Held(), name, C.Workload)
      ensures ReportsAreTrue(runtime.Net(), old(runtime.Held()), runtime.Held(), desired, sent)
      ensures ok ==>
        ReportedNames(sent) == set name | name in desired && NeedsReport(old(runtime.Held()), desired, name)
      ensures ok ==> RunningKept(old(runtime.Held()), runtime.Held(), desired)
      ensures IsSettled(old(runtime.Held()), desired) ==> ok && sent == [] && runtime.Held() == old(runtime.Held())
      ensures ReportsAreTaken(old(client.server.etcd.log), old(client.faults), desired) ==>
        (ok <==> CanRun(runtime.Net(), old(runtime.Held()), starts, desired, desired.Keys))
    {
      hide Inv, Tidy, Sound, SendAll, NewStartsFor, RunSoFar, ReportedSoFar, OnlyRun, AreReports, IsExact, Cleared,
        NamesApart, Runs, CanRun, ReportsAreTaken, ReportsAreTrue, RunningKept,
        NeedsReport, IsSettled, NobodyNeedsReport, ToBeCleared;
      ghost var before := runtime.Held();
      SettledNeedsNothing(before, desired);
      ok, sent := RunDesired(desired, containers, starts);
      TakenReportsSucceed(old(client.server.etcd.log), old(client.faults), runtime.Net(), before, runtime.Held(),
        desired, sent);
      if !ok {
        return;
      }
      ghost var middle, gone := runtime.Held(), {};
      UndesiredAsListed(before, middle, desired, containers);
      ok, gone := ClearUndesired(desired, containers, staticIDs, stops);
      ClearedAsDue(before, desired, containers, staticIDs, gone);
      SettledClearsNothing(before, desired, gone);
      GoalReached(runtime.Net(), before, middle, runtime.Held(), desired, gone, sent);
    }

    // Stops what runs and is neither desired nor static, in the order the list gives it.
    method ClearUndesired(desired: map<string, Pod>, containers: map<string, C.Container>, staticIDs: set<string>,
                          stops: Commands)
      returns (ok: bool, ghost gone: set<string>)
      requires runtime.Valid() && Tidy(runtime.Held())
      requires forall name :: name in containers && name !in desired ==>
        name in runtime.containers && runtime.containers[name].container == containers[name]
      modifies runtime, runtime.network
      ensures runtime.Valid() && Tidy(runtime.Held()) && ok && Cleared(old(runtime.Held()), runtime.Held(), gone)
      ensures forall name :: name in gone <==>
        name in containers && name !in desired && containers[name].state == C.Running &&
          containers[name].sandboxID !in staticIDs
      ensures gone == {} ==> runtime.Held() == old(runtime.Held())
    {
      hide Inv, Tidy, Cleared, StopContainer, StopPodSandbox;
      ghost var before, net := runtime.Held(), runtime.Net();
      gone := {};
      NothingCleared(before);
      var remaining := containers.Keys;
      while remaining != {}
        invariant runtime.Valid() && Tidy(runtime.Held()) && Cleared(before, runtime.Held(), gone)
        invariant remaining <= containers.Keys
        invariant forall name :: name in gone <==>
          name in containers && name !in remaining && name !in desired && containers[name].state == C.Running &&
            containers[name].sandboxID !in staticIDs
        invariant gone == {} ==> runtime.Held() == before
        decreases remaining
      {
        var name :| name in remaining;
        remaining := remaining - {name};
        var container := containers[name];
        if container.sandboxID in staticIDs || name in desired || container.state != C.Running {
          continue;
        }
        ghost var middle := runtime.Held();
        OneMoreCleared(net, before, middle, gone, name, stops);
        ContainerStops(net, middle, name);
        var error := runtime.Stop(name);
        if error.Some? {
          return false, gone;
        }
        IDsAreNotEmpty(net, runtime.Held(), container.sandboxID);
        if container.sandboxID != "" {
          error := runtime.StopPodSandbox(container.sandboxID, stops);
          if error.Some? {
            return false, gone;
          }
        }
        gone := gone + {name};
      }
      return true, gone;
    }
  }

  // No network trouble to come, distinct and valid manifests, and no Pod but a mirror with the
  // name of one's mirror.
  ghost predicate CanMirror(log: seq<Write<Object>>, faults: seq<Fault>, staticPods: seq<Pod>, nodeName: string)
  {
    && faults == [] && ManifestsAreValid(staticPods)
    && forall name :: name in DesiredNames(staticPods, nodeName) ==> FreeOfOthers(Live(log), name)
  }

  // The node and the mirrors are as they should be, and all reports have been made.
  ghost predicate IsAtRest(log: seq<Write<Object>>, faults: seq<Fault>, node: Machine, staticPods: seq<Pod>,
                           nodeName: string)
  {
    && WellTyped(Live(log)) && CanMirror(log, faults, staticPods, nodeName)
    && MirrorsMatch(Live(log), staticPods, nodeName)
    && var desired := AssignedPods(ListPods(Live(log)), nodeName);
       && NodeMatches(node, staticPods, desired) && NoneStale(node)
       && forall name :: name in desired ==> desired[name].status.phase.Running?
  }

  lemma RestingPods(log: seq<Write<Object>>, faults: seq<Fault>, node: Machine, staticPods: seq<Pod>, nodeName: string)
    ensures IsAtRest(log, faults, node, staticPods, nodeName) ==>
      && StaticPodsMatch(node, staticPods) && DistinctPods(staticPods) && NoneStale(node)
      && IsSettled(node, AssignedPods(ListPods(Live(log)), nodeName))
  {
    hide Live, AssignedPods, StaticPodsMatch, MirrorsMatch, NoneStale, DesiredNames;
    if IsAtRest(log, faults, node, staticPods, nodeName) {
      MatchedIsSettled(node, staticPods, AssignedPods(ListPods(Live(log)), nodeName));
    }
  }

  lemma MatchedIsSettled(node: Machine, staticPods: seq<Pod>, desired: map<string, Pod>)
    requires NodeMatches(node, staticPods, desired)
    requires forall name :: name in desired ==> desired[name].status.phase.Running?
    ensures IsSettled(node, desired)
  {
    hide ManifestNames;
    forall name | IsRunning(node, name) && name !in desired ensures InStaticBox(node, name) {
      var id :| id in node.sandboxes && RunsIn(node, name, id, C.StaticPod);
    }
  }

  lemma RestingMirrors(log: seq<Write<Object>>, faults: seq<Fault>, node: Machine, staticPods: seq<Pod>,
                       nodeName: string, order: seq<string>)
    requires Sound(log) && WellTyped(Live(log))
    requires forall i :: 0 <= i < |order| ==> order[i] in MirrorsIn(ListPods(Live(log)))
    ensures IsAtRest(log, faults, node, staticPods, nodeName) ==>
      MirrorPass(log, faults, staticPods, nodeName, MirrorsIn(ListPods(Live(log))), order) == Outcome(log, faults, true)
  {
    hide Sound, Live, MirrorPass, MirrorsIn, AssignedPods, MirrorsMatch, IsOrder, ManifestsAreValid, NodeMatches,
      FreeOfOthers, DesiredNames;
    if IsAtRest(log, faults, node, staticPods, nodeName) {
      MatchingMirrorsStay(log, staticPods, nodeName, order);
    }
  }

  // The node can take the Pods, and nothing disturbs the requests.
  ghost predicate CanReconcile(log: seq<Write<Object>>, faults: seq<Fault>, nodeName: string, net: Network,
                               node: Machine, manifests: Manifests, staticStarts: seq<Start>,
                               starts: map<string, Start>)
  {
    var desired := Assigned(log, nodeName);
    && PodsAreValid(Live(log))
    && match manifests
       case NoDirectory => faults == [] && CanRun(net, node, starts, desired, desired.Keys)
       case Unreadable => false
       case Loaded(pods) =>
         CanMirror(log, faults, pods, nodeName) && CanRunBoth(net, node, pods, staticStarts, starts, desired)
  }

  lemma WithoutManifests(log: seq<Write<Object>>, faults: seq<Fault>, nodeName: string, net: Network, node: Machine,
                          staticStarts: seq<Start>, starts: map<string, Start>)
    ensures !CanReconcile(log, faults, nodeName, net, node, Unreadable, staticStarts, starts)
    ensures CanReconcile(log, faults, nodeName, net, node, NoDirectory, staticStarts, starts) ==>
      PodsAreValid(Live(log)) && faults == [] &&
      CanRun(net, node, starts, Assigned(log, nodeName), Assigned(log, nodeName).Keys)
  {
  }

  lemma SoundIsAssigned(log: seq<Write<Object>>, nodeName: string)
    requires Sound(log)
    ensures WellTyped(Live(log)) && Assigned(log, nodeName) == AssignedPods(ListPods(Live(log)), nodeName)
  {
    SoundIsWellTyped(log);
  }

  lemma NothingWalked(current: map<string, Pod>)
    ensures IsPartOfAnOrder([], current)
  {
  }

  lemma WalkedAreListed(order: seq<string>, current: map<string, Pod>)
    requires IsPartOfAnOrder(order, current)
    ensures forall i :: 0 <= i < |order| ==> order[i] in current
  {
  }

  lemma MirrorsCanBeShown(log: seq<Write<Object>>, faults: seq<Fault>, staticPods: seq<Pod>, nodeName: string,
                          order: seq<string>)
    requires Sound(log) && WellTyped(Live(log)) && CanMirror(log, faults, staticPods, nodeName)
    requires IsPartOfAnOrder(order, MirrorsIn(ListPods(Live(log))))
    ensures var out := MirrorPass(log, faults, staticPods, nodeName, MirrorsIn(ListPods(Live(log))), order);
      out.ok && out.faults == []
  {
    MirrorPassesSucceed(log, staticPods, nodeName, order);
  }

  lemma AfterTheMirrors(log: seq<Write<Object>>, faults: seq<Fault>, staticPods: seq<Pod>, nodeName: string,
                        order: seq<string>)
    requires Sound(log) && WellTyped(Live(log)) && IsPartOfAnOrder(order, MirrorsIn(ListPods(Live(log))))
    ensures var out := MirrorPass(log, faults, staticPods, nodeName, MirrorsIn(ListPods(Live(log))), order);
      && Sound(out.log) && Assigned(out.log, nodeName) == Assigned(log, nodeName)
      && (PodsAreValid(Live(log)) ==> PodsAreValid(Live(out.log)))
      && (CanMirror(log, faults, staticPods, nodeName) ==> out.faults == [])
  {
    hide Sound, Live, MirrorPass, MirrorsIn, AssignedPods, OnlyMirrorsChange, PodsAreValid, CanMirror;
    var after := MirrorPass(log, faults, staticPods, nodeName, MirrorsIn(ListPods(Live(log))), order).log;
    MirrorPassesChangeOnlyMirrors(log, faults, staticPods, nodeName, order);
    SoundIsWellTyped(after);
    SameAssigned(Live(log), Live(after), nodeName);
    if PodsAreValid(Live(log)) {
      MirrorPassesKeepPodsValid(log, faults, staticPods, nodeName, order);
    }
    if CanMirror(log, faults, staticPods, nodeName) {
      MirrorsCanBeShown(log, faults, staticPods, nodeName, order);
    }
  }

  // Where the manifests leave the workloads.
  lemma AfterTheManifests(log: seq<Write<Object>>, faults: seq<Fault>, nodeName: string, net: Network, before: Machine,
                          middle: Machine, pods: seq<Pod>, staticStarts: seq<Start>, starts: map<string, Start>,
                          order: seq<string>, ok: bool)
    requires Sound(log) && WellTyped(Live(log)) && IsPartOfAnOrder(order, MirrorsIn(ListPods(Live(log))))
    requires WorkloadsKept(before, middle) && (ok ==> LeavesRoom(net, before, middle, pods, []))
    requires OthersKept(before, middle, ManifestNames(pods) + StaticNames(before))
    ensures forall i :: 0 <= i < |order| ==> order[i] in MirrorsIn(ListPods(Live(log)))
    ensures var out := MirrorPass(log, faults, pods, nodeName, MirrorsIn(ListPods(Live(log))), order);
      && Sound(out.log) && Assigned(out.log, nodeName) == Assigned(log, nodeName)
      && (CanReconcile(log, faults, nodeName, net, before, Loaded(pods), staticStarts, starts) ==>
            && CanShow(net, before, pods, staticStarts) && CanMirror(log, faults, pods, nodeName)
            && PodsAreValid(Live(out.log)) && out.faults == []
            && (ok ==> CanRun(net, middle, starts, Assigned(log, nodeName), Assigned(log, nodeName).Keys)))
      && (IsAtRest(log, faults, before, pods, nodeName) ==> IsSettled(before, Assigned(log, nodeName)))
  {
    hide Sound, Live, MirrorPass, MirrorsIn, AssignedPods, PodsAreValid, CanMirror, WorkloadsKept, OthersKept,
      LeavesRoom,
      ManifestNames, StaticNames, CanShow, CanRun, CanRunBoth, IsAtRest, IsSettled, IsPartOfAnOrder, StoredPod;
    WalkedAreListed(order, MirrorsIn(ListPods(Live(log))));
    AfterTheMirrors(log, faults, pods, nodeName, order);
    RestingPods(log, faults, before, pods, nodeName);
    var desired := Assigned(log, nodeName);
    forall name | name in desired ensures desired[name].meta.name == name {
      FreshlyAssigned(Live(log), nodeName, name);
    }
    if CanReconcile(log, faults, nodeName, net, before, Loaded(pods), staticStarts, starts) {
      CanShowOfBoth(net, before, pods, staticStarts, starts, desired);
      if ok {
        StaticPodsLeaveRoom(net, before, middle, pods, staticStarts, starts, desired);
      }
    }
  }

  lemma CanShowOfBoth(net: Network, node: Machine, staticPods: seq<Pod>, staticStarts: seq<Start>,
                      starts: map<string, Start>, desired: map<string, Pod>)
    requires CanRunBoth(net, node, staticPods, staticStarts, starts, desired)
    ensures CanShow(net, node, staticPods, staticStarts)
  {
  }

  lemma MirrorsEndUpMatched(log: seq<Write<Object>>, faults: seq<Fault>, staticPods: seq<Pod>, nodeName: string,
                            order: seq<string>, sent: seq<Request>)
    requires Sound(log) && WellTyped(Live(log)) && IsOrder(order, MirrorsIn(ListPods(Live(log))))
    requires forall i :: 0 <= i < |order| ==> order[i] in MirrorsIn(ListPods(Live(log)))
    requires var out := MirrorPass(log, faults, staticPods, nodeName, MirrorsIn(ListPods(Live(log))), order);
      Sound(out.log) && WellTyped(Live(out.log)) && AreReports(AssignedPods(ListPods(Live(out.log)), nodeName), sent)
    ensures CanMirror(log, faults, staticPods, nodeName) ==>
      var out := MirrorPass(log, faults, staticPods, nodeName, MirrorsIn(ListPods(Live(log))), order);
      MirrorsMatch(Live(SendAll(out.log, out.faults, sent).log), staticPods, nodeName)
  {
    hide Sound, Live, MirrorPass, MirrorsIn, AssignedPods, SendAll, MirrorsMatch, MirrorsKept, IsOrder,
      ManifestsAreValid, AreReports,
      FreeOfOthers, DesiredNames;
    if CanMirror(log, faults, staticPods, nodeName) {
      MirrorsTrackTheManifests(log, staticPods, nodeName, order);
      var out := MirrorPass(log, faults, staticPods, nodeName, MirrorsIn(ListPods(Live(log))), order);
      ReportsLeaveMirrorsAlone(out.log, out.faults, nodeName, sent);
      KeptMirrorsMatch(Live(out.log), Live(SendAll(out.log, out.faults, sent).log), staticPods, nodeName);
    }
  }

  // A desired Pod whose container runs already, reported or not.
  lemma StillRuns(net: Network, before: Machine, node: Machine, desired: map<string, Pod>, done: set<string>,
                  sent: seq<Request>, name: string)
    requires RunSoFar(before, node, done) && ReportedSoFar(net, before, node, desired, done, sent)
    requires name in desired && name !in done && desired[name].meta.name == name && IsRunning(before, name)
    ensures RunSoFar(before, node, done + {name})
    ensures IsRunning(node, name)
    ensures if desired[name].status.phase.Running? then ReportedSoFar(net, before, node, desired, done + {name}, sent)
      else ReportedSoFar(net, before, node, desired, done + {name},
                         sent + [RunningRequest(desired[name], desired[name].status.podIP)])
  {
    NothingRun(node, {name});
    RunSoFarSame(before, node, done, name);
    hide RunSoFar, ReportedSoFar;
    OneMoreRuns(before, node, node, done, name);
    if desired[name].status.phase.Running? {
      OneMoreIsFine(net, before, node, desired, done, sent, name);
    } else {
      OneMoreNeedsIt(net, before, node, node, desired, done, sent, name, desired[name].status.podIP);
    }
  }

  lemma RunSoFarSame(before: Machine, node: Machine, done: set<string>, name: string)
    requires RunSoFar(before, node, done) && name !in done && name in before.containers
    ensures name in node.containers && node.containers[name] == before.containers[name]
  {
  }

  lemma RunsAsBefore(before: Machine, node: Machine, done: set<string>, name: string)
    requires OnlyRun(before, node, done) && name !in done
    ensures IsRunning(node, name) <==> IsRunning(before, name)
  {
  }

  lemma IDsAreNotEmpty(net: Network, node: Machine, id: string)
    requires Inv(net, node)
    ensures id in node.sandboxes ==> id != ""
  {
    if id in node.sandboxes {
      assert BoxOk(id, node.sandboxes[id]);
    }
  }

  lemma NothingSent(log: seq<Write<Object>>, faults: seq<Fault>)
    ensures SendAll(log, faults, []) == Outcome(log, faults, true)
  {
  }

  lemma OneMoreSent(log0: seq<Write<Object>>, faults0: seq<Fault>, sent: seq<Request>, log: seq<Write<Object>>,
                    faults: seq<Fault>, request: Request)
    requires SendAll(log0, faults0, sent) == Outcome(log, faults, true)
    ensures SendAll(log0, faults0, sent + [request]) ==
      Outcome(AfterExchange(log, request, HeadFault(faults)), TailFaults(faults),
        ReplyTo(log, request, HeadFault(faults)).Ok?)
  {
    hide AfterExchange, ReplyTo;
    SendAllInTwoParts(log0, faults0, sent, [request]);
    OneRequest(log, faults, [request]);
  }

  lemma SoFarIsOnlyRun(net: Network, before: Machine, node: Machine, desired: map<string, Pod>, done: set<string>,
                       sent: seq<Request>)
    requires RunSoFar(before, node, done) && ReportedSoFar(net, before, node, desired, done, sent)
    ensures OnlyRun(before, node, done) && AreReports(desired, sent)
    ensures ReportsAreTrue(net, before, node, desired, sent)
    ensures done <= desired.Keys ==> OnlyRun(before, node, desired.Keys)
  {
    hide ReportIsTrue, SentIP, NeedsReport;
    if done <= desired.Keys {
      OnlyRunIsMore(before, node, done, desired.Keys);
    }
  }

  lemma OnlyRunIsMore(before: Machine, node: Machine, some: set<string>, names: set<string>)
    requires OnlyRun(before, node, some) && some <= names
    ensures OnlyRun(before, node, names)
  {
    FewerOthers(before, node, some, names);
  }

  lemma TrueReportsAreReports(net: Network, before: Machine, node: Machine, desired: map<string, Pod>,
                              sent: seq<Request>)
    requires ReportsAreTrue(net, before, node, desired, sent)
    ensures AreReports(desired, sent)
  {
  }

  lemma TakenReportsSucceed(log: seq<Write<Object>>, faults: seq<Fault>, net: Network, before: Machine, node: Machine,
                            desired: map<string, Pod>, sent: seq<Request>)
    requires ReportsAreTrue(net, before, node, desired, sent)
    ensures ReportsAreTaken(log, faults, desired) ==> SendAll(log, faults, sent).ok
  {
    hide ReportsAreTaken, SendAll, AreReports;
    if ReportsAreTaken(log, faults, desired) {
      ReportsOfStoredPodsSucceed(log, faults, desired, sent);
    }
  }

  lemma GoalReached(net: Network, before: Machine, middle: Machine, after: Machine, desired: map<string, Pod>,
                    gone: set<string>, sent: seq<Request>)
    requires Inv(net, before) && Tidy(before) && Tidy(middle) && RunSoFar(before, middle, desired.Keys)
    requires Cleared(middle, after, gone)
    requires ReportedSoFar(net, before, middle, desired, desired.Keys, sent)
    requires (forall name :: name in gone <==> ToBeCleared(before, desired, name)) && gone !! desired.Keys
    ensures IsExact(before, after, desired) && RunningKept(before, after, desired)
    ensures NamesApart(before, desired) ==> forall name :: name in desired ==> Runs(after, name, C.Workload)
    ensures ReportedNames(sent) == set name | name in desired && NeedsReport(before, desired, name)
    ensures ReportsAreTrue(net, before, after, desired, sent)
  {
    NamesReported(net, before, middle, desired, sent);
    ClearedRanOn(before, middle, desired, gone);
    ReportsStayTrue(net, before, middle, after, desired, gone, sent);
    RunningStaysKept(before, middle, after, desired, gone);
    hide ReportsAreTrue, RunningKept;
    hide Inv, Tidy, RunSoFar, Cleared, ReportedSoFar, ToBeCleared, NamesApart, Runs, NeedsReport, ReportedNames,
      IsExact;
    RunningAndClearedIsExact(before, middle, after, desired, gone);
    if NamesApart(before, desired) {
      forall name | name in desired ensures Runs(after, name, C.Workload) {
        DesiredRunAsWorkloads(net, before, middle, after, desired, gone, sent, name);
      }
    }
  }

  lemma ReportsStayTrue(net: Network, before: Machine, middle: Machine, after: Machine, desired: map<string, Pod>,
                        gone: set<string>, sent: seq<Request>)
    requires ReportedSoFar(net, before, middle, desired, desired.Keys, sent) && Tidy(middle)
    requires Cleared(middle, after, gone) && gone !! desired.Keys
    requires forall other :: other in gone ==> IsRunning(middle, other)
    ensures ReportsAreTrue(net, before, after, desired, sent)
  {
    hide Tidy, Cleared, AreReports, ReportedNames, SentIP, RunsAt, NeedsReport, IsFirstAddress;
    forall name | name in desired && NeedsReport(before, desired, name) && !IsRunning(before, name)
      ensures RunsAt(after, name, SentIP(sent, name))
    {
      assert ReportIsTrue(net, before, middle, name, desired[name], SentIP(sent, name));
      ClearedOthersRunAt(middle, after, gone, name, SentIP(sent, name));
    }
  }

  lemma RunningStaysKept(before: Machine, middle: Machine, after: Machine, desired: map<string, Pod>, gone: set<string>)
    requires RunSoFar(before, middle, desired.Keys) && Tidy(middle) && Cleared(middle, after, gone)
    requires gone !! desired.Keys && forall other :: other in gone ==> IsRunning(middle, other)
    ensures RunningKept(before, after, desired)
  {
    hide Tidy, Cleared, SameAttachmentsBut;
    forall name, ip | name in desired && RunsAt(before, name, ip) ensures RunsAt(after, name, ip) {
      ClearedOthersRunAt(middle, after, gone, name, ip);
    }
  }

  lemma ClearedRanOn(before: Machine, middle: Machine, desired: map<string, Pod>, gone: set<string>)
    requires OnlyRun(before, middle, desired.Keys) && forall name :: name in gone ==> ToBeCleared(before, desired, name)
    ensures forall name :: name in gone ==> IsRunning(middle, name)
  {
  }

  lemma NamesReported(net: Network, before: Machine, node: Machine, desired: map<string, Pod>, sent: seq<Request>)
    requires ReportedSoFar(net, before, node, desired, desired.Keys, sent)
    ensures ReportedNames(sent) == set name | name in desired && NeedsReport(before, desired, name)
  {
  }

  lemma UndesiredAsListed(before: Machine, middle: Machine, desired: map<string, Pod>,
                          containers: map<string, C.Container>)
    requires OnlyRun(before, middle, desired.Keys)
    requires containers == map name | name in before.containers :: before.containers[name].container
    ensures forall name :: name in containers && name !in desired ==>
      name in middle.containers && middle.containers[name].container == containers[name]
  {
  }

  lemma ClearedAsDue(before: Machine, desired: map<string, Pod>, containers: map<string, C.Container>,
                     staticIDs: set<string>, gone: set<string>)
    requires containers == map name | name in before.containers :: before.containers[name].container
    requires forall id :: id in staticIDs <==> IsStatic(before, id)
    requires forall name :: name in gone <==>
      name in containers && name !in desired && containers[name].state == C.Running &&
        containers[name].sandboxID !in staticIDs
    ensures forall name :: name in gone <==> ToBeCleared(before, desired, name)
    ensures gone !! desired.Keys
  {
  }

  lemma SettledNeedsNothing(before: Machine, desired: map<string, Pod>)
    ensures IsSettled(before, desired) ==> NobodyNeedsReport(before, desired)
  {
  }

  lemma SettledClearsNothing(before: Machine, desired: map<string, Pod>, gone: set<string>)
    requires forall name :: name in gone <==> ToBeCleared(before, desired, name)
    ensures IsSettled(before, desired) ==> gone == {}
  {
  }
}
