// Static Pods: the sandboxes and containers of the local manifests.
module StaticPods {
  import opened Text
  import opened Api
  import opened Cni
  import C = Cri
  import opened M = Runtime
  import opened RuntimeService
  import opened Starts

  // ---------- how a kubelet uses its runtime ----------

  // A Running container sits in a sandbox of its own Pod, as the kubelet starts them. A stopped
  // one may remember any sandbox.
  ghost predicate Tidy(node: Machine)
  {
    forall name :: name in node.containers ==> SitsInItsSandbox(node, name)
  }

  predicate SitsInItsSandbox(node: Machine, name: string)
    requires name in node.containers
  {
    node.containers[name].container.state == C.Running ==> IsInPlace(node.containers[name].container, node, name)
  }

  predicate IsInPlace(container: C.Container, node: Machine, name: string)
  {
    container.sandboxID in node.sandboxes ==> node.sandboxes[container.sandboxID].sandbox.podName == name
  }

  // No live process has the id.
  predicate IsNew(node: Machine, pid: nat) { pid !in LivePids(node) }

  // The processes that starting a sandbox and a container would give.
  datatype Start = Start(sandbox: Launch, container: Launch)

  predicate IsNewStart(node: Machine, start: Start)
  {
    IsNew(node, start.sandbox.pid) && IsNew(node, start.container.pid) && start.sandbox.pid != start.container.pid
  }

  predicate Apart(a: Start, b: Start)
  {
    a.sandbox.pid !in {b.sandbox.pid, b.container.pid} && a.container.pid !in {b.sandbox.pid, b.container.pid}
  }

  // ---------- what one start does ----------

  // The sandbox answers the request; it is there already or it is the only new one.
  ghost predicate BoxStarted(node: Machine, after: Machine, sandbox: C.Sandbox, pid: nat)
  {
    && sandbox.id in after.sandboxes && after.sandboxes[sandbox.id].sandbox == sandbox && sandbox.state == C.Running
    && after.containers == node.containers && after.waiting == node.waiting && after.nextDone == node.nextDone
    && (sandbox.id in node.sandboxes ==> after == node)
    && (sandbox.id !in node.sandboxes ==> sandbox.id == SandboxID(pid) && after.sandboxes[sandbox.id].pid == pid)
    && (sandbox.id !in node.sandboxes ==> after.sandboxes == node.sandboxes[sandbox.id := after.sandboxes[sandbox.id]])
  }

  ghost predicate SameAttachmentsBut(node: Machine, after: Machine, names: set<string>)
  {
    forall name :: name !in names ==>
      (name in after.attachments <==> name in node.attachments) &&
        (name in node.attachments ==> after.attachments[name] == node.attachments[name])
  }

  lemma BoxAppears(node: Machine, attachments: Attachments, box: Box, podName: string, source: C.Source,
                   hostNetwork: bool, pid: nat, ip: string)
    requires SandboxID(pid) !in node.sandboxes && box == NewBox(podName, source, hostNetwork, pid, ip)
    requires SameAttachmentsBut(node, node.(attachments := attachments), {podName})
    ensures var after := WithBox(node.(attachments := attachments), box);
      BoxStarted(node, after, box.sandbox, pid) && SameAttachmentsBut(node, after, {podName})
    ensures box.sandbox.podName == podName && box.sandbox.source == source
  {
  }

  lemma OneAttached(net: Network, node: Machine, podName: string, commands: Commands)
    requires net.Bridge?
    ensures SameAttachmentsBut(node,
      node.(attachments := Added(node.attachments, net.network, net.gateway, podName, commands).0), {podName})
  {
  }

  lemma NothingAttached(node: Machine, podName: string)
    ensures SameAttachmentsBut(node, node, {podName}) && node.(attachments := node.attachments) == node
  {
  }

  lemma BoxIsThere(net: Network, node: Machine, podName: string, source: C.Source, pid: nat)
    requires Inv(net, node) && HasBox(node.sandboxes, podName, source)
    ensures var sandbox := node.sandboxes[BoxOf(node.sandboxes, podName, source)].sandbox;
      BoxStarted(node, node, sandbox, pid) && sandbox.podName == podName && sandbox.source == source
  {
    var id := BoxOf(node.sandboxes, podName, source);
    assert BoxOk(id, node.sandboxes[id]);
  }

  lemma BoxStarts(net: Network, node: Machine, podName: string, source: C.Source, hostNetwork: bool, launch: Launch)
    requires Inv(net, node) && IsNew(node, launch.pid)
    ensures var (after, r) := RunPodSandbox(net, node, podName, source, hostNetwork, launch);
      && SameAttachmentsBut(node, after, {podName})
      && (r.Success? ==>
            BoxStarted(node, after, r.value, launch.pid) && r.value.podName == podName && r.value.source == source)
      && (r.Success? && HasBox(node.sandboxes, podName, source) ==> after == node)
      && (r.Failure? ==>
            after.sandboxes == node.sandboxes && after.containers == node.containers && after.waiting == node.waiting)
      && (HasBox(node.sandboxes, podName, source) ==> r.Success?)
  {
    NewIDsAreFresh(node, launch.pid);
    hide BoxStarted, Inv, Added, IPText, SandboxID, HasBox, NewBox, WithBox, SameAttachmentsBut, IsNew;
    NothingAttached(node, podName);
    if HasBox(node.sandboxes, podName, source) {
      BoxIsThere(net, node, podName, source, launch.pid);
    } else if net.NoNetwork? || hostNetwork {
      BoxAppears(node, node.attachments, NewBox(podName, source, hostNetwork, launch.pid, ""), podName, source,
        hostNetwork, launch.pid, "");
    } else {
      NetworkedBoxStarts(net, node, podName, source, launch);
    }
  }

  lemma NetworkedBoxStarts(net: Network, node: Machine, podName: string, source: C.Source, launch: Launch)
    requires SandboxID(launch.pid) !in node.sandboxes && net.Bridge? && !HasBox(node.sandboxes, podName, source)
    ensures var (after, r) := RunPodSandbox(net, node, podName, source, false, launch);
      && SameAttachmentsBut(node, after, {podName})
      && (r.Success? ==>
            BoxStarted(node, after, r.value, launch.pid) && r.value.podName == podName && r.value.source == source)
      && (r.Failure? ==>
            after.sandboxes == node.sandboxes && after.containers == node.containers && after.waiting == node.waiting)
  {
    hide BoxStarted, Added, IPText, SandboxID, HasBox, NewBox, WithBox, SameAttachmentsBut;
    NothingAttached(node, podName);
    var (attachments, ip) := Added(node.attachments, net.network, net.gateway, podName, launch.commands);
    OneAttached(net, node, podName, launch.commands);
    if ip.Success? {
      var text := IPText(ip.value);
      BoxAppears(node, attachments, NewBox(podName, source, false, launch.pid, text), podName, source, false,
        launch.pid, text);
    }
  }

  lemma ContainerStarts(net: Network, node: Machine, podName: string, id: string, launch: Launch)
    requires Inv(net, node)
    ensures var (after, r) := RunInSandbox(node, podName, id, launch);
      && after.sandboxes == node.sandboxes && after.attachments == node.attachments
      && (r.Failure? ==> after == node)
      && (r.Success? ==>
            && id in node.sandboxes && podName in after.containers && IsUp(after, podName)
            && after.containers[podName].container == C.Container(ContainerID(launch.pid), podName, id, C.Running)
            && after.containers == node.containers[podName := after.containers[podName]]
            && LivePids(after) <= LivePids(node) + {launch.pid})
  {
    hide SandboxesOk, ContainersOk, NetworkOk, SandboxID;
  }

  lemma StartedBoxIsTidy(net: Network, node: Machine, after: Machine, sandbox: C.Sandbox, pid: nat)
    requires Inv(net, node) && Tidy(node) && BoxStarted(node, after, sandbox, pid)
    ensures Tidy(after)
    ensures LivePids(after) <= LivePids(node) + {pid}
  {
    hide SandboxesOk, NetworkOk, SandboxID;
    forall name | name in after.containers ensures SitsInItsSandbox(after, name) {
      assert SitsInItsSandbox(node, name) && ContainerOk(node, name);
    }
  }

  lemma StartedContainerIsTidy(node: Machine, podName: string, id: string, launch: Launch)
    requires Tidy(node) && (id in node.sandboxes ==> node.sandboxes[id].sandbox.podName == podName)
    ensures Tidy(RunInSandbox(node, podName, id, launch).0)
  {
    var after := RunInSandbox(node, podName, id, launch).0;
    forall name | name in after.containers ensures SitsInItsSandbox(after, name) {
      assert name != podName ==> SitsInItsSandbox(node, name);
    }
  }

  lemma StartedBoxLeavesNew(node: Machine, after: Machine, sandbox: C.Sandbox, pid: nat, other: nat)
    requires IsNew(node, other) && IsNew(node, pid) && BoxStarted(node, after, sandbox, pid) && other != pid
    ensures IsNew(after, other)
  {
  }

  lemma StartedContainerLeavesNew(net: Network, node: Machine, podName: string, id: string, launch: Launch, other: nat)
    requires Inv(net, node) && IsNew(node, other) && other != launch.pid
    ensures IsNew(RunInSandbox(node, podName, id, launch).0, other)
  {
    hide Inv, LivePids;
    ContainerStarts(net, node, podName, id, launch);
  }

  // Every run in which containers are started in their own Pod's sandbox is tidy throughout.
  ghost predicate KubeletStep(node: Machine, step: Step)
  {
    step.DoRunInSandbox? && step.sandboxID in node.sandboxes ==>
      node.sandboxes[step.sandboxID].sandbox.podName == step.podName
  }

  lemma KubeletStepsStayTidy(net: Network, node: Machine, step: Step)
    requires Inv(net, node) && Tidy(node) && Enabled(node, step) && KubeletStep(node, step)
    ensures Tidy(Next(net, node, step))
  {
    hide Inv, RunPodSandbox, LivePids, StopPodSandbox;
    match step {
      case DoRunPodSandbox(podName, source, hostNetwork, launch) =>
        BoxStarts(net, node, podName, source, hostNetwork, launch);
        var (after, r) := RunPodSandbox(net, node, podName, source, hostNetwork, launch);
        if r.Success? {
          StartedBoxIsTidy(net, node, after, r.value, launch.pid);
        }
      case DoRunInSandbox(podName, id, launch) =>
        StartedContainerIsTidy(node, podName, id, launch);
      case DoStopPodSandbox(id, commands) => StoppedBoxIsTidy(net, node, id, commands);
      case _ =>
        forall name | name in Next(net, node, step).containers ensures SitsInItsSandbox(Next(net, node, step), name) {
          assert SitsInItsSandbox(node, name);
        }
    }
  }

  lemma StoppedBoxIsTidy(net: Network, node: Machine, id: string, commands: Commands)
    requires Tidy(node)
    ensures Tidy(StopPodSandbox(net, node, id, commands).0)
  {
    hide Deleted;
    var after := StopPodSandbox(net, node, id, commands).0;
    forall name | name in after.containers ensures SitsInItsSandbox(after, name) {
      assert SitsInItsSandbox(node, name);
    }
  }

  // ---------- stopping a sandbox ----------

  // Exactly that sandbox goes; of the containers, only its Pod's one is stopped.
  lemma BoxStops(net: Network, node: Machine, id: string, commands: Commands)
    requires Inv(net, node) && Tidy(node) && id in node.sandboxes
    ensures var (after, error) := StopPodSandbox(net, node, id, commands);
      var podName := node.sandboxes[id].sandbox.podName;
      && error.None? && after.sandboxes == node.sandboxes - {id}
      && after.containers.Keys == node.containers.Keys
      && (forall name :: name in node.containers && node.containers[name].container.sandboxID != id ==>
            after.containers[name] == node.containers[name])
      && (forall name :: name in node.containers && name != podName ==> after.containers[name] == node.containers[name])
      && (podName in node.containers && node.containers[podName].container.sandboxID == id ==>
            after.containers[podName].container == node.containers[podName].container.(state := C.Stopped))
      && SameAttachmentsBut(node, after, {podName})
  {
    hide SandboxesOk, NetworkOk;
    var podName := node.sandboxes[id].sandbox.podName;
    forall name | name in node.containers && node.containers[name].container.sandboxID == id && IsUp(node, name)
      ensures name == podName
    {
      assert SitsInItsSandbox(node, name) && ContainerOk(node, name);
    }
    if podName in node.containers {
      assert ContainerOk(node, podName);
    }
  }

  // ---------- the goal ----------

  predicate RunsIn(node: Machine, name: string, id: string, source: C.Source)
  {
    && id in node.sandboxes && IsBoxOf(node.sandboxes[id], name, source)
    && name in node.containers && node.containers[name].container.sandboxID == id
    && node.containers[name].container.state == C.Running
  }

  // The Pod has a Running container in a live sandbox of the given source.
  predicate Runs(node: Machine, name: string, source: C.Source)
  {
    exists id :: id in node.sandboxes && RunsIn(node, name, id, source)
  }

  function ManifestNames(pods: seq<Pod>): set<string> { set i | 0 <= i < |pods| :: pods[i].meta.name }

  ghost predicate StaticPodsMatch(node: Machine, pods: seq<Pod>)
  {
    && (forall name :: name in ManifestNames(pods) ==> Runs(node, name, C.StaticPod))
    && (forall id :: id in node.sandboxes && node.sandboxes[id].sandbox.source == C.StaticPod ==>
          node.sandboxes[id].sandbox.podName in ManifestNames(pods))
  }

  predicate IsWorkload(node: Machine, id: string)
  {
    id in node.sandboxes && node.sandboxes[id].sandbox.source == C.Workload
  }

  // Sandboxes of workload Pods are what they were.
  ghost predicate WorkloadsKept(before: Machine, after: Machine)
  {
    forall id ::
      (IsWorkload(before, id) <==> IsWorkload(after, id)) &&
        (IsWorkload(before, id) ==> after.sandboxes[id] == before.sandboxes[id])
  }

  // Names of Pods that have a static sandbox.
  function StaticNames(node: Machine): set<string>
  {
    set id | id in node.sandboxes && node.sandboxes[id].sandbox.source == C.StaticPod ::
      node.sandboxes[id].sandbox.podName
  }

  // Containers and addresses of Pods with other names are what they were.
  ghost predicate OthersKept(before: Machine, after: Machine, names: set<string>)
  {
    && (forall name :: name !in names ==> (name in after.containers <==> name in before.containers))
    && (forall name :: name !in names && name in before.containers ==>
          after.containers[name] == before.containers[name])
    && SameAttachmentsBut(before, after, names)
  }

  lemma OthersKeptTransitively(a: Machine, b: Machine, c: Machine, names: set<string>)
    requires OthersKept(a, b, names) && OthersKept(b, c, names)
    ensures OthersKept(a, c, names)
  {
  }

  lemma FewerOthers(a: Machine, b: Machine, some: set<string>, names: set<string>)
    requires OthersKept(a, b, some) && some <= names
    ensures OthersKept(a, b, names)
  {
  }

  // ---------- the snapshots ----------

  // The list of sandboxes, as it grows, is the runtime's.
  predicate ListsSandboxes(listed: map<string, C.Sandbox>, node: Machine)
  {
    listed.Keys == node.sandboxes.Keys && forall id :: id in listed ==> listed[id] == node.sandboxes[id].sandbox
  }

  // The list of containers was right at the start; a manifest that has been looked at runs.
  ghost predicate ListsContainers(listed: map<string, C.Container>, node: Machine, looked: set<string>)
  {
    && (forall name :: name in looked ==> Runs(node, name, C.StaticPod))
    && (forall name :: name !in looked ==> (name in listed <==> name in node.containers))
    && (forall name :: name !in looked && name in listed ==> listed[name] == node.containers[name].container)
    && (forall name :: name in listed && listed[name].state == C.Running ==> ListedInItsSandbox(listed, node, name))
  }

  predicate ListedInItsSandbox(listed: map<string, C.Container>, node: Machine, name: string)
    requires name in listed
  {
    var id := listed[name].sandboxID;
    id in node.sandboxes && node.sandboxes[id].sandbox.podName == name
  }

  // Neither does a stopped container remember a sandbox of another Pod.
  ghost predicate AllInPlace(listed: map<string, C.Container>, node: Machine)
  {
    forall name :: name in listed ==> IsInPlace(listed[name], node, name)
  }

  method StaticSandboxForPod(sandboxes: map<string, C.Sandbox>, podName: string) returns (found: Option<C.Sandbox>)
    ensures found.Some? ==>
      found.value in sandboxes.Values && found.value.podName == podName && found.value.source == C.StaticPod
    ensures found.None? ==>
      forall id :: id in sandboxes ==> !(sandboxes[id].podName == podName && sandboxes[id].source == C.StaticPod)
  {
    var remaining := sandboxes.Keys;
    while remaining != {}
      invariant remaining <= sandboxes.Keys
      invariant forall id :: id in sandboxes && id !in remaining ==>
        !(sandboxes[id].podName == podName && sandboxes[id].source == C.StaticPod)
      decreases remaining
    {
      var id :| id in remaining;
      if sandboxes[id].podName == podName && sandboxes[id].source == C.StaticPod {
        return Some(sandboxes[id]);
      }
      remaining := remaining - {id};
    }
    return None;
  }

  method ContainerForSandbox(containers: map<string, C.Container>, sandboxID: string)
      returns (found: Option<C.Container>)
    ensures found.Some? ==> found.value in containers.Values && found.value.sandboxID == sandboxID
    ensures found.None? ==> forall name :: name in containers ==> containers[name].sandboxID != sandboxID
  {
    var remaining := containers.Keys;
    while remaining != {}
      invariant remaining <= containers.Keys
      invariant forall name :: name in containers && name !in remaining ==> containers[name].sandboxID != sandboxID
      decreases remaining
    {
      var name :| name in remaining;
      if containers[name].sandboxID == sandboxID {
        return Some(containers[name]);
      }
      remaining := remaining - {name};
    }
    return None;
  }

  // ---------- one manifest ----------

  lemma RunsOn(before: Machine, after: Machine, name: string, source: C.Source)
    requires Runs(before, name, source) && name in after.containers && after.containers[name] == before.containers[name]
    requires forall id :: id in before.sandboxes && before.sandboxes[id].sandbox.podName == name ==>
      id in after.sandboxes && after.sandboxes[id] == before.sandboxes[id]
    ensures Runs(after, name, source)
  {
    var id :| id in before.sandboxes && RunsIn(before, name, id, source);
    assert RunsIn(after, name, id, source);
  }

  // What is left over of the lists when a sandbox has been started for a Pod without one.
  lemma ListsAfterBox(listed: map<string, C.Sandbox>, containers: map<string, C.Container>, node: Machine,
                      after: Machine, looked: set<string>, sandbox: C.Sandbox, pid: nat)
    requires ListsSandboxes(listed, node) && ListsContainers(containers, node, looked)
    requires BoxStarted(node, after, sandbox, pid)
    ensures ListsSandboxes(listed[sandbox.id := sandbox], after) && ListsContainers(containers, after, looked)
  {
    forall name | name in looked ensures Runs(after, name, C.StaticPod) {
      RunsOn(node, after, name, C.StaticPod);
    }
    forall name | name in containers && containers[name].state == C.Running
      ensures ListedInItsSandbox(containers, after, name)
    {
      assert ListedInItsSandbox(containers, node, name);
    }
  }

  lemma ListsAfterContainer(listed: map<string, C.Sandbox>, containers: map<string, C.Container>, node: Machine,
                            after: Machine, looked: set<string>, name: string, id: string)
    requires ListsSandboxes(listed, node) && ListsContainers(containers, node, looked)
    requires after.sandboxes == node.sandboxes && name in after.containers
    requires after.containers == node.containers[name := after.containers[name]]
    requires RunsIn(after, name, id, C.StaticPod)
    ensures ListsSandboxes(listed, after) && ListsContainers(containers, after, looked + {name})
  {
    forall other | other in looked + {name} ensures Runs(after, other, C.StaticPod) {
      if other != name {
        RunsOn(node, after, other, C.StaticPod);
      }
    }
    forall other | other in containers && containers[other].state == C.Running
      ensures ListedInItsSandbox(containers, after, other)
    {
      assert ListedInItsSandbox(containers, node, other);
    }
  }

  // A container listed as Running in the Pod's static sandbox does run there.
  lemma ListedMeansRuns(containers: map<string, C.Container>, node: Machine, looked: set<string>, key: string,
                        name: string, id: string)
    requires ListsContainers(containers, node, looked) && key in containers
    requires containers[key].sandboxID == id && containers[key].state == C.Running
    requires id in node.sandboxes && IsBoxOf(node.sandboxes[id], name, C.StaticPod)
    ensures Runs(node, name, C.StaticPod) && ListsContainers(containers, node, looked + {name})
  {
    assert ListedInItsSandbox(containers, node, key);
    if key !in looked {
      assert RunsIn(node, name, id, C.StaticPod);
    }
  }

  lemma RunningIsListed(listed: map<string, C.Sandbox>, containers: map<string, C.Container>, net: Network,
                        node: Machine, looked: set<string>, name: string, sandbox: C.Sandbox)
    requires ListsSandboxes(listed, node) && ListsContainers(containers, node, looked) && Inv(net, node)
    requires Runs(node, name, C.StaticPod) && name !in looked
    requires sandbox in listed.Values && sandbox.podName == name && sandbox.source == C.StaticPod
    ensures name in containers && containers[name].sandboxID == sandbox.id && containers[name].state == C.Running
    ensures AllInPlace(containers, node) ==>
      forall key :: key in containers && containers[key].sandboxID == sandbox.id ==> key == name
  {
    var id :| id in node.sandboxes && RunsIn(node, name, id, C.StaticPod);
    var other :| other in listed && listed[other] == sandbox;
    assert BoxOk(other, node.sandboxes[other]) && SamePodAndSource(node.sandboxes[id], node.sandboxes[other]);
    forall key | AllInPlace(containers, node) && key in containers && containers[key].sandboxID == sandbox.id
      ensures key == name
    {
      assert IsInPlace(containers[key], node, key);
    }
  }

  // What the operating system has to do for the Pod to start; a free address aside.
  predicate StaticStartWorks(net: Network, node: Machine, pod: Pod, start: Start)
  {
    start.container.starts && BoxWorks(net, node, pod, C.StaticPod, start.sandbox)
  }

  predicate HasHost(net: Network, node: Machine, pod: Pod)
  {
    NeedsAddress(net, node, pod, C.StaticPod) ==> FreeHosts(net, node) != {}
  }

  // At most one address has been taken, and only if the Pod needed one.
  predicate TakesOne(net: Network, before: Machine, after: Machine, pod: Pod)
  {
    |FreeHosts(net, after)| + OneIf(NeedsAddress(net, before, pod, C.StaticPod)) >= |FreeHosts(net, before)|
  }

  lemma ListedIsABox(listed: map<string, C.Sandbox>, net: Network, node: Machine, sandbox: C.Sandbox)
    requires ListsSandboxes(listed, node) && Inv(net, node) && sandbox in listed.Values && sandbox.source == C.StaticPod
    ensures HasBox(node.sandboxes, sandbox.podName, C.StaticPod)
  {
    ListedBoxIsThere(listed, net, node, sandbox);
    assert IsBoxOf(node.sandboxes[sandbox.id], sandbox.podName, C.StaticPod);
  }

  // The Pod's static sandbox, started if it is not listed.
  method EnsureBox(runtime: Runtime, pod: Pod, start: Start, sandboxes: map<string, C.Sandbox>,
                   containers: map<string, C.Container>, ghost looked: set<string>)
    returns (r: Result<C.Sandbox, C.CriError>, listed: map<string, C.Sandbox>)
    requires runtime.Valid() && Tidy(runtime.Held()) && IsNewStart(runtime.Held(), start)
    requires ListsSandboxes(sandboxes, runtime.Held()) && ListsContainers(containers, runtime.Held(), looked)
    modifies runtime, runtime.network
    ensures runtime.Valid() && Tidy(runtime.Held())
    ensures OnlyShown(old(runtime.Held()), runtime.Held(), pod.meta.name)
    ensures forall pid :: IsNew(old(runtime.Held()), pid) && pid != start.sandbox.pid ==> IsNew(runtime.Held(), pid)
    ensures r.Success? ==> ListsSandboxes(listed, runtime.Held()) && ListsContainers(containers, runtime.Held(), looked)
    ensures r.Success? ==> r.value in listed.Values && r.value.podName == pod.meta.name && r.value.source == C.StaticPod
    ensures Runs(old(runtime.Held()), pod.meta.name, C.StaticPod) ==>
      r.Success? && runtime.Held() == old(runtime.Held())
    ensures r.Success? <==>
      BoxWorks(runtime.Net(), old(runtime.Held()), pod, C.StaticPod, start.sandbox) &&
      HasHost(runtime.Net(), old(runtime.Held()), pod)
    ensures TakesOne(runtime.Net(), old(runtime.Held()), runtime.Held(), pod)
  {
    hide Inv, LivePids, ListsSandboxes, ListsContainers, Tidy, IsNew, BoxStarted, Runs, RunPodSandbox,
      OnlyShown, HasBox, FreeHosts;
    ghost var before, net := runtime.Held(), runtime.Net();
    var name := pod.meta.name;
    listed := sandboxes;
    NothingShown(before, name);
    var found := StaticSandboxForPod(sandboxes, name);
    if found.Some? {
      ListedIsABox(listed, net, before, found.value);
      return Success(found.value), listed;
    }
    BoxStartsExactly(net, before, pod, C.StaticPod, start.sandbox);
    NoBoxListed(sandboxes, before, name);
    BoxStarts(net, before, name, C.StaticPod, pod.spec.hostNetwork, start.sandbox);
    StartIsNotLive(before, start.sandbox.pid);
    r := runtime.RunPodSandbox(name, C.StaticPod, pod.spec.hostNetwork, start.sandbox);
    BoxShown(net, before, runtime.Held(), pod, start.sandbox);
    if r.Success? {
      ListsAfterBox(sandboxes, containers, before, runtime.Held(), looked, r.value, start.sandbox.pid);
      StartedBoxIsTidy(net, before, runtime.Held(), r.value, start.sandbox.pid);
      forall pid | IsNew(before, pid) && pid != start.sandbox.pid ensures IsNew(runtime.Held(), pid) {
        StartedBoxLeavesNew(before, runtime.Held(), r.value, start.sandbox.pid, pid);
      }
      listed := listed[r.value.id := r.value];
      assert r.value.id in listed.Keys;
    }
  }

  // A Pod that has been looked at before, from another manifest with its name, may be started
  // a second time; its first container is then replaced in the same sandbox.
  method ShowStaticPod(runtime: Runtime, pod: Pod, start: Start, sandboxes: map<string, C.Sandbox>,
                       containers: map<string, C.Container>, ghost looked: set<string>)
    returns (ok: bool, listed: map<string, C.Sandbox>)
    requires runtime.Valid() && Tidy(runtime.Held()) && IsNewStart(runtime.Held(), start)
    requires ListsSandboxes(sandboxes, runtime.Held()) && ListsContainers(containers, runtime.Held(), looked)
    modifies runtime, runtime.network
    ensures runtime.Valid() && Tidy(runtime.Held())
    ensures ok ==>
      ListsSandboxes(listed, runtime.Held()) && ListsContainers(containers, runtime.Held(), looked + {pod.meta.name})
    ensures OnlyShown(old(runtime.Held()), runtime.Held(), pod.meta.name)
    ensures forall pid :: IsNew(old(runtime.Held()), pid) && pid !in {start.sandbox.pid, start.container.pid} ==>
      IsNew(runtime.Held(), pid)
    ensures Runs(old(runtime.Held()), pod.meta.name, C.StaticPod) && AllInPlace(containers, old(runtime.Held())) ==>
      pod.meta.name !in looked ==> ok && runtime.Held() == old(runtime.Held())
    ensures StaticStartWorks(runtime.Net(), old(runtime.Held()), pod, start) ==>
      HasHost(runtime.Net(), old(runtime.Held()), pod) ==> ok
    ensures TakesOne(runtime.Net(), old(runtime.Held()), runtime.Held(), pod)
    ensures ok ==> Runs(runtime.Held(), pod.meta.name, C.StaticPod)
  {
    hide Inv, LivePids, ListsSandboxes, ListsContainers, Tidy, IsNew, Runs, RunInSandbox, OnlyShown, AllInPlace,
      BoxWorks, HasHost, FreeHosts, NeedsAddress;
    ghost var before, net := runtime.Held(), runtime.Net();
    var name := pod.meta.name;
    var r;
    r, listed := EnsureBox(runtime, pod, start, sandboxes, containers, looked);
    if r.Failure? {
      return false, listed;
    }
    var sandbox := r.value;
    ghost var middle := runtime.Held();
    ListedBoxIsThere(listed, net, middle, sandbox);
    if Runs(middle, name, C.StaticPod) && name !in looked {
      RunningIsListed(listed, containers, net, middle, looked, name, sandbox);
    }
    var container := ContainerForSandbox(containers, sandbox.id);
    if container.Some? && container.value.state == C.Running {
      ghost var key :| key in containers && containers[key] == container.value;
      ListedMeansRuns(containers, middle, looked, key, name, sandbox.id);
      return true, listed;
    }
    ContainerStarts(net, middle, name, sandbox.id, start.container);
    StartedContainerIsTidy(middle, name, sandbox.id, start.container);
    StartIsNotLive(middle, start.container.pid);
    ContainerStartsExactly(middle, name, sandbox.id, start.container);
    var started := runtime.RunInSandbox(name, sandbox.id, start.container);
    SameHosts(net, middle, runtime.Held());
    forall pid | IsNew(middle, pid) && pid != start.container.pid ensures IsNew(runtime.Held(), pid) {
      StartedContainerLeavesNew(net, middle, name, sandbox.id, start.container, pid);
    }
    ContainerShown(middle, runtime.Held(), name);
    ShownOn(before, middle, runtime.Held(), name);
    if started.Failure? {
      return false, listed;
    }
    ListsAfterContainer(listed, containers, middle, runtime.Held(), looked, name, sandbox.id);
    ItRuns(runtime.Held(), name, sandbox.id);
    return true, listed;
  }

  lemma ItRuns(node: Machine, name: string, id: string)
    requires RunsIn(node, name, id, C.StaticPod)
    ensures Runs(node, name, C.StaticPod)
  {
  }

  // A step on behalf of one static Pod: at most its own static sandbox is added, and only its
  // own container and address change.
  ghost predicate OnlyShown(before: Machine, after: Machine, name: string)
  {
    && WorkloadsKept(before, after) && OthersKept(before, after, {name})
    && (forall id :: id in before.sandboxes ==> id in after.sandboxes && after.sandboxes[id] == before.sandboxes[id])
    && (forall id :: id in after.sandboxes && id !in before.sandboxes ==> after.sandboxes[id].sandbox.podName == name)
  }

  lemma NothingShown(node: Machine, name: string)
    ensures OnlyShown(node, node, name)
  {
  }

  lemma BoxShown(net: Network, node: Machine, after: Machine, pod: Pod, launch: Launch)
    requires Inv(net, node) && IsNew(node, launch.pid)
    requires after == RunPodSandbox(net, node, pod.meta.name, C.StaticPod, pod.spec.hostNetwork, launch).0
    ensures OnlyShown(node, after, pod.meta.name)
    ensures RunPodSandbox(net, node, pod.meta.name, C.StaticPod, pod.spec.hostNetwork, launch).1.Failure? ==>
      (Tidy(node) ==> Tidy(after)) && forall pid :: IsNew(node, pid) ==> IsNew(after, pid)
  {
    hide Inv, RunPodSandbox;
    BoxStarts(net, node, pod.meta.name, C.StaticPod, pod.spec.hostNetwork, launch);
  }

  lemma ContainerShown(node: Machine, after: Machine, name: string)
    requires after.sandboxes == node.sandboxes && after.attachments == node.attachments
    requires after == node ||
      (name in after.containers && after.containers == node.containers[name := after.containers[name]])
    ensures OnlyShown(node, after, name)
  {
  }

  lemma ShownOn(a: Machine, b: Machine, c: Machine, name: string)
    requires OnlyShown(a, b, name) && OnlyShown(b, c, name)
    ensures OnlyShown(a, c, name)
  {
    hide SameAttachmentsBut;
    assert SameAttachmentsBut(a, c, {name}) by { AttachmentsOn(a, b, c, {name}); }
  }

  lemma AttachmentsOn(a: Machine, b: Machine, c: Machine, names: set<string>)
    requires SameAttachmentsBut(a, b, names) && SameAttachmentsBut(b, c, names)
    ensures SameAttachmentsBut(a, c, names)
  {
  }

  lemma ListedBoxIsThere(listed: map<string, C.Sandbox>, net: Network, node: Machine, sandbox: C.Sandbox)
    requires ListsSandboxes(listed, node) && Inv(net, node) && sandbox in listed.Values
    ensures sandbox.id in node.sandboxes && node.sandboxes[sandbox.id].sandbox == sandbox && sandbox.state == C.Running
  {
    var id :| id in listed && listed[id] == sandbox;
    assert BoxOk(id, node.sandboxes[id]);
  }

  lemma NoBoxListed(listed: map<string, C.Sandbox>, node: Machine, name: string)
    requires ListsSandboxes(listed, node)
    requires forall id :: id in listed ==> !(listed[id].podName == name && listed[id].source == C.StaticPod)
    ensures !HasBox(node.sandboxes, name, C.StaticPod) && !Runs(node, name, C.StaticPod)
  {
  }

  lemma StartIsNotLive(node: Machine, pid: nat)
    requires IsNew(node, pid)
    ensures pid !in LivePids(node)
  {
  }

  // ---------- all manifests ----------

  ghost predicate AreNewStarts(node: Machine, starts: seq<Start>)
  {
    && (forall i :: 0 <= i < |starts| ==> IsNewStart(node, starts[i]))
    && (forall i, j :: 0 <= i < j < |starts| ==> Apart(starts[i], starts[j]))
  }

  function PidsOf(starts: seq<Start>): set<nat>
  {
    (set i | 0 <= i < |starts| :: starts[i].sandbox.pid) + (set i | 0 <= i < |starts| :: starts[i].container.pid)
  }

  // Process ids that are neither live nor about to be used stay new.
  ghost predicate LeavesNew(before: Machine, after: Machine, pids: set<nat>)
  {
    forall pid :: IsNew(before, pid) && pid !in pids ==> IsNew(after, pid)
  }

  lemma OneMoreLeavesNew(a: Machine, b: Machine, c: Machine, starts: seq<Start>, i: nat)
    requires i < |starts| && LeavesNew(a, b, PidsOf(starts))
    requires forall pid :: IsNew(b, pid) && pid !in {starts[i].sandbox.pid, starts[i].container.pid} ==> IsNew(c, pid)
    ensures LeavesNew(a, c, PidsOf(starts))
  {
    hide IsNew;
    assert starts[i].sandbox.pid in PidsOf(starts) && starts[i].container.pid in PidsOf(starts);
  }

  // Steps on behalf of static Pods of the given names.
  ghost predicate AllShown(before: Machine, after: Machine, names: set<string>)
  {
    && WorkloadsKept(before, after) && OthersKept(before, after, names)
    && StaticNames(after) <= StaticNames(before) + names
  }

  lemma OneMoreShown(a: Machine, b: Machine, c: Machine, names: set<string>, name: string)
    requires AllShown(a, b, names) && OnlyShown(b, c, name)
    ensures AllShown(a, c, names + {name})
  {
    hide OthersKept, WorkloadsKept, IsWorkload, StaticNames;
    FewerOthers(a, b, names, names + {name});
    FewerOthers(b, c, {name}, names + {name});
    OthersKeptTransitively(a, b, c, names + {name});
    WorkloadsKeptTransitively(a, b, c);
    OneMoreStaticName(b, c, name);
  }

  lemma WorkloadsKeptTransitively(a: Machine, b: Machine, c: Machine)
    requires WorkloadsKept(a, b) && WorkloadsKept(b, c)
    ensures WorkloadsKept(a, c)
  {
  }

  lemma OneMoreStaticName(before: Machine, after: Machine, name: string)
    requires OnlyShown(before, after, name)
    ensures StaticNames(after) <= StaticNames(before) + {name}
  {
    hide OthersKept, WorkloadsKept;
  }

  lemma ListsAtTheStart(net: Network, node: Machine, sandboxes: map<string, C.Sandbox>,
                        containers: map<string, C.Container>)
    requires Inv(net, node) && Tidy(node)
    requires sandboxes == map id | id in node.sandboxes :: node.sandboxes[id].sandbox
    requires containers == map name | name in node.containers :: node.containers[name].container
    ensures ListsSandboxes(sandboxes, node) && ListsContainers(containers, node, {})
    ensures AllShown(node, node, {})
    ensures NoneStale(node) ==> AllInPlace(containers, node)
  {
    hide SandboxesOk, NetworkOk;
    forall name | name in containers && containers[name].state == C.Running
      ensures ListedInItsSandbox(containers, node, name)
    {
      assert SitsInItsSandbox(node, name) && ContainerOk(node, name);
    }
  }

  // No container, not even a stopped one, remembers the sandbox of another Pod.
  ghost predicate NoneStale(node: Machine)
  {
    forall name :: name in node.containers ==> IsInPlace(node.containers[name].container, node, name)
  }

  lemma StillNewStarts(before: Machine, after: Machine, starts: seq<Start>)
    requires starts != [] && AreNewStarts(before, starts)
    requires forall pid :: IsNew(before, pid) && pid !in {starts[0].sandbox.pid, starts[0].container.pid} ==>
      IsNew(after, pid)
    ensures AreNewStarts(after, starts[1..])
  {
    hide IsNew;
    var rest := starts[1..];
    forall i | 0 <= i < |rest| ensures IsNewStart(after, rest[i]) {
      assert Apart(starts[0], starts[i + 1]) && IsNewStart(before, starts[i + 1]);
    }
    forall i, j | 0 <= i < j < |rest| ensures Apart(rest[i], rest[j]) {
      assert Apart(starts[i + 1], starts[j + 1]);
    }
  }

  // The Pods that need an address of their own before they can be started.
  function StaticAddressless(net: Network, node: Machine, pods: seq<Pod>): set<string>
  {
    set i | 0 <= i < |pods| && NeedsAddress(net, node, pods[i], C.StaticPod) :: pods[i].meta.name
  }

  // Every start works, and there are addresses for all Pods.
  predicate CanShow(net: Network, node: Machine, pods: seq<Pod>, starts: seq<Start>)
  {
    && |starts| == |pods|
    && (forall i :: 0 <= i < |pods| ==> StaticStartWorks(net, node, pods[i], starts[i]))
    && |StaticAddressless(net, node, pods)| <= |FreeHosts(net, node)|
  }

  lemma FirstCanBeShown(net: Network, node: Machine, pods: seq<Pod>, starts: seq<Start>)
    requires CanShow(net, node, pods, starts) && pods != []
    ensures StaticStartWorks(net, node, pods[0], starts[0]) && HasHost(net, node, pods[0])
  {
    hide StaticStartWorks, FreeHosts, NeedsAddress;
    if NeedsAddress(net, node, pods[0], C.StaticPod) {
      assert pods[0].meta.name in StaticAddressless(net, node, pods);
    }
  }

  lemma SameStaticNeeds(net: Network, before: Machine, after: Machine, pod: Pod, name: string)
    requires OnlyShown(before, after, name) && pod.meta.name != name
    ensures NeedsAddress(net, after, pod, C.StaticPod) <==> NeedsAddress(net, before, pod, C.StaticPod)
    ensures HasBox(after.sandboxes, pod.meta.name, C.StaticPod) <==>
      HasBox(before.sandboxes, pod.meta.name, C.StaticPod)
  {
    assert pod.meta.name !in {name};
    if HasBox(before.sandboxes, pod.meta.name, C.StaticPod) {
      var id := BoxOf(before.sandboxes, pod.meta.name, C.StaticPod);
      assert IsBoxOf(after.sandboxes[id], pod.meta.name, C.StaticPod);
    }
    if HasBox(after.sandboxes, pod.meta.name, C.StaticPod) {
      var id := BoxOf(after.sandboxes, pod.meta.name, C.StaticPod);
      assert IsBoxOf(before.sandboxes[id], pod.meta.name, C.StaticPod);
    }
  }

  lemma RunningHasBox(node: Machine, name: string)
    requires Runs(node, name, C.StaticPod)
    ensures HasBox(node.sandboxes, name, C.StaticPod)
  {
  }

  // The addresses that are left after one Pod has been shown.
  lemma FewerStaticNeeds(net: Network, before: Machine, after: Machine, pods: seq<Pod>)
    requires pods != [] && OnlyShown(before, after, pods[0].meta.name) && Runs(after, pods[0].meta.name, C.StaticPod)
    ensures |StaticAddressless(net, after, pods[1..])| + OneIf(NeedsAddress(net, before, pods[0], C.StaticPod)) <=
            |StaticAddressless(net, before, pods)|
  {
    hide OnlyShown, Runs, HasBox;
    var name := pods[0].meta.name;
    var all, rest := StaticAddressless(net, before, pods), StaticAddressless(net, after, pods[1..]);
    RunningHasBox(after, name);
    forall other | other in rest ensures other in all && other != name {
      var i :| 0 <= i < |pods[1..]| && NeedsAddress(net, after, pods[1..][i], C.StaticPod) &&
        pods[1..][i].meta.name == other;
      assert pods[i + 1] == pods[1..][i];
      SameStaticNeeds(net, before, after, pods[i + 1], name);
    }
    if NeedsAddress(net, before, pods[0], C.StaticPod) {
      assert name in all;
      SmallerSet(rest, all - {name});
    } else {
      SmallerSet(rest, all);
    }
  }

  lemma SmallerSet<T>(some: set<T>, all: set<T>)
    requires some <= all
    ensures |some| <= |all|
  {
    if x :| x in some {
      SmallerSet(some - {x}, all - {x});
    }
  }

  lemma RestCanBeShown(net: Network, before: Machine, after: Machine, pods: seq<Pod>, starts: seq<Start>)
    requires CanShow(net, before, pods, starts) && pods != [] && OnlyShown(before, after, pods[0].meta.name)
    requires Runs(after, pods[0].meta.name, C.StaticPod) && TakesOne(net, before, after, pods[0])
    ensures CanShow(net, after, pods[1..], starts[1..])
  {
    hide OnlyShown, Runs, HasBox, FreeHosts, StaticAddressless;
    FewerStaticNeeds(net, before, after, pods);
    RunningHasBox(after, pods[0].meta.name);
    forall i | 0 <= i < |pods[1..]| ensures StaticStartWorks(net, after, pods[1..][i], starts[1..][i]) {
      assert StaticStartWorks(net, before, pods[i + 1], starts[i + 1]);
      if pods[i + 1].meta.name != pods[0].meta.name {
        SameStaticNeeds(net, before, after, pods[i + 1], pods[0].meta.name);
      }
    }
  }

  // Showing Pods takes no more addresses than there are Pods that need one.
  ghost predicate LeavesRoom(net: Network, before: Machine, node: Machine, pods: seq<Pod>, rest: seq<Pod>)
  {
    |FreeHosts(net, node)| + |StaticAddressless(net, before, pods)| >=
    |FreeHosts(net, before)| + |StaticAddressless(net, node, rest)|
  }

  lemma StillLeavesRoom(net: Network, before: Machine, middle: Machine, node: Machine, pods: seq<Pod>, rest: seq<Pod>)
    requires rest != [] && LeavesRoom(net, before, middle, pods, rest) && TakesOne(net, middle, node, rest[0])
    requires OnlyShown(middle, node, rest[0].meta.name) && Runs(node, rest[0].meta.name, C.StaticPod)
    ensures LeavesRoom(net, before, node, pods, rest[1..])
  {
    hide OnlyShown, Runs, FreeHosts, StaticAddressless, NeedsAddress;
    FewerStaticNeeds(net, middle, node, rest);
  }

  method ShowStaticPods(runtime: Runtime, pods: seq<Pod>, starts: seq<Start>, sandboxes: map<string, C.Sandbox>,
                        containers: map<string, C.Container>)
    returns (ok: bool, listed: map<string, C.Sandbox>, desired: set<string>)
    requires runtime.Valid() && Tidy(runtime.Held()) && |starts| == |pods| && AreNewStarts(runtime.Held(), starts)
    requires ListsSandboxes(sandboxes, runtime.Held()) && ListsContainers(containers, runtime.Held(), {})
    requires AllShown(runtime.Held(), runtime.Held(), {})
    modifies runtime, runtime.network
    ensures runtime.Valid() && Tidy(runtime.Held())
    ensures AllShown(old(runtime.Held()), runtime.Held(), ManifestNames(pods))
    ensures LeavesNew(old(runtime.Held()), runtime.Held(), PidsOf(starts))
    ensures ok ==> ListsSandboxes(listed, runtime.Held()) && desired == ManifestNames(pods)
    ensures ok ==> forall name :: name in desired ==> Runs(runtime.Held(), name, C.StaticPod)
    ensures AllRun(old(runtime.Held()), pods) && DistinctPods(pods) && AllInPlace(containers, old(runtime.Held())) ==>
      ok && runtime.Held() == old(runtime.Held())
    ensures CanShow(runtime.Net(), old(runtime.Held()), pods, starts) ==> ok
    ensures ok ==> LeavesRoom(runtime.Net(), old(runtime.Held()), runtime.Held(), pods, [])
  {
    hide Inv, ListsSandboxes, ListsContainers, Tidy, IsNew, Runs, OnlyShown, AllShown,
      AreNewStarts, IsNewStart, CanShow, LeavesRoom, StaticStartWorks, HasHost, TakesOne, PidsOf, LeavesNew, AllInPlace,
      AllRun;
    listed, desired := sandboxes, {};
    ghost var before, net := runtime.Held(), runtime.Net();
    assert pods[0..] == pods && starts[0..] == starts;
    RoomAtTheStart(net, before, pods);
    NewAtTheStart(before, PidsOf(starts));
    for i := 0 to |pods|
      invariant runtime.Valid() && Tidy(runtime.Held())
      invariant desired == set j | 0 <= j < i :: pods[j].meta.name
      invariant CanShow(net, before, pods, starts) ==> CanShow(net, runtime.Held(), pods[i..], starts[i..])
      invariant LeavesRoom(net, before, runtime.Held(), pods, pods[i..])
      invariant AreNewStarts(runtime.Held(), starts[i..]) && LeavesNew(before, runtime.Held(), PidsOf(starts))
      invariant ListsSandboxes(listed, runtime.Held()) && ListsContainers(containers, runtime.Held(), desired)
      invariant AllShown(before, runtime.Held(), desired)
      invariant AllRun(before, pods) && DistinctPods(pods) && AllInPlace(containers, before) ==>
        runtime.Held() == before
    {
      var pod := pods[i];
      ghost var middle := runtime.Held();
      assert starts[i..][0] == starts[i] && starts[i..][1..] == starts[i + 1..];
      assert pods[i..][0] == pod && pods[i..][1..] == pods[i + 1..];
      if CanShow(net, before, pods, starts) {
        FirstCanBeShown(net, middle, pods[i..], starts[i..]);
      }
      AllRunsHere(before, pods, i);
      FirstStart(middle, starts[i..]);
      assert pod.meta.name in ManifestNames(pods);
      ok, listed := ShowStaticPod(runtime, pod, starts[i], listed, containers, desired);
      OneMoreShown(before, middle, runtime.Held(), desired, pod.meta.name);
      OneMoreLeavesNew(before, middle, runtime.Held(), starts, i);
      ghost var shown := desired;
      desired := desired + {pod.meta.name};
      if !ok {
        SomeShown(before, runtime.Held(), desired, ManifestNames(pods));
        return;
      }
      StillNewStarts(middle, runtime.Held(), starts[i..]);
      if CanShow(net, before, pods, starts) {
        RestCanBeShown(net, middle, runtime.Held(), pods[i..], starts[i..]);
      }
      StillLeavesRoom(net, before, middle, runtime.Held(), pods, pods[i..]);
    }
    assert pods[|pods|..] == [];
    ok := true;
    LookedAtRun(containers, runtime.Held(), desired);
  }

  lemma RoomAtTheStart(net: Network, node: Machine, pods: seq<Pod>)
    ensures LeavesRoom(net, node, node, pods, pods)
  {
  }

  lemma NewAtTheStart(node: Machine, pids: set<nat>)
    ensures LeavesNew(node, node, pids)
  {
  }

  lemma AllRunsHere(node: Machine, pods: seq<Pod>, i: nat)
    requires i < |pods|
    ensures pods[i].meta.name in ManifestNames(pods)
    ensures AllRun(node, pods) ==> Runs(node, pods[i].meta.name, C.StaticPod)
  {
  }

  predicate DistinctPods(pods: seq<Pod>)
  {
    forall i, j :: 0 <= i < j < |pods| ==> pods[i].meta.name != pods[j].meta.name
  }

  ghost predicate AllRun(node: Machine, pods: seq<Pod>)
  {
    forall name :: name in ManifestNames(pods) ==> Runs(node, name, C.StaticPod)
  }

  lemma FirstStart(node: Machine, starts: seq<Start>)
    requires starts != [] && AreNewStarts(node, starts)
    ensures IsNewStart(node, starts[0])
  {
  }

  lemma SomeShown(before: Machine, after: Machine, some: set<string>, names: set<string>)
    requires AllShown(before, after, some) && some <= names
    ensures AllShown(before, after, names)
  {
    FewerOthers(before, after, some, names);
  }

  lemma LookedAtRun(containers: map<string, C.Container>, node: Machine, looked: set<string>)
    requires ListsContainers(containers, node, looked)
    ensures forall name :: name in looked ==> Runs(node, name, C.StaticPod)
  {
  }

  // ---------- removed manifests ----------

  // Static sandboxes of the given Pods have gone, everything else is there.
  ghost predicate OnlyHidden(before: Machine, after: Machine, gone: set<string>, desired: set<string>)
  {
    && (forall id :: id in after.sandboxes <==> id in before.sandboxes && id !in gone)
    && (forall id :: id in after.sandboxes ==> after.sandboxes[id] == before.sandboxes[id])
    && (forall id :: id in gone ==> IsRemoved(before, id, desired))
    && OthersKept(before, after, StaticNames(before) - desired)
  }

  predicate IsRemoved(node: Machine, id: string, desired: set<string>)
  {
    id in node.sandboxes && node.sandboxes[id].sandbox.source == C.StaticPod &&
      node.sandboxes[id].sandbox.podName !in desired
  }

  lemma NothingHidden(node: Machine, desired: set<string>)
    ensures OnlyHidden(node, node, {}, desired)
  {
  }

  lemma OneMoreHidden(net: Network, before: Machine, middle: Machine, id: string, stops: Commands, gone: set<string>,
                      desired: set<string>)
    requires Inv(net, middle) && Tidy(middle) && OnlyHidden(before, middle, gone, desired)
    requires id in middle.sandboxes && IsRemoved(before, id, desired)
    ensures OnlyHidden(before, StopPodSandbox(net, middle, id, stops).0, gone + {id}, desired)
  {
    hide Inv, StopPodSandbox, SameAttachmentsBut, Tidy;
    var after, names := StopPodSandbox(net, middle, id, stops).0, StaticNames(before) - desired;
    BoxStops(net, middle, id, stops);
    assert middle.sandboxes[id] == before.sandboxes[id];
    assert before.sandboxes[id].sandbox.podName in names;
    var podName := middle.sandboxes[id].sandbox.podName;
    assert OthersKept(middle, after, {podName});
    FewerOthers(middle, after, {podName}, names);
    OthersKeptTransitively(before, middle, after, names);
  }

  method HideStaticPods(runtime: Runtime, sandboxes: map<string, C.Sandbox>, desired: set<string>, stops: Commands)
    returns (ok: bool, ghost gone: set<string>)
    requires runtime.Valid() && Tidy(runtime.Held()) && ListsSandboxes(sandboxes, runtime.Held())
    modifies runtime, runtime.network
    ensures runtime.Valid() && Tidy(runtime.Held()) && ok
    ensures OnlyHidden(old(runtime.Held()), runtime.Held(), gone, desired)
    ensures forall id :: id in old(runtime.Held()).sandboxes ==>
      (id in gone <==> IsRemoved(old(runtime.Held()), id, desired))
    ensures gone == {} ==> runtime.Held() == old(runtime.Held())
    ensures LeavesNew(old(runtime.Held()), runtime.Held(), {})
    ensures FreeHosts(runtime.Net(), old(runtime.Held())) <= FreeHosts(runtime.Net(), runtime.Held())
  {
    hide Inv, Tidy, OnlyHidden, FreeHosts;
    ghost var before, net := runtime.Held(), runtime.Net();
    gone := {};
    var remaining := sandboxes.Keys;
    NothingHidden(before, desired);
    while remaining != {}
      invariant runtime.Valid() && Tidy(runtime.Held()) && remaining <= sandboxes.Keys
      invariant OnlyHidden(before, runtime.Held(), gone, desired) && gone !! remaining
      invariant forall id :: id in sandboxes && id !in remaining ==> (id in gone <==> IsRemoved(before, id, desired))
      invariant gone == {} ==> runtime.Held() == before
      invariant LeavesNew(before, runtime.Held(), {})
      invariant FreeHosts(net, before) <= FreeHosts(net, runtime.Held())
      decreases remaining
    {
      var id :| id in remaining;
      remaining := remaining - {id};
      var sandbox := sandboxes[id];
      ListedIDsAreKeys(sandboxes, net, before, id);
      if sandbox.source != C.StaticPod || sandbox.state != C.Running || sandbox.podName in desired {
        continue;
      }
      ghost var middle := runtime.Held();
      StillThere(before, middle, gone, desired, id);
      OneMoreHidden(net, before, middle, id, stops, gone, desired);
      StoppedBoxIsTidy(net, middle, id, stops);
      StoppedBoxLeavesNew(net, middle, id, stops);
      StoppedBoxFreesHosts(net, middle, id, stops);
      BoxStops(net, middle, id, stops);
      var error := runtime.StopPodSandbox(sandbox.id, stops);
      gone := gone + {id};
      if error.Some? {
        return false, gone;
      }
    }
    return true, gone;
  }

  lemma StoppedBoxFreesHosts(net: Network, node: Machine, id: string, commands: Commands)
    ensures FreeHosts(net, node) <= FreeHosts(net, StopPodSandbox(net, node, id, commands).0)
  {
    hide StoppedAll, NamesIn;
    StoppingKeepsTheRest(node, NamesIn(node, id));
    var after := StopPodSandbox(net, node, id, commands).0;
    assert after.attachments.Keys <= node.attachments.Keys;
    assert forall name :: name in after.attachments ==> after.attachments[name] == node.attachments[name];
  }

  lemma StoppedBoxLeavesNew(net: Network, node: Machine, id: string, commands: Commands)
    ensures LeavesNew(node, StopPodSandbox(net, node, id, commands).0, {})
  {
    hide Deleted;
  }

  lemma ListedIDsAreKeys(listed: map<string, C.Sandbox>, net: Network, node: Machine, id: string)
    requires ListsSandboxes(listed, node) && Inv(net, node) && id in listed
    ensures listed[id].id == id && listed[id].state == C.Running && listed[id] == node.sandboxes[id].sandbox
  {
    assert BoxOk(id, node.sandboxes[id]);
  }

  lemma StillThere(before: Machine, after: Machine, gone: set<string>, desired: set<string>, id: string)
    requires OnlyHidden(before, after, gone, desired) && id in before.sandboxes && id !in gone
    ensures id in after.sandboxes
  {
  }

  // ---------- the whole reconcile ----------

  lemma ShownThenHidden(start: Machine, shown: Machine, after: Machine, gone: set<string>, pods: seq<Pod>)
    requires AllShown(start, shown, ManifestNames(pods)) && OnlyHidden(shown, after, gone, ManifestNames(pods))
    ensures WorkloadsKept(start, after) && OthersKept(start, after, ManifestNames(pods) + StaticNames(start))
  {
    hide SameAttachmentsBut;
    var names, touched := ManifestNames(pods), ManifestNames(pods) + StaticNames(start);
    FewerOthers(start, shown, names, touched);
    FewerOthers(shown, after, StaticNames(shown) - names, touched);
    OthersKeptTransitively(start, shown, after, touched);
  }

  lemma HidingReachesTheGoal(shown: Machine, after: Machine, gone: set<string>, pods: seq<Pod>)
    requires AllRun(shown, pods)
    requires OnlyHidden(shown, after, gone, ManifestNames(pods))
    requires forall id :: id in shown.sandboxes ==> (id in gone <==> IsRemoved(shown, id, ManifestNames(pods)))
    ensures StaticPodsMatch(after, pods)
    ensures StaticPodsMatch(shown, pods) ==> gone == {}
  {
    hide ManifestNames, SameAttachmentsBut;
    forall name | name in ManifestNames(pods) ensures Runs(after, name, C.StaticPod) {
      var id :| id in shown.sandboxes && RunsIn(shown, name, id, C.StaticPod);
      assert RunsIn(after, name, id, C.StaticPod);
    }
  }

  lemma MatchingPodsRun(node: Machine, pods: seq<Pod>)
    requires StaticPodsMatch(node, pods)
    ensures AllRun(node, pods)
  {
  }

  lemma HidingLeavesRoom(net: Network, before: Machine, shown: Machine, after: Machine, pods: seq<Pod>)
    requires LeavesRoom(net, before, shown, pods, []) && FreeHosts(net, shown) <= FreeHosts(net, after)
    ensures LeavesRoom(net, before, after, pods, [])
  {
    hide FreeHosts;
    SmallerSet(FreeHosts(net, shown), FreeHosts(net, after));
  }

  lemma HidingLeavesNew(before: Machine, shown: Machine, after: Machine, pids: set<nat>)
    requires LeavesNew(before, shown, pids) && LeavesNew(shown, after, {})
    ensures LeavesNew(before, after, pids)
  {
    hide IsNew;
  }

  // After a successful reconcile the static sandboxes are those of the manifests, each with a
  // Running container; repeating it then changes nothing. Whether or not it succeeds, workload
  // sandboxes are untouched, and containers and addresses change only for Pods that have a
  // manifest or had a static sandbox.
  method ReconcileStaticPods(runtime: Runtime, pods: seq<Pod>, starts: seq<Start>, stops: Commands) returns (ok: bool)
    requires runtime.Valid() && Tidy(runtime.Held()) && |starts| == |pods| && AreNewStarts(runtime.Held(), starts)
    modifies runtime, runtime.network
    ensures runtime.Valid() && Tidy(runtime.Held())
    ensures ok ==> StaticPodsMatch(runtime.Held(), pods)
    ensures WorkloadsKept(old(runtime.Held()), runtime.Held())
    ensures OthersKept(old(runtime.Held()), runtime.Held(), ManifestNames(pods) + StaticNames(old(runtime.Held())))
    ensures LeavesNew(old(runtime.Held()), runtime.Held(), PidsOf(starts))
    ensures StaticPodsMatch(old(runtime.Held()), pods) && DistinctPods(pods) && NoneStale(old(runtime.Held())) ==>
      ok && runtime.Held() == old(runtime.Held())
    ensures CanShow(runtime.Net(), old(runtime.Held()), pods, starts) ==> ok
    ensures ok ==> LeavesRoom(runtime.Net(), old(runtime.Held()), runtime.Held(), pods, [])
  {
    hide Inv, ListsSandboxes, ListsContainers, Tidy, Runs, AllShown, AreNewStarts, OnlyHidden,
      WorkloadsKept, OthersKept, StaticPodsMatch, ManifestNames, NoneStale, AllInPlace, CanShow,
      LeavesRoom, FreeHosts, LeavesNew, PidsOf;
    ghost var before := runtime.Held();
    var containers := runtime.List();
    var sandboxes := runtime.ListSandboxes();
    ListsAtTheStart(runtime.Net(), before, sandboxes, containers);
    if StaticPodsMatch(before, pods) {
      MatchingPodsRun(before, pods);
    }
    var listed, desired;
    ok, listed, desired := ShowStaticPods(runtime, pods, starts, sandboxes, containers);
    ghost var shown := runtime.Held();
    NothingHidden(shown, ManifestNames(pods));
    if !ok {
      ShownThenHidden(before, shown, shown, {}, pods);
      return false;
    }
    ghost var gone;
    ok, gone := HideStaticPods(runtime, listed, desired, stops);
    ShownThenHidden(before, shown, runtime.Held(), gone, pods);
    HidingReachesTheGoal(shown, runtime.Held(), gone, pods);
    HidingLeavesRoom(runtime.Net(), before, shown, runtime.Held(), pods);
    HidingLeavesNew(before, shown, runtime.Held(), PidsOf(starts));
  }
}
