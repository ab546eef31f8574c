// The types of the container runtime interface.
module Cri {
  datatype Source = Workload | StaticPod

  datatype State = Running | Stopped

  datatype Container = Container(id: string, podName: string, sandboxID: string, state: State)

  datatype Sandbox = Sandbox(id: string, podName: string, source: Source, ip: string, state: State)

  datatype CriError = NotFound | SandboxNotRunning | StartFailed | NetworkFailed
}

// The container runtime of a node: its maps of sandboxes and containers, the processes behind
// them, and what holds while requests and process exits interleave.
module Runtime {
  import opened Text
  import opened Api
  import opened Bootstrap
  import opened Cni
  import opened Services
  import C = Cri

  // ---------- the state ----------

  // `done` is the channel that the goroutine waiting for the process closes.
  datatype Managed = Managed(container: C.Container, pid: Option<nat>, done: nat)

  datatype Box = Box(sandbox: C.Sandbox, pid: nat, hostNetwork: bool)

  datatype Process = Process(podName: string, pid: nat)

  datatype Network = NoNetwork | Bridge(network: nat, gateway: nat)

  // `waiting` holds one goroutine per container process that has not been seen to exit, also
  // for processes whose container has been replaced. A watcher's slot holds an event or not:
  // its readers do not look at what it says.
  datatype Machine = Machine(
    containers: map<string, Managed>,
    sandboxes: map<string, Box>,
    waiting: map<nat, Process>,
    nextDone: nat,
    attachments: Attachments,
    watchers: map<nat, bool>)

  const EMPTY := Machine(map[], map[], map[], 0, map[], map[])

  function SandboxID(pid: nat): string { Numbered("sandbox", '-', pid) }

  function ContainerID(pid: nat): string { Numbered("pid", '-', pid) }

  function LivePids(node: Machine): set<nat>
  {
    (set id | id in node.sandboxes :: node.sandboxes[id].pid) + (set done | done in node.waiting ::
      node.waiting[done].pid)
  }

  // publish: a slot that holds an event keeps it, an empty one gets the new one.
  function Published(watchers: map<nat, bool>): map<nat, bool> { map w | w in watchers :: true }

  // ---------- requests ----------

  // What the operating system makes of a start: whether the process starts, its id, whether it
  // is ready, and what becomes of the network commands.
  datatype Launch = Launch(pid: nat, starts: bool, ready: bool, commands: Commands)

  predicate IsBoxOf(box: Box, podName: string, source: C.Source)
  {
    box.sandbox.podName == podName && box.sandbox.source == source && box.sandbox.state == C.Running
  }

  predicate HasBox(sandboxes: map<string, Box>, podName: string, source: C.Source)
  {
    exists id :: id in sandboxes && IsBoxOf(sandboxes[id], podName, source)
  }

  ghost function BoxOf(sandboxes: map<string, Box>, podName: string, source: C.Source): (id: string)
    requires HasBox(sandboxes, podName, source)
    ensures id in sandboxes && IsBoxOf(sandboxes[id], podName, source)
  {
    var id :| id in sandboxes && IsBoxOf(sandboxes[id], podName, source);
    id
  }

  function IPText(ip: nat): string { DottedBytes(ip, 3) }

  function NewBox(podName: string, source: C.Source, hostNetwork: bool, pid: nat, ip: string): Box
  {
    Box(C.Sandbox(SandboxID(pid), podName, source, ip, C.Running), pid, hostNetwork)
  }

  function WithBox(node: Machine, box: Box): Machine
  {
    node.(sandboxes := node.sandboxes[box.sandbox.id := box], watchers := Published(node.watchers))
  }

  ghost function RunPodSandbox(net: Network, node: Machine, podName: string, source: C.Source, hostNetwork: bool,
                               launch: Launch)
    : (Machine, Result<C.Sandbox, C.CriError>)
  {
    if HasBox(node.sandboxes, podName, source) then
      (node, Success(node.sandboxes[BoxOf(node.sandboxes, podName, source)].sandbox))
    else if !launch.starts then (node, Failure(C.StartFailed))
    else if net.NoNetwork? || hostNetwork then
      var box := NewBox(podName, source, hostNetwork, launch.pid, "");
      if launch.ready then (WithBox(node, box), Success(box.sandbox)) else (node, Failure(C.StartFailed))
    else
      var (attachments, ip) := Added(node.attachments, net.network, net.gateway, podName, launch.commands);
      if ip.Failure? then (node, Failure(C.NetworkFailed))
      else
        var attached := node.(attachments := attachments);
        var box := NewBox(podName, source, hostNetwork, launch.pid, IPText(ip.value));
        if launch.ready then (WithBox(attached, box), Success(box.sandbox)) else (attached, Failure(C.StartFailed))
  }

  // A container that is already there is replaced, its process left to its goroutine.
  function RunInSandbox(node: Machine, podName: string, sandboxID: string, launch: Launch)
      : (Machine, Result<C.Container, C.CriError>)
  {
    if sandboxID !in node.sandboxes || node.sandboxes[sandboxID].sandbox.state != C.Running then
      (node, Failure(C.SandboxNotRunning))
    else if !launch.starts then (node, Failure(C.StartFailed))
    else
      var container := C.Container(ContainerID(launch.pid), podName, sandboxID, C.Running);
      (node.(
         containers := node.containers[podName := Managed(container, Some(launch.pid), node.nextDone)],
         waiting := node.waiting[node.nextDone := Process(podName, launch.pid)],
         nextDone := node.nextDone + 1,
         watchers := Published(node.watchers)),
       Success(container))
  }

  function Ended(managed: Managed): Managed
  {
    managed.(container := managed.container.(state := C.Stopped), pid := None)
  }

  // waitForContainer, once its process is over: it marks the container stopped only if that
  // is still the one it was started for.
  function Exited(node: Machine, done: nat): Machine
    requires done in node.waiting
  {
    var podName := node.waiting[done].podName;
    var rest := node.(waiting := node.waiting - {done});
    if podName in node.containers && node.containers[podName].done == done then
      rest.(containers := node.containers[podName := Ended(node.containers[podName])], watchers :=
        Published(node.watchers))
    else rest
  }

  predicate IsUp(node: Machine, podName: string) { podName in node.containers && node.containers[podName].pid.Some? }

  // Signals end processes, so stop returns after its container's goroutine is through.
  function Stopped(node: Machine, podName: string): Machine
  {
    if IsUp(node, podName) && node.containers[podName].done in node.waiting then
      Exited(node, node.containers[podName].done) else node
  }

  function StopContainer(node: Machine, podName: string): (Machine, Option<C.CriError>)
  {
    if podName !in node.containers then (node, Some(C.NotFound)) else (Stopped(node, podName), None)
  }

  // The containers of the given names stopped, in whatever order.
  function StoppedAll(node: Machine, names: set<string>): Machine
  {
    var up := set name | name in names && IsUp(node, name);
    node.(
      containers := map name | name in node.containers ::
        if name in up then Ended(node.containers[name]) else node.containers[name],
      waiting := node.waiting - (set name | name in up :: node.containers[name].done),
      watchers := if up == {} then node.watchers else Published(node.watchers))
  }

  function NamesIn(node: Machine, sandboxID: string): set<string>
  {
    set name | name in node.containers && node.containers[name].container.sandboxID == sandboxID
  }

  // Deletion of the network interface is tried; its failure is ignored.
  function StopPodSandbox(net: Network, node: Machine, id: string, commands: Commands): (Machine, Option<C.CriError>)
  {
    if id !in node.sandboxes then (node, Some(C.NotFound))
    else
      var box := node.sandboxes[id];
      var stopped := StoppedAll(node, NamesIn(node, id));
      var attachments := if net.NoNetwork? || box.hostNetwork then node.attachments
        else Deleted(node.attachments, box.sandbox.podName, commands).0;
      (stopped.(attachments := attachments, sandboxes := node.sandboxes - {id}, watchers := Published(node.watchers)),
        None)
  }

  // ---------- runs ----------

  datatype Step =
    | DoRunPodSandbox(podName: string, source: C.Source, hostNetwork: bool, launch: Launch)
    | DoRunInSandbox(podName: string, sandboxID: string, launch: Launch)
    | DoStopPodSandbox(sandboxID: string, commands: Commands)
    | DoStop(podName: string)
    | Exit(done: nat)
    | OpenWatch(watcher: nat) | CloseWatch(watcher: nat) | TakeEvent(watcher: nat)

  // A new process has an id that no live process has.
  predicate Enabled(node: Machine, step: Step)
  {
    match step
    case DoRunPodSandbox(_, _, _, launch) => launch.pid !in LivePids(node)
    case DoRunInSandbox(_, _, launch) => launch.pid !in LivePids(node)
    case Exit(done) => done in node.waiting
    case OpenWatch(watcher) => watcher !in node.watchers
    case CloseWatch(watcher) => watcher in node.watchers
    case TakeEvent(watcher) => watcher in node.watchers && node.watchers[watcher]
    case _ => true
  }

  ghost function Next(net: Network, node: Machine, step: Step): Machine
    requires Enabled(node, step)
  {
    match step
    case DoRunPodSandbox(podName, source, hostNetwork, launch) => RunPodSandbox(net, node, podName, source, hostNetwork,
      launch).0
    case DoRunInSandbox(podName, sandboxID, launch) => RunInSandbox(node, podName, sandboxID, launch).0
    case DoStopPodSandbox(id, commands) => StopPodSandbox(net, node, id, commands).0
    case DoStop(podName) => StopContainer(node, podName).0
    case Exit(done) => Exited(node, done)
    case OpenWatch(watcher) => node.(watchers := node.watchers[watcher := false])
    case CloseWatch(watcher) => node.(watchers := node.watchers - {watcher})
    case TakeEvent(watcher) => node.(watchers := node.watchers[watcher := false])
  }

  ghost predicate IsRun(net: Network, node: Machine, steps: seq<Step>)
    decreases |steps|
  {
    steps == [] || (Enabled(node, steps[0]) && IsRun(net, Next(net, node, steps[0]), steps[1..]))
  }

  ghost function After(net: Network, node: Machine, steps: seq<Step>): Machine
    requires IsRun(net, node, steps)
    decreases |steps|
  {
    if steps == [] then node else After(net, Next(net, node, steps[0]), steps[1..])
  }

  // ---------- the invariant ----------

  // At most one Running sandbox per Pod and source, each under its own id.
  ghost predicate SandboxesOk(node: Machine)
  {
    && (forall id :: id in node.sandboxes ==> BoxOk(id, node.sandboxes[id]))
    && (forall a, b ::
          a in node.sandboxes && b in node.sandboxes && SamePodAndSource(node.sandboxes[a], node.sandboxes[b]) ==>
            a == b)
  }

  predicate BoxOk(id: string, box: Box)
  {
    id == SandboxID(box.pid) && box.sandbox.id == id && box.sandbox.state == C.Running
  }

  predicate SamePodAndSource(a: Box, b: Box)
  {
    a.sandbox.podName == b.sandbox.podName && a.sandbox.source == b.sandbox.source
  }

  // A container is Running exactly while its goroutine waits for its process, and then its
  // sandbox exists; no goroutine waits for a stopped one.
  predicate ContainerOk(node: Machine, podName: string)
    requires podName in node.containers
  {
    var managed := node.containers[podName];
    && managed.container.podName == podName && managed.done < node.nextDone
    && match managed.pid
       case None => managed.container.state == C.Stopped && managed.done !in node.waiting
       case Some(pid) =>
         && managed.container.state == C.Running && managed.container.sandboxID in node.sandboxes
         && managed.done in node.waiting && node.waiting[managed.done] == Process(podName, pid)
  }

  ghost predicate ContainersOk(node: Machine)
  {
    && (forall podName :: podName in node.containers ==> ContainerOk(node, podName))
    && (forall done :: done in node.waiting ==> done < node.nextDone)
  }

  ghost predicate NetworkOk(net: Network, node: Machine)
  {
    net.Bridge? ==> AttachmentsOk(node.attachments, net.network, net.gateway)
  }

  ghost predicate Inv(net: Network, node: Machine)
  {
    SandboxesOk(node) && ContainersOk(node) && NetworkOk(net, node)
  }

  lemma NewIDsAreFresh(node: Machine, pid: nat)
    requires SandboxesOk(node) && pid !in LivePids(node)
    ensures SandboxID(pid) !in node.sandboxes
  {
    if SandboxID(pid) in node.sandboxes {
      var box := node.sandboxes[SandboxID(pid)];
      assert BoxOk(SandboxID(pid), box);
      NumberedIsInjective("sandbox", '-', pid, "sandbox", box.pid);
    }
  }

  lemma AddingABoxKeepsInv(net: Network, node: Machine, podName: string, source: C.Source, hostNetwork: bool, pid: nat,
                           ip: string)
    requires Inv(net, node) && !HasBox(node.sandboxes, podName, source) && pid !in LivePids(node)
    ensures Inv(net, WithBox(node, NewBox(podName, source, hostNetwork, pid, ip)))
  {
    hide AttachmentsOk, SandboxID, ContainerID, LivePids;
    NewIDsAreFresh(node, pid);
    var box := NewBox(podName, source, hostNetwork, pid, ip);
    var after := WithBox(node, box);
    forall a, b | a in after.sandboxes && b in after.sandboxes &&
      SamePodAndSource(after.sandboxes[a], after.sandboxes[b])
      ensures a == b
    {
      assert a in node.sandboxes ==> BoxOk(a, node.sandboxes[a]);
      assert b in node.sandboxes ==> BoxOk(b, node.sandboxes[b]);
    }
  }

  lemma AttachingKeepsInv(net: Network, node: Machine, podName: string, commands: Commands)
    requires Inv(net, node) && net.Bridge?
    ensures Inv(net, node.(attachments := Added(node.attachments, net.network, net.gateway, podName, commands).0))
  {
    hide Added, AttachmentsOk;
    AddingKeepsOk(node.attachments, net.network, net.gateway, podName, commands);
    var after := node.(attachments := Added(node.attachments, net.network, net.gateway, podName, commands).0);
    assert forall name :: name in node.containers ==> ContainerOk(node, name) ==> ContainerOk(after, name);
  }

  lemma RunPodSandboxKeepsInv(net: Network, node: Machine, podName: string, source: C.Source, hostNetwork: bool,
                              launch: Launch)
    requires Inv(net, node) && launch.pid !in LivePids(node)
    ensures Inv(net, RunPodSandbox(net, node, podName, source, hostNetwork, launch).0)
  {
    hide Inv, HasBox, WithBox, NewBox, Added;
    if !HasBox(node.sandboxes, podName, source) && launch.starts {
      if net.NoNetwork? || hostNetwork {
        AddingABoxKeepsInv(net, node, podName, source, hostNetwork, launch.pid, "");
      } else {
        AttachingKeepsInv(net, node, podName, launch.commands);
        var (attachments, ip) := Added(node.attachments, net.network, net.gateway, podName, launch.commands);
        FailedAddsChangeNothing(net, node, podName, launch.commands);
        if ip.Success? {
          var attached := node.(attachments := attachments);
          assert LivePids(attached) == LivePids(node);
          AddingABoxKeepsInv(net, attached, podName, source, hostNetwork, launch.pid, IPText(ip.value));
        }
      }
    }
  }

  lemma FailedAddsChangeNothing(net: Network, node: Machine, podName: string, commands: Commands)
    requires net.Bridge?
    ensures var (attachments, ip) := Added(node.attachments, net.network, net.gateway, podName, commands);
      ip.Failure? ==> attachments == node.attachments
  {
  }

  lemma RunInSandboxKeepsInv(net: Network, node: Machine, podName: string, sandboxID: string, launch: Launch)
    requires Inv(net, node)
    ensures Inv(net, RunInSandbox(node, podName, sandboxID, launch).0)
  {
    hide AttachmentsOk, BoxOk, SamePodAndSource;
    var after := RunInSandbox(node, podName, sandboxID, launch).0;
    forall name | name in after.containers ensures ContainerOk(after, name) {
      assert name in node.containers ==> ContainerOk(node, name);
    }
  }

  lemma ExitKeepsInv(net: Network, node: Machine, done: nat)
    requires Inv(net, node) && done in node.waiting
    ensures Inv(net, Exited(node, done))
  {
    hide AttachmentsOk, BoxOk, SamePodAndSource;
    var after := Exited(node, done);
    forall name | name in after.containers ensures ContainerOk(after, name) {
      assert ContainerOk(node, name);
    }
  }

  lemma StoppingAllKeepsInv(net: Network, node: Machine, names: set<string>)
    requires Inv(net, node)
    ensures Inv(net, StoppedAll(node, names))
  {
    hide AttachmentsOk, BoxOk, SamePodAndSource;
    var after := StoppedAll(node, names);
    forall name | name in after.containers ensures ContainerOk(after, name) {
      assert ContainerOk(node, name);
      if !(name in names && IsUp(node, name)) && IsUp(node, name) {
        forall other | other in names && IsUp(node, other)
          ensures node.containers[other].done != node.containers[name].done
        {
          assert ContainerOk(node, other);
        }
      }
    }
  }

  lemma NothingRunsInAStoppedSandbox(net: Network, node: Machine, id: string, name: string)
    requires Inv(net, node)
    ensures var stopped := StoppedAll(node, NamesIn(node, id));
      name in stopped.containers && stopped.containers[name].pid.Some? ==>
        stopped.containers[name].container.sandboxID != id
  {
    hide Inv;
  }

  lemma StopPodSandboxKeepsInv(net: Network, node: Machine, id: string, commands: Commands)
    requires Inv(net, node)
    ensures Inv(net, StopPodSandbox(net, node, id, commands).0)
  {
    hide AttachmentsOk, Deleted, StoppedAll, NamesIn, BoxOk, SamePodAndSource;
    if id in node.sandboxes {
      var stopped := StoppedAll(node, NamesIn(node, id));
      var after := StopPodSandbox(net, node, id, commands).0;
      StoppingAllKeepsInv(net, node, NamesIn(node, id));
      StoppingKeepsTheRest(node, NamesIn(node, id));
      if net.Bridge? {
        DeletingKeepsOk(node.attachments, net.network, net.gateway, node.sandboxes[id].sandbox.podName, commands);
      }
      forall name | name in after.containers ensures ContainerOk(after, name) {
        assert ContainerOk(stopped, name);
        NothingRunsInAStoppedSandbox(net, node, id, name);
      }
    }
  }

  lemma StoppingKeepsTheRest(node: Machine, names: set<string>)
    ensures var stopped := StoppedAll(node, names);
      && stopped.sandboxes == node.sandboxes && stopped.attachments == node.attachments
      && stopped.nextDone == node.nextDone
      && Published(stopped.watchers) == Published(node.watchers)
  {
  }

  lemma StepKeepsInv(net: Network, node: Machine, step: Step)
    requires Inv(net, node) && Enabled(node, step)
    ensures Inv(net, Next(net, node, step))
  {
    hide Inv, RunPodSandbox, RunInSandbox, StopPodSandbox, Exited;
    match step {
      case DoRunPodSandbox(podName, source, hostNetwork, launch) => RunPodSandboxKeepsInv(net, node, podName, source,
        hostNetwork, launch);
      case DoRunInSandbox(podName, sandboxID, launch) => RunInSandboxKeepsInv(net, node, podName, sandboxID, launch);
      case DoStopPodSandbox(id, commands) => StopPodSandboxKeepsInv(net, node, id, commands);
      case DoStop(podName) =>
        if IsUp(node, podName) && node.containers[podName].done in node.waiting {
          ExitKeepsInv(net, node, node.containers[podName].done);
        }
      case Exit(done) => ExitKeepsInv(net, node, done);
      case _ => WatchersDoNotMatter(net, node, Next(net, node, step).watchers);
    }
  }

  lemma WatchersDoNotMatter(net: Network, node: Machine, watchers: map<nat, bool>)
    requires Inv(net, node)
    ensures Inv(net, node.(watchers := watchers))
  {
    hide AttachmentsOk, BoxOk, SamePodAndSource;
    forall name | name in node.containers ensures ContainerOk(node.(watchers := watchers), name) {
      assert ContainerOk(node, name);
    }
  }

  // Over every run from an empty runtime, with process exits at any time: there is at most
  // one Running sandbox per Pod and source, and every Running container's sandbox exists.
  lemma {:induction false} RunsKeepInv(net: Network, node: Machine, steps: seq<Step>)
    requires Inv(net, node) && IsRun(net, node, steps)
    ensures Inv(net, After(net, node, steps))
    decreases |steps|
  {
    hide Inv, Enabled, Next;
    if steps != [] {
      StepKeepsInv(net, node, steps[0]);
      RunsKeepInv(net, Next(net, node, steps[0]), steps[1..]);
    }
  }

  lemma EmptyIsOk(net: Network)
    ensures Inv(net, EMPTY)
  {
  }

  // ---------- restarts keep the sandbox ----------

  // Whatever else happens, containers ending and being restarted in it included, a sandbox
  // stays as it is, with its address, until it is stopped itself.
  lemma {:induction false} SandboxesStay(net: Network, node: Machine, steps: seq<Step>, id: string)
    requires Inv(net, node) && IsRun(net, node, steps) && id in node.sandboxes
    requires forall i :: 0 <= i < |steps| ==> !(steps[i].DoStopPodSandbox? && steps[i].sandboxID == id)
    ensures id in After(net, node, steps).sandboxes && After(net, node, steps).sandboxes[id] == node.sandboxes[id]
    decreases |steps|
  {
    hide Inv, Enabled, Next;
    if steps != [] {
      StepKeepsInv(net, node, steps[0]);
      StepKeepsOtherSandboxes(net, node, steps[0], id);
      SandboxesStay(net, Next(net, node, steps[0]), steps[1..], id);
    }
  }

  lemma StepKeepsOtherSandboxes(net: Network, node: Machine, step: Step, id: string)
    requires Inv(net, node) && Enabled(node, step) && id in node.sandboxes
    requires !(step.DoStopPodSandbox? && step.sandboxID == id)
    ensures id in Next(net, node, step).sandboxes && Next(net, node, step).sandboxes[id] == node.sandboxes[id]
  {
    hide ContainersOk, NetworkOk, Added, Deleted, HasBox, LivePids, SandboxID;
    if step.DoRunPodSandbox? {
      NewIDsAreFresh(node, step.launch.pid);
    }
  }

  // ---------- late exits ----------

  // A step that is meant to end a container of the Pod: its own process exiting, or a request
  // to stop it, replace it, or stop its sandbox.
  predicate Concerns(step: Step, podName: string, managed: Managed)
  {
    match step
    case Exit(done) => done == managed.done
    case DoStop(name) => name == podName
    case DoRunInSandbox(name, _, _) => name == podName
    case DoStopPodSandbox(id, _) => id == managed.container.sandboxID
    case _ => false
  }

  lemma UnconcernedStep(net: Network, node: Machine, step: Step, podName: string)
    requires Inv(net, node) && Enabled(node, step) && podName in node.containers
    requires !Concerns(step, podName, node.containers[podName])
    ensures podName in Next(net, node, step).containers
    ensures Next(net, node, step).containers[podName] == node.containers[podName]
  {
    hide SandboxesOk, NetworkOk, Added, Deleted, HasBox, LivePids, SandboxID;
    assert ContainerOk(node, podName);
  }

  // A running container stays exactly as it is until its own process ends or it is asked to
  // end: the exit of a process it replaced, however late, does not mark it stopped.
  lemma {:induction false} LateExitsDoNotStopNewContainers(net: Network, node: Machine, steps: seq<Step>,
                                                           podName: string)
    requires Inv(net, node) && IsRun(net, node, steps) && podName in node.containers
    requires forall i :: 0 <= i < |steps| ==> !Concerns(steps[i], podName, node.containers[podName])
    ensures podName in After(net, node, steps).containers
    ensures After(net, node, steps).containers[podName] == node.containers[podName]
    decreases |steps|
  {
    hide Inv, Enabled, Next, Concerns;
    if steps != [] {
      StepKeepsInv(net, node, steps[0]);
      UnconcernedStep(net, node, steps[0], podName);
      LateExitsDoNotStopNewContainers(net, Next(net, node, steps[0]), steps[1..], podName);
    }
  }

  // The replaced process is still waited for under its own channel, which is not the new one.
  lemma ReplacedProcessesHaveTheirOwnChannel(net: Network, node: Machine, podName: string, sandboxID: string,
                                             launch: Launch)
    requires Inv(net, node) && launch.pid !in LivePids(node) && IsUp(node, podName)
    requires RunInSandbox(node, podName, sandboxID, launch).1.Success?
    ensures var after := RunInSandbox(node, podName, sandboxID, launch).0;
      var late := node.containers[podName].done;
      && late in after.waiting && after.containers[podName].done != late
      && Exited(after, late).containers[podName] == after.containers[podName]
      && after.containers[podName].container.state == C.Running
  {
    assert ContainerOk(node, podName);
  }

  // ---------- what requests do, case by case ----------

  predicate IsRunningFor(sandbox: C.Sandbox, podName: string, source: C.Source)
  {
    sandbox.podName == podName && sandbox.source == source && sandbox.state == C.Running
  }

  ghost predicate HasSandbox(node: Machine, podName: string, source: C.Source)
  {
    exists id :: id in node.sandboxes && IsRunningFor(node.sandboxes[id].sandbox, podName, source)
  }

  // The network plugin gives the Pod an address: the one it has, or a free one.
  predicate Joins(node: Machine, podName: string, commands: Commands)
  {
    podName in node.attachments || (commands.found && commands.linked && |node.attachments| < 253)
  }

  // A sandbox of the Pod and source that runs is returned, and nothing changes. Otherwise the
  // request fails exactly if no process starts, the Pod needs an address and gets none, or the
  // process is not told to go on. In the last case an attachment is left, else nothing.
  lemma SandboxStartsFailExactly(net: Network, node: Machine, podName: string, source: C.Source, hostNetwork: bool,
                                 launch: Launch)
    requires Inv(net, node) && (net.Bridge? ==> net.gateway == WithHost(net.network, GATEWAY_HOST))
    ensures var (after, r) := RunPodSandbox(net, node, podName, source, hostNetwork, launch);
      var first, needs := !HasSandbox(node, podName, source), net.Bridge? && !hostNetwork;
      var joined := Joins(node, podName, launch.commands);
      && (r == Failure(C.NetworkFailed) <==> first && launch.starts && needs && !joined)
      && (r == Failure(C.StartFailed) <==> first && (!launch.starts || (!(needs && !joined) && !launch.ready)))
      && (r.Failure? ==> r.error in {C.NetworkFailed, C.StartFailed})
      && (r.Failure? ==> after == node.(attachments := after.attachments))
      && (r.Failure? && !(launch.starts && needs && joined) ==> after == node)
      && (!first ==> after == node)
  {
    SandboxesOfThePod(node, podName, source);
    if net.Bridge? {
      JoinsExactly(net, node, podName, launch.commands);
    }
    hide Added, HasBox, HasSandbox, NewBox, WithBox, IPText, Inv, Joins;
  }

  lemma JoinsExactly(net: Network, node: Machine, podName: string, commands: Commands)
    requires Inv(net, node) && net.Bridge? && net.gateway == WithHost(net.network, GATEWAY_HOST)
    ensures var (after, r) := Added(node.attachments, net.network, net.gateway, podName, commands);
      (r.Success? <==> Joins(node, podName, commands)) && (r.Failure? ==> after == node.attachments)
  {
    hide Added, AttachmentsOk, SandboxesOk, ContainersOk, IsLeastFree;
    AddsAreExact(node.attachments, net.network, net.gateway, podName, commands);
  }

  // What it returns: a running sandbox of that Pod and source, or a new one, with the address
  // the Pod has in the plugin if it needs one. Other sandboxes and attachments stay.
  lemma SandboxStartsAreExact(net: Network, node: Machine, podName: string, source: C.Source, hostNetwork: bool,
                              launch: Launch)
    ensures var (after, r) := RunPodSandbox(net, node, podName, source, hostNetwork, launch);
      var needs := net.Bridge? && !hostNetwork;
      && after.containers == node.containers && after.waiting == node.waiting && after.nextDone == node.nextDone
      && (r.Success? ==> IsRunningFor(r.value, podName, source))
      && (r.Success? && HasSandbox(node, podName, source) ==>
            exists id :: id in node.sandboxes && node.sandboxes[id].sandbox == r.value)
      && (r.Success? && !HasSandbox(node, podName, source) ==>
            && r.value.id == "sandbox-" + Decimal(launch.pid)
            && after.sandboxes == node.sandboxes[r.value.id := Box(r.value, launch.pid, hostNetwork)]
            && (needs ==> podName in after.attachments)
            && r.value.ip == (if needs then IPText(after.attachments[podName]) else ""))
      && (forall other :: other != podName ==>
            (other in after.attachments <==> other in node.attachments) &&
            (other in node.attachments ==> after.attachments[other] == node.attachments[other]))
      && (podName in node.attachments || !needs ==> after.attachments == node.attachments)
  {
    hide FreeHost, IsFree, HasBox, HasSandbox, IPText, SandboxID, Decimal, Published;
    SandboxesOfThePod(node, podName, source);
    SandboxIDInWords(launch.pid);
    if net.Bridge? {
      AddingTouchesOne(node.attachments, net.network, net.gateway, podName, launch.commands);
    }
  }

  lemma AddingTouchesOne(pods: Attachments, network: nat, gateway: nat, name: string, commands: Commands)
    ensures var (after, r) := Added(pods, network, gateway, name, commands);
      && (forall other :: other != name ==>
            (other in after <==> other in pods) && (other in pods ==> after[other] == pods[other]))
      && (name in pods ==> after == pods)
      && (r.Success? ==> name in after && after[name] == r.value)
  {
    hide FreeHost;
  }

  lemma SandboxIDInWords(pid: nat)
    ensures SandboxID(pid) == "sandbox-" + Decimal(pid) && ContainerID(pid) == "pid-" + Decimal(pid)
  {
    assert "sandbox" + ['-'] == "sandbox-" && "pid" + ['-'] == "pid-";
  }

  lemma SandboxesOfThePod(node: Machine, podName: string, source: C.Source)
    ensures HasSandbox(node, podName, source) <==> HasBox(node.sandboxes, podName, source)
  {
    if id :| id in node.sandboxes && IsRunningFor(node.sandboxes[id].sandbox, podName, source) {
      assert IsBoxOf(node.sandboxes[id], podName, source);
    }
    if id :| id in node.sandboxes && IsBoxOf(node.sandboxes[id], podName, source) {
      assert IsRunningFor(node.sandboxes[id].sandbox, podName, source);
    }
  }

  // A container is started exactly in a sandbox that is there, if its process starts. It is then
  // the Pod's container, Running in that sandbox, and nobody else's changes.
  lemma ContainerStartsAreExact(net: Network, node: Machine, podName: string, sandboxID: string, launch: Launch)
    requires Inv(net, node)
    ensures var (after, r) := RunInSandbox(node, podName, sandboxID, launch);
      && (r == Failure(C.SandboxNotRunning) <==> sandboxID !in node.sandboxes)
      && (r == Failure(C.StartFailed) <==> sandboxID in node.sandboxes && !launch.starts)
      && (r.Success? <==> sandboxID in node.sandboxes && launch.starts)
      && (r.Failure? ==> after == node)
      && after.sandboxes == node.sandboxes && after.attachments == node.attachments
      && (forall other :: other != podName ==>
            (other in after.containers <==> other in node.containers) &&
            (other in node.containers ==> after.containers[other] == node.containers[other]))
      && (r.Success? ==>
            && podName in after.containers && after.containers[podName].container == r.value
            && after.containers[podName].pid == Some(launch.pid)
            && r.value == C.Container("pid-" + Decimal(launch.pid), podName, sandboxID, C.Running)
            && (forall done :: done in node.waiting ==>
                  done in after.waiting && after.waiting[done] == node.waiting[done]))
  {
    SandboxIDInWords(launch.pid);
    hide NetworkOk, Published, ContainerID;
  }

  // Stopping a sandbox removes it and no other, leaves its containers Stopped, every other one
  // as it was, and gives the Pod's address back if the command succeeds.
  lemma SandboxStopsAreExact(net: Network, node: Machine, id: string, commands: Commands)
    requires Inv(net, node)
    ensures var (after, error) := StopPodSandbox(net, node, id, commands);
      && (error == if id in node.sandboxes then None else Some(C.NotFound))
      && (id !in node.sandboxes ==> after == node)
      && after.sandboxes == node.sandboxes - {id} && after.containers.Keys == node.containers.Keys
      && (forall name :: name in node.containers ==>
            if id in node.sandboxes && node.containers[name].container.sandboxID == id
            then after.containers[name].container == node.containers[name].container.(state := C.Stopped) &&
                   after.containers[name].pid == None
            else after.containers[name] == node.containers[name])
      && (after.attachments ==
          if id in node.sandboxes && net.Bridge? && !node.sandboxes[id].hostNetwork && commands.linked
          then node.attachments - {node.sandboxes[id].sandbox.podName} else node.attachments)
  {
    hide SandboxesOk, NetworkOk, Published;
    forall name | name in node.containers ensures ContainerOk(node, name) {
    }
  }

  // ---------- no silent change ----------

  ghost predicate Changes(before: Machine, after: Machine)
  {
    after.containers != before.containers || after.sandboxes != before.sandboxes
  }

  predicate IsOfWatcher(step: Step, watcher: nat)
  {
    step == OpenWatch(watcher) || step == CloseWatch(watcher) || step == TakeEvent(watcher)
  }

  // The watchers are told of the step exactly if it changes something.
  ghost predicate ToldExactly(before: Machine, after: Machine)
  {
    after.watchers == if Changes(before, after) then Published(before.watchers) else before.watchers
  }

  lemma NewBoxesAreChanges(net: Network, node: Machine, podName: string, source: C.Source, hostNetwork: bool,
                           launch: Launch)
    requires Inv(net, node) && launch.pid !in LivePids(node)
    ensures ToldExactly(node, RunPodSandbox(net, node, podName, source, hostNetwork, launch).0)
  {
    NewIDsAreFresh(node, launch.pid);
    hide Added, HasBox, LivePids, SandboxID, IPText, Inv, Published, WithBox, ToldExactly;
    AddedBoxesAreChanges(node, node, NewBox(podName, source, hostNetwork, launch.pid, ""));
    if net.Bridge? {
      var (attachments, ip) := Added(node.attachments, net.network, net.gateway, podName, launch.commands);
      if ip.Success? {
        AddedBoxesAreChanges(node, node.(attachments := attachments),
                             NewBox(podName, source, hostNetwork, launch.pid, IPText(ip.value)));
      }
    }
  }

  lemma AddedBoxesAreChanges(node: Machine, attached: Machine, box: Box)
    requires box.sandbox.id !in node.sandboxes && attached == node.(attachments := attached.attachments)
    ensures ToldExactly(node, WithBox(attached, box)) && ToldExactly(node, attached)
  {
  }

  lemma NewContainersAreChanges(net: Network, node: Machine, podName: string, sandboxID: string, launch: Launch)
    requires Inv(net, node)
    ensures ToldExactly(node, RunInSandbox(node, podName, sandboxID, launch).0)
  {
    if podName in node.containers {
      assert ContainerOk(node, podName);
    }
  }

  lemma RemovedBoxesAreChanges(net: Network, node: Machine, id: string, commands: Commands)
    ensures ToldExactly(node, StopPodSandbox(net, node, id, commands).0)
  {
    hide Deleted, StoppedAll;
  }

  lemma ExitsAreChanges(net: Network, node: Machine, done: nat)
    requires Inv(net, node) && done in node.waiting
    ensures ToldExactly(node, Exited(node, done))
  {
    var podName := node.waiting[done].podName;
    if podName in node.containers {
      assert ContainerOk(node, podName);
    }
  }

  // A slot that was empty is filled by a change, and by nothing else.
  lemma StepPublishesExactly(net: Network, node: Machine, step: Step, watcher: nat)
    requires Inv(net, node) && Enabled(node, step) && watcher in node.watchers && !IsOfWatcher(step, watcher)
    ensures var next := Next(net, node, step);
      && watcher in next.watchers
      && (next.watchers[watcher] <==> node.watchers[watcher] || Changes(node, next))
  {
    hide Inv, Added, Deleted, HasBox, LivePids, SandboxID, StoppedAll, NamesIn, Ended, IsUp;
    hide RunPodSandbox, RunInSandbox, StopPodSandbox, Exited;
    match step {
      case DoRunPodSandbox(podName, source, hostNetwork, launch) =>
        NewBoxesAreChanges(net, node, podName, source, hostNetwork, launch);
      case DoRunInSandbox(podName, sandboxID, launch) => NewContainersAreChanges(net, node, podName, sandboxID, launch);
      case DoStopPodSandbox(id, commands) => RemovedBoxesAreChanges(net, node, id, commands);
      case DoStop(podName) =>
        if podName in node.containers && node.containers[podName].done in node.waiting {
          ExitsAreChanges(net, node, node.containers[podName].done);
        }
      case Exit(done) => ExitsAreChanges(net, node, done);
      case _ =>
    }
  }

  // Every change of a container or a sandbox leaves an event in the slot of every watcher.
  lemma ChangesArePublished(net: Network, node: Machine, step: Step, watcher: nat)
    requires Inv(net, node) && Enabled(node, step) && watcher in node.watchers
    requires Next(net, node, step).containers != node.containers || Next(net, node, step).sandboxes != node.sandboxes
    ensures watcher in Next(net, node, step).watchers && Next(net, node, step).watchers[watcher]
  {
    hide Inv, RunPodSandbox, RunInSandbox, StopPodSandbox, Exited, StopContainer, LivePids;
    if !IsOfWatcher(step, watcher) {
      StepPublishesExactly(net, node, step, watcher);
    }
  }

  ghost predicate ChangesOnTheWay(net: Network, node: Machine, steps: seq<Step>)
    requires IsRun(net, node, steps)
    decreases |steps|
  {
    steps != [] &&
      (Changes(node, Next(net, node, steps[0])) || ChangesOnTheWay(net, Next(net, node, steps[0]), steps[1..]))
  }

  lemma {:induction false} StepsPublishExactly(net: Network, node: Machine, steps: seq<Step>, watcher: nat)
    requires Inv(net, node) && IsRun(net, node, steps) && watcher in node.watchers
    requires forall i :: 0 <= i < |steps| ==> !IsOfWatcher(steps[i], watcher)
    ensures var end := After(net, node, steps);
      && watcher in end.watchers
      && (end.watchers[watcher] <==> node.watchers[watcher] || ChangesOnTheWay(net, node, steps))
    decreases |steps|
  {
    hide Inv, Enabled, Next, Changes;
    if steps != [] {
      StepKeepsInv(net, node, steps[0]);
      StepPublishesExactly(net, node, steps[0], watcher);
      StepsPublishExactly(net, Next(net, node, steps[0]), steps[1..], watcher);
    }
  }

  // A watcher that has opened its watch, or taken its event, finds an event in its slot if and
  // only if some container or sandbox has changed since, whatever other watchers do.
  lemma WatchersLearnExactly(net: Network, node: Machine, begin: Step, steps: seq<Step>, watcher: nat)
    requires Inv(net, node) && Enabled(node, begin) && begin in {OpenWatch(watcher), TakeEvent(watcher)}
    requires IsRun(net, Next(net, node, begin), steps)
    requires forall i :: 0 <= i < |steps| ==> !IsOfWatcher(steps[i], watcher)
    ensures var end := After(net, Next(net, node, begin), steps);
      && watcher in end.watchers
      && (end.watchers[watcher] <==> ChangesOnTheWay(net, Next(net, node, begin), steps))
  {
    hide Inv;
    StepKeepsInv(net, node, begin);
    StepsPublishExactly(net, Next(net, node, begin), steps, watcher);
  }

  // ---------- addresses ----------

  predicate IsNetworked(net: Network, box: Box) { net.Bridge? && !box.hostNetwork }

  // Two different sandboxes that have a network.
  predicate AreNetworked(net: Network, node: Machine, a: string, b: string)
  {
    && a in node.sandboxes && b in node.sandboxes && a != b
    && IsNetworked(net, node.sandboxes[a]) && IsNetworked(net, node.sandboxes[b])
  }

  ghost predicate AddressesDiffer(net: Network, node: Machine)
  {
    forall a, b :: AreNetworked(net, node, a, b) ==> node.sandboxes[a].sandbox.ip != node.sandboxes[b].sandbox.ip
  }

  ghost predicate NamesDiffer(net: Network, node: Machine)
  {
    forall a, b :: AreNetworked(net, node, a, b) ==>
      node.sandboxes[a].sandbox.podName != node.sandboxes[b].sandbox.podName
  }

  // At the start, at the end and after each step of a run.
  ghost predicate AddressesDifferThroughout(net: Network, node: Machine, steps: seq<Step>)
    requires IsRun(net, node, steps)
    decreases |steps|
  {
    && AddressesDiffer(net, node)
    && (steps != [] ==> AddressesDifferThroughout(net, Next(net, node, steps[0]), steps[1..]))
  }

  ghost predicate NamesDifferThroughout(net: Network, node: Machine, steps: seq<Step>)
    requires IsRun(net, node, steps)
    decreases |steps|
  {
    && NamesDiffer(net, node)
    && (steps != [] ==> NamesDifferThroughout(net, Next(net, node, steps[0]), steps[1..]))
  }

  // A sandbox with a network has the address that is attached under its Pod's name.
  predicate AddressOk(net: Network, node: Machine, box: Box)
  {
    IsNetworked(net, box) ==>
      box.sandbox.podName in node.attachments && box.sandbox.ip == IPText(node.attachments[box.sandbox.podName])
  }

  ghost predicate AddressesOk(net: Network, node: Machine)
  {
    forall id :: id in node.sandboxes ==> AddressOk(net, node, node.sandboxes[id])
  }

  lemma StepKeepsAddresses(net: Network, node: Machine, step: Step)
    requires Inv(net, node) && AddressesOk(net, node) && NamesDiffer(net, node) && Enabled(node, step)
    ensures AddressesOk(net, Next(net, node, step))
  {
    hide Inv, AddressesOk, NamesDiffer, LivePids, RunPodSandbox, StopPodSandbox;
    match step {
      case DoRunPodSandbox(podName, source, hostNetwork, launch) =>
        RunPodSandboxKeepsAddresses(net, node, podName, source, hostNetwork, launch);
      case DoStopPodSandbox(id, commands) =>
        StoppingKeepsAddresses(net, node, id, commands);
      case _ =>
        assert Next(net, node, step).sandboxes == node.sandboxes &&
          Next(net, node, step).attachments == node.attachments;
        SameSandboxesSameAddresses(net, node, Next(net, node, step));
    }
  }

  lemma SameSandboxesSameAddresses(net: Network, node: Machine, after: Machine)
    requires AddressesOk(net, node) && after.sandboxes == node.sandboxes && after.attachments == node.attachments
    ensures AddressesOk(net, after)
  {
    forall id | id in after.sandboxes ensures AddressOk(net, after, after.sandboxes[id]) {
      assert AddressOk(net, node, node.sandboxes[id]);
    }
  }

  // Stopping a sandbox deletes what is attached under its Pod's name, so no other sandbox
  // with a network may have that name.
  lemma StoppingKeepsAddresses(net: Network, node: Machine, id: string, commands: Commands)
    requires AddressesOk(net, node) && NamesDiffer(net, node)
    ensures AddressesOk(net, StopPodSandbox(net, node, id, commands).0)
  {
    hide IPText, StoppedAll;
    StoppingKeepsTheRest(node, NamesIn(node, id));
    if id in node.sandboxes {
      forall other | other in node.sandboxes && other != id
        ensures AddressOk(net, StopPodSandbox(net, node, id, commands).0, node.sandboxes[other])
      {
        assert AddressOk(net, node, node.sandboxes[other]);
        assert AreNetworked(net, node, id, other) ==>
          node.sandboxes[id].sandbox.podName != node.sandboxes[other].sandbox.podName;
      }
    }
  }

  lemma RunPodSandboxKeepsAddresses(net: Network, node: Machine, podName: string, source: C.Source, hostNetwork: bool,
                                    launch: Launch)
    requires AddressesOk(net, node)
    ensures AddressesOk(net, RunPodSandbox(net, node, podName, source, hostNetwork, launch).0)
  {
    hide FreeHost, SandboxID, IPText, HasBox;
  }

  // As long as every sandbox has the address attached under its name, two sandboxes share an
  // address exactly when they share the name.
  lemma AddressesAreNames(net: Network, node: Machine)
    requires Inv(net, node) && AddressesOk(net, node)
    ensures AddressesDiffer(net, node) <==> NamesDiffer(net, node)
  {
    hide SandboxesOk, ContainersOk, IPText;
    forall a, b | AreNetworked(net, node, a, b)
      ensures node.sandboxes[a].sandbox.ip == node.sandboxes[b].sandbox.ip <==>
              node.sandboxes[a].sandbox.podName == node.sandboxes[b].sandbox.podName
    {
      var boxA, boxB := node.sandboxes[a], node.sandboxes[b];
      assert AddressOk(net, node, boxA) && AddressOk(net, node, boxB);
      if boxA.sandbox.ip == boxB.sandbox.ip {
        IPTextsAreFaithful(node.attachments[boxA.sandbox.podName], node.attachments[boxB.sandbox.podName]);
      }
    }
  }

  lemma {:induction false} AddressesDifferExactlyWhenNamesDo(net: Network, node: Machine, steps: seq<Step>)
    requires Inv(net, node) && AddressesOk(net, node) && IsRun(net, node, steps)
    ensures AddressesDifferThroughout(net, node, steps) <==> NamesDifferThroughout(net, node, steps)
    decreases |steps|
  {
    hide Inv, Enabled, Next, AddressesOk, AddressesDiffer, NamesDiffer;
    AddressesAreNames(net, node);
    if NamesDiffer(net, node) && steps != [] {
      StepKeepsInv(net, node, steps[0]);
      StepKeepsAddresses(net, node, steps[0]);
      AddressesDifferExactlyWhenNamesDo(net, Next(net, node, steps[0]), steps[1..]);
    }
  }

  // Over a whole run no two sandboxes on the Pod network ever have the same address exactly
  // when no two of them ever have the same Pod name, one static and one not, at one time.
  lemma SandboxAddressesAreUnique(net: Network, steps: seq<Step>)
    requires IsRun(net, EMPTY, steps)
    ensures AddressesDifferThroughout(net, EMPTY, steps) <==> NamesDifferThroughout(net, EMPTY, steps)
  {
    EmptyIsOk(net);
    AddressesDifferExactlyWhenNamesDo(net, EMPTY, steps);
  }

  lemma IPTextsAreFaithful(a: nat, b: nat)
    requires IPText(a) == IPText(b)
    ensures a == b
  {
    DottedBytesIsInjective(a, b, 3);
  }

  // With one name for both sources they share the attachment, and so the address.
  lemma SharedNamesShareTheAddress(net: Network, podName: string, first: Launch, second: Launch)
    requires net.Bridge? && first.starts && first.ready && second.starts && second.ready && first.pid != second.pid
    requires first.commands.found && first.commands.linked
    requires FreeHost(map[], net.network, net.gateway, FIRST_POD_HOST).Some?
    ensures var one := RunPodSandbox(net, EMPTY, podName, C.Workload, false, first);
      var two := RunPodSandbox(net, one.0, podName, C.StaticPod, false, second);
      one.1.Success? && two.1.Success? && one.1.value.ip == two.1.value.ip && one.1.value.id != two.1.value.id
  {
    hide FreeHost, IPText;
    var one := RunPodSandbox(net, EMPTY, podName, C.Workload, false, first).0;
    assert !HasBox(EMPTY.sandboxes, podName, C.Workload);
    assert !HasBox(one.sandboxes, podName, C.StaticPod);
    if SandboxID(first.pid) == SandboxID(second.pid) {
      NumberedIsInjective("sandbox", '-', first.pid, "sandbox", second.pid);
    }
  }

  predicate Works(launch: Launch)
  {
    launch.starts && launch.ready && launch.commands.found && launch.commands.linked
  }

  lemma FirstSandboxOfASource(net: Network, node: Machine, podName: string, source: C.Source, launch: Launch)
    requires net.Bridge? && Works(launch) && !HasBox(node.sandboxes, podName, source)
    requires podName in node.attachments || FreeHost(node.attachments, net.network, net.gateway, FIRST_POD_HOST).Some?
    ensures var (after, r) := RunPodSandbox(net, node, podName, source, false, launch);
      var host := FreeHost(node.attachments, net.network, net.gateway, FIRST_POD_HOST);
      var ip := if podName in node.attachments then node.attachments[podName] else WithHost(net.network, host.value);
      && after.sandboxes ==
         node.sandboxes[SandboxID(launch.pid) := NewBox(podName, source, false, launch.pid, IPText(ip))]
      && after.attachments == node.attachments[podName := ip]
      && after.containers == node.containers && after.waiting == node.waiting
      && r == Success(NewBox(podName, source, false, launch.pid, IPText(ip)).sandbox)
  {
    hide FreeHost, IPText, HasBox, SandboxID;
  }

  // A shared name costs a third Pod its own address: when the static sandbox of a Pod `a` is
  // stopped, the address that the workload sandbox of `a` still has is given away, here to a
  // Pod `b` of another name.
  lemma StoppingOneGivesTheAddressAway(net: Network, a: string, b: string, first: Launch, second: Launch, third: Launch)
    requires net.Bridge? && a != b && Works(first) && Works(second) && Works(third)
    requires first.pid != second.pid && third.pid != first.pid
    requires FreeHost(map[], net.network, net.gateway, FIRST_POD_HOST).Some?
    ensures var steps := [
              DoRunPodSandbox(a, C.Workload, false, first), DoRunPodSandbox(a, C.StaticPod, false, second),
              DoStopPodSandbox(SandboxID(second.pid), second.commands), DoRunPodSandbox(b, C.Workload, false, third)];
            IsRun(net, EMPTY, steps) &&
              IsGivenAway(net, After(net, EMPTY, steps), SandboxID(first.pid), a, SandboxID(third.pid), b)
  {
    hide FreeHost, SandboxID, IsRun, After, Enabled, Next, IsGivenAway;
    var start, again := DoRunPodSandbox(a, C.Workload, false, first), DoRunPodSandbox(a, C.StaticPod, false, second);
    var stop, other :=
      DoStopPodSandbox(SandboxID(second.pid), second.commands), DoRunPodSandbox(b, C.Workload, false, third);
    TheFourSteps(net, a, b, first, second, third);
    var one := Next(net, EMPTY, start);
    var two := Next(net, one, again);
    var three := Next(net, two, stop);
    EmptyRun(net, Next(net, three, other));
    OneMore(net, three, other, []);
    assert [other] + [] == [other];
    OneMore(net, two, stop, [other]);
    assert [stop] + [other] == [stop, other];
    OneMore(net, one, again, [stop, other]);
    assert [again] + [stop, other] == [again, stop, other];
    OneMore(net, EMPTY, start, [again, stop, other]);
    assert [start] + [again, stop, other] == [start, again, stop, other];
  }

  // Two sandboxes of different names, `a` and `b`, with one address.
  ghost predicate IsGivenAway(net: Network, node: Machine, mine: string, a: string, other: string, b: string)
  {
    && AreNetworked(net, node, mine, other) && NamesDiffer(net, node)
    && node.sandboxes[mine].sandbox.podName == a && node.sandboxes[other].sandbox.podName == b
    && node.sandboxes[mine].sandbox.ip == node.sandboxes[other].sandbox.ip
  }

  lemma TheFourSteps(net: Network, a: string, b: string, first: Launch, second: Launch, third: Launch)
    requires net.Bridge? && a != b && Works(first) && Works(second) && Works(third)
    requires first.pid != second.pid && third.pid != first.pid
    requires FreeHost(map[], net.network, net.gateway, FIRST_POD_HOST).Some?
    ensures var start, again :=
      DoRunPodSandbox(a, C.Workload, false, first), DoRunPodSandbox(a, C.StaticPod, false, second);
      var stop, other :=
        DoStopPodSandbox(SandboxID(second.pid), second.commands), DoRunPodSandbox(b, C.Workload, false, third);
      && Enabled(EMPTY, start)
      && (var one := Next(net, EMPTY, start);
          && Enabled(one, again)
          && (var two := Next(net, one, again);
              && Enabled(two, stop)
              && (var three := Next(net, two, stop);
                  && Enabled(three, other)
                  && IsGivenAway(net, Next(net, three, other), SandboxID(first.pid), a, SandboxID(third.pid), b))))
  {
    hide FreeHost, IPText, RunPodSandbox, StopPodSandbox, HasBox, LivePids, IsGivenAway, SandboxID;
    IDsDiffer(first.pid, second.pid);
    IDsDiffer(first.pid, third.pid);
    var one := RunPodSandbox(net, EMPTY, a, C.Workload, false, first).0;
    OnlyStarted(net, EMPTY, a, C.Workload, first, []);
    OnlyStarted(net, one, a, C.StaticPod, second, [first.pid]);
    var two := RunPodSandbox(net, one, a, C.StaticPod, false, second).0;
    StoppingAStaticOne(net, two, SandboxID(second.pid), second.commands);
    var three := StopPodSandbox(net, two, SandboxID(second.pid), second.commands).0;
    assert three.sandboxes == one.sandboxes && three.attachments == map[];
    OnlyStarted(net, three, b, C.Workload, third, [first.pid]);
    var last := RunPodSandbox(net, three, b, C.Workload, false, third).0;
    TwoLeft(net, last, a, b, first.pid, third.pid,
      WithHost(net.network, FreeHost(map[], net.network, net.gateway, FIRST_POD_HOST).value));
  }

  lemma TwoLeft(net: Network, node: Machine, a: string, b: string, first: nat, third: nat, ip: nat)
    requires net.Bridge? && a != b && SandboxID(first) != SandboxID(third)
    requires node.sandboxes == map[SandboxID(first) := NewBox(a, C.Workload, false, first, IPText(ip))]
      [SandboxID(third) := NewBox(b, C.Workload, false, third, IPText(ip))]
    ensures IsGivenAway(net, node, SandboxID(first), a, SandboxID(third), b)
  {
    hide IPText, SandboxID;
  }

  lemma StoppingAStaticOne(net: Network, node: Machine, id: string, commands: Commands)
    requires net.Bridge? && id in node.sandboxes && !node.sandboxes[id].hostNetwork && commands.linked
    requires node.containers == map[]
    ensures var after := StopPodSandbox(net, node, id, commands).0;
      && after.sandboxes == node.sandboxes - {id}
      && after.attachments == node.attachments - {node.sandboxes[id].sandbox.podName}
      && after.waiting == node.waiting && after.containers == map[]
  {
    assert NamesIn(node, id) == {};
  }

  lemma EmptyRun(net: Network, node: Machine)
    ensures IsRun(net, node, []) && After(net, node, []) == node
  {
  }

  lemma IDsDiffer(a: nat, b: nat)
    requires a != b
    ensures SandboxID(a) != SandboxID(b)
  {
    if SandboxID(a) == SandboxID(b) {
      NumberedIsInjective("sandbox", '-', a, "sandbox", b);
    }
  }

  // A first sandbox of its Pod and source, started with those processes `pids` running.
  lemma OnlyStarted(net: Network, node: Machine, podName: string, source: C.Source, launch: Launch, pids: seq<nat>)
    requires net.Bridge? && Works(launch) && launch.pid !in pids
    requires node.waiting == map[]
    requires forall id :: id in node.sandboxes ==> node.sandboxes[id].pid in pids
    requires forall id :: id in node.sandboxes ==> !IsBoxOf(node.sandboxes[id], podName, source)
    requires podName in node.attachments || FreeHost(node.attachments, net.network, net.gateway, FIRST_POD_HOST).Some?
    ensures Enabled(node, DoRunPodSandbox(podName, source, false, launch))
    ensures var after := RunPodSandbox(net, node, podName, source, false, launch).0;
      var host := FreeHost(node.attachments, net.network, net.gateway, FIRST_POD_HOST);
      var ip := if podName in node.attachments then node.attachments[podName] else WithHost(net.network, host.value);
      && after.sandboxes ==
         node.sandboxes[SandboxID(launch.pid) := NewBox(podName, source, false, launch.pid, IPText(ip))]
      && after.attachments == node.attachments[podName := ip]
      && after.containers == node.containers && after.waiting == map[]
  {
    hide FreeHost, IPText, SandboxID, RunPodSandbox;
    FirstSandboxOfASource(net, node, podName, source, launch);
  }

  lemma OneMore(net: Network, node: Machine, step: Step, rest: seq<Step>)
    requires Enabled(node, step) && IsRun(net, Next(net, node, step), rest)
    ensures IsRun(net, node, [step] + rest)
    ensures After(net, node, [step] + rest) == After(net, Next(net, node, step), rest)
  {
    assert ([step] + rest)[1..] == rest;
  }
}
