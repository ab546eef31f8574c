// The runtime's methods over its maps, each proved against the step it makes.
module RuntimeService {
  import opened Text
  import opened Api
  import opened Cni
  import C = Cri
  import opened M = Runtime

  class Runtime {
    const network: LinuxCni?
    var containers: map<string, Managed>
    var sandboxes: map<string, Box>
    var waiting: map<nat, Process>
    var nextDone: nat
    var watchers: map<nat, bool>

    function Net(): Network
    {
      if network == null then NoNetwork else Bridge(network.network, network.gateway)
    }

    function Held(): Machine
      reads this, network
    {
      Machine(containers, sandboxes, waiting, nextDone, if network == null then map[] else network.pods, watchers)
    }

    ghost predicate Valid()
      reads this, network
    {
      Inv(Net(), Held())
    }

    constructor (network: LinuxCni?)
      requires network != null ==> network.pods == map[]
      ensures this.network == network && Held() == EMPTY && Valid()
    {
      this.network := network;
      containers, sandboxes, waiting, nextDone, watchers := map[], map[], map[], 0, map[];
      new;
      EmptyIsOk(Net());
    }

    method List() returns (listed: map<string, C.Container>)
      ensures listed == map name | name in containers :: containers[name].container
    {
      listed := map name | name in containers :: containers[name].container;
    }

    method ListSandboxes() returns (listed: map<string, C.Sandbox>)
      ensures listed == map id | id in sandboxes :: sandboxes[id].sandbox
    {
      listed := map id | id in sandboxes :: sandboxes[id].sandbox;
    }

    method Inspect(podName: string) returns (r: Result<C.Container, C.CriError>)
      ensures r == if podName in containers then Success(containers[podName].container) else Failure(C.NotFound)
    {
      return if podName in containers then Success(containers[podName].container) else Failure(C.NotFound);
    }

    method Publish()
      modifies this`watchers
      ensures watchers == Published(old(watchers))
    {
      var remaining := watchers.Keys;
      while remaining != {}
        invariant remaining <= watchers.Keys && watchers.Keys == old(watchers).Keys
        invariant forall w :: w in watchers ==> watchers[w] == (w !in remaining || old(watchers)[w])
        decreases remaining
      {
        var w :| w in remaining;
        if !watchers[w] {
          watchers := watchers[w := true];
        }
        remaining := remaining - {w};
      }
    }

    // A watcher is a new channel.
    method Watch(watcher: nat)
      requires watcher !in watchers
      modifies this`watchers
      ensures watchers == old(watchers)[watcher := false]
    {
      watchers := watchers[watcher := false];
    }

    // The goroutine of one container process, once the process is over.
    method WaitForContainer(done: nat)
      requires done in waiting && Valid()
      modifies this
      ensures Held() == Exited(old(Held()), done) && Valid()
    {
      ExitKeepsInv(Net(), Held(), done);
      var podName := waiting[done].podName;
      waiting := waiting - {done};
      if podName in containers && containers[podName].done == done {
        var managed := containers[podName];
        containers := containers[podName := managed.(container := managed.container.(state := C.Stopped), pid := None)];
        Publish();
      }
    }

    method Stop(podName: string) returns (error: Option<C.CriError>)
      requires Valid()
      modifies this
      ensures (Held(), error) == StopContainer(old(Held()), podName)
      ensures Valid()
    {
      if podName !in containers {
        return Some(C.NotFound);
      }
      assert ContainerOk(Held(), podName);
      var managed := containers[podName];
      if managed.pid.None? {
        return None;
      }
      WaitForContainer(managed.done);
      return None;
    }

    method RunPodSandbox(podName: string, source: C.Source, hostNetwork: bool, launch: Launch)
        returns (r: Result<C.Sandbox, C.CriError>)
      requires Valid() && launch.pid !in LivePids(Held())
      modifies this, network
      ensures (Held(), r) == M.RunPodSandbox(Net(), old(Held()), podName, source, hostNetwork, launch)
      ensures Valid()
    {
      hide Inv, SandboxID, LivePids, FreeHost, HasBox, IPText;
      RunPodSandboxKeepsInv(Net(), Held(), podName, source, hostNetwork, launch);
      var found := FindBox(podName, source);
      if found.Some? {
        return Success(sandboxes[found.value].sandbox);
      }
      if !launch.starts {
        return Failure(C.StartFailed);
      }
      var ip := "";
      if network != null && !hostNetwork {
        FailedAddsChangeNothing(Net(), Held(), podName, launch.commands);
        var added := network.Add(podName, launch.commands);
        if added.Failure? {
          return Failure(C.NetworkFailed);
        }
        ip := IPText(added.value);
      }
      if !launch.ready {
        return Failure(C.StartFailed);
      }
      var box := NewBox(podName, source, hostNetwork, launch.pid, ip);
      sandboxes := sandboxes[box.sandbox.id := box];
      Publish();
      return Success(box.sandbox);
    }

    method FindBox(podName: string, source: C.Source) returns (found: Option<string>)
      requires Valid()
      ensures if HasBox(sandboxes, podName, source) then found == Some(BoxOf(sandboxes, podName, source))
        else found.None?
    {
      var remaining := sandboxes.Keys;
      while remaining != {}
        invariant remaining <= sandboxes.Keys
        invariant forall id :: id in sandboxes && id !in remaining ==> !IsBoxOf(sandboxes[id], podName, source)
        decreases remaining
      {
        var id :| id in remaining;
        remaining := remaining - {id};
        if IsBoxOf(sandboxes[id], podName, source) {
          assert SamePodAndSource(sandboxes[id], sandboxes[BoxOf(sandboxes, podName, source)]);
          return Some(id);
        }
      }
      return None;
    }

    method RunInSandbox(podName: string, sandboxID: string, launch: Launch) returns (r: Result<C.Container, C.CriError>)
      requires Valid() && launch.pid !in LivePids(Held())
      modifies this
      ensures (Held(), r) == M.RunInSandbox(old(Held()), podName, sandboxID, launch)
      ensures Valid()
    {
      RunInSandboxKeepsInv(Net(), Held(), podName, sandboxID, launch);
      hide Inv;
      if sandboxID !in sandboxes || sandboxes[sandboxID].sandbox.state != C.Running {
        return Failure(C.SandboxNotRunning);
      }
      if !launch.starts {
        return Failure(C.StartFailed);
      }
      var container := C.Container(ContainerID(launch.pid), podName, sandboxID, C.Running);
      containers := containers[podName := Managed(container, Some(launch.pid), nextDone)];
      waiting := waiting[nextDone := Process(podName, launch.pid)];
      nextDone := nextDone + 1;
      Publish();
      return Success(container);
    }

    method StopPodSandbox(id: string, commands: Commands) returns (error: Option<C.CriError>)
      requires Valid()
      modifies this, network
      ensures (Held(), error) == M.StopPodSandbox(Net(), old(Held()), id, commands)
      ensures Valid()
    {
      StopPodSandboxKeepsInv(Net(), Held(), id, commands);
      if id !in sandboxes {
        return Some(C.NotFound);
      }
      var box := sandboxes[id];
      StoppingKeepsTheRest(Held(), NamesIn(Held(), id));
      StopContainersIn(id);
      hide Inv, StoppedAll, NamesIn, Deleted;
      if network != null && !box.hostNetwork {
        var _ := network.Del(box.sandbox.podName, commands);
      }
      sandboxes := sandboxes - {id};
      Publish();
      return None;
    }

    // The loop over the containers of a sandbox, in the order the map gives them.
    method StopContainersIn(id: string)
      requires Valid()
      modifies this
      ensures Held() == StoppedAll(old(Held()), NamesIn(old(Held()), id)) && Valid()
    {
      hide Inv, LivePids, NamesIn, StoppedAll, Stopped;
      ghost var before := Held();
      ghost var visited: set<string> := {};
      var remaining := containers.Keys;
      NobodyStopped(before);
      while remaining != {}
        invariant Valid() && remaining <= before.containers.Keys && visited == before.containers.Keys - remaining
        invariant Held() == StoppedAll(before, visited * NamesIn(before, id))
        decreases remaining
      {
        var name :| name in remaining;
        assert name in before.containers;
        StoppingOneMore(Net(), before, visited * NamesIn(before, id), name);
        OneMoreVisited(before, id, visited, name);
        if containers[name].container.sandboxID == id {
          var _ := Stop(name);
        }
        visited := visited + {name};
        remaining := remaining - {name};
      }
      assert visited == before.containers.Keys;
    }
  }

  lemma OneMoreVisited(node: Machine, id: string, visited: set<string>, name: string)
    requires name in node.containers
    ensures var seen := visited * NamesIn(node, id);
      (visited + {name}) * NamesIn(node, id) ==
        if node.containers[name].container.sandboxID == id then seen + {name} else seen
  {
  }

  lemma NobodyStopped(node: Machine)
    ensures StoppedAll(node, {}) == node
    ensures forall id: string :: {} * NamesIn(node, id) == {}
    ensures forall id :: node.containers.Keys * NamesIn(node, id) == NamesIn(node, id)
  {
  }

  lemma StoppingOneMore(net: Network, node: Machine, names: set<string>, name: string)
    requires Inv(net, node) && name in node.containers && name !in names
    ensures name in StoppedAll(node, names).containers
    ensures StoppedAll(node, names).containers[name] == node.containers[name]
    ensures Stopped(StoppedAll(node, names), name) == StoppedAll(node, names + {name})
  {
    hide AttachmentsOk, SandboxesOk, LivePids, Published;
    assert ContainerOk(node, name);
    forall other | other in names && IsUp(node, other)
      ensures IsUp(node, name) ==> node.containers[other].done != node.containers[name].done
    {
      assert ContainerOk(node, other);
    }
    var one, all := Stopped(StoppedAll(node, names), name), StoppedAll(node, names + {name});
    assert one.containers == all.containers;
    assert one.waiting == all.waiting;
    assert one.watchers == all.watchers by { PublishedTwice(node.watchers); }
  }

  lemma PublishedTwice(watchers: map<nat, bool>)
    ensures Published(Published(watchers)) == Published(watchers)
  {
  }
}
