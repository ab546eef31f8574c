// What the start of a Pod needs, and what it takes from the network.
module Starts {
  import opened Api
  import opened Bootstrap
  import opened Cni
  import C = Cri
  import opened M = Runtime
  import opened Services

  // The hosts that the network plugin can still give away.
  function FreeHosts(net: Network, node: Machine): set<nat>
  {
    if net.NoNetwork? then {}
    else set h: nat | FIRST_POD_HOST <= h < LAST_HOST && IsFree(node.attachments, net.network, net.gateway, h)
  }

  // A sandbox of the Pod would have to be attached to the network first.
  predicate NeedsAddress(net: Network, node: Machine, pod: Pod, source: C.Source)
  {
    && net.Bridge? && !pod.spec.hostNetwork && pod.meta.name !in node.attachments
    && !HasBox(node.sandboxes, pod.meta.name, source)
  }

  // What the operating system has to do for the sandbox, unless there is one; a free address
  // aside.
  predicate BoxWorks(net: Network, node: Machine, pod: Pod, source: C.Source, launch: Launch)
  {
    || HasBox(node.sandboxes, pod.meta.name, source)
    || (launch.starts && launch.ready &&
        (NeedsAddress(net, node, pod, source) ==> launch.commands.found && launch.commands.linked))
  }

  function OneIf(b: bool): nat { if b then 1 else 0 }

  lemma FreeHostIsFree(net: Network, node: Machine)
    requires net.Bridge?
    ensures FreeHosts(net, node) != {} <==> FreeHost(node.attachments, net.network, net.gateway, FIRST_POD_HOST).Some?
  {
    hide IsFree;
    var found := FreeHost(node.attachments, net.network, net.gateway, FIRST_POD_HOST);
    if found.Some? {
      assert found.value in FreeHosts(net, node);
    }
  }

  lemma OneHostLess(net: Network, node: Machine, name: string, host: nat)
    requires net.Bridge? && name !in node.attachments && host in FreeHosts(net, node)
    ensures var after := node.(attachments := node.attachments[name := WithHost(net.network, host)]);
      FreeHosts(net, after) == FreeHosts(net, node) - {host}
  {
    var after := node.(attachments := node.attachments[name := WithHost(net.network, host)]);
    forall h: nat ensures IsFree(after.attachments, net.network, net.gateway, h) <==>
      IsFree(node.attachments, net.network, net.gateway, h) && h != host
    {
      assert after.attachments[name] == WithHost(net.network, host);
      if IsUsed(node.attachments, WithHost(net.network, h)) {
        var other :| other in node.attachments && node.attachments[other] == WithHost(net.network, h);
        assert other in after.attachments && after.attachments[other] == WithHost(net.network, h);
      }
    }
  }

  lemma SameHosts(net: Network, node: Machine, after: Machine)
    requires after.attachments == node.attachments
    ensures FreeHosts(net, after) == FreeHosts(net, node)
  {
  }

  lemma AttachingTakesAHost(net: Network, node: Machine, name: string, commands: Commands)
    requires net.Bridge? && name !in node.attachments
    ensures var (attachments, ip) := Added(node.attachments, net.network, net.gateway, name, commands);
      && (ip.Success? <==> commands.found && commands.linked && FreeHosts(net, node) != {})
      && |FreeHosts(net, node.(attachments := attachments))| + OneIf(ip.Success?) == |FreeHosts(net, node)|
  {
    hide FreeHosts, IsFree, WithHost;
    FreeHostIsFree(net, node);
    var (attachments, ip) := Added(node.attachments, net.network, net.gateway, name, commands);
    if ip.Success? {
      var host := FreeHost(node.attachments, net.network, net.gateway, FIRST_POD_HOST).value;
      FreeHostIsListed(net, node, host);
      OneHostLess(net, node, name, host);
    } else {
      SameHosts(net, node, node.(attachments := attachments));
    }
  }

  lemma FreeHostIsListed(net: Network, node: Machine, host: nat)
    requires net.Bridge? && FIRST_POD_HOST <= host < LAST_HOST
    requires IsFree(node.attachments, net.network, net.gateway, host)
    ensures host in FreeHosts(net, node)
  {
  }

  // A sandbox is had exactly if it is there or its start works. It takes one address if it
  // needs one and none otherwise, a failed start none or one. A first sandbox has an address
  // exactly when it is on the Pod network.
  lemma BoxStartsExactly(net: Network, node: Machine, pod: Pod, source: C.Source, launch: Launch)
    ensures var (after, r) := RunPodSandbox(net, node, pod.meta.name, source, pod.spec.hostNetwork, launch);
      var taken := OneIf(NeedsAddress(net, node, pod, source));
      && (r.Success? <==>
            BoxWorks(net, node, pod, source, launch) &&
            (NeedsAddress(net, node, pod, source) ==> FreeHosts(net, node) != {}))
      && |FreeHosts(net, after)| + taken >= |FreeHosts(net, node)|
      && (r.Success? ==> |FreeHosts(net, after)| + taken == |FreeHosts(net, node)|)
      && (r.Success? && !HasBox(node.sandboxes, pod.meta.name, source) ==>
            (r.value.ip == "" <==> net.NoNetwork? || pod.spec.hostNetwork))
  {
    hide HasBox, FreeHosts, Added, NewBox;
    var name := pod.meta.name;
    var after := RunPodSandbox(net, node, name, source, pod.spec.hostNetwork, launch).0;
    NewBoxAddress(name, source, pod.spec.hostNetwork, launch.pid);
    if net.NoNetwork? || pod.spec.hostNetwork || HasBox(node.sandboxes, name, source) || !launch.starts {
      SameHosts(net, node, after);
    } else {
      var (attachments, ip) := Added(node.attachments, net.network, net.gateway, name, launch.commands);
      if name in node.attachments {
        AttachedAlready(node.attachments, net.network, net.gateway, name, launch.commands);
        SameHosts(net, node, after);
      } else {
        AttachingTakesAHost(net, node, name, launch.commands);
        FailedAddsChangeNothing(net, node, name, launch.commands);
        SameHosts(net, node.(attachments := attachments), after);
      }
    }
  }

  lemma NewBoxAddress(podName: string, source: C.Source, hostNetwork: bool, pid: nat)
    ensures forall ip :: NewBox(podName, source, hostNetwork, pid, ip).sandbox.ip == ip
    ensures forall ip :: IPText(ip) != ""
  {
    forall ip ensures IPText(ip) != "" {
      assert DottedBytes(ip, 3) != "";
    }
  }

  lemma AttachedAlready(pods: Attachments, network: nat, gateway: nat, name: string, commands: Commands)
    requires name in pods
    ensures Added(pods, network, gateway, name, commands) == (pods, Success(pods[name]))
  {
  }

  lemma ContainerStartsExactly(node: Machine, podName: string, id: string, launch: Launch)
    requires id in node.sandboxes && node.sandboxes[id].sandbox.state == C.Running
    ensures var (after, r) := RunInSandbox(node, podName, id, launch);
      (r.Success? <==> launch.starts) && after.attachments == node.attachments
  {
  }
}
