// The CNI plugin: one address per Pod on a node, kept in a map, and what the plugins of all
// nodes together guarantee.
module Cni {
  import opened Text
  import opened Api
  import opened Bootstrap

  const FIRST_POD_HOST: nat := 2
  const LAST_HOST: nat := 255

  datatype CniError = GatewayOutside | BadNamespace | LinkFailed | NoAddressLeft

  // Every attachment of one plugin has the plugin's own gateway, so only the address is kept.
  type Attachments = map<string, nat>

  predicate IsUsed(pods: Attachments, ip: nat) { exists name :: name in pods && pods[name] == ip }

  // Host `host` of the plugin's network, unless it is the gateway or taken.
  predicate IsFree(pods: Attachments, network: nat, gateway: nat, host: nat)
  {
    WithHost(network, host) != gateway && !IsUsed(pods, WithHost(network, host))
  }

  // The least free host from `host` on.
  function FreeHost(pods: Attachments, network: nat, gateway: nat, host: nat): (r: Option<nat>)
    requires host <= LAST_HOST
    ensures r.Some? ==> host <= r.value < LAST_HOST && IsFree(pods, network, gateway, r.value)
    ensures r.Some? ==> forall h :: host <= h < r.value ==> !IsFree(pods, network, gateway, h)
    ensures r.None? <==> forall h :: host <= h < LAST_HOST ==> !IsFree(pods, network, gateway, h)
    decreases LAST_HOST - host
  {
    if host == LAST_HOST then None
    else if IsFree(pods, network, gateway, host) then Some(host)
    else FreeHost(pods, network, gateway, host + 1)
  }

  // What the operating system does to the commands of one call: `found` says that the network
  // namespace path names a process, `linked` that every command succeeds.
  datatype Commands = Commands(found: bool, linked: bool)

  function Added(pods: Attachments, network: nat, gateway: nat, name: string, commands: Commands)
      : (Attachments, Result<nat, CniError>)
  {
    if name in pods then (pods, Success(pods[name]))
    else if !commands.found then (pods, Failure(BadNamespace))
    else
      var host := FreeHost(pods, network, gateway, FIRST_POD_HOST);
      if host.None? then (pods, Failure(NoAddressLeft))
      else if !commands.linked then (pods, Failure(LinkFailed))
      else (pods[name := WithHost(network, host.value)], Success(WithHost(network, host.value)))
  }

  function Deleted(pods: Attachments, name: string, commands: Commands): (Attachments, Option<CniError>)
  {
    if name !in pods then (pods, None)
    else if !commands.linked then (pods, Some(LinkFailed))
    else (pods - {name}, None)
  }

  // ---------- one node ----------

  // Addresses are host addresses of the network, none is the gateway, and no two Pods share one.
  ghost predicate AttachmentsOk(pods: Attachments, network: nat, gateway: nat)
  {
    && (forall name :: name in pods ==> IsPodAddress(network, gateway, pods[name]))
    && (forall a, b :: a in pods && b in pods && pods[a] == pods[b] ==> a == b)
  }

  predicate IsPodAddress(network: nat, gateway: nat, ip: nat)
  {
    WithHost(network, FIRST_POD_HOST) <= ip < WithHost(network, LAST_HOST) && ip != gateway
  }

  lemma AddingKeepsOk(pods: Attachments, network: nat, gateway: nat, name: string, commands: Commands)
    requires AttachmentsOk(pods, network, gateway)
    ensures AttachmentsOk(Added(pods, network, gateway, name, commands).0, network, gateway)
  {
  }

  lemma DeletingKeepsOk(pods: Attachments, network: nat, gateway: nat, name: string, commands: Commands)
    requires AttachmentsOk(pods, network, gateway)
    ensures AttachmentsOk(Deleted(pods, name, commands).0, network, gateway)
  {
  }

  // With the gateway at host 1, an address is refused exactly when 253 Pods are attached.
  lemma ExhaustedExactlyWhenFull(pods: Attachments, network: nat, gateway: nat)
    requires AttachmentsOk(pods, network, gateway) && gateway == WithHost(network, GATEWAY_HOST)
    ensures |pods| <= 253
    ensures FreeHost(pods, network, gateway, FIRST_POD_HOST).None? <==> |pods| == 253
  {
    HostsOf(pods, network, gateway, LAST_HOST);
    var below := Below(pods, WithHost(network, LAST_HOST));
    assert below == pods.Keys;
    assert |pods| == |pods.Keys|;
  }

  // What an Add does, by cases: a Pod that is attached keeps its address; another one is refused
  // for its namespace, for want of an address with 253 Pods attached, or for a failed command, in
  // this order, with nothing recorded; else it gets the least host address that nobody has.
  lemma AddsAreExact(pods: Attachments, network: nat, gateway: nat, name: string, commands: Commands)
    requires AttachmentsOk(pods, network, gateway) && gateway == WithHost(network, GATEWAY_HOST)
    ensures var (after, r) := Added(pods, network, gateway, name, commands);
      && (r.Success? <==> name in pods || (commands.found && commands.linked && |pods| < 253))
      && (name in pods ==> r == Success(pods[name]))
      && (r == Failure(BadNamespace) <==> name !in pods && !commands.found)
      && (r == Failure(NoAddressLeft) <==> name !in pods && commands.found && |pods| == 253)
      && (r == Failure(LinkFailed) <==> name !in pods && commands.found && |pods| < 253 && !commands.linked)
      && (r.Failure? || name in pods ==> after == pods)
      && (r.Success? && name !in pods ==>
            after == pods[name := r.value] && IsLeastFree(pods, network, gateway, r.value))
  {
    hide AttachmentsOk, IsLeastFree, FreeHost, IsFree;
    ExhaustedExactlyWhenFull(pods, network, gateway);
    if FreeHost(pods, network, gateway, FIRST_POD_HOST).Some? {
      FreeHostIsLeastFree(pods, network, gateway);
    }
  }

  // The address of a host from 2 to 254 that is not the gateway and that nobody has, all lower
  // ones being taken or the gateway's.
  predicate IsLeastFree(pods: Attachments, network: nat, gateway: nat, ip: nat)
  {
    var base := network - network % 256;
    && base + 2 <= ip <= base + 254 && ip != gateway && ip !in pods.Values
    && forall lower :: base + 2 <= lower < ip ==> lower == gateway || lower in pods.Values
  }

  lemma FreeHostIsLeastFree(pods: Attachments, network: nat, gateway: nat)
    requires FreeHost(pods, network, gateway, FIRST_POD_HOST).Some?
    ensures IsLeastFree(pods, network, gateway,
      WithHost(network, FreeHost(pods, network, gateway, FIRST_POD_HOST).value))
  {
    var base, host := network - network % 256, FreeHost(pods, network, gateway, FIRST_POD_HOST).value;
    hide FreeHost;
    forall lower | base + 2 <= lower < base + host ensures lower == gateway || lower in pods.Values {
      assert lower == WithHost(network, lower - base) && !IsFree(pods, network, gateway, lower - base);
    }
  }

  // A Del fails exactly when the Pod is attached and the command fails, and then changes nothing;
  // otherwise that Pod, and no other, is not attached afterwards.
  lemma DelsAreExact(pods: Attachments, name: string, commands: Commands)
    ensures var (after, error) := Deleted(pods, name, commands);
      && (error == Some(LinkFailed) <==> name in pods && !commands.linked)
      && (error.Some? ==> error == Some(LinkFailed) && after == pods)
      && (error.None? ==> name !in after)
      && (forall other :: other != name ==>
            (other in after <==> other in pods) && (other in pods ==> after[other] == pods[other]))
  {
  }

  function Below(pods: Attachments, limit: nat): set<string>
  {
    set name | name in pods && pods[name] < limit
  }

  // The Pods below host `n` are as many as the hosts from 2 to n - 1 that are taken.
  lemma {:induction false} HostsOf(pods: Attachments, network: nat, gateway: nat, n: nat)
    requires AttachmentsOk(pods, network, gateway) && gateway == WithHost(network, GATEWAY_HOST)
    requires FIRST_POD_HOST <= n <= LAST_HOST
    ensures |Below(pods, WithHost(network, n))| <= n - FIRST_POD_HOST
    ensures |Below(pods, WithHost(network, n))| == n - FIRST_POD_HOST <==>
            forall h :: FIRST_POD_HOST <= h < n ==> !IsFree(pods, network, gateway, h)
  {
    if n == FIRST_POD_HOST {
      assert Below(pods, WithHost(network, n)) == {};
    } else {
      HostsOf(pods, network, gateway, n - 1);
      OneMoreHost(pods, network, gateway, n - 1);
    }
  }

  lemma OneMoreHost(pods: Attachments, network: nat, gateway: nat, n: nat)
    requires AttachmentsOk(pods, network, gateway) && gateway == WithHost(network, GATEWAY_HOST)
    requires FIRST_POD_HOST <= n < LAST_HOST
    ensures |Below(pods, WithHost(network, n + 1))| ==
            |Below(pods, WithHost(network, n))| + if IsFree(pods, network, gateway, n) then 0 else 1
  {
    var ip := WithHost(network, n);
    var less, more := Below(pods, ip), Below(pods, WithHost(network, n + 1));
    if IsFree(pods, network, gateway, n) {
      forall name | name in more ensures name in less {
        assert pods[name] != ip;
      }
      assert more == less;
    } else {
      var name :| name in pods && pods[name] == ip;
      assert more == less + {name};
    }
  }

  // ---------- all nodes ----------

  datatype Call = Add(node: int, pod: string, commands: Commands) | Del(node: int, pod: string, commands: Commands)

  // The attachments of each node, by node index.
  type Cluster = map<int, Attachments>

  predicate IsNode(node: int) { IsInt(node) && NodeNetwork(node).Success? }

  function PodsOn(cluster: Cluster, node: int): Attachments { if node in cluster then cluster[node] else map[] }

  function After(cluster: Cluster, call: Call): Cluster
  {
    if !IsNode(call.node) then cluster
    else
      var network, gateway := NodeNetwork(call.node).value.0.address, NodeNetwork(call.node).value.1;
      var pods := PodsOn(cluster, call.node);
      match call
      case Add(node, pod, commands) => cluster[node := Added(pods, network, gateway, pod, commands).0]
      case Del(node, pod, commands) => cluster[node := Deleted(pods, pod, commands).0]
  }

  function AfterAll(cluster: Cluster, calls: seq<Call>): Cluster
  {
    if calls == [] then cluster else After(AfterAll(cluster, calls[..|calls| - 1]), calls[|calls| - 1])
  }

  ghost predicate ClusterOk(cluster: Cluster)
  {
    forall node :: node in cluster ==>
      IsNode(node) && AttachmentsOk(cluster[node], NodeNetwork(node).value.0.address, NodeNetwork(node).value.1)
  }

  lemma CallsKeepTheClusterOk(cluster: Cluster, call: Call)
    requires ClusterOk(cluster)
    ensures ClusterOk(After(cluster, call))
  {
    hide AttachmentsOk, Added, Deleted, NodeNetwork;
    if IsNode(call.node) {
      var network, gateway := NodeNetwork(call.node).value.0.address, NodeNetwork(call.node).value.1;
      NothingAttachedIsOk(network, gateway);
      AddingKeepsOk(PodsOn(cluster, call.node), network, gateway, call.pod, call.commands);
      DeletingKeepsOk(PodsOn(cluster, call.node), network, gateway, call.pod, call.commands);
    }
  }

  lemma NothingAttachedIsOk(network: nat, gateway: nat)
    ensures AttachmentsOk(map[], network, gateway)
  {
  }

  lemma {:induction false} ClustersStayOk(calls: seq<Call>)
    ensures ClusterOk(AfterAll(map[], calls))
  {
    hide ClusterOk, After;
    if calls == [] {
      assert ClusterOk(map[]) by { EmptyClusterIsOk(); }
    } else {
      ClustersStayOk(calls[..|calls| - 1]);
      CallsKeepTheClusterOk(AfterAll(map[], calls[..|calls| - 1]), calls[|calls| - 1]);
    }
  }

  lemma EmptyClusterIsOk()
    ensures ClusterOk(map[])
  {
  }

  lemma PodAddressesAreInTheirNetwork(node: int, ip: nat)
    requires IsNode(node) && IsPodAddress(NodeNetwork(node).value.0.address, NodeNetwork(node).value.1, ip)
    ensures Contains(NodeNetwork(node).value.0, ip)
  {
    Sizes();
    NodeNetworksAreExact(node);
  }

  predicate Attached(cluster: Cluster, node: int, pod: string) { node in cluster && pod in cluster[node] }

  // Over any calls on any nodes: no two live attachments share an address, an address lies
  // in its own node's network, and none is the gateway of any node.
  lemma PodAddressesAreUnique(calls: seq<Call>, a: int, podA: string, b: int, podB: string)
    requires var cluster := AfterAll(map[], calls); Attached(cluster, a, podA) && Attached(cluster, b, podB)
    ensures var cluster := AfterAll(map[], calls);
      && IsNode(a) && Contains(NodeNetwork(a).value.0, cluster[a][podA])
      && (cluster[a][podA] == cluster[b][podB] <==> a == b && podA == podB)
      && (forall node :: IsNode(node) ==> cluster[a][podA] != NodeNetwork(node).value.1)
  {
    var cluster := AfterAll(map[], calls);
    hide AfterAll, NodeNetwork, After;
    ClustersStayOk(calls);
    PodAddressesAreInTheirNetwork(a, cluster[a][podA]);
    PodAddressesAreInTheirNetwork(b, cluster[b][podB]);
    if cluster[a][podA] == cluster[b][podB] {
      NodeNetworksAreDisjoint(a, b, cluster[a][podA]);
    }
    forall node | IsNode(node) ensures cluster[a][podA] != NodeNetwork(node).value.1 {
      NodeNetworksAreExact(node);
      if cluster[a][podA] == NodeNetwork(node).value.1 {
        NodeNetworksAreDisjoint(a, node, cluster[a][podA]);
      }
    }
  }

  // The call deletes the Pod on the node, and its command succeeds.
  predicate Detaches(call: Call, node: int, pod: string)
  {
    call.Del? && call.node == node && call.pod == pod && call.commands.linked
  }

  // A Pod keeps its address until it is deleted on its node, a deletion that fails included:
  // adding it again, whatever has happened in between, returns the same one and changes nothing.
  lemma {:induction false} AddressesAreStable(cluster: Cluster, calls: seq<Call>, node: int, pod: string,
                                              again: Commands)
    requires Attached(cluster, node, pod) && IsNode(node)
    requires forall i :: 0 <= i < |calls| ==> !Detaches(calls[i], node, pod)
    ensures var later := AfterAll(cluster, calls);
      && Attached(later, node, pod) && later[node][pod] == cluster[node][pod]
      && Added(later[node], NodeNetwork(node).value.0.address, NodeNetwork(node).value.1, pod, again) ==
         (later[node], Success(cluster[node][pod]))
  {
    if calls != [] {
      AddressesAreStable(cluster, calls[..|calls| - 1], node, pod, again);
      OneCallKeepsTheAddress(AfterAll(cluster, calls[..|calls| - 1]), calls[|calls| - 1], node, pod);
    }
  }

  // A deletion whose command succeeds gives the address back, and nothing else.
  lemma DetachingFreesTheAddress(cluster: Cluster, call: Call, node: int, pod: string)
    requires ClusterOk(cluster) && Attached(cluster, node, pod) && Detaches(call, node, pod)
    ensures var after, network, gateway :=
      After(cluster, call), NodeNetwork(node).value.0.address, NodeNetwork(node).value.1;
      && !Attached(after, node, pod) && !IsUsed(PodsOn(after, node), cluster[node][pod])
      && (forall other, name :: (other, name) != (node, pod) ==>
            (Attached(after, other, name) <==> Attached(cluster, other, name)) &&
            (Attached(cluster, other, name) ==> after[other][name] == cluster[other][name]))
  {
    hide NodeNetwork, FreeHost;
  }

  lemma OneCallKeepsTheAddress(cluster: Cluster, call: Call, node: int, pod: string)
    requires Attached(cluster, node, pod) && !Detaches(call, node, pod)
    ensures Attached(After(cluster, call), node, pod) && After(cluster, call)[node][pod] == cluster[node][pod]
  {
    hide NodeNetwork, FreeHost;
  }

  // ---------- the plugin ----------

  class LinuxCni {
    const network: nat
    const gateway: nat
    var pods: Attachments

    constructor (network: nat, gateway: nat)
      ensures this.network == network && this.gateway == gateway && pods == map[]
    {
      this.network, this.gateway, pods := network, gateway, map[];
    }

    method Add(name: string, commands: Commands) returns (r: Result<nat, CniError>)
      modifies this
      ensures (pods, r) == Added(old(pods), network, gateway, name, commands)
    {
      if name in pods {
        return Success(pods[name]);
      }
      if !commands.found {
        return Failure(BadNamespace);
      }
      var ip := NextIP();
      if ip.None? {
        return Failure(NoAddressLeft);
      }
      if !commands.linked {
        return Failure(LinkFailed);
      }
      pods := pods[name := ip.value];
      return Success(ip.value);
    }

    method Del(name: string, commands: Commands) returns (error: Option<CniError>)
      modifies this
      ensures (pods, error) == Deleted(old(pods), name, commands)
    {
      if name !in pods {
        return None;
      }
      if !commands.linked {
        return Some(LinkFailed);
      }
      pods := pods - {name};
      return None;
    }

    method NextIP() returns (ip: Option<nat>)
      ensures var host := FreeHost(pods, network, gateway, FIRST_POD_HOST);
        ip == if host.None? then None else Some(WithHost(network, host.value))
    {
      hide WithHost, IsUsed;
      var host := FIRST_POD_HOST;
      while host < LAST_HOST
        invariant FIRST_POD_HOST <= host <= LAST_HOST
        invariant FreeHost(pods, network, gateway, host) == FreeHost(pods, network, gateway, FIRST_POD_HOST)
      {
        var candidate := WithHost(network, host);
        if candidate != gateway {
          var used := Uses(candidate);
          if !used {
            return Some(candidate);
          }
        }
        host := host + 1;
      }
      return None;
    }

    method Uses(candidate: nat) returns (used: bool)
      ensures used <==> IsUsed(pods, candidate)
    {
      used := false;
      var remaining := pods.Keys;
      while remaining != {}
        invariant remaining <= pods.Keys
        invariant used <==> exists name :: name in pods && name !in remaining && pods[name] == candidate
        decreases remaining
      {
        var name :| name in remaining;
        used := used || pods[name] == candidate;
        remaining := remaining - {name};
      }
    }
  }

  // The plugin takes a gateway only from its network.
  method NewLinuxCni(podCIDR: Prefix, gateway: nat) returns (plugin: Option<LinuxCni>)
    requires podCIDR.bits <= 32
    ensures plugin.Some? <==> Contains(podCIDR, gateway)
    ensures plugin.Some? ==> fresh(plugin.value) && plugin.value.pods == map[]
    ensures plugin.Some? ==> plugin.value.network == podCIDR.address && plugin.value.gateway == gateway
  {
    if !Contains(podCIDR, gateway) {
      return None;
    }
    var created := new LinuxCni(podCIDR.address, gateway);
    return Some(created);
  }
}
