// The routes of a node: where packets for the Pods of other nodes go.
module Network {
  import opened Arithmetic
  import opened Text
  import opened Api
  import opened Bootstrap
  import S = Services

  datatype Route = Route(destination: Prefix, via: nat)

  const MAX_NODES := 254

  function RouteTo(target: nat): (route: Route)
    requires target < MAX_NODES
    ensures route.destination.bits <= 32
  {
    NodeNetworksAreExact(target);
    SmallIndicesHaveTheirOwnAddress(target);
    Route(NodeNetwork(target).value.0, NodeUnderlayAddress(target).value)
  }

  // One route for every other node below `count`, in the order of their indices.
  function RoutesFor(node: nat, count: nat): (routes: seq<Route>)
    requires count <= MAX_NODES
    ensures forall route :: route in routes <==>
      exists target: nat :: target < count && target != node && RouteTo(target) == route
  {
    if count == 0 then []
    else if count - 1 == node then RoutesFor(node, count - 1)
    else RoutesFor(node, count - 1) + [RouteTo(count - 1)]
  }

  predicate Matches(route: Route, ip: nat)
    requires route.destination.bits <= 32
  {
    Contains(route.destination, ip)
  }

  // The addresses of node `owner`'s Pods.
  predicate IsPodOf(owner: nat, ip: nat)
    requires owner < MAX_NODES
  {
    Contains(RouteTo(owner).destination, ip)
  }

  lemma OnlyTheOwnersRouteMatches(owner: nat, target: nat, ip: nat)
    requires owner < MAX_NODES && target < MAX_NODES && IsPodOf(owner, ip)
    ensures Matches(RouteTo(target), ip) <==> target == owner
  {
    NodeNetworksAreExact(owner);
    NodeNetworksAreExact(target);
    if Matches(RouteTo(target), ip) {
      NodeNetworksAreDisjoint(owner, target, ip);
    }
  }

  // An address of which the first two bytes are given, in words.
  lemma AddressInWords(first: nat, second: nat, third: nat, fourth: nat)
    requires third < 256 && fourth < 256 && second < 256
    ensures S.DottedBytes(((first * 256 + second) * 256 + third) * 256 + fourth, 3) ==
      Decimal(first) + "." + Decimal(second) + "." + Decimal(third) + "." + Decimal(fourth)
  {
    hide Decimal, S.DottedBytes;
    FirstByte(first);
    S.DottedStep(first, second, 0);
    S.DottedStep(first * 256 + second, third, 1);
    S.DottedStep((first * 256 + second) * 256 + third, fourth, 2);
  }

  lemma FirstByte(first: nat)
    ensures S.DottedBytes(first, 0) == Decimal(first)
  {
  }

  lemma BytesInWords()
    ensures Decimal(0) == "0" && Decimal(1) == "1" && Decimal(10) == "10" && Decimal(200) == "200"
    ensures Decimal(244) == "244"
  {
    assert Decimal(2) == "2" && Decimal(20) == "20" && Decimal(24) == "24";
  }

  // The Pods of node t are in 10.244.t.0/24 behind the gateway 10.244.t.1, and the route to them
  // leads to 10.200.0.(t + 2).
  lemma RoutesInWords(t: nat)
    requires t < MAX_NODES
    ensures RouteTo(t).destination.bits == 24
    ensures S.DottedBytes(RouteTo(t).destination.address, 3) == "10.244." + Decimal(t) + ".0"
    ensures NodeNetwork(t).Success? && S.DottedBytes(NodeNetwork(t).value.1, 3) == "10.244." + Decimal(t) + ".1"
    ensures S.DottedBytes(RouteTo(t).via, 3) == "10.200.0." + Decimal(t + 2)
  {
    BytesInWords();
    hide Decimal, S.DottedBytes;
    NodeNetworksAreExact(t);
    SmallIndicesHaveTheirOwnAddress(t);
    AddressInWords(10, 244, t, 0);
    AddressInWords(10, 244, t, 1);
    AddressInWords(10, 200, 0, t + 2);
    assert ((10 * 256 + 244) * 256 + t) * 256 == POD_CIDR.address + 256 * t;
    assert ((10 * 256 + 200) * 256 + 0) * 256 == UNDERLAY_CIDR.address;
    assert "10" + "." + "244" + "." == "10.244.";
    assert "10" + "." + "200" + "." + "0" + "." == "10.200.0.";
    assert "." + "0" == ".0" && "." + "1" == ".1";
  }

  lemma OwnersAreReachedAlone(owner: nat, other: nat)
    requires owner < MAX_NODES && other < MAX_NODES
    ensures NodeUnderlayAddress(owner) == Success(RouteTo(owner).via)
    ensures NodeUnderlayAddress(other) == Success(RouteTo(owner).via) <==> other == owner
  {
    SmallIndicesHaveTheirOwnAddress(other);
    SmallIndicesHaveTheirOwnAddress(owner);
  }

  // A packet from any node for a Pod of any other node matches one route, which leads to the
  // underlay address of the node that owns the Pod and of no other; a packet for one of the
  // node's own Pods matches none and stays on its bridge.
  lemma PodsAreRoutedToTheirOwner(node: nat, owner: nat, count: nat, ip: nat)
    requires node < count <= MAX_NODES && owner < count && IsPodOf(owner, ip)
    ensures forall route :: route in RoutesFor(node, count) ==>
      route.destination.bits <= 32 && (Matches(route, ip) <==> node != owner && route == RouteTo(owner))
    ensures node != owner ==> RouteTo(owner) in RoutesFor(node, count)
    ensures forall other: nat :: other < count ==>
      (NodeUnderlayAddress(other) == Success(RouteTo(owner).via) <==> other == owner)
  {
    hide RouteTo, IsPodOf, Matches, NodeUnderlayAddress;
    forall route | route in RoutesFor(node, count)
      ensures route.destination.bits <= 32 && (Matches(route, ip) <==> node != owner && route == RouteTo(owner))
    {
      var target: nat :| target < count && target != node && RouteTo(target) == route;
      OnlyTheOwnersRouteMatches(owner, target, ip);
      OnlyTheOwnersRouteMatches(owner, owner, ip);
    }
    forall other: nat | other < count
      ensures NodeUnderlayAddress(other) == Success(RouteTo(owner).via) <==> other == owner
    {
      OwnersAreReachedAlone(owner, other);
    }
  }

  // ---------- configuring a node ----------

  datatype NetworkError = InvalidIndex | BadAddress(error: AddressError) | CommandFailed

  // The commands before the routes: address, underlay interface, loopback, forwarding.
  const SETUP_COMMANDS := 4

  // The indices a node of the cluster can have.
  predicate IsValidIndex(nodeIndex: int, nodeCount: int) { 0 <= nodeIndex < nodeCount }

  // The network namespace of a node, as far as the commands change it.
  class NodeNamespace {
    var address: Option<nat>
    var routes: seq<Route>

    constructor ()
      ensures address.None? && routes == []
    {
      address, routes := None, [];
    }

    // The first `working` commands succeed. Configuration succeeds exactly for an index of 1 to
    // 254 nodes when all its commands do, and then sets the node's address and one route per
    // other node. Otherwise it stops at the first node without an address or the first command
    // that fails, with what came before it done.
    method ConfigureNetwork(nodeIndex: int, nodeCount: int, working: nat) returns (error: Option<NetworkError>)
      modifies this
      ensures error.None? <==>
        IsValidIndex(nodeIndex, nodeCount) && nodeCount <= MAX_NODES && SETUP_COMMANDS + nodeCount - 1 <= working
      ensures error.None? ==> address.Some? && NodeUnderlayAddress(nodeIndex) == Success(address.value)
      ensures error.None? ==> routes == old(routes) + RoutesFor(nodeIndex, nodeCount)
      ensures error == Some(InvalidIndex) <==> !IsValidIndex(nodeIndex, nodeCount)
      ensures error == Some(InvalidIndex) ==> address == old(address) && routes == old(routes)
      ensures error.Some? && error.value.BadAddress? ==> error.value.error == DoesNotFit && nodeCount > MAX_NODES
      ensures error == Some(CommandFailed) ==> NodeUnderlayAddress(nodeIndex).Success?
      ensures error == Some(CommandFailed) ==>
        address == if working == 0 then old(address) else Some(NodeUnderlayAddress(nodeIndex).value)
      ensures error == Some(CommandFailed) ==>
        routes == old(routes) + FirstRoutes(nodeIndex, nodeCount, working)
    {
      hide NodeUnderlayAddress, NodeNetwork, Contains, FirstRoutes;
      if nodeCount < 1 || nodeIndex < 0 || nodeIndex >= nodeCount {
        return Some(InvalidIndex);
      }
      UnderlayFailsOnlyAbove(nodeIndex);
      var underlay := NodeUnderlayAddress(nodeIndex);
      if underlay.Failure? {
        return Some(BadAddress(underlay.error));
      }
      NoRoutesYet(nodeIndex, nodeCount, working);
      if working == 0 {
        return Some(CommandFailed);
      }
      address := Some(underlay.value);
      if working < SETUP_COMMANDS {
        return Some(CommandFailed);
      }
      var left := working - SETUP_COMMANDS;
      var target := 0;
      while target < nodeCount
        invariant 0 <= target <= nodeCount && target <= MAX_NODES && nodeIndex != MAX_NODES
        invariant address == Some(underlay.value)
        invariant routes == old(routes) + RoutesFor(nodeIndex, target)
        invariant 0 <= left && |RoutesFor(nodeIndex, target)| + left == working - SETUP_COMMANDS
      {
        if target == nodeIndex {
          target := target + 1;
          continue;
        }
        UnderlayFailsOnlyAbove(target);
        NodeNetworksAreExact(target);
        var network := NodeNetwork(target);
        if network.Failure? {
          // Underlay addresses run out before Pod networks do.
          assert false;
        }
        var nextHop := NodeUnderlayAddress(target);
        if nextHop.Failure? {
          return Some(BadAddress(nextHop.error));
        }
        if left == 0 {
          CutShort(nodeIndex, nodeCount, working, target);
          return Some(CommandFailed);
        }
        left := left - 1;
        routes := routes + [Route(network.value.0, nextHop.value)];
        target := target + 1;
        assert RouteTo(target - 1) == Route(network.value.0, nextHop.value);
      }
      RoutesAreOnePerOtherNode(nodeIndex, nodeCount);
      return None;
    }
  }

  function AddressedNodes(nodeCount: int): int { if nodeCount <= MAX_NODES then nodeCount else MAX_NODES }

  // The routes the first `working` commands make.
  function FirstRoutes(nodeIndex: nat, nodeCount: nat, working: nat): seq<Route>
  {
    var all := RoutesFor(nodeIndex, AddressedNodes(nodeCount));
    if working < SETUP_COMMANDS then []
    else if working - SETUP_COMMANDS <= |all| then all[..working - SETUP_COMMANDS]
    else all
  }

  lemma {:induction false} RoutesGrow(node: nat, a: nat, b: nat)
    requires a <= b <= MAX_NODES
    ensures RoutesFor(node, a) <= RoutesFor(node, b)
    decreases b
  {
    if a < b {
      RoutesGrow(node, a, b - 1);
    }
  }

  lemma NoRoutesYet(nodeIndex: nat, nodeCount: nat, working: nat)
    ensures working < SETUP_COMMANDS ==> FirstRoutes(nodeIndex, nodeCount, working) == []
  {
  }

  // The command for the route to `target` is the first that fails.
  lemma CutShort(nodeIndex: nat, nodeCount: nat, working: nat, target: nat)
    requires nodeIndex < nodeCount && target < AddressedNodes(nodeCount) && target != nodeIndex
    requires working == SETUP_COMMANDS + |RoutesFor(nodeIndex, target)|
    ensures FirstRoutes(nodeIndex, nodeCount, working) == RoutesFor(nodeIndex, target)
    ensures nodeCount <= MAX_NODES ==> working < SETUP_COMMANDS + nodeCount - 1
  {
    hide RouteTo;
    RoutesGrow(nodeIndex, target, target + 1);
    RoutesGrow(nodeIndex, target + 1, AddressedNodes(nodeCount));
    assert |RoutesFor(nodeIndex, target + 1)| == |RoutesFor(nodeIndex, target)| + 1;
    RoutesAreOnePerOtherNode(nodeIndex, AddressedNodes(nodeCount));
  }

  lemma {:induction false} RoutesAreOnePerOtherNode(node: nat, count: nat)
    requires count <= MAX_NODES
    ensures |RoutesFor(node, count)| == if node < count then count - 1 else count
  {
    if count > 0 {
      RoutesAreOnePerOtherNode(node, count - 1);
    }
  }

  lemma UnderlayFailsOnlyAbove(index: nat)
    ensures index <= MAX_NODES ==> (NodeUnderlayAddress(index).Failure? <==> index == MAX_NODES)
    ensures NodeUnderlayAddress(index).Failure? ==> index >= MAX_NODES && NodeUnderlayAddress(index).error == DoesNotFit
  {
    if index < WORD - 2 {
      SmallIndicesHaveTheirOwnAddress(index);
    }
  }
}
