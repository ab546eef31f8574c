// kube-proxy: from Services and Pods to forwarding rules, and what those rules do to packets.
module KubeProxy {
  import opened Arithmetic
  import opened Text
  import opened Etcd
  import opened Api
  import opened ApiServer
  import opened Services

  datatype Rule = Rule(clusterIP: string, port: int, nodePort: int, podIP: string, targetPort: int)

  datatype RuleError = BadClusterIP(service: string) | BadPodIP(pod: string)

  // netip.ParseAddr takes an IPv4 address in one form only: four decimal bytes without
  // leading zeros.
  predicate IsIPv4(text: string) { exists a: nat :: a < WORD && text == DottedBytes(a, 3) }

  predicate IsUsable(s: Service) { s.spec.clusterIP != "" && s.spec.port >= 1 && s.spec.targetPort >= 1 }

  predicate IsEndpoint(s: Service, pod: Pod)
  {
    pod.status.phase.Running? && pod.status.podIP != "" && LabelsMatch(s.spec.selector, pod.meta.labels)
  }

  function NodePortOf(s: Service): int { if s.spec.serviceType.TypeNodePort? then s.spec.nodePort else 0 }

  function RuleFor(s: Service, pod: Pod): Rule
  {
    Rule(s.spec.clusterIP, s.spec.port, NodePortOf(s), pod.status.podIP, s.spec.targetPort)
  }

  // ---------- collecting the rules ----------

  function RulesOfService(s: Service, pods: seq<Pod>): Result<seq<Rule>, RuleError>
  {
    if pods == [] then Success([])
    else
      var n := |pods| - 1;
      var earlier := RulesOfService(s, pods[..n]);
      if earlier.Failure? || !IsEndpoint(s, pods[n]) then earlier
      else if !IsIPv4(pods[n].status.podIP) then Failure(BadPodIP(pods[n].meta.name))
      else Success(earlier.value + [RuleFor(s, pods[n])])
  }

  function Collected(services: seq<Service>, pods: seq<Pod>): Result<seq<Rule>, RuleError>
  {
    if services == [] then Success([])
    else
      var n := |services| - 1;
      var earlier := Collected(services[..n], pods);
      if earlier.Failure? || !IsUsable(services[n]) then earlier
      else if !IsIPv4(services[n].spec.clusterIP) then Failure(BadClusterIP(services[n].meta.name))
      else
        var more := RulesOfService(services[n], pods);
        if more.Failure? then more else Success(earlier.value + more.value)
  }

  // A Service and a Pod, by position, that make the rule.
  predicate Makes(services: seq<Service>, pods: seq<Pod>, i: nat, j: nat, rule: Rule)
  {
    i < |services| && j < |pods| && IsUsable(services[i]) && IsEndpoint(services[i], pods[j]) &&
      RuleFor(services[i], pods[j]) == rule
  }

  function Makers(services: seq<Service>, pods: seq<Pod>, rule: Rule): set<(nat, nat)>
  {
    set i: nat, j: nat | i < |services| && j < |pods| && Makes(services, pods, i, j, rule) :: (i, j)
  }

  function PodMakers(s: Service, pods: seq<Pod>, rule: Rule): set<nat>
  {
    set j: nat | j < |pods| && IsEndpoint(s, pods[j]) && RuleFor(s, pods[j]) == rule
  }

  lemma OneMorePodMakes(s: Service, pods: seq<Pod>, rule: Rule)
    requires pods != []
    ensures var n := |pods| - 1;
      |PodMakers(s, pods, rule)| ==
      |PodMakers(s, pods[..n], rule)| + if IsEndpoint(s, pods[n]) && RuleFor(s, pods[n]) == rule then 1 else 0
  {
    hide IsEndpoint, RuleFor;
    var n := |pods| - 1;
    var before, now := PodMakers(s, pods[..n], rule), PodMakers(s, pods, rule);
    forall j: nat ensures j in before <==> j in now && j != n {
    }
    assert before == now - {n};
  }

  lemma {:induction false} RulesOfServiceAreExact(s: Service, pods: seq<Pod>, rule: Rule)
    requires RulesOfService(s, pods).Success?
    ensures multiset(RulesOfService(s, pods).value)[rule] == |PodMakers(s, pods, rule)|
  {
    hide IsEndpoint, IsIPv4, RuleFor, PodMakers;
    if pods != [] {
      RulesOfServiceAreExact(s, pods[..|pods| - 1], rule);
      OneMorePodMakes(s, pods, rule);
    } else {
      NoPodsNoMakers(s, rule);
    }
  }

  lemma NoPodsNoMakers(s: Service, rule: Rule)
    ensures PodMakers(s, [], rule) == {}
  {
  }

  lemma PairsOfOne(i: nat, indices: set<nat>, pairs: set<(nat, nat)>)
    requires pairs == set j | j in indices :: (i, j)
    ensures |pairs| == |indices|
  {
    if indices != {} {
      var j :| j in indices;
      PairsOfOne(i, indices - {j}, pairs - {(i, j)});
    } else {
      assert pairs == {};
    }
  }

  // There is exactly one rule for every usable Service and every endpoint of it: each rule
  // occurs as often as there are such pairs that make it.
  lemma {:induction false} OneRulePerPair(services: seq<Service>, pods: seq<Pod>, rule: Rule)
    requires Collected(services, pods).Success?
    ensures multiset(Collected(services, pods).value)[rule] == |Makers(services, pods, rule)|
  {
    if services != [] {
      var n := |services| - 1;
      OneRulePerPair(services[..n], pods, rule);
      var before, now := Makers(services[..n], pods, rule), Makers(services, pods, rule);
      var last := set j | j in PodMakers(services[n], pods, rule) :: (n as nat, j);
      if IsUsable(services[n]) {
        RulesOfServiceAreExact(services[n], pods, rule);
        PairsOfOne(n, PodMakers(services[n], pods, rule), last);
        SplitMakers(services, pods, rule, last);
        assert before !! last;
      } else {
        SplitMakers(services, pods, rule, {});
      }
    }
  }

  lemma SplitMakers(services: seq<Service>, pods: seq<Pod>, rule: Rule, last: set<(nat, nat)>)
    requires services != []
    requires var n := |services| - 1;
      last == if IsUsable(services[n]) then set j | j in PodMakers(services[n], pods, rule) :: (n as nat, j) else {}
    ensures Makers(services, pods, rule) == Makers(services[..|services| - 1], pods, rule) + last
  {
    var n := |services| - 1;
    forall i: nat, j: nat
      ensures Makes(services, pods, i, j, rule) <==> Makes(services[..n], pods, i, j, rule) || (i, j) in last
    {
      if i == n {
        assert Makes(services, pods, i, j, rule) <==> IsUsable(services[n]) && j in PodMakers(services[n], pods, rule);
      }
    }
  }

  predicate HasBadEndpoint(s: Service, pods: seq<Pod>)
  {
    exists j :: 0 <= j < |pods| && IsEndpoint(s, pods[j]) && !IsIPv4(pods[j].status.podIP)
  }

  predicate IsBad(s: Service, pods: seq<Pod>)
  {
    IsUsable(s) && (!IsIPv4(s.spec.clusterIP) || HasBadEndpoint(s, pods))
  }

  lemma {:induction false} ServiceFailsOnBadEndpoints(s: Service, pods: seq<Pod>)
    ensures RulesOfService(s, pods).Failure? <==> HasBadEndpoint(s, pods)
  {
    if pods != [] {
      var n := |pods| - 1;
      ServiceFailsOnBadEndpoints(s, pods[..n]);
      if HasBadEndpoint(s, pods[..n]) {
        var j :| 0 <= j < n && IsEndpoint(s, pods[..n][j]) && !IsIPv4(pods[..n][j].status.podIP);
        assert pods[j] == pods[..n][j];
      }
      if HasBadEndpoint(s, pods) {
        var j :| 0 <= j < |pods| && IsEndpoint(s, pods[j]) && !IsIPv4(pods[j].status.podIP);
        assert j < n ==> pods[j] == pods[..n][j];
      }
    }
  }

  // Collecting fails exactly when some usable Service, or some endpoint of one, has an address
  // that is not IPv4.
  lemma {:induction false} FailsExactlyOnBadAddresses(services: seq<Service>, pods: seq<Pod>)
    ensures Collected(services, pods).Failure? <==> exists i :: 0 <= i < |services| && IsBad(services[i], pods)
  {
    hide IsBad;
    if services != [] {
      var n := |services| - 1;
      FailsExactlyOnBadAddresses(services[..n], pods);
      CollectedStep(services, pods);
      if exists i :: 0 <= i < |services| && IsBad(services[i], pods) {
        var i :| 0 <= i < |services| && IsBad(services[i], pods);
        assert i < n ==> services[i] == services[..n][i];
      }
      if exists i :: 0 <= i < n && IsBad(services[..n][i], pods) {
        var i :| 0 <= i < n && IsBad(services[..n][i], pods);
        assert services[i] == services[..n][i];
      }
    }
  }

  lemma CollectedStep(services: seq<Service>, pods: seq<Pod>)
    requires services != []
    ensures var n := |services| - 1;
      Collected(services, pods).Failure? <==> Collected(services[..n], pods).Failure? || IsBad(services[n], pods)
  {
    ServiceFailsOnBadEndpoints(services[|services| - 1], pods);
  }

  // ---------- sorting them ----------

  predicate RuleLess(a: Rule, b: Rule)
  {
    if a.clusterIP != b.clusterIP then Less(a.clusterIP, b.clusterIP)
    else if a.port != b.port then a.port < b.port
    else Less(a.podIP, b.podIP)
  }

  predicate SameRuleKey(a: Rule, b: Rule) { a.clusterIP == b.clusterIP && a.port == b.port && a.podIP == b.podIP }

  lemma RulesCompare(a: Rule, b: Rule)
    ensures RuleLess(a, b) || RuleLess(b, a) || SameRuleKey(a, b)
    ensures RuleLess(a, b) ==> !RuleLess(b, a) && !SameRuleKey(a, b)
  {
    LessIsTotal(a.clusterIP, b.clusterIP);
    LessIsTotal(a.podIP, b.podIP);
    if RuleLess(a, b) {
      if Less(a.clusterIP, b.clusterIP) { LessIsAsymmetric(a.clusterIP, b.clusterIP); }
      if Less(a.podIP, b.podIP) { LessIsAsymmetric(a.podIP, b.podIP); }
    }
  }

  lemma RuleOrderIsTransitive(a: Rule, b: Rule, c: Rule)
    requires !RuleLess(b, a) && !RuleLess(c, b)
    ensures !RuleLess(c, a)
  {
    LessIsTotal(a.clusterIP, b.clusterIP);
    LessIsTotal(b.clusterIP, c.clusterIP);
    LessIsTotal(a.podIP, b.podIP);
    LessIsTotal(b.podIP, c.podIP);
    if a.clusterIP != b.clusterIP && b.clusterIP != c.clusterIP {
      LessIsTransitive(a.clusterIP, b.clusterIP, c.clusterIP);
    }
    if a.podIP != b.podIP && b.podIP != c.podIP && Less(a.podIP, b.podIP) && Less(b.podIP, c.podIP) {
      LessIsTransitive(a.podIP, b.podIP, c.podIP);
    }
    RulesCompare(a, c);
    if Less(a.clusterIP, c.clusterIP) { LessIsAsymmetric(a.clusterIP, c.clusterIP); }
    if Less(a.podIP, c.podIP) { LessIsAsymmetric(a.podIP, c.podIP); }
  }

  predicate SortedRules(rules: seq<Rule>)
  {
    forall i, j :: 0 <= i < j < |rules| ==> !RuleLess(rules[j], rules[i])
  }

  // What sort.Slice promises: not which of two rules with the same key comes first.
  ghost predicate SortOf(sorted: seq<Rule>, rules: seq<Rule>)
  {
    multiset(sorted) == multiset(rules) && SortedRules(sorted)
  }

  method SortRules(rules: seq<Rule>) returns (sorted: seq<Rule>)
    ensures SortOf(sorted, rules)
  {
    sorted := [];
    for n := 0 to |rules|
      invariant SortOf(sorted, rules[..n])
    {
      sorted := InsertRule(sorted, rules[n]);
      assert rules[..n + 1] == rules[..n] + [rules[n]];
    }
    assert rules[..|rules|] == rules;
  }

  method InsertRule(sorted: seq<Rule>, rule: Rule) returns (more: seq<Rule>)
    requires SortedRules(sorted)
    ensures SortOf(more, sorted + [rule])
  {
    var k := |sorted|;
    while k > 0 && RuleLess(rule, sorted[k - 1])
      invariant 0 <= k <= |sorted|
      invariant forall i :: k <= i < |sorted| ==> RuleLess(rule, sorted[i])
    {
      k := k - 1;
    }
    more := sorted[..k] + [rule] + sorted[k..];
    assert sorted == sorted[..k] + sorted[k..];
    InsertedRulesAreSorted(sorted, k, rule);
  }

  lemma InsertedRulesAreSorted(sorted: seq<Rule>, k: nat, rule: Rule)
    requires k <= |sorted| && SortedRules(sorted)
    requires k > 0 ==> !RuleLess(rule, sorted[k - 1])
    requires forall i :: k <= i < |sorted| ==> RuleLess(rule, sorted[i])
    ensures SortedRules(sorted[..k] + [rule] + sorted[k..])
  {
    hide RuleLess;
    forall i | 0 <= i < k ensures !RuleLess(rule, sorted[i]) {
      if i < k - 1 {
        RuleOrderIsTransitive(sorted[i], sorted[k - 1], rule);
      }
    }
    forall i | k <= i < |sorted| ensures !RuleLess(sorted[i], rule) {
      RulesCompare(rule, sorted[i]);
    }
    var more := sorted[..k] + [rule] + sorted[k..];
    forall i, j | 0 <= i < j < |more| ensures !RuleLess(more[j], more[i]) {
      assert more[i] == if i < k then sorted[i] else if i == k then rule else sorted[i - 1];
      assert more[j] == if j < k then sorted[j] else if j == k then rule else sorted[j - 1];
    }
  }

  // ---------- the program ----------

  datatype Endpoint = Endpoint(podIP: string, port: int)

  datatype Translation =
    | ToClusterIP(address: string, port: int, endpoint: Endpoint)
    | ToNodePort(port: int, endpoint: Endpoint)

  // The rules of one table: the same translations for packets from outside and for packets
  // of the node itself, and the endpoints whose packets are masqueraded.
  datatype Table = Table(prerouting: seq<Translation>, output: seq<Translation>, postrouting: seq<Endpoint>)

  function EndpointOf(rule: Rule): Endpoint { Endpoint(rule.podIP, rule.targetPort) }

  function TranslationsOf(rule: Rule): seq<Translation>
  {
    [ToClusterIP(rule.clusterIP, rule.port, EndpointOf(rule))] +
    if rule.nodePort != 0 then [ToNodePort(rule.nodePort, EndpointOf(rule))] else []
  }

  function Chain(rules: seq<Rule>): seq<Translation>
  {
    if rules == [] then [] else Chain(rules[..|rules| - 1]) + TranslationsOf(rules[|rules| - 1])
  }

  function Masquerades(rules: seq<Rule>): seq<Endpoint>
  {
    if rules == [] then []
    else Masquerades(rules[..|rules| - 1]) + if rules[|rules| - 1].nodePort != 0 then [EndpointOf(rules[|rules| - 1])]
    else []
  }

  function Program(rules: seq<Rule>): Table { Table(Chain(rules), Chain(rules), Masquerades(rules)) }

  datatype Packet = Packet(address: string, port: int)

  predicate Matches(t: Translation, packet: Packet)
  {
    match t
    case ToClusterIP(address, port, _) => packet.address == address && packet.port == port
    case ToNodePort(port, _) => packet.port == port
  }

  // A nat chain is decided by its first matching rule.
  function FirstMatch(chain: seq<Translation>, packet: Packet): Option<Endpoint>
  {
    if chain == [] then None
    else if Matches(chain[0], packet) then Some(chain[0].endpoint)
    else FirstMatch(chain[1..], packet)
  }

  lemma {:induction false} FirstMatchIsAMatch(chain: seq<Translation>, packet: Packet)
    ensures FirstMatch(chain, packet).Some? ==>
      exists t :: t in chain && Matches(t, packet) && FirstMatch(chain, packet) == Some(t.endpoint)
    ensures FirstMatch(chain, packet).None? ==> forall t :: t in chain ==> !Matches(t, packet)
  {
    if chain != [] {
      assert chain == [chain[0]] + chain[1..];
      FirstMatchIsAMatch(chain[1..], packet);
    }
  }

  lemma {:induction false} ChainHolds(rules: seq<Rule>, t: Translation)
    ensures t in Chain(rules) <==> exists rule :: rule in rules && t in TranslationsOf(rule)
  {
    if rules != [] {
      var n := |rules| - 1;
      assert rules == rules[..n] + [rules[n]];
      ChainHolds(rules[..n], t);
    }
  }

  lemma {:induction false} MasqueradesHold(rules: seq<Rule>, e: Endpoint)
    ensures e in Masquerades(rules) <==> exists rule :: rule in rules && rule.nodePort != 0 && EndpointOf(rule) == e
  {
    if rules != [] {
      var n := |rules| - 1;
      assert rules == rules[..n] + [rules[n]];
      MasqueradesHold(rules[..n], e);
    }
  }

  // ---------- forwarding is correct ----------

  // No two usable Services share a ClusterIP and port, or a NodePort, and no Service's port
  // is the NodePort of another.
  predicate PortsAreApart(services: seq<Service>)
  {
    forall i, j :: 0 <= i < |services| && 0 <= j < |services| && IsUsable(services[i]) && IsUsable(services[j]) ==>
      && (i != j && services[i].spec.clusterIP == services[j].spec.clusterIP ==>
            services[i].spec.port != services[j].spec.port)
      && (i != j && NodePortOf(services[i]) != 0 ==> NodePortOf(services[i]) != NodePortOf(services[j]))
      && (i != j && NodePortOf(services[j]) != 0 ==> services[i].spec.port != NodePortOf(services[j]))
  }

  // The rules in use: sorted, and made by no error.
  ghost predicate AreTheRules(rules: seq<Rule>, services: seq<Service>, pods: seq<Pod>)
  {
    Collected(services, pods).Success? && SortOf(rules, Collected(services, pods).value)
  }

  ghost predicate IsMade(services: seq<Service>, pods: seq<Pod>, rule: Rule)
  {
    exists i: nat, j: nat :: Makes(services, pods, i, j, rule)
  }

  lemma RulesAreMade(rules: seq<Rule>, services: seq<Service>, pods: seq<Pod>, rule: Rule)
    requires AreTheRules(rules, services, pods)
    ensures rule in rules <==> IsMade(services, pods, rule)
  {
    OneRulePerPair(services, pods, rule);
    var makers := Makers(services, pods, rule);
    assert rule in rules <==> multiset(rules)[rule] > 0;
    if i: nat, j: nat :| Makes(services, pods, i, j, rule) {
      assert (i, j) in makers;
    } else {
      assert makers == {};
    }
  }

  predicate Serves(s: Service, pods: seq<Pod>, e: Endpoint)
  {
    exists j :: 0 <= j < |pods| && IsEndpoint(s, pods[j]) && e == Endpoint(pods[j].status.podIP, s.spec.targetPort)
  }

  predicate HasEndpoint(s: Service, pods: seq<Pod>) { exists j :: 0 <= j < |pods| && IsEndpoint(s, pods[j]) }

  // The packets meant for a Service: to its ClusterIP and port, or to its NodePort anywhere.
  predicate IsFor(s: Service, packet: Packet)
  {
    || (packet.address == s.spec.clusterIP && packet.port == s.spec.port)
    || (NodePortOf(s) != 0 && packet.port == NodePortOf(s))
  }

  lemma TranslationComesFrom(rules: seq<Rule>, services: seq<Service>, pods: seq<Pod>, t: Translation, packet: Packet)
    requires AreTheRules(rules, services, pods) && t in Chain(rules) && Matches(t, packet)
    ensures exists k ::
      0 <= k < |services| && IsUsable(services[k]) && IsFor(services[k], packet) &&
        Serves(services[k], pods, t.endpoint)
  {
    hide AreTheRules, IsUsable, IsEndpoint;
    ChainHolds(rules, t);
    var rule :| rule in rules && t in TranslationsOf(rule);
    RulesAreMade(rules, services, pods, rule);
    var k: nat, j: nat :| Makes(services, pods, k, j, rule);
    assert IsFor(services[k], packet) && Serves(services[k], pods, t.endpoint);
  }

  lemma EndpointsHaveTranslations(rules: seq<Rule>, services: seq<Service>, pods: seq<Pod>, i: nat, packet: Packet)
    requires AreTheRules(rules, services, pods) && i < |services| && IsUsable(services[i])
    requires IsFor(services[i], packet) && HasEndpoint(services[i], pods)
    ensures exists t :: t in Chain(rules) && Matches(t, packet)
  {
    hide AreTheRules, IsUsable, IsEndpoint;
    var j: nat :| j < |pods| && IsEndpoint(services[i], pods[j]);
    var rule := RuleFor(services[i], pods[j]);
    assert Makes(services, pods, i, j, rule);
    RulesAreMade(rules, services, pods, rule);
    var t := if packet.address == rule.clusterIP && packet.port == rule.port
      then TranslationsOf(rule)[0] else TranslationsOf(rule)[1];
    ChainHolds(rules, t);
    assert Matches(t, packet);
  }

  lemma OneServicePerPacket(services: seq<Service>, i: nat, k: nat, packet: Packet)
    requires PortsAreApart(services) && i < |services| && k < |services| && IsUsable(services[i])
    requires IsUsable(services[k])
    requires IsFor(services[i], packet) && IsFor(services[k], packet)
    ensures i == k
  {
  }

  // Traffic for a Service, at its ClusterIP or its NodePort, is sent to an endpoint of that
  // Service exactly when it has one.
  lemma ForwardingIsCorrect(rules: seq<Rule>, services: seq<Service>, pods: seq<Pod>, i: nat, packet: Packet)
    requires AreTheRules(rules, services, pods) && PortsAreApart(services)
    requires i < |services| && IsUsable(services[i]) && IsFor(services[i], packet)
    ensures var target := FirstMatch(Program(rules).prerouting, packet);
      && target == FirstMatch(Program(rules).output, packet)
      && (target.Some? <==> HasEndpoint(services[i], pods))
      && (target.Some? ==> Serves(services[i], pods, target.value))
  {
    hide AreTheRules, PortsAreApart, IsUsable, IsFor, IsEndpoint;
    var chain := Chain(rules);
    FirstMatchIsAMatch(chain, packet);
    if FirstMatch(chain, packet).Some? {
      var t :| t in chain && Matches(t, packet) && FirstMatch(chain, packet) == Some(t.endpoint);
      TranslationComesFrom(rules, services, pods, t, packet);
      var k :| 0 <= k < |services| && IsUsable(services[k]) && IsFor(services[k], packet) &&
        Serves(services[k], pods, t.endpoint);
      OneServicePerPacket(services, i, k, packet);
    } else if HasEndpoint(services[i], pods) {
      EndpointsHaveTranslations(rules, services, pods, i, packet);
      assert false;
    }
  }

  // The Service forwards the packet: to its ClusterIP and port, or to its NodePort anywhere.
  predicate Forwards(s: Service, packet: Packet)
  {
    && s.spec.clusterIP != "" && s.spec.port >= 1 && s.spec.targetPort >= 1
    && ((packet.address == s.spec.clusterIP && packet.port == s.spec.port) ||
        (s.spec.serviceType == TypeNodePort && s.spec.nodePort != 0 && packet.port == s.spec.nodePort))
  }

  // The Pod is Running, has an address, and has the labels that the Service selects.
  predicate IsSelected(s: Service, pod: Pod)
  {
    pod.status.phase == Running && pod.status.podIP != "" && LabelsMatch(s.spec.selector, pod.meta.labels)
  }

  // Whatever the ports and addresses: a packet is translated exactly when a Service forwards it
  // and a Pod is selected, and then to a Running Pod that such a Service selects, at the
  // Service's target port.
  lemma TrafficGoesToRunningPods(rules: seq<Rule>, services: seq<Service>, pods: seq<Pod>, packet: Packet)
    requires AreTheRules(rules, services, pods)
    ensures var target := FirstMatch(Program(rules).prerouting, packet);
      && (target.Some? <==>
            exists i, j :: 0 <= i < |services| && 0 <= j < |pods| &&
              Forwards(services[i], packet) && IsSelected(services[i], pods[j]))
      && (target.Some? ==>
            exists i, j :: 0 <= i < |services| && 0 <= j < |pods| &&
              Forwards(services[i], packet) && IsSelected(services[i], pods[j]) &&
              target.value.podIP == pods[j].status.podIP && target.value.port == services[i].spec.targetPort)
  {
    hide AreTheRules, FirstMatch, Chain;
    FirstMatchIsAMatch(Chain(rules), packet);
    if FirstMatch(Chain(rules), packet).Some? {
      var t :| t in Chain(rules) && Matches(t, packet) && FirstMatch(Chain(rules), packet) == Some(t.endpoint);
      TranslationComesFrom(rules, services, pods, t, packet);
    }
    if i, j :|
      0 <= i < |services| && 0 <= j < |pods| && Forwards(services[i], packet) && IsSelected(services[i], pods[j])
    {
      EndpointsHaveTranslations(rules, services, pods, i, packet);
    }
  }

  // Packets that are for no usable Service are left alone.
  lemma OtherTrafficIsUntouched(rules: seq<Rule>, services: seq<Service>, pods: seq<Pod>, packet: Packet)
    requires AreTheRules(rules, services, pods)
    requires forall i :: 0 <= i < |services| && IsUsable(services[i]) ==> !IsFor(services[i], packet)
    ensures FirstMatch(Program(rules).prerouting, packet).None?
  {
    hide AreTheRules, IsUsable, IsFor, Serves;
    FirstMatchIsAMatch(Chain(rules), packet);
    if FirstMatch(Chain(rules), packet).Some? {
      var t :| t in Chain(rules) && Matches(t, packet) && FirstMatch(Chain(rules), packet) == Some(t.endpoint);
      TranslationComesFrom(rules, services, pods, t, packet);
      assert false;
    }
  }

  // Packets forwarded from a NodePort come back: their endpoint is masqueraded.
  lemma NodePortTrafficIsMasqueraded(rules: seq<Rule>, services: seq<Service>, pods: seq<Pod>, i: nat, address: string)
    requires AreTheRules(rules, services, pods) && PortsAreApart(services)
    requires i < |services| && IsUsable(services[i]) && NodePortOf(services[i]) != 0
    ensures var target := FirstMatch(Program(rules).prerouting, Packet(address, NodePortOf(services[i])));
      target.Some? ==> target.value in Program(rules).postrouting
  {
    hide AreTheRules, PortsAreApart, IsEndpoint;
    var packet := Packet(address, NodePortOf(services[i]));
    ForwardingIsCorrect(rules, services, pods, i, packet);
    var target := FirstMatch(Chain(rules), packet);
    if target.Some? {
      var j: nat :| j < |pods| && IsEndpoint(services[i], pods[j]) &&
        target.value == Endpoint(pods[j].status.podIP, services[i].spec.targetPort);
      var rule := RuleFor(services[i], pods[j]);
      assert Makes(services, pods, i, j, rule);
      RulesAreMade(rules, services, pods, rule);
      MasqueradesHold(rules, target.value);
    }
  }

  // The store keeps stored NodePorts apart; only a Service port in the NodePort range, or a
  // ClusterIP that a user gave twice, can break the condition.
  lemma StoredNodePortsAreApart(live: Objects, a: Key, b: Key)
    requires ServicesOk(live) && IsService(live, a) && IsService(live, b) && a != b
    ensures NodePortOf(ServiceAt(live, a)) != 0 ==> NodePortOf(ServiceAt(live, a)) != NodePortOf(ServiceAt(live, b))
    ensures NodePortOf(ServiceAt(live, a)) != 0 ==> FIRST_NODE_PORT <= NodePortOf(ServiceAt(live, a)) <= LAST_NODE_PORT
  {
    assert PortsDiffer(live, a, b);
  }

  // ---------- clashing ports ----------

  predicate RuleMatches(rule: Rule, packet: Packet)
  {
    || (packet.address == rule.clusterIP && packet.port == rule.port)
    || (rule.nodePort != 0 && packet.port == rule.nodePort)
  }

  predicate IsFirst(rules: seq<Rule>, packet: Packet, r: nat)
  {
    r < |rules| && RuleMatches(rules[r], packet) && forall q :: 0 <= q < r ==> !RuleMatches(rules[q], packet)
  }

  lemma {:induction false} FirstMatchInParts(first: seq<Translation>, second: seq<Translation>, packet: Packet)
    ensures FirstMatch(first + second, packet) ==
            if FirstMatch(first, packet).Some? then FirstMatch(first, packet) else FirstMatch(second, packet)
  {
    if first == [] {
      assert first + second == second;
    } else {
      assert (first + second)[1..] == first[1..] + second;
      FirstMatchInParts(first[1..], second, packet);
    }
  }

  lemma MatchOfOneRule(rule: Rule, packet: Packet)
    ensures FirstMatch(TranslationsOf(rule), packet) ==
            if RuleMatches(rule, packet) then Some(EndpointOf(rule)) else None
  {
    var first, chain := ToClusterIP(rule.clusterIP, rule.port, EndpointOf(rule)), TranslationsOf(rule);
    var rest := if rule.nodePort != 0 then [ToNodePort(rule.nodePort, EndpointOf(rule))] else [];
    assert chain[0] == first && chain[1..] == rest;
    if rule.nodePort != 0 {
      assert rest[0] == ToNodePort(rule.nodePort, EndpointOf(rule)) && rest[1..] == [];
      assert FirstMatch(rest, packet) == if packet.port == rule.nodePort then Some(EndpointOf(rule)) else None;
    }
  }

  lemma {:induction false} FirstRuleWins(rules: seq<Rule>, packet: Packet)
    ensures FirstMatch(Chain(rules), packet).Some? ==>
      exists r: nat :: IsFirst(rules, packet, r) && FirstMatch(Chain(rules), packet) == Some(EndpointOf(rules[r]))
    ensures FirstMatch(Chain(rules), packet).None? ==> forall r :: 0 <= r < |rules| ==> !RuleMatches(rules[r], packet)
  {
    hide RuleMatches, TranslationsOf;
    if rules != [] {
      var n := |rules| - 1;
      var earlier := rules[..n];
      FirstRuleWins(earlier, packet);
      FirstMatchInParts(Chain(earlier), TranslationsOf(rules[n]), packet);
      MatchOfOneRule(rules[n], packet);
      if FirstMatch(Chain(earlier), packet).Some? {
        var r: nat :| IsFirst(earlier, packet, r) && FirstMatch(Chain(earlier), packet) == Some(EndpointOf(earlier[r]));
        assert forall q :: 0 <= q <= r ==> rules[q] == earlier[q];
        assert IsFirst(rules, packet, r);
      } else if RuleMatches(rules[n], packet) {
        assert forall q :: 0 <= q < n ==> rules[q] == earlier[q];
        assert IsFirst(rules, packet, n);
      } else {
        assert forall q :: 0 <= q < n ==> rules[q] == earlier[q];
      }
    }
  }

  // The packet is for the Service, and the Service has an endpoint to send it to.
  predicate Claims(s: Service, pods: seq<Pod>, packet: Packet)
  {
    IsUsable(s) && IsFor(s, packet) && HasEndpoint(s, pods)
  }

  // Service number `k` claims the packet for its endpoint, Pod number `l`.
  predicate IsClaim(services: seq<Service>, pods: seq<Pod>, k: nat, l: nat, packet: Packet)
  {
    && k < |services| && l < |pods|
    && IsUsable(services[k]) && IsFor(services[k], packet) && IsEndpoint(services[k], pods[l])
  }

  // No claim has a lesser key of ClusterIP, port and PodIP.
  ghost predicate IsLeastClaim(services: seq<Service>, pods: seq<Pod>, k: nat, l: nat, packet: Packet)
  {
    && IsClaim(services, pods, k, l, packet)
    && forall m: nat, n: nat :: IsClaim(services, pods, m, n, packet) ==>
         !RuleLess(RuleFor(services[m], pods[n]), RuleFor(services[k], pods[l]))
  }

  lemma MatchingRuleIsAClaim(rules: seq<Rule>, services: seq<Service>, pods: seq<Pod>, rule: Rule, packet: Packet)
    requires AreTheRules(rules, services, pods) && rule in rules && RuleMatches(rule, packet)
    ensures exists k: nat, l: nat :: IsClaim(services, pods, k, l, packet) && RuleFor(services[k], pods[l]) == rule
  {
    hide AreTheRules, IsUsable, IsEndpoint;
    RulesAreMade(rules, services, pods, rule);
    var k: nat, l: nat :| Makes(services, pods, k, l, rule);
    assert IsClaim(services, pods, k, l, packet);
  }

  lemma ClaimHasARule(rules: seq<Rule>, services: seq<Service>, pods: seq<Pod>, k: nat, l: nat, packet: Packet)
    requires AreTheRules(rules, services, pods) && IsClaim(services, pods, k, l, packet)
    ensures exists x :: 0 <= x < |rules| && rules[x] == RuleFor(services[k], pods[l]) && RuleMatches(rules[x], packet)
  {
    hide AreTheRules, IsUsable, IsEndpoint;
    var rule := RuleFor(services[k], pods[l]);
    assert Makes(services, pods, k, l, rule);
    RulesAreMade(rules, services, pods, rule);
    var x :| 0 <= x < |rules| && rules[x] == rule;
    assert RuleMatches(rules[x], packet);
  }

  lemma FirstIsLeast(rules: seq<Rule>, packet: Packet, r: nat, x: nat)
    requires SortedRules(rules) && IsFirst(rules, packet, r) && x < |rules| && RuleMatches(rules[x], packet)
    ensures !RuleLess(rules[x], rules[r])
  {
    hide RuleLess, RuleMatches;
    RulesCompare(rules[x], rules[x]);
  }

  // Whoever else claims the packet, on whatever ports: it goes to the endpoint of a least claim,
  // by ClusterIP, then port, then PodIP, and nowhere only if nobody claims it. Of two claims
  // with equal keys the sort decides.
  lemma LeastClaimWins(rules: seq<Rule>, services: seq<Service>, pods: seq<Pod>, packet: Packet)
    requires AreTheRules(rules, services, pods)
    ensures var target := FirstMatch(Program(rules).prerouting, packet);
      && (target.None? <==> forall k: nat, l: nat :: !IsClaim(services, pods, k, l, packet))
      && (target.Some? ==>
            exists k: nat, l: nat ::
              IsLeastClaim(services, pods, k, l, packet) && target == Some(EndpointOf(RuleFor(services[k], pods[l]))))
  {
    hide RuleMatches, IsUsable, IsFor, IsEndpoint, FirstMatch, Chain, AreTheRules;
    FirstRuleWins(rules, packet);
    if k: nat, l: nat :| IsClaim(services, pods, k, l, packet) {
      ClaimHasARule(rules, services, pods, k, l, packet);
    }
    if FirstMatch(Chain(rules), packet).Some? {
      var r: nat :| IsFirst(rules, packet, r) && FirstMatch(Chain(rules), packet) == Some(EndpointOf(rules[r]));
      FirstRuleIsALeastClaim(rules, services, pods, r, packet);
    }
  }

  lemma FirstRuleIsALeastClaim(rules: seq<Rule>, services: seq<Service>, pods: seq<Pod>, r: nat, packet: Packet)
    requires AreTheRules(rules, services, pods) && IsFirst(rules, packet, r)
    ensures exists k: nat, l: nat ::
      IsLeastClaim(services, pods, k, l, packet) && RuleFor(services[k], pods[l]) == rules[r]
  {
    hide RuleMatches, IsUsable, IsFor, IsEndpoint, RuleLess, Collected, RuleFor;
    MatchingRuleIsAClaim(rules, services, pods, rules[r], packet);
    var k: nat, l: nat :| IsClaim(services, pods, k, l, packet) && RuleFor(services[k], pods[l]) == rules[r];
    forall m: nat, n: nat | IsClaim(services, pods, m, n, packet)
      ensures !RuleLess(RuleFor(services[m], pods[n]), rules[r])
    {
      ClaimHasARule(rules, services, pods, m, n, packet);
      var x :| 0 <= x < |rules| && rules[x] == RuleFor(services[m], pods[n]) && RuleMatches(rules[x], packet);
      FirstIsLeast(rules, packet, r, x);
    }
    assert IsLeastClaim(services, pods, k, l, packet);
  }

  // No other Service has an endpoint of this one, nor a rule with the key of one of its rules.
  predicate EndpointsAreApart(services: seq<Service>, pods: seq<Pod>, i: nat)
    requires i < |services|
  {
    forall k, j :: 0 <= k < |services| && 0 <= j < |pods| && k != i && IsEndpoint(services[k], pods[j]) ==>
      !Serves(services[i], pods, Endpoint(pods[j].status.podIP, services[k].spec.targetPort))
  }

  predicate KeysAreApart(services: seq<Service>, pods: seq<Pod>, i: nat)
    requires i < |services|
  {
    forall k, j, l :: 0 <= k < |services| && 0 <= j < |pods| && 0 <= l < |pods| && k != i ==>
      IsEndpoint(services[i], pods[j]) && IsUsable(services[k]) && IsEndpoint(services[k], pods[l]) ==>
      !SameRuleKey(RuleFor(services[i], pods[j]), RuleFor(services[k], pods[l]))
  }

  // A packet that a Service claims reaches it exactly when one of its claims is a least one.
  lemma ForwardedExactlyWhenFirst(rules: seq<Rule>, services: seq<Service>, pods: seq<Pod>, i: nat, packet: Packet)
    requires AreTheRules(rules, services, pods) && i < |services| && Claims(services[i], pods, packet)
    requires EndpointsAreApart(services, pods, i) && KeysAreApart(services, pods, i)
    ensures var target := FirstMatch(Program(rules).prerouting, packet);
      && target.Some?
      && (Serves(services[i], pods, target.value) <==> exists l: nat :: IsLeastClaim(services, pods, i, l, packet))
  {
    hide AreTheRules, Program, EndpointsAreApart, KeysAreApart, Serves, RuleFor, IsUsable, IsEndpoint, IsFor, RuleLess;
    LeastClaimWins(rules, services, pods, packet);
    var target := FirstMatch(Program(rules).prerouting, packet);
    var j: nat :| j < |pods| && IsEndpoint(services[i], pods[j]);
    assert IsClaim(services, pods, i, j, packet);
    var k: nat, l: nat :| IsLeastClaim(services, pods, k, l, packet) &&
      target == Some(EndpointOf(RuleFor(services[k], pods[l])));
    EndpointIsServed(services, pods, k, l);
    if k != i {
      NotServedByAnother(services, pods, i, k, target.value);
      if m: nat :| IsLeastClaim(services, pods, i, m, packet) {
        LeastClaimsTie(services, pods, i, m, k, l, packet);
        KeysDiffer(services, pods, i, m, k, l);
      }
    }
  }

  lemma EndpointIsServed(services: seq<Service>, pods: seq<Pod>, k: nat, l: nat)
    requires k < |services| && l < |pods| && IsEndpoint(services[k], pods[l])
    ensures Serves(services[k], pods, EndpointOf(RuleFor(services[k], pods[l])))
  {
  }

  lemma LeastClaimsTie(services: seq<Service>, pods: seq<Pod>, i: nat, j: nat, k: nat, l: nat, packet: Packet)
    requires IsLeastClaim(services, pods, i, j, packet) && IsLeastClaim(services, pods, k, l, packet)
    ensures SameRuleKey(RuleFor(services[i], pods[j]), RuleFor(services[k], pods[l]))
  {
    hide IsUsable, IsFor, IsEndpoint, RuleLess, RuleFor;
    RulesCompare(RuleFor(services[i], pods[j]), RuleFor(services[k], pods[l]));
  }

  lemma KeysDiffer(services: seq<Service>, pods: seq<Pod>, i: nat, j: nat, k: nat, l: nat)
    requires i < |services| && k < |services| && j < |pods| && l < |pods| && k != i && KeysAreApart(services, pods, i)
    requires IsEndpoint(services[i], pods[j]) && IsUsable(services[k]) && IsEndpoint(services[k], pods[l])
    ensures !SameRuleKey(RuleFor(services[i], pods[j]), RuleFor(services[k], pods[l]))
  {
  }

  lemma NotServedByAnother(services: seq<Service>, pods: seq<Pod>, i: nat, k: nat, e: Endpoint)
    requires i < |services| && k < |services| && k != i && EndpointsAreApart(services, pods, i)
    requires Serves(services[k], pods, e)
    ensures !Serves(services[i], pods, e)
  {
    hide IsEndpoint;
    var j: nat :| j < |pods| && IsEndpoint(services[k], pods[j]) &&
      e == Endpoint(pods[j].status.podIP, services[k].spec.targetPort);
  }

  // Services compared by ClusterIP, then by port.
  predicate SortsBefore(a: Service, b: Service)
  {
    if a.spec.clusterIP != b.spec.clusterIP then Less(a.spec.clusterIP, b.spec.clusterIP)
    else a.spec.port < b.spec.port
  }

  predicate PairsAreApart(services: seq<Service>)
  {
    forall i, k :: 0 <= i < |services| && 0 <= k < |services| && i != k ==>
      IsUsable(services[i]) && IsUsable(services[k]) ==>
      services[i].spec.clusterIP != services[k].spec.clusterIP || services[i].spec.port != services[k].spec.port
  }

  // When no two Services share both ClusterIP and port, PodIPs never decide: a packet that a
  // Service claims reaches it exactly when it sorts before every other Service that claims it.
  lemma LeastServiceWins(rules: seq<Rule>, services: seq<Service>, pods: seq<Pod>, i: nat, packet: Packet)
    requires AreTheRules(rules, services, pods) && PairsAreApart(services)
    requires i < |services| && Claims(services[i], pods, packet) && EndpointsAreApart(services, pods, i)
    ensures var target := FirstMatch(Program(rules).prerouting, packet);
      && target.Some?
      && (Serves(services[i], pods, target.value) <==>
            forall k :: 0 <= k < |services| && k != i && Claims(services[k], pods, packet) ==>
              SortsBefore(services[i], services[k]))
  {
    hide AreTheRules, Program, EndpointsAreApart, Serves, IsUsable, IsEndpoint, IsFor, PairsAreApart, RuleLess,
      RuleFor, SortsBefore;
    LeastClaimWins(rules, services, pods, packet);
    var target := FirstMatch(Program(rules).prerouting, packet);
    var j: nat :| j < |pods| && IsEndpoint(services[i], pods[j]);
    assert IsClaim(services, pods, i, j, packet);
    var k: nat, l: nat :| IsLeastClaim(services, pods, k, l, packet) &&
      target == Some(EndpointOf(RuleFor(services[k], pods[l])));
    LeastClaimSortsFirst(services, pods, k, l, packet);
    EndpointIsServed(services, pods, k, l);
    if k != i {
      NotServedByAnother(services, pods, i, k, target.value);
      SortingIsAsymmetric(services[k], services[i]);
    }
  }

  lemma SortingIsAsymmetric(a: Service, b: Service)
    ensures SortsBefore(a, b) ==> !SortsBefore(b, a)
  {
    if Less(a.spec.clusterIP, b.spec.clusterIP) {
      LessIsAsymmetric(a.spec.clusterIP, b.spec.clusterIP);
    }
  }

  lemma LeastClaimSortsFirst(services: seq<Service>, pods: seq<Pod>, k: nat, l: nat, packet: Packet)
    requires PairsAreApart(services) && IsLeastClaim(services, pods, k, l, packet)
    ensures k < |services| && l < |pods| && IsEndpoint(services[k], pods[l]) && Claims(services[k], pods, packet)
    ensures forall m :: 0 <= m < |services| && m != k && Claims(services[m], pods, packet) ==>
      SortsBefore(services[k], services[m])
  {
    hide IsUsable, IsEndpoint, IsFor;
    forall m | 0 <= m < |services| && m != k && Claims(services[m], pods, packet)
      ensures SortsBefore(services[k], services[m])
    {
      var n: nat :| n < |pods| && IsEndpoint(services[m], pods[n]);
      assert IsClaim(services, pods, m, n, packet);
      LessIsTotal(services[k].spec.clusterIP, services[m].spec.clusterIP);
    }
  }

  // It happens: a Service whose port is the NodePort of a Service that sorts before it loses
  // its traffic to that Service's endpoint.
  lemma ClashingPortsMisroute(a: Service, b: Service, podA: Pod, podB: Pod)
    requires IsUsable(a) && IsUsable(b) && IsIPv4(a.spec.clusterIP) && IsIPv4(b.spec.clusterIP)
    requires IsIPv4(podA.status.podIP) && IsIPv4(podB.status.podIP)
    requires NodePortOf(b) == a.spec.port && SortsBefore(b, a)
    requires IsEndpoint(a, podA) && !IsEndpoint(a, podB) && IsEndpoint(b, podB) && !IsEndpoint(b, podA)
    ensures var rules := [RuleFor(b, podB), RuleFor(a, podA)];
      && AreTheRules(rules, [a, b], [podA, podB])
      && FirstMatch(Program(rules).prerouting, Packet(a.spec.clusterIP, a.spec.port)) ==
         Some(EndpointOf(RuleFor(b, podB)))
  {
    hide IsEndpoint, IsIPv4, FirstMatch, Chain, Collected;
    var rules, packet := [RuleFor(b, podB), RuleFor(a, podA)], Packet(a.spec.clusterIP, a.spec.port);
    SortingIsAsymmetric(b, a);
    CollectedFromTwo(a, b, podA, podB);
    assert multiset(rules) == multiset([RuleFor(a, podA), RuleFor(b, podB)]);
    FirstRuleWins(rules, packet);
    assert RuleMatches(rules[0], packet);
    var r: nat :| IsFirst(rules, packet, r) && FirstMatch(Chain(rules), packet) == Some(EndpointOf(rules[r]));
    assert r == 0;
  }

  lemma CollectedFromTwo(a: Service, b: Service, podA: Pod, podB: Pod)
    requires IsUsable(a) && IsUsable(b) && IsIPv4(a.spec.clusterIP) && IsIPv4(b.spec.clusterIP)
    requires IsIPv4(podA.status.podIP) && IsIPv4(podB.status.podIP)
    requires IsEndpoint(a, podA) && !IsEndpoint(a, podB) && IsEndpoint(b, podB) && !IsEndpoint(b, podA)
    ensures Collected([a, b], [podA, podB]) == Success([RuleFor(a, podA), RuleFor(b, podB)])
  {
    hide RulesOfService, IsUsable, IsIPv4, RuleFor;
    var pods := [podA, podB];
    RulesFromOne(a, podA, podB);
    RulesFromOne(b, podA, podB);
    var none: seq<Rule> := [];
    assert [a, b][..1] == [a] && [a][..0] == [];
    assert Collected([], pods) == Success(none);
    assert Collected([a], pods) == Success(none + [RuleFor(a, podA)]) &&
      none + [RuleFor(a, podA)] == [RuleFor(a, podA)];
    assert [RuleFor(a, podA)] + [RuleFor(b, podB)] == [RuleFor(a, podA), RuleFor(b, podB)];
  }

  lemma RulesFromOne(s: Service, first: Pod, second: Pod)
    requires IsIPv4(first.status.podIP) && IsIPv4(second.status.podIP)
    requires (IsEndpoint(s, first) <==> !IsEndpoint(s, second))
    ensures RulesOfService(s, [first, second]) == Success([RuleFor(s, if IsEndpoint(s, first) then first else second)])
  {
    hide IsEndpoint, IsIPv4, RuleFor;
    var none: seq<Rule> := [];
    assert [first, second][..1] == [first] && [first][..0] == [];
    assert RulesOfService(s, []) == Success(none);
    assert RulesOfService(s, [first]) == Success(if IsEndpoint(s, first) then none + [RuleFor(s, first)] else none);
    assert none + [RuleFor(s, first)] == [RuleFor(s, first)] && none + [RuleFor(s, second)] == [RuleFor(s, second)];
  }

  // ---------- the order of the lists does not matter ----------

  predicate EndpointsHaveOwnAddresses(services: seq<Service>, pods: seq<Pod>)
  {
    forall i, j, k ::
      0 <= i < |services| && 0 <= j < k < |pods| && IsUsable(services[i]) && IsEndpoint(services[i], pods[j]) ==>
      IsEndpoint(services[i], pods[k]) ==> pods[j].status.podIP != pods[k].status.podIP
  }

  lemma MakersAreUnique(services: seq<Service>, pods: seq<Pod>, a: Rule, b: Rule, i: nat, j: nat, i': nat, j': nat)
    requires PortsAreApart(services) && EndpointsHaveOwnAddresses(services, pods) && SameRuleKey(a, b)
    requires Makes(services, pods, i, j, a) && Makes(services, pods, i', j', b)
    ensures i == i' && j == j' && a == b
  {
    hide IsUsable, IsEndpoint;
  }

  lemma MadeOnce(services: seq<Service>, pods: seq<Pod>, rule: Rule)
    requires PortsAreApart(services) && EndpointsHaveOwnAddresses(services, pods)
    ensures |Makers(services, pods, rule)| <= 1
  {
    hide PortsAreApart, EndpointsHaveOwnAddresses, Makes;
    var makers := Makers(services, pods, rule);
    if makers != {} {
      var pair :| pair in makers;
      forall other | other in makers ensures other == pair {
        MakersAreUnique(services, pods, rule, rule, pair.0, pair.1, other.0, other.1);
      }
      assert makers == {pair};
    }
  }

  // All keys are different, so the order is strict.
  predicate StrictlySorted(rules: seq<Rule>)
  {
    forall i, j :: 0 <= i < j < |rules| ==> RuleLess(rules[i], rules[j])
  }

  lemma RulesAreStrictlySorted(rules: seq<Rule>, services: seq<Service>, pods: seq<Pod>)
    requires AreTheRules(rules, services, pods) && PortsAreApart(services) && EndpointsHaveOwnAddresses(services, pods)
    ensures StrictlySorted(rules)
  {
    forall i, j | 0 <= i < j < |rules| ensures RuleLess(rules[i], rules[j]) {
      RulesCompare(rules[i], rules[j]);
      if SameRuleKey(rules[i], rules[j]) {
        SameKeyTwice(rules, services, pods, i, j);
        assert false;
      }
    }
  }

  lemma SameKeyTwice(rules: seq<Rule>, services: seq<Service>, pods: seq<Pod>, i: nat, j: nat)
    requires AreTheRules(rules, services, pods) && PortsAreApart(services) && EndpointsHaveOwnAddresses(services, pods)
    requires i < j < |rules|
    ensures !SameRuleKey(rules[i], rules[j])
  {
    hide PortsAreApart, EndpointsHaveOwnAddresses, Makes;
    var a, b := rules[i], rules[j];
    if SameRuleKey(a, b) {
      RulesAreMade(rules, services, pods, a);
      RulesAreMade(rules, services, pods, b);
      var k: nat, l: nat :| Makes(services, pods, k, l, a);
      var k': nat, l': nat :| Makes(services, pods, k', l', b);
      MakersAreUnique(services, pods, a, b, k, l, k', l');
      MadeOnce(services, pods, a);
      OneRulePerPair(services, pods, a);
      TwiceInTheList(rules, i, j);
    }
  }

  lemma TwiceInTheList(rules: seq<Rule>, i: nat, j: nat)
    requires i < j < |rules| && rules[i] == rules[j]
    ensures multiset(rules)[rules[i]] >= 2
  {
    assert rules == rules[..j] + rules[j..];
    assert rules[i] in rules[..j];
    assert rules[j] in rules[j..];
    assert multiset(rules) == multiset(rules[..j]) + multiset(rules[j..]);
  }

  lemma {:induction false} StrictListsAreDetermined(a: seq<Rule>, b: seq<Rule>)
    requires StrictlySorted(a) && StrictlySorted(b) && (forall rule :: rule in a <==> rule in b)
    ensures a == b
  {
    SameElementsBothEmpty(a, b);
    if a != [] {
      assert a[0] in b && b[0] in a;
      RulesCompare(a[0], b[0]);
      FirstRulesAgree(a, b);
      forall rule ensures rule in a[1..] <==> rule in b[1..] {
        RuleInTail(a, rule);
        RuleInTail(b, rule);
      }
      StrictListsAreDetermined(a[1..], b[1..]);
    }
  }

  lemma FirstRulesAgree(a: seq<Rule>, b: seq<Rule>)
    requires StrictlySorted(a) && StrictlySorted(b) && (forall rule :: rule in a <==> rule in b) && a != [] && b != []
    ensures a[0] == b[0]
  {
    assert a[0] in b && b[0] in a;
    if a[0] != b[0] {
      RulesCompare(a[0], b[0]);
    }
  }

  lemma RuleInTail(rules: seq<Rule>, rule: Rule)
    requires StrictlySorted(rules) && rules != []
    ensures rule in rules[1..] <==> rule in rules && rule != rules[0]
  {
    RulesCompare(rules[0], rules[0]);
    if rule in rules[1..] {
      var i :| 0 <= i < |rules[1..]| && rules[1..][i] == rule;
      assert rules[i + 1] == rule;
    }
  }

  // The same Services and Pods, in any order and however the sort breaks ties, give the same
  // rules.
  lemma RulesDoNotDependOnOrder(rules: seq<Rule>, services: seq<Service>, pods: seq<Pod>,
                                rules': seq<Rule>, services': seq<Service>, pods': seq<Pod>)
    requires AreTheRules(rules, services, pods) && AreTheRules(rules', services', pods')
    requires multiset(services) == multiset(services') && multiset(pods) == multiset(pods')
    requires PortsAreApart(services) && EndpointsHaveOwnAddresses(services, pods)
    ensures rules == rules'
  {
    PermutedPortsAreApart(services, services');
    PermutedAddressesDiffer(services, pods, services', pods');
    hide AreTheRules, PortsAreApart, EndpointsHaveOwnAddresses, IsMade, StrictlySorted;
    RulesAreStrictlySorted(rules, services, pods);
    RulesAreStrictlySorted(rules', services', pods');
    forall rule ensures rule in rules <==> rule in rules' {
      RulesAreMade(rules, services, pods, rule);
      RulesAreMade(rules', services', pods', rule);
      SameMakers(services, pods, services', pods', rule);
      SameMakers(services', pods', services, pods, rule);
    }
    StrictListsAreDetermined(rules, rules');
  }

  lemma TwoPlaces<T>(s: seq<T>, x: T)
    requires multiset(s)[x] >= 2
    ensures exists i, j :: 0 <= i < j < |s| && s[i] == x && s[j] == x
  {
    var i :| 0 <= i < |s| && s[i] == x;
    var rest := s[..i] + s[i + 1..];
    assert s == s[..i] + [s[i]] + s[i + 1..];
    assert multiset(rest)[x] >= 1;
    var j :| 0 <= j < |rest| && rest[j] == x;
    if j < i {
      assert s[j] == x;
    } else {
      assert s[j + 1] == x;
    }
  }

  // Two elements of a sequence are two elements of any permutation of it.
  lemma PairInAPermutation<T>(s: seq<T>, s': seq<T>, i: nat, j: nat)
    requires multiset(s) == multiset(s') && i < j < |s|
    ensures exists k, l :: 0 <= k < |s'| && 0 <= l < |s'| && k != l && s'[k] == s[i] && s'[l] == s[j]
  {
    assert s[i] in multiset(s') && s[j] in multiset(s');
    if s[i] == s[j] {
      assert s == s[..j] + s[j..] && s[i] in s[..j] && s[j] in s[j..];
      assert multiset(s) == multiset(s[..j]) + multiset(s[j..]);
      TwoPlaces(s', s[i]);
    } else {
      var k :| 0 <= k < |s'| && s'[k] == s[i];
      var l :| 0 <= l < |s'| && s'[l] == s[j];
    }
  }

  lemma PermutedPortsAreApart(services: seq<Service>, services': seq<Service>)
    requires multiset(services) == multiset(services') && PortsAreApart(services)
    ensures PortsAreApart(services')
  {
    hide IsUsable;
    forall i, j | 0 <= i < |services'| && 0 <= j < |services'| && i != j && IsUsable(services'[i]) &&
      IsUsable(services'[j])
      ensures services'[i].spec.clusterIP == services'[j].spec.clusterIP ==>
        services'[i].spec.port != services'[j].spec.port
      ensures NodePortOf(services'[i]) != 0 ==> NodePortOf(services'[i]) != NodePortOf(services'[j])
      ensures NodePortOf(services'[j]) != 0 ==> services'[i].spec.port != NodePortOf(services'[j])
    {
      if i < j {
        PairInAPermutation(services', services, i, j);
      } else {
        PairInAPermutation(services', services, j, i);
      }
    }
  }

  lemma PermutedAddressesDiffer(services: seq<Service>, pods: seq<Pod>, services': seq<Service>, pods': seq<Pod>)
    requires multiset(services) == multiset(services') && multiset(pods) == multiset(pods')
    requires EndpointsHaveOwnAddresses(services, pods)
    ensures EndpointsHaveOwnAddresses(services', pods')
  {
    hide IsUsable, IsEndpoint;
    forall i, j, k | 0 <= i < |services'| && 0 <= j < k < |pods'| && IsUsable(services'[i]) &&
                     IsEndpoint(services'[i], pods'[j]) && IsEndpoint(services'[i], pods'[k])
      ensures pods'[j].status.podIP != pods'[k].status.podIP
    {
      assert services'[i] in multiset(services);
      var m :| 0 <= m < |services| && services[m] == services'[i];
      PairInAPermutation(pods', pods, j, k);
      var n, l :| 0 <= n < |pods| && 0 <= l < |pods| && n != l && pods[n] == pods'[j] && pods[l] == pods'[k];
      assert n < l || l < n;
    }
  }

  lemma SameMakers(services: seq<Service>, pods: seq<Pod>, services': seq<Service>, pods': seq<Pod>, rule: Rule)
    requires multiset(services) == multiset(services') && multiset(pods) == multiset(pods')
    ensures IsMade(services, pods, rule) ==> IsMade(services', pods', rule)
  {
    hide IsUsable, IsEndpoint;
    if IsMade(services, pods, rule) {
      var i: nat, j: nat :| Makes(services, pods, i, j, rule);
      assert services[i] in multiset(services') && pods[j] in multiset(pods');
      var i': nat :| i' < |services'| && services'[i'] == services[i];
      var j': nat :| j' < |pods'| && pods'[j'] == pods[j];
      assert Makes(services', pods', i', j', rule);
    }
  }

  // ---------- the component ----------

  method ServiceRules(services: seq<Service>, pods: seq<Pod>) returns (r: Result<seq<Rule>, RuleError>)
    ensures r.Failure? ==> r == Collected(services, pods)
    ensures r.Success? ==> AreTheRules(r.value, services, pods)
  {
    var rules: seq<Rule> := [];
    for n := 0 to |services|
      invariant Collected(services[..n], pods) == Success(rules)
    {
      var s := services[n];
      assert services[..n + 1][..n] == services[..n];
      if !IsUsable(s) {
        continue;
      }
      FailuresStay(services, n + 1, pods);
      if !IsIPv4(s.spec.clusterIP) {
        return Failure(BadClusterIP(s.meta.name));
      }
      var more := EndpointRules(s, pods);
      if more.Failure? {
        return Failure(more.error);
      }
      rules := rules + more.value;
    }
    assert services[..|services|] == services;
    var sorted := SortRules(rules);
    return Success(sorted);
  }

  lemma {:induction false} FailuresStay(services: seq<Service>, n: nat, pods: seq<Pod>)
    requires n <= |services|
    ensures Collected(services[..n], pods).Failure? ==> Collected(services, pods) == Collected(services[..n], pods)
  {
    if n < |services| {
      var shorter := services[..|services| - 1];
      assert shorter[..n] == services[..n];
      FailuresStay(shorter, n, pods);
    } else {
      assert services[..n] == services;
    }
  }

  method EndpointRules(s: Service, pods: seq<Pod>) returns (r: Result<seq<Rule>, RuleError>)
    ensures r == RulesOfService(s, pods)
  {
    var rules: seq<Rule> := [];
    for n := 0 to |pods|
      invariant RulesOfService(s, pods[..n]) == Success(rules)
    {
      assert pods[..n + 1][..n] == pods[..n];
      PodFailuresStay(s, pods, n + 1);
      if !IsEndpoint(s, pods[n]) {
        continue;
      }
      if !IsIPv4(pods[n].status.podIP) {
        return Failure(BadPodIP(pods[n].meta.name));
      }
      rules := rules + [RuleFor(s, pods[n])];
    }
    assert pods[..|pods|] == pods;
    return Success(rules);
  }

  lemma {:induction false} PodFailuresStay(s: Service, pods: seq<Pod>, n: nat)
    requires n <= |pods|
    ensures RulesOfService(s, pods[..n]).Failure? ==> RulesOfService(s, pods) == RulesOfService(s, pods[..n])
  {
    if n < |pods| {
      var shorter := pods[..|pods| - 1];
      assert shorter[..n] == pods[..n];
      PodFailuresStay(s, shorter, n);
    } else {
      assert pods[..n] == pods;
    }
  }

  // What nft does with the two commands of one replacement.
  datatype Nft = Nft(deletes: bool, applies: bool)

  class Forwarder {
    var table: Option<Table>

    constructor (table: Option<Table>)
      ensures this.table == table
    {
      this.table := table;
    }

    // The new table holds the program of the rules and nothing else, whatever was there.
    method Replace(rules: seq<Rule>, nft: Nft) returns (ok: bool)
      modifies this
      ensures ok <==> nft.applies && (nft.deletes || old(table).None?)
      ensures table == if ok then Some(Program(rules)) else if old(table).Some? && nft.deletes then None else old(table)
    {
      if table.Some? {
        if !nft.deletes {
          return false;
        }
        table := None;
      }
      var chain: seq<Translation>, masquerades: seq<Endpoint> := [], [];
      for n := 0 to |rules|
        invariant chain == Chain(rules[..n]) && masquerades == Masquerades(rules[..n])
      {
        assert rules[..n + 1][..n] == rules[..n];
        var rule := rules[n];
        chain := chain + [ToClusterIP(rule.clusterIP, rule.port, EndpointOf(rule))];
        if rule.nodePort != 0 {
          chain := chain + [ToNodePort(rule.nodePort, EndpointOf(rule))];
          masquerades := masquerades + [EndpointOf(rule)];
        }
      }
      assert rules[..|rules|] == rules;
      if !nft.applies {
        return false;
      }
      table := Some(Table(chain, chain, masquerades));
      return true;
    }
  }

  function ServicesIn(items: seq<Object>): (services: seq<Service>)
    requires forall i :: 0 <= i < |items| ==> items[i].ServiceObject?
  {
    seq(|items|, i requires 0 <= i < |items| => items[i].service)
  }

  class Proxy {
    const server: Server
    const forwarder: Forwarder
    var lastRules: seq<Rule>

    constructor (server: Server, forwarder: Forwarder)
      ensures this.server == server && this.forwarder == forwarder && lastRules == []
    {
      this.server, this.forwarder, lastRules := server, forwarder, [];
    }

    // On success the table is the program of rules that are right for the Services and Pods
    // in the store.
    method Reconcile(nft: Nft) returns (ok: bool, ghost services: seq<Service>)
      requires server.Valid()
      modifies this, forwarder
      ensures WellTyped(Live(server.etcd.log))
      ensures forall s :: s in services <==> ServiceObject(s) in List(Live(server.etcd.log), ServiceKind)
      ensures ok ==>
        AreTheRules(lastRules, services, ListPods(Live(server.etcd.log))) && forwarder.table == Some(Program(lastRules))
      ensures !ok ==> lastRules == old(lastRules)
    {
      hide AreTheRules, Program, Live, Sound, Read;
      var serviceItems := server.List(ServiceKind);
      var podItems := server.List(PodKind);
      services := ServicesIn(serviceItems);
      assert forall i :: 0 <= i < |services| ==> serviceItems[i] == ServiceObject(services[i]);
      var rules := ServiceRules(ServicesIn(serviceItems), PodsOf(podItems));
      if rules.Failure? {
        return false, services;
      }
      ok := forwarder.Replace(rules.value, nft);
      if ok && lastRules != rules.value {
        lastRules := rules.value;
      }
    }
  }
}
