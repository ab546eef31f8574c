// ClusterIP and NodePort allocation, as functions of the stored Services.
module Services {
  import opened Arithmetic
  import opened Text
  import opened Etcd
  import opened Api

  const FIRST_NODE_PORT := 30000
  const LAST_NODE_PORT := 32767
  const FIRST_SERVICE_HOST := 2

  // config.ServiceCIDR, 10.96.0.0/24
  const SERVICE_BASE: nat := 0x0A60_0000
  const LAST_SERVICE_HOST: nat := 255

  datatype PrepareError =
    | UnsupportedType | NoAddressLeft | NodePortOutOfRange | NodePortTaken | NoPortLeft | NodePortNotAllowed

  // ---------- dotted addresses ----------

  // The last `bytes` bytes of the value, after the bytes above them as one number.
  function DottedBytes(value: nat, bytes: nat): string
  {
    if bytes == 0 then Decimal(value) else Numbered(DottedBytes(value / 256, bytes - 1), '.', value % 256)
  }

  lemma {:induction false} DottedBytesIsInjective(a: nat, b: nat, bytes: nat)
    requires DottedBytes(a, bytes) == DottedBytes(b, bytes)
    ensures a == b
  {
    if bytes == 0 {
      NumberOfDecimal(a);
      NumberOfDecimal(b);
    } else {
      NumberedIsInjective(DottedBytes(a / 256, bytes - 1), '.', a % 256, DottedBytes(b / 256, bytes - 1), b % 256);
      DottedBytesIsInjective(a / 256, b / 256, bytes - 1);
    }
  }

  lemma {:induction false} DottedBytesIsNotEmpty(value: nat, bytes: nat)
    ensures DottedBytes(value, bytes) != ""
  {
  }

  // The sum is taken on 32-bit words.
  function ServiceAddress(base: nat, host: nat): string { DottedBytes((base + host) % WORD, 3) }

  lemma ServiceAddressIsInjective(base: nat, g: nat, h: nat)
    requires base + g < WORD && base + h < WORD && ServiceAddress(base, g) == ServiceAddress(base, h)
    ensures g == h
  {
    DottedBytesIsInjective((base + g) % WORD, (base + h) % WORD, 3);
  }

  // ---------- what is in use ----------

  predicate IsService(live: Objects, key: Key)
  {
    key in live && key.kind.ServiceKind? && live[key].value.ServiceObject?
  }

  function ServiceAt(live: Objects, key: Key): Service
    requires IsService(live, key)
  {
    live[key].value.service
  }

  function UsedAddresses(live: Objects): set<string>
  {
    set key | key in live && IsService(live, key) :: ServiceAt(live, key).spec.clusterIP
  }

  predicate HoldsPort(service: Service, excluded: string)
  {
    service.meta.name != excluded && service.spec.nodePort != 0
  }

  function UsedPorts(live: Objects, excluded: string): set<int>
  {
    set key | key in live && IsService(live, key) && HoldsPort(ServiceAt(live, key), excluded) ::
      ServiceAt(live, key).spec.nodePort
  }

  // ---------- allocation ----------

  // The least host number from `host` on whose address is free.
  function FreeServiceHost(used: set<string>, base: nat, host: nat): (r: Option<nat>)
    requires host <= LAST_SERVICE_HOST
    ensures r.Some? ==> host <= r.value < LAST_SERVICE_HOST && ServiceAddress(base, r.value) !in used
    ensures r.Some? ==> forall g :: host <= g < r.value ==> ServiceAddress(base, g) in used
    ensures r.None? ==> forall h :: host <= h < LAST_SERVICE_HOST ==> ServiceAddress(base, h) in used
    decreases LAST_SERVICE_HOST - host
  {
    if host == LAST_SERVICE_HOST then None
    else if ServiceAddress(base, host) !in used then Some(host)
    else FreeServiceHost(used, base, host + 1)
  }

  function FreeAddress(used: set<string>, base: nat, host: nat): Result<string, PrepareError>
    requires host <= LAST_SERVICE_HOST
  {
    match FreeServiceHost(used, base, host)
    case None => Failure(NoAddressLeft)
    case Some(free) => Success(ServiceAddress(base, free))
  }

  function FreePort(used: set<int>, port: int): (r: Result<int, PrepareError>)
    requires port <= LAST_NODE_PORT + 1
    ensures r.Success? ==>
      port <= r.value <= LAST_NODE_PORT && r.value !in used && forall p :: port <= p < r.value ==> p in used
    ensures r.Failure? <==> forall p :: port <= p <= LAST_NODE_PORT ==> p in used
    ensures r.Failure? ==> r.error == NoPortLeft
    decreases LAST_NODE_PORT + 1 - port
  {
    if port > LAST_NODE_PORT then Failure(NoPortLeft)
    else if port !in used then Success(port)
    else FreePort(used, port + 1)
  }

  function NodePortFor(used: set<int>, requested: int): Result<int, PrepareError>
  {
    if requested != 0 && (requested < FIRST_NODE_PORT || requested > LAST_NODE_PORT) then Failure(NodePortOutOfRange)
    else if requested != 0 then (if requested in used then Failure(NodePortTaken) else Success(requested))
    else FreePort(used, FIRST_NODE_PORT)
  }

  // What prepareService makes of a Service in a request; `excluded` is the name whose own
  // NodePort does not count as taken.
  function Prepare(live: Objects, service: Service, excluded: string): Result<Service, PrepareError>
  {
    var given := service.spec.serviceType;
    var spec := service.spec.(serviceType := if given.TypeUnset? then TypeClusterIP else given);
    if !spec.serviceType.TypeClusterIP? && !spec.serviceType.TypeNodePort? then Failure(UnsupportedType)
    else
      var address := if spec.clusterIP == "" then FreeAddress(UsedAddresses(live), SERVICE_BASE, FIRST_SERVICE_HOST)
      else Success(spec.clusterIP);
      if address.Failure? then Failure(address.error)
      else if spec.serviceType.TypeNodePort? then
        var port := NodePortFor(UsedPorts(live, excluded), spec.nodePort);
        if port.Failure? then Failure(port.error)
        else Success(service.(spec := spec.(clusterIP := address.value, nodePort := port.value)))
      else if spec.nodePort != 0 then Failure(NodePortNotAllowed)
      else Success(service.(spec := spec.(clusterIP := address.value)))
  }

  // ---------- exhaustion ----------

  // The addresses and the ports there are to give away.
  function HostAddresses(base: nat, first: nat): set<string>
  {
    set h | first <= h < LAST_SERVICE_HOST :: ServiceAddress(base, h)
  }

  function PortRange(first: int): (ports: set<int>)
    ensures forall p :: p in ports <==> first <= p <= LAST_NODE_PORT
    decreases LAST_NODE_PORT + 1 - first
  {
    if first > LAST_NODE_PORT then {} else {first} + PortRange(first + 1)
  }

  lemma {:induction false} CountAddresses(base: nat, first: nat)
    requires first <= LAST_SERVICE_HOST && base + LAST_SERVICE_HOST < WORD
    ensures |HostAddresses(base, first)| == LAST_SERVICE_HOST - first
    decreases LAST_SERVICE_HOST - first
  {
    if first < LAST_SERVICE_HOST {
      CountAddresses(base, first + 1);
      var rest := HostAddresses(base, first + 1);
      forall h | first + 1 <= h < LAST_SERVICE_HOST ensures ServiceAddress(base, h) != ServiceAddress(base, first) {
        if ServiceAddress(base, h) == ServiceAddress(base, first) {
          ServiceAddressIsInjective(base, h, first);
        }
      }
      assert HostAddresses(base, first) == rest + {ServiceAddress(base, first)};
    } else {
      assert HostAddresses(base, first) == {};
    }
  }

  lemma {:induction false} CountPorts(first: int)
    requires first <= LAST_NODE_PORT + 1
    ensures |PortRange(first)| == LAST_NODE_PORT + 1 - first
    decreases LAST_NODE_PORT + 1 - first
  {
    if first <= LAST_NODE_PORT {
      CountPorts(first + 1);
      assert first !in PortRange(first + 1);
    }
  }

  predicate HasKnownType(service: Service)
  {
    !service.spec.serviceType.TypeOther?
  }

  // A request fails for want of an address exactly when it needs one and all 253 are in use,
  // and for want of a port exactly when it needs one and all 2768 are.
  lemma ExhaustionIsExact(live: Objects, service: Service, excluded: string)
    ensures |HostAddresses(SERVICE_BASE, FIRST_SERVICE_HOST)| == 253 && |PortRange(FIRST_NODE_PORT)| == 2768
    ensures Prepare(live, service, excluded) == Failure(NoAddressLeft) <==>
      HasKnownType(service) && service.spec.clusterIP == "" &&
        HostAddresses(SERVICE_BASE, FIRST_SERVICE_HOST) <= UsedAddresses(live)
    ensures Prepare(live, service, excluded) == Failure(NoPortLeft) <==>
      && service.spec.serviceType.TypeNodePort? && service.spec.nodePort == 0
      && (service.spec.clusterIP == "" ==> !(HostAddresses(SERVICE_BASE, FIRST_SERVICE_HOST) <= UsedAddresses(live)))
      && PortRange(FIRST_NODE_PORT) <= UsedPorts(live, excluded)
  {
    hide UsedAddresses, UsedPorts, FreeAddress, FreePort, HostAddresses, PortRange;
    CountAddresses(SERVICE_BASE, FIRST_SERVICE_HOST);
    CountPorts(FIRST_NODE_PORT);
    AddressesUsedUp(UsedAddresses(live));
    PortsUsedUp(UsedPorts(live, excluded));
  }

  lemma AddressesUsedUp(used: set<string>)
    ensures FreeAddress(used, SERVICE_BASE, FIRST_SERVICE_HOST).Failure? <==>
      HostAddresses(SERVICE_BASE, FIRST_SERVICE_HOST) <= used
    ensures FreeAddress(used, SERVICE_BASE, FIRST_SERVICE_HOST).Failure? ==>
      FreeAddress(used, SERVICE_BASE, FIRST_SERVICE_HOST).error == NoAddressLeft
  {
    hide ServiceAddress;
    forall h | FIRST_SERVICE_HOST <= h < LAST_SERVICE_HOST
      ensures ServiceAddress(SERVICE_BASE, h) in HostAddresses(SERVICE_BASE, FIRST_SERVICE_HOST)
    {
    }
  }

  lemma PortsUsedUp(used: set<int>)
    ensures FreePort(used, FIRST_NODE_PORT).Failure? <==> PortRange(FIRST_NODE_PORT) <= used
  {
    forall p | FIRST_NODE_PORT <= p <= LAST_NODE_PORT ensures p in PortRange(FIRST_NODE_PORT) {
    }
  }

  // ---------- the allocation invariant ----------

  predicate ServiceOk(service: Service)
  {
    && (service.spec.serviceType.TypeClusterIP? || service.spec.serviceType.TypeNodePort?)
    && (service.spec.nodePort != 0 <==> service.spec.serviceType.TypeNodePort?)
    && (service.spec.serviceType.TypeNodePort? ==> FIRST_NODE_PORT <= service.spec.nodePort <= LAST_NODE_PORT)
    && service.spec.clusterIP != ""
  }

  predicate PortsDiffer(live: Objects, a: Key, b: Key)
    requires IsService(live, a) && IsService(live, b)
  {
    a != b && ServiceAt(live, a).spec.nodePort != 0 ==>
      ServiceAt(live, a).spec.nodePort != ServiceAt(live, b).spec.nodePort
  }

  ghost predicate ServicesOk(live: Objects)
  {
    && (forall key :: IsService(live, key) ==> ServiceOk(ServiceAt(live, key)))
    && (forall a, b :: IsService(live, a) && IsService(live, b) ==> PortsDiffer(live, a, b))
  }

  lemma ChosenAddressIsNew(live: Objects, base: nat)
    requires FreeAddress(UsedAddresses(live), base, FIRST_SERVICE_HOST).Success?
    ensures var address := FreeAddress(UsedAddresses(live), base, FIRST_SERVICE_HOST).value;
      && address != ""
      && (exists h :: FIRST_SERVICE_HOST <= h < LAST_SERVICE_HOST && address == ServiceAddress(base, h))
      && (forall key :: IsService(live, key) ==> ServiceAt(live, key).spec.clusterIP != address)
  {
    var used := UsedAddresses(live);
    var address := FreeAddress(used, base, FIRST_SERVICE_HOST).value;
    var h := FreeServiceHost(used, base, FIRST_SERVICE_HOST).value;
    assert address == ServiceAddress(base, h);
    DottedBytesIsNotEmpty((base + h) % WORD, 3);
    forall key | IsService(live, key) ensures ServiceAt(live, key).spec.clusterIP != address {
      assert ServiceAt(live, key).spec.clusterIP in used;
    }
  }

  lemma ChosenPortIsNew(live: Objects, requested: int, excluded: string, key: Key)
    requires WellTyped(live) && IsService(live, key) && key.name != excluded
    requires NodePortFor(UsedPorts(live, excluded), requested).Success?
    ensures var port := NodePortFor(UsedPorts(live, excluded), requested).value;
      FIRST_NODE_PORT <= port <= LAST_NODE_PORT && ServiceAt(live, key).spec.nodePort != port
  {
    assert KeyOf(live[key].value) == key;
    if ServiceAt(live, key).spec.nodePort != 0 {
      assert HoldsPort(ServiceAt(live, key), excluded);
      assert ServiceAt(live, key).spec.nodePort in UsedPorts(live, excluded);
    }
  }

  // A prepared Service obeys the port and type rules, clashes with no other stored port,
  // and an address the server chose is a host address in 2..254 that nobody stored has.
  lemma PreparedServicesAreSound(live: Objects, service: Service, excluded: string)
    requires WellTyped(live) && Prepare(live, service, excluded).Success?
    ensures var s := Prepare(live, service, excluded).value;
      && ServiceOk(s) && s.meta == service.meta
      && (forall key :: IsService(live, key) && key.name != excluded && s.spec.nodePort != 0 ==>
            ServiceAt(live, key).spec.nodePort != s.spec.nodePort)
      && (service.spec.clusterIP != "" ==> s.spec.clusterIP == service.spec.clusterIP)
      && (service.spec.clusterIP == "" ==>
            (exists h ::
              FIRST_SERVICE_HOST <= h < LAST_SERVICE_HOST && s.spec.clusterIP == ServiceAddress(SERVICE_BASE, h)) &&
            (forall key :: IsService(live, key) ==> ServiceAt(live, key).spec.clusterIP != s.spec.clusterIP))
  {
    var s := Prepare(live, service, excluded).value;
    if service.spec.clusterIP == "" {
      ChosenAddressIsNew(live, SERVICE_BASE);
    }
    forall key | IsService(live, key) && key.name != excluded && s.spec.nodePort != 0
      ensures ServiceAt(live, key).spec.nodePort != s.spec.nodePort
    {
      ChosenPortIsNew(live, service.spec.nodePort, excluded, key);
    }
  }

  // Another stored Service than `excluded` has the port; some stored Service has the address.
  predicate IsPortTaken(live: Objects, excluded: string, port: int)
  {
    exists key ::
      key in live && IsService(live, key) && key.name != excluded && ServiceAt(live, key).spec.nodePort == port
  }

  predicate IsAddressTaken(live: Objects, address: string)
  {
    exists key :: key in live && IsService(live, key) && ServiceAt(live, key).spec.clusterIP == address
  }

  // What the server makes of a Service in a request: it fills in the type, the address and the
  // port where they are not given, and changes nothing else.
  ghost predicate IsFilledIn(live: Objects, given: Service, excluded: string, s: Service)
  {
    && s.meta == given.meta && s.spec.selector == given.spec.selector
    && s.spec.port == given.spec.port && s.spec.targetPort == given.spec.targetPort
    && s.spec.serviceType == (if given.spec.serviceType == TypeUnset then TypeClusterIP else given.spec.serviceType)
    && (if given.spec.clusterIP != "" then s.spec.clusterIP == given.spec.clusterIP
        else IsLeastFreeAddress(live, s.spec.clusterIP))
    && (if s.spec.serviceType != TypeNodePort then s.spec.nodePort == given.spec.nodePort == 0
        else if given.spec.nodePort != 0 then s.spec.nodePort == given.spec.nodePort
        else IsLeastFreePort(live, excluded, s.spec.nodePort))
  }

  ghost predicate IsLeastFreeAddress(live: Objects, address: string)
  {
    exists h :: 2 <= h < 255 && address == ServiceAddress(SERVICE_BASE, h) && !IsAddressTaken(live, address) &&
      forall g :: 2 <= g < h ==> IsAddressTaken(live, ServiceAddress(SERVICE_BASE, g))
  }

  ghost predicate IsLeastFreePort(live: Objects, excluded: string, port: int)
  {
    && 30000 <= port <= 32767 && !IsPortTaken(live, excluded, port)
    && forall p :: 30000 <= p < port ==> IsPortTaken(live, excluded, p)
  }

  lemma AddressesAreTakenWhenUsed(live: Objects, address: string)
    ensures address in UsedAddresses(live) ==> IsAddressTaken(live, address)
    ensures IsAddressTaken(live, address) && address != "" ==> address in UsedAddresses(live)
  {
  }

  lemma PortsAreTakenWhenUsed(live: Objects, excluded: string, port: int)
    requires WellTyped(live) && port != 0
    ensures port in UsedPorts(live, excluded) <==> IsPortTaken(live, excluded, port)
  {
    if IsPortTaken(live, excluded, port) {
      var key :| key in live && IsService(live, key) && key.name != excluded &&
        ServiceAt(live, key).spec.nodePort == port;
      assert KeyOf(live[key].value) == key;
      assert HoldsPort(ServiceAt(live, key), excluded);
    }
    if port in UsedPorts(live, excluded) {
      var key :| key in live && IsService(live, key) && HoldsPort(ServiceAt(live, key), excluded) &&
        ServiceAt(live, key).spec.nodePort == port;
      assert KeyOf(live[key].value) == key;
    }
  }

  lemma ChosenAddressIsLeast(live: Objects)
    requires FreeAddress(UsedAddresses(live), SERVICE_BASE, FIRST_SERVICE_HOST).Success?
    ensures IsLeastFreeAddress(live, FreeAddress(UsedAddresses(live), SERVICE_BASE, FIRST_SERVICE_HOST).value)
  {
    hide UsedAddresses, IsAddressTaken, ServiceAddress;
    var used := UsedAddresses(live);
    var h := FreeServiceHost(used, SERVICE_BASE, FIRST_SERVICE_HOST).value;
    ChosenAddressIsNew(live, SERVICE_BASE);
    AddressesAreTakenWhenUsed(live, ServiceAddress(SERVICE_BASE, h));
    forall g | 2 <= g < h ensures IsAddressTaken(live, ServiceAddress(SERVICE_BASE, g)) {
      AddressesAreTakenWhenUsed(live, ServiceAddress(SERVICE_BASE, g));
    }
  }

  lemma ChosenPortIsLeast(live: Objects, excluded: string)
    requires WellTyped(live) && NodePortFor(UsedPorts(live, excluded), 0).Success?
    ensures IsLeastFreePort(live, excluded, NodePortFor(UsedPorts(live, excluded), 0).value)
  {
    hide UsedPorts, IsPortTaken;
    var port := NodePortFor(UsedPorts(live, excluded), 0).value;
    PortsAreTakenWhenUsed(live, excluded, port);
    forall p | 30000 <= p < port ensures IsPortTaken(live, excluded, p) {
      PortsAreTakenWhenUsed(live, excluded, p);
    }
  }

  lemma PreparedServicesAreFilledIn(live: Objects, service: Service, excluded: string)
    requires WellTyped(live) && Prepare(live, service, excluded).Success?
    ensures IsFilledIn(live, service, excluded, Prepare(live, service, excluded).value)
  {
    hide UsedAddresses, UsedPorts, FreeAddress, IsLeastFreeAddress, IsLeastFreePort;
    if service.spec.clusterIP == "" {
      ChosenAddressIsLeast(live);
    }
    if service.spec.serviceType == TypeNodePort && service.spec.nodePort == 0 {
      ChosenPortIsLeast(live, excluded);
    }
  }

  // A Service in a request is refused exactly for an unknown type, for a port that its type
  // does not allow or that is out of range or taken, or when there is nothing left to choose.
  lemma ServicesAreRefusedExactly(live: Objects, service: Service, excluded: string)
    requires WellTyped(live)
    ensures Prepare(live, service, excluded).Failure? <==>
      || service.spec.serviceType.TypeOther?
      || (service.spec.clusterIP == "" &&
          forall h :: 2 <= h < 255 ==> IsAddressTaken(live, ServiceAddress(SERVICE_BASE, h)))
      || (service.spec.serviceType != TypeNodePort && service.spec.nodePort != 0)
      || (service.spec.serviceType == TypeNodePort && service.spec.nodePort != 0 &&
          (!(30000 <= service.spec.nodePort <= 32767) || IsPortTaken(live, excluded, service.spec.nodePort)))
      || (service.spec.serviceType == TypeNodePort && service.spec.nodePort == 0 &&
          forall p :: 30000 <= p <= 32767 ==> IsPortTaken(live, excluded, p))
  {
    hide UsedAddresses, UsedPorts, IsAddressTaken, IsPortTaken, ServiceAddress;
    forall h | 2 <= h < 255
      ensures ServiceAddress(SERVICE_BASE, h) in UsedAddresses(live) <==>
              IsAddressTaken(live, ServiceAddress(SERVICE_BASE, h))
    {
      AddressesAreTakenWhenUsed(live, ServiceAddress(SERVICE_BASE, h));
      ServiceAddressesAreNotEmpty(h);
    }
    forall p | 30000 <= p <= 32767 ensures p in UsedPorts(live, excluded) <==> IsPortTaken(live, excluded, p) {
      PortsAreTakenWhenUsed(live, excluded, p);
    }
  }

  // One byte more at the end.
  lemma DottedStep(above: nat, h: nat, bytes: nat)
    requires h < 256
    ensures DottedBytes(above * 256 + h, bytes + 1) == DottedBytes(above, bytes) + "." + Decimal(h)
  {
    hide Decimal;
    assert (above * 256 + h) / 256 == above && (above * 256 + h) % 256 == h;
  }

  lemma ServiceNetworkInWords()
    ensures DottedBytes((10 * 256 + 96) * 256, 2) == "10.96.0"
  {
    DottedStep(10, 96, 0);
    DottedStep(10 * 256 + 96, 0, 1);
    assert Decimal(10) == "10" && Decimal(96) == "96" && Decimal(0) == "0";
    hide Decimal;
  }

  lemma ServiceAddressInWords(h: nat)
    requires h < 256
    ensures ServiceAddress(SERVICE_BASE, h) == "10.96.0." + Decimal(h)
  {
    hide Decimal, DottedBytes;
    var network: nat := (10 * 256 + 96) * 256;
    ServiceNetworkInWords();
    DottedStep(network, h, 2);
    assert network * 256 + h == SERVICE_BASE + h < WORD;
    assert "10.96.0" + "." == "10.96.0.";
  }

  lemma ServiceAddressesAreNotEmpty(h: nat)
    ensures ServiceAddress(SERVICE_BASE, h) != ""
  {
    DottedBytesIsNotEmpty((SERVICE_BASE + h) % WORD, 3);
  }

  // Storing a prepared Service under its name keeps the invariant when the request excluded
  // its own name (an update) or no stored name at all (a creation).
  lemma StoringAPreparedServiceKeepsTheInvariant(live: Objects, service: Service, excluded: string, revision: nat,
                                                 base: nat)
    requires WellTyped(live) && ServicesOk(live)
    requires Prepare(live, service, excluded).Success?
    requires excluded == service.meta.name || Key(ServiceKind, excluded) !in live
    ensures var s := Prepare(live, service, excluded).value;
      ServicesOk(Applied(live, Put(Key(ServiceKind, service.meta.name), ServiceObject(s), base), revision))
  {
    hide Prepare;
    PreparedServicesAreSound(live, service, excluded);
    var s := Prepare(live, service, excluded).value;
    var key := Key(ServiceKind, service.meta.name);
    var after := Applied(live, Put(key, ServiceObject(s), base), revision);
    forall other | IsService(after, other) && other != key
      ensures IsService(live, other) && ServiceAt(after, other) == ServiceAt(live, other)
      ensures s.spec.nodePort != 0 ==> ServiceAt(live, other).spec.nodePort != s.spec.nodePort
    {
      assert KeyOf(live[other].value) == other;
      assert other == Key(ServiceKind, other.name);
    }
  }
}
