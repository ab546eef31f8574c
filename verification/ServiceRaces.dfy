// Service writes whose list is older than their transaction: exactly when they break the
// allocation invariant.
module ServiceRaces {
  import opened Text
  import opened Etcd
  import opened Api
  import opened Services
  import opened ApiServer

  // A request whose Service was prepared on `listed` and whose transaction meets `live`.
  function LateAttempt(listed: Objects, live: Objects, request: Request): Result<Write<Object>, ApiError>
  {
    match request
    case Post(body) =>
      if !IsValid(body) then Failure(BadRequest)
      else
        var prepared := PrepareObject(listed, body, "");
        if prepared.Failure? then Failure(prepared.error)
        else if !CanCreate(live, KeyOf(body)) then Failure(ConflictStatus)
        else Success(Put(KeyOf(body), prepared.value, 0))
    case Update(name, body) =>
      if !IsValid(body) || MetaOf(body).name != name then Failure(BadRequest)
      else
        var prepared := PrepareObject(listed, body, name);
        if prepared.Failure? then Failure(prepared.error)
        else if MetaOf(body).resourceVersion == 0 then Failure(BadRequest)
        else if !CanUpdate(live, KeyOf(body), MetaOf(body).resourceVersion) then Failure(ConflictStatus)
        else Success(Put(KeyOf(body), prepared.value, MetaOf(body).resourceVersion))
    case Remove(_, _) => Attempt(live, request)
  }

  // Without delay it is the request as the server serves it.
  lemma WithoutDelayItIsServed(live: Objects, request: Request)
    ensures LateAttempt(live, live, request) == Attempt(live, request)
  {
  }

  // The NodePort of the Service that is written, if there is one, is free at the transaction.
  predicate PortIsFree(live: Objects, write: Write<Object>)
  {
    write.Put? && write.value.ServiceObject? && write.value.service.spec.nodePort != 0 ==>
      write.value.service.spec.nodePort !in UsedPorts(live, write.value.service.meta.name)
  }

  lemma PrefixIsWellTyped(log: seq<Write<Object>>, at: nat)
    requires Sound(log) && at <= |log|
    ensures WellTyped(Live(log[..at]))
  {
    var before := log[..at];
    forall i | 0 <= i < |before| && before[i].Put? ensures KeyOf(before[i].value) == before[i].key {
      assert before[i] == log[i];
    }
    WellTypedLogGivesWellTypedObjects(before);
  }

  lemma LateWritesFit(log: seq<Write<Object>>, listed: Objects, request: Request)
    requires Sound(log) && WellTyped(listed) && LateAttempt(listed, Live(log), request).Success?
    ensures var write := LateAttempt(listed, Live(log), request).value;
      && Admits(Live(log), write) && write.key.name != ""
      && (write.Put? ==> KeyOf(write.value) == write.key)
      && (write.Put? && write.value.ServiceObject? ==> ServiceOk(write.value.service))
  {
    hide Live, Accepted, ServicesOk, Prepare, ServiceOk;
    var live := Live(log);
    match request {
      case Post(body) =>
        PreparedKeepsKey(listed, body, "");
        PreparedIsOk(listed, body, "");
        VersionIsZeroExactlyWhenAbsent(log, KeyOf(body));
      case Update(name, body) =>
        PreparedKeepsKey(listed, body, name);
        PreparedIsOk(listed, body, name);
      case Remove(key, _) =>
        VersionIsZeroExactlyWhenAbsent(log, key);
        LiveKeysAreNamed(log, key);
    }
  }

  lemma PreparedIsOk(listed: Objects, o: Object, excluded: string)
    requires WellTyped(listed) && PrepareObject(listed, o, excluded).Success?
    ensures var prepared := PrepareObject(listed, o, excluded).value;
      prepared.ServiceObject? ==> ServiceOk(prepared.service)
  {
    if o.ServiceObject? {
      PreparedServicesAreSound(listed, o.service, excluded);
    }
  }

  lemma ServicesAfterAWrite(live: Objects, write: Write<Object>, revision: nat)
    requires WellTyped(live) && ServicesOk(live) && (write.Put? ==> KeyOf(write.value) == write.key)
    requires write.Put? && write.value.ServiceObject? ==> ServiceOk(write.value.service)
    ensures ServicesOk(Applied(live, write, revision)) <==> PortIsFree(live, write)
  {
    hide ServiceOk, UsedPorts;
    if write.Erase? {
      ErasingKeepsServices(live, write.key, revision);
    } else if !write.value.ServiceObject? {
      StoringAnotherKindKeepsServices(live, write, revision);
    } else if PortIsFree(live, write) {
      FreePortKeepsServices(live, write, revision);
    } else {
      TakenPortBreaksServices(live, write, revision);
    }
  }

  lemma FreePortKeepsServices(live: Objects, write: Write<Object>, revision: nat)
    requires WellTyped(live) && ServicesOk(live) && write.Put? && KeyOf(write.value) == write.key
    requires write.value.ServiceObject? && ServiceOk(write.value.service) && PortIsFree(live, write)
    ensures ServicesOk(Applied(live, write, revision))
  {
    hide ServiceOk;
    var s, after := write.value.service, Applied(live, write, revision);
    forall other | IsService(after, other) && other != write.key
      ensures IsService(live, other) && ServiceAt(after, other) == ServiceAt(live, other)
      ensures s.spec.nodePort != 0 ==> ServiceAt(live, other).spec.nodePort != s.spec.nodePort
    {
      assert KeyOf(live[other].value) == other;
      assert other == Key(ServiceKind, other.name);
    }
  }

  lemma TakenPortBreaksServices(live: Objects, write: Write<Object>, revision: nat)
    requires WellTyped(live) && write.Put? && KeyOf(write.value) == write.key && write.value.ServiceObject?
    requires !PortIsFree(live, write)
    ensures !ServicesOk(Applied(live, write, revision))
  {
    var s, after := write.value.service, Applied(live, write, revision);
    var other :| other in live && IsService(live, other) && HoldsPort(ServiceAt(live, other), s.meta.name) &&
      ServiceAt(live, other).spec.nodePort == s.spec.nodePort;
    assert KeyOf(live[other].value) == other;
    assert IsService(after, other) && IsService(after, write.key) && !PortsDiffer(after, write.key, other);
  }

  // A write on a list of any age keeps the store sound if and only if the NodePort it stores
  // is free when its transaction is made.
  lemma LateWritesAreSoundExactlyWithAFreePort(log: seq<Write<Object>>, at: nat, request: Request)
    requires Sound(log) && at <= |log| && LateAttempt(Live(log[..at]), Live(log), request).Success?
    ensures var write := LateAttempt(Live(log[..at]), Live(log), request).value;
      && Admits(Live(log), write) && Accepted(log + [write])
      && (Sound(log + [write]) <==> PortIsFree(Live(log), write))
      && (ServicesOk(Live(log + [write])) <==> PortIsFree(Live(log), write))
  {
    PrefixIsWellTyped(log, at);
    SoundIsWellTyped(log);
    LateWriteIsSoundWhen(log, Live(log[..at]), request);
  }

  lemma LateWriteIsSoundWhen(log: seq<Write<Object>>, listed: Objects, request: Request)
    requires Sound(log) && WellTyped(listed) && WellTyped(Live(log)) && LateAttempt(listed, Live(log), request).Success?
    ensures var write := LateAttempt(listed, Live(log), request).value;
      && Admits(Live(log), write) && Accepted(log + [write])
      && Live(log + [write]) == Applied(Live(log), write, |log| + 2)
      && (Sound(log + [write]) <==> PortIsFree(Live(log), write))
      && (ServicesOk(Live(log + [write])) <==> PortIsFree(Live(log), write))
  {
    hide LateAttempt, ServicesOk, PortIsFree, ServiceOk, WellTyped;
    var write := LateAttempt(listed, Live(log), request).value;
    LateWritesFit(log, listed, request);
    AcceptedExtends(log, write);
    ServicesAfterAWrite(Live(log), write, |log| + 2);
  }

  // ---------- two overlapping creations ----------

  // The NodePort a creation is given: the requested one, else the least free.
  function ChosenPort(live: Objects, service: Service): int
  {
    if service.spec.nodePort != 0 then service.spec.nodePort
    else
      var port := FreePort(UsedPorts(live, ""), FIRST_NODE_PORT);
      if port.Success? then port.value else 0
  }

  // Two Services that ask for a NodePort and leave the choice to the server.
  predicate AreAutomatic(a: Service, b: Service)
  {
    a.spec.serviceType.TypeNodePort? && b.spec.serviceType.TypeNodePort? && a.spec.nodePort == b.spec.nodePort == 0
  }

  predicate Collide(live: Objects, a: Service, b: Service)
  {
    a.spec.serviceType.TypeNodePort? && b.spec.serviceType.TypeNodePort? && ChosenPort(live, a) == ChosenPort(live, b)
  }

  function CreationOf(listed: Objects, service: Service): Write<Object>
    requires Prepare(listed, service, "").Success?
  {
    Put(Key(ServiceKind, service.meta.name), ServiceObject(Prepare(listed, service, "").value), 0)
  }

  lemma CreationIsTaken(log: seq<Write<Object>>, listed: Objects, service: Service)
    requires WellTyped(listed) && service.meta.name != "" && Prepare(listed, service, "").Success?
    requires Key(ServiceKind, service.meta.name) !in Live(log)
    ensures LateAttempt(listed, Live(log), Post(ServiceObject(service))) == Success(CreationOf(listed, service))
    ensures CreationOf(listed, service).value.service.meta == service.meta
  {
    VersionIsZeroExactlyWhenAbsent(log, Key(ServiceKind, service.meta.name));
    PreparedServicesAreSound(listed, service, "");
  }

  lemma PreparedPort(listed: Objects, service: Service)
    requires WellTyped(listed) && Prepare(listed, service, "").Success?
    ensures var port := Prepare(listed, service, "").value.spec.nodePort;
      && port == (if service.spec.serviceType.TypeNodePort? then ChosenPort(listed, service) else 0)
      && port !in UsedPorts(listed, "")
      && (service.spec.serviceType.TypeNodePort? ==> port != 0)
  {
    hide FreeAddress, UsedAddresses, WellTyped;
  }

  lemma PortsAfterACreation(live: Objects, a: Service, write: Write<Object>, revision: nat, excluded: string)
    requires WellTyped(live) && write == Put(Key(ServiceKind, a.meta.name), ServiceObject(a), 0) && write.key !in live
    requires a.meta.name != excluded && Key(ServiceKind, excluded) !in live && Key(ServiceKind, "") !in live
    ensures UsedPorts(Applied(live, write, revision), excluded) ==
      UsedPorts(live, "") + if a.spec.nodePort != 0 then {a.spec.nodePort} else {}
  {
    var after := Applied(live, write, revision);
    var own := if a.spec.nodePort != 0 then {a.spec.nodePort} else {};
    forall port | port in UsedPorts(after, excluded) ensures port in UsedPorts(live, "") + own {
      var key :| key in after && IsService(after, key) && HoldsPort(ServiceAt(after, key), excluded) &&
        ServiceAt(after, key).spec.nodePort == port;
      if key != write.key {
        HoldsPortToo(live, key, "");
      }
    }
    forall port | port in UsedPorts(live, "") + own ensures port in UsedPorts(after, excluded) {
      if port in UsedPorts(live, "") {
        var key :| key in live && IsService(live, key) && HoldsPort(ServiceAt(live, key), "") &&
          ServiceAt(live, key).spec.nodePort == port;
        HoldsPortToo(live, key, excluded);
        assert IsService(after, key) && ServiceAt(after, key) == ServiceAt(live, key);
      } else {
        assert IsService(after, write.key) && HoldsPort(ServiceAt(after, write.key), excluded);
      }
    }
  }

  lemma HoldsPortToo(live: Objects, key: Key, excluded: string)
    requires WellTyped(live) && IsService(live, key) && ServiceAt(live, key).spec.nodePort != 0
    requires Key(ServiceKind, excluded) !in live
    ensures HoldsPort(ServiceAt(live, key), excluded)
  {
    assert KeyOf(live[key].value) == key && key == Key(ServiceKind, key.name);
  }

  ghost predicate CanBeCreated(log: seq<Write<Object>>, service: Service)
  {
    && service.meta.name != "" && Key(ServiceKind, service.meta.name) !in Live(log)
    && Prepare(Live(log), service, "").Success?
  }

  lemma FirstCreation(log: seq<Write<Object>>, a: Service)
    requires Sound(log) && CanBeCreated(log, a)
    ensures WellTyped(Live(log))
    ensures LateAttempt(Live(log), Live(log), Post(ServiceObject(a))) == Success(CreationOf(Live(log), a))
    ensures var first := log + [CreationOf(Live(log), a)];
      Sound(first) && WellTyped(Live(first)) && Live(first) == Applied(Live(log), CreationOf(Live(log), a), |log| + 2)
  {
    hide Sound, LateAttempt;
    SoundIsWellTyped(log);
    CreationIsTaken(log, Live(log), a);
    WithoutDelayItIsServed(Live(log), Post(ServiceObject(a)));
    ServingKeepsSoundness(log, Post(ServiceObject(a)));
    SoundIsWellTyped(log + [CreationOf(Live(log), a)]);
  }

  // Two creations under different names, prepared on the same list and committed one after
  // the other: both are accepted, and the store stays sound if and only if they do not end up
  // with the same NodePort. Two that leave the port to the server always do, and two that
  // leave the address to it get the same ClusterIP.
  lemma TwoOverlappingCreations(log: seq<Write<Object>>, a: Service, b: Service)
    requires Sound(log) && a.meta.name != b.meta.name && CanBeCreated(log, a) && CanBeCreated(log, b)
    ensures var live := Live(log);
      var first := log + [CreationOf(live, a)];
      var second := first + [CreationOf(live, b)];
      && LateAttempt(live, live, Post(ServiceObject(a))) == Success(CreationOf(live, a))
      && LateAttempt(live, Live(first), Post(ServiceObject(b))) == Success(CreationOf(live, b))
      && Accepted(second) && Sound(first)
      && (Sound(second) <==> !Collide(live, a, b)) && (ServicesOk(Live(second)) <==> !Collide(live, a, b))
    ensures AreAutomatic(a, b) ==> Collide(Live(log), a, b)
    ensures a.spec.clusterIP == b.spec.clusterIP == "" ==>
      Prepare(Live(log), a, "").value.spec.clusterIP == Prepare(Live(log), b, "").value.spec.clusterIP
  {
    FirstCreation(log, a);
    SameAddress(Live(log), a, b);
    hide Sound, LateAttempt, Prepare, ServicesOk, Collide;
    var live := Live(log);
    var first := log + [CreationOf(live, a)];
    SecondStillAbsent(live, CreationOf(live, a), |log| + 2, b);
    CreationIsTaken(first, live, b);
    LateWriteIsSoundWhen(first, live, Post(ServiceObject(b)));
    NoNamelessService(log);
    PortsAfterTheFirst(log, a, b);
    CollideByPorts(live, a, b);
  }

  lemma SameAddress(live: Objects, a: Service, b: Service)
    requires Prepare(live, a, "").Success? && Prepare(live, b, "").Success?
    ensures a.spec.clusterIP == b.spec.clusterIP == "" ==>
      Prepare(live, a, "").value.spec.clusterIP == Prepare(live, b, "").value.spec.clusterIP
    ensures AreAutomatic(a, b) ==> Collide(live, a, b)
  {
  }

  lemma SecondStillAbsent(live: Objects, write: Write<Object>, revision: nat, b: Service)
    requires write.Put? && write.key.name != b.meta.name && Key(ServiceKind, b.meta.name) !in live
    ensures Key(ServiceKind, b.meta.name) !in Applied(live, write, revision)
  {
  }

  lemma NoNamelessService(log: seq<Write<Object>>)
    requires Sound(log)
    ensures Key(ServiceKind, "") !in Live(log)
  {
    if Key(ServiceKind, "") in Live(log) {
      LiveKeysAreNamed(log, Key(ServiceKind, ""));
    }
  }

  lemma PortsAfterTheFirst(log: seq<Write<Object>>, a: Service, b: Service)
    requires WellTyped(Live(log)) && CanBeCreated(log, a) && CanBeCreated(log, b) && a.meta.name != b.meta.name
    requires Key(ServiceKind, "") !in Live(log)
    ensures var write := CreationOf(Live(log), a);
      UsedPorts(Applied(Live(log), write, |log| + 2), b.meta.name) ==
      UsedPorts(Live(log), "") +
      if write.value.service.spec.nodePort != 0 then {write.value.service.spec.nodePort} else {}
  {
    hide Prepare, WellTyped;
    PreparedServicesAreSound(Live(log), a, "");
    PortsAfterACreation(Live(log), CreationOf(Live(log), a).value.service, CreationOf(Live(log), a), |log| + 2,
      b.meta.name);
  }

  lemma CollideByPorts(live: Objects, a: Service, b: Service)
    requires WellTyped(live) && Prepare(live, a, "").Success? && Prepare(live, b, "").Success?
    ensures var pa, pb := Prepare(live, a, "").value.spec.nodePort, Prepare(live, b, "").value.spec.nodePort;
      && (pb != 0 && pb in UsedPorts(live, "") + (if pa != 0 then {pa} else {}) <==> Collide(live, a, b))
      && Prepare(live, b, "").value.meta == b.meta
  {
    hide Prepare, ChosenPort, WellTyped;
    PreparedPort(live, a);
    PreparedPort(live, b);
    PreparedServicesAreSound(live, b, "");
  }

  // ---------- the invariant does break ----------

  function Web(name: string): Service
  {
    Service(Meta(name, "", 0, map[], map[], []), ServiceSpec(map[], TypeNodePort, "", 80, 8080, 0))
  }

  lemma WebCanBeCreated(name: string)
    requires name != ""
    ensures Sound([]) && CanBeCreated([], Web(name))
  {
    assert UsedAddresses(map[]) == {} && UsedPorts(map[], "") == {};
    assert FreeServiceHost({}, SERVICE_BASE, FIRST_SERVICE_HOST) == Some(FIRST_SERVICE_HOST);
  }

  // On an empty store: two NodePort Services created at once are both stored, with the same
  // NodePort.
  lemma OverlappingCreationsBreakTheInvariant()
    ensures CanBeCreated([], Web("a")) && CanBeCreated([], Web("b"))
    ensures var live: Objects := map[];
      var log := [CreationOf(live, Web("a")), CreationOf(live, Web("b"))];
      && LateAttempt(live, live, Post(ServiceObject(Web("a")))) == Success(log[0])
      && LateAttempt(live, Live(log[..1]), Post(ServiceObject(Web("b")))) == Success(log[1])
      && Accepted(log) && Sound(log[..1]) && !ServicesOk(Live(log)) && !Sound(log)
  {
    hide Sound, LateAttempt, Prepare, ServicesOk, Collide;
    WebCanBeCreated("a");
    WebCanBeCreated("b");
    var none: seq<Write<Object>> := [];
    TwoOverlappingCreations(none, Web("a"), Web("b"));
    var log := [CreationOf(map[], Web("a")), CreationOf(map[], Web("b"))];
    assert Live(none) == map[];
    assert none + [log[0]] == log[..1] && log[..1] + [log[1]] == log;
  }
}
