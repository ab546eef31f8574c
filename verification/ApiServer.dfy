// The API server's write paths, and the requests its clients send.
module ApiServer {
  import opened Text
  import opened Etcd
  import opened Api
  import opened Services

  datatype ApiError = BadRequest | NotFoundStatus | ConflictStatus

  // Put carries the name in the URL besides the one in the body. Remove carries the
  // resourceVersion query parameter, if there is one.
  datatype Request =
    | Post(body: Object)
    | Update(name: string, body: Object)
    | Remove(key: Key, resourceVersion: Option<nat>)

  predicate IsValid(o: Object)
  {
    MetaOf(o).name != "" && (o.PodObject? ==> o.pod.spec.containers != [])
  }

  function PrepareObject(live: Objects, o: Object, excluded: string): Result<Object, ApiError>
  {
    if !o.ServiceObject? then Success(o)
    else match Prepare(live, o.service, excluded)
      case Success(service) => Success(ServiceObject(service))
      case Failure(_) => Failure(BadRequest)
  }

  // The write a request makes on the current objects, or the status it is refused with.
  function Attempt(live: Objects, request: Request): Result<Write<Object>, ApiError>
  {
    match request
    case Post(body) =>
      if !IsValid(body) then Failure(BadRequest)
      else
        var prepared := PrepareObject(live, body, "");
        if prepared.Failure? then Failure(prepared.error)
        else if !CanCreate(live, KeyOf(body)) then Failure(ConflictStatus)
        else Success(Put(KeyOf(body), prepared.value, 0))
    case Update(name, body) =>
      if !IsValid(body) || MetaOf(body).name != name then Failure(BadRequest)
      else
        var prepared := PrepareObject(live, body, name);
        if prepared.Failure? then Failure(prepared.error)
        else if MetaOf(body).resourceVersion == 0 then Failure(BadRequest)
        else if !CanUpdate(live, KeyOf(body), MetaOf(body).resourceVersion) then Failure(ConflictStatus)
        else Success(Put(KeyOf(body), prepared.value, MetaOf(body).resourceVersion))
    case Remove(key, resourceVersion) =>
      if resourceVersion == Some(0) then Failure(BadRequest)
      else if !CanDelete(live, key, if resourceVersion.Some? then resourceVersion.value else 0) then
        Failure(NotFoundStatus)
      else Success(Erase(key))
  }

  // ---------- what is accepted, and what is stored ----------

  // The server refuses the Service in a request; `excluded` is the name it does not count.
  predicate IsRefusedService(live: Objects, o: Object, excluded: string)
  {
    o.ServiceObject? && Prepare(live, o.service, excluded).Failure?
  }

  // A POST is accepted exactly when the body is valid and nothing has its kind and name.
  lemma PostsAreAcceptedExactly(log: seq<Write<Object>>, body: Object)
    requires Sound(log)
    ensures var live, attempt := Live(log), Attempt(Live(log), Post(body));
      var bad := MetaOf(body).name == "" || (body.PodObject? && body.pod.spec.containers == []) ||
        IsRefusedService(live, body, "");
      && (attempt == Failure(BadRequest) <==> bad)
      && (attempt == Failure(ConflictStatus) <==> !bad && Key(KindOf(body), MetaOf(body).name) in live)
      && attempt != Failure(NotFoundStatus)
  {
    hide Sound, Live, Prepare;
    VersionIsZeroExactlyWhenAbsent(log, KeyOf(body));
  }

  // A PUT is accepted exactly when the body is valid, carries the name in the URL, and has the
  // version of the stored object.
  lemma PutsAreAcceptedExactly(log: seq<Write<Object>>, name: string, body: Object)
    requires Sound(log)
    ensures var live, attempt := Live(log), Attempt(Live(log), Update(name, body));
      var key, version := Key(KindOf(body), name), MetaOf(body).resourceVersion;
      var bad := MetaOf(body).name == "" || (body.PodObject? && body.pod.spec.containers == []) ||
        MetaOf(body).name != name || IsRefusedService(live, body, name) || version == 0;
      && (attempt == Failure(BadRequest) <==> bad)
      && (attempt == Failure(ConflictStatus) <==> !bad && !(key in live && live[key].modRevision == version))
      && attempt != Failure(NotFoundStatus)
  {
    hide Sound, Live, Prepare;
    VersionIsZeroExactlyWhenAbsent(log, Key(KindOf(body), name));
  }

  // A DELETE is accepted exactly when the object is there, at the version if one is given.
  lemma DeletesAreAcceptedExactly(log: seq<Write<Object>>, key: Key, version: Option<nat>)
    requires Sound(log)
    ensures var live, attempt := Live(log), Attempt(Live(log), Remove(key, version));
      && (attempt == Failure(BadRequest) <==> version == Some(0))
      && (attempt == Failure(NotFoundStatus) <==>
            version != Some(0) && !(key in live && (version.Some? ==> live[key].modRevision == version.value)))
      && (attempt.Success? ==> attempt.value == Erase(key))
      && attempt != Failure(ConflictStatus)
  {
    hide Sound, Live;
    VersionIsZeroExactlyWhenAbsent(log, key);
  }

  // The object of a request as it is stored: a Service filled in, anything else as it was sent.
  ghost predicate IsStoredFor(live: Objects, body: Object, excluded: string, stored: Object)
  {
    if body.ServiceObject? then stored.ServiceObject? && IsFilledIn(live, body.service, excluded, stored.service)
    else stored == body
  }

  lemma AcceptedBodiesAreStored(live: Objects, request: Request)
    requires WellTyped(live) && Attempt(live, request).Success? && !request.Remove?
    ensures var write := Attempt(live, request).value;
      && write.Put? && write.key == Key(KindOf(request.body), MetaOf(request.body).name)
      && IsStoredFor(live, request.body, if request.Update? then request.name else "", write.value)
  {
    hide Prepare, IsFilledIn;
    if request.body.ServiceObject? {
      PreparedServicesAreFilledIn(live, request.body.service, if request.Update? then request.name else "");
    }
  }

  // What the store holds after a request: where a body was accepted, that body; where an object
  // was removed, nothing; everything else as before.
  ghost predicate IsServed(before: Objects, request: Request, after: Objects)
  {
    && (forall key :: key != RequestKey(request) ==>
          (key in after <==> key in before) && (key in before ==> after[key] == before[key]))
    && if request.Remove? then RequestKey(request) !in after
       else
         && RequestKey(request) in after
         && IsStoredFor(before, request.body, if request.Update? then request.name else "",
                        after[RequestKey(request)].value)
  }

  lemma AcceptedRequestsAreServed(log: seq<Write<Object>>, request: Request)
    requires Sound(log) && Attempt(Live(log), request).Success?
    ensures IsServed(Live(log), request, Live(log + [Attempt(Live(log), request).value]))
  {
    hide Prepare, IsFilledIn, Sound;
    ServingKeepsSoundness(log, request);
    SoundIsWellTyped(log);
    WritesAreAtTheRequestKey(Live(log), request);
    if !request.Remove? {
      AcceptedBodiesAreStored(Live(log), request);
    }
  }

  // What a List shows, until the next write to its name, of a Service that was accepted.
  lemma AcceptedServicesAreListed(log: seq<Write<Object>>, request: Request, later: seq<Write<Object>>)
    requires Sound(log) && Attempt(Live(log), request).Success? && !request.Remove? && request.body.ServiceObject?
    requires Sound(later) && WellTyped(Live(later))
    requires var key := Key(ServiceKind, request.body.service.meta.name);
      SameEntry(Live(log + [Attempt(Live(log), request).value]), Live(later), key)
    ensures var given := request.body.service;
      exists item :: item in List(Live(later), ServiceKind) && item.ServiceObject? &&
        item.service.meta == given.meta.(resourceVersion := |log| + 2) &&
        IsFilledIn(Live(log), given, if request.Update? then request.name else "", item.service.(meta := given.meta))
  {
    hide Prepare, IsFilledIn, Sound;
    AcceptedRequestsAreServed(log, request);
    SoundIsWellTyped(log);
    AcceptedBodiesAreStored(Live(log), request);
    var write, key := Attempt(Live(log), request).value, Key(ServiceKind, request.body.service.meta.name);
    assert (log + [write])[..|log|] == log;
    PreparedServicesKeepTheirMeta(Live(log), request);
    assert Read(Live(later), key) in List(Live(later), ServiceKind);
  }

  lemma PreparedServicesKeepTheirMeta(live: Objects, request: Request)
    requires WellTyped(live) && Attempt(live, request).Success? && !request.Remove? && request.body.ServiceObject?
    ensures var write := Attempt(live, request).value;
      write.Put? && write.value.ServiceObject? && write.value.service.meta == request.body.service.meta
  {
  }

  // ---------- states the server can reach ----------

  // Every write is the effect of a request that was served on the objects it found. List
  // and write of one request are one step here.
  ghost predicate Served(log: seq<Write<Object>>)
  {
    forall i :: 0 <= i < |log| ==> ServedAt(Live(log[..i]), log[i])
  }

  ghost predicate ServedAt(live: Objects, write: Write<Object>)
  {
    exists request :: Attempt(live, request) == Success(write)
  }

  // What holds of every log the server can produce.
  ghost predicate Sound(log: seq<Write<Object>>)
  {
    && Accepted(log) && WellTypedLog(log)
    && (forall i :: 0 <= i < |log| ==> log[i].key.name != "")
    && ServicesOk(Live(log))
  }

  lemma PreparedKeepsKey(live: Objects, o: Object, excluded: string)
    requires WellTyped(live) && PrepareObject(live, o, excluded).Success?
    ensures KeyOf(PrepareObject(live, o, excluded).value) == KeyOf(o)
  {
    if o.ServiceObject? {
      PreparedServicesAreSound(live, o.service, excluded);
    }
  }

  lemma LiveKeysAreNamed(log: seq<Write<Object>>, key: Key)
    requires Sound(log) && key in Live(log)
    ensures key.name != ""
  {
    EntryIsLastWrite(log, key);
  }

  lemma SoundIsWellTyped(log: seq<Write<Object>>)
    requires Sound(log)
    ensures WellTyped(Live(log))
  {
    WellTypedLogGivesWellTypedObjects(log);
  }

  // A served request keeps the store sound: the transaction is one etcd accepts, the object
  // sits under its own key, and the Service allocation invariant is kept.
  lemma ServingKeepsSoundness(log: seq<Write<Object>>, request: Request)
    requires Sound(log) && Attempt(Live(log), request).Success?
    ensures Sound(log + [Attempt(Live(log), request).value])
    ensures Live(log + [Attempt(Live(log), request).value]) ==
      Applied(Live(log), Attempt(Live(log), request).value, |log| + 2)
  {
    var write := Attempt(Live(log), request).value;
    ServedWritesFit(log, request);
    AcceptedExtends(log, write);
    ServicesStayOk(log, request);
  }

  lemma ServedWritesFit(log: seq<Write<Object>>, request: Request)
    requires Sound(log) && Attempt(Live(log), request).Success?
    ensures var write := Attempt(Live(log), request).value;
      Admits(Live(log), write) && write.key.name != "" && (write.Put? ==> KeyOf(write.value) == write.key)
  {
    var live := Live(log);
    WellTypedLogGivesWellTypedObjects(log);
    match request {
      case Post(body) =>
        PreparedKeepsKey(live, body, "");
        VersionIsZeroExactlyWhenAbsent(log, KeyOf(body));
      case Update(name, body) =>
        PreparedKeepsKey(live, body, name);
      case Remove(key, _) =>
        VersionIsZeroExactlyWhenAbsent(log, key);
        LiveKeysAreNamed(log, key);
    }
  }

  lemma ServicesStayOk(log: seq<Write<Object>>, request: Request)
    requires Sound(log) && Attempt(Live(log), request).Success?
    ensures ServicesOk(Applied(Live(log), Attempt(Live(log), request).value, |log| + 2))
  {
    var live, write := Live(log), Attempt(Live(log), request).value;
    WellTypedLogGivesWellTypedObjects(log);
    if write.Erase? {
      ErasingKeepsServices(live, write.key, |log| + 2);
    } else if !write.value.ServiceObject? {
      StoringAnotherKindKeepsServices(live, write, |log| + 2);
    } else {
      var excluded := if request.Post? then "" else request.name;
      if Key(ServiceKind, "") in live {
        LiveKeysAreNamed(log, Key(ServiceKind, ""));
      }
      PutServicesArePrepared(live, request);
      StoringAPreparedServiceKeepsTheInvariant(live, request.body.service, excluded, |log| + 2, write.base);
    }
  }

  lemma PutServicesArePrepared(live: Objects, request: Request)
    requires WellTyped(live)
    requires Attempt(live, request).Success? && Attempt(live, request).value.Put?
    requires Attempt(live, request).value.value.ServiceObject?
    ensures !request.Remove? && request.body.ServiceObject?
    ensures var write, service := Attempt(live, request).value, request.body.service;
      var excluded := if request.Post? then "" else request.name;
      && Prepare(live, service, excluded).Success?
      && write == Put(Key(ServiceKind, service.meta.name), ServiceObject(Prepare(live, service, excluded).value),
         write.base)
      && (request.Update? ==> excluded == service.meta.name)
  {
  }

  lemma ErasingKeepsServices(live: Objects, key: Key, revision: nat)
    requires ServicesOk(live)
    ensures ServicesOk(Applied(live, Erase(key), revision))
  {
    var after := Applied(live, Erase(key), revision);
    forall other | IsService(after, other)
      ensures IsService(live, other) && ServiceAt(after, other) == ServiceAt(live, other)
    {
    }
  }

  lemma StoringAnotherKindKeepsServices(live: Objects, write: Write<Object>, revision: nat)
    requires ServicesOk(live) && write.Put? && !write.value.ServiceObject?
    ensures ServicesOk(Applied(live, write, revision))
  {
    var after := Applied(live, write, revision);
    forall other | IsService(after, other)
      ensures IsService(live, other) && ServiceAt(after, other) == ServiceAt(live, other)
    {
    }
  }

  // Over every serialized run: versions are honest, objects sit under their own keys, and
  // stored NodePorts are in range, pairwise distinct and present exactly on NodePort Services.
  lemma {:induction false} EveryServedLogIsSound(log: seq<Write<Object>>)
    requires Served(log)
    ensures Sound(log)
  {
    hide Attempt, ServicesOk, Accepted;
    if log == [] {
      assert Accepted(log) && ServicesOk(Live(log)) by { NothingStoredIsSound(); }
    } else {
      var n := |log| - 1;
      forall i | 0 <= i < n ensures ServedAt(Live(log[..n][..i]), log[..n][i]) {
        assert log[..n][..i] == log[..i];
      }
      EveryServedLogIsSound(log[..n]);
      assert ServedAt(Live(log[..n]), log[n]);
      var request :| Attempt(Live(log[..n]), request) == Success(log[n]);
      ServingKeepsSoundness(log[..n], request);
      assert log == log[..n] + [log[n]];
    }
  }

  lemma NothingStoredIsSound()
    ensures Accepted<Object>([]) && ServicesOk(Live([]))
  {
  }

  // ---------- what the allocators collect ----------

  function AddressesIn(entries: seq<Object>): set<string>
  {
    set j | 0 <= j < |entries| && entries[j].ServiceObject? :: entries[j].service.spec.clusterIP
  }

  function PortsIn(entries: seq<Object>, excluded: string): set<int>
  {
    set j | 0 <= j < |entries| && entries[j].ServiceObject? && HoldsPort(entries[j].service, excluded) ::
      entries[j].service.spec.nodePort
  }

  lemma ServicesInTheList(live: Objects, entries: seq<Object>)
    requires WellTyped(live) && entries == Api.List(live, ServiceKind)
    ensures forall j :: 0 <= j < |entries| && entries[j].ServiceObject? ==>
      IsService(live, KeyOf(entries[j])) && SameButVersion(ServiceAt(live, KeyOf(entries[j])), entries[j].service)
    ensures forall key :: IsService(live, key) ==> ListsService(entries, ServiceAt(live, key))
  {
    forall key | IsService(live, key) ensures ListsService(entries, ServiceAt(live, key)) {
      assert Read(live, key) in entries;
      var j :| 0 <= j < |entries| && entries[j] == Read(live, key);
    }
  }

  predicate SameButVersion(a: Service, b: Service) { a.meta.name == b.meta.name && a.spec == b.spec }

  predicate ListsService(entries: seq<Object>, service: Service)
  {
    exists j :: 0 <= j < |entries| && entries[j].ServiceObject? && SameButVersion(service, entries[j].service)
  }

  lemma AddressesInTheList(live: Objects, entries: seq<Object>)
    requires WellTyped(live) && entries == Api.List(live, ServiceKind)
    ensures AddressesIn(entries) == UsedAddresses(live)
  {
    hide WellTyped, IsService;
    ServicesInTheList(live, entries);
    forall address | address in AddressesIn(entries) ensures address in UsedAddresses(live) {
      var j :| 0 <= j < |entries| && entries[j].ServiceObject? && entries[j].service.spec.clusterIP == address;
      assert IsService(live, KeyOf(entries[j]));
    }
    forall address | address in UsedAddresses(live) ensures address in AddressesIn(entries) {
      var key :| key in live && IsService(live, key) && ServiceAt(live, key).spec.clusterIP == address;
      assert ListsService(entries, ServiceAt(live, key));
    }
  }

  lemma PortsInTheList(live: Objects, entries: seq<Object>, excluded: string)
    requires WellTyped(live) && entries == Api.List(live, ServiceKind)
    ensures PortsIn(entries, excluded) == UsedPorts(live, excluded)
  {
    hide WellTyped, IsService;
    ServicesInTheList(live, entries);
    forall port | port in PortsIn(entries, excluded) ensures port in UsedPorts(live, excluded) {
      var j :| 0 <= j < |entries| && entries[j].ServiceObject? && HoldsPort(entries[j].service, excluded) &&
        entries[j].service.spec.nodePort == port;
      assert IsService(live, KeyOf(entries[j]));
    }
    forall port | port in UsedPorts(live, excluded) ensures port in PortsIn(entries, excluded) {
      var key :| key in live && IsService(live, key) && HoldsPort(ServiceAt(live, key), excluded) &&
        ServiceAt(live, key).spec.nodePort == port;
      assert ListsService(entries, ServiceAt(live, key));
    }
  }

  method CollectAddresses(entries: seq<Object>) returns (used: set<string>)
    requires forall i :: 0 <= i < |entries| ==> entries[i].ServiceObject?
    ensures used == AddressesIn(entries)
  {
    used := {};
    for i := 0 to |entries|
      invariant used == set j | 0 <= j < i && entries[j].ServiceObject? :: entries[j].service.spec.clusterIP
    {
      used := used + {entries[i].service.spec.clusterIP};
    }
  }

  method CollectPorts(entries: seq<Object>, excluded: string) returns (used: set<int>)
    requires forall i :: 0 <= i < |entries| ==> entries[i].ServiceObject?
    ensures used == PortsIn(entries, excluded)
  {
    used := {};
    for i := 0 to |entries|
      invariant used == set j | 0 <= j < i && entries[j].ServiceObject? && HoldsPort(entries[j].service, excluded) ::
          entries[j].service.spec.nodePort
    {
      if HoldsPort(entries[i].service, excluded) {
        used := used + {entries[i].service.spec.nodePort};
      }
    }
  }

  method FirstFreeAddress(used: set<string>) returns (r: Result<string, PrepareError>)
    ensures r == FreeAddress(used, SERVICE_BASE, FIRST_SERVICE_HOST)
  {
    var host := FIRST_SERVICE_HOST;
    while host < LAST_SERVICE_HOST
      invariant FIRST_SERVICE_HOST <= host <= LAST_SERVICE_HOST
      invariant FreeAddress(used, SERVICE_BASE, host) == FreeAddress(used, SERVICE_BASE, FIRST_SERVICE_HOST)
    {
      var candidate := ServiceAddress(SERVICE_BASE, host);
      if candidate !in used {
        return Success(candidate);
      }
      host := host + 1;
    }
    return Failure(NoAddressLeft);
  }

  method FirstFreePort(used: set<int>) returns (r: Result<int, PrepareError>)
    ensures r == FreePort(used, FIRST_NODE_PORT)
  {
    var port := FIRST_NODE_PORT;
    while port <= LAST_NODE_PORT
      invariant FIRST_NODE_PORT <= port <= LAST_NODE_PORT + 1
      invariant FreePort(used, port) == FreePort(used, FIRST_NODE_PORT)
    {
      if port !in used {
        return Success(port);
      }
      port := port + 1;
    }
    return Failure(NoPortLeft);
  }

  // ---------- the server ----------

  class Server {
    const etcd: EtcdClient<Object>

    ghost predicate Valid()
      reads etcd
    {
      etcd.Valid() && Sound(etcd.log)
    }

    constructor (etcd: EtcdClient<Object>)
      requires etcd.Valid() && Sound(etcd.log)
      ensures this.etcd == etcd
    {
      this.etcd := etcd;
    }

    method List(kind: Kind) returns (items: seq<Object>)
      requires Valid()
      ensures WellTyped(Live(etcd.log)) && items == Api.List(Live(etcd.log), kind)
    {
      WellTypedLogGivesWellTypedObjects(etcd.log);
      var names := InKeyOrder(NamesOf(etcd.live, kind));
      ListOfNames(etcd.live, kind, names);
      EnumerationIsUnique(names, NamesInOrder(NamesOf(etcd.live, kind)), NamesOf(etcd.live, kind));
      items := ReadAll(etcd.live, kind, names);
    }

    // The NodePort and ClusterIP allocators fill a set of used values from the stored
    // Services and scan for the first one that is not in it.
    method AllocateServiceIP() returns (r: Result<string, PrepareError>)
      requires Valid()
      ensures r == FreeAddress(UsedAddresses(Live(etcd.log)), SERVICE_BASE, FIRST_SERVICE_HOST)
    {
      var entries := List(ServiceKind);
      var used := CollectAddresses(entries);
      AddressesInTheList(etcd.live, entries);
      r := FirstFreeAddress(used);
    }

    method AllocateNodePort(requested: int, excluded: string) returns (r: Result<int, PrepareError>)
      requires Valid()
      ensures r == NodePortFor(UsedPorts(Live(etcd.log), excluded), requested)
    {
      if requested != 0 && (requested < FIRST_NODE_PORT || requested > LAST_NODE_PORT) {
        return Failure(NodePortOutOfRange);
      }
      var entries := List(ServiceKind);
      var used := CollectPorts(entries, excluded);
      PortsInTheList(etcd.live, entries, excluded);
      if requested != 0 {
        return if requested in used then Failure(NodePortTaken) else Success(requested);
      }
      r := FirstFreePort(used);
    }

    // Fills in the type, the address and the port of a Service in a request.
    method PrepareService(service: Service, excluded: string) returns (r: Result<Service, PrepareError>)
      requires Valid()
      ensures r == Prepare(Live(etcd.log), service, excluded)
    {
      var prepared := service;
      if prepared.spec.serviceType.TypeUnset? {
        prepared := prepared.(spec := prepared.spec.(serviceType := TypeClusterIP));
      }
      if !prepared.spec.serviceType.TypeClusterIP? && !prepared.spec.serviceType.TypeNodePort? {
        return Failure(UnsupportedType);
      }
      if prepared.spec.clusterIP == "" {
        var address := AllocateServiceIP();
        if address.Failure? {
          return Failure(address.error);
        }
        prepared := prepared.(spec := prepared.spec.(clusterIP := address.value));
      }
      if prepared.spec.serviceType.TypeNodePort? {
        var port := AllocateNodePort(prepared.spec.nodePort, excluded);
        if port.Failure? {
          return Failure(port.error);
        }
        return Success(prepared.(spec := prepared.spec.(nodePort := port.value)));
      }
      if prepared.spec.nodePort != 0 {
        return Failure(NodePortNotAllowed);
      }
      return Success(prepared);
    }

    method Prepared(o: Object, excluded: string) returns (r: Result<Object, ApiError>)
      requires Valid()
      ensures r == PrepareObject(Live(etcd.log), o, excluded)
    {
      if o.ServiceObject? {
        var service := PrepareService(o.service, excluded);
        return if service.Failure? then Failure(BadRequest) else Success(ServiceObject(service.value));
      }
      return Success(o);
    }

    // A request either makes exactly the write the specification allows it, or is refused
    // with the status it gives and changes nothing.
    method Handle(request: Request) returns (error: Option<ApiError>)
      requires Valid()
      modifies etcd
      ensures Valid()
      ensures var attempt := Attempt(Live(old(etcd.log)), request);
        match attempt
        case Success(write) => error == None && etcd.log == old(etcd.log) + [write]
        case Failure(e) => error == Some(e) && etcd.log == old(etcd.log)
      ensures error == None ==> IsServed(Live(old(etcd.log)), request, Live(etcd.log))
    {
      ghost var before := etcd.log;
      if Attempt(Live(etcd.log), request).Success? {
        ServingKeepsSoundness(etcd.log, request);
        AcceptedRequestsAreServed(etcd.log, request);
      }
      hide IsServed;
      match request {
        case Post(body) =>
          if !IsValid(body) { return Some(BadRequest); }
          var prepared := Prepared(body, "");
          if prepared.Failure? { return Some(prepared.error); }
          VersionIsZeroExactlyWhenAbsent(etcd.log, KeyOf(body));
          var _, failure := etcd.Create(KeyOf(body), prepared.value);
          return if failure.Some? then Some(ConflictStatus) else None;
        case Update(name, body) =>
          if !IsValid(body) || MetaOf(body).name != name { return Some(BadRequest); }
          var prepared := Prepared(body, name);
          if prepared.Failure? { return Some(prepared.error); }
          if MetaOf(body).resourceVersion == 0 { return Some(BadRequest); }
          var _, failure := etcd.Update(KeyOf(body), prepared.value, MetaOf(body).resourceVersion);
          return if failure.Some? then Some(ConflictStatus) else None;
        case Remove(key, resourceVersion) =>
          if resourceVersion == Some(0) { return Some(BadRequest); }
          var failure := etcd.Delete(key, if resourceVersion.Some? then resourceVersion.value else 0);
          return if failure.Some? then Some(NotFoundStatus) else None;
      }
    }
  }

  // ---------- clients ----------

  // What the network does to one request: nothing, lose it, or lose the reply.
  datatype Fault = Delivered | RequestLost | ReplyLost

  datatype Reply = Ok | Refused(status: ApiError) | Unreachable

  function AfterRequest(log: seq<Write<Object>>, request: Request): seq<Write<Object>>
  {
    var attempt := Attempt(Live(log), request);
    if attempt.Success? then log + [attempt.value] else log
  }

  function AfterExchange(log: seq<Write<Object>>, request: Request, fault: Fault): seq<Write<Object>>
  {
    if fault.RequestLost? then log else AfterRequest(log, request)
  }

  function ReplyTo(log: seq<Write<Object>>, request: Request, fault: Fault): Reply
  {
    if !fault.Delivered? then Unreachable
    else match Attempt(Live(log), request)
      case Success(_) => Ok
      case Failure(status) => Refused(status)
  }

  datatype Outcome = Outcome(log: seq<Write<Object>>, faults: seq<Fault>, ok: bool)

  function HeadFault(faults: seq<Fault>): Fault { if faults == [] then Delivered else faults[0] }

  function TailFaults(faults: seq<Fault>): seq<Fault> { if faults == [] then [] else faults[1..] }

  // Requests sent one after the other, up to the first one that is not answered Ok. The
  // faults say what happens to each; when they run out, everything is delivered.
  function SendAll(log: seq<Write<Object>>, faults: seq<Fault>, requests: seq<Request>): Outcome
    decreases |requests|
  {
    if requests == [] then Outcome(log, faults, true)
    else
      var fault := HeadFault(faults);
      var log' := AfterExchange(log, requests[0], fault);
      if ReplyTo(log, requests[0], fault).Ok? then SendAll(log', TailFaults(faults), requests[1..])
      else Outcome(log', TailFaults(faults), false)
  }

  // A request that the server accepts, followed by others.
  function Continued(log: seq<Write<Object>>, write: Write<Object>, faults: seq<Fault>, rest: seq<Request>): Outcome
  {
    match HeadFault(faults)
    case Delivered => SendAll(log + [write], TailFaults(faults), rest)
    case RequestLost => Outcome(log, TailFaults(faults), false)
    case ReplyLost => Outcome(log + [write], TailFaults(faults), false)
  }

  lemma SendAllStep(log: seq<Write<Object>>, faults: seq<Fault>, requests: seq<Request>)
    requires requests != [] && Attempt(Live(log), requests[0]).Success?
    ensures SendAll(log, faults, requests) ==
      Continued(log, Attempt(Live(log), requests[0]).value, faults, requests[1..])
  {
  }

  lemma {:induction false} SendAllInTwoParts(log: seq<Write<Object>>, faults: seq<Fault>, first: seq<Request>,
                                             second: seq<Request>)
    ensures var middle := SendAll(log, faults, first);
      SendAll(log, faults, first + second) == if middle.ok then SendAll(middle.log, middle.faults, second) else middle
    decreases |first|
  {
    if first == [] {
      assert first + second == second;
    } else {
      var fault := HeadFault(faults);
      assert (first + second)[0] == first[0] && (first + second)[1..] == first[1..] + second;
      SendAllInTwoParts(AfterExchange(log, first[0], fault), TailFaults(faults), first[1..], second);
    }
  }

  lemma OneRequest(log: seq<Write<Object>>, faults: seq<Fault>, requests: seq<Request>)
    requires |requests| == 1
    ensures SendAll(log, faults, requests) ==
      Outcome(AfterExchange(log, requests[0], HeadFault(faults)), TailFaults(faults),
        ReplyTo(log, requests[0], HeadFault(faults)).Ok?)
  {
    assert requests[1..] == [];
  }

  lemma {:induction false} NoFaultsStayNoFaults(log: seq<Write<Object>>, requests: seq<Request>)
    ensures SendAll(log, [], requests).faults == []
    decreases |requests|
  {
    if requests != [] {
      NoFaultsStayNoFaults(AfterExchange(log, requests[0], Delivered), requests[1..]);
    }
  }

  function RequestKey(request: Request): Key
  {
    match request
    case Post(body) => KeyOf(body)
    case Update(_, body) => KeyOf(body)
    case Remove(key, _) => key
  }

  lemma WritesAreAtTheRequestKey(live: Objects, request: Request)
    requires Attempt(live, request).Success?
    ensures Attempt(live, request).value.key == RequestKey(request)
  {
  }

  lemma ExchangeKeepsOtherKeys(log: seq<Write<Object>>, request: Request, fault: Fault, key: Key)
    requires Sound(log) && RequestKey(request) != key
    ensures var after := Live(AfterExchange(log, request, fault));
      (key in after <==> key in Live(log)) && (key in after ==> after[key] == Live(log)[key])
  {
    if Attempt(Live(log), request).Success? {
      ServingKeepsSoundness(log, request);
      WritesAreAtTheRequestKey(Live(log), request);
    }
  }

  // Requests leave every key alone that none of them names.
  lemma {:induction false} SendAllKeepsOtherKeys(log: seq<Write<Object>>, faults: seq<Fault>, requests: seq<Request>,
                                                 key: Key)
    requires Sound(log) && forall i :: 0 <= i < |requests| ==> RequestKey(requests[i]) != key
    ensures var after := SendAll(log, faults, requests).log;
      Sound(after) && (key in Live(after) <==> key in Live(log)) &&
        (key in Live(after) ==> Live(after)[key] == Live(log)[key])
    decreases |requests|
  {
    if requests != [] {
      var fault := HeadFault(faults);
      ExchangeKeepsSoundness(log, requests[0], fault);
      ExchangeKeepsOtherKeys(log, requests[0], fault, key);
      SendAllKeepsOtherKeys(AfterExchange(log, requests[0], fault), TailFaults(faults), requests[1..], key);
    }
  }

  lemma ExchangeKeepsSoundness(log: seq<Write<Object>>, request: Request, fault: Fault)
    requires Sound(log)
    ensures Sound(AfterExchange(log, request, fault))
  {
    if Attempt(Live(log), request).Success? {
      ServingKeepsSoundness(log, request);
    }
  }

  // ---------- what requests leave behind ----------

  // No request is about a Service.
  predicate NoServices(requests: seq<Request>)
  {
    forall i :: 0 <= i < |requests| ==> !requests[i].Remove? ==> !requests[i].body.ServiceObject?
  }

  predicate SameEntry(before: Objects, after: Objects, key: Key)
  {
    (key in after <==> key in before) && (key in before ==> after[key] == before[key])
  }

  // One of the requests carries the object.
  predicate IsBodyOf(requests: seq<Request>, o: Object)
  {
    exists i :: 0 <= i < |requests| && !requests[i].Remove? && requests[i].body == o
  }

  lemma ExchangeStoresItsBody(log: seq<Write<Object>>, request: Request, fault: Fault, key: Key)
    requires Sound(log) && NoServices([request])
    ensures var after := Live(AfterExchange(log, request, fault));
      key in after && !SameEntry(Live(log), after, key) ==> IsBodyOf([request], after[key].value)
  {
    hide Prepare, Sound;
    assert !request.Remove? ==> !([request][0]).body.ServiceObject?;
    if Attempt(Live(log), request).Success? {
      AcceptedRequestsAreServed(log, request);
      if !request.Remove? {
        assert [request][0].body == request.body;
      }
    }
  }

  // Whatever the network does: what the store holds afterwards and did not hold before is the
  // body of one of the requests.
  lemma {:induction false} NewEntriesAreBodies(log: seq<Write<Object>>, faults: seq<Fault>, requests: seq<Request>,
                                               key: Key)
    requires Sound(log) && NoServices(requests)
    ensures var after := Live(SendAll(log, faults, requests).log);
      key in after && !SameEntry(Live(log), after, key) ==> IsBodyOf(requests, after[key].value)
    decreases |requests|
  {
    hide Sound, Live, AfterExchange, ReplyTo, IsBodyOf, SameEntry;
    NothingSentNothingNew(log, faults, key);
    if requests != [] {
      var fault := HeadFault(faults);
      var middle := AfterExchange(log, requests[0], fault);
      ExchangeKeepsSoundness(log, requests[0], fault);
      ExchangeStoresItsBody(log, requests[0], fault, key);
      NewEntriesAreBodies(middle, TailFaults(faults), requests[1..], key);
      BodiesOfAll(requests);
      SameEntriesCompose(Live(log), Live(middle), Live(SendAll(middle, TailFaults(faults), requests[1..]).log), key);
    }
  }

  lemma NothingSentNothingNew(log: seq<Write<Object>>, faults: seq<Fault>, key: Key)
    ensures SendAll(log, faults, []).log == log && SameEntry(Live(log), Live(log), key)
  {
  }

  lemma BodiesOfAll(requests: seq<Request>)
    requires requests != []
    ensures forall o :: IsBodyOf([requests[0]], o) || IsBodyOf(requests[1..], o) ==> IsBodyOf(requests, o)
  {
    forall o | IsBodyOf(requests[1..], o) ensures IsBodyOf(requests, o) {
      var i :| 0 <= i < |requests[1..]| && !requests[1..][i].Remove? && requests[1..][i].body == o;
      assert requests[i + 1].body == o;
    }
  }

  lemma SameEntriesCompose(a: Objects, b: Objects, c: Objects, key: Key)
    ensures key in c && !SameEntry(a, c, key) ==>
      !SameEntry(b, c, key) || (key in b && !SameEntry(a, b, key) && c[key] == b[key])
  {
  }

  predicate IsRemovedBy(requests: seq<Request>, key: Key)
  {
    exists i :: 0 <= i < |requests| && requests[i].Remove? && requests[i].key == key
  }

  lemma ExchangeRemovesItsKey(log: seq<Write<Object>>, request: Request, fault: Fault, key: Key)
    requires Sound(log)
    ensures key in Live(log) && key !in Live(AfterExchange(log, request, fault)) ==> IsRemovedBy([request], key)
  {
    hide Prepare, Sound;
    if Attempt(Live(log), request).Success? {
      AcceptedRequestsAreServed(log, request);
      if request.Remove? {
        assert [request][0].key == request.key;
      }
    }
  }

  // And what it does not hold any more is what one of the requests removes.
  lemma {:induction false} GoneEntriesAreRemoved(log: seq<Write<Object>>, faults: seq<Fault>, requests: seq<Request>,
                                                 key: Key)
    requires Sound(log)
    ensures key in Live(log) && key !in Live(SendAll(log, faults, requests).log) ==> IsRemovedBy(requests, key)
    decreases |requests|
  {
    hide Sound, Live, AfterExchange, ReplyTo;
    NothingSentNothingNew(log, faults, key);
    if requests != [] {
      var fault := HeadFault(faults);
      ExchangeKeepsSoundness(log, requests[0], fault);
      ExchangeRemovesItsKey(log, requests[0], fault, key);
      GoneEntriesAreRemoved(AfterExchange(log, requests[0], fault), TailFaults(faults), requests[1..], key);
      RemovalsOfAll(requests, key);
    }
  }

  // One of the requests removes the key, at this version if it gives one.
  predicate IsRemovedAt(requests: seq<Request>, key: Key, version: nat)
  {
    exists i ::
      0 <= i < |requests| && requests[i].Remove? && requests[i].key == key &&
        (requests[i].resourceVersion.None? || requests[i].resourceVersion.value == version)
  }

  lemma ExchangeRemovesTheVersion(log: seq<Write<Object>>, request: Request, fault: Fault, key: Key)
    requires Sound(log) && (request.Remove? || RequestKey(request) != key) && key in Live(log)
    ensures var after := Live(AfterExchange(log, request, fault));
      if key in after then SameEntry(Live(log), after, key)
      else IsRemovedAt([request], key, Live(log)[key].modRevision)
  {
    hide Prepare, Sound;
    if Attempt(Live(log), request).Success? {
      AcceptedRequestsAreServed(log, request);
      if request.Remove? {
        DeletesAreAcceptedExactly(log, request.key, request.resourceVersion);
        assert [request][0].key == request.key;
      }
    }
  }

  // Removals are of the version that is stored, unless they ask for any.
  lemma {:induction false} GoneEntriesHadTheVersion(log: seq<Write<Object>>, faults: seq<Fault>,
                                                    requests: seq<Request>, key: Key)
    requires Sound(log) && key in Live(log)
    requires forall i :: 0 <= i < |requests| && !requests[i].Remove? ==> RequestKey(requests[i]) != key
    ensures key !in Live(SendAll(log, faults, requests).log) ==>
      IsRemovedAt(requests, key, Live(log)[key].modRevision)
    decreases |requests|
  {
    hide Sound, Live, AfterExchange, ReplyTo;
    NothingSentNothingNew(log, faults, key);
    if requests != [] {
      var fault, version := HeadFault(faults), Live(log)[key].modRevision;
      ExchangeKeepsSoundness(log, requests[0], fault);
      ExchangeRemovesTheVersion(log, requests[0], fault, key);
      if key in Live(AfterExchange(log, requests[0], fault)) {
        GoneEntriesHadTheVersion(AfterExchange(log, requests[0], fault), TailFaults(faults), requests[1..], key);
        if IsRemovedAt(requests[1..], key, version) {
          var i :| 0 <= i < |requests[1..]| && requests[1..][i].Remove? && requests[1..][i].key == key &&
            (requests[1..][i].resourceVersion.None? || requests[1..][i].resourceVersion.value == version);
          assert requests[i + 1].key == key;
        }
      } else {
        assert requests[0] == [requests[0]][0];
      }
    }
  }

  lemma RemovalsOfAll(requests: seq<Request>, key: Key)
    requires requests != []
    ensures IsRemovedBy([requests[0]], key) || IsRemovedBy(requests[1..], key) ==> IsRemovedBy(requests, key)
  {
    if IsRemovedBy(requests[1..], key) {
      var i :| 0 <= i < |requests[1..]| && requests[1..][i].Remove? && requests[1..][i].key == key;
      assert requests[i + 1].key == key;
    }
  }

  class Client {
    const server: Server
    // What the network is going to do to the requests to come.
    var faults: seq<Fault>

    ghost predicate Valid()
      reads this, server.etcd
    {
      server.Valid()
    }

    constructor (server: Server, faults: seq<Fault>)
      ensures this.server == server && this.faults == faults
    {
      this.server, this.faults := server, faults;
    }

    method Send(request: Request) returns (reply: Reply)
      requires Valid()
      modifies this, server.etcd
      ensures Valid()
      ensures server.etcd.log == AfterExchange(old(server.etcd.log), request, HeadFault(old(faults)))
      ensures reply == ReplyTo(old(server.etcd.log), request, HeadFault(old(faults)))
      ensures faults == TailFaults(old(faults))
    {
      var fault := HeadFault(faults);
      faults := TailFaults(faults);
      reply := Unreachable;
      if !fault.RequestLost? {
        var error := server.Handle(request);
        if fault.Delivered? {
          reply := if error.Some? then Refused(error.value) else Ok;
        }
      }
    }
  }
}
