// The ReplicaSet controller's loops, and why one Pod list serves all ReplicaSets of a pass.
module ReplicaSetController {
  import opened Text
  import opened Etcd
  import opened Api
  import opened ApiServer
  import opened ReplicaSets
  import opened Services

  // The requests of a pass that looks at every ReplicaSet with one list of Pods.
  function PassRequests(sets: seq<ReplicaSet>, pods: seq<Pod>): seq<Request>
  {
    if sets == [] then []
    else ScaleRequests(sets[0], ManagedPods(sets[0], pods)) + PassRequests(sets[1..], pods)
  }

  // The same pass, listing the Pods again before every ReplicaSet.
  ghost function FreshPass(log: seq<Write<Object>>, faults: seq<Fault>, sets: seq<ReplicaSet>): Outcome
    decreases |sets|
  {
    if sets == [] || !WellTyped(Live(log)) then Outcome(log, faults, true)
    else
      var out := SendAll(log, faults, ScaleRequests(sets[0], ManagedPods(sets[0], ListPods(Live(log)))));
      if out.ok then FreshPass(out.log, out.faults, sets[1..]) else out
  }

  // ---------- one shared list ----------

  predicate OneOwner(owners: seq<OwnerReference>)
  {
    forall i, j :: 0 <= i < |owners| && 0 <= j < |owners| && owners[i].kind == owners[j].kind == REPLICA_SET ==>
      owners[i].name == owners[j].name
  }

  // No Pod names two ReplicaSets as its owner.
  predicate SingleOwners(live: Objects)
  {
    forall key :: key in live && live[key].value.PodObject? ==> OneOwner(live[key].value.pod.meta.ownerReferences)
  }

  lemma OneOwnerOneManager(pod: Pod, a: ReplicaSet, b: ReplicaSet)
    requires OneOwner(pod.meta.ownerReferences) && a.meta.name != b.meta.name && IsManaged(a, pod)
    ensures !IsManaged(b, pod)
  {
  }

  ghost predicate SamePods(before: Objects, after: Objects, rs: ReplicaSet)
  {
    forall key :: (ManagedKey(before, rs, key) <==> ManagedKey(after, rs, key)) &&
      (ManagedKey(before, rs, key) ==> before[key] == after[key])
  }

  // A request that cannot touch the Pods of `rs`: the only Pod it removes is one that was
  // somebody else's at the version it names.
  predicate Spares(live: Objects, request: Request, rs: ReplicaSet)
  {
    match request
    case Post(body) => body.PodObject? && OneOwner(body.pod.meta.ownerReferences) && !IsManaged(rs, body.pod)
    case Update(_, body) => body.ReplicaSetObject?
    case Remove(key, version) =>
      key.kind.PodKind? && version.Some? && version.value > 0 &&
      (key in live && live[key].modRevision == version.value ==> !ManagedKey(live, rs, key))
  }

  ghost predicate AllSpare(log: seq<Write<Object>>, requests: seq<Request>, rs: ReplicaSet)
  {
    forall i :: 0 <= i < |requests| ==>
      Spares(Live(log), requests[i], rs) &&
      (requests[i].Remove? && requests[i].resourceVersion.Some? ==> requests[i].resourceVersion.value <= Revision(log))
  }

  lemma SparingWrite(log: seq<Write<Object>>, request: Request, rs: ReplicaSet)
    requires Sound(log) && SingleOwners(Live(log)) && Spares(Live(log), request, rs)
    requires Attempt(Live(log), request).Success?
    ensures var after := Applied(Live(log), Attempt(Live(log), request).value, |log| + 2);
      SamePods(Live(log), after, rs) && SingleOwners(after)
  {
    hide Live, Accepted, ServicesOk, Prepare;
    var live, write := Live(log), Attempt(Live(log), request).value;
    VersionIsZeroExactlyWhenAbsent(log, write.key);
    WellTypedLogGivesWellTypedObjects(log);
  }

  lemma SparingSurvives(log: seq<Write<Object>>, write: Write<Object>, request: Request, rs: ReplicaSet)
    requires Live(log + [write]) == Applied(Live(log), write, |log| + 2)
    requires Spares(Live(log), request, rs)
    requires request.Remove? && request.resourceVersion.Some? ==> request.resourceVersion.value <= Revision(log)
    ensures Spares(Live(log + [write]), request, rs)
  {
  }

  lemma SparingExchange(log: seq<Write<Object>>, request: Request, fault: Fault, rest: seq<Request>, rs: ReplicaSet)
    requires Sound(log) && SingleOwners(Live(log)) && Spares(Live(log), request, rs) && AllSpare(log, rest, rs)
    ensures var after := AfterExchange(log, request, fault);
      SamePods(Live(log), Live(after), rs) && SingleOwners(Live(after)) && AllSpare(after, rest, rs)
  {
    if Attempt(Live(log), request).Success? && !fault.RequestLost? {
      var write := Attempt(Live(log), request).value;
      ServingKeepsSoundness(log, request);
      SparingWrite(log, request, rs);
      forall i | 0 <= i < |rest| ensures Spares(Live(log + [write]), rest[i], rs) {
        SparingSurvives(log, write, rest[i], rs);
      }
    }
  }

  lemma {:induction false} SparingRequests(log: seq<Write<Object>>, faults: seq<Fault>, requests: seq<Request>,
                                           rs: ReplicaSet)
    requires Sound(log) && SingleOwners(Live(log)) && AllSpare(log, requests, rs)
    ensures var after := SendAll(log, faults, requests).log;
      Sound(after) && SamePods(Live(log), Live(after), rs) && SingleOwners(Live(after))
    decreases |requests|
  {
    hide Sound, Live, SingleOwners, Spares, Attempt;
    if requests != [] {
      var fault := HeadFault(faults);
      assert Spares(Live(log), requests[0], rs);
      ExchangeKeepsSoundness(log, requests[0], fault);
      assert AllSpare(log, requests[1..], rs);
      SparingExchange(log, requests[0], fault, requests[1..], rs);
      SparingRequests(AfterExchange(log, requests[0], fault), TailFaults(faults), requests[1..], rs);
    }
  }

  lemma {:induction false} CreationsSpareOthers(log: seq<Write<Object>>, a: ReplicaSet, used: set<string>, count: nat,
                                                b: ReplicaSet)
    requires a.meta.name != b.meta.name
    ensures AllSpare(log, Creations(a, used, count), b)
    decreases count
  {
    if count > 0 {
      var name := NextName(a.meta.name, used);
      CreationsSpareOthers(log, a, used + {name}, count - 1, b);
      assert Creations(a, used, count)[0] == Post(PodObject(NewPod(a, name)));
    }
  }

  lemma {:induction false} DeletionsSpareOthers(log: seq<Write<Object>>, a: ReplicaSet, pods: seq<Pod>, b: ReplicaSet)
    requires a.meta.name != b.meta.name && SingleOwners(Live(log)) && StoredAndManaged(Live(log), a, pods)
    ensures AllSpare(log, Deletions(pods), b)
  {
    if pods != [] {
      DeletionsSpareOthers(log, a, pods[1..], b);
      var key := Key(PodKind, pods[0].meta.name);
      assert StoredPod(Live(log), pods[0]) && IsManaged(a, pods[0]);
      EntryIsLastWrite(log, key);
      OneOwnerOneManager(pods[0], a, b);
      assert Deletions(pods)[0] == Remove(key, Some(pods[0].meta.resourceVersion));
    }
  }

  lemma ScalingSparesOthers(log: seq<Write<Object>>, a: ReplicaSet, b: ReplicaSet)
    requires Sound(log) && WellTyped(Live(log)) && SingleOwners(Live(log)) && a.meta.name != b.meta.name
    ensures AllSpare(log, ScaleRequests(a, ManagedPods(a, ListPods(Live(log)))), b)
  {
    var managed := ManagedPods(a, ListPods(Live(log)));
    ManagedPodsOfAFreshList(Live(log), a);
    PodRequestsSpareOthers(log, a, managed, b);
    StatusRequestsSpareOthers(log, a, b);
  }

  lemma StatusRequestsSpareOthers(log: seq<Write<Object>>, a: ReplicaSet, b: ReplicaSet)
    ensures AllSpare(log, StatusRequests(a), b)
  {
  }

  lemma PodRequestsSpareOthers(log: seq<Write<Object>>, a: ReplicaSet, managed: seq<Pod>, b: ReplicaSet)
    requires SingleOwners(Live(log)) && a.meta.name != b.meta.name && AreFresh(Live(log), a, managed)
    ensures AllSpare(log, PodRequests(a, managed), b)
  {
    hide AllSpare, Live, SingleOwners, AreFresh, Creations, Deletions, Excess;
    if |managed| < Desired(a) {
      CreationsSpareOthers(log, a, Names(managed), Desired(a) - |managed|, b);
    } else {
      ExcessIsManaged(Live(log), a, managed);
      DeletionsSpareOthers(log, a, Excess(a, managed), b);
    }
  }

  lemma ExcessIsManaged(live: Objects, rs: ReplicaSet, managed: seq<Pod>)
    requires AreFresh(live, rs, managed)
    ensures StoredAndManaged(live, rs, Excess(rs, managed))
  {
    hide StoredPod, IsManaged;
    SortedListsStay(managed);
  }

  lemma SamePodsSameList(before: Objects, after: Objects, rs: ReplicaSet)
    requires WellTyped(before) && WellTyped(after) && SamePods(before, after, rs)
    ensures ManagedPods(rs, ListPods(before)) == ManagedPods(rs, ListPods(after))
  {
    var a, b := ManagedPods(rs, ListPods(before)), ManagedPods(rs, ListPods(after));
    forall pod ensures pod in a <==> pod in b {
      var key := Key(PodKind, pod.meta.name);
      if IsManaged(rs, pod) && StoredPod(before, pod) { assert ManagedKey(before, rs, key); }
      if IsManaged(rs, pod) && StoredPod(after, pod) { assert ManagedKey(after, rs, key); }
    }
    ManagedPodsKeepOrder(rs, ListPods(before));
    ManagedPodsKeepOrder(rs, ListPods(after));
    SortedPodsAreDetermined(a, b);
  }

  // Reconciling one ReplicaSet, even partly, leaves the Pods of every other one as they are.
  lemma OthersKeepTheirPods(log: seq<Write<Object>>, faults: seq<Fault>, a: ReplicaSet, b: ReplicaSet)
    requires Sound(log) && SingleOwners(Live(log)) && a.meta.name != b.meta.name
    ensures WellTyped(Live(log))
    ensures var after := SendAll(log, faults, ScaleRequests(a, ManagedPods(a, ListPods(Live(log))))).log;
      && Sound(after) && WellTyped(Live(after)) && SingleOwners(Live(after))
      && ManagedPods(b, ListPods(Live(after))) == ManagedPods(b, ListPods(Live(log)))
  {
    WellTypedLogGivesWellTypedObjects(log);
    ScalingSparesOthers(log, a, b);
    var requests := ScaleRequests(a, ManagedPods(a, ListPods(Live(log))));
    SparingRequests(log, faults, requests, b);
    var after := SendAll(log, faults, requests).log;
    WellTypedLogGivesWellTypedObjects(after);
    SamePodsSameList(Live(log), Live(after), b);
  }

  predicate DistinctNames(sets: seq<ReplicaSet>)
  {
    forall i, j :: 0 <= i < j < |sets| ==> sets[i].meta.name != sets[j].meta.name
  }

  ghost predicate SnapshotIsRight(log: seq<Write<Object>>, sets: seq<ReplicaSet>, pods: seq<Pod>)
    requires WellTyped(Live(log))
  {
    forall i :: 0 <= i < |sets| ==> ManagedPods(sets[i], pods) == ManagedPods(sets[i], ListPods(Live(log)))
  }

  // The list taken at the start of the pass stays right to the end: the pass behaves like one
  // that lists the Pods anew for every ReplicaSet.
  lemma {:induction false} OneListServesThePass(log: seq<Write<Object>>, faults: seq<Fault>, sets: seq<ReplicaSet>,
                                                pods: seq<Pod>)
    requires Sound(log) && SingleOwners(Live(log)) && DistinctNames(sets)
    requires WellTyped(Live(log)) && SnapshotIsRight(log, sets, pods)
    ensures SendAll(log, faults, PassRequests(sets, pods)) == FreshPass(log, faults, sets)
    decreases |sets|
  {
    hide Sound, Live, SingleOwners, ScaleRequests;
    if sets != [] {
      var requests := ScaleRequests(sets[0], ManagedPods(sets[0], pods));
      assert ManagedPods(sets[0], pods) == ManagedPods(sets[0], ListPods(Live(log)));
      SendAllInTwoParts(log, faults, requests, PassRequests(sets[1..], pods));
      var out := SendAll(log, faults, requests);
      if out.ok && |sets| > 1 {
        forall i | 0 <= i < |sets[1..]|
          ensures Sound(out.log) && WellTyped(Live(out.log)) && SingleOwners(Live(out.log))
          ensures ManagedPods(sets[1..][i], ListPods(Live(out.log))) == ManagedPods(sets[1..][i], pods)
        {
          OthersKeepTheirPods(log, faults, sets[0], sets[i + 1]);
        }
        assert SnapshotIsRight(out.log, sets[1..], pods) by {
          assert sets[1..][0] == sets[1];
        }
        OneListServesThePass(out.log, out.faults, sets[1..], pods);
      }
    }
  }

  // ---------- the controller ----------

  // ---------- what a pass stores ----------

  // What is new in the store comes from one of these ReplicaSets: a Pod made from its template,
  // or itself with another status.
  ghost predicate StoresTheTemplates(before: Objects, after: Objects, sets: seq<ReplicaSet>)
  {
    forall key :: key in after && !SameEntry(before, after, key) ==>
      exists rs :: rs in sets && IsStoredByScaling(rs, after[key].value)
  }

  lemma {:induction false} PassRequestsStore(sets: seq<ReplicaSet>, pods: seq<Pod>)
    ensures NoServices(PassRequests(sets, pods))
    ensures forall i :: 0 <= i < |PassRequests(sets, pods)| && !PassRequests(sets, pods)[i].Remove? ==>
      exists rs :: rs in sets && IsStoredByScaling(rs, PassRequests(sets, pods)[i].body)
  {
    hide ScaleRequests, ManagedPods, IsStoredByScaling;
    if sets != [] {
      var first, rest := ScaleRequests(sets[0], ManagedPods(sets[0], pods)), PassRequests(sets[1..], pods);
      ScaleRequestsStore(sets[0], ManagedPods(sets[0], pods));
      PassRequestsStore(sets[1..], pods);
      assert sets == [sets[0]] + sets[1..];
      var all := PassRequests(sets, pods);
      forall i | 0 <= i < |all| && !all[i].Remove?
        ensures !all[i].body.ServiceObject?
        ensures exists rs :: rs in sets && IsStoredByScaling(rs, all[i].body)
      {
        if i < |first| {
          assert all[i] == first[i] && sets[0] in sets;
        } else {
          assert all[i] == rest[i - |first|];
          var rs :| rs in sets[1..] && IsStoredByScaling(rs, rest[i - |first|].body);
          assert rs in sets;
        }
      }
    }
  }

  lemma OneStoresTheTemplate(log: seq<Write<Object>>, faults: seq<Fault>, rs: ReplicaSet, managed: seq<Pod>)
    requires Sound(log)
    ensures StoresTheTemplates(Live(log), Live(SendAll(log, faults, ScaleRequests(rs, managed)).log), [rs])
  {
    hide Sound, Live, SendAll, ScaleRequests, IsStoredByScaling, SameEntry;
    var after := Live(SendAll(log, faults, ScaleRequests(rs, managed)).log);
    forall key | key in after && !SameEntry(Live(log), after, key)
      ensures rs in [rs] && IsStoredByScaling(rs, after[key].value)
    {
      ScalingStoresTheTemplate(log, faults, rs, managed, key);
    }
  }

  lemma OnlyOneStatusRequest(rs: ReplicaSet)
    ensures StatusRequests(rs) ==
      if rs.statusReplicas == Desired(rs) then []
      else [Update(rs.meta.name, ReplicaSetObject(rs.(statusReplicas := Desired(rs))))]
  {
  }

  // Whatever the network does, from lists of any age.
  lemma PassesStoreTheTemplates(log: seq<Write<Object>>, faults: seq<Fault>, sets: seq<ReplicaSet>, pods: seq<Pod>)
    requires Sound(log)
    ensures StoresTheTemplates(Live(log), Live(SendAll(log, faults, PassRequests(sets, pods)).log), sets)
  {
    hide Sound, Live, SendAll, PassRequests, IsStoredByScaling, SameEntry, NoServices;
    PassRequestsStore(sets, pods);
    var after := Live(SendAll(log, faults, PassRequests(sets, pods)).log);
    forall key | key in after && !SameEntry(Live(log), after, key)
      ensures exists rs :: rs in sets && IsStoredByScaling(rs, after[key].value)
    {
      NewEntriesAreBodies(log, faults, PassRequests(sets, pods), key);
    }
  }

  class Controller {
    const client: Client

    constructor (client: Client)
      ensures this.client == client
    {
      this.client := client;
    }

    method ManagedPodsFor(rs: ReplicaSet, pods: seq<Pod>) returns (managed: seq<Pod>)
      ensures managed == ManagedPods(rs, pods)
    {
      managed := [];
      for i := 0 to |pods|
        invariant managed == ManagedPods(rs, pods[..i])
      {
        assert pods[..i + 1][..i] == pods[..i];
        if IsManaged(rs, pods[i]) {
          managed := managed + [pods[i]];
        }
      }
      assert pods[..|pods|] == pods;
    }

    // The least index whose name is not used; the search terminates by the pigeonhole
    // principle.
    method NextPodName(rs: ReplicaSet, pods: seq<Pod>) returns (name: string)
      ensures name == NextName(rs.meta.name, Names(pods))
    {
      var used: set<string> := {};
      for i := 0 to |pods|
        invariant used == set j | 0 <= j < i :: pods[j].meta.name
      {
        used := used + {pods[i].meta.name};
      }
      var index := 1;
      while true
        invariant 1 <= index && AllUsedBelow(rs.meta.name, used, index)
        invariant LeastUnused(rs.meta.name, used, index) == LeastUnused(rs.meta.name, used, 1)
        decreases |used| + 1 - index
      {
        Pigeonhole(rs.meta.name, used, index);
        name := PodName(rs.meta.name, index);
        if name !in used {
          return;
        }
        Pigeonhole(rs.meta.name, used, index + 1);
        index := index + 1;
      }
    }

    // Sends exactly the planned requests, in order, until one is not answered Ok.
    method ReconcilePods(rs: ReplicaSet, managed: seq<Pod>) returns (ok: bool)
      requires client.Valid()
      modifies client, client.server.etcd
      ensures client.Valid()
      ensures Outcome(client.server.etcd.log, client.faults, ok) ==
              SendAll(old(client.server.etcd.log), old(client.faults), ScaleRequests(rs, managed))
      ensures StoresTheTemplates(Live(old(client.server.etcd.log)), Live(client.server.etcd.log), [rs])
    {
      OneStoresTheTemplate(client.server.etcd.log, client.faults, rs, managed);
      hide StoresTheTemplates, Sound, StatusRequests;
      OnlyOneStatusRequest(rs);
      var desired := Desired(rs);
      var pods := Sorted(managed);
      PodRequestsInParts(rs, managed);
      SendAllInTwoParts(old(client.server.etcd.log), old(client.faults), PodRequests(rs, managed), StatusRequests(rs));
      hide SendAll, ScaleRequests, PodRequests, Creations, Deletions, Live, Attempt, AfterExchange, ReplyTo, Sorted,
        Names;
      ok, pods := CreateMissing(rs, pods, desired);
      NothingToSend(client.server.etcd.log, client.faults);
      if !ok {
        return;
      }
      ok := DeleteExcess(pods, desired);
      if !ok || rs.statusReplicas == desired {
        return;
      }
      OneRequest(client.server.etcd.log, client.faults, StatusRequests(rs));
      var reply := client.Send(Update(rs.meta.name, ReplicaSetObject(rs.(statusReplicas := desired))));
      ok := reply.Ok?;
    }

    method CreateMissing(rs: ReplicaSet, sorted: seq<Pod>, desired: nat) returns (ok: bool, pods: seq<Pod>)
      requires client.Valid()
      modifies client, client.server.etcd
      ensures client.Valid()
      ensures Outcome(client.server.etcd.log, client.faults, ok) ==
              SendAll(old(client.server.etcd.log), old(client.faults), Missing(rs, Names(sorted), desired - |sorted|))
      ensures if |sorted| >= desired then pods == sorted else ok ==> |pods| == desired
    {
      var index := |sorted|;
      pods := sorted;
      while index < desired
        invariant |sorted| <= index && (|sorted| < desired ==> index <= desired) && |pods| == index
        invariant |sorted| >= desired ==> pods == sorted
        invariant client.Valid()
        invariant SendAll(old(client.server.etcd.log), old(client.faults),
                          Missing(rs, Names(sorted), desired - |sorted|)) ==
                  SendAll(client.server.etcd.log, client.faults, Missing(rs, Names(pods), desired - index))
      {
        var name := NextPodName(rs, pods);
        hide SendAll, Missing, Creations, Live, Attempt, AfterExchange, ReplyTo, NewPod, NextName, Names;
        MissingUnfold(client.server.etcd.log, client.faults, rs, Names(pods), desired - index);
        // A placeholder keeps the name from being given out again.
        PlaceholderTakesTheName(rs, pods, name);
        pods := pods + [NewPod(rs, name)];
        var reply := client.Send(Post(PodObject(NewPod(rs, name))));
        if !reply.Ok? {
          return false, pods;
        }
        index := index + 1;
      }
      return true, pods;
    }

    method DeleteExcess(pods: seq<Pod>, desired: nat) returns (ok: bool)
      requires client.Valid()
      modifies client, client.server.etcd
      ensures client.Valid()
      ensures Outcome(client.server.etcd.log, client.faults, ok) ==
              SendAll(old(client.server.etcd.log), old(client.faults), DeletionsFrom(pods, desired))
    {
      var index := desired;
      while index < |pods|
        invariant desired <= index
        invariant client.Valid()
        invariant SendAll(old(client.server.etcd.log), old(client.faults), DeletionsFrom(pods, desired)) ==
                  SendAll(client.server.etcd.log, client.faults, DeletionsFrom(pods, index))
      {
        var pod := pods[index];
        DeletionsUnfold(client.server.etcd.log, client.faults, pods, index);
        var reply := client.Send(Remove(Key(PodKind, pod.meta.name), Some(pod.meta.resourceVersion)));
        if !reply.Ok? {
          return false;
        }
        index := index + 1;
      }
      return true;
    }

    // One list of each kind, then every ReplicaSet in turn.
    method Reconcile() returns (ok: bool)
      requires client.Valid()
      modifies client, client.server.etcd
      ensures client.Valid()
      ensures WellTyped(Live(old(client.server.etcd.log)))
      ensures var live := Live(old(client.server.etcd.log));
        Outcome(client.server.etcd.log, client.faults, ok) ==
        SendAll(old(client.server.etcd.log), old(client.faults), PassRequests(ListReplicaSets(live), ListPods(live)))
      ensures var live := Live(old(client.server.etcd.log));
        StoresTheTemplates(live, Live(client.server.etcd.log), ListReplicaSets(live))
    {
      var setItems := client.server.List(ReplicaSetKind);
      var podItems := client.server.List(PodKind);
      var sets, pods := ReplicaSetsOf(setItems), PodsOf(podItems);
      PassesStoreTheTemplates(client.server.etcd.log, client.faults, sets, pods);
      hide StoresTheTemplates;
      for i := 0 to |sets|
        invariant client.Valid()
        invariant SendAll(old(client.server.etcd.log), old(client.faults), PassRequests(sets, pods)) ==
                  SendAll(client.server.etcd.log, client.faults, PassRequests(sets[i..], pods))
      {
        var managed := ManagedPodsFor(sets[i], pods);
        assert sets[i..][0] == sets[i] && sets[i..][1..] == sets[i + 1..];
        SendAllInTwoParts(client.server.etcd.log, client.faults, ScaleRequests(sets[i], managed),
          PassRequests(sets[i + 1..], pods));
        ok := ReconcilePods(sets[i], managed);
        if !ok {
          return;
        }
      }
      return true;
    }
  }

  function Missing(rs: ReplicaSet, used: set<string>, count: int): seq<Request>
  {
    if count <= 0 then [] else Creations(rs, used, count)
  }

  lemma MissingUnfold(log: seq<Write<Object>>, faults: seq<Fault>, rs: ReplicaSet, used: set<string>, count: int)
    requires count > 0
    ensures var name, fault := NextName(rs.meta.name, used), HeadFault(faults);
      var request := Post(PodObject(NewPod(rs, name)));
      var log' := AfterExchange(log, request, fault);
      SendAll(log, faults, Missing(rs, used, count)) ==
        if ReplyTo(log, request, fault).Ok? then
          SendAll(log', TailFaults(faults), Missing(rs, used + {name}, count - 1))
        else Outcome(log', TailFaults(faults), false)
  {
    var name := NextName(rs.meta.name, used);
    var requests := Missing(rs, used, count);
    assert requests[0] == Post(PodObject(NewPod(rs, name))) && requests[1..] == Missing(rs, used + {name}, count - 1);
  }

  lemma PlaceholderTakesTheName(rs: ReplicaSet, pods: seq<Pod>, name: string)
    ensures Names(pods + [NewPod(rs, name)]) == Names(pods) + {name}
  {
    NamesGrow(pods, NewPod(rs, name));
  }

  lemma NothingToSend(log: seq<Write<Object>>, faults: seq<Fault>)
    ensures SendAll(log, faults, []) == Outcome(log, faults, true)
  {
  }

  lemma PodRequestsInParts(rs: ReplicaSet, managed: seq<Pod>)
    ensures |Sorted(managed)| == |managed|
    ensures PodRequests(rs, managed) ==
      if |managed| < Desired(rs) then Missing(rs, Names(Sorted(managed)), Desired(rs) - |Sorted(managed)|)
      else DeletionsFrom(Sorted(managed), Desired(rs))
  {
    hide Creations, Names, Sorted;
    SortingPermutes(managed);
    SamePodsSameNames(Sorted(managed), managed);
  }

  function DeletionsFrom(pods: seq<Pod>, index: nat): seq<Request>
  {
    if index < |pods| then Deletions(pods[index..]) else []
  }

  lemma DeletionsUnfold(log: seq<Write<Object>>, faults: seq<Fault>, pods: seq<Pod>, index: nat)
    requires index < |pods|
    ensures var pod, fault := pods[index], HeadFault(faults);
      var request := Remove(Key(PodKind, pod.meta.name), Some(pod.meta.resourceVersion));
      var log' := AfterExchange(log, request, fault);
      SendAll(log, faults, DeletionsFrom(pods, index)) ==
        if ReplyTo(log, request, fault).Ok? then SendAll(log', TailFaults(faults), DeletionsFrom(pods, index + 1))
        else Outcome(log', TailFaults(faults), false)
  {
    assert pods[index..][1..] == pods[index + 1..];
    var requests := DeletionsFrom(pods, index);
    assert requests[1..] == DeletionsFrom(pods, index + 1);
  }

  lemma NamesGrow(pods: seq<Pod>, pod: Pod)
    ensures Names(pods + [pod]) == Names(pods) + {pod.meta.name}
  {
    var more := pods + [pod];
    assert more[|pods|] == pod;
    forall name | name in Names(pods) ensures name in Names(more) {
      var i :| 0 <= i < |pods| && pods[i].meta.name == name;
      assert more[i] == pods[i];
    }
  }

  // The sort only reorders, and afterwards no name precedes a smaller one.
  lemma {:induction false} SortingPermutes(pods: seq<Pod>)
    ensures multiset(Sorted(pods)) == multiset(pods) && |Sorted(pods)| == |pods|
    ensures forall i, j :: 0 <= i < j < |Sorted(pods)| ==> !Less(Sorted(pods)[j].meta.name, Sorted(pods)[i].meta.name)
  {
    if pods != [] {
      SortingPermutes(pods[1..]);
      InsertingPermutes(pods[0], Sorted(pods[1..]));
      assert pods == [pods[0]] + pods[1..];
    }
  }

  predicate NameOrdered(pods: seq<Pod>)
  {
    forall i, j :: 0 <= i < j < |pods| ==> !Less(pods[j].meta.name, pods[i].meta.name)
  }

  lemma {:induction false} InsertingPermutes(pod: Pod, pods: seq<Pod>)
    requires NameOrdered(pods)
    ensures multiset(Inserted(pod, pods)) == multiset(pods) + multiset{pod} && |Inserted(pod, pods)| == |pods| + 1
    ensures NameOrdered(Inserted(pod, pods))
  {
    if pods == [] || !Less(pods[0].meta.name, pod.meta.name) {
      forall j | 0 <= j < |pods| ensures !Less(pods[j].meta.name, pod.meta.name) {
        NoEarlierThanTheFirst(pod, pods, j);
      }
    } else {
      var rest := Inserted(pod, pods[1..]);
      InsertingPermutes(pod, pods[1..]);
      assert pods == [pods[0]] + pods[1..];
      forall j | 0 <= j < |rest| ensures !Less(rest[j].meta.name, pods[0].meta.name) {
        assert rest[j] in multiset(rest);
        if rest[j] == pod {
          LessIsAsymmetric(pods[0].meta.name, pod.meta.name);
        } else {
          assert rest[j] in multiset(pods[1..]);
          assert rest[j] in pods[1..];
        }
      }
    }
  }

  lemma NoEarlierThanTheFirst(pod: Pod, pods: seq<Pod>, j: nat)
    requires NameOrdered(pods) && j < |pods| && !Less(pods[0].meta.name, pod.meta.name)
    ensures !Less(pods[j].meta.name, pod.meta.name)
  {
    if Less(pods[j].meta.name, pod.meta.name) {
      LessIsTotal(pods[0].meta.name, pods[j].meta.name);
      if Less(pods[0].meta.name, pods[j].meta.name) {
        LessIsTransitive(pods[0].meta.name, pods[j].meta.name, pod.meta.name);
      }
    }
  }

  lemma SamePodsSameNames(a: seq<Pod>, b: seq<Pod>)
    requires multiset(a) == multiset(b)
    ensures Names(a) == Names(b)
  {
    forall name ensures name in Names(a) <==> name in Names(b) {
      if name in Names(a) {
        var i :| 0 <= i < |a| && a[i].meta.name == name;
        assert a[i] in multiset(b) && a[i] in b;
      }
      if name in Names(b) {
        var i :| 0 <= i < |b| && b[i].meta.name == name;
        assert b[i] in multiset(a) && b[i] in a;
      }
    }
  }
}
