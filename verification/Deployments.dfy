// The Deployment controller: one ReplicaSet per Deployment, kept equal to its template.
module Deployments {
  import opened Text
  import opened Etcd
  import opened Api
  import opened ApiServer
  import opened Services

  const DEPLOYMENT := "Deployment"
  const SUFFIX := "-rs"

  predicate IsOwnedBy(rs: ReplicaSet, d: Deployment)
  {
    HasOwner(rs.meta.ownerReferences, DEPLOYMENT, d.meta.name, d.meta.uid)
  }

  predicate IsFirstOwned(sets: seq<ReplicaSet>, rs: ReplicaSet, d: Deployment)
  {
    exists i :: 0 <= i < |sets| && sets[i] == rs && forall j :: 0 <= j < i ==> !IsOwnedBy(sets[j], d)
  }

  // The first owned ReplicaSet of the list.
  function ReplicaSetFor(d: Deployment, sets: seq<ReplicaSet>): (r: Option<ReplicaSet>)
    ensures r.Some? ==> r.value in sets && IsOwnedBy(r.value, d) && IsFirstOwned(sets, r.value, d)
    ensures r.None? ==> forall rs :: rs in sets ==> !IsOwnedBy(rs, d)
  {
    if sets == [] then None
    else if IsOwnedBy(sets[0], d) then Some(sets[0])
    else
      assert sets == [sets[0]] + sets[1..];
      var rest := ReplicaSetFor(d, sets[1..]);
      assert rest.Some? ==> IsFirstOwned(sets, rest.value, d) by { LaterFirst(sets, rest, d); }
      rest
  }

  lemma LaterFirst(sets: seq<ReplicaSet>, found: Option<ReplicaSet>, d: Deployment)
    requires sets != [] && !IsOwnedBy(sets[0], d)
    requires found.Some? ==> IsFirstOwned(sets[1..], found.value, d)
    ensures found.Some? ==> IsFirstOwned(sets, found.value, d)
  {
    if found.Some? {
      var i :| 0 <= i < |sets[1..]| && sets[1..][i] == found.value && forall j :: 0 <= j < i ==>
        !IsOwnedBy(sets[1..][j], d);
      assert sets[i + 1] == found.value;
      forall j | 0 <= j < i + 1 ensures !IsOwnedBy(sets[j], d) {
        assert j > 0 ==> sets[j] == sets[1..][j - 1];
      }
    }
  }

  function NameFor(d: Deployment): string { d.meta.name + SUFFIX }

  function KeyFor(d: Deployment): Key { Key(ReplicaSetKind, NameFor(d)) }

  function OwnersFor(d: Deployment): seq<OwnerReference> { [OwnerReference(DEPLOYMENT, d.meta.name, d.meta.uid)] }

  function NewReplicaSet(d: Deployment): ReplicaSet
  {
    ReplicaSet(Meta(NameFor(d), "", 0, d.spec.template.meta.labels, map[], OwnersFor(d)), d.spec, 0)
  }

  function SyncRequests(d: Deployment, sets: seq<ReplicaSet>): seq<Request>
  {
    match ReplicaSetFor(d, sets)
    case None => [Post(ReplicaSetObject(NewReplicaSet(d)))]
    case Some(rs) =>
      if rs.spec == d.spec && rs.meta.ownerReferences == OwnersFor(d) then []
      else
        var desired := NewReplicaSet(d);
        [Update(rs.meta.name, ReplicaSetObject(desired.(
          meta := desired.meta.(resourceVersion := rs.meta.resourceVersion),
          statusReplicas := rs.statusReplicas)))]
  }

  function SyncAll(deployments: seq<Deployment>, sets: seq<ReplicaSet>): seq<Request>
  {
    if deployments == [] then [] else SyncRequests(deployments[0], sets) + SyncAll(deployments[1..], sets)
  }

  // ---------- what a pass stores ----------

  // The ReplicaSet is the Deployment's, named after it and with its scale and template, and
  // with the status of the first owned one there was.
  ghost predicate IsMadeFor(d: Deployment, sets: seq<ReplicaSet>, rs: ReplicaSet)
  {
    && rs.meta.name == d.meta.name + "-rs" && rs.meta.uid == "" && rs.meta.annotations == map[]
    && rs.meta.labels == d.spec.template.meta.labels
    && rs.meta.ownerReferences == [OwnerReference("Deployment", d.meta.name, d.meta.uid)]
    && rs.spec.replicas == d.spec.replicas && rs.spec.selector == d.spec.selector
    && rs.spec.template == d.spec.template
    && if exists earlier :: earlier in sets && IsOwnedBy(earlier, d)
       then exists earlier :: IsFirstOwned(sets, earlier, d) && IsOwnedBy(earlier, d) &&
              rs.statusReplicas == earlier.statusReplicas
       else rs.statusReplicas == 0
  }

  lemma SyncRequestsStore(d: Deployment, sets: seq<ReplicaSet>)
    ensures forall i :: 0 <= i < |SyncRequests(d, sets)| ==>
      var request := SyncRequests(d, sets)[i];
      !request.Remove? && request.body.ReplicaSetObject? && IsMadeFor(d, sets, request.body.replicaSet)
  {
    hide IsFirstOwned, IsOwnedBy;
    var found := ReplicaSetFor(d, sets);
    if found.Some? {
      assert found.value in sets && IsOwnedBy(found.value, d);
    }
  }

  ghost predicate IsMadeForOne(deployments: seq<Deployment>, sets: seq<ReplicaSet>, o: Object)
  {
    exists d :: d in deployments && o.ReplicaSetObject? && IsMadeFor(d, sets, o.replicaSet)
  }

  lemma {:induction false} SyncAllStores(deployments: seq<Deployment>, sets: seq<ReplicaSet>)
    ensures NoServices(SyncAll(deployments, sets))
    ensures forall i :: 0 <= i < |SyncAll(deployments, sets)| ==>
      var request := SyncAll(deployments, sets)[i];
      !request.Remove? && IsMadeForOne(deployments, sets, request.body)
  {
    hide SyncRequests, IsMadeFor;
    if deployments != [] {
      var all := SyncAll(deployments, sets);
      var first, rest := SyncRequests(deployments[0], sets), SyncAll(deployments[1..], sets);
      SyncRequestsStore(deployments[0], sets);
      SyncAllStores(deployments[1..], sets);
      assert deployments == [deployments[0]] + deployments[1..];
      forall i | 0 <= i < |all| ensures !all[i].Remove? && IsMadeForOne(deployments, sets, all[i].body) {
        if i < |first| {
          assert all[i] == first[i] && deployments[0] in deployments;
        } else {
          assert all[i] == rest[i - |first|];
          var d :| d in deployments[1..] && all[i].body.ReplicaSetObject? && IsMadeFor(d, sets, all[i].body.replicaSet);
          assert d in deployments;
        }
      }
    }
  }

  // What a pass leaves in the store: what was there, and ReplicaSets that the Deployments ask
  // for. Nothing goes.
  ghost predicate StoresTheDeployments(before: Objects, after: Objects, deployments: seq<Deployment>,
                                       sets: seq<ReplicaSet>)
  {
    && (forall key :: key in before ==> key in after)
    && (forall key :: key in after && !SameEntry(before, after, key) ==>
          IsMadeForOne(deployments, sets, after[key].value))
  }

  // Whatever the network does, from lists of any age.
  lemma PassesStoreTheDeployments(log: seq<Write<Object>>, faults: seq<Fault>, deployments: seq<Deployment>,
                                  sets: seq<ReplicaSet>)
    requires Sound(log)
    ensures StoresTheDeployments(Live(log), Live(SendAll(log, faults, SyncAll(deployments, sets)).log), deployments,
      sets)
  {
    hide Sound, Live, SendAll, SyncAll, IsMadeForOne, SameEntry, NoServices;
    SyncAllStores(deployments, sets);
    var after := Live(SendAll(log, faults, SyncAll(deployments, sets)).log);
    forall key | key in after && !SameEntry(Live(log), after, key)
      ensures IsMadeForOne(deployments, sets, after[key].value)
    {
      NewEntriesAreBodies(log, faults, SyncAll(deployments, sets), key);
    }
    forall key | key in Live(log) ensures key in after {
      GoneEntriesAreRemoved(log, faults, SyncAll(deployments, sets), key);
    }
  }

  // ---------- convergence ----------

  // The generated name is not held by anybody else's ReplicaSet, and no other ReplicaSet
  // names the Deployment as its owner.
  ghost predicate OursAlone(live: Objects, d: Deployment)
  {
    && (forall rs :: StoredReplicaSet(live, rs) && IsOwnedBy(rs, d) ==> rs.meta.name == NameFor(d))
    && (KeyFor(d) in live ==> live[KeyFor(d)].value.ReplicaSetObject? && IsOwnedBy(live[KeyFor(d)].value.replicaSet, d))
  }

  predicate Synced(live: Objects, d: Deployment)
  {
    && KeyFor(d) in live && live[KeyFor(d)].value.ReplicaSetObject?
    && live[KeyFor(d)].value.replicaSet.spec == d.spec
    && live[KeyFor(d)].value.replicaSet.meta.ownerReferences == OwnersFor(d)
  }

  // What the pass makes of the Deployment's ReplicaSet: one that agrees already is left alone,
  // any other is replaced.
  predicate SyncedTo(before: Objects, after: Objects, d: Deployment)
  {
    && KeyFor(d) in after && after[KeyFor(d)].value.ReplicaSetObject?
    && if Synced(before, d) then after[KeyFor(d)] == before[KeyFor(d)]
       else
         var rs := after[KeyFor(d)].value.replicaSet;
         rs.meta.name == NameFor(d) && rs.meta.uid == "" && rs.spec == d.spec
  }

  lemma FoundByName(live: Objects, d: Deployment)
    requires WellTyped(live) && OursAlone(live, d)
    ensures ReplicaSetFor(d, ListReplicaSets(live)) ==
      if KeyFor(d) in live then Some(Read(live, KeyFor(d)).replicaSet) else None
  {
    var found := ReplicaSetFor(d, ListReplicaSets(live));
    if KeyFor(d) in live {
      var rs := Read(live, KeyFor(d)).replicaSet;
      assert KeyOf(live[KeyFor(d)].value) == KeyFor(d);
      assert StoredReplicaSet(live, rs) && IsOwnedBy(rs, d);
    } else {
      forall rs | rs in ListReplicaSets(live) ensures !IsOwnedBy(rs, d) {
        assert StoredReplicaSet(live, rs);
      }
    }
  }

  lemma OwnersForAreOwners(d: Deployment)
    ensures HasOwner(OwnersFor(d), DEPLOYMENT, d.meta.name, d.meta.uid)
  {
    assert OwnersFor(d)[0].name == d.meta.name;
  }

  lemma NamesForAreInjective(a: Deployment, b: Deployment)
    requires NameFor(a) == NameFor(b)
    ensures a.meta.name == b.meta.name
  {
    assert NameFor(a)[..|NameFor(a)| - |SUFFIX|] == a.meta.name;
    assert NameFor(b)[..|NameFor(b)| - |SUFFIX|] == b.meta.name;
  }

  // Nothing to do exactly when the stored ReplicaSet agrees.
  lemma NoRequestsWhenSynced(live: Objects, d: Deployment)
    requires WellTyped(live) && OursAlone(live, d)
    ensures SyncRequests(d, ListReplicaSets(live)) == [] <==> Synced(live, d)
  {
    FoundByName(live, d);
  }

  // The requests for one Deployment write under its generated name only, and what they write
  // is the Deployment's ReplicaSet; against a list that is still right they succeed.
  lemma SyncOne(log: seq<Write<Object>>, d: Deployment, sets: seq<ReplicaSet>)
    requires Sound(log) && OursAlone(Live(log), d)
    requires ReplicaSetFor(d, sets) ==
             if KeyFor(d) in Live(log) then Some(Read(Live(log), KeyFor(d)).replicaSet) else None
    ensures WellTyped(Live(log))
    ensures var out := SendAll(log, [], SyncRequests(d, sets));
      && out.ok && Sound(out.log) && Synced(Live(out.log), d) && OursAlone(Live(out.log), d)
      && SyncedTo(Live(log), Live(out.log), d)
      && (forall key :: key != KeyFor(d) ==>
            (key in Live(out.log) <==> key in Live(log)) && (key in Live(log) ==> Live(out.log)[key] == Live(log)[key]))
  {
    hide Live, Accepted, ServicesOk, HasOwner;
    var live := Live(log);
    WellTypedLogGivesWellTypedObjects(log);
    VersionIsZeroExactlyWhenAbsent(log, KeyFor(d));
    OwnersForAreOwners(d);
    var requests := SyncRequests(d, sets);
    if requests != [] {
      assert KeyFor(d) in live ==> KeyOf(live[KeyFor(d)].value) == KeyFor(d);
      var request := requests[0];
      assert Attempt(live, request).Success?;
      ServingKeepsSoundness(log, request);
      assert requests[1..] == [];
      assert SendAll(log, [], requests).log == log + [Attempt(live, request).value];
      AppliedSync(live, d, Attempt(live, request).value, |log| + 2);
    }
  }

  lemma AppliedSync(live: Objects, d: Deployment, write: Write<Object>, revision: nat)
    requires OursAlone(live, d) && WellTyped(live)
    requires write.Put? && write.key == KeyFor(d) && write.value.ReplicaSetObject?
    requires write.value.replicaSet.spec == d.spec && write.value.replicaSet.meta.ownerReferences == OwnersFor(d)
    requires write.value.replicaSet.meta.name == NameFor(d) && write.value.replicaSet.meta.uid == ""
    ensures Synced(Applied(live, write, revision), d) && OursAlone(Applied(live, write, revision), d)
    ensures !Synced(live, d) ==> SyncedTo(live, Applied(live, write, revision), d)
  {
    var after := Applied(live, write, revision);
    OwnersForAreOwners(d);
    forall rs | StoredReplicaSet(after, rs) && IsOwnedBy(rs, d) ensures rs.meta.name == NameFor(d) {
      if rs.meta.name != NameFor(d) {
        assert StoredReplicaSet(live, rs);
      }
    }
  }

  ghost predicate KeepsOthers(before: Objects, after: Objects, d: Deployment)
  {
    forall key :: key != KeyFor(d) ==>
      (key in after <==> key in before) && (key in before ==> after[key] == before[key])
  }

  lemma OthersStayOursAlone(before: Objects, after: Objects, a: Deployment, b: Deployment)
    requires a.meta.name != b.meta.name && WellTyped(after) && KeepsOthers(before, after, a) && Synced(after, a)
    requires OursAlone(before, b)
    ensures OursAlone(after, b) && KeyFor(a) != KeyFor(b)
  {
    if NameFor(a) == NameFor(b) {
      NamesForAreInjective(a, b);
    }
    forall rs | StoredReplicaSet(after, rs) && IsOwnedBy(rs, b) ensures rs.meta.name == NameFor(b) {
      if rs.meta.name != NameFor(a) {
        assert StoredReplicaSet(before, rs);
      }
    }
  }

  predicate DistinctDeployments(deployments: seq<Deployment>)
  {
    forall i, j :: 0 <= i < j < |deployments| ==> deployments[i].meta.name != deployments[j].meta.name
  }

  ghost predicate ListedRight(live: Objects, deployments: seq<Deployment>, sets: seq<ReplicaSet>)
  {
    forall i :: 0 <= i < |deployments| ==> OursAlone(live, deployments[i]) && FoundRight(live, deployments[i], sets)
  }

  predicate FoundRight(live: Objects, d: Deployment, sets: seq<ReplicaSet>)
  {
    && (KeyFor(d) in live ==> live[KeyFor(d)].value.ReplicaSetObject?)
    && ReplicaSetFor(d, sets) == if KeyFor(d) in live then Some(Read(live, KeyFor(d)).replicaSet) else None
  }

  // The first Deployment of a pass, and what it leaves for the others.
  lemma FirstOfThePass(log: seq<Write<Object>>, deployments: seq<Deployment>, sets: seq<ReplicaSet>)
      returns (middle: Outcome)
    requires Sound(log) && DistinctDeployments(deployments) && ListedRight(Live(log), deployments, sets)
    requires deployments != []
    ensures middle == SendAll(log, [], SyncRequests(deployments[0], sets))
    ensures SendAll(log, [], SyncAll(deployments, sets)) == SendAll(middle.log, [], SyncAll(deployments[1..], sets))
    ensures Sound(middle.log) && DistinctDeployments(deployments[1..])
    ensures ListedRight(Live(middle.log), deployments[1..], sets)
    ensures WellTyped(Live(middle.log)) && Synced(Live(middle.log), deployments[0])
    ensures OursAlone(Live(middle.log), deployments[0])
    ensures SyncedTo(Live(log), Live(middle.log), deployments[0])
    ensures KeepsOthers(Live(log), Live(middle.log), deployments[0])
    ensures forall i :: 1 <= i < |deployments| ==> KeyFor(deployments[0]) != KeyFor(deployments[i])
  {
    hide Sound, Live, OursAlone, Synced, SyncedTo, SyncRequests;
    var d, rest := deployments[0], deployments[1..];
    assert OursAlone(Live(log), d) && FoundRight(Live(log), d, sets);
    SyncOne(log, d, sets);
    middle := SendAll(log, [], SyncRequests(d, sets));
    NoFaultsStayNoFaults(log, SyncRequests(d, sets));
    SendAllInTwoParts(log, [], SyncRequests(d, sets), SyncAll(rest, sets));
    SoundIsWellTyped(middle.log);
    forall i | 1 <= i < |deployments|
      ensures OursAlone(Live(middle.log), deployments[i]) && FoundRight(Live(middle.log), deployments[i], sets)
      ensures KeyFor(d) != KeyFor(deployments[i])
    {
      OthersStayOursAlone(Live(log), Live(middle.log), d, deployments[i]);
      assert FoundRight(Live(log), deployments[i], sets);
    }
  }

  lemma {:induction false} PassKeepsOursAlone(log: seq<Write<Object>>, deployments: seq<Deployment>,
                                              sets: seq<ReplicaSet>, e: Deployment)
    requires Sound(log) && DistinctDeployments(deployments) && ListedRight(Live(log), deployments, sets)
    requires OursAlone(Live(log), e) && forall i :: 0 <= i < |deployments| ==> deployments[i].meta.name != e.meta.name
    ensures OursAlone(Live(SendAll(log, [], SyncAll(deployments, sets)).log), e)
    decreases |deployments|
  {
    hide Sound, Live, OursAlone, Synced, SyncedTo, SyncRequests;
    if deployments != [] {
      var middle := FirstOfThePass(log, deployments, sets);
      OthersStayOursAlone(Live(log), Live(middle.log), deployments[0], e);
      PassKeepsOursAlone(middle.log, deployments[1..], sets, e);
    }
  }

  // An undisturbed pass succeeds and leaves the ReplicaSet of every Deployment in agreement
  // with it; nothing but those ReplicaSets is written.
  lemma {:induction false} PassSyncsEveryDeployment(log: seq<Write<Object>>, deployments: seq<Deployment>,
                                                    sets: seq<ReplicaSet>)
    requires Sound(log) && DistinctDeployments(deployments) && ListedRight(Live(log), deployments, sets)
    ensures var out := SendAll(log, [], SyncAll(deployments, sets));
      && out.ok && out.faults == [] && Sound(out.log)
      && (forall i :: 0 <= i < |deployments| ==>
            Synced(Live(out.log), deployments[i]) && OursAlone(Live(out.log), deployments[i]))
      && (forall i :: 0 <= i < |deployments| ==> SyncedTo(Live(log), Live(out.log), deployments[i]))
      && (forall key :: (forall i :: 0 <= i < |deployments| ==> key != KeyFor(deployments[i])) ==>
            (key in Live(out.log) <==> key in Live(log)) && (key in Live(log) ==> Live(out.log)[key] == Live(log)[key]))
    decreases |deployments|
  {
    hide Sound, Live, OursAlone, Synced, SyncedTo, SyncRequests;
    if deployments != [] {
      var middle := FirstOfThePass(log, deployments, sets);
      var rest := deployments[1..];
      var out := SendAll(middle.log, [], SyncAll(rest, sets));
      PassSyncsEveryDeployment(middle.log, rest, sets);
      PassKeepsOursAlone(middle.log, rest, sets, deployments[0]);
      assert KeyFor(deployments[0]) in Live(middle.log) by { SyncedIsStored(Live(middle.log), deployments[0]); }
      SyncedSurvives(Live(middle.log), Live(out.log), deployments[0]);
      forall i | 0 <= i < |deployments|
        ensures Synced(Live(out.log), deployments[i]) && OursAlone(Live(out.log), deployments[i])
        ensures SyncedTo(Live(log), Live(out.log), deployments[i])
      {
        if i > 0 {
          assert deployments[i] == rest[i - 1];
          SyncedFromEarlier(Live(log), Live(middle.log), Live(out.log), deployments[i]);
        } else {
          SyncedToSurvives(Live(log), Live(middle.log), Live(out.log), deployments[0]);
        }
      }
    }
  }

  lemma SyncedFromEarlier(before: Objects, middle: Objects, after: Objects, d: Deployment)
    requires SyncedTo(middle, after, d)
    requires (KeyFor(d) in middle <==> KeyFor(d) in before)
    requires (KeyFor(d) in before ==> middle[KeyFor(d)] == before[KeyFor(d)])
    ensures SyncedTo(before, after, d)
  {
  }

  lemma SyncedToSurvives(before: Objects, middle: Objects, after: Objects, d: Deployment)
    requires SyncedTo(before, middle, d) && KeyFor(d) in after && after[KeyFor(d)] == middle[KeyFor(d)]
    ensures SyncedTo(before, after, d)
  {
  }

  lemma SyncedIsStored(live: Objects, d: Deployment)
    requires Synced(live, d)
    ensures KeyFor(d) in live
  {
  }

  lemma SyncedSurvives(before: Objects, after: Objects, d: Deployment)
    requires KeyFor(d) in before && KeyFor(d) in after && before[KeyFor(d)] == after[KeyFor(d)]
    ensures Synced(before, d) ==> Synced(after, d)
  {
  }

  // ---------- the controller ----------

  class Controller {
    const client: Client

    constructor (client: Client)
      ensures this.client == client
    {
      this.client := client;
    }

    method FindReplicaSet(d: Deployment, sets: seq<ReplicaSet>) returns (found: Option<ReplicaSet>)
      ensures found == ReplicaSetFor(d, sets)
    {
      for i := 0 to |sets|
        invariant ReplicaSetFor(d, sets) == ReplicaSetFor(d, sets[i..])
      {
        if IsOwnedBy(sets[i], d) {
          return Some(sets[i]);
        }
        assert sets[i..][1..] == sets[i + 1..];
      }
      return None;
    }

    method Reconcile() returns (ok: bool)
      requires client.Valid()
      modifies client, client.server.etcd
      ensures client.Valid()
      ensures WellTyped(Live(old(client.server.etcd.log)))
      ensures var live := Live(old(client.server.etcd.log));
        Outcome(client.server.etcd.log, client.faults, ok) ==
        SendAll(old(client.server.etcd.log), old(client.faults), SyncAll(ListDeployments(live), ListReplicaSets(live)))
      ensures var live := Live(old(client.server.etcd.log));
        StoresTheDeployments(live, Live(client.server.etcd.log), ListDeployments(live), ListReplicaSets(live))
    {
      hide StoresTheDeployments;
      var deployments := client.server.List(DeploymentKind);
      var sets := client.server.List(ReplicaSetKind);
      PassesStoreTheDeployments(client.server.etcd.log, client.faults, DeploymentsOf(deployments), ReplicaSetsOf(sets));
      ok := ReconcileEach(DeploymentsOf(deployments), ReplicaSetsOf(sets));
    }

    method ReconcileEach(deployments: seq<Deployment>, sets: seq<ReplicaSet>) returns (ok: bool)
      requires client.Valid()
      modifies client, client.server.etcd
      ensures client.Valid()
      ensures Outcome(client.server.etcd.log, client.faults, ok) ==
              SendAll(old(client.server.etcd.log), old(client.faults), SyncAll(deployments, sets))
    {
      for i := 0 to |deployments|
        invariant client.Valid()
        invariant SendAll(old(client.server.etcd.log), old(client.faults), SyncAll(deployments, sets)) ==
                  SendAll(client.server.etcd.log, client.faults, SyncAll(deployments[i..], sets))
      {
        var d := deployments[i];
        var found := FindReplicaSet(d, sets);
        assert deployments[i..][0] == d && deployments[i..][1..] == deployments[i + 1..];
        ghost var log, faults := client.server.etcd.log, client.faults;
        SendAllInTwoParts(log, faults, SyncRequests(d, sets), SyncAll(deployments[i + 1..], sets));
        var desired := NewReplicaSet(d);
        if found.None? {
          OneRequest(log, faults, SyncRequests(d, sets));
          var reply := client.Send(Post(ReplicaSetObject(desired)));
          if !reply.Ok? { return false; }
          continue;
        }
        desired := desired.(
          meta := desired.meta.(resourceVersion := found.value.meta.resourceVersion),
          statusReplicas := found.value.statusReplicas);
        if found.value.spec == desired.spec && found.value.meta.ownerReferences == desired.meta.ownerReferences {
          continue;
        }
        OneRequest(log, faults, SyncRequests(d, sets));
        var reply := client.Send(Update(found.value.meta.name, ReplicaSetObject(desired)));
        if !reply.Ok? { return false; }
      }
      return true;
    }
  }
}
