// One undisturbed pass of the ReplicaSet controller: every ReplicaSet gets its number of Pods.
module ScalePass {
  import opened Text
  import opened Etcd
  import opened Api
  import opened ApiServer
  import opened ReplicaSets
  import R = ReplicaSetController

  // ---------- one ReplicaSet ----------

  // The ReplicaSet has as many Pods as it asks for, and its status says so.
  ghost predicate Scaled(live: Objects, rs: ReplicaSet)
  {
    && Count(live, rs) == Desired(rs)
    && IsReplicaSet(live, rs.meta.name) && SameScale(ReplicaSetAt(live, rs.meta.name), rs)
    && HasStatus(live, rs)
  }

  // Stored with the status it asks for, and the owners it had.
  predicate HasStatus(live: Objects, rs: ReplicaSet)
    requires IsReplicaSet(live, rs.meta.name)
  {
    var stored := ReplicaSetAt(live, rs.meta.name);
    stored.statusReplicas == Desired(rs) && stored.meta.ownerReferences == rs.meta.ownerReferences
  }

  ghost predicate CanScale(live: Objects, rs: ReplicaSet)
  {
    StoredReplicaSet(live, rs) && NamesAreOurs(live, rs) && TemplateFits(rs)
  }

  lemma StatusIsReached(log: seq<Write<Object>>, rs: ReplicaSet)
    requires Sound(log) && StoredReplicaSet(Live(log), rs)
    ensures var after := Live(SendAll(log, [], StatusRequests(rs)).log);
      IsReplicaSet(after, rs.meta.name) && HasStatus(after, rs)
  {
    hide Sound, Attempt, Live;
    var requests := StatusRequests(rs);
    if requests != [] {
      OneRequest(log, [], requests);
      StatusAttempt(log, rs);
      StatusIsWritten(log, rs);
      ServingKeepsSoundness(log, requests[0]);
    }
  }

  lemma OneIsScaled(log: seq<Write<Object>>, rs: ReplicaSet)
    requires Sound(log) && CanScale(Live(log), rs)
    ensures WellTyped(Live(log))
    ensures var out := SendAll(log, [], ScaleRequests(rs, ManagedPods(rs, ListPods(Live(log)))));
      out.ok && out.faults == [] && Sound(out.log) && Scaled(Live(out.log), rs) && NamesAreOurs(Live(out.log), rs)
  {
    hide Sound, Live, NamesAreOurs, SendAll, TemplateFits, Count, SameScale, PodRequests, StatusRequests;
    ReconcileMovesTowardsDesired(log, [], rs);
    var managed := ManagedPods(rs, ListPods(Live(log)));
    ReconcileKeepsTheReplicaSet(log, [], rs, managed);
    NoFaultsStayNoFaults(log, ScaleRequests(rs, managed));
    StatusAtTheEnd(log, rs, managed);
  }

  lemma StatusAtTheEnd(log: seq<Write<Object>>, rs: ReplicaSet, managed: seq<Pod>)
    requires Sound(log) && StoredReplicaSet(Live(log), rs) && SendAll(log, [], ScaleRequests(rs, managed)).ok
    ensures var after := Live(SendAll(log, [], ScaleRequests(rs, managed)).log);
      IsReplicaSet(after, rs.meta.name) && HasStatus(after, rs)
  {
    hide Sound, Live, SendAll, StatusRequests, PodRequests;
    var key := Key(ReplicaSetKind, rs.meta.name);
    var first := SendAll(log, [], PodRequests(rs, managed));
    PodRequestsAreAboutPods(rs, managed);
    SendAllKeepsOtherKeys(log, [], PodRequests(rs, managed), key);
    SendAllInTwoParts(log, [], PodRequests(rs, managed), StatusRequests(rs));
    NoFaultsStayNoFaults(log, PodRequests(rs, managed));
    StatusIsReached(first.log, rs);
  }

  // ---------- what it leaves for the others ----------

  // The keys a scaling may touch.
  ghost predicate IsScalingKey(live: Objects, rs: ReplicaSet, key: Key)
  {
    || key == Key(ReplicaSetKind, rs.meta.name)
    || (key.kind.PodKind? && (key in live || IsPodName(key.name, rs.meta.name)))
  }

  ghost predicate IsPodName(name: string, rsName: string) { exists index: nat :: PodName(rsName, index) == name }

  lemma {:induction false} CreationKeys(live: Objects, rs: ReplicaSet, used: set<string>, count: nat, i: nat)
    requires i < |Creations(rs, used, count)|
    ensures IsScalingKey(live, rs, RequestKey(Creations(rs, used, count)[i]))
    decreases count
  {
    var name := NextName(rs.meta.name, used);
    if i > 0 {
      CreationKeys(live, rs, used + {name}, count - 1, i - 1);
    } else {
      assert PodName(rs.meta.name, LeastUnused(rs.meta.name, used, 1)) == name;
    }
  }

  lemma {:induction false} DeletionKeys(live: Objects, rs: ReplicaSet, pods: seq<Pod>, i: nat)
    requires StoredAndManaged(live, rs, pods) && i < |Deletions(pods)|
    ensures IsScalingKey(live, rs, RequestKey(Deletions(pods)[i]))
  {
    if i > 0 {
      DeletionKeys(live, rs, pods[1..], i - 1);
    } else {
      assert StoredPod(live, pods[0]);
    }
  }

  lemma PodRequestKeys(live: Objects, rs: ReplicaSet, managed: seq<Pod>, i: nat)
    requires AreFresh(live, rs, managed) && i < |PodRequests(rs, managed)|
    ensures IsScalingKey(live, rs, RequestKey(PodRequests(rs, managed)[i]))
  {
    hide Creations, Deletions, IsScalingKey;
    if |managed| < Desired(rs) {
      CreationKeys(live, rs, Names(managed), Desired(rs) - |managed|, i);
    } else {
      SortedListsStay(managed);
      DeletionKeys(live, rs, Excess(rs, managed), i);
    }
  }

  lemma ScalingKeys(live: Objects, rs: ReplicaSet, managed: seq<Pod>, i: nat)
    requires AreFresh(live, rs, managed) && i < |ScaleRequests(rs, managed)|
    ensures IsScalingKey(live, rs, RequestKey(ScaleRequests(rs, managed)[i]))
  {
    hide AreFresh, PodRequests;
    if i < |PodRequests(rs, managed)| {
      PodRequestKeys(live, rs, managed, i);
    }
  }

  // Everything but its own status and Pods stays as it was.
  lemma ScalingKeepsTheRest(log: seq<Write<Object>>, faults: seq<Fault>, rs: ReplicaSet, key: Key)
    requires Sound(log) && WellTyped(Live(log)) && !IsScalingKey(Live(log), rs, key)
    ensures var after := Live(SendAll(log, faults, ScaleRequests(rs, ManagedPods(rs, ListPods(Live(log))))).log);
      (key in after <==> key in Live(log)) && (key in after ==> after[key] == Live(log)[key])
  {
    hide Sound, Live, ScaleRequests, SendAll, IsScalingKey;
    var managed := ManagedPods(rs, ListPods(Live(log)));
    ManagedPodsOfAFreshList(Live(log), rs);
    forall i | 0 <= i < |ScaleRequests(rs, managed)| ensures RequestKey(ScaleRequests(rs, managed)[i]) != key {
      ScalingKeys(Live(log), rs, managed, i);
    }
    SendAllKeepsOtherKeys(log, faults, ScaleRequests(rs, managed), key);
  }

  lemma OthersNamesStayFree(log: seq<Write<Object>>, a: ReplicaSet, b: ReplicaSet)
    requires Sound(log) && WellTyped(Live(log)) && a.meta.name != b.meta.name && NamesAreOurs(Live(log), b)
    requires R.SamePods(Live(log), Live(SendAll(log, [], ScaleRequests(a, ManagedPods(a, ListPods(Live(log))))).log), b)
    ensures NamesAreOurs(Live(SendAll(log, [], ScaleRequests(a, ManagedPods(a, ListPods(Live(log))))).log), b)
  {
    hide Sound, Live, ScaleRequests, SendAll, ManagedKey;
    var after := Live(SendAll(log, [], ScaleRequests(a, ManagedPods(a, ListPods(Live(log))))).log);
    forall index: nat | Key(PodKind, PodName(b.meta.name, index)) in after
      ensures ManagedKey(after, b, Key(PodKind, PodName(b.meta.name, index)))
    {
      var key := Key(PodKind, PodName(b.meta.name, index));
      if key !in Live(log) {
        NotAScalingKey(Live(log), a, b, index);
        ScalingKeepsTheRest(log, [], a, key);
        assert false;
      }
    }
  }

  lemma NotAScalingKey(live: Objects, a: ReplicaSet, b: ReplicaSet, index: nat)
    requires a.meta.name != b.meta.name && Key(PodKind, PodName(b.meta.name, index)) !in live
    ensures !IsScalingKey(live, a, Key(PodKind, PodName(b.meta.name, index)))
  {
    if IsPodName(PodName(b.meta.name, index), a.meta.name) {
      var other: nat :| PodName(a.meta.name, other) == PodName(b.meta.name, index);
      PodNamesNeverMeet(a.meta.name, other, b.meta.name, index);
    }
  }

  // Scaling one ReplicaSet leaves every other one as scaled, or as ready to be, as it was.
  lemma OthersStay(log: seq<Write<Object>>, a: ReplicaSet, b: ReplicaSet)
    requires Sound(log) && R.SingleOwners(Live(log)) && a.meta.name != b.meta.name
    ensures WellTyped(Live(log))
    ensures var after := Live(SendAll(log, [], ScaleRequests(a, ManagedPods(a, ListPods(Live(log))))).log);
      && R.SingleOwners(after) && WellTyped(after)
      && ManagedPods(b, ListPods(after)) == ManagedPods(b, ListPods(Live(log)))
      && (NamesAreOurs(Live(log), b) ==> NamesAreOurs(after, b))
      && (StoredReplicaSet(Live(log), b) ==> StoredReplicaSet(after, b))
      && (Scaled(Live(log), b) ==> Scaled(after, b))
  {
    hide Sound, Live, ScaleRequests, SendAll, NamesAreOurs, SameScale, R.SingleOwners, R.AllSpare, R.SamePods,
      StoredReplicaSet, Scaled;
    R.OthersKeepTheirPods(log, [], a, b);
    R.ScalingSparesOthers(log, a, b);
    R.SparingRequests(log, [], ScaleRequests(a, ManagedPods(a, ListPods(Live(log)))), b);
    var after := Live(SendAll(log, [], ScaleRequests(a, ManagedPods(a, ListPods(Live(log))))).log);
    if NamesAreOurs(Live(log), b) {
      OthersNamesStayFree(log, a, b);
    }
    ScalingKeepsTheRest(log, [], a, Key(ReplicaSetKind, b.meta.name));
    SamePodsStayScaled(Live(log), after, b);
  }

  lemma SamePodsStayScaled(before: Objects, after: Objects, rs: ReplicaSet)
    requires R.SamePods(before, after, rs)
    requires var key := Key(ReplicaSetKind, rs.meta.name);
      (key in after <==> key in before) && (key in after ==> after[key] == before[key])
    ensures Scaled(before, rs) ==> Scaled(after, rs)
    ensures StoredReplicaSet(before, rs) ==> StoredReplicaSet(after, rs)
  {
    forall name ensures name in ManagedNames(after, rs) <==> name in ManagedNames(before, rs) {
      var key := Key(PodKind, name);
      assert name in ManagedNames(after, rs) <==> ManagedKey(after, rs, key);
      assert name in ManagedNames(before, rs) <==> ManagedKey(before, rs, key);
    }
    assert ManagedNames(after, rs) == ManagedNames(before, rs);
  }

  // ---------- all of them ----------

  ghost predicate AllCanScale(live: Objects, sets: seq<ReplicaSet>)
  {
    forall i :: 0 <= i < |sets| ==> CanScale(live, sets[i])
  }

  ghost predicate AllScaled(live: Objects, sets: seq<ReplicaSet>)
  {
    forall i :: 0 <= i < |sets| ==> Scaled(live, sets[i])
  }

  // No object is touched but Pods and the ReplicaSets of the given names.
  ghost predicate KeepsAllBut(before: Objects, after: Objects, names: set<string>)
  {
    forall key: Key :: !key.kind.PodKind? && !(key.kind.ReplicaSetKind? && key.name in names) ==>
      (key in after <==> key in before) && (key in after ==> after[key] == before[key])
  }

  function SetNames(sets: seq<ReplicaSet>): set<string> { set i | 0 <= i < |sets| :: sets[i].meta.name }

  lemma KeepsAllOn(a: Objects, b: Objects, c: Objects, sets: seq<ReplicaSet>)
    requires sets != [] && KeepsAllBut(a, b, {sets[0].meta.name}) && KeepsAllBut(b, c, SetNames(sets[1..]))
    ensures KeepsAllBut(a, c, SetNames(sets))
  {
    forall name | name in SetNames(sets[1..]) ensures name in SetNames(sets) {
      var i :| 0 <= i < |sets[1..]| && sets[1..][i].meta.name == name;
      assert sets[i + 1].meta.name == name;
    }
    assert sets[0].meta.name in SetNames(sets);
  }

  lemma FirstIsScaled(log: seq<Write<Object>>, sets: seq<ReplicaSet>)
    requires Sound(log) && R.SingleOwners(Live(log)) && R.DistinctNames(sets) && sets != []
    requires AllCanScale(Live(log), sets)
    ensures WellTyped(Live(log))
    ensures var out := SendAll(log, [], ScaleRequests(sets[0], ManagedPods(sets[0], ListPods(Live(log)))));
      && out.ok && out.faults == [] && Sound(out.log) && WellTyped(Live(out.log)) && Scaled(Live(out.log), sets[0])
      && KeepsAllBut(Live(log), Live(out.log), {sets[0].meta.name})
      && (|sets| > 1 ==> R.SingleOwners(Live(out.log)) && AllCanScale(Live(out.log), sets[1..]))
  {
    hide Sound, Live, ScaleRequests, SendAll, NamesAreOurs, StoredReplicaSet, R.SingleOwners, Scaled, TemplateFits;
    assert CanScale(Live(log), sets[0]);
    OneIsScaled(log, sets[0]);
    var out := SendAll(log, [], ScaleRequests(sets[0], ManagedPods(sets[0], ListPods(Live(log)))));
    SoundIsWellTyped(out.log);
    forall key: Key | !key.kind.PodKind? && !(key.kind.ReplicaSetKind? && key.name in {sets[0].meta.name})
      ensures (key in Live(out.log) <==> key in Live(log))
      ensures (key in Live(out.log) ==> Live(out.log)[key] == Live(log)[key])
    {
      ScalingKeepsTheRest(log, [], sets[0], key);
    }
    if |sets| > 1 {
      OthersStay(log, sets[0], sets[1]);
      forall i | 0 <= i < |sets[1..]| ensures CanScale(Live(out.log), sets[1..][i]) {
        assert CanScale(Live(log), sets[i + 1]);
        OthersStay(log, sets[0], sets[i + 1]);
      }
    }
  }

  lemma {:induction false} LaterScalingsSpare(log: seq<Write<Object>>, sets: seq<ReplicaSet>, rs: ReplicaSet)
    requires Sound(log) && R.SingleOwners(Live(log)) && R.DistinctNames(sets) && AllCanScale(Live(log), sets)
    requires Scaled(Live(log), rs) && forall i :: 0 <= i < |sets| ==> sets[i].meta.name != rs.meta.name
    ensures Scaled(Live(R.FreshPass(log, [], sets).log), rs)
    decreases |sets|
  {
    hide Sound, Live, ScaleRequests, SendAll, R.SingleOwners, Scaled, CanScale;
    if sets != [] {
      FirstIsScaled(log, sets);
      OthersStay(log, sets[0], rs);
      if |sets| > 1 {
        var out := SendAll(log, [], ScaleRequests(sets[0], ManagedPods(sets[0], ListPods(Live(log)))));
        LaterScalingsSpare(out.log, sets[1..], rs);
      }
    }
  }

  lemma {:induction false} FreshPassScalesAll(log: seq<Write<Object>>, sets: seq<ReplicaSet>)
    requires Sound(log) && R.SingleOwners(Live(log)) && R.DistinctNames(sets) && AllCanScale(Live(log), sets)
    ensures var out := R.FreshPass(log, [], sets);
      && out.ok && Sound(out.log) && AllScaled(Live(out.log), sets)
      && KeepsAllBut(Live(log), Live(out.log), SetNames(sets))
    decreases |sets|
  {
    hide Sound, Live, ScaleRequests, SendAll, R.SingleOwners, Scaled, CanScale;
    if sets != [] {
      FirstIsScaled(log, sets);
      var out := SendAll(log, [], ScaleRequests(sets[0], ManagedPods(sets[0], ListPods(Live(log)))));
      if |sets| > 1 {
        FreshPassScalesAll(out.log, sets[1..]);
        LaterScalingsSpare(out.log, sets[1..], sets[0]);
        var end := Live(R.FreshPass(out.log, [], sets[1..]).log);
        KeepsAllOn(Live(log), Live(out.log), end, sets);
        forall i | 0 <= i < |sets| ensures Scaled(end, sets[i]) {
          assert i > 0 ==> sets[i] == sets[1..][i - 1];
        }
      } else {
        assert sets[1..] == [];
        assert SetNames(sets) == {sets[0].meta.name};
      }
    }
  }

  // One pass with one list of Pods brings every listed ReplicaSet to the number it asks for.
  lemma PassScalesAll(log: seq<Write<Object>>, sets: seq<ReplicaSet>)
    requires Sound(log) && R.SingleOwners(Live(log)) && R.DistinctNames(sets) && AllCanScale(Live(log), sets)
    ensures WellTyped(Live(log))
    ensures var out := SendAll(log, [], R.PassRequests(sets, ListPods(Live(log))));
      && out.ok && Sound(out.log) && AllScaled(Live(out.log), sets)
      && KeepsAllBut(Live(log), Live(out.log), SetNames(sets))
      && R.StoresTheTemplates(Live(log), Live(out.log), sets)
  {
    hide Sound, Live, SendAll, R.SingleOwners, Scaled, CanScale, R.PassRequests, R.FreshPass, KeepsAllBut,
      R.StoresTheTemplates;
    SoundIsWellTyped(log);
    R.PassesStoreTheTemplates(log, [], sets, ListPods(Live(log)));
    R.OneListServesThePass(log, [], sets, ListPods(Live(log)));
    FreshPassScalesAll(log, sets);
  }
}
