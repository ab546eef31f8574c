// The whole system: one undisturbed pass of every component reaches the desired state, and a
// second one writes nothing.
module Convergence {
  import opened Text
  import opened Etcd
  import opened Api
  import opened ApiServer
  import opened ReplicaSets
  import opened PodUpdates
  import opened ScalePass
  import opened Services
  import C = Cri
  import M = Runtime
  import T = StaticPods
  import D = Deployments
  import S = Scheduler
  import K = Kubelet
  import P = MirrorPods
  import R = ReplicaSetController

  // ---------- what going on keeps of ReplicaSets ----------

  lemma GoingOnKeepsScaled(before: Objects, after: Objects, rs: ReplicaSet)
    requires GoOn(before, after) && WellTyped(before) && WellTyped(after)
    ensures ManagedNames(after, rs) == ManagedNames(before, rs)
    ensures Scaled(before, rs) ==> Scaled(after, rs)
  {
    forall key: Key ensures ManagedKey(after, rs, key) <==> ManagedKey(before, rs, key) {
      if key in before {
        assert GoesOnAt(before, after, key);
      }
    }
    forall name ensures name in ManagedNames(after, rs) <==> name in ManagedNames(before, rs) {
      var key := Key(PodKind, name);
      assert name in ManagedNames(after, rs) <==> ManagedKey(after, rs, key);
      assert name in ManagedNames(before, rs) <==> ManagedKey(before, rs, key);
    }
    var key := Key(ReplicaSetKind, rs.meta.name);
    if key in before {
      assert GoesOnAt(before, after, key) && KeyOf(before[key].value) == key;
    }
  }

  lemma GoingOnKeepsReplicaSets(before: Objects, after: Objects, rs: ReplicaSet)
    requires GoOn(before, after) && WellTyped(before)
    ensures StoredReplicaSet(before, rs) <==> StoredReplicaSet(after, rs)
  {
    var key := Key(ReplicaSetKind, rs.meta.name);
    if key in before {
      assert GoesOnAt(before, after, key) && KeyOf(before[key].value) == key;
    }
  }

  // ---------- the scheduler's pass ----------

  predicate IsBound(live: Objects, name: string)
  {
    var key := Key(PodKind, name);
    key in live && live[key].value.PodObject? && live[key].value.pod.spec.nodeName != ""
  }

  predicate AllStored(live: Objects, pods: seq<Pod>)
  {
    forall i :: 0 <= i < |pods| ==> StoredPod(live, pods[i])
  }

  ghost predicate AllBound(live: Objects, pods: seq<Pod>)
  {
    forall i :: 0 <= i < |pods| ==> IsBound(live, pods[i].meta.name)
  }

  predicate NodesAreNamed(nodes: seq<Node>)
  {
    forall i :: 0 <= i < |nodes| ==> nodes[i].meta.name != ""
  }

  lemma BindOne(log: seq<Write<Object>>, pods: seq<Pod>, node: Node)
    requires Sound(log) && PodsAreValid(Live(log)) && SortedPods(pods) && AllStored(Live(log), pods) && pods != []
    requires pods[0].spec.nodeName == "" && node.meta.name != ""
    ensures var request := S.BindRequest(pods[0], node);
      var after := AfterExchange(log, request, Delivered);
      && ReplyTo(log, request, Delivered).Ok? && Sound(after) && GoOn(Live(log), Live(after))
      && IsBound(Live(after), pods[0].meta.name) && AllStored(Live(after), pods[1..])
  {
    hide Sound, Live, ReplyTo, AfterExchange, GoOn, PodsAreValid;
    var pod := pods[0];
    var after := pod.(spec := pod.spec.(nodeName := node.meta.name));
    assert StoredPod(Live(log), pod);
    UpdateOfAStoredPod(log, pod, after);
    UpdatedPodGoesOn(Live(log), pod, after, |log| + 2);
    var write := Put(Key(PodKind, pod.meta.name), PodObject(after), pod.meta.resourceVersion);
    forall i | 0 <= i < |pods[1..]| ensures StoredPod(Live(log + [write]), pods[1..][i]) {
      LessIsAsymmetric(pod.meta.name, pods[i + 1].meta.name);
      assert StoredPod(Live(log), pods[i + 1]);
      OtherPodsStayStored(Live(log), write, pods[i + 1], |log| + 2);
    }
  }

  lemma BoundStays(before: Objects, after: Objects, name: string)
    requires GoOn(before, after) && IsBound(before, name)
    ensures IsBound(after, name)
  {
    assert GoesOnAt(before, after, Key(PodKind, name));
  }

  lemma StoredIsBound(live: Objects, pod: Pod)
    requires StoredPod(live, pod) && pod.spec.nodeName != ""
    ensures IsBound(live, pod.meta.name)
  {
  }

  predicate NoneUnbound(pods: seq<Pod>) { forall i :: 0 <= i < |pods| ==> pods[i].spec.nodeName != "" }

  // With a Ready node, every Pod on a fresh list is bound, and nothing else changes; when all
  // are bound nothing is written.
  lemma {:induction false} BindsAll(log: seq<Write<Object>>, nodes: seq<Node>, pods: seq<Pod>, cursor: nat)
    requires Sound(log) && PodsAreValid(Live(log)) && SortedPods(pods) && AllStored(Live(log), pods)
    requires S.SomeReady(nodes) && NodesAreNamed(nodes)
    ensures var out := S.BindAll(log, [], nodes, pods, cursor).outcome;
      && out.ok && out.faults == [] && Sound(out.log) && GoOn(Live(log), Live(out.log)) && AllBound(Live(out.log), pods)
      && S.OnlyBinds(Live(log), Live(out.log), nodes, pods)
      && (NoneUnbound(pods) ==> out.log == log)
    decreases |pods|
  {
    hide S.OnlyBinds;
    S.ReconcileOnlyBinds(log, [], nodes, pods, cursor);
    hide Sound, Live, ReplyTo, AfterExchange, GoOn, PodsAreValid, S.BindAll, S.NextReady, IsBound, S.BindRequest,
      StoredPod;
    if pods == [] {
      S.NothingToBind(log, [], nodes, cursor);
      ItGoesOn(Live(log));
    } else {
      S.BindAllStep(log, [], nodes, pods, cursor);
      var rest := pods[1..];
      if pods[0].spec.nodeName != "" {
        assert StoredPod(Live(log), pods[0]);
        BindsAll(log, nodes, rest, cursor);
        StoredIsBound(Live(log), pods[0]);
        var end := Live(S.BindAll(log, [], nodes, rest, cursor).outcome.log);
        BoundStays(Live(log), end, pods[0].meta.name);
        FirstAndRestBound(end, pods);
      } else {
        ReadyIsFound(nodes, cursor);
        var found := S.NextReady(nodes, cursor).value;
        var after := AfterExchange(log, S.BindRequest(pods[0], nodes[found]), Delivered);
        BindOne(log, pods, nodes[found]);
        GoingOnKeepsPodsValid(Live(log), Live(after));
        BindsAll(after, nodes, rest, S.Advanced(nodes, found));
        var end := Live(S.BindAll(after, [], nodes, rest, S.Advanced(nodes, found)).outcome.log);
        GoOnAndOn(Live(log), Live(after), end);
        BoundStays(Live(after), end, pods[0].meta.name);
        FirstAndRestBound(end, pods);
      }
    }
  }

  lemma FirstAndRestBound(live: Objects, pods: seq<Pod>)
    requires pods != [] && IsBound(live, pods[0].meta.name) && AllBound(live, pods[1..])
    ensures AllBound(live, pods)
  {
    forall i | 0 <= i < |pods| ensures IsBound(live, pods[i].meta.name) {
      assert i > 0 ==> pods[i] == pods[1..][i - 1];
    }
  }

  lemma ReadyIsFound(nodes: seq<Node>, cursor: nat)
    requires S.SomeReady(nodes)
    ensures S.NextReady(nodes, cursor).Some?
  {
    var i := S.PickFrom(nodes, cursor);
    S.StartIsCyclic(nodes, cursor);
    S.SearchFindsNextRank(nodes, cursor % |nodes|, 0);
  }

  // ---------- all kubelets ----------

  // What a node's runtime holds.
  datatype View = View(nodeName: string, node: M.Machine)

  // A kubelet's reconcile of its workloads: its runtime before and after, and its reports.
  datatype KubeletPass = KubeletPass(nodeName: string, before: M.Machine, after: M.Machine, sent: seq<Request>)

  // What Kubelet.ReconcileWorkloads ensures on success, names being apart.
  ghost predicate HasReconciled(live: Objects, pass: KubeletPass)
  {
    && WellTyped(live)
    && var desired := K.AssignedPods(ListPods(live), pass.nodeName);
       && AreReports(desired, pass.sent) && K.IsExact(pass.before, pass.after, desired)
       && ReportedNames(pass.sent) == (set name | name in desired && K.NeedsReport(pass.before, desired, name))
       && (forall name :: name in desired ==> T.Runs(pass.after, name, C.Workload))
  }

  // The Pods assigned to the node run there, and the store says so; nothing else runs there
  // but static Pods.
  ghost predicate NodeIsRight(live: Objects, view: View)
  {
    && (forall name :: K.AssignedAt(live, name, view.nodeName) ==>
          T.Runs(view.node, name, C.Workload) && K.IsRunning(view.node, name) && IsReportedRunning(live, name))
    && (forall name :: K.IsRunning(view.node, name) ==>
          K.AssignedAt(live, name, view.nodeName) || K.InStaticBox(view.node, name))
  }

  ghost predicate EveryPodIsBound(live: Objects)
  {
    forall key :: key in live && live[key].value.PodObject? ==> live[key].value.pod.spec.nodeName != ""
  }

  lemma EveryPodStaysBound(before: Objects, after: Objects)
    requires GoOn(before, after) && EveryPodIsBound(before)
    ensures EveryPodIsBound(after)
  {
    forall key | key in after && after[key].value.PodObject? ensures after[key].value.pod.spec.nodeName != "" {
      assert GoesOnAt(before, after, key);
    }
  }

  lemma AssignedStays(before: Objects, after: Objects, name: string, nodeName: string)
    requires GoOn(before, after) && EveryPodIsBound(before)
    ensures K.AssignedAt(after, name, nodeName) <==> K.AssignedAt(before, name, nodeName)
  {
    var key := Key(PodKind, name);
    if key in before {
      assert GoesOnAt(before, after, key);
    }
  }

  lemma NodesStayRight(before: Objects, after: Objects, view: View)
    requires GoOn(before, after) && EveryPodIsBound(before) && NodeIsRight(before, view)
    ensures NodeIsRight(after, view)
  {
    hide GoOn, EveryPodIsBound, T.Runs, K.IsRunning, K.AssignedAt, IsReportedRunning, K.InStaticBox;
    forall name ensures K.AssignedAt(after, name, view.nodeName) <==> K.AssignedAt(before, name, view.nodeName) {
      AssignedStays(before, after, name, view.nodeName);
    }
    forall name | IsReportedRunning(before, name) ensures IsReportedRunning(after, name) {
      RunningStays(before, after, name);
    }
  }

  lemma PassMakesTheNodeRight(log: seq<Write<Object>>, pass: KubeletPass)
    requires Sound(log) && PodsAreValid(Live(log)) && EveryPodIsBound(Live(log)) && HasReconciled(Live(log), pass)
    ensures var out := SendAll(log, [], pass.sent);
      && out.ok && Sound(out.log) && GoOn(Live(log), Live(out.log)) && PodsAreValid(Live(out.log))
      && EveryPodIsBound(Live(out.log))
      && NodeIsRight(Live(out.log), View(pass.nodeName, pass.after))
  {
    hide Sound, Live, SendAll, GoOn, PodsAreValid, EveryPodIsBound, T.Runs, K.IsRunning, K.InStaticBox, AreReports,
      IsReportedRunning, ReportedNames, K.AssignedPods, NodeIsRight, K.NeedsReport, K.IsExact;
    var live := Live(log);
    var desired := K.AssignedPods(ListPods(live), pass.nodeName);
    K.ReportsAreOfStoredPods(live, pass.nodeName, pass.sent);
    ReportsSucceed(log, desired, pass.sent);
    var after := Live(SendAll(log, [], pass.sent).log);
    EveryPodStaysBound(live, after);
    forall name | K.AssignedAt(live, name, pass.nodeName) ensures name in desired && IsReportedRunning(after, name) {
      K.FreshlyAssigned(live, pass.nodeName, name);
      AssignedPodsEndUpRunning(live, after, pass, name);
    }
    AssignedAreDesired(live, pass.nodeName);
    ExactMeansRight(live, after, pass);
  }

  lemma AssignedAreDesired(live: Objects, nodeName: string)
    requires WellTyped(live)
    ensures forall name :: name in K.AssignedPods(ListPods(live), nodeName) <==> K.AssignedAt(live, name, nodeName)
  {
    hide K.AssignedPods, K.AssignedAt;
    forall name ensures name in K.AssignedPods(ListPods(live), nodeName) <==> K.AssignedAt(live, name, nodeName) {
      K.FreshlyAssigned(live, nodeName, name);
    }
  }

  // Reported now, or known to run before.
  lemma AssignedPodsEndUpRunning(live: Objects, after: Objects, pass: KubeletPass, name: string)
    requires HasReconciled(live, pass) && GoOn(live, after) && name in K.AssignedPods(ListPods(live), pass.nodeName)
    requires forall reported :: reported in ReportedNames(pass.sent) ==> IsReportedRunning(after, reported)
    ensures IsReportedRunning(after, name)
  {
    hide K.AssignedPods, ReportedNames, AreReports, T.Runs, K.IsExact, GoOn;
    var desired := K.AssignedPods(ListPods(live), pass.nodeName);
    K.FreshlyAssigned(live, pass.nodeName, name);
    if !K.NeedsReport(pass.before, desired, name) {
      assert StoredPod(live, desired[name]) && desired[name].status.phase.Running?;
      RunningStays(live, after, name);
    }
  }

  lemma ExactMeansRight(live: Objects, after: Objects, pass: KubeletPass)
    requires HasReconciled(live, pass) && GoOn(live, after) && EveryPodIsBound(live)
    requires forall name :: name in K.AssignedPods(ListPods(live), pass.nodeName) <==>
      K.AssignedAt(live, name, pass.nodeName)
    requires forall name :: K.AssignedAt(live, name, pass.nodeName) ==> IsReportedRunning(after, name)
    ensures NodeIsRight(after, View(pass.nodeName, pass.after))
  {
    hide K.AssignedPods, ReportedNames, AreReports, T.Runs, GoOn, K.IsRunning, K.InStaticBox, IsReportedRunning,
      EveryPodIsBound, K.AssignedAt, K.NeedsReport;
    forall name ensures K.AssignedAt(after, name, pass.nodeName) <==> K.AssignedAt(live, name, pass.nodeName) {
      AssignedStays(live, after, name, pass.nodeName);
    }
    var desired := K.AssignedPods(ListPods(live), pass.nodeName);
    forall name
      ensures name in desired ==> K.IsRunning(pass.after, name)
      ensures K.IsRunning(pass.after, name) ==> name in desired || K.InStaticBox(pass.after, name)
    {
      assert K.IsExactFor(pass.before, pass.after, desired, name);
    }
  }

  ghost predicate NodesAreRight(live: Objects, views: seq<View>)
  {
    forall i :: 0 <= i < |views| ==> NodeIsRight(live, views[i])
  }

  // ---------- the whole pass ----------

  // The logs after the Deployment controller, the ReplicaSet controller and the scheduler,
  // each listing afresh and with no network trouble.
  ghost function Deployed(log: seq<Write<Object>>): seq<Write<Object>>
    requires WellTyped(Live(log))
  {
    SendAll(log, [], D.SyncAll(ListDeployments(Live(log)), ListReplicaSets(Live(log)))).log
  }

  ghost function ScaledLog(log: seq<Write<Object>>): seq<Write<Object>>
    requires WellTyped(Live(log))
  {
    SendAll(log, [], R.PassRequests(ListReplicaSets(Live(log)), ListPods(Live(log)))).log
  }

  ghost function BoundLog(log: seq<Write<Object>>, cursor: nat): seq<Write<Object>>
    requires WellTyped(Live(log))
  {
    S.BindAll(log, [], ListNodes(Live(log)), ListPods(Live(log)), cursor).outcome.log
  }

  ghost predicate DeploymentsAreAlone(live: Objects)
    requires WellTyped(live)
  {
    forall d :: d in ListDeployments(live) ==> D.OursAlone(live, d)
  }

  // What the pass of the Deployment controller makes of the objects.
  ghost predicate Deploys(before: Objects, after: Objects)
    requires WellTyped(before)
  {
    (forall d :: d in ListDeployments(before) ==> D.SyncedTo(before, after, d)) &&
      OnlyFor(before, after, ListDeployments(before))
  }

  predicate SameAt(before: Objects, after: Objects, key: Key)
  {
    (key in after <==> key in before) && (key in before ==> after[key] == before[key])
  }

  // Nothing changes but the ReplicaSets with the generated names of these Deployments.
  ghost predicate OnlyFor(before: Objects, after: Objects, deployments: seq<Deployment>)
  {
    forall key :: (forall d :: d in deployments ==> key != D.KeyFor(d)) ==> SameAt(before, after, key)
  }

  // The ReplicaSet the Deployment will have: its own if it agrees, else a new one.
  function GoalFor(live: Objects, d: Deployment): ReplicaSet
  {
    if D.Synced(live, d) then Read(live, D.KeyFor(d)).replicaSet else D.NewReplicaSet(d)
  }

  ghost predicate IsGenerated(live: Objects, name: string)
    requires WellTyped(live)
  {
    exists d :: d in ListDeployments(live) && D.NameFor(d) == name
  }

  ghost predicate FitsIn(live: Objects, rs: ReplicaSet) { TemplateFits(rs) && NamesAreOurs(live, rs) }

  // Every ReplicaSet there is or will be matches its own template, and no Pod it does not
  // manage holds one of its generated names.
  ghost predicate ReadyToScale(live: Objects)
    requires WellTyped(live)
  {
    && (forall rs :: StoredReplicaSet(live, rs) && !IsGenerated(live, rs.meta.name) ==> FitsIn(live, rs))
    && (forall d :: d in ListDeployments(live) ==> FitsIn(live, GoalFor(live, d)))
  }

  // Every Deployment's ReplicaSet agrees with it.
  ghost predicate DeploymentsAreSynced(live: Objects)
    requires WellTyped(live)
  {
    forall d :: d in ListDeployments(live) ==> D.Synced(live, d) && D.OursAlone(live, d)
  }

  // Every ReplicaSet has the Pods it asks for, and its status says so.
  ghost predicate ReplicaSetsAreScaled(live: Objects)
  {
    forall rs :: StoredReplicaSet(live, rs) ==> Count(live, rs) == Desired(rs) && rs.statusReplicas == Desired(rs)
  }

  lemma DeployedIsSynced(log: seq<Write<Object>>)
    requires Sound(log) && WellTyped(Live(log)) && DeploymentsAreAlone(Live(log))
    ensures var end := Deployed(log);
      && SendAll(log, [], D.SyncAll(ListDeployments(Live(log)), ListReplicaSets(Live(log)))).ok
      && Sound(end) && WellTyped(Live(end)) && DeploymentsAreSynced(Live(end)) && Deploys(Live(log), Live(end))
      && (forall key: Key :: !key.kind.ReplicaSetKind? ==>
            (key in Live(end) <==> key in Live(log)) && (key in Live(log) ==> Live(end)[key] == Live(log)[key]))
  {
    hide Sound, Live, SendAll, D.OursAlone, D.Synced, D.SyncAll, D.FoundRight, D.SyncedTo, D.ListedRight,
      D.DistinctDeployments,
      DeploymentsAreAlone, DeploymentsAreSynced, Deploys, OnlyFor;
    var live := Live(log);
    var deployments, sets := ListDeployments(live), ListReplicaSets(live);
    DeploymentsAreListedRight(live);
    D.PassSyncsEveryDeployment(log, deployments, sets);
    var end := Deployed(log);
    SoundIsWellTyped(end);
    ByMember(live, Live(end), deployments);
    ListedAreDeployed(live, Live(end));
  }

  lemma DeploymentsAreListedRight(live: Objects)
    requires WellTyped(live) && DeploymentsAreAlone(live)
    ensures D.DistinctDeployments(ListDeployments(live))
    ensures D.ListedRight(live, ListDeployments(live), ListReplicaSets(live))
  {
    hide D.OursAlone, D.FoundRight;
    var deployments, sets := ListDeployments(live), ListReplicaSets(live);
    forall i, j | 0 <= i < j < |deployments| ensures deployments[i].meta.name != deployments[j].meta.name {
      LessIsAsymmetric(deployments[i].meta.name, deployments[j].meta.name);
    }
    forall i | 0 <= i < |deployments|
      ensures D.OursAlone(live, deployments[i]) && D.FoundRight(live, deployments[i], sets)
    {
      assert deployments[i] in deployments;
      FoundInAFreshList(live, deployments[i]);
    }
  }

  lemma ListedAreDeployed(before: Objects, after: Objects)
    requires WellTyped(before) && WellTyped(after)
    requires var deployments := ListDeployments(before);
      && (forall d :: d in deployments ==> D.Synced(after, d) && D.OursAlone(after, d))
      && (forall d :: d in deployments ==> D.SyncedTo(before, after, d)) && OnlyFor(before, after, deployments)
    ensures DeploymentsAreSynced(after) && Deploys(before, after)
    ensures forall key: Key :: !key.kind.ReplicaSetKind? ==>
      (key in after <==> key in before) && (key in before ==> after[key] == before[key])
  {
    hide D.OursAlone, D.Synced, D.SyncedTo, OnlyFor;
    var deployments := ListDeployments(before);
    OtherKindsAreNotGenerated(before, after, deployments);
    SameDeployments(before, after);
  }

  lemma ByMember(before: Objects, after: Objects, deployments: seq<Deployment>)
    requires forall i :: 0 <= i < |deployments| ==>
      D.Synced(after, deployments[i]) && D.OursAlone(after, deployments[i])
    requires forall i :: 0 <= i < |deployments| ==> D.SyncedTo(before, after, deployments[i])
    requires forall key :: (forall i :: 0 <= i < |deployments| ==> key != D.KeyFor(deployments[i])) ==>
      (key in after <==> key in before) && (key in before ==> after[key] == before[key])
    ensures forall d :: d in deployments ==> D.Synced(after, d) && D.OursAlone(after, d)
    ensures forall d :: d in deployments ==> D.SyncedTo(before, after, d)
    ensures OnlyFor(before, after, deployments)
  {
    hide D.OursAlone, D.Synced, D.SyncedTo, D.KeyFor;
    forall key | forall d :: d in deployments ==> key != D.KeyFor(d) ensures SameAt(before, after, key) {
      forall i | 0 <= i < |deployments| ensures key != D.KeyFor(deployments[i]) {
        assert deployments[i] in deployments;
      }
    }
  }

  lemma OtherKindsAreNotGenerated(before: Objects, after: Objects, deployments: seq<Deployment>)
    requires OnlyFor(before, after, deployments)
    ensures forall key: Key :: !key.kind.ReplicaSetKind? ==>
      (key in after <==> key in before) && (key in before ==> after[key] == before[key])
  {
    forall key: Key | !key.kind.ReplicaSetKind? ensures SameAt(before, after, key) {
      assert forall d :: d in deployments ==> key != D.KeyFor(d);
    }
  }

  lemma SamePodsSameFit(before: Objects, after: Objects, rs: ReplicaSet)
    requires forall key: Key :: !key.kind.ReplicaSetKind? ==>
      (key in after <==> key in before) && (key in before ==> after[key] == before[key])
    ensures FitsIn(before, rs) ==> FitsIn(after, rs)
  {
    if FitsIn(before, rs) {
      forall index: nat | Key(PodKind, PodName(rs.meta.name, index)) in after
        ensures ManagedKey(after, rs, Key(PodKind, PodName(rs.meta.name, index)))
      {
        assert !Key(PodKind, PodName(rs.meta.name, index)).kind.ReplicaSetKind?;
      }
    }
  }

  lemma SameScaleSameFit(live: Objects, a: ReplicaSet, b: ReplicaSet)
    requires SameScale(a, b)
    ensures FitsIn(live, a) <==> FitsIn(live, b)
  {
    SameScaleSameCount(live, a, b);
  }

  lemma SyncedHasTheGoalsScale(before: Objects, after: Objects, d: Deployment, rs: ReplicaSet)
    requires D.SyncedTo(before, after, d) && StoredReplicaSet(after, rs) && rs.meta.name == D.NameFor(d)
    ensures SameScale(rs, GoalFor(before, d))
  {
  }

  // Once the Deployments are synced, every stored ReplicaSet can be scaled.
  lemma DeployedCanScale(before: Objects, after: Objects)
    requires WellTyped(before) && WellTyped(after) && ReadyToScale(before) && Deploys(before, after)
    requires forall key: Key :: !key.kind.ReplicaSetKind? ==>
      (key in after <==> key in before) && (key in before ==> after[key] == before[key])
    ensures AllCanScale(after, ListReplicaSets(after))
  {
    hide D.SyncedTo, SameScale, TemplateFits, NamesAreOurs, GoalFor, StoredReplicaSet;
    var sets := ListReplicaSets(after);
    forall i | 0 <= i < |sets| ensures CanScale(after, sets[i]) {
      var rs := sets[i];
      assert rs in sets && StoredReplicaSet(after, rs);
      if IsGenerated(before, rs.meta.name) {
        var d :| d in ListDeployments(before) && D.NameFor(d) == rs.meta.name;
        SyncedHasTheGoalsScale(before, after, d, rs);
        SameScaleSameFit(before, rs, GoalFor(before, d));
      } else {
        NotGeneratedIsKept(before, after, rs);
      }
      SamePodsSameFit(before, after, rs);
    }
  }

  lemma NotGeneratedIsKept(before: Objects, after: Objects, rs: ReplicaSet)
    requires WellTyped(before) && Deploys(before, after) && StoredReplicaSet(after, rs)
    requires !IsGenerated(before, rs.meta.name)
    ensures StoredReplicaSet(before, rs)
  {
    var key := Key(ReplicaSetKind, rs.meta.name);
    forall d | d in ListDeployments(before) ensures key != D.KeyFor(d) {
      assert D.NameFor(d) != rs.meta.name;
    }
    assert SameAt(before, after, key);
  }

  lemma FoundInAFreshList(live: Objects, d: Deployment)
    requires WellTyped(live) && D.OursAlone(live, d)
    ensures D.FoundRight(live, d, ListReplicaSets(live))
  {
    D.FoundByName(live, d);
  }

  lemma SameDeployments(before: Objects, after: Objects)
    requires WellTyped(before) && WellTyped(after)
    requires forall key: Key :: key.kind.DeploymentKind? ==>
      (key in after <==> key in before) && (key in before ==> after[key] == before[key])
    ensures forall d :: d in ListDeployments(after) <==> d in ListDeployments(before)
  {
    forall d ensures d in ListDeployments(after) <==> d in ListDeployments(before) {
      var key := Key(DeploymentKind, d.meta.name);
      assert key.kind.DeploymentKind?;
    }
  }

  // ---------- after the ReplicaSet controller ----------

  lemma ListedSetsAreDistinct(live: Objects)
    requires WellTyped(live)
    ensures R.DistinctNames(ListReplicaSets(live))
  {
    var sets := ListReplicaSets(live);
    forall i, j | 0 <= i < j < |sets| ensures sets[i].meta.name != sets[j].meta.name {
      LessIsAsymmetric(sets[i].meta.name, sets[j].meta.name);
    }
  }

  lemma StoredIsListed(live: Objects, name: string)
    requires WellTyped(live) && IsReplicaSet(live, name)
    ensures name in SetNames(ListReplicaSets(live))
  {
    var key, sets := Key(ReplicaSetKind, name), ListReplicaSets(live);
    assert KeyOf(live[key].value) == key;
    var rs := Read(live, key).replicaSet;
    assert StoredReplicaSet(live, rs) && rs in sets;
    var i :| 0 <= i < |sets| && sets[i] == rs;
    assert sets[i].meta.name == name;
  }

  lemma UntouchedWasStored(before: Objects, after: Objects, names: set<string>, name: string)
    requires KeepsAllBut(before, after, names) && name !in names && IsReplicaSet(after, name)
    ensures IsReplicaSet(before, name)
  {
    var key := Key(ReplicaSetKind, name);
    assert !key.kind.PodKind? && !(key.kind.ReplicaSetKind? && key.name in names);
  }

  // Every ReplicaSet of the later store continues one of the earlier.
  lemma ReplicaSetContinues(before: Objects, after: Objects, rs: ReplicaSet)
    requires WellTyped(before) && KeepsAllBut(before, after, SetNames(ListReplicaSets(before)))
    requires AllScaled(after, ListReplicaSets(before))
    requires StoredReplicaSet(after, rs)
    ensures exists earlier ::
      StoredReplicaSet(before, earlier) && Scaled(after, earlier) && SameScale(rs, earlier) &&
        rs.meta.name == earlier.meta.name
  {
    hide Scaled, KeepsAllBut;
    var sets := ListReplicaSets(before);
    if rs.meta.name !in SetNames(sets) {
      UntouchedWasStored(before, after, SetNames(sets), rs.meta.name);
      StoredIsListed(before, rs.meta.name);
      assert false;
    }
    var i :| 0 <= i < |sets| && sets[i].meta.name == rs.meta.name;
    assert sets[i] in sets && Scaled(after, sets[i]);
    ScaledSameScale(after, rs, sets[i]);
  }

  lemma ScaledSameScale(live: Objects, rs: ReplicaSet, earlier: ReplicaSet)
    requires StoredReplicaSet(live, rs) && Scaled(live, earlier) && rs.meta.name == earlier.meta.name
    ensures SameScale(rs, earlier) && rs.meta.ownerReferences == earlier.meta.ownerReferences
    ensures Count(live, rs) == Desired(rs) && rs.statusReplicas == Desired(rs)
  {
    SameScaleSameCount(live, rs, earlier);
  }

  lemma ScaledAtTheEnd(before: Objects, after: Objects)
    requires WellTyped(before) && KeepsAllBut(before, after, SetNames(ListReplicaSets(before)))
    requires AllScaled(after, ListReplicaSets(before))
    ensures ReplicaSetsAreScaled(after)
  {
    hide KeepsAllBut, AllScaled, StoredReplicaSet, Scaled, SameScale, Count;
    forall rs | StoredReplicaSet(after, rs)
      ensures Count(after, rs) == Desired(rs) && rs.statusReplicas == Desired(rs)
    {
      ReplicaSetContinues(before, after, rs);
      var earlier :| StoredReplicaSet(before, earlier) && Scaled(after, earlier) && SameScale(rs, earlier) &&
        rs.meta.name == earlier.meta.name;
      ScaledSameScale(after, rs, earlier);
    }
  }

  lemma SyncedStaysSynced(before: Objects, after: Objects, d: Deployment)
    requires WellTyped(before) && WellTyped(after)
    requires KeepsAllBut(before, after, SetNames(ListReplicaSets(before))) && AllScaled(after, ListReplicaSets(before))
    requires D.Synced(before, d) && D.OursAlone(before, d)
    ensures D.Synced(after, d) && D.OursAlone(after, d)
  {
    hide KeepsAllBut, AllScaled, Scaled, Count;
    var key := D.KeyFor(d);
    var sets := ListReplicaSets(before);
    assert KeyOf(before[key].value) == key;
    var earlier := Read(before, key).replicaSet;
    assert StoredReplicaSet(before, earlier) && earlier in sets;
    ListedIsScaled(before, after, earlier);
    D.OwnersForAreOwners(d);
    forall rs | StoredReplicaSet(after, rs) && D.IsOwnedBy(rs, d) ensures rs.meta.name == D.NameFor(d) {
      ReplicaSetContinues(before, after, rs);
      var was :| StoredReplicaSet(before, was) && Scaled(after, was) && SameScale(rs, was) &&
        rs.meta.name == was.meta.name;
      ScaledSameScale(after, rs, was);
      assert D.IsOwnedBy(was, d);
    }
  }

  lemma ListedIsScaled(before: Objects, after: Objects, rs: ReplicaSet)
    requires WellTyped(before) && AllScaled(after, ListReplicaSets(before)) && StoredReplicaSet(before, rs)
    ensures IsReplicaSet(after, rs.meta.name)
    ensures var stored := after[Key(ReplicaSetKind, rs.meta.name)].value.replicaSet;
      stored.spec == rs.spec && stored.meta.ownerReferences == rs.meta.ownerReferences
  {
    var sets := ListReplicaSets(before);
    assert rs in sets;
    var i :| 0 <= i < |sets| && sets[i] == rs;
    assert Scaled(after, sets[i]);
  }

  lemma ScalingPassReachesTheGoal(log: seq<Write<Object>>)
    requires Sound(log) && WellTyped(Live(log)) && R.SingleOwners(Live(log)) && PodsAreValid(Live(log))
    requires AllCanScale(Live(log), ListReplicaSets(Live(log))) && DeploymentsAreSynced(Live(log))
    ensures var end := ScaledLog(log);
      && SendAll(log, [], R.PassRequests(ListReplicaSets(Live(log)), ListPods(Live(log)))).ok
      && Sound(end) && WellTyped(Live(end)) && PodsAreValid(Live(end))
      && R.StoresTheTemplates(Live(log), Live(end), ListReplicaSets(Live(log)))
      && AllScaled(Live(end), ListReplicaSets(Live(log)))
      && ReplicaSetsAreScaled(Live(end)) && DeploymentsAreSynced(Live(end))
      && (forall key: Key :: key.kind.NodeKind? ==>
            (key in Live(end) <==> key in Live(log)) && (key in Live(log) ==> Live(end)[key] == Live(log)[key]))
  {
    hide Sound, Live, SendAll, R.SingleOwners, CanScale, R.PassRequests, AllScaled, D.Synced, D.OursAlone,
      ReplicaSetsAreScaled, PodsAreValid, R.StoresTheTemplates;
    var live, sets := Live(log), ListReplicaSets(Live(log));
    ListedSetsAreDistinct(live);
    PassScalesAll(log, sets);
    SendAllKeepsPodsValid(log, [], R.PassRequests(sets, ListPods(live)));
    var end := ScaledLog(log);
    SoundIsWellTyped(end);
    ScaledAtTheEnd(live, Live(end));
    OtherKindsAreKept(live, Live(end), SetNames(sets));
    SameDeployments(live, Live(end));
    forall d | d in ListDeployments(Live(end)) ensures D.Synced(Live(end), d) && D.OursAlone(Live(end), d) {
      SyncedStaysSynced(live, Live(end), d);
    }
  }

  lemma OtherKindsAreKept(before: Objects, after: Objects, names: set<string>)
    requires KeepsAllBut(before, after, names)
    ensures forall key: Key :: key.kind.NodeKind? || key.kind.DeploymentKind? ==>
      (key in after <==> key in before) && (key in before ==> after[key] == before[key])
  {
  }

  // ---------- what going on keeps ----------

  lemma GoalsGoOn(before: Objects, after: Objects)
    requires WellTyped(before) && WellTyped(after) && GoOn(before, after)
    ensures ReplicaSetsAreScaled(before) ==> ReplicaSetsAreScaled(after)
    ensures DeploymentsAreSynced(before) ==> DeploymentsAreSynced(after)
  {
    hide GoOn, StoredReplicaSet, Count, D.Synced, D.OursAlone;
    forall rs ensures StoredReplicaSet(before, rs) <==> StoredReplicaSet(after, rs) {
      GoingOnKeepsReplicaSets(before, after, rs);
    }
    forall rs ensures Count(after, rs) == Count(before, rs) {
      CountGoesOn(before, after, rs);
    }
    OnlyPodsGoOn(before, after);
    SameDeployments(before, after);
    forall d
      ensures (D.Synced(before, d) ==> D.Synced(after, d)) && (D.OursAlone(before, d) ==> D.OursAlone(after, d))
    {
      SyncedGoesOn(before, after, d);
    }
  }

  lemma CountGoesOn(before: Objects, after: Objects, rs: ReplicaSet)
    requires WellTyped(before) && WellTyped(after) && GoOn(before, after)
    ensures Count(after, rs) == Count(before, rs)
  {
    GoingOnKeepsScaled(before, after, rs);
  }

  lemma OnlyPodsGoOn(before: Objects, after: Objects)
    requires WellTyped(before) && GoOn(before, after)
    ensures forall key: Key :: !key.kind.PodKind? ==>
      (key in after <==> key in before) && (key in before ==> after[key] == before[key])
  {
    forall key: Key | !key.kind.PodKind? && key in before ensures after[key] == before[key] {
      assert GoesOnAt(before, after, key) && KeyOf(before[key].value) == key;
    }
  }

  lemma SyncedGoesOn(before: Objects, after: Objects, d: Deployment)
    requires WellTyped(before) && WellTyped(after)
    requires forall key: Key :: !key.kind.PodKind? ==>
      (key in after <==> key in before) && (key in before ==> after[key] == before[key])
    ensures D.Synced(before, d) ==> D.Synced(after, d)
    ensures D.OursAlone(before, d) ==> D.OursAlone(after, d)
  {
    var key := D.KeyFor(d);
    assert !key.kind.PodKind?;
    forall rs | StoredReplicaSet(after, rs) ensures StoredReplicaSet(before, rs) {
      assert !Key(ReplicaSetKind, rs.meta.name).kind.PodKind?;
    }
  }

  lemma BoundEverywhere(live: Objects, pods: seq<Pod>, after: Objects)
    requires WellTyped(live) && pods == ListPods(live) && GoOn(live, after) && AllBound(after, pods)
    ensures EveryPodIsBound(after)
  {
    forall key | key in after && after[key].value.PodObject? ensures after[key].value.pod.spec.nodeName != "" {
      assert GoesOnAt(live, after, key);
      assert KeyOf(live[key].value) == key;
      var pod := Read(live, key).pod;
      assert StoredPod(live, pod) && pod in pods;
      var i :| 0 <= i < |pods| && pods[i] == pod;
      assert IsBound(after, pods[i].meta.name);
    }
  }

  // ---------- convergence ----------

  predicate SomeReadyNode(live: Objects)
  {
    exists key :: key in live && key.kind.NodeKind? && live[key].value.NodeObject? && S.IsReady(live[key].value.node)
  }

  lemma ReadyNodeIsListed(log: seq<Write<Object>>)
    requires Sound(log) && WellTyped(Live(log)) && SomeReadyNode(Live(log))
    ensures S.SomeReady(ListNodes(Live(log))) && NodesAreNamed(ListNodes(Live(log)))
  {
    var live := Live(log);
    var nodes := ListNodes(live);
    var key :| key in live && key.kind.NodeKind? && live[key].value.NodeObject? && S.IsReady(live[key].value.node);
    assert KeyOf(live[key].value) == key;
    var node := Read(live, key).node;
    assert node in nodes;
    var i :| 0 <= i < |nodes| && nodes[i] == node;
    assert S.IsReady(nodes[i]);
    forall j | 0 <= j < |nodes| ensures nodes[j].meta.name != "" {
      assert nodes[j] in nodes;
      LiveKeysAreNamed(log, Key(NodeKind, nodes[j].meta.name));
    }
  }

  // What the controllers and the scheduler are for.
  ghost predicate IsScheduled(log: seq<Write<Object>>)
  {
    && Sound(log) && WellTyped(Live(log)) && PodsAreValid(Live(log)) && SomeReadyNode(Live(log))
    && DeploymentsAreSynced(Live(log)) && ReplicaSetsAreScaled(Live(log)) && EveryPodIsBound(Live(log))
  }

  // The desired state, and the nodes that have reached it.
  ghost predicate Converged(log: seq<Write<Object>>, views: seq<View>)
  {
    IsScheduled(log) && NodesAreRight(Live(log), views)
  }

  lemma SchedulerPassBindsAll(log: seq<Write<Object>>, cursor: nat)
    requires Sound(log) && WellTyped(Live(log)) && PodsAreValid(Live(log)) && SomeReadyNode(Live(log))
    ensures var out := S.BindAll(log, [], ListNodes(Live(log)), ListPods(Live(log)), cursor).outcome;
      out.ok && out.faults == []
    ensures S.OnlyBinds(Live(log), Live(BoundLog(log, cursor)), ListNodes(Live(log)), ListPods(Live(log)))
    ensures var end := BoundLog(log, cursor);
      && Sound(end) && WellTyped(Live(end)) && PodsAreValid(Live(end)) && GoOn(Live(log), Live(end))
      && EveryPodIsBound(Live(end))
      && (EveryPodIsBound(Live(log)) ==> end == log)
  {
    hide S.OnlyBinds;
    hide Sound, Live, S.BindAll, GoOn, PodsAreValid, AllBound, EveryPodIsBound, StoredPod;
    ReadyNodeIsListed(log);
    var pods := ListPods(Live(log));
    assert forall i :: 0 <= i < |pods| ==> pods[i] in pods;
    BindsAll(log, ListNodes(Live(log)), pods, cursor);
    var end := BoundLog(log, cursor);
    SoundIsWellTyped(end);
    GoingOnKeepsPodsValid(Live(log), Live(end));
    BoundEverywhere(Live(log), pods, Live(end));
    if EveryPodIsBound(Live(log)) {
      forall i | 0 <= i < |pods| ensures pods[i].spec.nodeName != "" {
        BoundPodsAreListedBound(Live(log), pods[i]);
      }
    }
  }

  lemma BoundPodsAreListedBound(live: Objects, pod: Pod)
    requires EveryPodIsBound(live) && StoredPod(live, pod)
    ensures pod.spec.nodeName != ""
  {
  }

  lemma ReadyNodeStays(before: Objects, after: Objects)
    requires forall key: Key :: key.kind.NodeKind? ==>
      (key in after <==> key in before) && (key in before ==> after[key] == before[key])
    requires SomeReadyNode(before)
    ensures SomeReadyNode(after)
  {
    var key :| key in before && key.kind.NodeKind? && before[key].value.NodeObject? &&
      S.IsReady(before[key].value.node);
    assert key in after;
  }

  // The Deployment controller, the ReplicaSet controller and the scheduler, one after another.
  ghost function ControlPlanePass(log: seq<Write<Object>>, cursor: nat): seq<Write<Object>>
  {
    if !WellTyped(Live(log)) then log
    else
      var synced := Deployed(log);
      if !WellTyped(Live(synced)) then synced
      else
        var scaled := ScaledLog(synced);
        if !WellTyped(Live(scaled)) then scaled else BoundLog(scaled, cursor)
  }

  // ---------- the nodes that Pods are given ----------

  // Every Pod has the node that it had before, or the name of a Ready node, or, where a
  // ReplicaSet has made it, the node that the template asks for.
  ghost predicate NodesAreGiven(before: Objects, after: Objects)
  {
    forall key :: key in after && after[key].value.PodObject? ==>
      NodeIsGiven(before, after, key, after[key].value.pod.spec.nodeName)
  }

  ghost predicate NodeIsGiven(before: Objects, after: Objects, key: Key, nodeName: string)
  {
    || (key in before && before[key].value.PodObject? && before[key].value.pod.spec.nodeName == nodeName)
    || IsReadyNode(after, nodeName) || IsTemplateNode(after, nodeName)
  }

  predicate IsReadyNode(live: Objects, name: string)
  {
    var key := Key(NodeKind, name);
    key in live && live[key].value.NodeObject? && live[key].value.node.phase == NodeReady
  }

  ghost predicate IsTemplateNode(live: Objects, nodeName: string)
  {
    exists key :: key in live && live[key].value.ReplicaSetObject? &&
      live[key].value.replicaSet.spec.template.spec.nodeName == nodeName
  }

  lemma ScalingGivesTemplateNodes(before: Objects, after: Objects, sets: seq<ReplicaSet>)
    requires R.StoresTheTemplates(before, after, sets) && AllScaled(after, sets)
    ensures NodesAreGiven(before, after)
  {
    hide Scaled, IsMadeFrom;
    forall key | key in after && after[key].value.PodObject?
      ensures NodeIsGiven(before, after, key, after[key].value.pod.spec.nodeName)
    {
      if !SameEntry(before, after, key) {
        var rs :| rs in sets && IsStoredByScaling(rs, after[key].value);
        var i :| 0 <= i < |sets| && sets[i] == rs;
        assert Scaled(after, sets[i]);
        ScaledKeepsTheTemplate(after, rs);
        MadeFromTheTemplate(rs, after[key].value.pod);
      }
    }
  }

  lemma ScaledKeepsTheTemplate(live: Objects, rs: ReplicaSet)
    requires Scaled(live, rs)
    ensures var key := Key(ReplicaSetKind, rs.meta.name);
      key in live && live[key].value.ReplicaSetObject? && live[key].value.replicaSet.spec.template == rs.spec.template
  {
  }

  lemma MadeFromTheTemplate(rs: ReplicaSet, pod: Pod)
    requires IsMadeFrom(rs, pod)
    ensures pod.spec.nodeName == rs.spec.template.spec.nodeName
  {
  }

  lemma BindingGivesReadyNodes(before: Objects, after: Objects, nodes: seq<Node>, pods: seq<Pod>)
    requires WellTyped(before) && nodes == ListNodes(before) && S.OnlyBinds(before, after, nodes, pods)
    requires forall key: Key :: !key.kind.PodKind? ==> SameEntry(before, after, key)
    ensures NodesAreGiven(before, after)
  {
    forall key | key in after && after[key].value.PodObject?
      ensures NodeIsGiven(before, after, key, after[key].value.pod.spec.nodeName)
    {
      assert SameEntry(before, after, key) || S.IsBoundAt(after, nodes, pods, key);
      if !SameEntry(before, after, key) {
        var pod, node :| pod in pods && pod.spec.nodeName == "" && key == Key(PodKind, pod.meta.name) &&
          node in nodes && node.phase == NodeReady && S.IsStoredOn(after, pod, node.meta.name);
        ReadsKeepAllButTheVersion(before, Key(NodeKind, node.meta.name));
        assert SameEntry(before, after, Key(NodeKind, node.meta.name));
      }
    }
  }

  // What is given stays given, as long as nodes and templates stay.
  lemma GivenOnAndOn(a: Objects, b: Objects, c: Objects)
    requires NodesAreGiven(a, b) && NodesAreGiven(b, c)
    requires forall name :: IsReadyNode(b, name) ==> IsReadyNode(c, name)
    requires forall name :: IsTemplateNode(b, name) ==> IsTemplateNode(c, name)
    ensures NodesAreGiven(a, c)
  {
    hide IsReadyNode, IsTemplateNode;
    forall key | key in c && c[key].value.PodObject?
      ensures NodeIsGiven(a, c, key, c[key].value.pod.spec.nodeName)
    {
      if key in b && b[key].value.PodObject? {
        assert NodeIsGiven(a, b, key, b[key].value.pod.spec.nodeName);
      }
      assert NodeIsGiven(b, c, key, c[key].value.pod.spec.nodeName);
    }
  }

  lemma SameNodesAndTemplates(before: Objects, after: Objects)
    requires forall key: Key :: !key.kind.PodKind? ==> SameEntry(before, after, key)
    requires WellTyped(before)
    ensures forall name :: IsReadyNode(before, name) ==> IsReadyNode(after, name)
    ensures forall name :: IsTemplateNode(before, name) ==> IsTemplateNode(after, name)
  {
    forall name | IsReadyNode(before, name) ensures IsReadyNode(after, name) {
      assert !Key(NodeKind, name).kind.PodKind?;
    }
    forall name | IsTemplateNode(before, name) ensures IsTemplateNode(after, name) {
      var key :| key in before && before[key].value.ReplicaSetObject? &&
        before[key].value.replicaSet.spec.template.spec.nodeName == name;
      assert KeyOf(before[key].value) == key && !key.kind.PodKind?;
    }
  }

  lemma ReportsKeepNodes(before: Objects, after: Objects)
    requires GoOn(before, after) && EveryPodIsBound(before)
    ensures NodesAreGiven(before, after)
  {
    forall key | key in after && after[key].value.PodObject?
      ensures NodeIsGiven(before, after, key, after[key].value.pod.spec.nodeName)
    {
      assert GoesOnAt(before, after, key);
    }
  }

  lemma OnlyPodEntriesGoOn(before: Objects, after: Objects)
    requires WellTyped(before) && GoOn(before, after)
    ensures forall key: Key :: !key.kind.PodKind? ==> SameEntry(before, after, key)
  {
    OnlyPodsGoOn(before, after);
    forall key: Key | !key.kind.PodKind? ensures SameEntry(before, after, key) {
    }
  }

  // A Ready node, selectors that match their templates, generated names that are free or the
  // ReplicaSet's own, Pods with one owner at most and Deployments that are the only owners of
  // their ReplicaSets.
  ghost predicate CanBeScheduled(log: seq<Write<Object>>)
  {
    && Sound(log) && WellTyped(Live(log)) && PodsAreValid(Live(log)) && SomeReadyNode(Live(log))
    && R.SingleOwners(Live(log)) && DeploymentsAreAlone(Live(log)) && ReadyToScale(Live(log))
  }

  // Then one pass of the Deployment controller, the ReplicaSet controller and the scheduler
  // leaves every Deployment with its ReplicaSet, every ReplicaSet with exactly
  // max(0, replicas) Pods, and every Pod bound.
  lemma ControlPlanePassSchedules(log: seq<Write<Object>>, cursor: nat)
    requires CanBeScheduled(log)
    ensures AllAccepted(log, cursor) && IsScheduled(ControlPlanePass(log, cursor))
    ensures NodesAreGiven(Live(log), Live(ControlPlanePass(log, cursor)))
  {
    hide NodesAreGiven, IsReadyNode, IsTemplateNode, R.StoresTheTemplates, S.OnlyBinds, AllScaled, SameEntry;
    hide Sound, Live, GoOn, PodsAreValid, EveryPodIsBound, R.SingleOwners, AllCanScale, DeploymentsAreSynced,
      ReplicaSetsAreScaled,
      Deployed, ScaledLog, BoundLog, DeploymentsAreAlone, SomeReadyNode, Deploys, ReadyToScale;
    DeployedIsSynced(log);
    var synced := Deployed(log);
    DeployingKeepsPodsValid(log);
    ReadyNodeStays(Live(log), Live(synced));
    OwnersStaySingle(Live(log), Live(synced));
    DeployedCanScale(Live(log), Live(synced));
    ScalingPassReachesTheGoal(synced);
    var scaled := ScaledLog(synced);
    ReadyNodeStays(Live(synced), Live(scaled));
    SchedulerPassBindsAll(scaled, cursor);
    var bound := BoundLog(scaled, cursor);
    GoalsGoOn(Live(scaled), Live(bound));
    OnlyPodsGoOn(Live(scaled), Live(bound));
    ReadyNodeStays(Live(scaled), Live(bound));
    ScalingGivesTemplateNodes(Live(synced), Live(scaled), ListReplicaSets(Live(synced)));
    OnlyPodEntriesGoOn(Live(scaled), Live(bound));
    BindingGivesReadyNodes(Live(scaled), Live(bound), ListNodes(Live(scaled)), ListPods(Live(scaled)));
    SameNodesAndTemplates(Live(scaled), Live(bound));
    GivenFirst(Live(log), Live(synced), Live(scaled));
    GivenOnAndOn(Live(log), Live(scaled), Live(bound));
  }

  // The Pods of the first store are those of the second.
  lemma GivenFirst(a: Objects, b: Objects, c: Objects)
    requires WellTyped(b) && NodesAreGiven(b, c) && forall key: Key :: !key.kind.ReplicaSetKind? ==>
      (key in b <==> key in a) && (key in a ==> b[key] == a[key])
    ensures NodesAreGiven(a, c)
  {
    hide IsReadyNode, IsTemplateNode;
    forall key | key in c && c[key].value.PodObject?
      ensures NodeIsGiven(a, c, key, c[key].value.pod.spec.nodeName)
    {
      assert NodeIsGiven(b, c, key, c[key].value.pod.spec.nodeName);
      if key in b && b[key].value.PodObject? {
        assert KeyOf(b[key].value) == key && !key.kind.ReplicaSetKind?;
      }
    }
  }

  // Every request of the pass is answered Ok.
  ghost predicate AllAccepted(log: seq<Write<Object>>, cursor: nat)
  {
    && WellTyped(Live(log))
    && SendAll(log, [], D.SyncAll(ListDeployments(Live(log)), ListReplicaSets(Live(log)))).ok
    && var synced := Deployed(log);
       && WellTyped(Live(synced))
       && SendAll(synced, [], R.PassRequests(ListReplicaSets(Live(synced)), ListPods(Live(synced)))).ok
       && var scaled := ScaledLog(synced);
          && WellTyped(Live(scaled))
          && var out := S.BindAll(scaled, [], ListNodes(Live(scaled)), ListPods(Live(scaled)), cursor).outcome;
             out.ok && out.faults == []
  }

  // Reports leave it so.
  lemma ScheduledGoesOn(bound: seq<Write<Object>>, end: seq<Write<Object>>)
    requires IsScheduled(bound) && Sound(end) && GoOn(Live(bound), Live(end))
    ensures IsScheduled(end)
  {
    hide Sound, Live, GoOn, PodsAreValid, EveryPodIsBound, DeploymentsAreSynced, ReplicaSetsAreScaled, SomeReadyNode;
    SoundIsWellTyped(end);
    GoalsGoOn(Live(bound), Live(end));
    EveryPodStaysBound(Live(bound), Live(end));
    GoingOnKeepsPodsValid(Live(bound), Live(end));
    OnlyPodsGoOn(Live(bound), Live(end));
    ReadyNodeStays(Live(bound), Live(end));
  }

  lemma OwnersStaySingle(before: Objects, after: Objects)
    requires WellTyped(before) && WellTyped(after) && R.SingleOwners(before)
    requires forall key: Key :: !key.kind.ReplicaSetKind? ==>
      (key in after <==> key in before) && (key in before ==> after[key] == before[key])
    ensures R.SingleOwners(after)
  {
    forall key | key in after && after[key].value.PodObject?
      ensures R.OneOwner(after[key].value.pod.meta.ownerReferences)
    {
      assert KeyOf(after[key].value) == key;
    }
  }

  lemma DeployingKeepsPodsValid(log: seq<Write<Object>>)
    requires Sound(log) && WellTyped(Live(log)) && PodsAreValid(Live(log))
    ensures PodsAreValid(Live(Deployed(log)))
  {
    SendAllKeepsPodsValid(log, [], D.SyncAll(ListDeployments(Live(log)), ListReplicaSets(Live(log))));
  }

  // ---------- the second pass ----------

  lemma {:induction false} NothingToSync(live: Objects, deployments: seq<Deployment>)
    requires WellTyped(live) && forall d :: d in deployments ==> D.Synced(live, d) && D.OursAlone(live, d)
    ensures D.SyncAll(deployments, ListReplicaSets(live)) == []
  {
    hide D.Synced, D.OursAlone, D.SyncRequests;
    if deployments != [] {
      assert deployments == [deployments[0]] + deployments[1..];
      D.NoRequestsWhenSynced(live, deployments[0]);
      NothingToSync(live, deployments[1..]);
    }
  }

  lemma {:induction false} NothingToScale(live: Objects, sets: seq<ReplicaSet>)
    requires WellTyped(live) && ReplicaSetsAreScaled(live) && forall rs :: rs in sets ==> StoredReplicaSet(live, rs)
    ensures R.PassRequests(sets, ListPods(live)) == []
  {
    hide StoredReplicaSet, ScaleRequests, ManagedPods, Count;
    if sets != [] {
      assert sets == [sets[0]] + sets[1..];
      NothingToDo(live, sets[0]);
      NothingToScale(live, sets[1..]);
    }
  }

  lemma NothingToDo(live: Objects, rs: ReplicaSet)
    requires WellTyped(live) && Count(live, rs) == Desired(rs) && rs.statusReplicas == Desired(rs)
    ensures ScaleRequests(rs, ManagedPods(rs, ListPods(live))) == []
  {
    var managed := ManagedPods(rs, ListPods(live));
    ManagedPodsOfAFreshList(live, rs);
    SortedListsStay(managed);
  }

  lemma RightNodesAreSettled(live: Objects, view: View)
    requires WellTyped(live) && NodeIsRight(live, view)
    ensures K.IsSettled(view.node, K.AssignedPods(ListPods(live), view.nodeName))
  {
    hide K.AssignedPods, T.Runs, K.InStaticBox, K.IsRunning;
    var desired := K.AssignedPods(ListPods(live), view.nodeName);
    AssignedAreDesired(live, view.nodeName);
    forall name | name in desired ensures K.IsRunning(view.node, name) && desired[name].status.phase.Running? {
      K.FreshlyAssigned(live, view.nodeName, name);
      assert StoredPod(live, desired[name]) && IsReportedRunning(live, name);
    }
  }

  // In the converged state a second pass has nothing to write: no controller has a request,
  // the scheduler binds nothing, and every kubelet is settled, so that its reconcile sends
  // nothing and leaves its runtime alone.
  lemma SecondPassWritesNothing(log: seq<Write<Object>>, cursor: nat, views: seq<View>)
    requires Converged(log, views)
    ensures Deployed(log) == log && ScaledLog(log) == log && BoundLog(log, cursor) == log
    ensures ControlPlanePass(log, cursor) == log
    ensures AllAccepted(log, cursor)
    ensures forall i :: 0 <= i < |views| ==>
      K.IsSettled(views[i].node, K.AssignedPods(ListPods(Live(log)), views[i].nodeName))
  {
    hide Sound, Live, PodsAreValid, EveryPodIsBound, ReplicaSetsAreScaled, NodeIsRight, StoredReplicaSet, D.Synced,
      D.OursAlone, K.IsSettled,
      K.AssignedPods, BoundLog, SomeReadyNode, GoOn;
    var live := Live(log);
    NothingToSync(live, ListDeployments(live));
    NothingToScale(live, ListReplicaSets(live));
    SchedulerPassBindsAll(log, cursor);
    forall i | 0 <= i < |views| ensures K.IsSettled(views[i].node, K.AssignedPods(ListPods(live), views[i].nodeName)) {
      assert NodeIsRight(live, views[i]);
      RightNodesAreSettled(live, views[i]);
    }
  }
}
