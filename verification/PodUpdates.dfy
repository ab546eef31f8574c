// Updates of stored Pods that keep their identity: bindings and reports that they run.
module PodUpdates {
  import opened Text
  import opened Etcd
  import opened Api
  import opened ApiServer
  import opened ReplicaSets
  import opened Services

  // ---------- stored Pods are valid ----------

  predicate PodsAreValid(live: Objects)
  {
    forall key :: key in live && live[key].value.PodObject? ==> live[key].value.pod.spec.containers != []
  }

  lemma WritesKeepPodsValid(live: Objects, request: Request, revision: nat)
    requires PodsAreValid(live) && Attempt(live, request).Success?
    ensures PodsAreValid(Applied(live, Attempt(live, request).value, revision))
  {
    hide Prepare;
  }

  // The server takes only valid Pods.
  lemma {:induction false} ServedPodsAreValid(log: seq<Write<Object>>)
    requires Served(log)
    ensures PodsAreValid(Live(log))
  {
    hide PodsAreValid, Attempt;
    if log == [] {
      assert PodsAreValid(Live(log)) by { NoPodsAreValid(); }
    } else {
      var n := |log| - 1;
      forall i | 0 <= i < n ensures ServedAt(Live(log[..n][..i]), log[..n][i]) {
        assert log[..n][..i] == log[..i];
      }
      ServedPodsAreValid(log[..n]);
      assert ServedAt(Live(log[..n]), log[n]);
      var request :| Attempt(Live(log[..n]), request) == Success(log[n]);
      WritesKeepPodsValid(Live(log[..n]), request, |log| + 1);
    }
  }

  lemma NoPodsAreValid()
    ensures PodsAreValid(map[])
  {
  }

  lemma {:induction false} SendAllKeepsPodsValid(log: seq<Write<Object>>, faults: seq<Fault>, requests: seq<Request>)
    requires Sound(log) && PodsAreValid(Live(log))
    ensures PodsAreValid(Live(SendAll(log, faults, requests).log))
    decreases |requests|
  {
    hide Sound, PodsAreValid, Live, AfterExchange, ReplyTo;
    if requests != [] {
      ExchangeKeepsSoundness(log, requests[0], HeadFault(faults));
      ExchangeKeepsPodsValid(log, requests[0], HeadFault(faults));
      SendAllKeepsPodsValid(AfterExchange(log, requests[0], HeadFault(faults)), TailFaults(faults), requests[1..]);
    }
  }

  lemma ExchangeKeepsPodsValid(log: seq<Write<Object>>, request: Request, fault: Fault)
    requires Sound(log) && PodsAreValid(Live(log))
    ensures PodsAreValid(Live(AfterExchange(log, request, fault)))
  {
    hide Sound, PodsAreValid, Attempt;
    if Attempt(Live(log), request).Success? {
      ServingKeepsSoundness(log, request);
      WritesKeepPodsValid(Live(log), request, |log| + 2);
    }
  }

  // ---------- Pods that only get a node and a status ----------

  predicate SameIdentity(a: Pod, b: Pod)
  {
    && a.meta.name == b.meta.name && a.meta.labels == b.meta.labels && a.meta.annotations == b.meta.annotations
    && a.meta.ownerReferences == b.meta.ownerReferences && a.meta.uid == b.meta.uid
    && b.spec == a.spec.(nodeName := b.spec.nodeName) && (a.spec.nodeName != "" ==> b.spec.nodeName == a.spec.nodeName)
    && (a.status.phase.Running? ==> b.status.phase.Running?)
  }

  predicate GoesOnAt(before: Objects, after: Objects, key: Key)
    requires key in before && key in after
  {
    if before[key].value.PodObject?
    then after[key].value.PodObject? && SameIdentity(before[key].value.pod, after[key].value.pod)
    else after[key] == before[key]
  }

  // The objects are the same but for the nodes and the statuses of Pods.
  ghost predicate GoOn(before: Objects, after: Objects)
  {
    before.Keys == after.Keys && forall key :: key in before ==> GoesOnAt(before, after, key)
  }

  lemma ItGoesOn(live: Objects)
    ensures GoOn(live, live)
  {
  }

  lemma GoOnAndOn(a: Objects, b: Objects, c: Objects)
    requires GoOn(a, b) && GoOn(b, c)
    ensures GoOn(a, c)
  {
    forall key | key in a ensures GoesOnAt(a, c, key) {
      assert GoesOnAt(a, b, key) && GoesOnAt(b, c, key);
    }
  }

  lemma GoingOnKeepsPodsValid(before: Objects, after: Objects)
    requires GoOn(before, after) && PodsAreValid(before)
    ensures PodsAreValid(after)
  {
    forall key | key in after && after[key].value.PodObject? ensures after[key].value.pod.spec.containers != [] {
      assert GoesOnAt(before, after, key);
    }
  }

  // ---------- the store takes one Pod's update ----------

  lemma UpdateOfAStoredPod(log: seq<Write<Object>>, pod: Pod, after: Pod)
    requires Sound(log) && StoredPod(Live(log), pod) && PodsAreValid(Live(log))
    requires after.meta == pod.meta && after.spec.containers == pod.spec.containers
    ensures var request, key := Update(pod.meta.name, PodObject(after)), Key(PodKind, pod.meta.name);
      var write := Put(key, PodObject(after), pod.meta.resourceVersion);
      && ReplyTo(log, request, Delivered).Ok? && AfterExchange(log, request, Delivered) == log + [write]
      && Sound(log + [write]) && Live(log + [write]) == Applied(Live(log), write, |log| + 2)
  {
    var key := Key(PodKind, pod.meta.name);
    LiveKeysAreNamed(log, key);
    VersionIsZeroExactlyWhenAbsent(log, key);
    assert pod.meta.resourceVersion == Live(log)[key].modRevision;
    assert Live(log)[key].value.pod.spec == pod.spec;
    UpdateIsTaken(Live(log), pod, after);
    ServingKeepsSoundness(log, Update(pod.meta.name, PodObject(after)));
  }

  lemma UpdateIsTaken(live: Objects, pod: Pod, after: Pod)
    requires after.meta == pod.meta && pod.meta.name != "" && after.spec.containers != []
    requires pod.meta.resourceVersion > 0
    requires CanUpdate(live, Key(PodKind, pod.meta.name), pod.meta.resourceVersion)
    ensures Attempt(live, Update(pod.meta.name, PodObject(after))) ==
            Success(Put(Key(PodKind, pod.meta.name), PodObject(after), pod.meta.resourceVersion))
  {
  }

  lemma UpdatedPodGoesOn(live: Objects, pod: Pod, after: Pod, revision: nat)
    requires StoredPod(live, pod) && SameIdentity(pod, after)
    ensures GoOn(live,
      Applied(live, Put(Key(PodKind, pod.meta.name), PodObject(after), pod.meta.resourceVersion), revision))
  {
    var key := Key(PodKind, pod.meta.name);
    var next := Applied(live, Put(key, PodObject(after), pod.meta.resourceVersion), revision);
    assert next.Keys == live.Keys;
  }

  // ---------- reports ----------

  function RunningRequest(pod: Pod, podIP: string): Request
  {
    Update(pod.meta.name, PodObject(pod.(status := PodStatus(Running, podIP))))
  }

  predicate IsReport(desired: map<string, Pod>, request: Request)
  {
    && request.Update? && request.body.PodObject? && request.name in desired
    && request == RunningRequest(desired[request.name], request.body.pod.status.podIP)
  }

  function ReportedNames(sent: seq<Request>): set<string>
  {
    set i | 0 <= i < |sent| && sent[i].Update? :: sent[i].name
  }

  // The address in the report for a Pod.
  function SentIP(sent: seq<Request>, name: string): string
  {
    if sent == [] then ""
    else
      var last := sent[|sent| - 1];
      if last.Update? && last.body.PodObject? && last.name == name then last.body.pod.status.podIP
      else SentIP(sent[..|sent| - 1], name)
  }

  // Status updates of desired Pods, one each at most.
  predicate AreReports(desired: map<string, Pod>, sent: seq<Request>)
  {
    && (forall i :: 0 <= i < |sent| ==> IsReport(desired, sent[i]))
    && (forall i, j :: 0 <= i < j < |sent| ==> sent[i].Update? && sent[j].Update? ==> sent[i].name != sent[j].name)
  }

  predicate IsReportedRunning(live: Objects, name: string)
  {
    var key := Key(PodKind, name);
    key in live && live[key].value.PodObject? && live[key].value.pod.status.phase.Running?
  }

  ghost predicate ReportedPodsStored(live: Objects, desired: map<string, Pod>, sent: seq<Request>)
  {
    forall i :: 0 <= i < |sent| ==>
      IsReport(desired, sent[i]) && desired[sent[i].name].meta.name == sent[i].name &&
        StoredPod(live, desired[sent[i].name])
  }

  lemma ReportOne(log: seq<Write<Object>>, desired: map<string, Pod>, sent: seq<Request>)
    requires Sound(log) && PodsAreValid(Live(log)) && sent != []
    requires AreReports(desired, sent) && ReportedPodsStored(Live(log), desired, sent)
    ensures var after := AfterExchange(log, sent[0], Delivered);
      && ReplyTo(log, sent[0], Delivered).Ok? && Sound(after) && GoOn(Live(log), Live(after))
      && sent[0].Update? && IsReportedRunning(Live(after), sent[0].name)
      && AreReports(desired, sent[1..]) && ReportedPodsStored(Live(after), desired, sent[1..])
  {
    hide Sound, Live, ReplyTo, AfterExchange, GoOn, PodsAreValid, StoredPod;
    assert IsReport(desired, sent[0]);
    var pod := desired[sent[0].name];
    var after := pod.(status := PodStatus(Running, sent[0].body.pod.status.podIP));
    UpdateOfAStoredPod(log, pod, after);
    UpdatedPodGoesOn(Live(log), pod, after, |log| + 2);
    var write := Put(Key(PodKind, pod.meta.name), PodObject(after), pod.meta.resourceVersion);
    forall i | 0 <= i < |sent[1..]|
      ensures IsReport(desired, sent[1..][i]) && StoredPod(Live(log + [write]), desired[sent[1..][i].name])
    {
      assert IsReport(desired, sent[i + 1]) && sent[0].name != sent[i + 1].name;
      OtherPodsStayStored(Live(log), write, desired[sent[i + 1].name], |log| + 2);
    }
  }

  lemma RunningStays(before: Objects, after: Objects, name: string)
    requires GoOn(before, after) && IsReportedRunning(before, name)
    ensures IsReportedRunning(after, name)
  {
    assert GoesOnAt(before, after, Key(PodKind, name));
  }

  lemma {:induction false} ReportsSucceed(log: seq<Write<Object>>, desired: map<string, Pod>, sent: seq<Request>)
    requires Sound(log) && PodsAreValid(Live(log))
    requires AreReports(desired, sent) && ReportedPodsStored(Live(log), desired, sent)
    ensures var out := SendAll(log, [], sent);
      && out.ok && Sound(out.log) && GoOn(Live(log), Live(out.log)) && PodsAreValid(Live(out.log))
      && (forall name :: name in ReportedNames(sent) ==> IsReportedRunning(Live(out.log), name))
    decreases |sent|
  {
    hide Sound, Live, ReplyTo, AfterExchange, GoOn, PodsAreValid, IsReportedRunning, ReportedPodsStored, AreReports;
    if sent == [] {
      ItGoesOn(Live(log));
    } else {
      var after := AfterExchange(log, sent[0], Delivered);
      ReportOne(log, desired, sent);
      GoingOnKeepsPodsValid(Live(log), Live(after));
      ReportsSucceed(after, desired, sent[1..]);
      var end := Live(SendAll(after, [], sent[1..]).log);
      GoOnAndOn(Live(log), Live(after), end);
      RunningStays(Live(after), end, sent[0].name);
      forall name | name in ReportedNames(sent) ensures IsReportedRunning(end, name) {
        var i :| 0 <= i < |sent| && sent[i].Update? && sent[i].name == name;
        if i > 0 {
          assert sent[1..][i - 1].name in ReportedNames(sent[1..]);
        }
      }
    }
  }

  // ---------- the addresses that the store ends up with ----------

  // The Pod is shown as Running at that address.
  predicate ShowsAddress(live: Objects, name: string, ip: string)
  {
    var key := Key(PodKind, name);
    key in live && live[key].value.PodObject? && live[key].value.pod.status == PodStatus(Running, ip)
  }

  lemma {:induction false} SentIPIs(desired: map<string, Pod>, sent: seq<Request>, i: nat)
    requires AreReports(desired, sent) && i < |sent|
    ensures sent[i].Update? && sent[i].body.PodObject?
    ensures SentIP(sent, sent[i].name) == sent[i].body.pod.status.podIP
    decreases |sent|
  {
    var n := |sent| - 1;
    assert IsReport(desired, sent[i]) && IsReport(desired, sent[n]);
    if i < n {
      assert sent[..n][i] == sent[i];
      assert AreReports(desired, sent[..n]);
      SentIPIs(desired, sent[..n], i);
    }
  }

  lemma ReportShows(log: seq<Write<Object>>, desired: map<string, Pod>, sent: seq<Request>)
    requires Sound(log) && PodsAreValid(Live(log)) && sent != []
    requires AreReports(desired, sent) && ReportedPodsStored(Live(log), desired, sent)
    ensures sent[0].Update? && sent[0].body.PodObject? && RequestKey(sent[0]) == Key(PodKind, sent[0].name)
    ensures ShowsAddress(Live(AfterExchange(log, sent[0], Delivered)), sent[0].name, sent[0].body.pod.status.podIP)
  {
    hide Sound, Live, ReplyTo, AfterExchange, PodsAreValid, StoredPod;
    assert IsReport(desired, sent[0]);
    var pod := desired[sent[0].name];
    UpdateOfAStoredPod(log, pod, pod.(status := PodStatus(Running, sent[0].body.pod.status.podIP)));
  }

  lemma {:induction false} ReportsShowTheirAddresses(log: seq<Write<Object>>, desired: map<string, Pod>,
                                                     sent: seq<Request>, i: nat)
    requires Sound(log) && PodsAreValid(Live(log)) && i < |sent|
    requires AreReports(desired, sent) && ReportedPodsStored(Live(log), desired, sent)
    ensures sent[i].Update? && sent[i].body.PodObject?
    ensures ShowsAddress(Live(SendAll(log, [], sent).log), sent[i].name, sent[i].body.pod.status.podIP)
    decreases |sent|
  {
    hide Sound, Live, ReplyTo, AfterExchange, GoOn, PodsAreValid, IsReportedRunning, StoredPod;
    var after, key := AfterExchange(log, sent[0], Delivered), Key(PodKind, sent[0].name);
    ReportOne(log, desired, sent);
    GoingOnKeepsPodsValid(Live(log), Live(after));
    ReportShows(log, desired, sent);
    if i > 0 {
      ReportsShowTheirAddresses(after, desired, sent[1..], i - 1);
    } else {
      forall j | 0 <= j < |sent[1..]| ensures RequestKey(sent[1..][j]) != key {
        assert IsReport(desired, sent[j + 1]) && sent[0].name != sent[j + 1].name;
      }
      SendAllKeepsOtherKeys(after, [], sent[1..], key);
    }
  }

  // Undisturbed reports: the store shows every reported Pod as Running at the reported address,
  // and every other Pod is what it was.
  lemma ReportsAreStored(log: seq<Write<Object>>, desired: map<string, Pod>, sent: seq<Request>, name: string)
    requires Sound(log) && PodsAreValid(Live(log))
    requires AreReports(desired, sent) && ReportedPodsStored(Live(log), desired, sent)
    ensures var after, key := Live(SendAll(log, [], sent).log), Key(PodKind, name);
      if name in ReportedNames(sent) then ShowsAddress(after, name, SentIP(sent, name))
      else (key in after <==> key in Live(log)) && (key in after ==> after[key] == Live(log)[key])
  {
    hide Sound, Live, SendAll, PodsAreValid, StoredPod, ShowsAddress, SentIP;
    if name in ReportedNames(sent) {
      var i :| 0 <= i < |sent| && sent[i].Update? && sent[i].name == name;
      ReportsShowTheirAddresses(log, desired, sent, i);
      SentIPIs(desired, sent, i);
    } else {
      forall i | 0 <= i < |sent| ensures RequestKey(sent[i]) != Key(PodKind, name) {
        assert IsReport(desired, sent[i]) && sent[i].name in ReportedNames(sent);
      }
      SendAllKeepsOtherKeys(log, [], sent, Key(PodKind, name));
    }
  }
}
