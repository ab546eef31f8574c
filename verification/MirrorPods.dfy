// Mirror Pods: what the API server shows of the static Pods of a node.
module MirrorPods {
  import opened Text
  import opened Etcd
  import opened Api
  import opened ApiServer
  import opened Services
  import S = Scheduler
  import U = PodUpdates

  const MIRROR := "kubernetes.io/config.mirror"
  const SOURCE := "kubernetes.io/config.source"

  predicate IsMirror(pod: Pod) { MIRROR in pod.meta.annotations }

  function MirrorName(staticName: string, nodeName: string): string { staticName + "-" + nodeName }

  function MirrorOf(staticPod: Pod, nodeName: string): (mirror: Pod)
    ensures IsMirror(mirror)
  {
    staticPod.(
      meta := staticPod.meta.(
        name := MirrorName(staticPod.meta.name, nodeName),
        annotations := staticPod.meta.annotations[MIRROR := staticPod.meta.name][SOURCE := "file"]),
      spec := staticPod.spec.(nodeName := nodeName),
      status := PodStatus(NoPhase, ""))
  }

  lemma MirrorNamesAreInjective(a: string, b: string, nodeName: string)
    requires MirrorName(a, nodeName) == MirrorName(b, nodeName)
    ensures a == b
  {
    var n := |nodeName| + 1;
    assert MirrorName(a, nodeName)[..|MirrorName(a, nodeName)| - n] == a;
    assert MirrorName(b, nodeName)[..|MirrorName(b, nodeName)| - n] == b;
  }

  // ---------- the requests ----------

  function MirrorsIn(pods: seq<Pod>): map<string, Pod>
  {
    if pods == [] then map[]
    else
      var last := pods[|pods| - 1];
      var earlier := MirrorsIn(pods[..|pods| - 1]);
      if IsMirror(last) then earlier[last.meta.name := last] else earlier
  }

  predicate Agrees(existing: Pod, mirror: Pod)
  {
    existing.spec == mirror.spec && existing.meta.annotations == mirror.meta.annotations
  }

  function MirrorRequests(mirror: Pod, current: map<string, Pod>): seq<Request>
  {
    var name := mirror.meta.name;
    if name !in current then [Post(PodObject(mirror))]
    else if Agrees(current[name], mirror) then []
    else [Update(current[name].meta.name,
      PodObject(mirror.(meta := mirror.meta.(resourceVersion := current[name].meta.resourceVersion))))]
  }

  function ShowAll(staticPods: seq<Pod>, nodeName: string, current: map<string, Pod>): seq<Request>
  {
    if staticPods == [] then []
    else MirrorRequests(MirrorOf(staticPods[0], nodeName), current) + ShowAll(staticPods[1..], nodeName, current)
  }

  function DesiredNames(staticPods: seq<Pod>, nodeName: string): set<string>
  {
    set i | 0 <= i < |staticPods| :: MirrorName(staticPods[i].meta.name, nodeName)
  }

  // The mirrors that have no manifest any more, in the order the map gives them. One that is
  // gone already is not an error.
  function HideAll(log: seq<Write<Object>>, faults: seq<Fault>, order: seq<string>, current: map<string, Pod>,
                   desired: set<string>): Outcome
    requires forall i :: 0 <= i < |order| ==> order[i] in current
    decreases |order|
  {
    if order == [] then Outcome(log, faults, true)
    else if order[0] in desired then HideAll(log, faults, order[1..], current, desired)
    else
      var pod := current[order[0]];
      var request, fault := Remove(Key(PodKind, pod.meta.name), Some(pod.meta.resourceVersion)), HeadFault(faults);
      var reply := ReplyTo(log, request, fault);
      var after := AfterExchange(log, request, fault);
      if reply.Ok? || reply == Refused(NotFoundStatus) then
        HideAll(after, TailFaults(faults), order[1..], current, desired)
      else Outcome(after, TailFaults(faults), false)
  }

  function MirrorPass(log: seq<Write<Object>>, faults: seq<Fault>, staticPods: seq<Pod>, nodeName: string,
                      current: map<string, Pod>, order: seq<string>): Outcome
    requires forall i :: 0 <= i < |order| ==> order[i] in current
  {
    var shown := SendAll(log, faults, ShowAll(staticPods, nodeName, current));
    if shown.ok then HideAll(shown.log, shown.faults, order, current, DesiredNames(staticPods, nodeName)) else shown
  }

  // ---------- what a pass achieves ----------

  predicate MirrorAt(live: Objects, name: string)
  {
    var key := Key(PodKind, name);
    key in live && live[key].value.PodObject? && IsMirror(live[key].value.pod)
  }

  // The list entry for a name is what is stored under it.
  predicate RightFor(live: Objects, current: map<string, Pod>, name: string)
  {
    && (name in current <==> MirrorAt(live, name))
    && (name in current ==> current[name] == Read(live, Key(PodKind, name)).pod && current[name].meta.name == name)
  }

  predicate Shows(live: Objects, mirror: Pod)
  {
    var key := Key(PodKind, mirror.meta.name);
    MirrorAt(live, mirror.meta.name) && Agrees(live[key].value.pod, mirror)
  }

  ghost predicate SameBut(before: Objects, after: Objects, key: Key)
  {
    forall other :: other != key ==>
      (other in after <==> other in before) && (other in before ==> after[other] == before[other])
  }

  // No Pod but a mirror holds the name.
  predicate FreeOfOthers(live: Objects, name: string)
  {
    Key(PodKind, name) in live ==> MirrorAt(live, name)
  }

  lemma {:induction false} MirrorsInAFreshList(live: Objects, pods: seq<Pod>, name: string)
    requires WellTyped(live) && SortedPods(pods) && forall pod :: pod in pods ==> StoredPod(live, pod)
    ensures var mirrors := MirrorsIn(pods);
      && (name in mirrors <==> exists pod :: pod in pods && pod.meta.name == name && IsMirror(pod))
      && (name in mirrors ==> StoredPod(live, mirrors[name]) && mirrors[name].meta.name == name)
  {
    if pods != [] {
      var n := |pods| - 1;
      var last := pods[n];
      assert pods == pods[..n] + [last];
      assert last in pods && StoredPod(live, last);
      MirrorsInAFreshList(live, pods[..n], name);
    }
  }

  lemma FreshMirrorsAreRight(live: Objects, name: string)
    requires WellTyped(live)
    ensures RightFor(live, MirrorsIn(ListPods(live)), name)
  {
    var pods := ListPods(live);
    MirrorsInAFreshList(live, pods, name);
    if MirrorAt(live, name) {
      var pod := Read(live, Key(PodKind, name)).pod;
      assert StoredPod(live, pod) && pod in pods && IsMirror(pod);
    }
  }

  lemma ShowOne(log: seq<Write<Object>>, mirror: Pod, current: map<string, Pod>)
    requires Sound(log) && IsMirror(mirror) && mirror.meta.name != "" && mirror.spec.containers != []
    requires RightFor(Live(log), current, mirror.meta.name) && FreeOfOthers(Live(log), mirror.meta.name)
    ensures var out := SendAll(log, [], MirrorRequests(mirror, current));
      && out.ok && Sound(out.log) && Shows(Live(out.log), mirror)
      && SameBut(Live(log), Live(out.log), Key(PodKind, mirror.meta.name))
      && (Shows(Live(log), mirror) ==> out.log == log)
  {
    hide Sound, Live, Prepare;
    var live, key := Live(log), Key(PodKind, mirror.meta.name);
    var requests := MirrorRequests(mirror, current);
    VersionIsZeroExactlyWhenAbsent(log, key);
    if requests != [] {
      var request := requests[0];
      AttemptToShow(log, mirror, current);
      ServingKeepsSoundness(log, request);
      OneRequest(log, [], requests);
    }
  }

  lemma AttemptToShow(log: seq<Write<Object>>, mirror: Pod, current: map<string, Pod>)
    requires Sound(log) && IsMirror(mirror) && mirror.meta.name != "" && mirror.spec.containers != []
    requires RightFor(Live(log), current, mirror.meta.name) && FreeOfOthers(Live(log), mirror.meta.name)
    requires MirrorRequests(mirror, current) != []
    ensures var request := MirrorRequests(mirror, current)[0];
      && Attempt(Live(log), request).Success?
      && var write := Attempt(Live(log), request).value;
         write.Put? && write.key == Key(PodKind, mirror.meta.name) && write.value.PodObject? &&
         IsMirror(write.value.pod) && Agrees(write.value.pod, mirror)
  {
    hide Live, Accepted, ServicesOk;
    VersionIsZeroExactlyWhenAbsent(log, Key(PodKind, mirror.meta.name));
  }

  predicate ManifestsAreValid(staticPods: seq<Pod>)
  {
    && (forall i :: 0 <= i < |staticPods| ==> staticPods[i].spec.containers != [])
    && (forall i, j :: 0 <= i < j < |staticPods| ==> staticPods[i].meta.name != staticPods[j].meta.name)
  }

  ghost predicate ReadyToShow(live: Objects, staticPods: seq<Pod>, nodeName: string, current: map<string, Pod>)
  {
    forall i :: 0 <= i < |staticPods| ==>
      var name := MirrorName(staticPods[i].meta.name, nodeName);
      RightFor(live, current, name) && FreeOfOthers(live, name)
  }

  lemma FirstShown(log: seq<Write<Object>>, staticPods: seq<Pod>, nodeName: string, current: map<string, Pod>)
      returns (middle: Outcome)
    requires Sound(log) && ManifestsAreValid(staticPods) && ReadyToShow(Live(log), staticPods, nodeName, current)
    requires staticPods != []
    ensures middle == SendAll(log, [], MirrorRequests(MirrorOf(staticPods[0], nodeName), current))
    ensures SendAll(log, [], ShowAll(staticPods, nodeName, current)) ==
      SendAll(middle.log, [], ShowAll(staticPods[1..], nodeName, current))
    ensures Sound(middle.log) && ManifestsAreValid(staticPods[1..])
    ensures ReadyToShow(Live(middle.log), staticPods[1..], nodeName, current)
    ensures Shows(Live(middle.log), MirrorOf(staticPods[0], nodeName))
    ensures SameBut(Live(log), Live(middle.log), Key(PodKind, MirrorName(staticPods[0].meta.name, nodeName)))
    ensures Shows(Live(log), MirrorOf(staticPods[0], nodeName)) ==> middle.log == log
    ensures forall i :: 1 <= i < |staticPods| ==>
      MirrorName(staticPods[i].meta.name, nodeName) != MirrorName(staticPods[0].meta.name, nodeName)
  {
    hide Sound, Live, MirrorRequests, Shows, RightFor, FreeOfOthers, MirrorOf, MirrorName, ManifestsAreValid, SendAll;
    FirstManifest(staticPods, nodeName);
    var mirror := MirrorOf(staticPods[0], nodeName);
    ShowOne(log, mirror, current);
    middle := SendAll(log, [], MirrorRequests(mirror, current));
    NoFaultsStayNoFaults(log, MirrorRequests(mirror, current));
    SendAllInTwoParts(log, [], MirrorRequests(mirror, current), ShowAll(staticPods[1..], nodeName, current));
    forall i | 0 <= i < |staticPods[1..]|
      ensures var name := MirrorName(staticPods[1..][i].meta.name, nodeName);
        RightFor(Live(middle.log), current, name) && FreeOfOthers(Live(middle.log), name)
    {
      var name := MirrorName(staticPods[i + 1].meta.name, nodeName);
      OtherNamesStayReady(Live(log), Live(middle.log), current, mirror.meta.name, name);
    }
  }

  lemma FirstManifest(staticPods: seq<Pod>, nodeName: string)
    requires ManifestsAreValid(staticPods) && staticPods != []
    ensures ManifestsAreValid(staticPods[1..])
    ensures var mirror := MirrorOf(staticPods[0], nodeName);
      IsMirror(mirror) && mirror.meta.name == MirrorName(staticPods[0].meta.name, nodeName) != "" &&
        mirror.spec.containers != []
    ensures forall i :: 1 <= i < |staticPods| ==>
      MirrorName(staticPods[i].meta.name, nodeName) != MirrorName(staticPods[0].meta.name, nodeName)
  {
    forall i | 1 <= i < |staticPods|
      ensures MirrorName(staticPods[i].meta.name, nodeName) != MirrorName(staticPods[0].meta.name, nodeName)
    {
      if MirrorName(staticPods[i].meta.name, nodeName) == MirrorName(staticPods[0].meta.name, nodeName) {
        MirrorNamesAreInjective(staticPods[i].meta.name, staticPods[0].meta.name, nodeName);
      }
    }
  }

  lemma OtherNamesStayReady(before: Objects, after: Objects, current: map<string, Pod>, shown: string, name: string)
    requires SameBut(before, after, Key(PodKind, shown)) && name != shown
    requires RightFor(before, current, name) && FreeOfOthers(before, name)
    ensures RightFor(after, current, name) && FreeOfOthers(after, name)
  {
    assert Key(PodKind, name) != Key(PodKind, shown);
  }

  ghost predicate ShowsAll(live: Objects, staticPods: seq<Pod>, nodeName: string)
  {
    forall i :: 0 <= i < |staticPods| ==> Shows(live, MirrorOf(staticPods[i], nodeName))
  }

  ghost predicate KeepsTheRest(before: Objects, after: Objects, staticPods: seq<Pod>, nodeName: string)
  {
    forall key: Key :: !(key.kind.PodKind? && key.name in DesiredNames(staticPods, nodeName)) ==>
      (key in after <==> key in before) && (key in before ==> after[key] == before[key])
  }

  lemma {:induction false} ShowAllShows(log: seq<Write<Object>>, staticPods: seq<Pod>, nodeName: string,
                                        current: map<string, Pod>)
    requires Sound(log) && ManifestsAreValid(staticPods) && ReadyToShow(Live(log), staticPods, nodeName, current)
    ensures var out := SendAll(log, [], ShowAll(staticPods, nodeName, current));
      && out.ok && out.faults == [] && Sound(out.log) && ShowsAll(Live(out.log), staticPods, nodeName)
      && KeepsTheRest(Live(log), Live(out.log), staticPods, nodeName)
      && (ShowsAll(Live(log), staticPods, nodeName) ==> out.log == log)
    decreases |staticPods|
  {
    hide Sound, Live, MirrorRequests, ReadyToShow, ManifestsAreValid, Shows, MirrorOf, MirrorName, DesiredNames,
      SameBut;
    if staticPods != [] {
      var middle := FirstShown(log, staticPods, nodeName, current);
      var rest := staticPods[1..];
      ShowAllShows(middle.log, rest, nodeName, current);
      var out := SendAll(middle.log, [], ShowAll(rest, nodeName, current));
      FirstThenRest(Live(log), Live(middle.log), Live(out.log), staticPods, nodeName);
    } else {
      assert KeepsTheRest(Live(log), Live(log), staticPods, nodeName);
    }
  }

  lemma FirstThenRest(before: Objects, middle: Objects, after: Objects, staticPods: seq<Pod>, nodeName: string)
    requires staticPods != []
    requires Shows(middle, MirrorOf(staticPods[0], nodeName))
    requires SameBut(before, middle, Key(PodKind, MirrorName(staticPods[0].meta.name, nodeName)))
    requires KeepsTheRest(middle, after, staticPods[1..], nodeName) && ShowsAll(after, staticPods[1..], nodeName)
    requires forall i :: 1 <= i < |staticPods| ==>
      MirrorName(staticPods[i].meta.name, nodeName) != MirrorName(staticPods[0].meta.name, nodeName)
    ensures ShowsAll(after, staticPods, nodeName) && KeepsTheRest(before, after, staticPods, nodeName)
    ensures ShowsAll(before, staticPods, nodeName) ==>
      Shows(before, MirrorOf(staticPods[0], nodeName)) &&
        (before == middle ==> ShowsAll(middle, staticPods[1..], nodeName))
  {
    NamesOfTheRest(staticPods, nodeName);
    var rest := staticPods[1..];
    forall i | 0 <= i < |staticPods| ensures Shows(after, MirrorOf(staticPods[i], nodeName)) {
      if i > 0 {
        assert staticPods[i] == rest[i - 1];
      } else {
        var key := Key(PodKind, MirrorName(staticPods[0].meta.name, nodeName));
        assert !(key.kind.PodKind? && key.name in DesiredNames(rest, nodeName));
      }
    }
    forall key: Key | !(key.kind.PodKind? && key.name in DesiredNames(staticPods, nodeName))
      ensures (key in after <==> key in before) && (key in before ==> after[key] == before[key])
    {
      assert !(key.kind.PodKind? && key.name in DesiredNames(rest, nodeName));
    }
    if ShowsAll(before, staticPods, nodeName) {
      forall i | 0 <= i < |rest| ensures Shows(before, MirrorOf(rest[i], nodeName)) {
        assert rest[i] == staticPods[i + 1];
      }
    }
  }

  lemma NamesOfTheRest(staticPods: seq<Pod>, nodeName: string)
    requires staticPods != [] && forall i :: 1 <= i < |staticPods| ==>
      MirrorName(staticPods[i].meta.name, nodeName) != MirrorName(staticPods[0].meta.name, nodeName)
    ensures var first := MirrorName(staticPods[0].meta.name, nodeName);
      && first !in DesiredNames(staticPods[1..], nodeName)
      && DesiredNames(staticPods, nodeName) == DesiredNames(staticPods[1..], nodeName) + {first}
  {
    var rest := staticPods[1..];
    forall name | name in DesiredNames(staticPods, nodeName) && name != MirrorName(staticPods[0].meta.name, nodeName)
      ensures name in DesiredNames(rest, nodeName)
    {
      var i :| 0 <= i < |staticPods| && MirrorName(staticPods[i].meta.name, nodeName) == name;
      assert rest[i - 1] == staticPods[i];
    }
  }

  // What removing the leftovers does: exactly the listed mirrors without a manifest go.
  ghost predicate ListedRight(live: Objects, order: seq<string>, current: map<string, Pod>, desired: set<string>)
  {
    && (forall i :: 0 <= i < |order| ==> order[i] in current)
    && (forall i, j :: 0 <= i < j < |order| ==> order[i] != order[j])
    && (forall i :: 0 <= i < |order| && order[i] !in desired ==> RightFor(live, current, order[i]))
  }

  ghost predicate OnlyGone(before: Objects, after: Objects, gone: set<string>)
  {
    forall key: Key ::
      if key.kind.PodKind? && key.name in gone then key !in after
      else (key in after <==> key in before) && (key in before ==> after[key] == before[key])
  }

  function GoneNames(order: seq<string>, desired: set<string>): set<string>
  {
    set name | name in order && name !in desired
  }

  lemma HideOne(log: seq<Write<Object>>, current: map<string, Pod>, name: string)
    requires Sound(log) && name in current && RightFor(Live(log), current, name)
    ensures var request := Remove(Key(PodKind, current[name].meta.name), Some(current[name].meta.resourceVersion));
      && ReplyTo(log, request, Delivered).Ok?
      && AfterExchange(log, request, Delivered) == log + [Erase(Key(PodKind, name))]
      && Sound(log + [Erase(Key(PodKind, name))])
      && Live(log + [Erase(Key(PodKind, name))]) == Live(log) - {Key(PodKind, name)}
  {
    var key := Key(PodKind, name);
    VersionIsZeroExactlyWhenAbsent(log, key);
    ServingKeepsSoundness(log, Remove(key, Some(current[name].meta.resourceVersion)));
  }

  lemma {:induction false} HideAllHides(log: seq<Write<Object>>, order: seq<string>, current: map<string, Pod>,
                                        desired: set<string>)
    requires Sound(log) && ListedRight(Live(log), order, current, desired)
    ensures var out := HideAll(log, [], order, current, desired);
      && out.ok && Sound(out.log) && OnlyGone(Live(log), Live(out.log), GoneNames(order, desired))
      && (GoneNames(order, desired) == {} ==> out.log == log)
    decreases |order|
  {
    hide Sound, Live, AfterExchange, ReplyTo, RightFor, OnlyGone;
    ItIsThere(Live(log));
    if order == [] {
      assert GoneNames(order, desired) == {};
    } else {
      var name := order[0];
      assert order == [name] + order[1..];
      if name in desired {
        assert GoneNames(order[1..], desired) == GoneNames(order, desired);
        HideAllHides(log, order[1..], current, desired);
      } else {
        HideOne(log, current, name);
        var after := log + [Erase(Key(PodKind, name))];
        forall i | 0 <= i < |order[1..]| && order[1..][i] !in desired
          ensures RightFor(Live(after), current, order[1..][i])
        {
          assert RightFor(Live(log), current, order[i + 1]);
          RemovalKeepsRight(Live(log), current, name, order[i + 1]);
        }
        HideAllHides(after, order[1..], current, desired);
        assert GoneNames(order, desired) == GoneNames(order[1..], desired) + {name};
        assert name !in order[1..];
        FirstAndRestGone(Live(log), Live(HideAll(after, [], order[1..], current, desired).log), name,
          GoneNames(order[1..], desired));
      }
    }
  }

  lemma ItIsThere(live: Objects)
    ensures OnlyGone(live, live, {})
  {
  }

  lemma FirstAndRestGone(before: Objects, after: Objects, name: string, gone: set<string>)
    requires OnlyGone(before - {Key(PodKind, name)}, after, gone)
    ensures OnlyGone(before, after, gone + {name})
  {
    forall key: Key
      ensures if key.kind.PodKind? && key.name in gone + {name} then key !in after
        else (key in after <==> key in before) && (key in before ==> after[key] == before[key])
    {
      assert key == Key(PodKind, name) <==> key.kind.PodKind? && key.name == name;
    }
  }

  lemma RemovalKeepsRight(live: Objects, current: map<string, Pod>, gone: string, name: string)
    requires RightFor(live, current, name) && name != gone
    ensures RightFor(live - {Key(PodKind, gone)}, current, name)
  {
  }

  ghost predicate IsOrder(order: seq<string>, current: map<string, Pod>)
  {
    && (forall name :: name in order <==> name in current)
    && (forall i, j :: 0 <= i < j < |order| ==> order[i] != order[j])
  }

  // Some of the names, once each: how far a walk through the map has come.
  ghost predicate IsPartOfAnOrder(order: seq<string>, current: map<string, Pod>)
  {
    && (forall i :: 0 <= i < |order| ==> order[i] in current)
    && (forall i, j :: 0 <= i < j < |order| ==> order[i] != order[j])
  }

  // The mirrors in the store are exactly those of the manifests, in agreement with them.
  ghost predicate MirrorsMatch(live: Objects, staticPods: seq<Pod>, nodeName: string)
  {
    && ShowsAll(live, staticPods, nodeName)
    && (forall name :: MirrorAt(live, name) ==> name in DesiredNames(staticPods, nodeName))
  }

  // The Pod runs on the node what the manifest says, and its annotations are the manifest's with
  // the two that make it a mirror.
  predicate IsMirrorFor(staticPod: Pod, nodeName: string, stored: Pod)
  {
    && stored.spec.nodeName == nodeName
    && stored.spec.containers == staticPod.spec.containers && stored.spec.hostNetwork == staticPod.spec.hostNetwork
    && stored.meta.annotations == staticPod.meta.annotations
         ["kubernetes.io/config.mirror" := staticPod.meta.name]["kubernetes.io/config.source" := "file"]
  }

  // Every manifest has its mirror under its name and the node's, and no other Pod is a mirror.
  ghost predicate MirrorsAreShown(live: Objects, staticPods: seq<Pod>, nodeName: string)
  {
    && (forall i :: 0 <= i < |staticPods| ==>
          var key := Key(PodKind, staticPods[i].meta.name + "-" + nodeName);
          key in live && live[key].value.PodObject? && IsMirrorFor(staticPods[i], nodeName, live[key].value.pod))
    && (forall name :: HasMirrorAnnotation(live, name) ==>
          exists i :: 0 <= i < |staticPods| && name == staticPods[i].meta.name + "-" + nodeName)
  }

  predicate HasMirrorAnnotation(live: Objects, name: string)
  {
    var key := Key(PodKind, name);
    key in live && live[key].value.PodObject? &&
    "kubernetes.io/config.mirror" in live[key].value.pod.meta.annotations
  }

  lemma AgreementIsExact(staticPod: Pod, nodeName: string, existing: Pod)
    ensures IsMirror(existing) && Agrees(existing, MirrorOf(staticPod, nodeName)) <==>
            IsMirrorFor(staticPod, nodeName, existing)
    ensures MirrorOf(staticPod, nodeName).meta.name == staticPod.meta.name + "-" + nodeName
  {
  }

  // What the passes aim at, in terms of the manifests.
  lemma MirrorsMatchExactly(live: Objects, staticPods: seq<Pod>, nodeName: string)
    ensures MirrorsMatch(live, staticPods, nodeName) <==> MirrorsAreShown(live, staticPods, nodeName)
  {
    NamesInWords(live, staticPods, nodeName);
    hide IsMirrorFor, Agrees, MirrorOf, DesiredNames;
    forall i | 0 <= i < |staticPods|
      ensures var key := Key(PodKind, staticPods[i].meta.name + "-" + nodeName);
        Shows(live, MirrorOf(staticPods[i], nodeName)) <==>
        key in live && live[key].value.PodObject? && IsMirrorFor(staticPods[i], nodeName, live[key].value.pod)
    {
      var key := Key(PodKind, staticPods[i].meta.name + "-" + nodeName);
      if key in live && live[key].value.PodObject? {
        AgreementIsExact(staticPods[i], nodeName, live[key].value.pod);
      } else {
        AgreementIsExact(staticPods[i], nodeName, staticPods[i]);
      }
    }
  }

  lemma NamesInWords(live: Objects, staticPods: seq<Pod>, nodeName: string)
    ensures forall name :: HasMirrorAnnotation(live, name) <==> MirrorAt(live, name)
    ensures forall name ::
      name in DesiredNames(staticPods, nodeName) <==>
      exists i :: 0 <= i < |staticPods| && name == staticPods[i].meta.name + "-" + nodeName
  {
    forall name
      ensures name in DesiredNames(staticPods, nodeName) <==>
              exists i :: 0 <= i < |staticPods| && name == staticPods[i].meta.name + "-" + nodeName
    {
      if i :| 0 <= i < |staticPods| && name == staticPods[i].meta.name + "-" + nodeName {
        assert MirrorName(staticPods[i].meta.name, nodeName) == name;
      }
    }
  }

  // A mirror that a pass has written: all of the manifest, with a status of its own.
  predicate IsWrittenFor(staticPod: Pod, nodeName: string, o: Object)
  {
    && o.PodObject? && IsMirrorFor(staticPod, nodeName, o.pod)
    && o.pod.meta.name == staticPod.meta.name + "-" + nodeName
    && o.pod.meta.labels == staticPod.meta.labels && o.pod.meta.ownerReferences == staticPod.meta.ownerReferences
    && o.pod.status == PodStatus(NoPhase, "")
  }

  ghost predicate IsWrittenForOne(staticPods: seq<Pod>, nodeName: string, o: Object)
  {
    exists i :: 0 <= i < |staticPods| && IsWrittenFor(staticPods[i], nodeName, o)
  }

  lemma MirrorRequestsWrite(staticPod: Pod, nodeName: string, current: map<string, Pod>)
    ensures forall i :: 0 <= i < |MirrorRequests(MirrorOf(staticPod, nodeName), current)| ==>
      var request := MirrorRequests(MirrorOf(staticPod, nodeName), current)[i];
      !request.Remove? && IsWrittenFor(staticPod, nodeName, request.body)
  {
  }

  lemma {:induction false} ShowAllWrites(staticPods: seq<Pod>, nodeName: string, current: map<string, Pod>)
    ensures NoServices(ShowAll(staticPods, nodeName, current))
    ensures forall i :: 0 <= i < |ShowAll(staticPods, nodeName, current)| ==>
      var request := ShowAll(staticPods, nodeName, current)[i];
      !request.Remove? && IsWrittenForOne(staticPods, nodeName, request.body)
  {
    hide MirrorRequests, MirrorOf, IsMirrorFor;
    if staticPods != [] {
      var all := ShowAll(staticPods, nodeName, current);
      var first := MirrorRequests(MirrorOf(staticPods[0], nodeName), current);
      MirrorRequestsWrite(staticPods[0], nodeName, current);
      ShowAllWrites(staticPods[1..], nodeName, current);
      forall i | 0 <= i < |all| ensures !all[i].Remove? && IsWrittenForOne(staticPods, nodeName, all[i].body) {
        if i < |first| {
          assert all[i] == first[i];
        } else {
          assert all[i] == ShowAll(staticPods[1..], nodeName, current)[i - |first|];
          var j :| 0 <= j < |staticPods[1..]| && IsWrittenFor(staticPods[1..][j], nodeName, all[i].body);
          assert IsWrittenFor(staticPods[j + 1], nodeName, all[i].body);
        }
      }
    }
  }

  lemma {:induction false} HidingStoresNothing(log: seq<Write<Object>>, faults: seq<Fault>, order: seq<string>,
                                               current: map<string, Pod>, desired: set<string>, key: Key)
    requires (forall i :: 0 <= i < |order| ==> order[i] in current) && Sound(log)
    ensures var after := Live(HideAll(log, faults, order, current, desired).log);
      key in after ==> SameEntry(Live(log), after, key)
    decreases |order|
  {
    hide Sound, Live, AfterExchange, ReplyTo;
    if order != [] {
      if order[0] in desired {
        HidingStoresNothing(log, faults, order[1..], current, desired, key);
      } else {
        var pod, fault := current[order[0]], HeadFault(faults);
        var request := Remove(Key(PodKind, pod.meta.name), Some(pod.meta.resourceVersion));
        ExchangeKeepsSoundness(log, request, fault);
        RemovalStoresNothing(log, request, fault, key);
        HidingStoresNothing(AfterExchange(log, request, fault), TailFaults(faults), order[1..], current, desired, key);
      }
    }
  }

  lemma RemovalStoresNothing(log: seq<Write<Object>>, request: Request, fault: Fault, key: Key)
    requires Sound(log) && request.Remove?
    ensures var after := Live(AfterExchange(log, request, fault)); key in after ==> SameEntry(Live(log), after, key)
  {
    hide Sound, Live, Attempt;
    if Attempt(Live(log), request).Success? {
      AcceptedRequestsAreServed(log, request);
    }
  }

  lemma {:induction false} HidingRemovesAsListed(log: seq<Write<Object>>, faults: seq<Fault>, order: seq<string>,
                                                 current: map<string, Pod>, desired: set<string>, key: Key)
    requires (forall i :: 0 <= i < |order| ==> order[i] in current) && Sound(log) && key in Live(log)
    ensures key in Live(HideAll(log, faults, order, current, desired).log) ||
      exists name ::
        name in current && name !in desired && key == Key(PodKind, current[name].meta.name) &&
          Live(log)[key].modRevision == current[name].meta.resourceVersion
    decreases |order|
  {
    hide Sound, Live, AfterExchange, ReplyTo;
    if order != [] {
      if order[0] in desired {
        HidingRemovesAsListed(log, faults, order[1..], current, desired, key);
      } else {
        var pod, fault := current[order[0]], HeadFault(faults);
        var request := Remove(Key(PodKind, pod.meta.name), Some(pod.meta.resourceVersion));
        var after := AfterExchange(log, request, fault);
        ExchangeKeepsSoundness(log, request, fault);
        ExchangeRemovesTheVersion(log, request, fault, key);
        if key in Live(after) {
          HidingRemovesAsListed(after, TailFaults(faults), order[1..], current, desired, key);
        }
      }
    }
  }

  // Whatever the network does, from a map of any age: what a pass removes is a listed mirror
  // that no manifest asks for, and that was still stored at the very version listed.
  lemma MirrorsAreRemovedAsListed(log: seq<Write<Object>>, faults: seq<Fault>, staticPods: seq<Pod>, nodeName: string,
                                  current: map<string, Pod>, order: seq<string>, key: Key)
    requires Sound(log) && forall i :: 0 <= i < |order| ==> order[i] in current
    requires forall name :: name in current ==> current[name].meta.name == name
    requires key in Live(log)
    requires key !in Live(MirrorPass(log, faults, staticPods, nodeName, current, order).log)
    ensures key.kind.PodKind? && key.name in current
    ensures current[key.name].meta.resourceVersion == Live(log)[key].modRevision
    ensures forall i :: 0 <= i < |staticPods| ==> key.name != staticPods[i].meta.name + "-" + nodeName
  {
    hide Sound, Live, SendAll, HideAll, ShowAll, NoServices, DesiredNames, IsWrittenFor;
    var requests, desired := ShowAll(staticPods, nodeName, current), DesiredNames(staticPods, nodeName);
    var shown := SendAll(log, faults, requests);
    ShowAllWrites(staticPods, nodeName, current);
    SendAllKeepsSound(log, faults, requests);
    GoneEntriesAreRemoved(log, faults, requests, key);
    NewEntriesAreBodies(log, faults, requests, key);
    NamesInWords(Live(log), staticPods, nodeName);
    HidingRemovesAsListed(shown.log, shown.faults, order, current, desired, key);
    if !SameEntry(Live(log), Live(shown.log), key) {
      WrittenNamesAreDesired(shown.log, staticPods, nodeName, key);
    }
  }

  lemma WrittenNamesAreDesired(log: seq<Write<Object>>, staticPods: seq<Pod>, nodeName: string, key: Key)
    requires Sound(log) && key in Live(log) && IsWrittenForOne(staticPods, nodeName, Live(log)[key].value)
    ensures key.name in DesiredNames(staticPods, nodeName)
  {
    SoundIsWellTyped(log);
    NamesInWords(Live(log), staticPods, nodeName);
  }

  // Whatever the network does: what a pass stores are the manifests' mirrors.
  ghost predicate StoresTheManifests(before: Objects, after: Objects, staticPods: seq<Pod>, nodeName: string)
  {
    forall key :: key in after && !SameEntry(before, after, key) ==>
      IsWrittenForOne(staticPods, nodeName, after[key].value)
  }

  lemma MirrorPassesStoreTheManifests(log: seq<Write<Object>>, faults: seq<Fault>, staticPods: seq<Pod>,
                                      nodeName: string, current: map<string, Pod>, order: seq<string>)
    requires Sound(log) && forall i :: 0 <= i < |order| ==> order[i] in current
    ensures StoresTheManifests(Live(log), Live(MirrorPass(log, faults, staticPods, nodeName, current, order).log),
                               staticPods, nodeName)
  {
    hide Sound, Live, SendAll, HideAll, ShowAll, IsWrittenForOne, SameEntry, NoServices;
    var requests := ShowAll(staticPods, nodeName, current);
    ShowAllWrites(staticPods, nodeName, current);
    var shown := SendAll(log, faults, requests);
    SendAllKeepsSound(log, faults, requests);
    var after := MirrorPass(log, faults, staticPods, nodeName, current, order).log;
    forall key | key in Live(after) && !SameEntry(Live(log), Live(after), key)
      ensures IsWrittenForOne(staticPods, nodeName, Live(after)[key].value)
    {
      NewEntriesAreBodies(log, faults, requests, key);
      HidingStoresNothing(shown.log, shown.faults, order, current, DesiredNames(staticPods, nodeName), key);
      SameEntriesCompose(Live(log), Live(shown.log), Live(after), key);
    }
  }

  lemma {:induction false} SendAllKeepsSound(log: seq<Write<Object>>, faults: seq<Fault>, requests: seq<Request>)
    requires Sound(log)
    ensures Sound(SendAll(log, faults, requests).log)
    decreases |requests|
  {
    hide Sound, AfterExchange, ReplyTo;
    if requests != [] {
      ExchangeKeepsSoundness(log, requests[0], HeadFault(faults));
      SendAllKeepsSound(AfterExchange(log, requests[0], HeadFault(faults)), TailFaults(faults), requests[1..]);
    }
  }

  // Since a mirror has its node, no scheduler touches it, whatever the network does.
  lemma MirrorsAreNeverBound(log: seq<Write<Object>>, staticPods: seq<Pod>, nodeName: string, i: nat,
                             faults: seq<Fault>, nodes: seq<Node>, cursor: nat)
    requires Sound(log) && WellTyped(Live(log)) && nodeName != "" && i < |staticPods|
    requires MirrorsMatch(Live(log), staticPods, nodeName)
    ensures var after := S.BindAll(log, faults, nodes, ListPods(Live(log)), cursor).outcome.log;
      SameEntry(Live(log), Live(after), Key(PodKind, staticPods[i].meta.name + "-" + nodeName))
  {
    hide Sound, Live, S.BindAll, MirrorsMatch, StoredPod;
    var key := Key(PodKind, staticPods[i].meta.name + "-" + nodeName);
    MirrorsMatchExactly(Live(log), staticPods, nodeName);
    forall pod | pod in ListPods(Live(log)) && pod.spec.nodeName == "" ensures Key(PodKind, pod.meta.name) != key {
      if Key(PodKind, pod.meta.name) == key {
        StoredHasTheNode(Live(log), pod);
        assert false;
      }
    }
    S.BindsKeepOtherKeys(log, faults, nodes, ListPods(Live(log)), cursor, key);
  }

  lemma StoredHasTheNode(live: Objects, pod: Pod)
    requires StoredPod(live, pod)
    ensures var key := Key(PodKind, pod.meta.name);
      key in live && live[key].value.PodObject? && live[key].value.pod.spec.nodeName == pod.spec.nodeName
  {
  }

  // An undisturbed pass makes the mirror Pods match the manifests, whatever order the map of
  // current mirrors is walked in, touches no other Pod, and writes nothing when they match.
  lemma MirrorsTrackTheManifests(log: seq<Write<Object>>, staticPods: seq<Pod>, nodeName: string, order: seq<string>)
    requires Sound(log) && ManifestsAreValid(staticPods)
    requires forall name :: name in DesiredNames(staticPods, nodeName) ==> FreeOfOthers(Live(log), name)
    requires WellTyped(Live(log)) && IsOrder(order, MirrorsIn(ListPods(Live(log))))
    ensures var out := MirrorPass(log, [], staticPods, nodeName, MirrorsIn(ListPods(Live(log))), order);
      && out.ok && Sound(out.log) && MirrorsMatch(Live(out.log), staticPods, nodeName)
      && MirrorsAreShown(Live(out.log), staticPods, nodeName)
      && (MirrorsMatch(Live(log), staticPods, nodeName) ==> out.log == log)
      && (forall name :: MirrorAt(Live(log), name) && name !in DesiredNames(staticPods, nodeName) ==>
            Key(PodKind, name) !in Live(out.log))
      && (forall key: Key ::
            !(key.kind.PodKind? &&
              (MirrorAt(Live(log), key.name) || key.name in DesiredNames(staticPods, nodeName))) ==>
            (key in Live(out.log) <==> key in Live(log)) && (key in Live(log) ==> Live(out.log)[key] == Live(log)[key]))
  {
    hide Sound, Live, RightFor, SendAll, HideAll, ShowAll;
    var current, desired := MirrorsIn(ListPods(Live(log))), DesiredNames(staticPods, nodeName);
    forall name ensures RightFor(Live(log), current, name) && (name in current <==> MirrorAt(Live(log), name)) {
      FreshMirrorsAreRight(Live(log), name);
      RightMeansListed(Live(log), current, name);
    }
    forall i | 0 <= i < |staticPods|
      ensures MirrorName(staticPods[i].meta.name, nodeName) in desired
    {
    }
    ShowAllShows(log, staticPods, nodeName, current);
    var shown := SendAll(log, [], ShowAll(staticPods, nodeName, current));
    forall i | 0 <= i < |order| && order[i] !in desired ensures RightFor(Live(shown.log), current, order[i]) {
      UntouchedStaysRight(Live(log), Live(shown.log), staticPods, nodeName, current, order[i]);
    }
    assert forall i :: 0 <= i < |order| ==> order[i] in order;
    HideAllHides(shown.log, order, current, desired);
    var out := HideAll(shown.log, [], order, current, desired);
    HidingLeavesTheManifests(Live(log), Live(shown.log), Live(out.log), staticPods, nodeName,
      GoneNames(order, desired));
    MirrorsMatchExactly(Live(out.log), staticPods, nodeName);
    hide MirrorsMatch, MirrorsAreShown;
  }

  lemma RightMeansListed(live: Objects, current: map<string, Pod>, name: string)
    requires RightFor(live, current, name)
    ensures name in current <==> MirrorAt(live, name)
  {
  }

  lemma UntouchedStaysRight(before: Objects, after: Objects, staticPods: seq<Pod>, nodeName: string,
                            current: map<string, Pod>, name: string)
    requires KeepsTheRest(before, after, staticPods, nodeName) && name !in DesiredNames(staticPods, nodeName)
    requires RightFor(before, current, name)
    ensures RightFor(after, current, name)
  {
    assert !(Key(PodKind, name).kind.PodKind? && Key(PodKind, name).name in DesiredNames(staticPods, nodeName));
  }

  lemma HidingLeavesTheManifests(before: Objects, shown: Objects, after: Objects, staticPods: seq<Pod>,
                                 nodeName: string, gone: set<string>)
    requires KeepsTheRest(before, shown, staticPods, nodeName) && ShowsAll(shown, staticPods, nodeName)
    requires OnlyGone(shown, after, gone) && gone !! DesiredNames(staticPods, nodeName)
    requires forall name :: name in gone <==> MirrorAt(before, name) && name !in DesiredNames(staticPods, nodeName)
    ensures MirrorsMatch(after, staticPods, nodeName)
    ensures MirrorsMatch(before, staticPods, nodeName) ==> gone == {}
    ensures forall name :: MirrorAt(before, name) && name !in DesiredNames(staticPods, nodeName) ==>
      Key(PodKind, name) !in after
    ensures forall key: Key ::
      !(key.kind.PodKind? && (MirrorAt(before, key.name) || key.name in DesiredNames(staticPods, nodeName))) ==>
      (key in after <==> key in before) && (key in before ==> after[key] == before[key])
  {
    forall i | 0 <= i < |staticPods| ensures Shows(after, MirrorOf(staticPods[i], nodeName)) {
      var name := MirrorName(staticPods[i].meta.name, nodeName);
      assert name in DesiredNames(staticPods, nodeName);
      assert Shows(shown, MirrorOf(staticPods[i], nodeName));
    }
    forall name | MirrorAt(before, name) && name !in DesiredNames(staticPods, nodeName)
      ensures Key(PodKind, name) !in after
    {
      var key := Key(PodKind, name);
      assert key.kind.PodKind? && key.name in gone;
    }
    forall name | MirrorAt(after, name) ensures name in DesiredNames(staticPods, nodeName) {
      if name !in DesiredNames(staticPods, nodeName) {
        SurvivingMirror(before, shown, after, staticPods, nodeName, gone, name);
        assert false;
      }
    }
  }

  lemma SurvivingMirror(before: Objects, shown: Objects, after: Objects, staticPods: seq<Pod>, nodeName: string,
                        gone: set<string>, name: string)
    requires KeepsTheRest(before, shown, staticPods, nodeName) && OnlyGone(shown, after, gone)
    requires MirrorAt(after, name) && name !in DesiredNames(staticPods, nodeName)
    ensures MirrorAt(before, name) && name !in gone
  {
    var key := Key(PodKind, name);
    assert !(key.kind.PodKind? && key.name in gone);
    assert !(key.kind.PodKind? && key.name in DesiredNames(staticPods, nodeName));
  }

  lemma {:induction false} NothingToHide(log: seq<Write<Object>>, faults: seq<Fault>, order: seq<string>,
                                         current: map<string, Pod>, desired: set<string>)
    requires forall i :: 0 <= i < |order| ==> order[i] in current && order[i] in desired
    ensures HideAll(log, faults, order, current, desired) == Outcome(log, faults, true)
    decreases |order|
  {
    if order != [] {
      NothingToHide(log, faults, order[1..], current, desired);
    }
  }

  // When the mirrors match, a pass sends nothing, even along a part of the map.
  lemma MatchingMirrorsStay(log: seq<Write<Object>>, staticPods: seq<Pod>, nodeName: string, order: seq<string>)
    requires Sound(log) && ManifestsAreValid(staticPods) && WellTyped(Live(log))
    requires MirrorsMatch(Live(log), staticPods, nodeName)
    requires forall name :: name in DesiredNames(staticPods, nodeName) ==> FreeOfOthers(Live(log), name)
    requires forall i :: 0 <= i < |order| ==> order[i] in MirrorsIn(ListPods(Live(log)))
    ensures MirrorPass(log, [], staticPods, nodeName, MirrorsIn(ListPods(Live(log))), order) == Outcome(log, [], true)
  {
    hide Sound, Live, SendAll, HideAll, ShowAll, Shows, FreeOfOthers, ManifestsAreValid, MirrorAt, RightFor;
    var current, desired := MirrorsIn(ListPods(Live(log))), DesiredNames(staticPods, nodeName);
    forall name ensures RightFor(Live(log), current, name) && (name in current <==> MirrorAt(Live(log), name)) {
      FreshMirrorsAreRight(Live(log), name);
      RightMeansListed(Live(log), current, name);
    }
    assert forall i :: 0 <= i < |staticPods| ==> MirrorName(staticPods[i].meta.name, nodeName) in desired;
    ShowAllShows(log, staticPods, nodeName, current);
    NothingToHide(log, [], order, current, desired);
  }

  // An undisturbed pass does not fail, however far it has come.
  lemma MirrorPassesSucceed(log: seq<Write<Object>>, staticPods: seq<Pod>, nodeName: string, order: seq<string>)
    requires Sound(log) && ManifestsAreValid(staticPods)
    requires forall name :: name in DesiredNames(staticPods, nodeName) ==> FreeOfOthers(Live(log), name)
    requires WellTyped(Live(log)) && IsPartOfAnOrder(order, MirrorsIn(ListPods(Live(log))))
    ensures var out := MirrorPass(log, [], staticPods, nodeName, MirrorsIn(ListPods(Live(log))), order);
      out.ok && out.faults == []
  {
    hide Sound, Live, RightFor, SendAll, HideAll, ShowAll, MirrorsIn, FreeOfOthers, ManifestsAreValid, ShowsAll,
      KeepsTheRest,
      OnlyGone;
    var current, desired := MirrorsIn(ListPods(Live(log))), DesiredNames(staticPods, nodeName);
    assert forall i :: 0 <= i < |staticPods| ==> MirrorName(staticPods[i].meta.name, nodeName) in desired;
    forall i | 0 <= i < |staticPods|
      ensures RightFor(Live(log), current, MirrorName(staticPods[i].meta.name, nodeName))
    {
      FreshMirrorsAreRight(Live(log), MirrorName(staticPods[i].meta.name, nodeName));
    }
    ShowAllShows(log, staticPods, nodeName, current);
    var shown := SendAll(log, [], ShowAll(staticPods, nodeName, current));
    forall i | 0 <= i < |order| && order[i] !in desired ensures RightFor(Live(shown.log), current, order[i]) {
      FreshMirrorsAreRight(Live(log), order[i]);
      UntouchedStaysRight(Live(log), Live(shown.log), staticPods, nodeName, current, order[i]);
    }
    HideAllHides(shown.log, order, current, desired);
    HidingMeetsNoFaults(shown.log, order, current, desired);
  }

  lemma {:induction false} HidingMeetsNoFaults(log: seq<Write<Object>>, order: seq<string>, current: map<string, Pod>,
                                               desired: set<string>)
    requires forall i :: 0 <= i < |order| ==> order[i] in current
    ensures HideAll(log, [], order, current, desired).faults == []
    decreases |order|
  {
    hide AfterExchange, ReplyTo;
    if order != [] {
      var pod := current[order[0]];
      var request := Remove(Key(PodKind, pod.meta.name), Some(pod.meta.resourceVersion));
      HidingMeetsNoFaults(log, order[1..], current, desired);
      HidingMeetsNoFaults(AfterExchange(log, request, Delivered), order[1..], current, desired);
    }
  }

  lemma {:induction false} HidingKeepsPodsValid(log: seq<Write<Object>>, faults: seq<Fault>, order: seq<string>,
                                                current: map<string, Pod>, desired: set<string>)
    requires (forall i :: 0 <= i < |order| ==> order[i] in current) && Sound(log) && U.PodsAreValid(Live(log))
    ensures U.PodsAreValid(Live(HideAll(log, faults, order, current, desired).log))
    decreases |order|
  {
    hide Sound, Live, AfterExchange, ReplyTo, U.PodsAreValid;
    if order != [] {
      if order[0] in desired {
        HidingKeepsPodsValid(log, faults, order[1..], current, desired);
      } else {
        var pod, fault := current[order[0]], HeadFault(faults);
        var request := Remove(Key(PodKind, pod.meta.name), Some(pod.meta.resourceVersion));
        ExchangeKeepsSoundness(log, request, fault);
        U.ExchangeKeepsPodsValid(log, request, fault);
        HidingKeepsPodsValid(AfterExchange(log, request, fault), TailFaults(faults), order[1..], current, desired);
      }
    }
  }

  lemma MirrorPassesKeepPodsValid(log: seq<Write<Object>>, faults: seq<Fault>, staticPods: seq<Pod>, nodeName: string,
                                  order: seq<string>)
    requires Sound(log) && WellTyped(Live(log)) && U.PodsAreValid(Live(log))
    requires forall i :: 0 <= i < |order| ==> order[i] in MirrorsIn(ListPods(Live(log)))
    ensures U.PodsAreValid(
              Live(MirrorPass(log, faults, staticPods, nodeName, MirrorsIn(ListPods(Live(log))), order).log))
  {
    hide Sound, Live, SendAll, HideAll, ShowAll, MirrorsIn, U.PodsAreValid, AllForMirrors, ListsMirrors;
    var current := MirrorsIn(ListPods(Live(log)));
    var requests := ShowAll(staticPods, nodeName, current);
    ListIsOfMirrors(Live(log));
    ShowAllIsForMirrors(Live(log), staticPods, nodeName, current);
    SendAllForMirrors(log, faults, requests);
    U.SendAllKeepsPodsValid(log, faults, requests);
    var shown := SendAll(log, faults, requests);
    HidingKeepsPodsValid(shown.log, shown.faults, order, current, DesiredNames(staticPods, nodeName));
  }

  // ---------- several nodes ----------

  // With node names that have no dash, mirror names tell the nodes apart as well.
  lemma MirrorNamesTellNodesApart(a: string, nodeA: string, b: string, nodeB: string)
    requires MirrorName(a, nodeA) == MirrorName(b, nodeB) && '-' !in nodeA && '-' !in nodeB
    ensures a == b && nodeA == nodeB
  {
    var name := MirrorName(a, nodeA);
    if |nodeA| < |nodeB| {
      DashInside(a, nodeA, b, nodeB);
    } else if |nodeB| < |nodeA| {
      DashInside(b, nodeB, a, nodeA);
    } else {
      assert nodeA == name[|a| + 1..] && nodeB == name[|b| + 1..];
      MirrorNamesAreInjective(a, b, nodeA);
    }
  }

  lemma DashInside(a: string, short: string, b: string, long: string)
    requires MirrorName(a, short) == MirrorName(b, long) && |short| < |long|
    ensures '-' in long
  {
    var name, k := MirrorName(a, short), |long| - |short| - 1;
    assert name[|a|] == '-' && name[|b| + 1..] == long;
    assert long[k] == name[|b| + 1 + k] == name[|a|];
  }

  // A pass removes every mirror that is not of its own manifests: another node's mirror is
  // still there afterwards exactly when this node has a mirror of the same name.
  lemma OtherNodesMirrorsGo(log: seq<Write<Object>>, staticPods: seq<Pod>, nodeName: string, order: seq<string>,
                            others: seq<Pod>, otherNode: string, name: string)
    requires Sound(log) && ManifestsAreValid(staticPods)
    requires forall name :: name in DesiredNames(staticPods, nodeName) ==> FreeOfOthers(Live(log), name)
    requires WellTyped(Live(log)) && IsOrder(order, MirrorsIn(ListPods(Live(log))))
    requires ShowsAll(Live(log), others, otherNode) && name in DesiredNames(others, otherNode)
    ensures var out := MirrorPass(log, [], staticPods, nodeName, MirrorsIn(ListPods(Live(log))), order);
      Key(PodKind, name) in Live(out.log) <==> name in DesiredNames(staticPods, nodeName)
  {
    hide Sound, Live, MirrorPass, MirrorsIn, ManifestsAreValid, FreeOfOthers;
    assert forall i :: 0 <= i < |order| ==> order[i] in order;
    MirrorsTrackTheManifests(log, staticPods, nodeName, order);
    var i :| 0 <= i < |others| && MirrorName(others[i].meta.name, otherNode) == name;
    assert Shows(Live(log), MirrorOf(others[i], otherNode));
    var after := Live(MirrorPass(log, [], staticPods, nodeName, MirrorsIn(ListPods(Live(log))), order).log);
    if name in DesiredNames(staticPods, nodeName) {
      var j :| 0 <= j < |staticPods| && MirrorName(staticPods[j].meta.name, nodeName) == name;
      assert Shows(after, MirrorOf(staticPods[j], nodeName));
    }
  }

  // So two nodes with manifests are never both satisfied.
  lemma TwoNodesNeverAgree(live: Objects, staticPods: seq<Pod>, nodeName: string, others: seq<Pod>, otherNode: string)
    requires nodeName != otherNode && '-' !in nodeName && '-' !in otherNode
    ensures MirrorsMatch(live, staticPods, nodeName) && MirrorsMatch(live, others, otherNode) <==>
            staticPods == others == [] && forall name :: !MirrorAt(live, name)
  {
    hide Agrees;
    if MirrorsMatch(live, staticPods, nodeName) && MirrorsMatch(live, others, otherNode) {
      OthersHaveNone(live, staticPods, nodeName, others, otherNode);
      OthersHaveNone(live, others, otherNode, staticPods, nodeName);
    }
  }

  lemma OthersHaveNone(live: Objects, staticPods: seq<Pod>, nodeName: string, others: seq<Pod>, otherNode: string)
    requires nodeName != otherNode && '-' !in nodeName && '-' !in otherNode
    requires ShowsAll(live, others, otherNode)
    requires forall name :: MirrorAt(live, name) ==> name in DesiredNames(staticPods, nodeName)
    ensures others == []
  {
    hide Agrees;
    if others != [] {
      assert Shows(live, MirrorOf(others[0], otherNode));
      var name := MirrorName(others[0].meta.name, otherNode);
      assert name in DesiredNames(staticPods, nodeName);
      var i :| 0 <= i < |staticPods| && MirrorName(staticPods[i].meta.name, nodeName) == name;
      MirrorNamesTellNodesApart(others[0].meta.name, otherNode, staticPods[i].meta.name, nodeName);
      assert false;
    }
  }

  // ---------- under any network trouble ----------

  predicate SamePod(before: Objects, after: Objects, name: string)
  {
    var key := Key(PodKind, name);
    (key in after <==> key in before) && (key in before ==> after[key] == before[key])
  }

  // Where a Pod has changed, come or gone, there was no other Pod than a mirror and is none.
  ghost predicate OnlyMirrorsChange(before: Objects, after: Objects)
  {
    forall name :: SamePod(before, after, name) || (FreeOfOthers(before, name) && FreeOfOthers(after, name))
  }

  // Accepted or not, the request does not touch a Pod that is not a mirror.
  predicate ForMirrors(live: Objects, request: Request)
  {
    match request
    case Post(body) => body.PodObject? && IsMirror(body.pod)
    case Update(_, body) => body.PodObject? && IsMirror(body.pod) && FreeOfOthers(live, body.pod.meta.name)
    case Remove(key, _) => key.kind.PodKind? && FreeOfOthers(live, key.name)
  }

  ghost predicate AllForMirrors(live: Objects, requests: seq<Request>)
  {
    forall i :: 0 <= i < |requests| ==> ForMirrors(live, requests[i])
  }

  lemma OneForMirrors(log: seq<Write<Object>>, request: Request, fault: Fault)
    requires Sound(log) && ForMirrors(Live(log), request)
    ensures OnlyMirrorsChange(Live(log), Live(AfterExchange(log, request, fault)))
  {
    hide Sound, Live, Attempt;
    if Attempt(Live(log), request).Success? {
      AcceptedForMirrors(log, request);
      ServingKeepsSoundness(log, request);
    }
  }

  lemma AcceptedForMirrors(log: seq<Write<Object>>, request: Request)
    requires Sound(log) && ForMirrors(Live(log), request) && Attempt(Live(log), request).Success?
    ensures var write := Attempt(Live(log), request).value;
      && write.key.kind.PodKind? && FreeOfOthers(Live(log), write.key.name)
      && (write.Put? ==> write.value.PodObject? && IsMirror(write.value.pod))
  {
    hide Live, Sound;
    var key := Attempt(Live(log), request).value.key;
    VersionIsZeroExactlyWhenAbsent(log, key);
  }

  lemma MirrorsChangeOn(a: Objects, b: Objects, c: Objects)
    requires OnlyMirrorsChange(a, b) && OnlyMirrorsChange(b, c)
    ensures OnlyMirrorsChange(a, c)
  {
    forall name ensures SamePod(a, c, name) || (FreeOfOthers(a, name) && FreeOfOthers(c, name)) {
      assert SamePod(a, b, name) || (FreeOfOthers(a, name) && FreeOfOthers(b, name));
      assert SamePod(b, c, name) || (FreeOfOthers(b, name) && FreeOfOthers(c, name));
    }
  }

  lemma StillForMirrors(before: Objects, after: Objects, request: Request)
    requires OnlyMirrorsChange(before, after) && ForMirrors(before, request)
    ensures ForMirrors(after, request)
  {
    hide SamePod, FreeOfOthers, IsMirror;
    FreeStaysFree(before, after);
  }

  lemma FreeStaysFree(before: Objects, after: Objects)
    requires OnlyMirrorsChange(before, after)
    ensures forall name :: FreeOfOthers(before, name) ==> FreeOfOthers(after, name)
  {
    forall name | FreeOfOthers(before, name) ensures FreeOfOthers(after, name) {
      assert SamePod(before, after, name) || FreeOfOthers(after, name);
    }
  }

  lemma NothingChanges(live: Objects)
    ensures OnlyMirrorsChange(live, live)
  {
  }

  lemma {:induction false} SendAllForMirrors(log: seq<Write<Object>>, faults: seq<Fault>, requests: seq<Request>)
    requires Sound(log) && AllForMirrors(Live(log), requests)
    ensures var after := SendAll(log, faults, requests).log;
      Sound(after) && OnlyMirrorsChange(Live(log), Live(after))
    decreases |requests|
  {
    hide Sound, Live, AfterExchange, ReplyTo, OnlyMirrorsChange, ForMirrors;
    NothingChanges(Live(log));
    if requests != [] {
      var fault := HeadFault(faults);
      var middle := AfterExchange(log, requests[0], fault);
      ExchangeKeepsSoundness(log, requests[0], fault);
      OneForMirrors(log, requests[0], fault);
      forall i | 0 <= i < |requests[1..]| ensures ForMirrors(Live(middle), requests[1..][i]) {
        StillForMirrors(Live(log), Live(middle), requests[i + 1]);
      }
      SendAllForMirrors(middle, TailFaults(faults), requests[1..]);
      MirrorsChangeOn(Live(log), Live(middle), Live(SendAll(middle, TailFaults(faults), requests[1..]).log));
    }
  }

  // The list was right at the start.
  ghost predicate ListsMirrors(live: Objects, current: map<string, Pod>)
  {
    forall name :: name in current ==> current[name].meta.name == name && FreeOfOthers(live, name)
  }

  lemma {:induction false} HideAllForMirrors(log: seq<Write<Object>>, faults: seq<Fault>, order: seq<string>,
                                             current: map<string, Pod>, desired: set<string>)
    requires (forall i :: 0 <= i < |order| ==> order[i] in current) && Sound(log) && ListsMirrors(Live(log), current)
    ensures var after := HideAll(log, faults, order, current, desired).log;
      Sound(after) && OnlyMirrorsChange(Live(log), Live(after))
    decreases |order|
  {
    hide Sound, Live, AfterExchange, ReplyTo, OnlyMirrorsChange, FreeOfOthers;
    NothingChanges(Live(log));
    if order != [] {
      if order[0] in desired {
        HideAllForMirrors(log, faults, order[1..], current, desired);
      } else {
        var pod, fault := current[order[0]], HeadFault(faults);
        var request := Remove(Key(PodKind, pod.meta.name), Some(pod.meta.resourceVersion));
        var middle := AfterExchange(log, request, fault);
        ExchangeKeepsSoundness(log, request, fault);
        OneForMirrors(log, request, fault);
        FreeStaysFree(Live(log), Live(middle));
        HideAllForMirrors(middle, TailFaults(faults), order[1..], current, desired);
        MirrorsChangeOn(Live(log), Live(middle),
          Live(HideAll(middle, TailFaults(faults), order[1..], current, desired).log));
      }
    }
  }

  lemma {:induction false} ShowAllIsForMirrors(live: Objects, staticPods: seq<Pod>, nodeName: string,
                                               current: map<string, Pod>)
    requires ListsMirrors(live, current)
    ensures AllForMirrors(live, ShowAll(staticPods, nodeName, current))
  {
    if staticPods != [] {
      var mirror := MirrorOf(staticPods[0], nodeName);
      OneIsForMirrors(live, mirror, current);
      ShowAllIsForMirrors(live, staticPods[1..], nodeName, current);
      hide ForMirrors, MirrorRequests;
      var first, rest := MirrorRequests(mirror, current), ShowAll(staticPods[1..], nodeName, current);
      forall i | 0 <= i < |first + rest| ensures ForMirrors(live, (first + rest)[i]) {
        assert (first + rest)[i] == if i < |first| then first[i] else rest[i - |first|];
      }
    }
  }

  lemma OneIsForMirrors(live: Objects, mirror: Pod, current: map<string, Pod>)
    requires ListsMirrors(live, current) && IsMirror(mirror)
    ensures AllForMirrors(live, MirrorRequests(mirror, current))
  {
    hide FreeOfOthers;
  }

  // Whatever happens to its requests, a pass touches no Pod but mirrors.
  lemma MirrorPassesChangeOnlyMirrors(log: seq<Write<Object>>, faults: seq<Fault>, staticPods: seq<Pod>,
                                      nodeName: string, order: seq<string>)
    requires Sound(log) && WellTyped(Live(log))
    requires forall i :: 0 <= i < |order| ==> order[i] in MirrorsIn(ListPods(Live(log)))
    ensures var after := MirrorPass(log, faults, staticPods, nodeName, MirrorsIn(ListPods(Live(log))), order).log;
      Sound(after) && OnlyMirrorsChange(Live(log), Live(after))
  {
    hide Sound, Live, SendAll, HideAll, ShowAll, OnlyMirrorsChange, MirrorsIn, FreeOfOthers, AllForMirrors;
    var current := MirrorsIn(ListPods(Live(log)));
    ListIsOfMirrors(Live(log));
    ShowAllIsForMirrors(Live(log), staticPods, nodeName, current);
    SendAllForMirrors(log, faults, ShowAll(staticPods, nodeName, current));
    var shown := SendAll(log, faults, ShowAll(staticPods, nodeName, current));
    FreeStaysFree(Live(log), Live(shown.log));
    HideAllForMirrors(shown.log, shown.faults, order, current, DesiredNames(staticPods, nodeName));
    MirrorsChangeOn(Live(log), Live(shown.log),
                    Live(HideAll(shown.log, shown.faults, order, current, DesiredNames(staticPods, nodeName)).log));
  }

  lemma ListIsOfMirrors(live: Objects)
    requires WellTyped(live)
    ensures ListsMirrors(live, MirrorsIn(ListPods(live)))
  {
    hide MirrorsIn;
    forall name | name in MirrorsIn(ListPods(live))
      ensures MirrorsIn(ListPods(live))[name].meta.name == name && FreeOfOthers(live, name)
    {
      FreshMirrorsAreRight(live, name);
    }
  }

  // Every mirror before is there after, and there is no other.
  ghost predicate MirrorsKept(before: Objects, after: Objects)
  {
    forall name :: MirrorAt(before, name) || MirrorAt(after, name) ==> SamePod(before, after, name)
  }

  // An update of a Pod that is no mirror, and stays none.
  predicate AvoidsMirrors(live: Objects, request: Request)
  {
    && request.Update? && request.body.PodObject?
    && !IsMirror(request.body.pod) && !MirrorAt(live, request.body.pod.meta.name)
  }

  lemma OneAvoidsMirrors(log: seq<Write<Object>>, request: Request, fault: Fault)
    requires Sound(log) && AvoidsMirrors(Live(log), request)
    ensures MirrorsKept(Live(log), Live(AfterExchange(log, request, fault)))
  {
    hide Sound, AvoidsMirrors, Attempt;
    if Attempt(Live(log), request).Success? {
      AcceptedAvoidsMirrors(Live(log), request);
      ServingKeepsSoundness(log, request);
    }
  }

  lemma AcceptedAvoidsMirrors(live: Objects, request: Request)
    requires AvoidsMirrors(live, request) && Attempt(live, request).Success?
    ensures var write := Attempt(live, request).value;
      && write.Put? && write.key.kind.PodKind? && !MirrorAt(live, write.key.name)
      && write.value.PodObject? && !IsMirror(write.value.pod)
  {
    hide Prepare, MirrorAt, IsMirror;
  }

  lemma MirrorsKeptOn(a: Objects, b: Objects, c: Objects)
    requires MirrorsKept(a, b) && MirrorsKept(b, c)
    ensures MirrorsKept(a, c)
  {
    forall name | MirrorAt(a, name) || MirrorAt(c, name) ensures SamePod(a, c, name) {
      assert MirrorAt(a, name) ==> SamePod(a, b, name);
      assert MirrorAt(c, name) ==> SamePod(b, c, name);
    }
  }

  lemma StillAvoidsMirrors(before: Objects, after: Objects, request: Request)
    requires MirrorsKept(before, after) && AvoidsMirrors(before, request)
    ensures AvoidsMirrors(after, request)
  {
    hide IsMirror;
    var name := request.body.pod.meta.name;
    assert MirrorAt(after, name) ==> SamePod(before, after, name);
  }

  lemma NoMirrorTouched(live: Objects)
    ensures MirrorsKept(live, live)
  {
  }

  lemma {:induction false} SendAllAvoidsMirrors(log: seq<Write<Object>>, faults: seq<Fault>, requests: seq<Request>)
    requires Sound(log) && forall i :: 0 <= i < |requests| ==> AvoidsMirrors(Live(log), requests[i])
    ensures MirrorsKept(Live(log), Live(SendAll(log, faults, requests).log))
    decreases |requests|
  {
    hide Sound, Live, AfterExchange, ReplyTo, AvoidsMirrors, MirrorsKept;
    NoMirrorTouched(Live(log));
    if requests != [] {
      var fault := HeadFault(faults);
      var middle := AfterExchange(log, requests[0], fault);
      ExchangeKeepsSoundness(log, requests[0], fault);
      OneAvoidsMirrors(log, requests[0], fault);
      forall i | 0 <= i < |requests[1..]| ensures AvoidsMirrors(Live(middle), requests[1..][i]) {
        StillAvoidsMirrors(Live(log), Live(middle), requests[i + 1]);
      }
      SendAllAvoidsMirrors(middle, TailFaults(faults), requests[1..]);
      MirrorsKeptOn(Live(log), Live(middle), Live(SendAll(middle, TailFaults(faults), requests[1..]).log));
    }
  }

  lemma KeptMirrorsMatch(before: Objects, after: Objects, staticPods: seq<Pod>, nodeName: string)
    requires MirrorsMatch(before, staticPods, nodeName) && MirrorsKept(before, after)
    ensures MirrorsMatch(after, staticPods, nodeName)
  {
    hide MirrorOf, DesiredNames;
    forall i | 0 <= i < |staticPods| ensures Shows(after, MirrorOf(staticPods[i], nodeName)) {
      assert Shows(before, MirrorOf(staticPods[i], nodeName));
      assert SamePod(before, after, MirrorOf(staticPods[i], nodeName).meta.name);
    }
  }

  // ---------- the kubelet's method ----------

  method CurrentMirrors(pods: seq<Pod>) returns (current: map<string, Pod>)
    ensures current == MirrorsIn(pods)
  {
    current := map[];
    for i := 0 to |pods|
      invariant current == MirrorsIn(pods[..i])
    {
      assert pods[..i + 1][..i] == pods[..i];
      if IsMirror(pods[i]) {
        current := current[pods[i].meta.name := pods[i]];
      }
    }
    assert pods[..|pods|] == pods;
  }

  method ReconcileMirrorPods(client: Client, staticPods: seq<Pod>, nodeName: string)
      returns (ok: bool, ghost order: seq<string>)
    requires client.Valid()
    modifies client, client.server.etcd
    ensures client.Valid()
    ensures WellTyped(Live(old(client.server.etcd.log)))
    ensures var current := MirrorsIn(ListPods(Live(old(client.server.etcd.log))));
      && IsPartOfAnOrder(order, current) && (ok ==> IsOrder(order, current))
      && Outcome(client.server.etcd.log, client.faults, ok) ==
         MirrorPass(old(client.server.etcd.log), old(client.faults), staticPods, nodeName, current, order)
    ensures StoresTheManifests(Live(old(client.server.etcd.log)), Live(client.server.etcd.log), staticPods, nodeName)
  {
    hide StoresTheManifests;
    ghost var log, faults := client.server.etcd.log, client.faults;
    order := [];
    var items := client.server.List(PodKind);
    var current := CurrentMirrors(PodsOf(items));
    var desired: set<string>;
    ok, desired := ShowMirrors(client, staticPods, nodeName, current);
    if !ok {
      MirrorPassesStoreTheManifests(log, faults, staticPods, nodeName, current, order);
      return;
    }
    ok, order := HideMirrors(client, current, desired);
    MirrorPassesStoreTheManifests(log, faults, staticPods, nodeName, current, order);
  }

  method ShowMirrors(client: Client, staticPods: seq<Pod>, nodeName: string, current: map<string, Pod>)
    returns (ok: bool, desired: set<string>)
    requires client.Valid()
    modifies client, client.server.etcd
    ensures client.Valid()
    ensures Outcome(client.server.etcd.log, client.faults, ok) ==
            SendAll(old(client.server.etcd.log), old(client.faults), ShowAll(staticPods, nodeName, current))
    ensures ok ==> desired == DesiredNames(staticPods, nodeName)
  {
    desired := {};
    for i := 0 to |staticPods|
      invariant client.Valid()
      invariant desired == set j | 0 <= j < i :: MirrorName(staticPods[j].meta.name, nodeName)
      invariant SendAll(old(client.server.etcd.log), old(client.faults), ShowAll(staticPods, nodeName, current)) ==
                SendAll(client.server.etcd.log, client.faults, ShowAll(staticPods[i..], nodeName, current))
    {
      var mirror := MirrorOf(staticPods[i], nodeName);
      desired := desired + {mirror.meta.name};
      assert staticPods[i..][0] == staticPods[i] && staticPods[i..][1..] == staticPods[i + 1..];
      ghost var log, faults, requests := client.server.etcd.log, client.faults, MirrorRequests(mirror, current);
      SendAllInTwoParts(log, faults, requests, ShowAll(staticPods[i + 1..], nodeName, current));
      if mirror.meta.name !in current {
        OneRequest(log, faults, requests);
        var reply := client.Send(Post(PodObject(mirror)));
        if !reply.Ok? { return false, desired; }
        continue;
      }
      var existing := current[mirror.meta.name];
      mirror := mirror.(meta := mirror.meta.(resourceVersion := existing.meta.resourceVersion));
      if Agrees(existing, mirror) {
        continue;
      }
      OneRequest(log, faults, requests);
      var reply := client.Send(Update(existing.meta.name, PodObject(mirror)));
      if !reply.Ok? { return false, desired; }
    }
    return true, desired;
  }

  // The map is walked in any order; the walked names are recorded.
  method HideMirrors(client: Client, current: map<string, Pod>, desired: set<string>)
      returns (ok: bool, ghost order: seq<string>)
    requires client.Valid()
    modifies client, client.server.etcd
    ensures client.Valid()
    ensures IsPartOfAnOrder(order, current)
    ensures ok ==> IsOrder(order, current)
    ensures Outcome(client.server.etcd.log, client.faults, ok) ==
            HideAll(old(client.server.etcd.log), old(client.faults), order, current, desired)
  {
    hide Live, AfterExchange, ReplyTo, Sound;
    order := [];
    var remaining := current.Keys;
    ghost var log0, faults0 := client.server.etcd.log, client.faults;
    while remaining != {}
      invariant client.Valid()
      invariant forall name :: name in order <==> name in current && name !in remaining
      invariant remaining <= current.Keys
      invariant forall i, j :: 0 <= i < j < |order| ==> order[i] != order[j]
      invariant forall i :: 0 <= i < |order| ==> order[i] in current
      invariant HideAll(log0, faults0, order, current, desired) == Outcome(client.server.etcd.log, client.faults, true)
      decreases remaining
    {
      var name :| name in remaining;
      HideAllGrows(log0, faults0, order, current, desired, name);
      remaining := remaining - {name};
      order := order + [name];
      if name in desired {
        continue;
      }
      var pod := current[name];
      var reply := client.Send(Remove(Key(PodKind, pod.meta.name), Some(pod.meta.resourceVersion)));
      if !reply.Ok? && reply != Refused(NotFoundStatus) {
        return false, order;
      }
    }
    return true, order;
  }

  lemma {:induction false} HideAllGrows(log: seq<Write<Object>>, faults: seq<Fault>, order: seq<string>,
                                        current: map<string, Pod>, desired: set<string>, name: string)
    requires (forall i :: 0 <= i < |order| ==> order[i] in current) && name in current
    requires HideAll(log, faults, order, current, desired).ok
    ensures var sofar := HideAll(log, faults, order, current, desired);
      forall i :: 0 <= i < |order + [name]| ==> (order + [name])[i] in current
    ensures var sofar := HideAll(log, faults, order, current, desired);
      HideAll(log, faults, order + [name], current, desired) ==
        HideAll(sofar.log, sofar.faults, [name], current, desired)
    decreases |order|
  {
    if order == [] {
      assert order + [name] == [name];
    } else {
      assert (order + [name])[1..] == order[1..] + [name];
      if order[0] in desired {
        HideAllGrows(log, faults, order[1..], current, desired, name);
      } else {
        var pod := current[order[0]];
        var request := Remove(Key(PodKind, pod.meta.name), Some(pod.meta.resourceVersion));
        HideAllGrows(AfterExchange(log, request, HeadFault(faults)), TailFaults(faults), order[1..], current, desired,
          name);
      }
    }
  }
}
