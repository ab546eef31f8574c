// The scheduler: round robin over the Ready nodes with a cursor that outlives each reconcile.
module Scheduler {
  import opened Arithmetic
  import opened Text
  import opened Etcd
  import opened Api
  import opened ApiServer

  predicate IsReady(node: Node) { node.phase.NodeReady? }

  predicate SomeReady(nodes: seq<Node>) { exists i :: 0 <= i < |nodes| && IsReady(nodes[i]) }

  predicate ReadyAt(nodes: seq<Node>, i: nat) { i < |nodes| && IsReady(nodes[i]) }

  // ---------- one pick ----------

  // The position `k` steps on from `start`, round a list of n.
  function Cyclic(start: nat, k: nat, n: nat): (i: nat)
    requires n > 0
    ensures i < n
  {
    (start + k) % n
  }

  // The cyclic search from `start`, having passed `offset` nodes that are not Ready.
  function Search(nodes: seq<Node>, start: nat, offset: nat): (found: Option<nat>)
    requires nodes != [] && offset <= |nodes|
    ensures found.Some? ==> ReadyAt(nodes, found.value)
    ensures found.None? ==> forall k :: offset <= k < |nodes| ==> !IsReady(nodes[Cyclic(start, k, |nodes|)])
    decreases |nodes| - offset
  {
    if offset == |nodes| then None
    else
      var index := Cyclic(start, offset, |nodes|);
      if IsReady(nodes[index]) then Some(index) else Search(nodes, start, offset + 1)
  }

  function NextReady(nodes: seq<Node>, start: nat): (found: Option<nat>)
    ensures found.Some? ==> ReadyAt(nodes, found.value)
  {
    if nodes == [] then None else Search(nodes, start, 0)
  }

  // ---------- ranks ----------

  // How many Ready nodes come before position i.
  function Rank(nodes: seq<Node>, i: nat): (r: nat)
    requires i <= |nodes|
    ensures r <= i
  {
    if i == 0 then 0 else Rank(nodes, i - 1) + if IsReady(nodes[i - 1]) then 1 else 0
  }

  function ReadyCount(nodes: seq<Node>): nat { Rank(nodes, |nodes|) }

  lemma {:induction false} RankGrows(nodes: seq<Node>, i: nat, j: nat)
    requires i <= j <= |nodes|
    ensures Rank(nodes, i) <= Rank(nodes, j)
    ensures ReadyAt(nodes, i) && i < j ==> Rank(nodes, i) < Rank(nodes, j)
    decreases j - i
  {
    if i < j {
      RankGrows(nodes, i + 1, j);
    }
  }

  lemma {:induction false} NoReadyNoRank(nodes: seq<Node>, i: nat, j: nat)
    requires i <= j <= |nodes| && forall k :: i <= k < j ==> !IsReady(nodes[k])
    ensures Rank(nodes, i) == Rank(nodes, j)
    decreases j - i
  {
    if i < j {
      NoReadyNoRank(nodes, i + 1, j);
    }
  }

  lemma RanksAreBelowReadyCount(nodes: seq<Node>, i: nat)
    requires ReadyAt(nodes, i)
    ensures Rank(nodes, i) < ReadyCount(nodes)
  {
    RankGrows(nodes, i, |nodes|);
  }

  lemma ReadyNodesHaveDistinctRanks(nodes: seq<Node>, i: nat, j: nat)
    requires ReadyAt(nodes, i) && ReadyAt(nodes, j) && Rank(nodes, i) == Rank(nodes, j)
    ensures i == j
  {
    if i < j {
      RankGrows(nodes, i, j);
    } else if j < i {
      RankGrows(nodes, j, i);
    }
  }

  // No Ready node lies at the first `offset` cyclic positions from the start.
  predicate Skipped(nodes: seq<Node>, start: nat, offset: nat)
    requires nodes != []
  {
    forall k :: 0 <= k < offset ==> !IsReady(nodes[Cyclic(start, k, |nodes|)])
  }

  // The search finds the next rank after those before the start, cyclically.
  lemma {:induction false} SearchFindsNextRank(nodes: seq<Node>, start: nat, offset: nat)
    requires nodes != [] && offset <= |nodes| && start < |nodes| && SomeReady(nodes) && Skipped(nodes, start, offset)
    ensures Search(nodes, start, offset).Some?
    ensures ReadyCount(nodes) > 0
    ensures Rank(nodes, Search(nodes, start, offset).value) == Rank(nodes, start) % ReadyCount(nodes)
    decreases |nodes| - offset
  {
    var n := |nodes|;
    var i :| 0 <= i < n && IsReady(nodes[i]);
    RanksAreBelowReadyCount(nodes, i);
    if offset == n {
      AllSkippedMeansNotReady(nodes, start, i);
      assert false;
    } else {
      var index := Cyclic(start, offset, n);
      WrapAround(start, offset, n);
      if IsReady(nodes[index]) {
        PassedOver(nodes, start, offset);
      } else {
        SearchFindsNextRank(nodes, start, offset + 1);
      }
    }
  }

  lemma AllSkippedMeansNotReady(nodes: seq<Node>, start: nat, i: nat)
    requires nodes != [] && start < |nodes| && i < |nodes| && Skipped(nodes, start, |nodes|)
    ensures !IsReady(nodes[i])
  {
    var n := |nodes|;
    var k := if i >= start then i - start else i + n - start;
    WrapAround(start, k, n);
    assert !IsReady(nodes[Cyclic(start, k, n)]);
  }

  lemma WrapAround(start: nat, k: nat, n: nat)
    requires n > 0 && start + k < 2 * n
    ensures Cyclic(start, k, n) == if start + k < n then start + k else start + k - n
  {
    if start + k < n {
      ModOfMultiple(0, start + k, n);
    } else {
      ModOfMultiple(1, start + k - n, n);
    }
  }

  lemma PassedOver(nodes: seq<Node>, start: nat, offset: nat)
    requires nodes != [] && offset < |nodes| && start < |nodes| && Skipped(nodes, start, offset)
    requires ReadyAt(nodes, Cyclic(start, offset, |nodes|))
    ensures ReadyCount(nodes) > 0
    ensures Rank(nodes, Cyclic(start, offset, |nodes|)) == Rank(nodes, start) % ReadyCount(nodes)
  {
    var n := |nodes|;
    var index := Cyclic(start, offset, n);
    WrapAround(start, offset, n);
    RanksAreBelowReadyCount(nodes, index);
    if start + offset < n {
      forall k | start <= k < index ensures !IsReady(nodes[k]) {
        WrapAround(start, k - start, n);
        assert !IsReady(nodes[Cyclic(start, k - start, n)]);
      }
      NoReadyNoRank(nodes, start, index);
      ModOfMultiple(0, Rank(nodes, start), ReadyCount(nodes));
    } else {
      forall k | start <= k < n ensures !IsReady(nodes[k]) {
        WrapAround(start, k - start, n);
        assert !IsReady(nodes[Cyclic(start, k - start, n)]);
      }
      forall k | 0 <= k < index ensures !IsReady(nodes[k]) {
        WrapAround(start, k + n - start, n);
        assert !IsReady(nodes[Cyclic(start, k + n - start, n)]);
      }
      NoReadyNoRank(nodes, start, n);
      NoReadyNoRank(nodes, 0, index);
      ModOfMultiple(1, 0, ReadyCount(nodes));
    }
  }

  // ---------- many picks ----------

  function PickFrom(nodes: seq<Node>, cursor: nat): (i: nat)
    requires SomeReady(nodes)
    ensures ReadyAt(nodes, i)
  {
    StartIsCyclic(nodes, cursor);
    SearchFindsNextRank(nodes, cursor % |nodes|, 0);
    NextReady(nodes, cursor).value
  }

  lemma {:induction false} StartIsCyclicFrom(nodes: seq<Node>, start: nat, offset: nat)
    requires nodes != [] && offset <= |nodes|
    ensures Search(nodes, start, offset) == Search(nodes, start % |nodes|, offset)
    decreases |nodes| - offset
  {
    assert Cyclic(start, offset, |nodes|) == Cyclic(start % |nodes|, offset, |nodes|) by {
      ModOfSum(start, offset, |nodes|);
    }
    if offset < |nodes| {
      StartIsCyclicFrom(nodes, start, offset + 1);
    }
  }

  // A cursor beyond the list, left over from a longer one, counts modulo its length.
  lemma StartIsCyclic(nodes: seq<Node>, start: nat)
    requires nodes != []
    ensures NextReady(nodes, start) == NextReady(nodes, start % |nodes|)
  {
    StartIsCyclicFrom(nodes, start, 0);
  }

  function Advanced(nodes: seq<Node>, i: nat): nat
    requires i < |nodes|
  {
    Cyclic(i, 1, |nodes|)
  }

  // The nodes of `count` binds in a row.
  function Picks(nodes: seq<Node>, cursor: nat, count: nat): (picks: seq<nat>)
    requires SomeReady(nodes)
    ensures |picks| == count && forall k :: 0 <= k < count ==> ReadyAt(nodes, picks[k])
    decreases count
  {
    if count == 0 then []
    else
      var i := PickFrom(nodes, cursor);
      [i] + Picks(nodes, Advanced(nodes, i), count - 1)
  }

  function CursorAfter(nodes: seq<Node>, cursor: nat, count: nat): nat
    requires SomeReady(nodes)
    decreases count
  {
    if count == 0 then cursor else CursorAfter(nodes, Advanced(nodes, PickFrom(nodes, cursor)), count - 1)
  }

  lemma {:induction false} PicksCompose(nodes: seq<Node>, cursor: nat, a: nat, b: nat)
    requires SomeReady(nodes)
    ensures Picks(nodes, cursor, a + b) == Picks(nodes, cursor, a) + Picks(nodes, CursorAfter(nodes, cursor, a), b)
    ensures CursorAfter(nodes, cursor, a + b) == CursorAfter(nodes, CursorAfter(nodes, cursor, a), b)
    decreases a
  {
    if a > 0 {
      PicksCompose(nodes, Advanced(nodes, PickFrom(nodes, cursor)), a - 1, b);
    }
  }

  lemma PickHasNextRank(nodes: seq<Node>, cursor: nat)
    requires SomeReady(nodes)
    ensures ReadyCount(nodes) > 0
    ensures Rank(nodes, PickFrom(nodes, cursor)) == Rank(nodes, cursor % |nodes|) % ReadyCount(nodes)
  {
    StartIsCyclic(nodes, cursor);
    SearchFindsNextRank(nodes, cursor % |nodes|, 0);
  }

  lemma AdvancedRank(nodes: seq<Node>, i: nat)
    requires ReadyAt(nodes, i)
    ensures ReadyCount(nodes) > 0 && Advanced(nodes, i) < |nodes|
    ensures Rank(nodes, Advanced(nodes, i)) % ReadyCount(nodes) == (Rank(nodes, i) + 1) % ReadyCount(nodes)
  {
    RanksAreBelowReadyCount(nodes, i);
    WrapAround(i, 1, |nodes|);
    if i + 1 == |nodes| {
      ModOfMultiple(1, 0, ReadyCount(nodes));
    }
  }

  // The k-th bind goes to the Ready node whose rank is k further on, cyclically.
  lemma {:induction false} PicksGoRoundTheRanks(nodes: seq<Node>, cursor: nat, count: nat, k: nat)
    requires SomeReady(nodes) && k < count
    ensures ReadyCount(nodes) > 0
    ensures Rank(nodes, Picks(nodes, cursor, count)[k]) == (Rank(nodes, cursor % |nodes|) + k) % ReadyCount(nodes)
    decreases count
  {
    var i := PickFrom(nodes, cursor);
    var m := ReadyCount(nodes);
    PickHasNextRank(nodes, cursor);
    if k > 0 {
      var next := Advanced(nodes, i);
      AdvancedRank(nodes, i);
      PicksGoRoundTheRanks(nodes, next, count - 1, k - 1);
      ModOfMultiple(0, next, |nodes|);
      ModOfSum(Rank(nodes, next), k - 1, m);
      ModOfSum(Rank(nodes, i) + 1, k - 1, m);
      ModOfSum(Rank(nodes, cursor % |nodes|), k, m);
    }
  }

  // ---------- balance ----------

  function Times(picks: seq<nat>, i: nat): nat
  {
    if picks == [] then 0 else Times(picks[..|picks| - 1], i) + if picks[|picks| - 1] == i then 1 else 0
  }

  // How far, in binds, a node's turn is from the first one.
  function Turn(nodes: seq<Node>, cursor: nat, i: nat): nat
    requires nodes != [] && ReadyCount(nodes) > 0
  {
    var m := ReadyCount(nodes);
    (Rank(nodes, if i < |nodes| then i else 0) + m - Rank(nodes, cursor % |nodes|) % m) % m
  }

  lemma PickIsItsTurn(nodes: seq<Node>, cursor: nat, count: nat, k: nat, i: nat)
    requires SomeReady(nodes) && k < count && ReadyAt(nodes, i)
    ensures ReadyCount(nodes) > 0
    ensures Picks(nodes, cursor, count)[k] == i <==> k % ReadyCount(nodes) == Turn(nodes, cursor, i)
  {
    PicksGoRoundTheRanks(nodes, cursor, count, k);
    RanksAreBelowReadyCount(nodes, i);
    var m, first := ReadyCount(nodes), Rank(nodes, cursor % |nodes|);
    ModOfSum(first, k, m);
    ModOfSum(k, first % m, m);
    TurnArithmetic(first % m, k % m, Rank(nodes, i), m);
    var pick := Picks(nodes, cursor, count)[k];
    if Rank(nodes, pick) == Rank(nodes, i) {
      ReadyNodesHaveDistinctRanks(nodes, pick, i);
    }
  }

  lemma TurnArithmetic(first: nat, k: nat, rank: nat, m: nat)
    requires first < m && k < m && rank < m
    ensures (k + first) % m == rank <==> k == (rank + m - first) % m
  {
    WrapAround(k, first, m);
    WrapAround(rank, m - first, m);
  }

  lemma {:induction false} TimesIsByTurns(nodes: seq<Node>, cursor: nat, count: nat, i: nat, n: nat)
    requires SomeReady(nodes) && ReadyAt(nodes, i) && n <= count
    ensures ReadyCount(nodes) > 0
    ensures var m := ReadyCount(nodes);
      Times(Picks(nodes, cursor, count)[..n], i) == n / m + if Turn(nodes, cursor, i) < n % m then 1 else 0
    decreases n
  {
    var m := ReadyCount(nodes);
    RanksAreBelowReadyCount(nodes, i);
    var picks := Picks(nodes, cursor, count);
    if n == 0 {
      ModOfMultiple(0, 0, m);
    } else {
      TimesIsByTurns(nodes, cursor, count, i, n - 1);
      assert picks[..n][..n - 1] == picks[..n - 1];
      PickIsItsTurn(nodes, cursor, count, n - 1, i);
      StepMod(n - 1, m);
    }
  }

  // Any number of binds spreads evenly: per-node totals differ by at most one, and a node
  // that is not Ready gets none.
  lemma RoundRobinIsBalanced(nodes: seq<Node>, cursor: nat, count: nat, i: nat, j: nat)
    requires SomeReady(nodes) && ReadyAt(nodes, i)
    ensures ReadyAt(nodes, j) ==> Times(Picks(nodes, cursor, count), i) <= Times(Picks(nodes, cursor, count), j) + 1
    ensures !ReadyAt(nodes, j) ==> Times(Picks(nodes, cursor, count), j) == 0
  {
    var picks := Picks(nodes, cursor, count);
    assert picks[..count] == picks;
    TimesIsByTurns(nodes, cursor, count, i, count);
    if ReadyAt(nodes, j) {
      TimesIsByTurns(nodes, cursor, count, j, count);
    } else {
      NeverPicked(picks, j);
    }
  }

  lemma {:induction false} NeverPicked(picks: seq<nat>, j: nat)
    requires forall k :: 0 <= k < |picks| ==> picks[k] != j
    ensures Times(picks, j) == 0
  {
    if picks != [] {
      NeverPicked(picks[..|picks| - 1], j);
    }
  }

  // As many binds in a row as there are Ready nodes hit each of them once.
  lemma ConsecutiveBindsHitDistinctNodes(nodes: seq<Node>, cursor: nat, count: nat, a: nat, b: nat)
    requires SomeReady(nodes) && a < b < count && b < a + ReadyCount(nodes)
    ensures Picks(nodes, cursor, count)[a] != Picks(nodes, cursor, count)[b]
  {
    var picks, m := Picks(nodes, cursor, count), ReadyCount(nodes);
    PickIsItsTurn(nodes, cursor, count, a, picks[a]);
    PickIsItsTurn(nodes, cursor, count, b, picks[a]);
    CloseNumbersDiffer(a, b, m);
  }

  lemma CloseNumbersDiffer(a: nat, b: nat, m: nat)
    requires m > 0 && a < b < a + m
    ensures a % m != b % m
  {
    assert a == (a / m) * m + a % m && b == (b / m) * m + b % m;
    if a % m == b % m {
      assert (b / m - a / m) * m == b - a;
      SmallMultipleIsZero(b / m - a / m, m);
    }
  }

  // ---------- reconciles ----------

  function BindRequest(pod: Pod, node: Node): Request
  {
    Update(pod.meta.name, PodObject(pod.(spec := pod.spec.(nodeName := node.meta.name))))
  }

  datatype Bound = Bound(outcome: Outcome, cursor: nat, picks: seq<nat>)

  // One reconcile. A bind whose reply is not Ok ends it and leaves the cursor where it was.
  function BindAll(log: seq<Write<Object>>, faults: seq<Fault>, nodes: seq<Node>, pods: seq<Pod>, cursor: nat): Bound
    decreases |pods|
  {
    if pods == [] then Bound(Outcome(log, faults, true), cursor, [])
    else if pods[0].spec.nodeName != "" then BindAll(log, faults, nodes, pods[1..], cursor)
    else
      var found := NextReady(nodes, cursor);
      if found.None? then Bound(Outcome(log, faults, true), cursor, [])
      else
        var request, fault := BindRequest(pods[0], nodes[found.value]), HeadFault(faults);
        var after := AfterExchange(log, request, fault);
        if ReplyTo(log, request, fault).Ok? then
          var rest := BindAll(after, TailFaults(faults), nodes, pods[1..], Advanced(nodes, found.value));
          rest.(picks := [found.value] + rest.picks)
        else Bound(Outcome(after, TailFaults(faults), false), cursor, [])
  }

  lemma {:induction false} ReconcilePicksInTurn(log: seq<Write<Object>>, faults: seq<Fault>, nodes: seq<Node>,
                                                pods: seq<Pod>, cursor: nat)
    requires SomeReady(nodes)
    ensures var bound := BindAll(log, faults, nodes, pods, cursor);
      bound.picks == Picks(nodes, cursor, |bound.picks|) && bound.cursor == CursorAfter(nodes, cursor, |bound.picks|)
    decreases |pods|
  {
    if pods != [] {
      if pods[0].spec.nodeName != "" {
        ReconcilePicksInTurn(log, faults, nodes, pods[1..], cursor);
      } else {
        var i := PickFrom(nodes, cursor);
        var request, fault := BindRequest(pods[0], nodes[i]), HeadFault(faults);
        ReconcilePicksInTurn(AfterExchange(log, request, fault), TailFaults(faults), nodes, pods[1..],
          Advanced(nodes, i));
      }
    }
  }

  // What successive reconciles find: any store, any Pods, any network.
  datatype Visit = Visit(log: seq<Write<Object>>, faults: seq<Fault>, pods: seq<Pod>)

  function VisitPicks(nodes: seq<Node>, cursor: nat, visits: seq<Visit>): seq<nat>
    decreases |visits|
  {
    if visits == [] then []
    else
      var bound := BindAll(visits[0].log, visits[0].faults, nodes, visits[0].pods, cursor);
      bound.picks + VisitPicks(nodes, bound.cursor, visits[1..])
  }

  lemma {:induction false} VisitsPickInTurn(nodes: seq<Node>, cursor: nat, visits: seq<Visit>)
    requires SomeReady(nodes)
    ensures VisitPicks(nodes, cursor, visits) == Picks(nodes, cursor, |VisitPicks(nodes, cursor, visits)|)
    decreases |visits|
  {
    if visits != [] {
      var bound := BindAll(visits[0].log, visits[0].faults, nodes, visits[0].pods, cursor);
      ReconcilePicksInTurn(visits[0].log, visits[0].faults, nodes, visits[0].pods, cursor);
      VisitsPickInTurn(nodes, bound.cursor, visits[1..]);
      PicksCompose(nodes, cursor, |bound.picks|, |VisitPicks(nodes, bound.cursor, visits[1..])|);
    }
  }

  // Balance across any number of reconciles and failed binds in between.
  lemma BindsStayBalanced(nodes: seq<Node>, cursor: nat, visits: seq<Visit>, i: nat, j: nat)
    requires SomeReady(nodes) && ReadyAt(nodes, i)
    ensures var picks := VisitPicks(nodes, cursor, visits);
      && (ReadyAt(nodes, j) ==> Times(picks, i) <= Times(picks, j) + 1)
      && (!ReadyAt(nodes, j) ==> Times(picks, j) == 0)
      && (forall a, b :: 0 <= a < b < |picks| && b < a + ReadyCount(nodes) ==> picks[a] != picks[b])
  {
    var picks := VisitPicks(nodes, cursor, visits);
    VisitsPickInTurn(nodes, cursor, visits);
    RoundRobinIsBalanced(nodes, cursor, |picks|, i, j);
    forall a, b | 0 <= a < b < |picks| && b < a + ReadyCount(nodes) ensures picks[a] != picks[b] {
      ConsecutiveBindsHitDistinctNodes(nodes, cursor, |picks|, a, b);
    }
  }

  // ---------- what a reconcile stores ----------

  // The Pods that have no node yet, in the order of the list.
  function Unbound(pods: seq<Pod>): seq<Pod>
  {
    if pods == [] then []
    else (if pods[0].spec.nodeName == "" then [pods[0]] else []) + Unbound(pods[1..])
  }

  // The Pod as it was listed, but for its node.
  predicate IsStoredOn(live: Objects, pod: Pod, nodeName: string)
  {
    var key := Key(PodKind, pod.meta.name);
    && key in live && live[key].value.PodObject?
    && var stored := live[key].value.pod;
       && stored.spec.nodeName == nodeName && stored.meta == pod.meta && stored.status == pod.status
       && stored.spec.containers == pod.spec.containers && stored.spec.hostNetwork == pod.spec.hostNetwork
  }

  lemma BindIsStored(log: seq<Write<Object>>, pod: Pod, node: Node)
    requires Sound(log)
    ensures var after := Live(AfterExchange(log, BindRequest(pod, node), Delivered));
      ReplyTo(log, BindRequest(pod, node), Delivered).Ok? ==> IsStoredOn(after, pod, node.meta.name)
    ensures RequestKey(BindRequest(pod, node)) == Key(PodKind, pod.meta.name)
  {
    hide Sound, Live, Attempt;
    if Attempt(Live(log), BindRequest(pod, node)).Success? {
      AcceptedRequestsAreServed(log, BindRequest(pod, node));
    }
  }

  lemma {:induction false} UnboundArePods(pods: seq<Pod>, pod: Pod)
    ensures pod in Unbound(pods) <==> pod in pods && pod.spec.nodeName == ""
  {
    if pods != [] {
      assert pods == [pods[0]] + pods[1..];
      UnboundArePods(pods[1..], pod);
    }
  }

  // Binding leaves every other key alone, whatever the network does.
  lemma {:induction false} BindsKeepOtherKeys(log: seq<Write<Object>>, faults: seq<Fault>, nodes: seq<Node>,
                                              pods: seq<Pod>, cursor: nat, key: Key)
    requires Sound(log) && forall pod :: pod in pods && pod.spec.nodeName == "" ==> Key(PodKind, pod.meta.name) != key
    ensures var after := BindAll(log, faults, nodes, pods, cursor).outcome.log;
      Sound(after) && SameEntry(Live(log), Live(after), key)
    decreases |pods|
  {
    hide Sound, Live, BindRequest, ReplyTo, AfterExchange, NextReady, BindAll;
    if pods == [] {
      NothingToBind(log, faults, nodes, cursor);
    } else {
      assert pods == [pods[0]] + pods[1..];
      BindAllStep(log, faults, nodes, pods, cursor);
      var found := NextReady(nodes, cursor);
      if pods[0].spec.nodeName != "" {
        BindsKeepOtherKeys(log, faults, nodes, pods[1..], cursor, key);
      } else if found.Some? {
        assert pods[0] in pods;
        var request, fault := BindRequest(pods[0], nodes[found.value]), HeadFault(faults);
        BindIsStored(log, pods[0], nodes[found.value]);
        ExchangeKeepsSoundness(log, request, fault);
        ExchangeKeepsOtherKeys(log, request, fault, key);
        BindsKeepOtherKeys(AfterExchange(log, request, fault), TailFaults(faults), nodes, pods[1..],
                           Advanced(nodes, found.value), key);
      }
    }
  }

  lemma FirstIsNotAmongTheRest(pods: seq<Pod>)
    requires SortedPods(pods) && pods != []
    ensures forall pod :: pod in pods[1..] ==> Key(PodKind, pod.meta.name) != Key(PodKind, pods[0].meta.name)
    ensures SortedPods(pods[1..])
  {
    forall i | 1 <= i < |pods| ensures pods[i].meta.name != pods[0].meta.name {
      LessIsAsymmetric(pods[0].meta.name, pods[i].meta.name);
    }
  }

  lemma SameEntryStaysStored(before: Objects, after: Objects, pod: Pod, nodeName: string)
    requires IsStoredOn(before, pod, nodeName) && SameEntry(before, after, Key(PodKind, pod.meta.name))
    ensures IsStoredOn(after, pod, nodeName)
  {
  }

  // Whatever the network does, from lists of any age: the Pod of the k-th bind that is
  // acknowledged is the k-th of the list that had no node, and it is stored on the node that
  // was picked for it, otherwise as it was listed.
  lemma {:induction false} BindsAreStored(log: seq<Write<Object>>, faults: seq<Fault>, nodes: seq<Node>,
                                          pods: seq<Pod>, cursor: nat, k: nat)
    requires Sound(log) && SortedPods(pods)
    requires k < |BindAll(log, faults, nodes, pods, cursor).picks|
    ensures var bound := BindAll(log, faults, nodes, pods, cursor);
      && k < |Unbound(pods)| && bound.picks[k] < |nodes| && nodes[bound.picks[k]].phase == NodeReady
      && IsStoredOn(Live(bound.outcome.log), Unbound(pods)[k], nodes[bound.picks[k]].meta.name)
    decreases |pods|
  {
    hide Sound, Live, BindRequest, ReplyTo, AfterExchange, NextReady, BindAll, IsStoredOn, Search;
    if pods == [] {
      NothingToBind(log, faults, nodes, cursor);
    } else {
      BindAllStep(log, faults, nodes, pods, cursor);
      FirstIsNotAmongTheRest(pods);
      var found := NextReady(nodes, cursor);
      if pods[0].spec.nodeName != "" {
        BindsAreStored(log, faults, nodes, pods[1..], cursor, k);
      } else if found.Some? {
        var node, fault := nodes[found.value], HeadFault(faults);
        var request := BindRequest(pods[0], node);
        var after := AfterExchange(log, request, fault);
        ExchangeKeepsSoundness(log, request, fault);
        OnlyDeliveredIsOk(log, request, fault);
        BindIsStored(log, pods[0], node);
        if k > 0 {
          BindsAreStored(after, TailFaults(faults), nodes, pods[1..], Advanced(nodes, found.value), k - 1);
        } else {
          var end := BindAll(after, TailFaults(faults), nodes, pods[1..], Advanced(nodes, found.value)).outcome.log;
          BindsKeepOtherKeys(after, TailFaults(faults), nodes, pods[1..], Advanced(nodes, found.value),
                             Key(PodKind, pods[0].meta.name));
          SameEntryStaysStored(Live(after), Live(end), pods[0], node.meta.name);
        }
      }
    }
  }

  lemma OnlyDeliveredIsOk(log: seq<Write<Object>>, request: Request, fault: Fault)
    ensures ReplyTo(log, request, fault).Ok? ==> fault == Delivered
  {
  }

  // What a reconcile changes, acknowledged or not: Pods of the list that had no node, each
  // stored on a listed Ready node and otherwise as it was listed.
  ghost predicate OnlyBinds(before: Objects, after: Objects, nodes: seq<Node>, pods: seq<Pod>)
  {
    forall key :: SameEntry(before, after, key) || IsBoundAt(after, nodes, pods, key)
  }

  ghost predicate IsBoundAt(after: Objects, nodes: seq<Node>, pods: seq<Pod>, key: Key)
  {
    exists pod, node :: pod in pods && pod.spec.nodeName == "" && key == Key(PodKind, pod.meta.name) &&
      node in nodes && node.phase == NodeReady && IsStoredOn(after, pod, node.meta.name)
  }

  lemma OneBindOnlyBinds(log: seq<Write<Object>>, pod: Pod, node: Node, fault: Fault, key: Key)
    requires Sound(log) && pod.spec.nodeName == "" && node.phase == NodeReady
    ensures var after := Live(AfterExchange(log, BindRequest(pod, node), fault));
      SameEntry(Live(log), after, key) || IsBoundAt(after, [node], [pod], key)
  {
    hide Sound, Live, Attempt;
    var request := BindRequest(pod, node);
    if Attempt(Live(log), request).Success? {
      AcceptedRequestsAreServed(log, request);
      assert pod in [pod] && node in [node];
    }
  }

  lemma BoundAmongMore(after: Objects, node: Node, nodes: seq<Node>, pods: seq<Pod>, key: Key)
    requires pods != [] && node in nodes
    ensures IsBoundAt(after, [node], [pods[0]], key) || IsBoundAt(after, nodes, pods[1..], key) ==>
      IsBoundAt(after, nodes, pods, key)
  {
    hide IsStoredOn;
    assert pods == [pods[0]] + pods[1..];
  }

  lemma {:induction false} ReconcilesOnlyBind(log: seq<Write<Object>>, faults: seq<Fault>, nodes: seq<Node>,
                                              pods: seq<Pod>, cursor: nat, key: Key)
    requires Sound(log) && SortedPods(pods)
    ensures var after := Live(BindAll(log, faults, nodes, pods, cursor).outcome.log);
      SameEntry(Live(log), after, key) || IsBoundAt(after, nodes, pods, key)
    decreases |pods|
  {
    hide Sound, Live, BindRequest, ReplyTo, AfterExchange, NextReady, BindAll, IsBoundAt, Search;
    if pods == [] {
      NothingToBind(log, faults, nodes, cursor);
    } else {
      BindAllStep(log, faults, nodes, pods, cursor);
      FirstIsNotAmongTheRest(pods);
      var found := NextReady(nodes, cursor);
      if pods[0].spec.nodeName != "" {
        ReconcilesOnlyBind(log, faults, nodes, pods[1..], cursor, key);
        if nodes != [] {
          BoundAmongMore(Live(BindAll(log, faults, nodes, pods, cursor).outcome.log), nodes[0], nodes, pods, key);
        } else {
          NoNodesNoBinds(Live(BindAll(log, faults, nodes, pods, cursor).outcome.log), pods[1..], key);
        }
      } else if found.Some? {
        var node, fault := nodes[found.value], HeadFault(faults);
        var middle := AfterExchange(log, BindRequest(pods[0], node), fault);
        var next := Advanced(nodes, found.value);
        ExchangeKeepsSoundness(log, BindRequest(pods[0], node), fault);
        OneBindOnlyBinds(log, pods[0], node, fault, key);
        BoundAmongMore(Live(middle), node, nodes, pods, key);
        if ReplyTo(log, BindRequest(pods[0], node), fault).Ok? {
          var end := BindAll(middle, TailFaults(faults), nodes, pods[1..], next).outcome.log;
          ReconcilesOnlyBind(middle, TailFaults(faults), nodes, pods[1..], next, key);
          BoundAmongMore(Live(end), node, nodes, pods, key);
          SameEntryStaysBound(Live(middle), Live(end), nodes, pods, key);
        }
      }
    }
  }

  lemma NoNodesNoBinds(after: Objects, pods: seq<Pod>, key: Key)
    ensures !IsBoundAt(after, [], pods, key)
  {
  }

  lemma SameEntryStaysBound(before: Objects, after: Objects, nodes: seq<Node>, pods: seq<Pod>, key: Key)
    ensures IsBoundAt(before, nodes, pods, key) && SameEntry(before, after, key) ==> IsBoundAt(after, nodes, pods, key)
  {
    if IsBoundAt(before, nodes, pods, key) && SameEntry(before, after, key) {
      var pod, node :| pod in pods && pod.spec.nodeName == "" && key == Key(PodKind, pod.meta.name) &&
        node in nodes && node.phase == NodeReady && IsStoredOn(before, pod, node.meta.name);
      SameEntryStaysStored(before, after, pod, node.meta.name);
    }
  }

  lemma ReconcileOnlyBinds(log: seq<Write<Object>>, faults: seq<Fault>, nodes: seq<Node>, pods: seq<Pod>, cursor: nat)
    requires Sound(log) && SortedPods(pods)
    ensures OnlyBinds(Live(log), Live(BindAll(log, faults, nodes, pods, cursor).outcome.log), nodes, pods)
  {
    hide Sound, Live, BindAll, IsBoundAt, SameEntry;
    forall key
      ensures var after := Live(BindAll(log, faults, nodes, pods, cursor).outcome.log);
        SameEntry(Live(log), after, key) || IsBoundAt(after, nodes, pods, key)
    {
      ReconcilesOnlyBind(log, faults, nodes, pods, cursor, key);
    }
  }

  // The Pod of the k-th acknowledged bind is stored on the k-th node picked.
  ghost predicate PicksAreStored(after: Objects, nodes: seq<Node>, pods: seq<Pod>, picks: seq<nat>)
  {
    && |picks| <= |Unbound(pods)|
    && forall k :: 0 <= k < |picks| ==>
         && picks[k] < |nodes| && nodes[picks[k]].phase == NodeReady
         && IsStoredOn(after, Unbound(pods)[k], nodes[picks[k]].meta.name)
  }

  lemma ReconcileStoresItsPicks(log: seq<Write<Object>>, faults: seq<Fault>, nodes: seq<Node>, pods: seq<Pod>,
                                cursor: nat)
    requires Sound(log) && SortedPods(pods)
    ensures var bound := BindAll(log, faults, nodes, pods, cursor);
      PicksAreStored(Live(bound.outcome.log), nodes, pods, bound.picks)
  {
    hide Sound, Live, BindAll, IsStoredOn, SortedPods;
    BindsAreOfUnbound(log, faults, nodes, pods, cursor);
    var bound := BindAll(log, faults, nodes, pods, cursor);
    forall k | 0 <= k < |bound.picks|
      ensures bound.picks[k] < |nodes| && nodes[bound.picks[k]].phase == NodeReady
      ensures IsStoredOn(Live(bound.outcome.log), Unbound(pods)[k], nodes[bound.picks[k]].meta.name)
    {
      BindsAreStored(log, faults, nodes, pods, cursor, k);
    }
  }

  function StoredNode(live: Objects, name: string): string
  {
    var key := Key(PodKind, name);
    if key in live && live[key].value.PodObject? then live[key].value.pod.spec.nodeName else ""
  }

  // The nodes that are stored with the first `count` of the Pods.
  function StoredNodes(live: Objects, pods: seq<Pod>, count: nat): seq<string>
    requires count <= |pods|
  {
    if count == 0 then [] else StoredNodes(live, pods, count - 1) + [StoredNode(live, pods[count - 1].meta.name)]
  }

  lemma {:induction false} StoredNodesAt(live: Objects, pods: seq<Pod>, count: nat, k: nat)
    requires k < count <= |pods|
    ensures |StoredNodes(live, pods, count)| == count
    ensures StoredNodes(live, pods, count)[k] == StoredNode(live, pods[k].meta.name)
  {
    if count > 1 {
      StoredNodesAt(live, pods, count - 1, if k < count - 1 then k else 0);
    }
  }

  ghost predicate VisitsAreSound(visits: seq<Visit>)
  {
    forall v :: 0 <= v < |visits| ==> Sound(visits[v].log) && SortedPods(visits[v].pods)
  }

  // What the store shows, after each reconcile, of the Pods it has bound.
  ghost function VisitNodes(nodes: seq<Node>, cursor: nat, visits: seq<Visit>): seq<string>
    requires VisitsAreSound(visits)
    decreases |visits|
  {
    if visits == [] then []
    else
      var bound := BindAll(visits[0].log, visits[0].faults, nodes, visits[0].pods, cursor);
      assert Sound(visits[0].log) && SortedPods(visits[0].pods);
      BindsAreOfUnbound(visits[0].log, visits[0].faults, nodes, visits[0].pods, cursor);
      StoredNodes(Live(bound.outcome.log), Unbound(visits[0].pods), |bound.picks|) +
      VisitNodes(nodes, bound.cursor, visits[1..])
  }

  lemma BindsAreOfUnbound(log: seq<Write<Object>>, faults: seq<Fault>, nodes: seq<Node>, pods: seq<Pod>, cursor: nat)
    requires Sound(log) && SortedPods(pods)
    ensures |BindAll(log, faults, nodes, pods, cursor).picks| <= |Unbound(pods)|
  {
    var n := |BindAll(log, faults, nodes, pods, cursor).picks|;
    if n > 0 {
      BindsAreStored(log, faults, nodes, pods, cursor, n - 1);
    }
  }

  lemma {:induction false} StoredAsPicked(nodes: seq<Node>, cursor: nat, visits: seq<Visit>, k: nat)
    requires VisitsAreSound(visits)
    ensures |VisitNodes(nodes, cursor, visits)| == |VisitPicks(nodes, cursor, visits)|
    ensures k < |VisitPicks(nodes, cursor, visits)| ==>
      var pick := VisitPicks(nodes, cursor, visits)[k];
      && pick < |nodes| && nodes[pick].phase == NodeReady
      && VisitNodes(nodes, cursor, visits)[k] == nodes[pick].meta.name
    decreases |visits|
  {
    hide Sound, Live, BindAll, IsStoredOn, SortedPods;
    if visits != [] {
      var visit := visits[0];
      var bound := BindAll(visit.log, visit.faults, nodes, visit.pods, cursor);
      assert Sound(visit.log) && SortedPods(visit.pods);
      BindsAreOfUnbound(visit.log, visit.faults, nodes, visit.pods, cursor);
      var live, pods, n := Live(bound.outcome.log), Unbound(visit.pods), |bound.picks|;
      StoredAsPicked(nodes, bound.cursor, visits[1..], if k < n then 0 else k - n);
      if k < n {
        BindsAreStored(visit.log, visit.faults, nodes, visit.pods, cursor, k);
        StoredNodesAt(live, pods, n, k);
        StoredOnIsStored(live, pods[k], nodes[bound.picks[k]].meta.name);
      } else if n > 0 {
        StoredNodesAt(live, pods, n, 0);
      }
    }
  }

  lemma StoredOnIsStored(live: Objects, pod: Pod, nodeName: string)
    requires IsStoredOn(live, pod, nodeName)
    ensures StoredNode(live, pod.meta.name) == nodeName
  {
  }

  function NameTimes(names: seq<string>, name: string): nat
  {
    if names == [] then 0 else NameTimes(names[..|names| - 1], name) + if names[|names| - 1] == name then 1 else 0
  }

  predicate NamesDiffer(nodes: seq<Node>)
  {
    forall i, j :: 0 <= i < j < |nodes| ==> nodes[i].meta.name != nodes[j].meta.name
  }

  lemma {:induction false} TimesByName(nodes: seq<Node>, picks: seq<nat>, names: seq<string>, i: nat)
    requires NamesDiffer(nodes) && i < |nodes| && |names| == |picks|
    requires forall k :: 0 <= k < |picks| ==> picks[k] < |nodes| && names[k] == nodes[picks[k]].meta.name
    ensures NameTimes(names, nodes[i].meta.name) == Times(picks, i)
  {
    if picks != [] {
      var n := |picks| - 1;
      TimesByName(nodes, picks[..n], names[..n], i);
      assert names[n] == nodes[picks[n]].meta.name;
      if picks[n] != i {
        assert if picks[n] < i then nodes[picks[n]].meta.name != nodes[i].meta.name
               else nodes[i].meta.name != nodes[picks[n]].meta.name;
      }
    }
  }

  // The balance as the store shows it, over any reconciles from any cursor with any Pods, any
  // network trouble and failed binds in between: the acknowledged binds have put Pods on Ready
  // nodes only, on any two of them equally often up to one, and on different ones as long as
  // there are fewer than there are Ready nodes.
  lemma StoredBindsStayBalanced(nodes: seq<Node>, cursor: nat, visits: seq<Visit>, i: nat, j: nat)
    requires SomeReady(nodes) && NamesDiffer(nodes) && VisitsAreSound(visits)
    requires i < |nodes| && j < |nodes| && nodes[i].phase == NodeReady
    ensures var names := VisitNodes(nodes, cursor, visits);
      && (nodes[j].phase == NodeReady ==>
            NameTimes(names, nodes[i].meta.name) <= NameTimes(names, nodes[j].meta.name) + 1)
      && (nodes[j].phase != NodeReady ==> NameTimes(names, nodes[j].meta.name) == 0)
      && (forall a :: 0 <= a < |names| ==>
            exists r :: 0 <= r < |nodes| && nodes[r].phase == NodeReady && nodes[r].meta.name == names[a])
      && (forall a, b :: 0 <= a < b < |names| && b < a + ReadyCount(nodes) ==> names[a] != names[b])
  {
    hide VisitPicks, VisitNodes, Times, NameTimes, ReadyCount, VisitsAreSound;
    var picks, names := VisitPicks(nodes, cursor, visits), VisitNodes(nodes, cursor, visits);
    StoredAsPicked(nodes, cursor, visits, 0);
    forall k | 0 <= k < |picks|
      ensures picks[k] < |nodes| && nodes[picks[k]].phase == NodeReady && names[k] == nodes[picks[k]].meta.name
    {
      StoredAsPicked(nodes, cursor, visits, k);
    }
    BindsStayBalanced(nodes, cursor, visits, i, j);
    TimesByName(nodes, picks, names, i);
    TimesByName(nodes, picks, names, j);
    forall a, b | 0 <= a < b < |names| && b < a + ReadyCount(nodes) ensures names[a] != names[b] {
      assert picks[a] != picks[b];
      assert if picks[a] < picks[b] then names[a] != names[b] else names[b] != names[a];
    }
  }

  // ---------- the scheduler ----------

  method NextReadyNode(nodes: seq<Node>, start: nat) returns (found: Option<nat>, next: nat)
    ensures found == NextReady(nodes, start)
    ensures next == if found.Some? then Advanced(nodes, found.value) else if nodes == [] then 0 else start
  {
    if nodes == [] {
      return None, 0;
    }
    var offset := 0;
    while offset < |nodes|
      invariant offset <= |nodes| && Search(nodes, start, offset) == Search(nodes, start, 0)
    {
      var index := Cyclic(start, offset, |nodes|);
      if IsReady(nodes[index]) {
        return Some(index), Cyclic(index, 1, |nodes|);
      }
      offset := offset + 1;
    }
    return None, start;
  }

  class Scheduler {
    const client: Client
    var nextNode: nat

    constructor (client: Client)
      ensures this.client == client && nextNode == 0
    {
      this.client, nextNode := client, 0;
    }

    method Reconcile() returns (ok: bool, ghost picks: seq<nat>)
      requires client.Valid()
      modifies this, client, client.server.etcd
      ensures client.Valid()
      ensures WellTyped(Live(old(client.server.etcd.log)))
      ensures var live := Live(old(client.server.etcd.log));
        Bound(Outcome(client.server.etcd.log, client.faults, ok), nextNode, picks) ==
        BindAll(old(client.server.etcd.log), old(client.faults), ListNodes(live), ListPods(live), old(nextNode))
      ensures var live := Live(old(client.server.etcd.log));
        && OnlyBinds(live, Live(client.server.etcd.log), ListNodes(live), ListPods(live))
        && PicksAreStored(Live(client.server.etcd.log), ListNodes(live), ListPods(live), picks)
    {
      hide OnlyBinds, PicksAreStored, BindAll;
      var nodeItems := client.server.List(NodeKind);
      var podItems := client.server.List(PodKind);
      ReconcileOnlyBinds(client.server.etcd.log, client.faults, NodesOf(nodeItems), PodsOf(podItems), nextNode);
      ReconcileStoresItsPicks(client.server.etcd.log, client.faults, NodesOf(nodeItems), PodsOf(podItems), nextNode);
      ok, picks := Bind(NodesOf(nodeItems), PodsOf(podItems));
    }

    method Bind(nodes: seq<Node>, pods: seq<Pod>) returns (ok: bool, ghost picks: seq<nat>)
      requires client.Valid()
      modifies this, client, client.server.etcd
      ensures client.Valid()
      ensures Bound(Outcome(client.server.etcd.log, client.faults, ok), nextNode, picks) ==
              BindAll(old(client.server.etcd.log), old(client.faults), nodes, pods, old(nextNode))
    {
      hide BindAll, Attempt, Live, AfterExchange, ReplyTo, NextReady, Advanced, Sound;
      picks := [];
      ghost var whole := BindAll(client.server.etcd.log, client.faults, nodes, pods, nextNode);
      for index := 0 to |pods|
        invariant client.Valid()
        invariant whole == Onward(picks, BindAll(client.server.etcd.log, client.faults, nodes, pods[index..], nextNode))
      {
        assert pods[index..][0] == pods[index] && pods[index..][1..] == pods[index + 1..];
        var pod := pods[index];
        BindAllStep(client.server.etcd.log, client.faults, nodes, pods[index..], nextNode);
        if pod.spec.nodeName != "" {
          continue;
        }
        var found, next := NextReadyNode(nodes, nextNode);
        if found.None? {
          return true, picks;
        }
        var reply := client.Send(BindRequest(pod, nodes[found.value]));
        if !reply.Ok? {
          return false, picks;
        }
        nextNode := next;
        picks := picks + [found.value];
      }
      NothingToBind(client.server.etcd.log, client.faults, nodes, nextNode);
      assert pods[|pods|..] == [];
      ok := true;
    }
  }

  function Onward(picks: seq<nat>, rest: Bound): Bound { rest.(picks := picks + rest.picks) }

  lemma NothingToBind(log: seq<Write<Object>>, faults: seq<Fault>, nodes: seq<Node>, cursor: nat)
    ensures BindAll(log, faults, nodes, [], cursor) == Bound(Outcome(log, faults, true), cursor, [])
  {
  }

  lemma BindAllStep(log: seq<Write<Object>>, faults: seq<Fault>, nodes: seq<Node>, pods: seq<Pod>, cursor: nat)
    requires pods != []
    ensures var all, found := BindAll(log, faults, nodes, pods, cursor), NextReady(nodes, cursor);
      if pods[0].spec.nodeName != "" then all == BindAll(log, faults, nodes, pods[1..], cursor)
      else if found.None? then all == Bound(Outcome(log, faults, true), cursor, [])
      else
        var request, fault := BindRequest(pods[0], nodes[found.value]), HeadFault(faults);
        var after := AfterExchange(log, request, fault);
        all == if ReplyTo(log, request, fault).Ok?
          then Onward([found.value], BindAll(after, TailFaults(faults), nodes, pods[1..], Advanced(nodes, found.value)))
          else Bound(Outcome(after, TailFaults(faults), false), cursor, [])
  {
  }
}
