// The watch/reconcile loop: one goroutine of Run, two for each watched kind, channels with one
// slot, and a store that changes under them. One step is one atomic action of one goroutine.
module WatchLoop {
  import opened Text
  import opened Etcd

  // ---------- the state ----------

  // Where the event of one watch is on its way to Run: still in the stream, in the slot that
  // WatchErrors fills (or closes), taken by the goroutine of CombineWatches, sent by it into
  // the common slot, and done.
  datatype Stage = Unopened | Streaming(from: nat) | Delivered | Taken | Sent | Finished

  // Where Run is: opening the watch of kind number `next` (having made the list it starts
  // from, or not), in Reconcile, in the select, waiting to retry, or over. `listed` says at
  // which lengths of the log Reconcile made its lists.
  datatype Phase =
    | Opening(next: nat, listedAt: Option<nat>)
    | Reconciling(listed: map<nat, nat>)
    | Waiting(listed: map<nat, nat>)
    | Retrying
    | Returned

  // `full` is the common one-slot channel, `cancelled` the context of this generation of
  // watches. Every generation has its own of both.
  datatype State<+V> = State(log: seq<Write<V>>, phase: Phase, stages: seq<Stage>, full: bool, cancelled: bool)

  datatype Step<+V> =
    | StoreWrite(write: Write<V>)
    | ListForWatch | OpenWatch | OpeningFails | AllOpen
    | Deliver(r: nat) | EndStream(r: nat) | Receive(r: nat) | Send(r: nat) | Cancel(r: nat) | Quit(r: nat)
    | ListInReconcile(r: nat) | ReconcileSucceeds | ReconcileFails
    | TakeEvent | RetryTick | Stop

  predicate IsGoroutineStep<V>(step: Step<V>)
  {
    step.Deliver? || step.EndStream? || step.Receive? || step.Send? || step.Cancel? || step.Quit?
  }

  predicate StageIs<V>(s: State<V>, r: nat, stage: Stage) { r < |s.stages| && s.stages[r] == stage }

  predicate IsStreaming<V>(s: State<V>, r: nat) { r < |s.stages| && s.stages[r].Streaming? }

  // The stream of an open watch holds an event.
  predicate HasEvent<V>(kinds: seq<Kind>, s: State<V>, r: nat)
  {
    r < |kinds| && IsStreaming(s, r) && EventsSince(s.log, kinds[r], s.stages[r].from) != []
  }

  predicate Enabled<V>(kinds: seq<Kind>, s: State<V>, step: Step<V>)
  {
    match step
    case StoreWrite(write) => Admits(Live(s.log), write) && ValidName(write.key.name)
    case ListForWatch => s.phase.Opening? && s.phase.listedAt.None? && s.phase.next < |kinds|
    case OpenWatch => s.phase.Opening? && s.phase.listedAt.Some? && s.phase.listedAt.value <= |s.log| &&
      s.phase.next < |s.stages|
    case OpeningFails => s.phase.Opening? && s.phase.next < |kinds|
    case AllOpen => s.phase.Opening? && s.phase.next == |kinds|
    case Deliver(r) => HasEvent(kinds, s, r)
    case EndStream(r) => IsStreaming(s, r)
    case Receive(r) => StageIs(s, r, Delivered)
    case Send(r) => StageIs(s, r, Taken) && !s.full
    case Cancel(r) => StageIs(s, r, Sent)
    case Quit(r) => StageIs(s, r, Taken) && s.cancelled
    case ListInReconcile(r) => s.phase.Reconciling? && r < |kinds|
    case ReconcileSucceeds => s.phase.Reconciling? && forall r :: 0 <= r < |kinds| ==> r in s.phase.listed
    case ReconcileFails => s.phase.Reconciling?
    case TakeEvent => s.phase.Waiting? && s.full
    case RetryTick => s.phase.Retrying?
    case Stop => !s.phase.Returned?
  }

  // The watch goes on from the revision of the list. Revision 0 would mean "from now on",
  // but no list has it.
  function StreamStart(revision: nat, now: nat): nat
  {
    if revision > 0 then revision - 1 else now
  }

  function NewGeneration<V>(kinds: seq<Kind>, s: State<V>): State<V>
  {
    State(s.log, Opening(0, None), seq(|kinds|, _ => Unopened), false, false)
  }

  function Moved<V>(s: State<V>, r: nat, stage: Stage): State<V>
    requires r < |s.stages|
  {
    s.(stages := s.stages[r := stage])
  }

  function Next<V>(kinds: seq<Kind>, s: State<V>, step: Step<V>): State<V>
    requires Enabled(kinds, s, step)
  {
    match step
    case StoreWrite(write) => s.(log := s.log + [write])
    case ListForWatch => s.(phase := s.phase.(listedAt := Some(|s.log|)))
    case OpenWatch =>
      var r := s.phase.next;
      var since := Revision(s.log[..s.phase.listedAt.value]);
      Moved(s, r, Streaming(StreamStart(since, |s.log|))).(phase := Opening(r + 1, None))
    case OpeningFails => s.(phase := Retrying, cancelled := true)
    case AllOpen => s.(phase := Reconciling(map[]))
    case Deliver(r) => Moved(s, r, Delivered)
    case EndStream(r) => Moved(s, r, Delivered)
    case Receive(r) => Moved(s, r, Taken)
    case Send(r) => Moved(s, r, Sent).(full := true)
    case Cancel(r) => Moved(s, r, Finished).(cancelled := true)
    case Quit(r) => Moved(s, r, Finished)
    case ListInReconcile(r) => s.(phase := Reconciling(s.phase.listed[r := |s.log|]))
    case ReconcileSucceeds => s.(phase := Waiting(s.phase.listed))
    case ReconcileFails => s.(phase := Retrying)
    case TakeEvent => NewGeneration(kinds, s)
    case RetryTick => NewGeneration(kinds, s)
    case Stop => s.(phase := Returned, cancelled := true)
  }

  predicate IsTrace<V>(kinds: seq<Kind>, s: State<V>, steps: seq<Step<V>>)
    decreases |steps|
  {
    steps == [] || (Enabled(kinds, s, steps[0]) && IsTrace(kinds, Next(kinds, s, steps[0]), steps[1..]))
  }

  function After<V>(kinds: seq<Kind>, s: State<V>, steps: seq<Step<V>>): State<V>
    requires IsTrace(kinds, s, steps)
    decreases |steps|
  {
    if steps == [] then s else After(kinds, Next(kinds, s, steps[0]), steps[1..])
  }

  // ---------- the invariant ----------

  ghost predicate StoreOk<V>(log: seq<Write<V>>) { Accepted(log) && NamesAreValid(log) }

  // A list in Reconcile is never older than the start of the stream of its kind.
  predicate WatchedBeforeListed(stages: seq<Stage>, listed: map<nat, nat>, now: nat)
  {
    forall r :: r in listed && r < |stages| && stages[r].Streaming? ==> stages[r].from <= listed[r] <= now
  }

  // Nothing is lost between the goroutines: a sent event is in the slot as long as this
  // generation lasts, and only a sent event cancels it.
  predicate NothingLost<V>(s: State<V>)
  {
    && (s.cancelled ==> s.full)
    && (forall r :: 0 <= r < |s.stages| && s.stages[r].Sent? ==> s.full)
    && (forall r :: 0 <= r < |s.stages| && s.stages[r].Finished? ==> s.cancelled)
  }

  predicate OpenedUpTo<V>(s: State<V>, next: nat)
  {
    && next <= |s.stages|
    && (forall r :: 0 <= r < next ==> !s.stages[r].Unopened?)
    && (forall r :: next <= r < |s.stages| ==> s.stages[r].Unopened?)
    && (forall r :: 0 <= r < next && s.stages[r].Streaming? ==> s.stages[r].from <= |s.log|)
  }

  ghost predicate Inv<V>(kinds: seq<Kind>, s: State<V>)
  {
    && StoreOk(s.log) && |s.stages| == |kinds|
    && match s.phase
       case Opening(next, listedAt) =>
         NothingLost(s) && OpenedUpTo(s, next) && (listedAt.Some? ==> next < |kinds| && listedAt.value <= |s.log|)
       case Reconciling(listed) =>
         NothingLost(s) && OpenedUpTo(s, |kinds|) && WatchedBeforeListed(s.stages, listed, |s.log|) &&
           ListedInThePast(s, listed)
       case Waiting(listed) =>
         NothingLost(s) && OpenedUpTo(s, |kinds|) && WatchedBeforeListed(s.stages, listed, |s.log|) &&
           ListedInThePast(s, listed) &&
         forall r :: 0 <= r < |kinds| ==> r in listed
       case _ => true
  }

  predicate ListedInThePast<V>(s: State<V>, listed: map<nat, nat>)
  {
    forall r :: r in listed ==> listed[r] <= |s.log|
  }

  lemma InvAtTheStart<V>(kinds: seq<Kind>, s: State<V>)
    requires StoreOk(s.log)
    ensures Inv(kinds, NewGeneration(kinds, s))
  {
  }

  lemma WritesKeepTheStoreOk<V>(log: seq<Write<V>>, write: Write<V>)
    requires StoreOk(log) && Admits(Live(log), write) && ValidName(write.key.name)
    ensures StoreOk(log + [write])
  {
    AcceptedExtends(log, write);
  }

  // What an event on its way leaves of the invariant.
  lemma MovingOnKeepsInv<V>(kinds: seq<Kind>, s: State<V>, r: nat, stage: Stage, full: bool, cancelled: bool)
    requires Inv(kinds, s) && r < |s.stages| && !s.stages[r].Unopened? && !stage.Unopened? && !stage.Streaming?
    requires (s.full ==> full) && (s.cancelled ==> cancelled)
    requires NothingLost(s) ==> NothingLost(Moved(s, r, stage).(full := full, cancelled := cancelled))
    ensures Inv(kinds, Moved(s, r, stage).(full := full, cancelled := cancelled))
  {
    hide StoreOk, NothingLost;
  }

  lemma SendingLosesNothing<V>(s: State<V>, r: nat)
    requires r < |s.stages| && NothingLost(s)
    ensures NothingLost(Moved(s, r, Sent).(full := true))
    ensures s.stages[r].Sent? ==> NothingLost(Moved(s, r, Finished).(cancelled := true))
    ensures s.cancelled ==> NothingLost(Moved(s, r, Finished))
    ensures NothingLost(Moved(s, r, Delivered)) && NothingLost(Moved(s, r, Taken))
  {
  }

  lemma GoroutineStepKeepsInv<V>(kinds: seq<Kind>, s: State<V>, step: Step<V>)
    requires Inv(kinds, s) && Enabled(kinds, s, step) && IsGoroutineStep(step)
    ensures Inv(kinds, Next(kinds, s, step))
  {
    hide EventsSince, Inv, NothingLost;
    var next := Next(kinds, s, step);
    if NothingLost(s) {
      SendingLosesNothing(s, step.r);
    }
    MovingOnKeepsInv(kinds, s, step.r, next.stages[step.r], next.full, next.cancelled);
    assert next == Moved(s, step.r, next.stages[step.r]).(full := next.full, cancelled := next.cancelled);
  }

  lemma OpeningKeepsInv<V>(kinds: seq<Kind>, s: State<V>, step: Step<V>)
    requires Inv(kinds, s) && Enabled(kinds, s, step) && s.phase.Opening? && !step.StoreWrite? && !IsGoroutineStep(step)
    ensures Inv(kinds, Next(kinds, s, step))
  {
    hide StoreOk;
  }

  lemma ReconcilingKeepsInv<V>(kinds: seq<Kind>, s: State<V>, step: Step<V>)
    requires Inv(kinds, s) && Enabled(kinds, s, step) && !s.phase.Opening? && !step.StoreWrite?
    requires !IsGoroutineStep(step)
    ensures Inv(kinds, Next(kinds, s, step))
  {
    hide StoreOk;
  }

  lemma WritingKeepsInv<V>(kinds: seq<Kind>, s: State<V>, write: Write<V>)
    requires Inv(kinds, s) && Enabled(kinds, s, StoreWrite(write))
    ensures Inv(kinds, s.(log := s.log + [write]))
  {
    WritesKeepTheStoreOk(s.log, write);
    hide StoreOk;
  }

  lemma StepKeepsInv<V>(kinds: seq<Kind>, s: State<V>, step: Step<V>)
    requires Inv(kinds, s) && Enabled(kinds, s, step)
    ensures Inv(kinds, Next(kinds, s, step))
  {
    hide EventsSince, StoreOk, NothingLost;
    if step.StoreWrite? {
      WritingKeepsInv(kinds, s, step.write);
    } else if IsGoroutineStep(step) {
      GoroutineStepKeepsInv(kinds, s, step);
    } else if s.phase.Opening? {
      OpeningKeepsInv(kinds, s, step);
    } else {
      ReconcilingKeepsInv(kinds, s, step);
    }
  }

  lemma {:induction false} TracesKeepInv<V>(kinds: seq<Kind>, s: State<V>, steps: seq<Step<V>>)
    requires Inv(kinds, s) && IsTrace(kinds, s, steps)
    ensures Inv(kinds, After(kinds, s, steps))
    decreases |steps|
  {
    hide Inv, Enabled, Next;
    if steps != [] {
      StepKeepsInv(kinds, s, steps[0]);
      TracesKeepInv(kinds, Next(kinds, s, steps[0]), steps[1..]);
    }
  }

  // ---------- no change is missed ----------

  // Something of the kind has been written since Reconcile listed it.
  predicate Changed<V>(kinds: seq<Kind>, s: State<V>, r: nat)
    requires s.phase.Waiting? && r < |kinds| && r in s.phase.listed
  {
    EventsSince(s.log, kinds[r], s.phase.listed[r]) != []
  }

  // No event is buffered or on its way.
  predicate NothingInTransit<V>(kinds: seq<Kind>, s: State<V>)
  {
    && !s.full
    && (forall r :: 0 <= r < |s.stages| ==> !s.stages[r].Delivered? && !s.stages[r].Taken? && !HasEvent(kinds, s, r))
  }

  lemma {:induction false} LaterStreamsHoldLess<V>(log: seq<Write<V>>, kind: Kind, from: nat, to: nat)
    requires from <= to
    ensures EventsSince(log, kind, to) != [] ==> EventsSince(log, kind, from) != []
  {
    if to < |log| {
      LaterStreamsHoldLess(log[..|log| - 1], kind, from, to);
    }
  }

  lemma NoEventsNoChange<V>(log: seq<Write<V>>, kind: Kind, at: nat)
    requires StoreOk(log) && at <= |log| && EventsSince(log, kind, at) == []
    ensures Listed(log[..at], kind) == Listed(log, kind)
  {
    ListPlusWatchIsALaterList(log, kind, at);
  }

  // No lost wakeup. In every interleaving of Run, the watch goroutines and the store: when
  // Run is in its select and no event is buffered or in transit, the last Reconcile listed
  // exactly what is in the store now.
  lemma BlockedMeansUpToDate<V>(kinds: seq<Kind>, start: State<V>, steps: seq<Step<V>>, r: nat)
    requires StoreOk(start.log) && IsTrace(kinds, NewGeneration(kinds, start), steps) && r < |kinds|
    requires var s := After(kinds, NewGeneration(kinds, start), steps); s.phase.Waiting? && NothingInTransit(kinds, s)
    ensures var s := After(kinds, NewGeneration(kinds, start), steps);
      && r in s.phase.listed && s.phase.listed[r] <= |s.log|
      && Listed(s.log[..s.phase.listed[r]], kinds[r]) == Listed(s.log, kinds[r])
  {
    hide Enabled, Next, After, IsTrace, Listed, EventsSince;
    InvAtTheStart(kinds, start);
    TracesKeepInv(kinds, NewGeneration(kinds, start), steps);
    var s := After(kinds, NewGeneration(kinds, start), steps);
    QuietStreams(kinds, s, r);
    NoEventsNoChange(s.log, kinds[r], s.phase.listed[r]);
  }

  lemma QuietStreams<V>(kinds: seq<Kind>, s: State<V>, r: nat)
    requires Inv(kinds, s) && s.phase.Waiting? && NothingInTransit(kinds, s) && r < |kinds|
    ensures EventsSince(s.log, kinds[r], s.phase.listed[r]) == []
  {
    hide EventsSince, StoreOk;
    assert s.stages[r].Streaming? && !HasEvent(kinds, s, r);
    LaterStreamsHoldLess(s.log, kinds[r], s.stages[r].from, s.phase.listed[r]);
  }

  // ---------- Run wakes up ----------

  // While Run waits and something has changed, its event is there or some goroutine can go on.
  lemma ChangeIsUnderWay<V>(kinds: seq<Kind>, s: State<V>, r: nat)
    requires Inv(kinds, s) && s.phase.Waiting? && r < |kinds| && Changed(kinds, s, r)
    ensures Enabled(kinds, s, TakeEvent) || Enabled(kinds, s, Deliver(r)) || Enabled(kinds, s, Receive(r)) ||
      Enabled(kinds, s, Send(r))
  {
    hide EventsSince, StoreOk;
    if s.stages[r].Streaming? {
      LaterStreamsHoldLess(s.log, kinds[r], s.stages[r].from, s.phase.listed[r]);
    }
  }

  function Distance(stage: Stage): nat
  {
    match stage
    case Unopened => 0
    case Streaming(_) => 4
    case Delivered => 3
    case Taken => 2
    case Sent => 1
    case Finished => 0
  }

  function TotalDistance(stages: seq<Stage>): nat
  {
    if stages == [] then 0 else Distance(stages[0]) + TotalDistance(stages[1..])
  }

  lemma {:induction false} MovingChangesTheTotal(stages: seq<Stage>, r: nat, stage: Stage)
    requires r < |stages|
    ensures TotalDistance(stages[r := stage]) == TotalDistance(stages) - Distance(stages[r]) + Distance(stage)
  {
    if r > 0 {
      assert stages[r := stage][1..] == stages[1..][r - 1 := stage];
      MovingChangesTheTotal(stages[1..], r - 1, stage);
    } else {
      assert stages[r := stage][1..] == stages[1..];
    }
  }

  lemma GoroutineStepsCountDown<V>(kinds: seq<Kind>, s: State<V>, step: Step<V>)
    requires Enabled(kinds, s, step) && IsGoroutineStep(step)
    ensures TotalDistance(Next(kinds, s, step).stages) < TotalDistance(s.stages)
  {
    hide EventsSince, TotalDistance;
    var stage := match step
      case Deliver(_) => Delivered
      case EndStream(_) => Delivered
      case Receive(_) => Taken
      case Send(_) => Sent
      case _ => Finished;
    MovingChangesTheTotal(s.stages, step.r, stage);
  }

  // Steps that do not belong to Run.
  predicate InBackground<V>(steps: seq<Step<V>>)
  {
    forall i :: 0 <= i < |steps| ==> steps[i].StoreWrite? || IsGoroutineStep(steps[i])
  }

  function GoroutineSteps<V>(steps: seq<Step<V>>): nat
  {
    if steps == [] then 0 else (if IsGoroutineStep(steps[0]) then 1 else 0) + GoroutineSteps(steps[1..])
  }

  lemma BackgroundStep<V>(kinds: seq<Kind>, s: State<V>, step: Step<V>, r: nat)
    requires Inv(kinds, s) && Enabled(kinds, s, step) && (step.StoreWrite? || IsGoroutineStep(step))
    requires s.phase.Waiting? && r < |kinds| && Changed(kinds, s, r)
    ensures var next := Next(kinds, s, step);
      && Inv(kinds, next) && next.phase == s.phase && Changed(kinds, next, r)
      && TotalDistance(next.stages) + (if IsGoroutineStep(step) then 1 else 0) <= TotalDistance(s.stages)
  {
    hide StoreOk, TotalDistance;
    StepKeepsInv(kinds, s, step);
    if IsGoroutineStep(step) {
      GoroutineStepsCountDown(kinds, s, step);
    } else {
      assert (s.log + [step.write])[..|s.log|] == s.log;
    }
  }

  // Once something has changed, Run wakes up: the goroutines can make at most as many steps
  // as their total distance, and as long as the event is not there one of them can go on.
  lemma {:induction false} RunWakesUp<V>(kinds: seq<Kind>, s: State<V>, steps: seq<Step<V>>, r: nat)
    requires Inv(kinds, s) && s.phase.Waiting? && r < |kinds| && Changed(kinds, s, r)
    requires IsTrace(kinds, s, steps) && InBackground(steps)
    ensures GoroutineSteps(steps) <= TotalDistance(s.stages) <= 4 * |kinds|
    ensures var end := After(kinds, s, steps);
      Enabled(kinds, end, TakeEvent) || Enabled(kinds, end, Deliver(r)) || Enabled(kinds, end, Receive(r)) ||
        Enabled(kinds, end, Send(r))
    decreases |steps|
  {
    hide Inv, Changed, TotalDistance, EventsSince, Enabled, Next;
    StagesAreFew(kinds, s);
    if steps == [] {
      ChangeIsUnderWay(kinds, s, r);
    } else {
      assert steps[0].StoreWrite? || IsGoroutineStep(steps[0]);
      BackgroundStep(kinds, s, steps[0], r);
      RunWakesUp(kinds, Next(kinds, s, steps[0]), steps[1..], r);
    }
  }

  lemma StagesAreFew<V>(kinds: seq<Kind>, s: State<V>)
    requires Inv(kinds, s)
    ensures TotalDistance(s.stages) <= 4 * |kinds|
  {
    hide StoreOk;
    TotalIsBounded(s.stages);
  }

  lemma {:induction false} TotalIsBounded(stages: seq<Stage>)
    ensures TotalDistance(stages) <= 4 * |stages|
  {
    if stages != [] {
      TotalIsBounded(stages[1..]);
    }
  }

  // ---------- Run goes round ----------

  // The steps that Run makes itself when nothing fails and nobody stops it.
  predicate IsRunStep<V>(step: Step<V>)
  {
    || step.ListForWatch? || step.OpenWatch? || step.AllOpen?
    || step.ListInReconcile? || step.ReconcileSucceeds? || step.TakeEvent? || step.RetryTick?
  }

  predicate AreRunSteps<V>(steps: seq<Step<V>>) { forall i :: 0 <= i < |steps| ==> IsRunStep(steps[i]) }

  lemma {:induction false} TracesCompose<V>(kinds: seq<Kind>, s: State<V>, first: seq<Step<V>>, second: seq<Step<V>>)
    requires IsTrace(kinds, s, first) && IsTrace(kinds, After(kinds, s, first), second)
    ensures IsTrace(kinds, s, first + second)
    ensures After(kinds, s, first + second) == After(kinds, After(kinds, s, first), second)
    decreases |first|
  {
    hide Enabled, Next;
    if first == [] {
      assert first + second == second;
    } else {
      assert (first + second)[0] == first[0] && (first + second)[1..] == first[1..] + second;
      TracesCompose(kinds, Next(kinds, s, first[0]), first[1..], second);
    }
  }

  lemma OneStep<V>(kinds: seq<Kind>, s: State<V>, step: Step<V>)
    requires Enabled(kinds, s, step)
    ensures IsTrace(kinds, s, [step]) && After(kinds, s, [step]) == Next(kinds, s, step)
  {
    hide Enabled, Next;
    var next := Next(kinds, s, step);
    assert [step][1..] == [];
    assert IsTrace(kinds, next, []) && After(kinds, next, []) == next;
  }

  // The end of a run: the same store, Run in its select, with lists of every kind made on it.
  ghost predicate HasListedAll<V>(kinds: seq<Kind>, s: State<V>, end: State<V>)
  {
    && end.log == s.log && end.phase.Waiting?
    && forall r :: 0 <= r < |kinds| ==> r in end.phase.listed && end.phase.listed[r] == |s.log|
  }

  ghost predicate CanReachSelect<V(!new)>(kinds: seq<Kind>, s: State<V>)
  {
    exists steps :: AreRunSteps(steps) && IsTrace(kinds, s, steps) && HasListedAll(kinds, s, After(kinds, s, steps))
  }

  lemma OneStepNearer<V(!new)>(kinds: seq<Kind>, s: State<V>, step: Step<V>)
    requires Enabled(kinds, s, step) && IsRunStep(step) && Next(kinds, s, step).log == s.log
    requires CanReachSelect(kinds, Next(kinds, s, step))
    ensures CanReachSelect(kinds, s)
  {
    hide Enabled, Next;
    var rest :| AreRunSteps(rest) && IsTrace(kinds, Next(kinds, s, step), rest) &&
      HasListedAll(kinds, Next(kinds, s, step), After(kinds, Next(kinds, s, step), rest));
    var steps := [step] + rest;
    OneStep(kinds, s, step);
    TracesCompose(kinds, s, [step], rest);
    assert AreRunSteps(steps);
  }

  // In Reconcile, with the kinds from `next` on still to be listed.
  lemma {:induction false} ListingOn<V(!new)>(kinds: seq<Kind>, s: State<V>, next: nat)
    requires s.phase.Reconciling? && next <= |kinds|
    requires forall r :: 0 <= r < next ==> r in s.phase.listed && s.phase.listed[r] == |s.log|
    ensures CanReachSelect(kinds, s)
    decreases |kinds| - next
  {
    if next < |kinds| {
      ListingOn(kinds, Next(kinds, s, ListInReconcile(next)), next + 1);
      OneStepNearer(kinds, s, ListInReconcile(next));
    } else {
      var steps: seq<Step<V>> := [ReconcileSucceeds];
      OneStep(kinds, s, ReconcileSucceeds);
      assert AreRunSteps(steps) && HasListedAll(kinds, s, After(kinds, s, steps));
    }
  }

  // Opening the watches, from the one it is at.
  lemma {:induction false} OpeningOn<V(!new)>(kinds: seq<Kind>, s: State<V>)
    requires s.phase.Opening? && |s.stages| == |kinds| && s.phase.next <= |kinds|
    requires s.phase.listedAt.Some? ==> s.phase.next < |kinds| && s.phase.listedAt.value <= |s.log|
    ensures CanReachSelect(kinds, s)
    decreases |kinds| - s.phase.next, s.phase.listedAt.None?
  {
    if s.phase.listedAt.Some? {
      OpeningOn(kinds, Next(kinds, s, OpenWatch));
      OneStepNearer(kinds, s, OpenWatch);
    } else if s.phase.next < |kinds| {
      OpeningOn(kinds, Next(kinds, s, ListForWatch));
      OneStepNearer(kinds, s, ListForWatch);
    } else {
      ListingOn(kinds, Next(kinds, s, AllOpen), 0);
      OneStepNearer(kinds, s, AllOpen);
    }
  }

  // Wherever Run is, unless it is over or its select has nothing to take, it can go on by itself
  // until it is in its select with lists of everything as it is stored now: after an event,
  // after a failed Reconcile, after a failed watch.
  lemma RunReconcilesAgain<V(!new)>(kinds: seq<Kind>, start: State<V>, steps: seq<Step<V>>)
    requires StoreOk(start.log) && IsTrace(kinds, NewGeneration(kinds, start), steps)
    requires var s := After(kinds, NewGeneration(kinds, start), steps);
      !s.phase.Returned? && !(s.phase.Waiting? && !s.full)
    ensures CanReachSelect(kinds, After(kinds, NewGeneration(kinds, start), steps))
  {
    InvAtTheStart(kinds, start);
    TracesKeepInv(kinds, NewGeneration(kinds, start), steps);
    GoingRound(kinds, After(kinds, NewGeneration(kinds, start), steps));
  }

  lemma GoingRound<V(!new)>(kinds: seq<Kind>, s: State<V>)
    requires Inv(kinds, s) && !s.phase.Returned? && !(s.phase.Waiting? && !s.full)
    ensures CanReachSelect(kinds, s)
  {
    hide StoreOk, CanReachSelect, NothingLost;
    match s.phase {
      case Opening(_, _) => OpeningOn(kinds, s);
      case Reconciling(_) => ListingOn(kinds, s, 0);
      case Waiting(_) =>
        OpeningOn(kinds, Next(kinds, s, TakeEvent));
        OneStepNearer(kinds, s, TakeEvent);
      case Retrying =>
        OpeningOn(kinds, Next(kinds, s, RetryTick));
        OneStepNearer(kinds, s, RetryTick);
    }
  }

  // Steps of Run and of the watch goroutines.
  predicate AreOwnSteps<V>(steps: seq<Step<V>>)
  {
    forall i :: 0 <= i < |steps| ==> IsRunStep(steps[i]) || IsGoroutineStep(steps[i])
  }

  ghost predicate CanReconcileAll<V(!new)>(kinds: seq<Kind>, s: State<V>)
  {
    exists steps :: AreOwnSteps(steps) && IsTrace(kinds, s, steps) && HasListedAll(kinds, s, After(kinds, s, steps))
  }

  lemma OneGoroutineStepNearer<V(!new)>(kinds: seq<Kind>, s: State<V>, step: Step<V>)
    requires Enabled(kinds, s, step) && IsGoroutineStep(step) && CanReconcileAll(kinds, Next(kinds, s, step))
    ensures CanReconcileAll(kinds, s)
  {
    hide Enabled;
    var rest :| AreOwnSteps(rest) && IsTrace(kinds, Next(kinds, s, step), rest) &&
      HasListedAll(kinds, Next(kinds, s, step), After(kinds, Next(kinds, s, step), rest));
    var steps := [step] + rest;
    OneStep(kinds, s, step);
    TracesCompose(kinds, s, [step], rest);
    assert AreOwnSteps(steps);
  }

  // From a change to its reconcile: while Run waits and something of a kind has changed, the
  // goroutines and Run can go on by themselves until everything has been listed anew.
  lemma {:induction false} ChangesAreReconciled<V(!new)>(kinds: seq<Kind>, s: State<V>, r: nat)
    requires Inv(kinds, s) && s.phase.Waiting? && r < |kinds| && Changed(kinds, s, r)
    ensures CanReconcileAll(kinds, s)
    decreases TotalDistance(s.stages)
  {
    hide Inv, Changed, TotalDistance, EventsSince, Next, HasEvent, StageIs, IsStreaming;
    ChangeIsUnderWay(kinds, s, r);
    if s.full {
      GoingRound(kinds, s);
      var steps :| AreRunSteps(steps) && IsTrace(kinds, s, steps) && HasListedAll(kinds, s, After(kinds, s, steps));
      assert AreOwnSteps(steps);
    } else {
      var step: Step<V> :| step in {Deliver(r), Receive(r), Send(r)} && Enabled(kinds, s, step);
      GoroutineStepsCountDown(kinds, s, step);
      BackgroundStep(kinds, s, step, r);
      ChangesAreReconciled(kinds, Next(kinds, s, step), r);
      OneGoroutineStepNearer(kinds, s, step);
    }
  }

  // Lists are not older than the given length of the log.
  predicate ListsAreSince<V>(s: State<V>, at: nat)
  {
    && at <= |s.log|
    && match s.phase
       case Reconciling(listed) => forall r :: r in listed ==> at <= listed[r]
       case Waiting(listed) => forall r :: r in listed ==> at <= listed[r]
       case _ => true
  }

  // Whatever happens after a wake-up or a retry: no Reconcile counts that has listed before it.
  // Once Run is in its select again, everything has been listed since.
  lemma {:induction false} LaterListsAreNewer<V>(kinds: seq<Kind>, s: State<V>, steps: seq<Step<V>>, at: nat)
    requires Inv(kinds, s) && IsTrace(kinds, s, steps) && ListsAreSince(s, at)
    ensures ListsAreSince(After(kinds, s, steps), at)
    ensures After(kinds, s, steps).phase.Waiting? ==> forall r :: 0 <= r < |kinds| ==>
      r in After(kinds, s, steps).phase.listed && at <= After(kinds, s, steps).phase.listed[r]
    decreases |steps|
  {
    hide StoreOk, NothingLost, OpenedUpTo, WatchedBeforeListed, Enabled, Next;
    if steps != [] {
      StepKeepsInv(kinds, s, steps[0]);
      StepsKeepListsSince(kinds, s, steps[0], at);
      LaterListsAreNewer(kinds, Next(kinds, s, steps[0]), steps[1..], at);
    }
  }

  lemma StepsKeepListsSince<V>(kinds: seq<Kind>, s: State<V>, step: Step<V>, at: nat)
    requires Enabled(kinds, s, step) && ListsAreSince(s, at)
    ensures ListsAreSince(Next(kinds, s, step), at)
  {
    hide HasEvent, Admits, Live;
  }

  // An event that is taken, and a retry, begin anew: nothing listed so far counts any more.
  lemma WakingUpListsAnew<V>(kinds: seq<Kind>, s: State<V>, step: Step<V>, steps: seq<Step<V>>)
    requires Inv(kinds, s) && Enabled(kinds, s, step) && (step.TakeEvent? || step.RetryTick?)
    requires IsTrace(kinds, Next(kinds, s, step), steps)
    ensures var end := After(kinds, Next(kinds, s, step), steps);
      end.phase.Waiting? ==>
        forall r :: 0 <= r < |kinds| ==> r in end.phase.listed && |s.log| <= end.phase.listed[r]
  {
    StepKeepsInv(kinds, s, step);
    LaterListsAreNewer(kinds, Next(kinds, s, step), steps, |s.log|);
  }

  // Run ends only when it is stopped.
  lemma {:induction false} OnlyStopEndsRun<V>(kinds: seq<Kind>, s: State<V>, steps: seq<Step<V>>)
    requires IsTrace(kinds, s, steps) && !s.phase.Returned?
    ensures After(kinds, s, steps).phase.Returned? <==> exists i :: 0 <= i < |steps| && steps[i].Stop?
    decreases |steps|
  {
    if steps != [] {
      OneStepEndsRun(kinds, s, steps[0]);
      if steps[0].Stop? {
        ReturnedStays(kinds, Next(kinds, s, steps[0]), steps[1..]);
      } else {
        OnlyStopEndsRun(kinds, Next(kinds, s, steps[0]), steps[1..]);
        if i :| 0 <= i < |steps| && steps[i].Stop? {
          assert steps[1..][i - 1].Stop?;
        }
        if i :| 0 <= i < |steps[1..]| && steps[1..][i].Stop? {
          assert steps[i + 1].Stop?;
        }
      }
    }
  }

  lemma OneStepEndsRun<V>(kinds: seq<Kind>, s: State<V>, step: Step<V>)
    requires Enabled(kinds, s, step) && !s.phase.Returned?
    ensures Next(kinds, s, step).phase.Returned? <==> step.Stop?
  {
  }

  predicate BeginsAnew<V>(step: Step<V>) { step.TakeEvent? || step.RetryTick? }

  predicate Cancels<V>(step: Step<V>) { step.Cancel? || step.OpeningFails? || step.Stop? }

  // The watches of one generation are cancelled exactly when a goroutine has sent its event and
  // says so, a watch could not be opened, or Run was stopped. A failed Reconcile leaves them.
  lemma {:induction false} CancelledExactly<V>(kinds: seq<Kind>, s: State<V>, steps: seq<Step<V>>)
    requires IsTrace(kinds, s, steps) && forall i :: 0 <= i < |steps| ==> !BeginsAnew(steps[i])
    ensures After(kinds, s, steps).cancelled <==> s.cancelled || exists i :: 0 <= i < |steps| && Cancels(steps[i])
    decreases |steps|
  {
    if steps != [] {
      OneStepCancels(kinds, s, steps[0]);
      assert forall i :: 0 <= i < |steps[1..]| ==> steps[1..][i] == steps[i + 1];
      CancelledExactly(kinds, Next(kinds, s, steps[0]), steps[1..]);
      if i :| 0 <= i < |steps| && Cancels(steps[i]) {
        assert i > 0 ==> Cancels(steps[1..][i - 1]);
      }
      if i :| 0 <= i < |steps[1..]| && Cancels(steps[1..][i]) {
        assert Cancels(steps[i + 1]);
      }
    }
  }

  lemma OneStepCancels<V>(kinds: seq<Kind>, s: State<V>, step: Step<V>)
    requires Enabled(kinds, s, step) && !BeginsAnew(step)
    ensures Next(kinds, s, step).cancelled <==> s.cancelled || Cancels(step)
  {
  }

  // A slot that is full was filled by a goroutine that is about to cancel, or has; and Run is
  // over only with everything cancelled.
  ghost predicate SlotHasASender<V>(s: State<V>)
  {
    && (s.full && !s.cancelled ==> exists q :: StageIs(s, q, Sent))
    && (s.phase.Returned? ==> s.cancelled)
  }

  lemma StepKeepsTheSender<V>(kinds: seq<Kind>, s: State<V>, step: Step<V>)
    requires Inv(kinds, s) && Enabled(kinds, s, step) && SlotHasASender(s)
    ensures SlotHasASender(Next(kinds, s, step))
  {
    var next := Next(kinds, s, step);
    if next.full && !next.cancelled {
      if step.Send? {
        assert StageIs(next, step.r, Sent);
      } else {
        var q :| StageIs(s, q, Sent);
        assert StageIs(next, q, Sent);
      }
    }
  }

  lemma {:induction false} StepsKeepTheSender<V>(kinds: seq<Kind>, s: State<V>, steps: seq<Step<V>>)
    requires Inv(kinds, s) && IsTrace(kinds, s, steps) && SlotHasASender(s)
    ensures SlotHasASender(After(kinds, s, steps))
    decreases |steps|
  {
    if steps != [] {
      StepKeepsTheSender(kinds, s, steps[0]);
      StepKeepsInv(kinds, s, steps[0]);
      StepsKeepTheSender(kinds, Next(kinds, s, steps[0]), steps[1..]);
    }
  }

  // No goroutine hangs, wherever Run is: one that has taken its event can send it, or can quit,
  // or can once another one, which is able to, has cancelled. After Run it can quit.
  lemma NoGoroutineHangs<V>(kinds: seq<Kind>, start: State<V>, steps: seq<Step<V>>, r: nat)
    requires StoreOk(start.log) && IsTrace(kinds, NewGeneration(kinds, start), steps)
    requires StageIs(After(kinds, NewGeneration(kinds, start), steps), r, Taken)
    ensures var s := After(kinds, NewGeneration(kinds, start), steps);
      && (Enabled(kinds, s, Send(r)) || Enabled(kinds, s, Quit(r)) ||
          exists q :: Enabled(kinds, s, Cancel(q)) && Enabled(kinds, Next(kinds, s, Cancel(q)), Quit(r)))
      && (s.phase.Returned? ==> Enabled(kinds, s, Quit(r)))
  {
    hide After, Inv, IsTrace, HasEvent, Revision;
    var s := After(kinds, NewGeneration(kinds, start), steps);
    InvAtTheStart(kinds, start);
    StepsKeepTheSender(kinds, NewGeneration(kinds, start), steps);
    if s.full && !s.cancelled {
      var q :| StageIs(s, q, Sent);
      assert Enabled(kinds, s, Cancel(q)) && Enabled(kinds, Next(kinds, s, Cancel(q)), Quit(r));
    }
  }

  lemma {:induction false} ReturnedStays<V>(kinds: seq<Kind>, s: State<V>, steps: seq<Step<V>>)
    requires IsTrace(kinds, s, steps) && s.phase.Returned?
    ensures After(kinds, s, steps).phase.Returned?
    decreases |steps|
  {
    if steps != [] {
      StillReturned(kinds, s, steps[0]);
      ReturnedStays(kinds, Next(kinds, s, steps[0]), steps[1..]);
    }
  }

  lemma StillReturned<V>(kinds: seq<Kind>, s: State<V>, step: Step<V>)
    requires Enabled(kinds, s, step) && s.phase.Returned?
    ensures Next(kinds, s, step).phase.Returned?
  {
  }

  // ---------- why the order matters ----------

  // The loop with the two parts of a generation exchanged: Reconcile first, with its lists kept
  // in `listed`, then the watches.
  datatype Reordered<+V> = Reordered(s: State<V>, listed: map<nat, nat>)

  function ReconcilingFirst<V>(kinds: seq<Kind>, log: seq<Write<V>>): Reordered<V>
  {
    Reordered(State(log, Reconciling(map[]), seq(|kinds|, _ => Unopened), false, false), map[])
  }

  function NextReordered<V>(kinds: seq<Kind>, t: Reordered<V>, step: Step<V>): Reordered<V>
    requires Enabled(kinds, t.s, step)
  {
    match step
    case ReconcileSucceeds => Reordered(NewGeneration(kinds, t.s), t.s.phase.listed)
    case AllOpen => t.(s := t.s.(phase := Waiting(t.listed)))
    case TakeEvent => ReconcilingFirst(kinds, t.s.log)
    case RetryTick => ReconcilingFirst(kinds, t.s.log)
    case _ => t.(s := Next(kinds, t.s, step))
  }

  predicate IsReorderedTrace<V>(kinds: seq<Kind>, t: Reordered<V>, steps: seq<Step<V>>)
    decreases |steps|
  {
    steps == [] ||
      (Enabled(kinds, t.s, steps[0]) && IsReorderedTrace(kinds, NextReordered(kinds, t, steps[0]), steps[1..]))
  }

  function AfterReordered<V>(kinds: seq<Kind>, t: Reordered<V>, steps: seq<Step<V>>): Reordered<V>
    requires IsReorderedTrace(kinds, t, steps)
    decreases |steps|
  {
    if steps == [] then t else AfterReordered(kinds, NextReordered(kinds, t, steps[0]), steps[1..])
  }

  ghost predicate AreReorderedSteps<V>(kinds: seq<Kind>, states: seq<Reordered<V>>, steps: seq<Step<V>>)
  {
    && |states| == |steps| + 1
    && forall i :: 0 <= i < |steps| ==>
         Enabled(kinds, states[i].s, steps[i]) && NextReordered(kinds, states[i], steps[i]) == states[i + 1]
  }

  lemma {:induction false} StepsMakeATrace<V>(kinds: seq<Kind>, states: seq<Reordered<V>>, steps: seq<Step<V>>)
    requires AreReorderedSteps(kinds, states, steps)
    ensures IsReorderedTrace(kinds, states[0], steps)
    ensures AfterReordered(kinds, states[0], steps) == states[|steps|]
    decreases |steps|
  {
    hide Enabled, NextReordered;
    if steps != [] {
      forall i | 0 <= i < |steps[1..]|
        ensures Enabled(kinds, states[1..][i].s, steps[1..][i])
        ensures NextReordered(kinds, states[1..][i], steps[1..][i]) == states[1..][i + 1]
      {
        assert Enabled(kinds, states[i + 1].s, steps[i + 1]);
      }
      StepsMakeATrace(kinds, states[1..], steps[1..]);
    }
  }

  function MissingSteps<V>(write: Write<V>): seq<Step<V>>
  {
    [ListInReconcile(0), ReconcileSucceeds, StoreWrite(write), ListForWatch, OpenWatch, AllOpen]
  }

  // Such a loop misses every change that is made between its list and its watch: it ends up in
  // its select with nothing in transit, and what it listed is not what is stored.
  lemma ListingFirstMissesChanges<V>(log: seq<Write<V>>, write: Write<V>)
    requires StoreOk(log) && Admits(Live(log), write) && ValidName(write.key.name)
    ensures var kinds := [write.key.kind];
      && IsReorderedTrace(kinds, ReconcilingFirst(kinds, log), MissingSteps(write))
      && var s := AfterReordered(kinds, ReconcilingFirst(kinds, log), MissingSteps(write)).s;
         && s.phase == Waiting(map[0 := |log|]) && s.log == log + [write] && NothingInTransit(kinds, s)
         && Listed(s.log[..s.phase.listed[0]], kinds[0]) != Listed(s.log, kinds[0])
  {
    hide Listed, StoreOk, Live, Admits, IsReorderedTrace, AfterReordered, AreReorderedSteps, EventsSince;
    var kinds := [write.key.kind];
    MissingStates(log, write);
    StepsMakeATrace(kinds, StatesOnTheWay(log, write), MissingSteps(write));
    var after := log + [write];
    assert after[..|log|] == log;
    NothingSinceNow(after, write.key.kind);
    WrittenIsListedAnew(log, write);
  }

  lemma NothingSinceNow<V>(log: seq<Write<V>>, kind: Kind)
    ensures EventsSince(log, kind, |log|) == []
  {
  }

  function StatesOnTheWay<V>(log: seq<Write<V>>, write: Write<V>): seq<Reordered<V>>
  {
    var listed, after := map[0 := |log|], log + [write];
    [ReconcilingFirst([write.key.kind], log),
     Reordered(State(log, Reconciling(listed), [Unopened], false, false), map[]),
     Reordered(State(log, Opening(0, None), [Unopened], false, false), listed),
     Reordered(State(after, Opening(0, None), [Unopened], false, false), listed),
     Reordered(State(after, Opening(0, Some(|after|)), [Unopened], false, false), listed),
     Reordered(State(after, Opening(1, None), [Streaming(|after|)], false, false), listed),
     Reordered(State(after, Waiting(listed), [Streaming(|after|)], false, false), listed)]
  }

  lemma MissingStates<V>(log: seq<Write<V>>, write: Write<V>)
    requires Admits(Live(log), write) && ValidName(write.key.name)
    ensures AreReorderedSteps([write.key.kind], StatesOnTheWay(log, write), MissingSteps(write))
  {
    hide Live, Admits, HasEvent;
    var kinds, states, steps := [write.key.kind], StatesOnTheWay(log, write), MissingSteps(write);
    assert NextReordered(kinds, states[0], steps[0]) == states[1];
    assert NextReordered(kinds, states[1], steps[1]) == states[2];
    assert NextReordered(kinds, states[2], steps[2]) == states[3];
    OpeningLate(log, write);
  }

  lemma OpeningLate<V>(log: seq<Write<V>>, write: Write<V>)
    ensures var kinds, states, steps := [write.key.kind], StatesOnTheWay(log, write), MissingSteps(write);
      forall i :: 3 <= i < 6 ==>
        Enabled(kinds, states[i].s, steps[i]) && NextReordered(kinds, states[i], steps[i]) == states[i + 1]
  {
    hide Live, Admits, HasEvent;
    var kinds, states, steps := [write.key.kind], StatesOnTheWay(log, write), MissingSteps(write);
    var after := log + [write];
    assert after[..|after|] == after && Revision(after) == |after| + 1;
    assert NextReordered(kinds, states[3], steps[3]) == states[4];
    assert NextReordered(kinds, states[4], steps[4]) == states[5];
    assert NextReordered(kinds, states[5], steps[5]) == states[6];
  }

  lemma WrittenIsListedAnew<V>(log: seq<Write<V>>, write: Write<V>)
    requires StoreOk(log) && Admits(Live(log), write)
    ensures Listed(log + [write], write.key.kind) != Listed(log, write.key.kind)
  {
    AcceptedExtends(log, write);
    if write.key in Live(log) {
      EntryIsLastWrite(log, write.key);
    }
    ListsDiffer(Live(log), write, |log| + 2);
  }

  lemma ListsDiffer<V>(live: map<Key, Entry<V>>, write: Write<V>, revision: nat)
    requires Admits(live, write) && (write.key in live ==> live[write.key].modRevision < revision)
    ensures ListOf(Applied(live, write, revision), write.key.kind) != ListOf(live, write.key.kind)
  {
    var before, after := ListOf(live, write.key.kind), ListOf(Applied(live, write, revision), write.key.kind);
    if write.Put? {
      assert write.key in after && after[write.key].1 == revision;
      assert write.key in before ==> before[write.key].1 < revision;
    } else {
      assert write.key in before && write.key !in after;
    }
  }
}
