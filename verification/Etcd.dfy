// The versioned store. Its whole state is the list of writes it has accepted: the current
// objects are what replaying that list leaves, and a revision is a position in it.
module Etcd {
  import opened Text

  datatype Kind = NodeKind | PodKind | DeploymentKind | ReplicaSetKind | ServiceKind

  datatype Key = Key(kind: Kind, name: string)

  // ModRevision is the revision of the last write to the key; version counts the writes
  // since the key was created.
  datatype Entry<+V> = Entry(value: V, modRevision: nat, version: nat)

  // `base` is the ModRevision the writer compared against, 0 for a creation.
  datatype Write<+V> = Put(key: Key, value: V, base: nat) | Erase(key: Key)

  datatype StoreError = NotFound | AlreadyExists | Conflict

  // ---------- key paths ----------

  function KindName(kind: Kind): string
  {
    match kind
    case NodeKind => "Node"
    case PodKind => "Pod"
    case DeploymentKind => "Deployment"
    case ReplicaSetKind => "ReplicaSet"
    case ServiceKind => "Service"
  }

  const ROOT := "/toy-kubernetes/"

  function ObjectPrefix(kind: Kind): string { ROOT + KindName(kind) + "/" }

  function ObjectKey(key: Key): string { ObjectPrefix(key.kind) + key.name }

  function TrimSlash(s: string): string
  {
    if s != "" && s[|s| - 1] == '/' then s[..|s| - 1] else s
  }

  function LastPart(s: string): string
  {
    if s == "" || s[|s| - 1] == '/' then "" else LastPart(s[..|s| - 1]) + [s[|s| - 1]]
  }

  function NameFromKey(storedKey: string): string { LastPart(TrimSlash(storedKey)) }

  predicate ValidName(name: string) { name != "" && '/' !in name }

  lemma {:induction false} LastPartAfterSlash(path: string, name: string)
    requires path == "" || path[|path| - 1] == '/'
    requires '/' !in name
    ensures LastPart(path + name) == name
  {
    if name == "" {
      assert path + name == path;
    } else {
      var k := |name| - 1;
      assert (path + name)[..|path + name| - 1] == path + name[..k];
      assert name == name[..k] + [name[k]];
      LastPartAfterSlash(path, name[..k]);
    }
  }

  lemma {:induction false} LastPartHasNoSlash(s: string)
    ensures '/' !in LastPart(s)
  {
    if s != "" && s[|s| - 1] != '/' {
      LastPartHasNoSlash(s[..|s| - 1]);
    }
  }

  // The name in a watch event is the stored one exactly for the names that are
  // non-empty and contain no slash.
  lemma NameFromKeyIsExactForValidNames(key: Key)
    ensures NameFromKey(ObjectKey(key)) == key.name <==> ValidName(key.name)
  {
    var path, stored := ObjectPrefix(key.kind), ObjectKey(key);
    if '/' in key.name {
      LastPartHasNoSlash(TrimSlash(stored));
    } else if key.name == "" {
      var kindPath := KindName(key.kind);
      assert TrimSlash(stored) == ROOT + kindPath;
      assert '/' !in kindPath;
      LastPartAfterSlash(ROOT, kindPath);
    } else {
      assert stored[|stored| - 1] == key.name[|key.name| - 1];
      assert key.name[|key.name| - 1] in key.name;
      LastPartAfterSlash(path, key.name);
    }
  }

  // Two keys never share a path, and a prefix read returns one kind only; this is what
  // lets the rest of the model use (kind, name) pairs instead of paths.
  lemma PathsAreFaithful(a: Key, b: Key)
    ensures ObjectKey(a) == ObjectKey(b) <==> a == b
    ensures ObjectPrefix(a.kind) <= ObjectKey(b) <==> a.kind == b.kind
  {
    var n := |ROOT|;
    assert ObjectPrefix(a.kind)[n] == KindName(a.kind)[0] && ObjectKey(b)[n] == KindName(b.kind)[0];
    assert ObjectKey(a)[n] == KindName(a.kind)[0];
    assert a.kind != b.kind ==> KindName(a.kind)[0] != KindName(b.kind)[0];
    assert ObjectKey(a)[|ObjectPrefix(a.kind)|..] == a.name && ObjectKey(b)[|ObjectPrefix(b.kind)|..] == b.name;
  }

  // ---------- state ----------

  // An empty store is at revision 1, and every accepted write adds one.
  function Revision<V>(log: seq<Write<V>>): nat { |log| + 1 }

  function Live<V>(log: seq<Write<V>>): map<Key, Entry<V>>
  {
    if log == [] then map[] else Applied(Live(log[..|log| - 1]), log[|log| - 1], |log| + 1)
  }

  function Applied<V>(before: map<Key, Entry<V>>, write: Write<V>, revision: nat): map<Key, Entry<V>>
  {
    match write
    case Put(key, value, _) => before[key := Entry(value, revision, VersionIn(before, key) + 1)]
    case Erase(key) => before - {key}
  }

  function ModRevisionIn<V>(live: map<Key, Entry<V>>, key: Key): nat
  {
    if key in live then live[key].modRevision else 0
  }

  function VersionIn<V>(live: map<Key, Entry<V>>, key: Key): nat
  {
    if key in live then live[key].version else 0
  }

  // The comparison each transaction makes before it writes.
  predicate CanCreate<V>(live: map<Key, Entry<V>>, key: Key) { VersionIn(live, key) == 0 }

  predicate CanUpdate<V>(live: map<Key, Entry<V>>, key: Key, resourceVersion: nat)
  {
    ModRevisionIn(live, key) == resourceVersion
  }

  predicate CanDelete<V>(live: map<Key, Entry<V>>, key: Key, resourceVersion: nat)
  {
    if resourceVersion != 0 then ModRevisionIn(live, key) == resourceVersion else VersionIn(live, key) > 0
  }

  predicate Admits<V>(live: map<Key, Entry<V>>, write: Write<V>)
  {
    match write
    case Put(key, _, base) => CanUpdate(live, key, base)
    case Erase(key) => key in live
  }

  // A log that transactions can have produced.
  predicate Accepted<V>(log: seq<Write<V>>)
  {
    forall i :: 0 <= i < |log| ==> Admits(Live(log[..i]), log[i])
  }

  lemma AcceptedExtends<V>(log: seq<Write<V>>, write: Write<V>)
    requires Accepted(log) && Admits(Live(log), write)
    ensures Accepted(log + [write])
    ensures Live(log + [write]) == Applied(Live(log), write, |log| + 2)
  {
    var next := log + [write];
    assert next[..|log|] == log;
    forall i | 0 <= i < |next| ensures Admits(Live(next[..i]), next[i]) {
      assert i < |log| ==> next[..i] == log[..i];
    }
  }

  lemma AcceptedPrefix<V>(log: seq<Write<V>>, n: nat)
    requires Accepted(log) && n <= |log|
    ensures Accepted(log[..n])
  {
    forall i | 0 <= i < n ensures Admits(Live(log[..n][..i]), log[..n][i]) {
      assert log[..n][..i] == log[..i];
    }
  }

  // No write in log[from..to] touches the key.
  predicate Untouched<V>(log: seq<Write<V>>, key: Key, from: nat, to: nat)
  {
    forall i :: from <= i < to && i < |log| ==> log[i].key != key
  }

  // A stored entry is the last write to its key: its ModRevision says where in the log.
  lemma {:induction false} EntryIsLastWrite<V>(log: seq<Write<V>>, key: Key)
    requires key in Live(log)
    ensures var entry := Live(log)[key]; 2 <= entry.modRevision <= Revision(log) && entry.version > 0
    ensures var i := Live(log)[key].modRevision - 2;
      log[i].Put? && log[i].key == key && log[i].value == Live(log)[key].value && Untouched(log, key, i + 1, |log|)
  {
    var n := |log| - 1;
    var before := log[..n];
    if log[n].key != key {
      EntryIsLastWrite(before, key);
      var i := Live(log)[key].modRevision - 2;
      assert log[i] == before[i];
      forall j | i + 1 <= j < |log| ensures log[j].key != key {
        assert j < n ==> log[j] == before[j];
      }
    }
  }

  lemma VersionIsZeroExactlyWhenAbsent<V>(log: seq<Write<V>>, key: Key)
    ensures VersionIn(Live(log), key) == 0 <==> key !in Live(log)
    ensures ModRevisionIn(Live(log), key) == 0 <==> key !in Live(log)
  {
    if key in Live(log) {
      EntryIsLastWrite(log, key);
    }
  }

  lemma {:induction false} UntouchedKeepsEntry<V>(log: seq<Write<V>>, key: Key, n: nat)
    requires n <= |log| && Untouched(log, key, n, |log|)
    ensures key in Live(log) <==> key in Live(log[..n])
    ensures key in Live(log) ==> Live(log)[key] == Live(log[..n])[key]
  {
    if n < |log| {
      var before := log[..|log| - 1];
      assert before[..n] == log[..n];
      UntouchedKeepsEntry(before, key, n);
    } else {
      assert log[..n] == log;
    }
  }

  // ---------- what the versions promise ----------

  // No lost update and no ABA: if a transaction that compares with the version read at an
  // earlier point still passes, the stored entry is the one that was read and nothing has
  // touched the key since, not even a delete followed by a re-creation.
  lemma VersionsPreventLostUpdates<V>(log: seq<Write<V>>, readAt: nat, key: Key)
    requires readAt <= |log| && key in Live(log[..readAt])
    requires var v := Live(log[..readAt])[key].modRevision; CanUpdate(Live(log), key, v) || CanDelete(Live(log), key, v)
    ensures key in Live(log) && Live(log)[key] == Live(log[..readAt])[key]
    ensures Untouched(log, key, readAt, |log|)
  {
    EntryIsLastWrite(log[..readAt], key);
    VersionIsZeroExactlyWhenAbsent(log, key);
    EntryIsLastWrite(log, key);
    var i := Live(log)[key].modRevision - 2;
    assert Untouched(log, key, i + 1, |log|);
    UntouchedKeepsEntry(log, key, readAt);
  }

  // Every accepted update continues the write it was computed from: that write is in the
  // log, and it is the immediately preceding one for the key. A put with base 0 starts an
  // incarnation: the key was absent.
  lemma UpdatesFormAChain<V>(log: seq<Write<V>>, i: nat)
    requires Accepted(log) && i < |log| && log[i].Put?
    ensures log[i].base == 0 <==> log[i].key !in Live(log[..i])
    ensures log[i].base != 0 ==>
      var previous := log[i].base - 2;
      0 <= previous < i && log[previous].Put? && log[previous].key == log[i].key &&
      Untouched(log, log[i].key, previous + 1, i)
  {
    var key := log[i].key;
    assert Admits(Live(log[..i]), log[i]);
    VersionIsZeroExactlyWhenAbsent(log[..i], key);
    if log[i].base != 0 {
      EntryIsLastWrite(log[..i], key);
      forall j | log[i].base - 1 <= j < i ensures log[j].key != key {
        assert log[j] == log[..i][j];
      }
    }
  }

  // ---------- watch ----------

  datatype EventType = Added | Modified | Deleted

  datatype Event<+V> = Event(eventType: EventType, kind: Kind, name: string, resourceVersion: nat, value: V)

  function EventNamed<V>(before: map<Key, Entry<V>>, write: Write<V>, revision: nat, kind: Kind, name: string)
      : seq<Event<V>>
  {
    if write.key.kind != kind then []
    else match write
      case Put(key, value, _) => [Event(if key in before then Modified else Added, kind, name, revision, value)]
      case Erase(key) => if key in before then [Event(Deleted, kind, name, revision, before[key].value)] else []
  }

  // The watch reads the name back from the path of the key.
  function EventOf<V>(before: map<Key, Entry<V>>, write: Write<V>, revision: nat, kind: Kind): seq<Event<V>>
  {
    EventNamed(before, write, revision, kind, NameFromKey(ObjectKey(write.key)))
  }

  // What a watch of one kind delivers for the writes at positions `from` and later.
  function EventsSince<V>(log: seq<Write<V>>, kind: Kind, from: nat): seq<Event<V>>
  {
    if |log| <= from then []
    else
      var n := |log| - 1;
      EventsSince(log[..n], kind, from) + EventOf(Live(log[..n]), log[n], n + 2, kind)
  }

  // A List response of one kind: each object with its resource version.
  function ListOf<V>(live: map<Key, Entry<V>>, kind: Kind): map<Key, (V, nat)>
  {
    map key | key in live && key.kind == kind :: (live[key].value, live[key].modRevision)
  }

  function Listed<V>(log: seq<Write<V>>, kind: Kind): map<Key, (V, nat)> { ListOf(Live(log), kind) }

  // A client that keeps a List response up to date with watch events.
  function Follow<V>(view: map<Key, (V, nat)>, e: Event<V>): map<Key, (V, nat)>
  {
    var key := Key(e.kind, e.name);
    if e.eventType.Deleted? then view - {key} else view[key := (e.value, e.resourceVersion)]
  }

  function Replay<V>(view: map<Key, (V, nat)>, events: seq<Event<V>>): map<Key, (V, nat)>
  {
    if events == [] then view else Follow(Replay(view, events[..|events| - 1]), events[|events| - 1])
  }

  ghost predicate NamesAreValid<V>(log: seq<Write<V>>)
  {
    forall i :: 0 <= i < |log| ==> ValidName(log[i].key.name)
  }

  lemma EventsGrow<V>(log: seq<Write<V>>, kind: Kind, from: nat)
    requires from < |log| && ValidName(log[|log| - 1].key.name)
    ensures var n := |log| - 1;
      EventsSince(log, kind, from) ==
      EventsSince(log[..n], kind, from) + EventNamed(Live(log[..n]), log[n], n + 2, kind, log[n].key.name)
  {
    NameFromKeyIsExactForValidNames(log[|log| - 1].key);
  }

  lemma ReplayAppends<V>(view: map<Key, (V, nat)>, events: seq<Event<V>>, more: seq<Event<V>>)
    requires |more| <= 1
    ensures Replay(view, events + more) == Replay(Replay(view, events), more)
  {
    if more == [] {
      assert events + more == events;
    } else {
      assert (events + more)[..|events + more| - 1] == events;
      assert more[..|more| - 1] == [];
    }
  }

  // A List response followed by the watch events after its revision gives every later List.
  lemma {:induction false} ListPlusWatchIsALaterList<V>(log: seq<Write<V>>, kind: Kind, from: nat)
    requires Accepted(log) && NamesAreValid(log) && from <= |log|
    ensures Replay(Listed(log[..from], kind), EventsSince(log, kind, from)) == Listed(log, kind)
  {
    if from == |log| {
      assert log[..from] == log;
    } else {
      hide ListOf, EventNamed, Follow, Applied;
      var n := |log| - 1;
      var before := log[..n];
      AcceptedPrefix(log, n);
      assert before[..from] == log[..from];
      assert NamesAreValid(before);
      ListPlusWatchIsALaterList(before, kind, from);
      OneMoreEventReplayed(log, kind, from);
    }
  }

  lemma OneMoreEventReplayed<V>(log: seq<Write<V>>, kind: Kind, from: nat)
    requires Accepted(log) && NamesAreValid(log) && from < |log|
    requires var before := log[..|log| - 1];
      Replay(Listed(log[..from], kind), EventsSince(before, kind, from)) == Listed(before, kind)
    ensures Replay(Listed(log[..from], kind), EventsSince(log, kind, from)) == Listed(log, kind)
  {
    hide ListOf, EventNamed, Follow, Applied, Replay, EventsSince;
    var n := |log| - 1;
    var before := log[..n];
    EventsGrow(log, kind, from);
    var last := EventNamed(Live(before), log[n], n + 2, kind, log[n].key.name);
    AtMostOneEvent(Live(before), log[n], n + 2, kind, log[n].key.name);
    ReplayAppends(Listed(log[..from], kind), EventsSince(before, kind, from), last);
    assert Admits(Live(before), log[n]);
    OneEventMovesTheList(Live(before), log[n], n + 2, kind);
  }

  lemma AtMostOneEvent<V>(before: map<Key, Entry<V>>, write: Write<V>, revision: nat, kind: Kind, name: string)
    ensures |EventNamed(before, write, revision, kind, name)| <= 1
  {
  }

  lemma OneEventMovesTheList<V>(before: map<Key, Entry<V>>, write: Write<V>, revision: nat, kind: Kind)
    requires Admits(before, write)
    ensures Replay(ListOf(before, kind), EventNamed(before, write, revision, kind, write.key.name)) ==
            ListOf(Applied(before, write, revision), kind)
  {
    var view, events := ListOf(before, kind), EventNamed(before, write, revision, kind, write.key.name);
    var after := Applied(before, write, revision);
    if write.key.kind != kind {
      assert ListOf(after, kind) == view;
    } else {
      assert Replay(view, events[..0]) == view;
      assert Replay(view, events) == Follow(view, events[0]);
    }
  }

  // The events are exactly the accepted writes of the watched kind, in order: ADDED when the
  // key was absent just before, MODIFIED when it was present, DELETED with the last value.
  ghost predicate Reports<V>(before: map<Key, Entry<V>>, write: Write<V>, e: Event<V>)
  {
    && write.key == Key(e.kind, e.name)
    && match write
       case Put(key, value, _) => e.eventType == (if key in before then Modified else Added) && e.value == value
       case Erase(key) => e.eventType == Deleted && key in before && e.value == before[key].value
  }

  ghost predicate ReportsOf<V>(log: seq<Write<V>>, kind: Kind, from: nat, e: Event<V>)
  {
    var i := e.resourceVersion - 2;
    e.kind == kind && from <= i < |log| && Reports(Live(log[..i]), log[i], e)
  }

  ghost predicate AreTheWrites<V>(log: seq<Write<V>>, kind: Kind, from: nat, events: seq<Event<V>>)
  {
    && (forall k :: 0 <= k < |events| ==> ReportsOf(log, kind, from, events[k]))
    && (forall j, k :: 0 <= j < k < |events| ==> events[j].resourceVersion < events[k].resourceVersion)
    && (forall i :: from <= i < |log| && log[i].key.kind == kind ==> Delivers(events, i + 2))
  }

  ghost predicate Delivers<V>(events: seq<Event<V>>, resourceVersion: nat)
  {
    exists k :: 0 <= k < |events| && events[k].resourceVersion == resourceVersion
  }

  lemma {:induction false} EventsAreExactlyTheWrites<V>(log: seq<Write<V>>, kind: Kind, from: nat)
    requires Accepted(log) && NamesAreValid(log)
    ensures AreTheWrites(log, kind, from, EventsSince(log, kind, from))
  {
    if from < |log| {
      var n := |log| - 1;
      AcceptedPrefix(log, n);
      EventsAreExactlyTheWrites(log[..n], kind, from);
      EventsGrow(log, kind, from);
      var last := EventNamed(Live(log[..n]), log[n], n + 2, kind, log[n].key.name);
      OneMoreWriteIsReported(log, kind, from, EventsSince(log[..n], kind, from), last);
    }
  }

  lemma NewestIsReported<V>(log: seq<Write<V>>, kind: Kind, from: nat, e: Event<V>)
    requires Accepted(log) && from < |log|
    requires var n := |log| - 1; EventNamed(Live(log[..n]), log[n], n + 2, kind, log[n].key.name) == [e]
    ensures ReportsOf(log, kind, from, e)
  {
    var n := |log| - 1;
    var events := EventNamed(Live(log[..n]), log[n], n + 2, kind, log[n].key.name);
    assert e == events[0];
  }

  lemma ReportsOfExtends<V>(log: seq<Write<V>>, n: nat, kind: Kind, from: nat, e: Event<V>)
    requires n <= |log| && ReportsOf(log[..n], kind, from, e)
    ensures ReportsOf(log, kind, from, e) && e.resourceVersion < n + 2
  {
    assert log[..n][..e.resourceVersion - 2] == log[..e.resourceVersion - 2];
  }

  lemma DeliversExtends<V>(earlier: seq<Event<V>>, last: seq<Event<V>>, resourceVersion: nat)
    requires Delivers(earlier, resourceVersion) || Delivers(last, resourceVersion)
    ensures Delivers(earlier + last, resourceVersion)
  {
    if Delivers(earlier, resourceVersion) {
      var k :| 0 <= k < |earlier| && earlier[k].resourceVersion == resourceVersion;
      assert (earlier + last)[k] == earlier[k];
    } else {
      var k :| 0 <= k < |last| && last[k].resourceVersion == resourceVersion;
      assert (earlier + last)[|earlier| + k] == last[k];
    }
  }

  lemma OneMoreWriteIsReported<V>(log: seq<Write<V>>, kind: Kind, from: nat, earlier: seq<Event<V>>,
                                  last: seq<Event<V>>)
    requires Accepted(log) && from < |log|
    requires AreTheWrites(log[..|log| - 1], kind, from, earlier)
    requires var n := |log| - 1; last == EventNamed(Live(log[..n]), log[n], n + 2, kind, log[n].key.name)
    ensures AreTheWrites(log, kind, from, earlier + last)
  {
    var n := |log| - 1;
    var before, events := log[..n], earlier + last;
    assert |last| <= 1;
    forall k | 0 <= k < |events|
      ensures ReportsOf(log, kind, from, events[k])
      ensures if k < |earlier| then events[k].resourceVersion < n + 2 else events[k].resourceVersion == n + 2
    {
      if k < |earlier| {
        ReportsOfExtends(log, n, kind, from, earlier[k]);
      } else {
        NewestIsReported(log, kind, from, last[0]);
      }
    }
    forall i | from <= i < |log| && log[i].key.kind == kind ensures Delivers(events, i + 2) {
      if i < n {
        assert before[i].key.kind == kind;
      } else {
        NewestIsDelivered(log, kind);
      }
      DeliversExtends(earlier, last, i + 2);
    }
  }

  lemma NewestIsDelivered<V>(log: seq<Write<V>>, kind: Kind)
    requires Accepted(log) && log != [] && log[|log| - 1].key.kind == kind
    ensures var n := |log| - 1; Delivers(EventNamed(Live(log[..n]), log[n], n + 2, kind, log[n].key.name), n + 2)
  {
    var n := |log| - 1;
    assert Admits(Live(log[..n]), log[n]);
    assert EventNamed(Live(log[..n]), log[n], n + 2, kind, log[n].key.name)[0].resourceVersion == n + 2;
  }

  // ---------- the client ----------

  class EtcdClient<V> {
    var log: seq<Write<V>>
    var live: map<Key, Entry<V>>

    ghost predicate Valid()
      reads this
    {
      Accepted(log) && live == Live(log)
    }

    constructor ()
      ensures Valid() && log == []
    {
      log, live := [], map[];
    }

    method Get(key: Key) returns (entry: Option<Entry<V>>)
      requires Valid()
      ensures entry == if key in Live(log) then Some(Live(log)[key]) else None
    {
      entry := if key in live then Some(live[key]) else None;
    }

    method Create(key: Key, value: V) returns (version: nat, error: Option<StoreError>)
      requires Valid()
      modifies this
      ensures Valid()
      ensures error == if key in old(live) then Some(AlreadyExists) else None
      ensures error.None? ==> log == old(log) + [Put(key, value, 0)] && version == Revision(log)
      ensures error.Some? ==> log == old(log)
    {
      VersionIsZeroExactlyWhenAbsent(log, key);
      if !CanCreate(live, key) {
        return 0, Some(AlreadyExists);
      }
      Commit(Put(key, value, 0));
      return |log| + 1, None;
    }

    method Update(key: Key, value: V, resourceVersion: nat) returns (version: nat, error: Option<StoreError>)
      requires Valid()
      modifies this
      ensures Valid()
      ensures error == if CanUpdate(old(live), key, resourceVersion) then None else Some(Conflict)
      ensures error.None? ==> log == old(log) + [Put(key, value, resourceVersion)] && version == Revision(log)
      ensures error.Some? ==> log == old(log)
    {
      if !CanUpdate(live, key, resourceVersion) {
        return 0, Some(Conflict);
      }
      Commit(Put(key, value, resourceVersion));
      return |log| + 1, None;
    }

    method Delete(key: Key, resourceVersion: nat) returns (error: Option<StoreError>)
      requires Valid()
      modifies this
      ensures Valid()
      ensures error == if CanDelete(old(live), key, resourceVersion) then None else Some(NotFound)
      ensures log == if error.None? then old(log) + [Erase(key)] else old(log)
    {
      if !CanDelete(live, key, resourceVersion) {
        return Some(NotFound);
      }
      VersionIsZeroExactlyWhenAbsent(log, key);
      Commit(Erase(key));
      return None;
    }

    method Commit(write: Write<V>)
      requires Valid() && Admits(live, write)
      modifies this
      ensures Valid() && log == old(log) + [write]
    {
      AcceptedExtends(log, write);
      live := Applied(live, write, |log| + 2);
      log := log + [write];
    }

    // The events a watch opened at resourceVersion has to deliver by now. Version 0 means
    // "from the present on".
    method Watch(kind: Kind, resourceVersion: nat) returns (events: seq<Event<V>>)
      requires Valid()
      ensures events == EventsSince(log, kind, if resourceVersion > 0 then resourceVersion - 1 else |log|)
    {
      hide Live, EventOf, Accepted;
      var from := if resourceVersion > 0 then resourceVersion - 1 else |log|;
      events := [];
      var i := if from < |log| then from else |log|;
      while i < |log|
        invariant i <= |log|
        invariant events == EventsSince(log[..i], kind, from)
      {
        assert log[..i + 1][..i] == log[..i];
        events := events + EventOf(Live(log[..i]), log[i], i + 2, kind);
        i := i + 1;
      }
      assert log[..|log|] == log;
    }
  }
}
