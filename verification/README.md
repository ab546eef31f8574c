# toy-kubernetes in Dafny

A model of toy-kubernetes and proofs of what its components promise. The store is an etcd-like list of
accepted writes; the API server, the controllers, the scheduler, the kubelets and kube-proxy act on it, and
each node has a container runtime, a CNI plugin and a set of routes. `dafny verify dfyconfig.toml` checks
everything.

What is proved, in short:

- **Safety in every interleaving.** With any number of controllers, schedulers and kubelets that act on lists
  of any age: no lost update, never more Pods than a ReplicaSet ever asked for, and a bound Pod stays bound.
- **Progress.** Every Pod request of a reconcile goes one step towards the desired number, retries add up
  exactly, and one undisturbed pass of all components converges; a second one writes nothing.
- **No missed change.** The watch/reconcile loop, with its goroutines and one-slot channels, never sleeps on a
  change, wakes up within a bounded number of steps, lists everything anew, and ends only when it is stopped.
- **Contents.** What every component stores is said field by field, in terms of what it was made from:
  Services, ReplicaSets, Pods, bindings, mirrors and status reports, under any network trouble.
- **The node.** Runtime lifecycle under process exits at any time, exact kubelet and static Pod reconciles,
  mirror Pods that track the manifests.
- **Addresses and traffic.** Exact allocators, cluster-wide unique Pod addresses, routes to the owner only,
  and forwarding rules that reach the right endpoints by first match.

## Layout

| file | what it holds |
|---|---|
| Text, Arithmetic | strings in byte order, decimal numbers, numbered names; division and products |
| Etcd, Api, Services, ApiServer | the versioned store and its watch, resources and lists, Service allocation, request handling, clients with lossy networks |
| ServiceRaces | what happens when Service requests overlap |
| ReplicaSets, ReplicaSetController, Deployments, Scheduler | the controllers and the scheduler: specification and loops |
| ControlPlane | all of them at once, on lists of any age |
| WatchLoop | `Run`, `CombineWatches` and `WatchErrors` as atomic steps |
| Runtime, RuntimeService, Starts, StaticPods, PodUpdates, MirrorPods, Kubelet | the node agent |
| LostReports | a Pod whose report is lost |
| Bootstrap, Cni, Network | subnets, Pod addresses, routes |
| KubeProxy | Service rules and their first-match meaning |
| ScalePass, Convergence, WholePass | one undisturbed pass of the whole system |

Components that update state are classes whose methods are proved against specification functions on values;
the theorems are lemmas about those functions. `SendAll` is the common specification of a controller's
calls: requests in order until one is not answered well, under any choice of lost requests and lost replies.

## Assumptions

- etcd transactions are atomic and its history is not compacted. Names are non-empty and contain no slash
  where a watch reads them back from keys; `Etcd.NameFromKeyIsExactForValidNames` says why.
- JSON and YAML keep values, also the difference between an absent and an empty collection where the source
  compares with `reflect.DeepEqual`.
- List and write of one Service request are one step where the store's soundness is claimed;
  `ServiceRaces` says exactly what happens otherwise.
- CRI requests come one at a time, signals end processes, sandbox processes do not end by themselves, and a
  new process has an id that no live process has. Only the statement that a reconcile of matching static Pods
  does nothing asks in addition that no stopped container remembers the id of another Pod's sandbox.
- A kubelet's pass is not interleaved with exits of the containers it looks at; an exit is a runtime event and
  leads to another pass.
- Users do not overwrite Pods and do not create Pods in a ReplicaSet's name; anything else they do is part of
  the interleaved runs.
- Calls into the operating system (commands, processes, pipes, `nft`) are parameters that say whether they
  succeed.

Five promises do not hold as a reader might expect; the exact condition under which each does is proved:
NodePorts under overlapping requests (`ServiceRaces`), sandbox addresses when a static and a workload Pod
share a name (`Runtime.SandboxAddressesAreUnique`), forwarding when ports clash
(`KubeProxy.ForwardedExactlyWhenFirst`), mirrors of several nodes (`MirrorPods.OtherNodesMirrorsGo`), and
the address of a Pod shown as Running (`Kubelet.StoredAddressIsRightExactly`). Elsewhere, too, the code is
followed: underlay host 255 is accepted, the Pods trimmed by a ReplicaSet are the last ones in string order,
and only Running containers are cleaned up by the kubelet.

## Model

| member | source | states |
|---|---|---|
| `Text.NumberOfDecimal` | controller-manager/controllers.go:285 | The decimal text of a number determines the number, so printed indices and address bytes can be read back. |
| `Text.NumberedIsInjective` | controller-manager/controllers.go:285 | A name made of a prefix, a separator and a number determines prefix and number, even when the prefix contains separators or digits. |
| `Etcd.NameFromKeyIsExactForValidNames` | etcd/etcd.go:211-218 | The name a watch event reads back from a stored key is the object's name if and only if that name is non-empty and has no slash. |
| `Etcd.PathsAreFaithful` | etcd/etcd.go:211-213 | Two objects share a key path only if they are the same object, and the prefix read of one kind returns that kind only. |
| `Etcd.EntryIsLastWrite` | etcd/etcd.go:62-94 | A stored entry is the last accepted write to its key, its ModRevision says which one, and nothing touched the key afterwards. |
| `Etcd.VersionIsZeroExactlyWhenAbsent` | etcd/etcd.go:103-112 | Comparing a key's version or ModRevision with zero holds exactly when the key is absent, which is what Create relies on. |
| `Etcd.VersionsPreventLostUpdates` | etcd/etcd.go:120-160 | If an Update or versioned Delete at a version read earlier still passes, the stored entry is the one that was read and nothing touched the key in between, not even a delete and re-creation. |
| `Etcd.UpdatesFormAChain` | etcd/etcd.go:97-141 | In every accepted history an update continues the immediately preceding write of its key, and a creation happens only where the key was absent. |
| `Etcd.ListPlusWatchIsALaterList` | etcd/etcd.go:81-94 | A List followed by the watch events after its revision gives the List at every later time. |
| `Etcd.EventsAreExactlyTheWrites` | etcd/etcd.go:163-209 | The events of a watch are exactly the accepted writes of its kind in order: ADDED when the key was absent just before, MODIFIED when present, DELETED with the last value; no other event. |
| `Etcd.EtcdClient.Create` | etcd/etcd.go:97-118 | Succeeds exactly when the key is absent and then appends that write; otherwise changes nothing. |
| `Etcd.EtcdClient.Update` | etcd/etcd.go:120-141 | Succeeds exactly when the key's ModRevision is the given version and then appends that write; otherwise reports a conflict and changes nothing. |
| `Etcd.EtcdClient.Delete` | etcd/etcd.go:143-161 | With a version it removes exactly the object of that version, without one any existing object; otherwise it reports not-found and changes nothing. |
| `Etcd.EtcdClient.Watch` | etcd/etcd.go:163-209 | Delivers the events of its kind after the given revision, and only those from now on when the revision is zero. |
| `Api.WellTypedLogGivesWellTypedObjects` | apiserver/server.go:402-415 | Every stored object sits under its own kind and name, so lists and reads decode to the right type. |
| `Api.EnumerationIsUnique` | etcd/etcd.go:81-94 | The order in which a prefix read returns the keys of one kind is determined by the names alone. |
| `Api.ListPods` | apiserver/server.go:71-83 | A Pod list holds exactly the stored Pods, each with its ModRevision as resourceVersion, in name order. |
| `Api.ListReplicaSets` | apiserver/server.go:71-83 | A ReplicaSet list holds exactly the stored ReplicaSets with their versions, in name order. |
| `Api.ReadsKeepAllButTheVersion` | apiserver/server.go:402-415 | A read gives the stored object with its ModRevision as resourceVersion and every other field as it is stored, for each of the five kinds. |
| `Api.LabelsAreRefusedExactly` | api/common.go:9-16 | Labels fail a selector exactly if a selected label has another value or is missing while a non-empty value is asked for; an empty selector takes all. |
| `Api.OwnersAreFoundExactly` | controller-manager/controllers.go:238-245 | An owner reference is found exactly by kind and name, and by uid where one is asked for. |
| `Services.ServiceAddressIsInjective` | apiserver/server.go:213-217 | Different host numbers give different address texts as long as the 32-bit sum does not wrap. |
| `Services.FreePort` | apiserver/server.go:205-210 | The automatic NodePort is the least free one of the range; the search fails exactly when all are used. |
| `Services.FreeServiceHost` | apiserver/server.go:134-144 | The automatic ClusterIP is the least free host of 2 to 254; the search fails only when all are used. |
| `Services.PreparedServicesAreSound` | apiserver/server.go:147-173 | A prepared Service has a known type, a NodePort exactly when it is of type NodePort, in range and used by no other stored Service; an address chosen by the server is host 2 to 254 and differs from every stored one. `PreparedServicesAreFilledIn` says what the rest of it is. |
| `Services.PreparedServicesAreFilledIn` | apiserver/server.go:147-173 | Name, labels, selector, port and targetPort of a prepared Service are those of the request; a given type, address or port is kept; an absent type becomes ClusterIP, an absent address the least free one of hosts 2 to 254, an absent NodePort the least free one of 30000 to 32767, and a Service of another type keeps port 0. |
| `Services.ServicesAreRefusedExactly` | apiserver/server.go:147-211 | A Service is refused if and only if its type is unknown, its type does not allow the port it asks for, that port is out of range or taken by another Service, or there is nothing left to choose where it leaves the choice open. |
| `Services.ServiceAddressInWords` | apiserver/server.go:213-217 | Host h of the Service network is written 10.96.0. followed by h in decimal. |
| `Services.StoringAPreparedServiceKeepsTheInvariant` | apiserver/server.go:245-264 | Storing a prepared Service keeps stored NodePorts pairwise distinct, in range, and present exactly on NodePort Services. |
| `Services.ExhaustionIsExact` | apiserver/server.go:112-211 | A request fails for want of an address exactly when it needs one and all 253 are in use, and for want of a port exactly when it needs one and all 2768 are. |
| `ApiServer.ServingKeepsSoundness` | apiserver/server.go:84-105 | A served request keeps the store sound: an acceptable transaction, the object under its own non-empty name, the Service allocation invariant. |
| `ApiServer.EveryServedLogIsSound` | apiserver/server.go:219-282 | Over all serialized sequences of creations, updates and deletions the store stays sound. |
| `ServiceRaces.LateWritesAreSoundExactlyWithAFreePort` | apiserver/server.go:84-105 | A Service prepared on an older list and written now keeps the store sound if and only if its NodePort is 0 or used by no other Service stored by then. |
| `ServiceRaces.TwoOverlappingCreations` | apiserver/server.go:92-99 | Of two creations prepared on one list both are accepted, and the store stays sound if and only if they do not collide: both of type NodePort with the same port, requested or chosen. Two automatic ones always collide, and share the ClusterIP when both leave it open. |
| `ServiceRaces.OverlappingCreationsBreakTheInvariant` | apiserver/server.go:175-211 | The failing input: from the empty store, two creations that leave the port to the server are both accepted, and two Services hold one NodePort. |
| `ApiServer.Server.List` | apiserver/server.go:71-83 | Returns the stored objects of one kind with their versions, in name order. |
| `ApiServer.Server.AllocateServiceIP` | apiserver/server.go:112-145 | Fills the set of used addresses from the stored Services and returns the least free one, or the exhaustion error. |
| `ApiServer.Server.AllocateNodePort` | apiserver/server.go:175-211 | Refuses a port out of range or taken by another Service, returns a free requested one, else the least free one, or the exhaustion error. |
| `ApiServer.Server.PrepareService` | apiserver/server.go:147-173 | Returns what the specification of preparation returns, which `Services.PreparedServicesAreFilledIn` and `Services.ServicesAreRefusedExactly` describe field by field and refusal by refusal. |
| `ApiServer.Server.Handle` | apiserver/server.go:84-105 | A POST, PUT or DELETE makes exactly the one write its specification allows, or is refused with the given status and changes nothing. After an accepted one the store holds the body under its name (a Service filled in, anything else as it was sent), or nothing after a DELETE, and every other key as before; soundness is kept. |
| `ApiServer.PostsAreAcceptedExactly` | apiserver/server.go:85-106 | A POST is a bad request exactly for a missing name, a Pod without containers or a Service that is refused, a conflict exactly if it is none of these and the name is taken, and accepted otherwise. |
| `ApiServer.PutsAreAcceptedExactly` | apiserver/server.go:232-265 | The same for a PUT, which in addition has to carry the name of the URL and a version, and conflicts exactly if that is not the version stored. |
| `ApiServer.DeletesAreAcceptedExactly` | apiserver/server.go:266-279 | A DELETE is accepted exactly if the object is there, at the version if one is given, and not-found otherwise. |
| `ApiServer.AcceptedServicesAreListed` | apiserver/server.go:71-105 | Until the next write to its name, a List shows an accepted Service with the version of its write, filled in as above, with the selector, port and targetPort of the request. |
| `ApiServer.SendAllInTwoParts` | controller-manager/controllers.go:179-216 | A controller's requests, sent until the first failure, can be looked at in two parts whatever the network does. |
| `ApiServer.SendAllKeepsOtherKeys` | apiserver/client.go:174-187 | Requests leave every object alone that none of them names, even when some of them fail or their replies get lost. |
| `ApiServer.NewEntriesAreBodies` | apiserver/client.go:189-220 | Whatever the network does, an entry that is new or changed after a controller's requests is the body of one of them, unaltered. |
| `ApiServer.GoneEntriesAreRemoved` | apiserver/client.go:189-220 | And an entry that is gone is one that a request removes. |
| `ApiServer.GoneEntriesHadTheVersion` | etcd/etcd.go:143-161 | Where none of the requests writes it, an entry that is gone was stored, before all of them, at the very version the removal asks for, if it asks for one. |
| `ApiServer.Client.Send` | apiserver/client.go:189-220 | One exchange: the request takes effect unless it is lost, and the caller learns the outcome unless the reply is. |
| `ReplicaSets.ManagedPodsOfAFreshList` | controller-manager/controllers.go:228-236 | On a fresh list the managed Pods are exactly the stored Pods that have the ReplicaSet as owner and match its selector. |
| `ReplicaSets.ManagedExactly` | controller-manager/controllers.go:228-245 | A Pod is managed exactly if it is stored, has an owner reference of kind ReplicaSet with that name (and uid, where the ReplicaSet has one), and has the labels selected. |
| `ReplicaSets.PodNamesNeverMeet` | controller-manager/controllers.go:285 | Generated names agree exactly when ReplicaSet name and index do, also when names contain dashes. |
| `ReplicaSets.Pigeonhole` | controller-manager/controllers.go:278-290 | If all indices below one are used, there are at least that many used names, so the search ends at most one past their number. |
| `ReplicaSets.LeastUnused` | controller-manager/controllers.go:278-290 | The search returns the least unused index, at most one above the number of used names. |
| `ReplicaSets.CreationsMoveUp` | controller-manager/controllers.go:189-198 | Whatever the network does, each creation that takes effect adds one managed Pod under a name that was free, and no more are made than planned. |
| `ReplicaSets.DeletionsMoveDown` | controller-manager/controllers.go:200-208 | Whatever the network does, each deletion that takes effect removes one managed Pod, and no more than planned. |
| `ReplicaSets.ReconcileMovesTowardsDesired` | controller-manager/controllers.go:179-216 | Every Pod request of a reconcile from a fresh list that takes effect brings the count one closer to max(0, replicas) and none goes past it; a reconcile without error reaches it; without network trouble there is no error. |
| `ReplicaSets.RetriesMakeExactlyTheMissingRequests` | controller-manager/controllers.go:179-216 | However many reconciles fail on the way, once one succeeds the Pod requests that took effect in all of them together are exactly the initial difference; one without network trouble succeeds. |
| `ReplicaSets.ScalingStoresTheTemplate` | controller-manager/controllers.go:264-276 | Whatever the network does, from a list of any age: a Pod stored after a reconcile and not before has exactly the template's spec and labels, no annotations, no phase and no address, the ReplicaSet as its only owner and a generated name; and the ReplicaSet itself changes in nothing but its status, to max(0, replicas). |
| `ReplicaSets.ScalingRemovesTheLast` | controller-manager/controllers.go:179-208 | Whatever the network does, from a fresh list: what a reconcile removes is a managed Pod that at least max(0, replicas) managed Pods sort before, so the last ones in name order go. |
| `ReplicaSets.ScalingSparesNewerPods` | controller-manager/controllers.go:200-208 | Whatever the network does, from a list of any age: a Pod that a reconcile removes is a listed one and was still stored at the very version listed, so a Pod that has changed since stays. |
| `ReplicaSetController.OthersKeepTheirPods` | controller-manager/controllers.go:134-140 | With one ReplicaSet owner per Pod, reconciling one ReplicaSet, even partly, leaves the managed Pods of every other as they were. |
| `ReplicaSetController.OneListServesThePass` | controller-manager/controllers.go:123-143 | A pass with one Pod list for all ReplicaSets sends the same requests and has the same outcome as one that lists the Pods anew for each. |
| `ReplicaSetController.Controller.ManagedPodsFor` | controller-manager/controllers.go:228-236 | The loop collects the Pods that name the ReplicaSet as owner and match its selector, in list order. |
| `ReplicaSetController.Controller.NextPodName` | controller-manager/controllers.go:278-290 | The loop ends and returns the name with the least unused index. |
| `ReplicaSetController.Controller.ReconcilePods` | controller-manager/controllers.go:179-216 | Creates or deletes exactly the planned Pods in order, then updates the status if it differs, stopping at the first failed call; under any faults every Pod that is new in the store is made from the template (spec, labels, owner; no annotations, phase or address) and the ReplicaSet changes in its status only. |
| `ReplicaSetController.Controller.Reconcile` | controller-manager/controllers.go:123-143 | One list of ReplicaSets and one of Pods, then the requests of every ReplicaSet in turn, stopping at the first failed call; under any faults everything that is new in the store is a Pod made from the template of one of the listed ReplicaSets, or one of these with another status. |
| `ReplicaSetController.PassesStoreTheTemplates` | controller-manager/controllers.go:123-143 | The same for a pass on lists of any age. |
| `Deployments.ReplicaSetFor` | controller-manager/controllers.go:218-226 | The first ReplicaSet in the list that the Deployment owns: it is in the list and owned, and no earlier one is; none exactly if it owns none. |
| `Deployments.NoRequestsWhenSynced` | controller-manager/controllers.go:65-68 | The controller sends nothing for a Deployment if and only if the stored ReplicaSet agrees with it in spec and owners. |
| `Deployments.PassSyncsEveryDeployment` | controller-manager/controllers.go:41-77 | An undisturbed pass succeeds, leaves every Deployment with its ReplicaSet in agreement, and writes nothing else. |
| `Deployments.PassesStoreTheDeployments` | controller-manager/controllers.go:41-77 | Whatever the network does, from lists of any age: nothing is removed, and what is new in the store is a ReplicaSet named after a Deployment, owned by it, with its replicas, selector and template, the template's labels, no annotations, and the status of the first owned ReplicaSet listed, or 0 where none was. |
| `Deployments.Controller.Reconcile` | controller-manager/controllers.go:41-77 | Lists once and then, per Deployment, creates or updates its ReplicaSet or does nothing, stopping at the first failed call; under any faults the store gets nothing but ReplicaSets made for the listed Deployments, with the status of the one replaced. |
| `Scheduler.Search` | scheduler/scheduler.go:90-103 | The cyclic search returns a Ready node if there is one among the positions left, and none only if no such node is Ready. |
| `Scheduler.SearchFindsNextRank` | scheduler/scheduler.go:95-100 | The search picks the Ready node that comes next, cyclically, after those before the cursor. |
| `Scheduler.PicksGoRoundTheRanks` | scheduler/scheduler.go:35-52 | The k-th bind goes to the Ready node k places on in the cycle of Ready nodes, from any starting cursor. |
| `Scheduler.RoundRobinIsBalanced` | scheduler/scheduler.go:35-52 | After any number of binds from any cursor, the totals of two Ready nodes differ by at most one and a node that is not Ready has none. |
| `Scheduler.ConsecutiveBindsHitDistinctNodes` | scheduler/scheduler.go:35-52 | Any m consecutive binds, with m Ready nodes, hit m distinct nodes. |
| `Scheduler.BindsStayBalanced` | scheduler/scheduler.go:23-55 | The same balance of the picks over any number of reconciles, with any Pods, any network trouble and failed binds in between. |
| `Scheduler.StoredBindsStayBalanced` | scheduler/scheduler.go:23-55 | The same balance as the store shows it: the nodeNames stored by the acknowledged binds of any number of reconciles are names of Ready nodes, any two Ready nodes get equally many up to one, and any m binds in a row, with m Ready nodes, are stored on different ones. |
| `Scheduler.ReconcileStoresItsPicks` | scheduler/scheduler.go:35-52 | The Pod of the k-th acknowledged bind, the k-th unbound Pod listed, is stored with the name of the k-th node picked, which is Ready, and with everything else as it was listed. |
| `Scheduler.ReconcileOnlyBinds` | scheduler/scheduler.go:35-52 | Whatever the network does, from lists of any age: a reconcile changes only listed Pods that had no node, and stores each on a listed Ready node, otherwise unaltered. |
| `Scheduler.NextReadyNode` | scheduler/scheduler.go:90-103 | The loop returns the node the cyclic search finds and the cursor after it; the cursor stays when none is found, and is 0 for an empty list. |
| `Scheduler.Scheduler.Reconcile` | scheduler/scheduler.go:23-55 | Binds the unbound Pods of a fresh list in turn; the cursor moves only with a successful bind and survives the call. Under any faults the store changes only in such Pods, each now with the name of a listed Ready node, and after the k-th acknowledged bind that is the name of the k-th node picked. |
| `ControlPlane.RunsAreSound` | apiserver/server.go:219-282 | Every interleaving of component requests, on lists of any age, leaves a sound store. |
| `ControlPlane.ReplicaSetPassesAreRuns` | controller-manager/controllers.go:123-143 | What the ReplicaSet controller's pass does, with lists of any age and any network trouble, is a run of the interleaved model. |
| `ControlPlane.DeploymentPassesAreRuns` | controller-manager/controllers.go:41-77 | The same for the Deployment controller. |
| `ControlPlane.SchedulerPassesAreRuns` | scheduler/scheduler.go:23-55 | The same for the scheduler. |
| `ControlPlane.KubeletPassesAreRuns` | kubelet/kubelet.go:83-109 | The same for a kubelet's status reports. |
| `ControlPlane.MirrorPassesAreRuns` | kubelet/mirror_pods.go:19-65 | The same for a kubelet's mirror pass, creations, updates and removals, in any order of the map. |
| `ControlPlane.ScalingCreatesSmallNames` | controller-manager/controllers.go:189-198 | From a Pod list of any age, every Pod a reconcile creates has an index of at most the desired number. |
| `ControlPlane.NeverTooManyReplicas` | controller-manager/controllers.go:189-198 | If no stored version of a ReplicaSet asks for more than N, then in every run of any number of controllers on lists of any age at most N Pods owned by it exist at any time, named with the indices 1 to N. |
| `ControlPlane.OverwritingGoesOn` | etcd/etcd.go:120-141 | In every run a write to a stored Pod is an update of that very Pod by its sender: identity and spec stay, except that a Pod without a node may get one; mirrors stay mirrors. |
| `ControlPlane.BindingIsPermanent` | scheduler/scheduler.go:35-52 | In every run a non-mirror Pod that has a node keeps it, and the rest of its spec, until it is deleted, whatever schedulers, kubelets and controllers do with old lists. |
| `WatchLoop.StepKeepsInv` | api/reconcile.go:18-101 | Every atomic step of Run, the watch goroutines and the store keeps: lists are not older than the streams, a sent event is in the slot, only a sent event cancels. |
| `WatchLoop.BlockedMeansUpToDate` | api/reconcile.go:16-60 | In every interleaving, when Run is in its select and no event is buffered or in transit, the last successful Reconcile listed exactly the current objects of every watched kind. |
| `WatchLoop.ChangeIsUnderWay` | api/reconcile.go:74-101 | While Run waits and something has changed since it listed, its event is in the slot or the goroutine that carries it can go on. |
| `WatchLoop.RunWakesUp` | api/reconcile.go:52-59 | After a change the goroutines can make at most four steps per watched kind, and as long as the event is not there one of them can go on: Run wakes up. `ChangesAreReconciled` and `WakingUpListsAnew` say what it does then. |
| `WatchLoop.ChangesAreReconciled` | api/reconcile.go:18-60 | While Run waits and something of a watched kind has changed, there is a run of goroutine steps and of Run's own steps, none of them a failure or a stop, that ends in the select with every kind listed at the current state. |
| `WatchLoop.RunReconcilesAgain` | api/reconcile.go:18-60 | From every state that the loop can reach, except when it is over or waits with an empty slot, Run can go on by its own steps until it is in its select with every kind listed as it is stored then: after an event, after a failed Reconcile, after a watch that could not be opened. |
| `WatchLoop.WakingUpListsAnew` | api/reconcile.go:21-59 | In every interleaving after an event was taken or the retry timer ran out: when Run is in its select again, every kind has been listed since. |
| `WatchLoop.OnlyStopEndsRun` | api/reconcile.go:21-70 | In every run of the loop, Run has returned if and only if its context was stopped. |
| `WatchLoop.CancelledExactly` | api/reconcile.go:75-97 | In every interleaving of one generation its watches are cancelled if and only if a goroutine has sent its event and cancelled, a watch could not be opened, or Run was stopped; a failed Reconcile leaves them. |
| `WatchLoop.NoGoroutineHangs` | api/reconcile.go:87-98 | In every reachable state a goroutine that has taken its event can send it or quit, or can quit once another one, which is able to, has cancelled; when Run is over it can quit though nobody reads the common slot. |
| `WatchLoop.ListingFirstMissesChanges` | api/reconcile.go:16-17 | The loop with Reconcile before the watches: a run of six steps, with any write between its list and its watch, ends in the select with nothing in transit and a list that is not the stored state. |
| `Runtime.StepKeepsInv` | cri/runtime/runtime.go:206-243 | Every request and every process exit keeps the lifecycle invariant. |
| `Runtime.RunsKeepInv` | cri/runtime/runtime.go:267-389 | Over every sequence of requests mixed with process exits there is at most one Running sandbox per Pod and source, and every Running container's sandbox exists. |
| `Runtime.SandboxStartsFailExactly` | cri/runtime/runtime.go:267-326 | With a sandbox of the Pod and source running, nothing changes; otherwise the request fails exactly if no process starts, an address is needed and not had, or the process cannot be told to go on, and only in the last case something stays behind, the attachment. |
| `Runtime.SandboxStartsAreExact` | cri/runtime/runtime.go:267-326 | What is returned is a Running sandbox of that Pod and source, the one there is or a new one named after the process, with the address that the plugin holds for the Pod if it needs one and none otherwise; containers, other sandboxes and other attachments stay. |
| `Runtime.ContainerStartsAreExact` | cri/runtime/runtime.go:328-365 | A container is started exactly if the sandbox is there and the process starts; it is then the Pod's, Running in that sandbox, named after the process, and no other container, sandbox or waiting goroutine changes. |
| `Runtime.SandboxStopsAreExact` | cri/runtime/runtime.go:367-389 | A stop fails exactly for an unknown sandbox; it removes that one only, leaves its containers Stopped without a process and all others as they were, and takes the Pod's attachment away exactly if it is on the Pod network and the command succeeds. |
| `Runtime.SandboxesStay` | cri/runtime/runtime.go:439-459 | Whatever else happens, ending and restarting containers included, a sandbox keeps its identity and address until it is stopped itself. |
| `Runtime.LateExitsDoNotStopNewContainers` | cri/runtime/runtime.go:439-459 | A running container stays as it is until its own process ends or it is asked to end; exits of processes it replaced, however late, do not mark it stopped. |
| `Runtime.ReplacedProcessesHaveTheirOwnChannel` | cri/runtime/runtime.go:354-360 | When a running container is replaced, its old process is still waited for, and that exit leaves the new container Running. |
| `Runtime.ChangesArePublished` | cri/runtime/runtime.go:190-200 | Every change of a container or sandbox leaves an event in the slot of every watcher. |
| `Runtime.WatchersLearnExactly` | cri/runtime/runtime.go:166-200 | Over every run, whatever other watchers do: after a watch was opened or its event taken, its slot holds an event if and only if some container or sandbox has changed since. |
| `Runtime.SandboxAddressesAreUnique` | cri/runtime/runtime.go:267-389 | Over every run the addresses of the sandboxes on the Pod network differ at all times if and only if at no time two of them have the same Pod name, one static and one not. |
| `Runtime.SharedNamesShareTheAddress` | cri/runtime/runtime.go:292-300 | With one name for both sources two sandboxes do share an address, because the network plugin is asked by Pod name. |
| `Runtime.StoppingOneGivesTheAddressAway` | cri/runtime/runtime.go:367-389 | And the damage spreads: stopping one of the two deletes the shared attachment, so that a third Pod of another name is given the address that the other one still has. |
| `RuntimeService.Runtime.RunPodSandbox` | cri/runtime/runtime.go:267-326 | Returns the Running sandbox of that Pod and source if there is one; else starts one, attaches it unless it uses the host network, and fails as the specification says. |
| `RuntimeService.Runtime.RunInSandbox` | cri/runtime/runtime.go:328-365 | Starts a container only in a Running sandbox and puts it in the place of any other container of the Pod. |
| `RuntimeService.Runtime.StopPodSandbox` | cri/runtime/runtime.go:367-389 | Stops exactly the containers of the sandbox, in whatever order, detaches it, removes it; not-found for an unknown one. |
| `RuntimeService.Runtime.Stop` | cri/runtime/runtime.go:473-498 | Ends the Pod's process if it has one and returns when it is marked stopped; not-found for an unknown Pod. |
| `RuntimeService.Runtime.WaitForContainer` | cri/runtime/runtime.go:439-459 | Marks the container stopped only if it is still the one whose process ended. |
| `RuntimeService.Runtime.Publish` | cri/runtime/runtime.go:190-200 | Fills every empty watcher slot and drops the event where one is pending. |
| `StaticPods.BoxStops` | cri/runtime/runtime.go:367-389 | In a runtime used by a kubelet, stopping a sandbox stops its own Pod's container and touches nothing else. |
| `StaticPods.KubeletStepsStayTidy` | kubelet/kubelet.go:249-258 | As a kubelet uses it, the runtime keeps every Running container in a sandbox of its own Pod, whatever ids stopped containers remember. |
| `StaticPods.StaticSandboxForPod` | kubelet/static_pods.go:181-188 | Finds a static sandbox of the Pod if and only if one is listed. |
| `StaticPods.ContainerForSandbox` | kubelet/static_pods.go:190-197 | Finds a container of the sandbox if and only if one is listed. |
| `StaticPods.ReconcileStaticPods` | kubelet/static_pods.go:135-179 | After success the static sandboxes are those of exactly the manifests, each with a Running container; workload sandboxes are untouched, other Pods' containers and addresses too; when all is right, and no stopped container remembers another Pod's sandbox, nothing is done. It succeeds when the starts work and there are hosts for the Pods that need one, and takes no more hosts than those. |
| `MirrorPods.MirrorNamesAreInjective` | kubelet/mirror_pods.go:67-76 | On one node, mirror names tell static Pods apart. |
| `MirrorPods.FreshMirrorsAreRight` | kubelet/mirror_pods.go:25-30 | The map of current mirrors holds exactly the stored mirror Pods. |
| `MirrorPods.MirrorsTrackTheManifests` | kubelet/mirror_pods.go:19-65 | An undisturbed pass leaves exactly the mirrors of the manifests, in whatever order the map is walked: under manifest name, dash, node name a Pod with the manifest's containers and hostNetwork, this node as its node, and the manifest's annotations plus config.mirror = manifest name and config.source = file; no other Pod is a mirror. It touches no other object, and writes nothing when they agree already. |
| `MirrorPods.MirrorsMatchExactly` | kubelet/mirror_pods.go:36-42 | What the pass compares is that and nothing else: the mirrors are right for it if and only if each manifest's mirror is stored with these fields and there is no other mirror. |
| `MirrorPods.MirrorPassesStoreTheManifests` | kubelet/mirror_pods.go:33-76 | Whatever the network does, from a map of any age: a Pod that is new or changed after a pass is the mirror of a manifest, with these fields and with the manifest's labels and owner references, and without a status. |
| `MirrorPods.MirrorsAreRemovedAsListed` | kubelet/mirror_pods.go:54-63 | Whatever the network does, from a map of any age: what a pass removes is a listed mirror that no manifest asks for, still stored at the very version listed. |
| `MirrorPods.MirrorsAreNeverBound` | scheduler/scheduler.go:35-38 | After such a pass a reconcile of the scheduler, whatever happens to its requests, leaves every mirror as it is, since it has its node. |
| `MirrorPods.ReconcileMirrorPods` | kubelet/mirror_pods.go:19-65 | Creates, updates and deletes as specified; a mirror that is already gone is no error; stops at any other failed call. Under any faults what it stores are the manifests' mirrors, field by field. |
| `MirrorPods.MirrorPassesSucceed` | kubelet/mirror_pods.go:19-65 | Without network trouble, and with the mirrors' names free, a pass does not fail however far it has come in the map. |
| `MirrorPods.MirrorPassesChangeOnlyMirrors` | kubelet/mirror_pods.go:19-65 | Whatever happens to its requests, a mirror pass changes, adds or removes no Pod that is not a mirror. |
| `MirrorPods.OtherNodesMirrorsGo` | kubelet/mirror_pods.go:54-63 | A pass takes all mirrors for its own: a mirror of another node is still stored afterwards if and only if this node has a manifest with a mirror of that name. |
| `MirrorPods.TwoNodesNeverAgree` | kubelet/mirror_pods.go:25-63 | Two nodes with dash-free names both find their mirrors right only when neither has a manifest and no mirror is stored. |
| `Kubelet.FreshlyAssigned` | kubelet/kubelet.go:266-274 | The assigned Pods of a fresh list are exactly the stored Pods whose nodeName is the node and that have no kubernetes.io/config.mirror annotation. |
| `Starts.BoxStartsExactly` | cri/runtime/runtime.go:267-326 | A sandbox is had exactly when there is one already, or its process starts, is ready and, if the Pod needs an address, the commands work and a host is free; then exactly the host it needs has been taken, and a new sandbox has an address exactly on the Pod network. |
| `Kubelet.RunPod` | kubelet/kubelet.go:249-258 | Succeeds if and only if the sandbox can be had and the container process starts; then the Pod's container runs in a workload sandbox of the Pod at the returned address. Only that Pod is touched. |
| `Kubelet.Kubelet.RunDesired` | kubelet/kubelet.go:89-109 | Starts the assigned Pods that do not run and reports those, once each, with the address they run at, and the ones the store does not know to run; leaves running containers alone. It succeeds if and only if the starts that are needed work, there are hosts for all Pods that need one, and every report is answered well, whatever the order of the map; what has been reported is true even when it fails. |
| `Kubelet.Kubelet.ClearUndesired` | kubelet/kubelet.go:111-124 | Stops exactly the listed Running containers that are neither assigned nor in a static sandbox and removes their sandboxes. |
| `Kubelet.Kubelet.ReconcileWorkloads` | kubelet/kubelet.go:63-126 | After success the Running containers are those of the assigned Pods, in live workload sandboxes when static names differ, and of static sandboxes; everything else that ran is stopped with its sandbox removed; static sandboxes are untouched, and running Pods stay where they are; exactly the Pods that need it are reported; a settled node is left alone. From a valid store without network trouble it succeeds if and only if the needed starts work and hosts suffice. |
| `PodUpdates.ReportsAreStored` | kubelet/kubelet.go:260-264 | After undisturbed reports the store shows every reported Pod as Running at the reported address, and every other Pod as it was. |
| `Kubelet.StoredAddressIsRightExactly` | kubelet/kubelet.go:89-109 | After an undisturbed reconcile every assigned Pod that runs in a workload sandbox is shown as Running, at the address of its sandbox if and only if its container did not run before or the stored address was that one already; otherwise the stored address stays as it was. |
| `LostReports.LoseTheReport` | kubelet/kubelet.go:97-109 | The failing input: one Pod is started on the Pod network and its report is lost. The next undisturbed pass leaves it shown as Running with an empty address, no later pass sends anything, and no Service ever has it as an endpoint. |
| `Kubelet.Kubelet.Reconcile` | kubelet/kubelet.go:45-126 | Static Pods, mirrors, workloads, up to the first failure. After success, names being apart, exactly the Pods of the manifests and the assigned ones run, each in a sandbox of its kind; without network trouble the mirrors match as well; at rest nothing is done. It succeeds without network trouble when the static and the needed workload starts work, names are apart and free, and hosts suffice for both kinds together. Mirror requests, failed or not, leave the assigned Pods exactly as they were. |
| `Kubelet.WorkloadsLeaveStaticPodsMatched` | kubelet/kubelet.go:45-126 | Static Pods that match their manifests still do after the workload phase of the same reconcile. |
| `Kubelet.MirrorsLeaveAssignmentsAlone` | kubelet/kubelet.go:51-55 | Where only mirrors have changed, the same Pods are assigned to each node. |
| `Kubelet.ReportsLeaveMirrorsAlone` | kubelet/kubelet.go:260-264 | Status reports, whatever happens to them, leave every mirror as it was and make none. |
| `ScalePass.OthersStay` | controller-manager/controllers.go:134-140 | Scaling one ReplicaSet leaves every other as ready, or as scaled, as it was; its generated names stay free for it. |
| `ScalePass.PassScalesAll` | controller-manager/controllers.go:123-143 | One undisturbed pass with one Pod list succeeds and brings every listed ReplicaSet to its number of Pods and its status to that number; the Pods it adds are made from the templates. |
| `Convergence.DeployedCanScale` | controller-manager/controllers.go:247-262 | After the Deployment controller's part of a pass every stored ReplicaSet still fits its template and owns its generated names, if what is to be stored did so before. |
| `PodUpdates.ServedPodsAreValid` | apiserver/server.go:417-422 | Every stored Pod has a container, since the server refuses others. |
| `Convergence.BindsAll` | scheduler/scheduler.go:35-52 | With a Ready node, an undisturbed scheduler pass binds every Pod, each to a listed Ready node, and changes nothing else; it writes nothing when all are bound. |
| `PodUpdates.ReportsSucceed` | kubelet/kubelet.go:260-264 | Undisturbed reports of Pods from a fresh list succeed and leave those Pods shown as Running and everything else as it was. |
| `Convergence.ControlPlanePassSchedules` | controller-manager/controllers.go:41-77 | One undisturbed pass of the Deployment controller, the ReplicaSet controller and the scheduler has every request accepted and leaves every Deployment synced, every ReplicaSet with exactly max(0, replicas) Pods, and every Pod bound: to the node it had, to a Ready node of the store, or to the one its template asks for. |
| `WholePass.ReportsKeepAssignments` | kubelet/kubelet.go:266-274 | The reports of other kubelets change neither which Pods a node is assigned nor their specs. |
| `WholePass.ReconcileNode` | kubelet/kubelet.go:63-126 | One kubelet, on a node that can take its Pods, succeeds, leaves the node right and the store scheduled, and changes nothing there but nodes and statuses of Pods. |
| `WholePass.ReconcileEverything` | controller-manager/controllers.go:41-77 | The Deployment controller, the ReplicaSet controller, the scheduler and the kubelets of all nodes run in turn without network trouble, from a store that can be scheduled and with nodes whose processes start and whose addresses suffice: the pass succeeds and all Deployments are synced, all ReplicaSets scaled, all Pods bound and running on their nodes and shown so, where a Pod that had no node has the name of a Ready node, or the node its template asks for. From such a state it writes nothing and leaves every runtime alone. |
| `WholePass.ConvergedPodsRun` | kubelet/kubelet.go:63-126 | In that state, in the words of store and runtime: a stored Pod that names a node and is no mirror is shown as Running, and on that node its container is Running in a Running workload sandbox of its own. |
| `Convergence.SecondPassWritesNothing` | controller-manager/controllers.go:123-143 | In that state a second pass writes nothing and starts or stops nothing. |
| `Bootstrap.SubnetIsExact` | bootstrap/bootstrap.go:45-58 | A subnet is granted exactly for the indices 0 to 2^(bits-p)-1; the 32-bit arithmetic does not wrap; the result is aligned and inside the prefix (prefixes as in section 3.1 of RFC 4632). |
| `Bootstrap.SubnetsAreDisjoint` | bootstrap/bootstrap.go:45-58 | No address lies in the subnets of two indices. |
| `Bootstrap.NodeNetworksAreExact` | bootstrap/bootstrap.go:10-24 | There are networks for exactly 256 indices, each the /24 numbered by the index with its gateway at host 1. |
| `Bootstrap.UnderlayAddressesAreExact` | bootstrap/bootstrap.go:26-43 | An index has an underlay address exactly when it is not negative and its host number, cut to 32 bits, is below 256; two such addresses agree exactly when the indices do modulo 2^32. |
| `Bootstrap.SmallIndicesHaveTheirOwnAddress` | bootstrap/bootstrap.go:26-43 | Below 2^32 - 2 exactly the indices 0 to 253 have an address, all different. |
| `Bootstrap.LargeIndicesWrapAround` | bootstrap/bootstrap.go:36 | Index 2^32 - 2 gets the network address and index 2^32 the address of index 0. |
| `Cni.FreeHost` | cni/cni.go:149-168 | The search returns the least host that is neither the gateway nor taken, and none exactly when there is none. |
| `Cni.ExhaustedExactlyWhenFull` | cni/cni.go:149-168 | With the gateway at host 1 a plugin attaches at most 253 Pods and has no address left exactly when it has 253. |
| `Cni.AddsAreExact` | cni/cni.go:51-95 | An Add of an attached Pod returns its address. Of another one it fails exactly for a namespace that is none, for want of an address with 253 Pods attached, or for a failed command, in this order and with nothing recorded; else the Pod gets the least host address of 2 to 254 that is neither the gateway nor taken. |
| `Cni.DelsAreExact` | cni/cni.go:97-107 | A Del fails exactly if the Pod is attached and the command fails, and then changes nothing; otherwise that Pod and no other is not attached afterwards. |
| `Cni.PodAddressesAreUnique` | cni/cni.go:51-107 | Over any Add and Del calls on all nodes no two live attachments share an address, each lies in its own node's network, and none is any node's gateway. |
| `Cni.AddressesAreStable` | cni/cni.go:51-54 | A Pod keeps its address until it is deleted on its node by a call whose command succeeds: adding it again, whatever happened in between, failed deletions included, returns the same one and changes nothing. |
| `Cni.DetachingFreesTheAddress` | cni/cni.go:97-107 | A deletion whose command succeeds gives the Pod's address back and touches no other attachment of any node. |
| `Cni.LinuxCni.Add` | cni/cni.go:51-95 | Returns the attachment there is, or attaches the least free address; on any failure nothing is recorded. |
| `Cni.LinuxCni.Del` | cni/cni.go:97-107 | Forgets the attachment unless the command fails; an unknown Pod is no error. |
| `Cni.LinuxCni.NextIP` | cni/cni.go:149-168 | The loop finds the least free host, skipping the gateway. |
| `Cni.NewLinuxCni` | cni/cni.go:37-48 | Takes a gateway exactly when it lies in the Pod CIDR. |
| `Network.PodsAreRoutedToTheirOwner` | node/network.go:42-57 | On every node exactly one route matches an address of another node's Pods, and it leads to the underlay address of that node and no other; none matches the node's own Pods. |
| `Network.RoutesInWords` | node/network.go:42-57 | The route to the Pods of node t is 10.244.t.0/24 via 10.200.0.(t+2), and their gateway is 10.244.t.1. |
| `Network.NodeNamespace.ConfigureNetwork` | node/network.go:16-60 | Succeeds exactly for an index of 1 to 254 nodes whose commands all work, with the node's address and one route per other node; when the k-th command fails, exactly the routes before it are there; an invalid index changes nothing. |
| `KubeProxy.OneRulePerPair` | kube-proxy/proxy.go:101-132 | Every rule occurs as often as there are pairs of a usable Service and an eligible Running Pod that make it. |
| `KubeProxy.FailsExactlyOnBadAddresses` | kube-proxy/proxy.go:107-129 | Making the rules fails exactly when some usable Service, or some endpoint of one, has an address that is not IPv4. |
| `KubeProxy.SortRules` | kube-proxy/proxy.go:134-142 | The same rules in the order of ClusterIP, port and PodIP. |
| `KubeProxy.ForwardingIsCorrect` | kube-proxy/proxy.go:155-177 | When ports are apart, traffic to a Service's ClusterIP and port or to its NodePort is sent to an endpoint of that Service if and only if it has one, by the first matching rule. |
| `KubeProxy.OtherTrafficIsUntouched` | kube-proxy/proxy.go:155-177 | Packets that are for no usable Service match no rule. |
| `KubeProxy.TrafficGoesToRunningPods` | kube-proxy/proxy.go:101-177 | Whatever ports and addresses clash: a packet is translated exactly if a Service with an address and ports forwards it, by ClusterIP and port or by NodePort, and some Service that does so selects a Running Pod with an address; then it goes to the address of such a Pod at that Service's target port. |
| `KubeProxy.NodePortTrafficIsMasqueraded` | kube-proxy/proxy.go:171-176 | Endpoints reached through a NodePort are masqueraded, so replies come back through the node. |
| `KubeProxy.StoredNodePortsAreApart` | apiserver/server.go:175-211 | The store's allocation invariant keeps the NodePorts of listed Services apart and in range. |
| `KubeProxy.LeastClaimWins` | kube-proxy/proxy.go:134-177 | Without any condition: a packet goes to the endpoint of a Service that it is for whose ClusterIP, port and PodIP are least, in this order, and to none only if it is for no usable Service with an endpoint. |
| `KubeProxy.LeastServiceWins` | kube-proxy/proxy.go:134-177 | When no two usable Services share ClusterIP and port, and endpoints are not shared, a Service with an endpoint gets a packet that is for it if and only if it sorts, by ClusterIP and then port, before every other such Service. |
| `KubeProxy.ForwardedExactlyWhenFirst` | kube-proxy/proxy.go:134-177 | Also with shared ClusterIPs and ports: a Service whose endpoints and rule keys are its own gets a packet that is for it if and only if one of its endpoints has the least ClusterIP, port and PodIP among all Services' that the packet is for. |
| `KubeProxy.ClashingPortsMisroute` | kube-proxy/proxy.go:171-173 | The failing input: for two Services, where the port of one is the NodePort of the other that sorts before it, the rules made from them send the one's traffic to the other's endpoint. |
| `KubeProxy.RulesDoNotDependOnOrder` | kube-proxy/proxy.go:134-142 | With distinct Pod addresses as well, permuting the lists, or breaking ties differently in the sort, gives the same rules. |
| `KubeProxy.ServiceRules` | kube-proxy/proxy.go:101-144 | Returns the sorted rules of all usable Services and their endpoints, or the first address error met. |
| `KubeProxy.Forwarder.Replace` | kube-proxy/proxy.go:155-185 | On success the table holds the program of the rules and nothing else, whatever was there; a failed application after the deletion leaves no table. |
| `KubeProxy.Proxy.Reconcile` | kube-proxy/proxy.go:43-65 | On success the table is the program of the right rules for the stored Services and Pods. |

## Left out

- ControlPlane.BindingIsPermanent: users who PUT Pods directly (cmd/toyctl/main.go:148-158) are outside the runs, since they may set any node name.
- WholePass.ReconcileEverything: convergence after a selector change is not claimed, because owned Pods that no longer match the selector keep their names. The kubelets of the pass have no manifest directory; `Kubelet.Kubelet.Reconcile` is about those that have.
- WatchLoop.BlockedMeansUpToDate: watches of the API server; the kubelet's manifest and runtime watches have the same goroutines but no revision to start from. Goroutines of generations that Run has given up (after a failed Reconcile) are left out: they hold their own channel and context.
- Runtime.RunsKeepInv: the unlocked iteration in `stopPodSandbox` (cri/runtime/runtime.go:374) is not modelled as concurrent; what a watcher's event says is dropped, since readers only look at its presence.
- KubeProxy.FailsExactlyOnBadAddresses: the messages for an unparsable and for a non-IPv4 address are one error.
- Kubelet.Kubelet.ReconcileWorkloads: a container list is a map by Pod name, as the runtime holds it, so `containersByPod` is the identity.
- Kubelet registration (kubelet/kubelet.go:153-183): a retry loop around one PUT or POST; nothing hard.
- Kubelet.Kubelet.Reconcile: a kubelet has an API server; the one without (kubelet/kubelet.go:59-61) ends after `StaticPods.ReconcileStaticPods`. With manifests the condition for success is sufficient, not necessary: it asks that the containers of static Pods start also where they run already.
- Loading manifests from a directory, inotify, HTTP and JSON coding, Unix sockets, `nft` and `ip` command texts, process and namespace creation, rootfs copies, shell scripts and entry points: input and output around the core.
- TypeMeta, container ports, UIDs made by the server (it makes none), random names, log lines.
- Link names (cni/cni.go:188-193): a 32-bit hash cannot be injective.
- The node supervisor: timing and signals.
