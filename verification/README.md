# Verified model of the load-test client and simulator

The repository simulates large meshes against an Istio control plane. This project models the parts of it
whose correctness is a matter of state over time, and proves what those parts are for.

**The delta client** (`adsc/delta.go`; modules `Xds`, `DeltaGraph`, `DeltaHeap`, `DeltaSpec`, `DeltaClient`,
`DeltaRuns`, `DeltaSubscriptions`, `DeltaSubscriptionRuns`, `DeltaKnownNames`, `DeltaAcks`, `XdsFields`). The client side of incremental xDS: a heap graph of resource nodes with
parent and child sets, an index, a second index of known names, and requests derived from both. `DeltaClient`
is the client as a class whose methods change that heap. `DeltaGraph` says what a reference-counting delete
should remove without mentioning the algorithm, and the recursive delete is proved to remove exactly that, in
any iteration order and on any graph, cyclic or not. `DeltaSpec` is one message on values; `DeltaRuns` holds the
invariants of every run and the closed form of a message that removes several names; `DeltaSubscriptions`
replays what is sent for a message on a server-side set and compares it with the graph; `DeltaSubscriptionRuns` does so over runs. `DeltaKnownNames`
says what the second index holds for endpoints, routes and the like, `DeltaAcks` what every message is answered with, and `XdsFields`
what clusters and listeners refer to in terms of their own fields.

**The state-of-the-world client** (`adsc/adsc.go`; modules `SortedStrings`, `AdsSpec`, `AdsClient`, `AdsRuns`, `AdsFields`). `AdsRuns` says
what should be watched by looking only at the responses received, and proves that the client's watches,
stamps and requests are that, after every run; `AdsFields` spells out what is wanted in terms of the fields of the resources received.

**The retry queue** (`sims/cluster/queue_fork.go`; modules `RetryQueue`, `RetryQueueRuns`, `RetryQueueProgress`,
`RetryWorker`). A step system over any number of workers; each step is one call into the work queue or one
return of the work function. `RetryWorker` is the queue as a class; every call is one step of that system and an
uninterrupted turn of a worker is the sequence of steps its code makes. The client-go work queue is taken as
a contract: a list without repeats, a dirty set, a processing set, delayed adds, and a failure count per key.

**The batch reporter** (`pkg/victoria/batch.go`; modules `BatchReporter`, `BatchSending`, `BatchClosing`, `BatchFlusher`). A step system over any number of
Report calls, one flusher and Close; `BatchFlusher` is the reporter as a class whose methods are those steps, with the loops of a
Report call and of the flusher; whatever the others do in between, every pass through them is a legal run.

**Populations** (modules `ReproduceSpec`, `ReproducePlan`, `Reproduce`, `Application`, `Impersonate`, `StableNames`, `ClusterConfig`,
`ClusterCapacity`, `Expansion`, `NamespaceBuild`, `ClusterBuild`, `NamespaceNames`, `Addresses`). Running and cleaning up a reproduced cluster against an object store, scaling an application's
pods, the impersonation reconciler, cluster construction from a configuration, and addresses.

## Where the code is not what its documentation or a reader would expect

The model follows the code. Where a property fails, a lemma gives the exact condition under which it holds.

- `HasSynced` is documented as "everything added before the start has been processed at least once". That holds over all runs
  exactly with at most one worker (`RetryQueueRuns.ProcessedExactlyWithOneWorker`). For any number of workers,
  everything has been handed out, and what has not returned is in work.
- `deleteNode` lists a child for removal for every edge it cuts, also when the child keeps another parent. So a route two listeners
  share is unsubscribed when one of them goes (`DeltaSubscriptionRuns.SharedRouteIsUnsubscribed`) and is never subscribed to again while
  its node stays (`DeltaSubscriptionRuns.NeverAgain`). Routes stay subscribed exactly as long as every message that removes a
  listener also removes all other listeners of its routes (`DeltaSubscriptionRuns.RoutesSubscribedExactly`).
- When the server removes an endpoint by name while a cluster still refers to it, the client drops the endpoint's node but
  stays subscribed (`DeltaSubscriptionRuns.DroppedEndpointStaysSubscribed`). Unless the server unsubscribes before it subscribes
  and a message both carries and removes a new cluster, this is the only way the subscribed endpoints and those of the graph
  come apart (`DeltaSubscriptionRuns.EndpointsMatchExactly`).
- When the last cluster or listener that refers to an endpoint or route goes, its node goes and its name stays among the known names
  (`DeltaKnownNames.StaleName`); known names all have nodes exactly as long as that does not happen to one
  (`DeltaKnownNames.KnownHaveNodesExactly`).
- A single namespace may be named like a replica of a replicated one (`NamespaceNames.SpelledOutNameCollides`); all names differ
  exactly under the condition of `NamespaceNames.NamespacesDistinctExactly`.
- Clean-up of a reproduction skips an object only when its creation found it there or over quota. After any other failure
  it deletes the object, also one the run did not create: `ReproduceSpec.RunThenCleanup` says for which inputs and answers,
  `ReproduceSpec.FailedCreateIsDeleted` shows one.
- A Report call that overlaps Close can have an entry accepted that is never sent. Whatever happened before, closing sends all that
  is accepted, in every way things may go on without new calls, exactly when every Report call has returned by the time Close
  is called (`BatchClosing.CloseSendsAllExactly`).
- The capacity guard divides by 255 and drops the fraction, so up to 254 pods pass without any node; placing them then
  panics. Defaults add a node only when no entry for nodes is configured, not when an entry leaves its count out
  (`ClusterCapacity.PodsWithoutNodes`).
- The random index of Refresh and of scaling down never picks the last of several pods (`Application.Application.Refresh`).
- A cluster that declares no discovery type is followed as if it were an EDS cluster, by both clients (`Xds.EdsBacked`).

## Model

| member | source | states |
|---|---|---|
| DeltaGraph.CascadeIsLeastClosed | adsc/delta.go:339-351 | what a delete removes is the least set that holds the node and every node whose parents, at least one, all lie in the set; there is only one such set |
| DeltaGraph.AcyclicCutIsAllOut | adsc/delta.go:344-347 | on an acyclic graph the edges a delete cuts are all edges that leave a deleted node |
| DeltaClient.Client.DeleteNode | adsc/delta.go:339-351 | the recursive delete, in any order of the sets: heap, index and removal list agree with the progress made, every deleted node lost all its parents, and exactly the edges leaving newly deleted nodes were cut, one list entry each |
| DeltaHeap.EndDelete | adsc/delta.go:339-351 | a delete that has ended removed exactly the least closed set, cut exactly the edges out of it, and left an index whose parent and child sets are mutual inverses closed within it |
| DeltaHeap.CutOne | adsc/delta.go:344-349 | after one more edge is cut the child either keeps a parent or may be deleted, and then belongs to the least closed set |
| DeltaClient.Client.VisitChild | adsc/delta.go:344-349 | one child: the edge is cut and listed once, and the delete goes on exactly when no parent is left |
| DeltaClient.Client.Detach | adsc/delta.go:340-343 | the node's parents forget it, no other child set and no parent set changes |
| DeltaClient.Client.Relate | adsc/delta.go:270-273 | one edge is added at both ends |
| DeltaClient.Client.GetNode | adsc/delta.go:312-323 | an indexed node is found unchanged, any other key gets a fresh node without links |
| DeltaClient.Client.ExtractReferencedKeys | adsc/delta.go:230-268 | the endpoint of an EDS-backed cluster, the non-empty route names of all filter chains of a listener, in order |
| XdsFields.ReferencesOfCluster | adsc/delta.go:233-247 | a cluster refers to the endpoint of its name unless it declares a discovery type other than EDS, and then to nothing |
| XdsFields.ReferencesOfListener | adsc/delta.go:248-265 | a listener refers to exactly the routes that a connection manager of one of its chains, the default one included, names with a non-empty name; any other resource to nothing |
| XdsFields.RoutesInOrder | adsc/delta.go:251-264 | one more filter at the end of the last chain adds its route name or nothing, so routes come in order and as often as named |
| XdsFields.DefaultChainIsLast | adsc/adsc.go:350-356 | the default chain counts as one more chain, the last |
| DeltaClient.KeysOfMaps | adsc/delta.go:220-228 | every key of each map as often as it is in the two maps, so a key of both comes twice |
| DeltaClient.Client.constructor | adsc/delta.go:62-104 | a new client has the two roots and nothing else |
| DeltaClient.Client.Watch | adsc/delta.go:275-291 | one wildcard request for each of the initial types, in order |
| DeltaClient.Client.RemoveNameOf | adsc/delta.go:160-173 | a removed name takes its least closed set out of the graph and adds one list entry per edge cut; an unknown name changes nothing |
| DeltaClient.Client.Update | adsc/delta.go:106-191 | graph and known names become those of the value-level step; the added count is the number of names that were not known before |
| DeltaClient.Client.SendAnswers | adsc/delta.go:193-216 | one owed request per type with new names and one per type with cut edges, then the ACK with the message's nonce |
| DeltaAcks.OneAckForEach | adsc/delta.go:193-216 | over every run each message is answered by requests that each subscribe to or unsubscribe from something and carry no nonce, and last by one ACK with the message's type and nonce |
| DeltaClient.Client.HandleRecv | adsc/delta.go:106-218 | over any stream the client passes through the states of a legal run, and what it sends is what that run sends |
| DeltaRuns.RunInvariant | adsc/delta.go:62-98 | in every reachable state both roots are present, edges lie within the graph and run only root to cluster or listener, cluster to its endpoint, listener to route; every such node has a parent; known names are the node names for every type with nodes |
| DeltaAcks.TypesTreated | adsc/delta.go:367-396 | clusters, listeners and internal types keep nodes of their own; all but secrets, endpoints, routes and extensions are subscribed to as a whole |
| DeltaRuns.StepInvariant | adsc/delta.go:126-180 | every message keeps that invariant |
| DeltaRuns.ReachedFromRoot | adsc/delta.go:62-98 | then every cluster, listener, endpoint and route is reached from a root by a path of at most two edges |
| DeltaRuns.CascadeInLayers | adsc/delta.go:339-351 | in such a graph a delete takes the node and the children that have no other parent |
| DeltaRuns.RemoveNamesAtOnce | adsc/delta.go:160-173 | removing names one after the other equals removing them at once: the nodes that are there, the children left without another parent, and the edges out of the named nodes |
| DeltaRuns.WildcardNamesAreTheFold | adsc/delta.go:119-180 | for a wildcard type the known names are the plain fold (old and received) less removed over all messages, and the names added by a message are the received ones not in it |
| DeltaKnownNames.ReferredNamesAreTheFold | adsc/delta.go:119-180 | for endpoints, routes and every other type that is neither wildcard nor keeps nodes of its own, the known names are the fold of the received names that had a node when they came, less the removed ones |
| DeltaKnownNames.KnownHaveNodesExactly | adsc/delta.go:160-180 | throughout a run all known names of such a type have nodes exactly when no message removes the last reference to a known name |
| DeltaKnownNames.StaleName | adsc/delta.go:160-180 | for any cluster a run after which its endpoint is known and has no node |
| DeltaSubscriptions.AnswersReplayed | adsc/delta.go:194-209 | what a server has subscribed after the requests for one message: old names, wanted names and cut names, although a type in both maps is sent twice |
| DeltaSubscriptionRuns.EndpointsStaySubscribed | adsc/delta.go:150-173 | after every run, whatever the server sends and in whichever order it applies a request, every endpoint in the graph is subscribed |
| DeltaSubscriptions.EndpointsAfterMessage | adsc/delta.go:150-209 | after one message the subscribed endpoints still equal the graph's exactly when the server removes no endpoint the client follows and, if it unsubscribes first, does not carry and remove a cluster whose endpoint is new |
| DeltaSubscriptionRuns.EndpointsMatchExactly | adsc/delta.go:150-209 | they equal the graph's throughout a run exactly when that holds of every message, for both orders of applying a request |
| DeltaSubscriptionRuns.DroppedEndpointStaysSubscribed | adsc/delta.go:160-173 | in every run of a cluster's message and then one that removes its endpoint, the endpoint's node is gone, its cluster stays and it is still subscribed |
| DeltaSubscriptionRuns.DroppedEndpointHappens | adsc/delta.go:160-173 | such a run exists for any cluster and both orders |
| DeltaSubscriptionRuns.CarriedAndRemovedCluster | adsc/delta.go:119-173 | the second way to come apart: one message that carries and removes a new cluster, and a server that unsubscribes first |
| DeltaSubscriptions.RoutesAfterMessage | adsc/delta.go:339-351 | after one message the routes of the graph are subscribed exactly when every route of a removed listener (for a server that unsubscribes first, every one known before) had all its parents removed by the message |
| DeltaSubscriptions.RoutesMatchAfterMessage | adsc/delta.go:150-209 | the subscribed routes still equal the graph's exactly when, besides, no followed route is removed by name and, for a server that unsubscribes first, no new route is orphaned by the message that brings it |
| DeltaSubscriptionRuns.RoutesSubscribedExactly | adsc/delta.go:344-347 | routes stay subscribed throughout a run exactly when the first condition holds of every message, for both orders |
| DeltaSubscriptionRuns.RoutesMatchExactly | adsc/delta.go:150-209 | the subscribed routes equal the graph's throughout a run exactly when the second does, for both orders |
| DeltaSubscriptionRuns.CarriedAndRemovedListener | adsc/delta.go:119-173 | one message that carries and removes a new listener orphans its route, which a server that unsubscribes first keeps subscribed |
| DeltaSubscriptionRuns.NeverAgain | adsc/delta.go:126-159 | an endpoint or route that has a node and is not subscribed is never subscribed to again while its node stays |
| DeltaSubscriptionRuns.SharedRouteIsUnsubscribed | adsc/delta.go:344-347 | when two listeners share a route and one is removed, the route keeps its node and is unsubscribed |
| DeltaSubscriptionRuns.SharedRouteHappens | adsc/delta.go:344-347 | such a run exists for any two listeners, any route and both orders |
| DeltaSubscriptionRuns.RunExists | adsc/delta.go:106-218 | every stream of well-typed messages makes a legal run, so no statement about runs is empty |
| DeltaSubscriptions.NewAndCut | adsc/delta.go:151-173 | a message makes the client subscribe to and unsubscribe from one name at once exactly when it carries and removes a resource that refers to something new |
| AdsClient.ListEqual | adsc/adsc.go:444-454 | true exactly for equal lists |
| AdsClient.ClusterNames | adsc/adsc.go:483-498 | names of the clusters that do not declare another discovery type, in order |
| AdsClient.ReadListeners | adsc/adsc.go:359-415 | the routes, extensions and secrets all filter chains of the listeners name, less the secrets that are always there |
| AdsClient.Client.HandleResourceUpdate | adsc/adsc.go:433-441 | stores and requests a list exactly when it differs from the stored one, under the stored stamp |
| AdsClient.Client.HandleLDS | adsc/adsc.go:359-431 | secrets and extensions are followed when there are any, routes always |
| AdsClient.Client.HandleCDS | adsc/adsc.go:483-526 | endpoints are followed; the first cluster response also asks for listeners |
| AdsClient.Client.Acknowledged | adsc/adsc.go:701-717 | the stamp of the response is stored and acknowledged; an EDS ACK names the stored watch, any other the names received |
| AdsClient.Client.HandleRecv | adsc/adsc.go:237-348 | over any stream the client's state and everything it sends are those of the run of responses |
| AdsClient.Client.WatchClusters | adsc/adsc.go:675-683 | the client starts by asking for clusters |
| AdsRuns.RunWatching | adsc/adsc.go:359-498 | after every run each watch holds, sorted and with repeats, the EDS names of the latest clusters, the routes of the latest listeners, the last non-empty secrets and extensions, and carries the nonce and version of its type's latest response |
| AdsFields.EndpointsWanted | adsc/adsc.go:483-498 | over every run a name is wanted of EDS exactly as often as the latest cluster response has clusters of that name that declare EDS or no discovery type |
| AdsFields.RoutesWanted | adsc/adsc.go:364-372 | a route is wanted exactly when a connection manager in some chain of a listener of the latest listener response names it |
| AdsFields.ExtensionsWanted | adsc/adsc.go:364-382 | a listener response makes wanted exactly the names of its filters, network or HTTP, that are fetched by config discovery, if there are any; otherwise nothing changes |
| AdsFields.SecretsWanted | adsc/adsc.go:383-402 | likewise the validation and certificate secrets of the transport sockets of its chains, but for the empty name, ROOTCA and default |
| AdsFields.NamesAddUp | adsc/adsc.go:254-312 | the names of a response are those of its endpoint, route, secret and extension resources, in order |
| AdsRuns.OneAckEach | adsc/adsc.go:315-331 | every response is answered by exactly one ACK, first, with its own stamp; the ACK of a possibly partial EDS response names everything wanted of EDS |
| AdsRuns.RewatchedWhenChanged | adsc/adsc.go:433-441 | a type is requested again, once, exactly when what is wanted of it changed as a multiset, and the request names all of it under the latest stamp; secrets are asked for before extensions before routes |
| AdsRuns.RepushOnlyAcks | adsc/adsc.go:444-454 | a response that repeats the resources of the latest one of its type causes only its ACK, whatever came between |
| AdsRuns.OnlyAck | adsc/adsc.go:433-441 | a response after which nothing else is wanted causes only its ACK, once clusters were seen |
| AdsRuns.ListenersAskedOnce | adsc/adsc.go:511-520 | the first cluster response and no other ends with the request for all listeners |
| SortedStrings.SortedUnique | adsc/adsc.go:444-454 | two sorted lists are equal exactly when they hold the same strings equally often, so comparing lists compares multisets |
| SortedStrings.LeqLexicographic | adsc/adsc.go:402 | the order of the lists is lexicographic: a prefix first, otherwise the smaller character at the first difference |
| RetryQueueRuns.RunInvariant | sims/cluster/queue_fork.go:114-179 | in every reachable state the list holds the dirty items not in work once each, a key is in work exactly when one worker holds it, and failures, runs and the signal are accounted for |
| RetryQueueRuns.SyncedMeansHanded | sims/cluster/queue_fork.go:130-142 | once synced, every key added before the start has been handed to a worker, for any workers and interleaving |
| RetryQueueRuns.ProcessedExactlyWithOneWorker | sims/cluster/queue_fork.go:137-142 | "synced means processed" holds over all runs exactly with at most one worker |
| RetryQueueRuns.EarlyKeyUnprocessed | sims/cluster/queue_fork.go:144-160 | with two or more workers a run is synced while an early key's first work is unfinished |
| RetryQueueRuns.UnprocessedIsRunning | sims/cluster/queue_fork.go:137-142 | an early key not yet processed when synced is in work at that moment |
| RetryQueueRuns.NoSharedWork | sims/cluster/queue_fork.go:144-179 | no key is in work on two workers, nor listed while in work |
| RetryQueueRuns.AttemptsBounded | sims/cluster/queue_fork.go:163-179 | between two Forgets a key runs at most max(1, maxAttempts) times and is requeued at most max(0, maxAttempts - 1) times |
| RetryQueueRuns.FailedKeyUsesItsAttempts | sims/cluster/queue_fork.go:163-177 | a key whose work failed is retried exactly while it has run fewer times since the last Forget than the limit, and forgotten otherwise |
| RetryQueueRuns.GivenUpAfterAllAttempts | sims/cluster/queue_fork.go:163-177 | a key is given up after a failure exactly when it has run max(1, maxAttempts) times |
| RetryQueueRuns.QuitsAfterStop | sims/cluster/queue_fork.go:114-128 | the queue is shut down exactly by a stop, and only then does a worker quit |
| RetryQueueProgress.QuietStepProgress | sims/cluster/queue_fork.go:144-179 | every step that is not a new add, start or stop lowers what is left to do for its item and for no item raises it |
| RetryQueueProgress.QuietRunIsBounded | sims/cluster/queue_fork.go:144-179 | runs without new adds are bounded by what is left to do, whatever the work function returns |
| RetryQueueProgress.QuietRunsDrain | sims/cluster/queue_fork.go:144-179 | and when no step is left, no key is queued, delayed or in work and every key has been forgotten |
| RetryWorker.Queue.ProcessNextItem | sims/cluster/queue_fork.go:144-179 | an uninterrupted turn makes the steps Get, then the signal or the work function with Retry or Forget, then Done, and ends with the worker idle, or quit on an empty queue |
| RetryWorker.Queue.Decide | sims/cluster/queue_fork.go:163-172 | a failed key gets another try exactly while its failure count plus one is below the limit |
| BatchReporter.RunInvariant | pkg/victoria/batch.go:38-95 | in every reachable state the sent batches, the current batch and the channel make up what was accepted, in order; each call's entries are accepted in order; batches sent while batching hold 1 to 500 entries |
| BatchReporter.EachEntryOnce | pkg/victoria/batch.go:38-95 | every accepted entry is in exactly one of those places once, no other entry is |
| BatchSending.SendsWhen | pkg/victoria/batch.go:66-95 | over every run: receiving sends at the five hundredth entry and not before; a tick and the end send what there is; nothing else sends |
| BatchSending.FullWithoutTicks | pkg/victoria/batch.go:66-74 | without ticks every batch sent before the flusher finishes holds exactly 500 entries |
| BatchSending.ShortBatch | pkg/victoria/batch.go:75-95 | a shorter batch is sent by a tick or is the last, and is all there was |
| BatchSending.MayHandOver | pkg/victoria/batch.go:38-46 | a call hands over its next entry exactly while it has not returned and fewer than 500 entries wait |
| BatchSending.MayGiveUp | pkg/victoria/batch.go:38-46 | it returns early exactly after Close |
| BatchReporter.CloseDeliversEverything | pkg/victoria/batch.go:48-95 | when no Report overlaps Close, after it every entry of every call was sent exactly once, in order, in batches of 1 to 500 with at most 999 in the last |
| BatchReporter.LateEntriesAreLost | pkg/victoria/batch.go:77-90 | with overlapping calls too, exactly the entries accepted before the flusher stopped are sent |
| BatchReporter.OverlapLosesAnEntry | pkg/victoria/batch.go:38-46 | a run in which an overlapping call has its entry accepted and never sent |
| BatchClosing.CloseSendsAllExactly | pkg/victoria/batch.go:38-95 | after any run that has not closed the reporter: all that is accepted is sent, in every continuation by Close and any steps but new calls in which the flusher has finished, exactly when every call has returned |
| BatchFlusher.Reporter.ReceiveEntry | pkg/victoria/batch.go:68-74 | the flusher takes the oldest entry and sends when 500 are gathered |
| BatchFlusher.Reporter.Report | pkg/victoria/batch.go:38-46 | the loop of a call, waiting while the channel is full, with any steps of the flusher and other calls in between: its entries are accepted in order, and it returns when all are or, once closed, when it sees that |
| BatchFlusher.Reporter.TryEntry | pkg/victoria/batch.go:40-44 | one select of a call: it hands over its next entry, sees the close and returns, or waits |
| BatchFlusher.Reporter.Flusher | pkg/victoria/batch.go:53-95 | the select loop with the drain loop in its third case, callers acting between any two selects: it stays on a legal run, and when it returns batch and channel are empty and all accepted entries were sent |
| BatchFlusher.Reporter.DrainLoop | pkg/victoria/batch.go:81-93 | the inner loop takes entries while there are any, also new ones, and returns after sending the rest |
| BatchFlusher.Reporter.DrainAll | pkg/victoria/batch.go:81-93 | the closing loop, undisturbed, sends the batch and everything in the channel as one batch, or nothing if there is nothing |
| ReproduceSpec.RunGrows | sims/reproducecluster/sim.go:108-201 | for any inputs, any store and any stop, a run keeps every object that was there; keys it created are new and pairwise distinct, and everything new is due for deletion |
| ReproduceSpec.RunThenCleanup | sims/reproducecluster/sim.go:203-205 | after run and clean-up the store is the original less the keys of inputs whose create the cluster fails for another reason than being there or quota; it is the original exactly when no key that was there is among them |
| ReproduceSpec.FailedExactly | sims/reproducecluster/sim.go:271-289 | the run records a failed create of a key exactly when some input of that key is created, not skipped or connected, and the answer to it is a failure |
| ReproduceSpec.FailedCreateIsDeleted | sims/reproducecluster/sim.go:283-289 | for any config map that is already there and whose create fails, the run changes nothing and clean-up deletes it |
| ReproduceSpec.Restored | sims/reproducecluster/sim.go:271-289 | when creates fail only for those two reasons and deletes succeed, the original store is restored |
| ReproduceSpec.DeletesInReverse | pkg/simulation/model/model.go:280-289 | whatever is refused, clean-up asks to delete exactly the objects due for deletion, in the reverse of the order their creates were made |
| ReproduceSpec.LeftAfterCleanup | pkg/simulation/model/model.go:280-289 | after any clean-up exactly the objects are left, unchanged, whose every delete was refused |
| Reproduce.Simulation.Run | sims/reproducecluster/sim.go:108-201 | goes through the inputs in the order of kinds, stops early only when told to, and leaves the store and the list of simulations of the run's prefix |
| ReproducePlan.PlanInOrder | sims/reproducecluster/sim.go:85-104 | inputs are taken in the order of their kinds, by a ranking of the kinds |
| ReproducePlan.PlanHasAll | sims/reproducecluster/sim.go:85-131 | of each of the eighteen kinds all inputs are taken, in order and once, with the kind's flag; of other kinds none |
| ReproducePlan.NamespacesFirst | sims/reproducecluster/sim.go:85-104 | namespaces are the very first |
| ReproducePlan.RunAddsInputs | sims/reproducecluster/sim.go:108-201 | whatever the cluster answers, what is new in the store is an input as it was given, none in a system namespace but mesh objects, no system namespace, not the platform's service, and a pod only when configuration alone is reproduced |
| ReproducePlan.AdmittedRun | sims/reproducecluster/sim.go:108-201 | a cluster that admits everything holds exactly what it held and all such inputs |
| ReproducePlan.ConnectedPods | sims/reproducecluster/sim.go:138-201 | exactly the pods that are not left out are connected, none when configuration alone is reproduced |
| Reproduce.Simulation.Cleanup | sims/reproducecluster/sim.go:203-205 | cleans up from last to first, going on after errors, closes every connection, and leaves the list reversed |
| Reproduce.CreateSim.Run | sims/reproducecluster/sim.go:271-281 | an object that is there or over quota is no error and is marked to be left alone |
| Reproduce.CleanupAll | pkg/simulation/model/model.go:280-289 | every simulation is cleaned up and exactly the failed ones are reported |
| Reproduce.ReverseSimulations | pkg/simulation/model/model.go:220-226 | reverses in place |
| Application.SwapRemovedListing | pkg/simulation/app/application.go:212-217 | moving the last pod into the gap removes exactly the chosen pod |
| Application.Application.Refresh | pkg/simulation/app/application.go:175-199 | in any state, also after failures: one listed pod is replaced by a fresh one, never the last of several; on success no pod more is out of step with the cluster, on failure, which may have taken effect or not, at most the old and the new one |
| Application.Application.ScaleTo | pkg/simulation/app/application.go:205-232 | in any state: for n of at least zero success ends with n pods, all of the old or all of the old and fresh ones, for any index choice; changes nothing for negative n; on success no pod more is out of step, on failure at most one: a pod taken off the list, out of step exactly while it lives, or a new one on it, out of step exactly unless it started all the same |
| Application.Application.Scale | pkg/simulation/app/application.go:201-203 | changes the number by delta, or not at all when that would be negative; on failure at most one pod more is out of step, taken off the list or new on it |
| Application.Workloads.Make | sims/cluster/cluster_scaler.go:40-53 | over any sequence of calls on any applications of a cluster, going on after failures, the pods out of step grow by at most two for each failed refresh and one for each failed scaling, and not at all when all succeed |
| Impersonate.Simulation.AddPod | sims/adscimpersonate/sim.go:121-141 | a pod not known gets its replicas of fresh open connections, a known one keeps its own; opened less closed stays replicas times known pods |
| Impersonate.Simulation.DelPod | sims/adscimpersonate/sim.go:143-156 | exactly this pod's connections are closed and it is forgotten |
| Impersonate.Simulation.Reconcile | sims/adscimpersonate/sim.go:78-96 | the key is known afterwards exactly when the pod is there, has an address and is selected; other keys are untouched |
| Impersonate.Simulation.Reconciles | sims/adscimpersonate/sim.go:78-96 | over any run of store changes and reconciles the connections stay accounted for and the known keys are those of the run |
| Impersonate.Simulation.Cleanup | sims/adscimpersonate/sim.go:158-171 | in any order of the pods, every connection is closed, as many as were ever opened |
| Impersonate.KnownTracksStore | sims/adscimpersonate/sim.go:78-96 | a key is known exactly when its last reconcile saw a selected pod with an address; a key reconciled after its last change, exactly when the store has one now |
| Impersonate.AllSettled | sims/adscimpersonate/sim.go:78-96 | when every key is settled the known pods are the selected pods of the store |
| Impersonate.StoreIsLatest | sims/adscimpersonate/sim.go:82-90 | the store a reconcile reads holds the last pod given for each key that was not removed since |
| StableNames.DecimalRoundTrip | pkg/simulation/util/util.go:48-53 | decimal printing can be read back and uses digits only |
| StableNames.NamesDistinct | pkg/simulation/util/util.go:48-53 | whatever the base names, different index or replica means different names |
| StableNames.NameSpelled | sims/cluster/namespace.go:77-92 | the name is the base, or app, then index and replica in decimal without leading zeros, or static for a waypoint |
| StableNames.NotAWaypointName | sims/cluster/namespace.go:77-85 | no such name is a waypoint's name |
| ClusterConfig.PodCount | sims/cluster/config.go:87-97 | the sum over namespaces and applications of pods times replicas times namespace replicas |
| ClusterConfig.NodeCount | sims/cluster/config.go:99-105 | the sum of the node counts |
| ClusterConfig.PodsAddUp | sims/cluster/config.go:87-97 | one more application of the last namespace adds pods times replicas times namespace replicas |
| ClusterConfig.ApplyDefaults | sims/cluster/config.go:63-85 | written through to the slices, also shared ones: zero replicas become one and an unset type becomes plain; no nodes become one; nothing else changes |
| ClusterConfig.DefaultsOnce | sims/cluster/config.go:63-85 | applying defaults again changes nothing |
| ClusterConfig.DefaultsFillIn | sims/cluster/config.go:63-85 | item by item: zero becomes one, unset becomes plain, no nodes become one called default; everything given is kept |
| ClusterCapacity.DefaultNodes | sims/cluster/config.go:63-68 | with defaults applied there is no node exactly when nodes were configured, none with a positive count |
| NamespaceBuild.NewApplication | pkg/simulation/app/application.go:63-96 | external and VM applications get no pods, others as many as configured, each on a node of the cluster |
| NamespaceBuild.NewNamespace | sims/cluster/namespace.go:77-85 | one application for every index and replica, in order, with its kind, its pods and in stable mode its name |
| ClusterBuild.NewCluster | sims/cluster/cluster.go:41-82 | refuses exactly when the guard fails, panics exactly when pods are to be placed without a node, otherwise builds every configured node and every replica of every namespace in order |
| Expansion.PlacesAscend | sims/cluster/cluster.go:61-82 | the places built are in order of index and replica, none twice, all configured |
| Expansion.EveryPlace | sims/cluster/cluster.go:61-82 | and every configured replica has one |
| NamespaceBuild.StableNamesDistinct | sims/cluster/namespace.go:77-85 | in stable mode two applications of a namespace have different names unless both are waypoints |
| ClusterBuild.ReplicatedNamespacesDistinct | sims/cluster/cluster.go:61-70 | in stable mode the replicas of replicated namespaces have pairwise different names |
| NamespaceNames.NamespacesDistinctExactly | sims/cluster/cluster.go:61-70 | in stable mode all namespaces have different names exactly when the single ones have different base names and none is spelled like a replica of a replicated one |
| NamespaceNames.NamespaceSpelled | sims/cluster/cluster.go:67-70 | a namespace has its configured name, or namespace, and a replica of several has index and number added |
| NamespaceNames.SpelledOutNameCollides | sims/cluster/cluster.go:61-70 | a single namespace a-0-0 beside a replicated first namespace a violates that |
| ClusterCapacity.Capacity | sims/cluster/cluster.go:44-47 | a non-negative configuration that passes the guard gets exactly the configured nodes and at most the configured pods, all of them exactly when no application outside the mesh asks for pods, and fewer than 255 times one more than the nodes |
| ClusterCapacity.GuardBound | sims/cluster/cluster.go:44-47 | the guard passes exactly when there are fewer pods than 255 times one more than the nodes |
| ClusterCapacity.PodsWithoutNodes | sims/cluster/cluster.go:107-109 | one to 254 pods with one entry for nodes whose count is left out: a configuration that defaults leave as it is, that passes the guard, and that has no node to place its pods on |
| Addresses.PackUnpack | pkg/simulation/util/util.go:69-82 | splitting a number into octets and packing them gives the number modulo 2^32 |
| Addresses.NthIsOffset | pkg/simulation/util/util.go:64-82 | the n-th address is 10.0.0.10 plus n modulo 2^32, with carry and wrap |
| Addresses.CountsUp | pkg/simulation/util/util.go:64-82 | the first address is 10.0.0.10 and each next one counts up octet by octet with carry and wrap |
| Addresses.SameAddress | pkg/simulation/util/util.go:69-82 | two calls return the same address exactly when a multiple of 2^32 lies between them |
| Addresses.ConsecutiveDistinct | pkg/simulation/util/util.go:69-82 | any 2^32 consecutive calls return distinct addresses |
| Addresses.Allocator.GetIP | pkg/simulation/util/util.go:69-82 | each call returns the next address of that sequence |

## Left out

- gRPC dialing, streams, protobuf decoding and reconnects: messages are datatypes; a send always succeeds, so a failed send, which the source only logs, is not modelled.
- A delta resource whose inner type differs from the message type, and a cluster whose inner name differs from its resource name: `DeltaSpec.WellTyped` excludes both for every message.
- AdsClient.Client.HandleRecv: does not model the stored responses, the updates channel, the load event, metrics and debug dumps, which feed nothing back into the watches.
- DeltaClient.Client.HandleRecv: does not model metrics, timing and the dumps of the tree.
- RetryWorker.Queue.ProcessNextItem: one worker without interference; the interleavings of many are the runs of `RetryQueue`, on values, since the shared memory of goroutines cannot be put into a sequential class.
- BatchFlusher.Reporter.Flusher: followed for a given number of selects, since ticks may go on for ever; which ready case a select takes, and what the others do in between, is open.
- Clocks: tickers, rate-limit delays, grace periods and pauses between simulations are steps that may happen at any time.
- The rate limiter of the work queue: only its failure count is modelled; a delayed add may fire at any later time.
- Reproduce.Simulation.Run: objects are opaque bodies; removing status, owner and identity fields before a create, the impersonated client's certificates and the server-side namespace cascade are not modelled.
- Reproduce.Simulation.Cleanup: the reversed list stays reversed, so a second clean-up would go the other way; only the first is modelled.
- Running or cleaning an aggregate in parallel, and an aggregate's Run, which goes in order up to the first error or stop: they only start other simulations.
- Impersonate.Simulation.AddPod: connections start at once; the source starts each in a goroutine, so a removal that comes before a connection has begun would wait on a channel that is not there yet.
- Application.Workloads.Make: which application is refreshed when, and the refreshing of configurations, which has no pods to keep.
- Application.Application.ScaleTo: a pod is an object identity; collisions of the random suffix in pod names are not modelled.
- Application.Cleanup and the services, templates and gateways an application also owns: field filling without state of its own.
- ClusterBuild.NewCluster: random suffixes are any string, and a node's suffix is its number; templates, waypoint labels, grace periods and service accounts are not modelled; integers do not overflow.
- NamespaceBuild.StableNamesDistinct: two waypoints of a namespace with the same base name do share a name.
- Addresses.Allocator.GetIP: the mutex around the counter.
- pkg/simulation/impersonate, the same reconciler once more; pkg/simulation/dump, command-line flags, YAML and template reading, timing loops and leases.
