# A verified model of the Obsyk operator's replication core

The operator watches twenty kinds of Kubernetes resources and keeps a platform's view of them up to
date.  Informer callbacks turn cache changes into events and offer them to a bounded channel without
waiting; one processor per ingestion manager takes them, waits for a rate limiter and posts them; a
full snapshot of the caches is posted on a path of its own.  Around that core stand a token manager
shared by all requests, a client that retries with backoff and records its health, a manager that is
started, stopped and restarted, and a reconcile loop that persists what has been achieved.

The question the model answers is: **when does the platform hold exactly what the caches hold, and
what can make it wrong?**  The receiver is a map keyed by kind, namespace and name; an `added` or
`modified` event stores the object it carries, a `deleted` event removes the key.

Code that changes state is a class whose methods are proved against functions of the old state; what
the design promises is then proved about those functions, as step machines over every interleaving.

| module | models |
|---|---|
| `Resources` | the twenty kinds, their conversions, events and keys |
| `Ingester` | the informer callbacks and the non-blocking offer |
| `Replication` | snapshots, replay, losses, merges and repetitions of events |
| `Pipeline` | channel and processor, with conservation, order and drain |
| `Delivery` | caches, pipeline, posts, snapshots and restarts together |
| `Snapshot` | the full state, the counts, and what the receiver makes of them |
| `Token`, `TokenProtocol` | the single-flight token refresh and all its interleavings |
| `Transport`, `HealthRaces` | retries, backoff and the health record, sequential and concurrent |
| `RateLimit` | the token bucket and the number of requests in a window |
| `Lifecycle` | start, stop, cancellation and restart against the processors they spawn, with time |
| `WholeManager` | lifecycle, channel and limiter driven by the same steps: one consumer, drain and rate |
| `Conditions`, `Reconcile`, `AgentClients` | persisted status, reconcile passes, the client map and the probes |
| `Conversions` | the container status join and the role resource listing |

## What the proofs found

Several promises hold only under a condition.  Each is stated with its exact condition, for all states or
runs, and where it helps with a concrete run that shows what happens otherwise.

- **What loses information.**  Call a state settled if applying everything on its way, from the changes
  whose callbacks have not run yet to the event in hand, leaves the receiver with what the caches hold.  From
  a settled state a move is safe if and only if an event finds room, is superseded or says nothing new, an
  event let go is shown or superseded, a snapshot is right about every key with nothing on its way, or a
  restart leaves nothing behind (`Delivery.SafeExactly`).  From any settled state safe moves converge
  (`Delivery.SettledRunsConverge`), and a snapshot can settle the system again after any losses
  (`Delivery.SnapshotSettles`).
- **Snapshots of moving caches.**  The twenty caches are listed one after another while they go on changing,
  so a snapshot need not show any one state of the cluster.  It does no harm: each kind may have a cut of its
  own, and replaying every event from a point not after any of them still gives exactly the final caches
  (`Replication.SnapshotThenReplayConverges`, `Snapshot.CurrentStateThenEventsConverges`).
- **Late snapshots.**  A snapshot received after an event it does not contain undoes that event
  (`Delivery.LateSnapshotGoesBack`, and the run in `Delivery.LateSnapshotHidesPod`).
- **Restarts.**  After a restart with nothing lost from then on, the receiver becomes right if and only if
  every key it still shows is announced again (`Delivery.RestartConvergesExactly`).  An object deleted while
  the operator is down is not (`Delivery.DowntimeDeletionStays`), and stays visible until it is put again or
  a snapshot is cut (`Delivery.StaleUntilToldOtherwise`).  docs/API_CONTRACT.md (lines 11 and 60) says a
  snapshot is sent on operator startup; the code sends one only while the persisted `LastSnapshotTime` is
  unset (internal/controller/obsykagent_controller.go:173), so none follows (`Reconcile.NoSecondSnapshot`).
- **Credentials.**  Changing them while a refresh is in flight does not cancel it: the cached token fits the
  current credentials if and only if these are the ones in force at the mark
  (`TokenProtocol.CachedTokenIsTheCapturedOne`, and the run in `TokenProtocol.UpdateMayBeOvertaken`).
- **Health.**  The fields are stored one by one.  Two of them tell the same story if and only if the calls
  that stored them last ended the same way (`HealthRaces.FieldsFitExactly`); they do whenever calls do not
  overlap (`HealthRaces.SerialCallsFit`), and may not otherwise (`HealthRaces.FieldsMayDisagree`).
- **Retries.**  Under the 30 s event timeout the waits before four attempts always fit; those before the fifth
  fit if and only if the weighted jitters come out negative (`Transport.FifthAttemptFitsExactly`).
- **Shutdown.**  A `Stop` that gives up on a processor which is still active is the one step that breaks the
  lifecycle's safety (`Lifecycle.OnlyAbandoningHarms`).  Limiter waits and requests end with their contexts,
  but the wait for another caller's token refresh does not look at its own (internal/auth/token.go:187).
  `Stop` gives up only if such waits have outlasted their contexts by five seconds or more in all
  (`Lifecycle.DrainMeetsDeadline`), and five seconds are enough for two processors to run at once
  (`Lifecycle.StalledProcessorsOverlap`).
- **Lost stops.**  `Stop` does nothing if and only if the manager is not started, so one that comes before the
  background `Start` has the lock is lost (`Lifecycle.EarlyStopIsLost`).  After a failed handler registration
  `Stop` can end only by its timeout (`Lifecycle.StopWithoutProcessorTimesOut`).
- **Managers and clients.**  A pass starts a manager for the client it holds, without looking at the client
  map again.  That is in order if and only if the client is still in use and has none
  (`AgentClients.AttachExactly`).  With one pass at a time for each key, which the controller's work queue
  provides, it always is (`AgentClients.NoManagerOutlivesItsClient`); otherwise a deletion could leave a
  manager behind that nothing stops (`AgentClients.DeletionMayOvertakeStart`).
- **Silent agents.**  A manager whose caches do not sync stops itself (internal/ingestion/manager.go:140-143)
  and stays with its client; from then on no pass starts another and no pass sends anything, until the agent
  is deleted or the operator restarts (`Reconcile.FailedManagerIsSilent`, `Lifecycle.StoppedStaysStopped`).
- **401.**  docs/ARCHITECTURE.md:251 promises "refresh token, retry once".  The code does neither
  (internal/transport/client.go:198-202); the model follows the code (`Transport.RetriesOnlyServerErrors`).

## How the surroundings are modelled

- A conversion is a free term: an `Info` records which conversion was applied to which object.  Equalities
  between such terms hold for every interpretation of the conversions.
- Informers update the cache before they notify, and notify in order for each kind; any number of
  notifications may be outstanding.  Whether an update with an unchanged
  resource version really leaves the object unchanged is an assumption of the theorems that need it
  (`VersionsFaithful`); `Replication.StepTracks` shows that it is exactly what is needed.
- A request may be applied and still be reported as failed, and may be applied more than once, but not after
  its call has returned.  `Delivery` allows any number of applications per event, `WholeManager` at most five
  posts per call.
- The HTTP exchange, the signing of assertions, the random source and the clock are parameters.  A token's
  lifetime is any integer at all, which covers an overflowing `expires_in`.
- In `Lifecycle` a processor's own steps take no time.  Time passes (`Tick`) only as long as every processor
  waits for an event, for the limiter or for a response within the context of that wait: the live context
  until cancellation, the drain context for five seconds after it was seen, and thirty seconds for a send.
  `Stall` lets a wait for another caller's refresh go on beyond that, and is recorded.
- The work queue of controller-runtime runs one pass at a time for each agent.  Where that is needed it is
  an explicit condition (`InTurn` in `AgentClients`); `Reconcile` speaks of the passes of one agent.
- The limiter is a token bucket.  One reconcile pass reads the clock once, after what it sends.  Objects of
  cluster-scoped kinds are announced under the empty namespace.

## Model

| member | source | states |
|---|---|---|
| Resources.TablesAgree | internal/ingestion/resource_configs.go:26-58 | all 20 kinds have exactly one ingester and one snapshot section; an event and a snapshot convert an object of a kind the same way, by the conversion that takes that kind; exactly Namespace, Node, ClusterRole and ClusterRoleBinding are cluster-scoped |
| Resources.KeysAgreeExactly | docs/API_CONTRACT.md:29-52 | two objects share a key if and only if kind and name are equal and so is the namespace, unless the kind is one of the four cluster-scoped ones |
| Ingester.EventFor | internal/ingestion/generic_ingester.go:81-160 | an event is of its ingester's kind; it is a deletion, without an object, exactly for a delete callback; cluster-scoped kinds carry no namespace |
| Ingester.EventExactly | internal/ingestion/generic_ingester.go:81-222 | for each callback and kind, exactly when there is an event, and its type, UID, name, namespace and object, read off the object the callback was given |
| Ingester.EventDescribesChange | internal/ingestion/generic_ingester.go:163-222 | an event names the key that changed and carries what the snapshot would show for the object now cached |
| Ingester.SilentChanges | internal/ingestion/generic_ingester.go:104-131 | a change produces no event exactly when it removes nothing or replaces an object by one of the same resource version |
| Ingester.EventChannel.Offer | internal/ingestion/generic_ingester.go:178-191 | an offer never waits; it is accepted exactly when there is room, and otherwise the channel is unchanged |
| Ingester.EventChannel.TryReceive | internal/ingestion/manager.go:240-246 | the oldest event is received, or nothing exactly when the channel is empty |
| Ingester.GenericIngester.HandleAdd | internal/ingestion/generic_ingester.go:81-101 | an object of the right type is offered as added; anything else is ignored |
| Ingester.GenericIngester.HandleUpdate | internal/ingestion/generic_ingester.go:104-131 | the new object is offered as modified unless a type is wrong or the resource version is unchanged |
| Ingester.GenericIngester.HandleDelete | internal/ingestion/generic_ingester.go:134-160 | the object, or the one in a tombstone, is offered as deleted; anything else is ignored |
| Ingester.GenericIngester.SendEvent | internal/ingestion/generic_ingester.go:163-192 | the offered event carries the object's identity and conversion, and its namespace only for namespaced kinds |
| Ingester.GenericIngester.SendDeleteEvent | internal/ingestion/generic_ingester.go:195-222 | a deletion is offered with the object's identity and no object |
| Replication.ApplyMeans | docs/API_CONTRACT.md:15-25 | a deletion removes the key it names, any other event stores its object there, and no other key is touched |
| Replication.LastWins | docs/API_CONTRACT.md:15-25 | after any events, a key holds what its last event says, and is otherwise unchanged |
| Replication.StepTracks | internal/ingestion/generic_ingester.go:81-160 | applying the event of a change (if any) to the image of the old cache gives the image of the new one if and only if equal resource versions mean equal objects |
| Replication.LastEventIsCurrent | internal/ingestion/generic_ingester.go:104-131 | over any change log, the last event of a key carries what the cache holds at the end, and a key without events is unchanged |
| Replication.OverlapHealsPerKey | internal/ingestion/generic_ingester.go:178-191 | a key shown as of some cut p, then any surviving subsequence of the events from q <= p on: right about the key if its last event survived, whatever else was lost and whatever other keys show |
| Replication.SnapshotThenReplayConverges | internal/ingestion/manager.go:308-563 | for every change log, every q and a cut at or after q for each kind separately, a snapshot that shows each kind at its cut, followed by the events from q on, gives exactly the final cache |
| Replication.MergeIndependence | internal/ingestion/generic_ingester.go:163-222 | two merges that keep the order of each key's events leave the receiver in the same state |
| Replication.KindMergeIndependence | internal/ingestion/resource_configs.go:26-58 | in particular two merges of the per-kind event streams |
| Replication.RepetitionIndependence | internal/transport/client.go:173-208 | repeating each event any positive number of times in a row changes nothing |
| Replication.RelistConvergesExactly | internal/ingestion/manager.go:112-114 | a receiver that holds anything when the caches start empty ends up right if and only if every key it shows is announced again |
| Pipeline.ConservationAndOrder | internal/ingestion/manager.go:213-304 | over all runs and restarts every offered event is exactly one of dropped, queued, in hand, sent, failed, cancelled; the channel never overflows; sends follow the order of offers |
| Pipeline.Conservation | internal/ingestion/manager.go:263-304 | the multiset of offered events is the sum of its six possible fates |
| Pipeline.OutcomesAreFates | internal/ingestion/manager.go:263-304 | the events counted as sent, failed or cancelled are those whose record says so, in order |
| Pipeline.PassedAreNotCancelled | internal/ingestion/manager.go:263-289 | the events passed to the sender are those whose limiter wait was not cancelled, in order |
| Pipeline.SubsequenceIsEmbedded | internal/ingestion/manager.go:225-229 | what is called a subsequence is found at growing places |
| Pipeline.SendOrder | internal/ingestion/manager.go:225-229 | the events passed to the sender are an in-order subsequence of those accepted, and so of those offered |
| Pipeline.StepKeepsInv | internal/ingestion/manager.go:213-260 | every step of ingesters and processor keeps: accepted events are those taken, then the one in hand, then the queue; capacity is respected |
| Pipeline.DrainIsBounded | internal/ingestion/manager.go:235-260 | once draining, the processor's steps are bounded by what is queued plus what is still offered |
| Pipeline.TurnsMean | internal/ingestion/manager.go:213-260 | after any number of turns all arrivals were offered in order, nothing accepted is lost, order is kept and the channel is in bounds |
| Pipeline.TurnsEnd | internal/ingestion/manager.go:263-304 | each event taken in these turns ended as its send did |
| Pipeline.EventProcessor.constructor | internal/ingestion/manager.go:66-91 | the processor starts idle with an empty channel and an empty history |
| Pipeline.EventProcessor.Arrive | internal/ingestion/generic_ingester.go:178-191 | an arriving event is queued, or recorded as dropped when the channel is full |
| Pipeline.EventProcessor.SendEvent | internal/ingestion/manager.go:263-304 | the event in hand is let go with exactly one fate: sent, failed, or cancelled while waiting for the limiter |
| Pipeline.EventProcessor.ReceiveAndSend | internal/ingestion/manager.go:240-246 | takes exactly the front event if there is one, and sends it |
| Pipeline.EventProcessor.Turn | internal/ingestion/manager.go:218-231 | one turn of the loop is one turn of the step machine's processor; it reports nothing received only when the channel is empty |
| Pipeline.EventProcessor.NextTurn | internal/ingestion/manager.go:218-231 | after n turns, one more makes n + 1 |
| Pipeline.EventProcessor.Begin | internal/ingestion/manager.go:129 | a stopped processor starts on the channel as it was left |
| Pipeline.EventProcessor.BeginDrain | internal/ingestion/manager.go:219-223 | cancellation is seen only between events, and loses nothing |
| Pipeline.EventProcessor.EndDrain | internal/ingestion/manager.go:247-258 | the drain ends on an empty channel or on its timeout |
| Pipeline.EventProcessor.DrainEvents | internal/ingestion/manager.go:235-260 | the drain terminates; unless it timed out it leaves the channel empty; it times out only when its context has expired |
| Pipeline.EventProcessor.Serve | internal/ingestion/manager.go:218-231 | the live loop serves its turns and keeps to the step machine |
| Pipeline.EventProcessor.ProcessEvents | internal/ingestion/manager.go:213-260 | from start to finish: live turns, then drain turns, in a state the step machine reaches |
| Delivery.ReceiverIsRight | internal/ingestion/manager.go:213-304 | in every reachable state, with callbacks, posts and listings outstanding, the receiver agrees with the caches on every key not marked as possibly wrong, and the newest event on its way for a key not behind carries what is cached |
| Delivery.PipelineIsReachable | internal/ingestion/manager.go:213-260 | end-to-end runs are runs of the pipeline, so conservation and order hold in them |
| Delivery.SafeExactly | internal/ingestion/generic_ingester.go:178-191 | from a settled state a move keeps the receiver heading for what the caches hold if and only if the offer fits, is superseded or says nothing new, the event let go is shown or superseded, the snapshot is right where nothing is on its way, or the restart leaves nothing behind |
| Delivery.SettledAt | internal/ingestion/manager.go:263-304 | the same key by key |
| Delivery.SettledRunsConverge | internal/ingestion/manager.go:213-304 | from any settled state, after any safe moves, with nothing on its way the receiver holds exactly the caches |
| Delivery.SafeRunsConverge | internal/ingestion/manager.go:213-304 | in particular after any safe run from the start |
| Delivery.SnapshotSettles | internal/ingestion/manager.go:308-563 | after any losses in any run, a snapshot listed kind by kind settles the system if every key changed since its kind was listed has an event on its way and no key on its way had a newer event dropped |
| Delivery.SnapshotHeals | internal/ingestion/manager.go:308-563 | whatever was lost, an up-to-date snapshot received with nothing under way makes the receiver right about everything |
| Delivery.LateSnapshotGoesBack | internal/controller/obsykagent_controller.go:173-184 | receiving a snapshot undoes every later event that is no longer on its way, and unsettles the system |
| Delivery.LateSnapshotHidesPod | internal/controller/obsykagent_controller.go:173-184 | a run in which a shown pod disappears in this way, with nothing on its way to bring it back |
| Delivery.LosslessIsReplay | internal/ingestion/manager.go:213-304 | from any state, a run that loses nothing does to what the receiver is heading for what replaying the change log does |
| Delivery.RestartConvergesExactly | internal/ingestion/manager.go:96-137 | after a restart of manager or operator and such a run, the system is settled if and only if every key the receiver held, or was still to be told by a kept channel, is announced again |
| Delivery.StaleUntilToldOtherwise | internal/controller/obsykagent_controller.go:173-196 | a key neither cached nor on its way is shown unchanged through any losses and restarts until it is put again or a snapshot is cut |
| Delivery.DowntimeDeletionStays | internal/controller/obsykagent_controller.go:158-196 | a run in which an object deleted while the operator is down stays visible, with nothing on its way that would remove it |
| Snapshot.GetCurrentState | internal/ingestion/manager.go:308-563 | succeeds exactly when started and every cache can be listed; then every kind's objects, converted, in listing order |
| Snapshot.ListAll | internal/ingestion/manager.go:316-454 | every cache's objects, or nothing if any cannot be listed |
| Snapshot.ConvertAll | internal/ingestion/manager.go:486-562 | one conversion per object, in order |
| Snapshot.GetResourceCounts | internal/ingestion/manager.go:591-672 | succeeds exactly when started; counts every kind, an unlistable one as zero |
| Snapshot.Count | internal/ingestion/manager.go:602-669 | exactly the given kinds are counted, each as its list's length or zero |
| Snapshot.CountsAgree | internal/ingestion/manager.go:591-672 | the counts are the list lengths of the full state for all 20 kinds; only the counts succeed exactly when some cache cannot be listed |
| Snapshot.SnapshotShowsCaches | internal/ingestion/manager.go:456-562 | storing the snapshot shows each kind as its cache was when it was listed, which may be at different times |
| Snapshot.CurrentStateThenEventsConverges | internal/ingestion/manager.go:308-563 | whatever is returned while the caches change, storing it and being told every event from before the first listing on gives exactly the final caches |
| Token.TokenManager.constructor | internal/auth/token.go:128-135 | no token, no refresh |
| Token.TokenManager.UpdateCredentials | internal/auth/token.go:139-154 | different credentials discard the token and its expiry, equal ones change nothing, and a refresh in flight goes on in either case |
| Token.TokenManager.CheckCached | internal/auth/token.go:157-166 | the cached token is handed out exactly when it outlives the five-minute buffer |
| Token.TokenManager.EnterRefresh | internal/auth/token.go:172-194 | a fresh token is returned; else a refresh in flight is waited for; else this caller captures the credentials and marks |
| Token.TokenManager.FinishRefresh | internal/auth/token.go:221-232 | the result replaces the cached token, the mark is cleared and the channel closed, which must be open |
| TokenProtocol.StepKeepsInv | internal/auth/token.go:139-232 | every step of any caller, update or clock keeps the protocol's invariant |
| TokenProtocol.ProtocolIsSafe | internal/auth/token.go:172-232 | marked iff a channel is set iff exactly one caller is between marking and finishing; each channel is closed once; who waits, waits for a closed or the current channel |
| TokenProtocol.NothingFreshIsLost | internal/auth/token.go:159-180 | no finish replaces a fresh token; a token from the cache was fresh when looked at under the lock |
| TokenProtocol.NoDeadlock | internal/auth/token.go:183-188 | while any call is out, some caller can move |
| TokenProtocol.CallerStepWorks | internal/auth/token.go:157-218 | every caller step decreases one measure |
| TokenProtocol.WaitAndRetryTerminates | internal/auth/token.go:157-218 | n calls take boundedly many steps, send at most n requests and start over at most n - 1 times each, counted in the run; when nobody can move all have returned, even if every refresh fails |
| TokenProtocol.CachedTokenIsTheCapturedOne | internal/auth/token.go:191-211 | whatever happens between a caller's mark and its finish, a token it caches is for the credentials in force at the mark; it fits those at the finish exactly when they are the same |
| TokenProtocol.RefresherGetsItsToken | internal/auth/token.go:202-217 | whatever happens between exchange and finish, the refreshing caller returns and caches the token it was given, expiring its lifetime after the exchange, or fails if it was given none |
| TokenProtocol.WokenCallsStartOver | internal/auth/token.go:183-188 | a woken call changes nothing and starts over with the fast path |
| TokenProtocol.LookDecides | internal/auth/token.go:157-180 | a look at the cache hands out the token if and only if it has more than five minutes left |
| TokenProtocol.RefreshedTokenLasts | internal/auth/token.go:157-232 | at any time, if credentials stay and no other refresh finishes, a later look hands out the refreshed token if and only if its lifetime exceeds the time since the exchange by more than five minutes |
| TokenProtocol.CachedTokenMatches | internal/auth/token.go:191-211 | in every run it fits the current ones unless they changed between capture and finish |
| TokenProtocol.IdenticalUpdatesAreFree | internal/auth/token.go:143-148 | any number of identical updates changes nothing |
| TokenProtocol.UpdateMayBeOvertaken | internal/auth/token.go:150-153 | a run in which a token for old credentials is cached and handed out after the update |
| Transport.RetriesOnlyServerErrors | internal/transport/client.go:250-276 | a response is retried exactly when its status is 500 or above, and a success exactly when it is 2xx; a 401 is neither |
| Transport.BackoffWithinTenth | internal/transport/client.go:280-294 | every wait is within a tenth of min(2^attempt, 60) seconds |
| Transport.BackoffExactly | internal/transport/client.go:280-294 | within that it is moved in proportion to the random number, by up to a tenth of a second per second |
| Transport.TotalWaitBounds | internal/transport/client.go:173-187 | the waits before n attempts sum to within a tenth of 2^n - 2 seconds |
| Transport.FifthAttemptMayNotFit | internal/transport/client.go:31-36 | four attempts wait at most 15.4 s; five between 27 and 33 s, which may or may not fit the 30 s event timeout |
| Transport.FifthAttemptFitsExactly | internal/transport/client.go:280-294 | they fit exactly when the jitters, weighted 2, 4, 8 and 16, come out negative |
| Transport.HealthEqualsHistory | internal/transport/client.go:106-152 | error count = length of the trailing failure run; healthy = last call succeeded; last error and last healthy time are those of the history |
| Transport.Client.RecordHealthy | internal/transport/client.go:106-114 | the record is that of the history extended by a success |
| Transport.Client.RecordUnhealthy | internal/transport/client.go:117-124 | the record is that of the history extended by a failure |
| Transport.Client.SendWithRetry | internal/transport/client.go:170-213 | by status codes: one to five attempts, another only after 500 or above and an uncancelled wait; five server errors end in giving up; success exactly if one of the first five attempts is reached and answered 2xx; exactly one outcome is recorded, the one returned; waits are the backoffs |
| HealthRaces.StoresInOrder | internal/transport/client.go:106-124 | which fields a success and a failure store, in which order |
| HealthRaces.EachFieldIsSequential | internal/transport/client.go:106-124 | under every interleaving of the stores each field equals the fold of the calls in that field's own store order |
| HealthRaces.HealthyTimeStays | internal/transport/client.go:108 | a non-zero last healthy time is never lost |
| HealthRaces.FieldsFitExactly | internal/transport/client.go:106-124 | after any interleaving, any two of flag, error count and last error tell the same story exactly if the calls that stored them last both succeeded or both failed |
| HealthRaces.SerialCallsFit | internal/transport/client.go:106-124 | calls whose stores do not overlap leave the record of a sequential client |
| HealthRaces.FieldsMayDisagree | internal/transport/client.go:106-124 | a run of two calls that leaves the client unhealthy with no error counted and none remembered |
| RateLimit.NewLimiter | internal/ingestion/manager.go:72-89 | rate and burst are positive: the configured values when these are positive, else the defaults |
| RateLimit.WindowBound | internal/ingestion/manager.go:263-274 | at most burst + rate * w admissions in any window of width w, across live phase, drain and restart |
| RateLimit.BurstIsAdmitted | internal/ingestion/manager.go:72-89 | a burst that fits the bucket passes at once |
| RateLimit.SteadyRateIsAdmitted | internal/ingestion/manager.go:72-89 | a stream no denser than the rate is never held up |
| RateLimit.StretchBound | internal/ingestion/manager.go:263-289 | of the calls that post in a window all but the first were admitted in it |
| RateLimit.PostsMean | internal/transport/client.go:173-208 | posts in a window are counted exactly, by call and attempt |
| RateLimit.PostBound | internal/transport/client.go:173-208 | calls made one at a time post at most 5 * (1 + burst + rate * w) requests in any window |
| WholeManager.ManagerIsSafe | internal/ingestion/manager.go:96-304 | over all runs with starts, stops and restarts whose token waits overstay by less than 5 s: one active processor, channel and processor are one pipeline run, nothing accepted is lost, sends keep the order of offers across restarts and come one at a time |
| WholeManager.ChannelFollows | internal/ingestion/manager.go:213-260 | the channel is always ready for what the processor's code does next |
| WholeManager.StepKeepsSound | internal/ingestion/manager.go:96-304 | every step of manager, processor, ingesters and time keeps lifecycle, channel and calls together |
| WholeManager.LeftoversMeanFullDrain | internal/ingestion/manager.go:235-260 | a drain that ends with events left has used all of its five seconds |
| WholeManager.SendsEndInTime | internal/ingestion/manager.go:263-289 | in such runs no call to the sender lasts more than 30 s from its admission, plus the time token waits outlasted their contexts |
| WholeManager.PostsAreLogged | internal/transport/client.go:173-208 | the log of posts is what the processors posted, at those times |
| WholeManager.PostsAreBounded | internal/ingestion/manager.go:72-89 | in such runs, for every configuration, at most 5 * (1 + burst + rate * w) posts in any window across live phases, drains and restarts |
| Lifecycle.LifecycleIsSafe | internal/ingestion/manager.go:96-191 | in every interleaving where no Stop gives up on an active processor: no channel is closed twice, at most one processor is active, it is the current one and closes its own channel |
| Lifecycle.OnlyAbandoningHarms | internal/ingestion/manager.go:176-182 | a step breaks this if and only if it gives up on an active processor |
| Lifecycle.TimelyRunsAreSafe | internal/ingestion/manager.go:171-182 | if token waits outlast their contexts by less than 5 s in all, no Stop gives up on an active processor and the lifecycle is safe |
| Lifecycle.StopOutlivesDrain | internal/ingestion/manager.go:176-182 | under that bound the 10 s branch of Stop is not taken while its processor is active |
| Lifecycle.DrainMeetsDeadline | internal/ingestion/manager.go:213-289 | in every run a cancelled processor is gone after 5 s plus the time token waits outlasted their contexts, derived from the contexts of its waits and sends; Stop gives up on it only if that time is 5 s or more |
| Lifecycle.SendMeetsTimeout | internal/ingestion/manager.go:276-289 | in every run a send is over 30 s after it began, plus that time |
| Lifecycle.StartIsExclusive | internal/ingestion/manager.go:96-102 | Start changes nothing exactly when the manager is started |
| Lifecycle.EarlyStopIsLost | internal/ingestion/manager.go:162-164 | Stop does nothing exactly when the manager is not started; a processor may outlive a Stop that came too early |
| Lifecycle.StopGetsDone | internal/ingestion/manager.go:176-179 | a waiting Stop is served by at most four processor steps, none of which needs a lock |
| Lifecycle.StopWithoutProcessorTimesOut | internal/ingestion/manager.go:121-126 | without a processor Stop ends by its timeout, after ten seconds, and in no other way |
| Lifecycle.StoppedStaysStopped | internal/ingestion/manager.go:140-143 | a stopped manager stays stopped unless it is started again |
| Lifecycle.StalledProcessorsOverlap | internal/auth/token.go:183-188 | a run with two live processors: a send in the drain waits 5 s too long for another caller's refresh, Stop gives up, and a start follows |
| Lifecycle.Manager.Claim | internal/ingestion/manager.go:96-134 | a start of a stopped manager opens a new generation of channels, and spawns a processor if registration succeeds; otherwise nothing changes |
| Lifecycle.Manager.RequestStop | internal/ingestion/manager.go:158-174 | closes the current stop channel, which must be open, and cancels the context; nothing if not started |
| Lifecycle.Manager.CompleteStop | internal/ingestion/manager.go:176-190 | the manager is stopped once its processor is done or the time is up |
| Conditions.LookupAfterWith | api/v1/obsykagent_types.go:215-233 | the condition set is the one found; every other type is looked up as before |
| Conditions.TypesAfterWith | api/v1/obsykagent_types.go:225-233 | types keep their places; a type is appended exactly when missing, so none repeats |
| Conditions.ConditionList.GetCondition | api/v1/obsykagent_types.go:215-222 | the first condition of the type, if any |
| Conditions.ConditionList.SetCondition | api/v1/obsykagent_types.go:225-233 | the first condition of that type is replaced in place, or the new one appended |
| Reconcile.SuccessfulPass | internal/controller/obsykagent_controller.go:137-228 | a pass sends successfully exactly when nothing it asked for failed; it then ends Available, Syncing and not Degraded |
| Reconcile.EveryPassEndsAsPromised | internal/controller/obsykagent_controller.go:116-228 | for each of the six ways a pass can end: the conditions found by type with status, reason and message, every other condition and field as before, what is sent, started and stopped, whether it is written or fails, and the requeue delay |
| Reconcile.PassPersistsExactly | internal/controller/obsykagent_controller.go:137-228 | a version is persisted exactly if credentials fail or everything up to the send is ready, and the write succeeds; a send is made exactly if everything is ready |
| Reconcile.PersistedStatusIsSound | internal/controller/obsykagent_controller.go:149-196 | over all runs: snapshot time set iff sync time set and not later, only after a successful snapshot, with the cluster UID known; neither time nor UID is taken back; no condition type repeats |
| Reconcile.SnapshotBeforeHeartbeat | internal/controller/obsykagent_controller.go:173-196 | every heartbeat follows a successful snapshot and names the cluster |
| Reconcile.NoSecondSnapshot | internal/controller/obsykagent_controller.go:173-184 | once a snapshot time is persisted, passes that load that status or a newer one send only heartbeats, across operator restarts |
| Reconcile.StepKeepsInv | internal/controller/obsykagent_controller.go:116-228 | every pass, from however old a read, every re-creation and every operator restart keeps these |
| Reconcile.OneManagerPerClient | internal/controller/obsykagent_controller.go:116-170 | over all runs with deletions, re-creations and restarts, the starts made by passes are for different clients; only started managers are stopped, once; nothing is sent before a start |
| Reconcile.FailedManagerIsSilent | internal/controller/obsykagent_controller.go:158-170 | once a manager has failed, no pass starts another or sends anything until the agent is deleted or the operator restarts |
| Reconcile.Agent.SetCondition | internal/controller/obsykagent_controller.go:473-483 | only the condition of that type changes, stamped with generation and time |
| Reconcile.Agent.MarkHealthy | internal/controller/obsykagent_controller.go:204-213 | three conditions and the observed generation are set, nothing else |
| Reconcile.Agent.Sync | internal/controller/obsykagent_controller.go:172-196 | the snapshot if none succeeded yet, else the heartbeat, and the times its success sets |
| Reconcile.Agent.Reconcile | internal/controller/obsykagent_controller.go:116-228 | each way of ending leaves the status, sends, starts, stops, write and requeue delay promised for it, and those of the pass |
| AgentClients.OneClientBetweenDeletions | internal/controller/obsykagent_controller.go:231-283 | under every interleaving two calls get the same client exactly when they ask for the same key between the same deletions; each call's credentials reached its client |
| AgentClients.AttachExactly | internal/controller/obsykagent_controller.go:158-163 | giving a client in hand a manager leaves every manager held by a client in use or stopped if and only if the client is in use and has none |
| AgentClients.NoManagerOutlivesItsClient | internal/controller/obsykagent_controller.go:116-163 | with one pass at a time per key and any interleaving of keys, no client is given two managers, and a manager is held by a client in use exactly as long as it has not been stopped, once |
| AgentClients.DeletionStopsManagers | internal/controller/obsykagent_controller.go:122-130 | with one pass at a time per key, deleting an agent removes its key and no other, after it every manager ever started for a client of that key is stopped, and no other manager is touched |
| AgentClients.NewClientAfterDeletion | internal/controller/obsykagent_controller.go:231-283 | a call made after a deletion of its key gets a client that did not exist before it |
| AgentClients.DeletionMayOvertakeStart | internal/controller/obsykagent_controller.go:158-163 | without that, a run in which a deletion between look and start leaves a manager nothing will stop |
| AgentClients.StepKeepsInv | internal/controller/obsykagent_controller.go:122-132 | creation and deletion keep one client per key and deletion epoch |
| AgentClients.ClientMap.GetOrCreate | internal/controller/obsykagent_controller.go:256-283 | under the write lock the key's client if there is one, else a new one put under it; in either case it is given the credentials, and no manager is touched |
| AgentClients.ClientMap.EnsureManager | internal/controller/obsykagent_controller.go:158-163 | the client in hand is given a manager if it has none, without consulting the map |
| AgentClients.ClientMap.Remove | internal/controller/obsykagent_controller.go:122-132 | the key is gone from the map, and exactly the manager its client held, if any, is added to the stopped ones |
| AgentClients.CheckPlatformHealth | internal/controller/obsykagent_controller.go:527-548 | passes exactly when every client is healthy; otherwise names an unhealthy one and its last error |
| AgentClients.CheckReady | internal/controller/obsykagent_controller.go:553-571 | ready exactly when there is no client or some client has once succeeded |
| Conversions.JoinStatuses | internal/transport/types.go:593-671 | each container, in order, with its name and image and, from the last status reported under its name, readiness, restarts and the first of running, waiting and terminated that holds |
| Conversions.LastStatusIsLast | internal/transport/types.go:593-604 | that status has the name and no later one has; or there is none and it is the zero value |
| Conversions.RoleResources | internal/transport/types.go:1337-1351 | a duplicate-free listing of the union of the rules' resources |

## Left out

- HTTP, JSON, TLS, PEM and JWT handling, and the internals of client-go, controller-runtime and the rate limiter: library code, represented by what is relied on.
- cmd/main.go, logging, flags and probe wiring: plumbing.
- The remaining `New*Info` conversions, credential parsing, annotation filtering, `findAgentsForResource` and the API-listing fallback of `getResourceCounts`: easy members only.
- Snapshot.GetCurrentState: the twenty unrolled list-and-convert blocks are written as two loops over the kinds, and a listing error does not say which kind failed.
- Transport.BackoffWithinTenth: is over real arithmetic; the rounding of binary floating point is not modelled.
- Transport.Client.SendWithRetry: takes one clock reading for the record, and does not model the body of the response.
- Pipeline.EventProcessor.SendEvent: how the wait, the send and its timeout end is one parameter here; their stages and times are in `Lifecycle` and `WholeManager`. The payload is the event.
- Delivery.ReceiverIsRight: a request is not applied after its call has returned, so a late arrival of an abandoned request is not modelled.
- Reconcile.Agent.Reconcile: a manager that is started or stopped is reported, and its own behaviour is in `Lifecycle`; one clock reading serves the whole pass.
- Reconcile.PersistedStatusIsSound: assumes a non-decreasing clock, an unchanging kube-system UID and writes that fail on a stale read; it speaks of the agent since it was last created, and passes load only that agent's versions.
- AgentClients.NoManagerOutlivesItsClient: counts the call of `Stop`; that one made too early does nothing is stated in `Lifecycle.EarlyStopIsLost`.
- Reconcile.FailedManagerIsSilent: that a manager fails is a step of the environment; how it stops itself is in `Lifecycle`.
- Lifecycle.Manager.Claim: the wait for the caches to sync, and the Stop it makes when that fails, appear as further steps of the machine.
- AgentClients.ClientMap.GetOrCreate: clients are numbers; `UpdateCredentials` on them is modelled in `Token`.
- A `Stop` that waits on deletion also holds `agentClientsMu`; that lock is not a part of the state, but no processor step needs it.
