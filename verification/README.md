# QuickGo: verified model

QuickGo is a microservice framework in Go. This Dafny project models the parts of it that are
state machines, schedulers and small protocols, and proves what they keep over whole runs. Each
module follows one component:

- `Balancer`: the smooth weighted round-robin picker.
- `ClientPools`, `ClientPoolRuns`, `ClientManager`, `PoolRotation`: the connection-pool manager, built
  outside its lock and committed under it by generation, as interleaved steps; what a call brings
  about; the manager object; and one pool.
- `EtcdKeys`, `EtcdRegistration`, `EtcdWatch`: key layout, lease registration with keepalive
  recovery, and the snapshot-then-watch of service discovery, over a small etcd of keys, leases and
  revisions whose calls can fail with or without having taken effect.
- `Framework`, `FrameworkStarts`, `FrameworkLogs`: Init, Start and Stop with rollback and retry, when
  Start goes through and how often a component is started, and the exact callbacks of each operation.
- `SlidingWindow`, `TokenBucket`, `CircuitBreakers`, `StreamBreaker`, `Retry`: the resilience
  primitives.
- `Logger`: the asynchronous log writer, as steps of callers and one worker.
- `ResolverRegistry`: the process-wide, reference-counted resolver registry.
- `Sse`, `Decorator`: the server-sent-events printer against a parser of the standard, and the two
  paths of the response decorator.

Code that updates state in place is written as classes and loops whose `ensures` tie the new state
to a step function; the theorems are about runs of those functions. Clocks never run backwards
(Go's monotonic reading), floating-point quantities are reals, and the outcome of every callback,
network call and random draw is a parameter. `dafny verify dfyconfig.toml` checks everything.

## Where the code falls short of its promise

These were found while modelling. The code is modelled as it is; each line names the lemma with the
exact condition or the run that shows it.

- `CircuitBreakers.LimitHoldsIffOneSuccessCloses`: the comment on HalfOpenMaxReqs promises a limit on
  concurrent half-open requests. It holds only when one success closes the breaker, because a request
  admitted before the episode gives back a slot it never took.
- `EtcdRegistration.FailureKeepsTheKeyIff`: a recovery that fails after its put takes the key off a former
  lease that may still be alive, and revoking the new lease then deletes it until the next success.
- `EtcdRegistration.FailedRegisterStrandsIff`: a Register that fails over an earlier one can leave the former
  key published on a lease that nothing keeps alive.
- `EtcdRegistration.EachLoopItsOwnContext`, `InterferenceDoubles`: two keepalive loops run on one
  context whenever the caller registers again between a recovery and the start of its successor, and
  only then. It is harmless (`OneRecoveryPerContext`).
- `ClientPools.EntriesStayStockedIff`: an emptied entry stays published after a CloseClient error, and
  also after a GetClient that closed an unusable pool and was then refused because the generation had
  moved (`RefusedCommitEmpties` is such a run); ConnectAll passes over such an entry (`ConnectAllSkipsIff`).
- `PoolRotation.LooksAtAllIff`: when the 64-bit counter wraps, a pool with a usable client can be reported
  to have none.
- `Logger.CallsGuaranteeWrittenIff`: a second Close, or a Flush on a closed writer, does not wait and
  guarantees nothing of its own.
- `ResolverRegistry.SoundThroughoutIff`: registering a nil discovery leaves a reference without one.
- `ResolverRegistry.StrayReleaseDropsIff`: whoever knows the key can release a reference held by others.
- `ResolverRegistry.HeldStayOpenIff`: one discovery under two schemes is closed by the last holder of the one
  under the holders of the other, and a closed discovery can be installed again.
- `FrameworkStarts.StartedTwiceIff`: after a Stop that failed, Start calls the Start of a component still up.
- `FrameworkStarts.StartGoesThroughIff`: after an Init that failed, Start succeeds with what a failing rollback
  has left up.
- `Retry.LoopEqualsClosedForm`, `DefaultBackoffTurnsNegative`: Backoff converts an out-of-range float
  without a guard, and so does the loop when its clamp times the multiplier is out of range.
- `Retry.JitterLengthensIff`: a jittered delay above half the range can wrap to a negative one.
- `Decorator.FastAgreesWithLegacy`: a body with both CommonResp spellings, or with one and bytes left over
  after its object (`LeftoverBytesDisagree`), gets a different response from the two paths.
- `EtcdKeys.LookupFindsIff`: names are resolved as paths, so a service named below another, and any
  service when the wanted name is a dot, is found as well.
- `EtcdKeys.AddressIsReadBackIff`: an address that is not one plain element, which Register accepts, is
  discovered as something else (`SocketAddressIsLost`).

## Model

| member | source | states |
|---|---|---|
| `Balancer.WeightFromAddress` | grpc/balancer.go:88-100 | Weights end up in 1..1000: an absent, non-integer or non-positive attribute counts as 1, a larger one as 1000 |
| `Balancer.BuildOrderIsDeterministic` | grpc/balancer.go:73-85 | Two builds over the same connections with distinct addresses produce the same list, whatever order the ready map is visited in |
| `Balancer.LeftmostMaxUnique` | grpc/balancer.go:137-145 | The strict comparison of the scan singles out one winner: the leftmost of the largest current weights |
| `Balancer.AfterKeepsInvariant` | grpc/balancer.go:132-149 | One pick keeps the sum of the current weights at 0 and every one of them above -W |
| `Balancer.RunInvariant` | grpc/balancer.go:132-149 | After k picks each current weight is k*w(i) - W*n(i), where n(i) counts the picks of i |
| `Balancer.FullCycleReturnsToZero` | grpc/balancer.go:132-149 | W picks from the fresh picker bring every current weight back to 0 |
| `Balancer.Periodic` | grpc/balancer.go:132-149 | The current weights repeat with period W from every reachable state |
| `Balancer.SchedulePeriodic` | grpc/balancer.go:132-149 | The sequence of picks repeats with period W |
| `Balancer.ExactFairness` | grpc/balancer.go:132-149 | Any W consecutive picks, starting anywhere in a run, take instance i exactly w(i) times |
| `Balancer.Smoothness` | grpc/balancer.go:132-149 | At every prefix an instance is less than one pick ahead of its share, and current weights stay within (-W, (n-1)(W-1)] |
| `Balancer.ClampedWeightsStayInRange` | grpc/balancer.go:44-47 | With weights clamped to 1..1000 and up to 90 million instances no current weight leaves the range of a 64-bit integer |
| `Balancer.ChargeCompletesThePick` | grpc/balancer.go:146-147 | Charging the winner of a complete scan turns the state after k picks into the state after k+1 |
| `Balancer.SortByAddress` | grpc/balancer.go:81-83 | Sorting yields the same connections in address order; with distinct addresses that order is strict |
| `Balancer.DistinctIsStrict` | grpc/balancer.go:81-83 | Sorted connections with distinct addresses are strictly ordered, which makes the list unique |
| `Balancer.WeightedRoundRobinPicker.constructor` | grpc/balancer.go:68-86 | A fresh picker holds the ready connections, in whatever order they come, sorted by address, with clamped weights and current weight 0 |
| `Balancer.WeightedRoundRobinPicker.PickNext` | grpc/balancer.go:132-149 | Returns the pick the schedule prescribes, advances the state by one pick, and returns none only when there is no connection |
| `Balancer.WeightedRoundRobinPicker.Scan` | grpc/balancer.go:137-145 | The loop bumps every current weight once, sums the weights, and finds the leftmost maximum |
| `ClientPools.NoLeak` | grpc_client.go:197-279 | In every interleaving each unclosed connection is in exactly one pool, held by exactly one builder or published exactly once under its own service, never both |
| `ClientPools.NoResurrection` | grpc_client.go:197-279 | A published pool that holds connections was built by a call that sampled the generation, the very one it was built for, after the last CloseAll and after the last CloseClient of its service |
| `ClientPools.CloseAllDrains` | grpc_client.go:555-586 | After CloseAll nothing is published until a new call begins, and when the builders under way have returned every connection is closed |
| `ClientPools.OneFlightPerKey` | grpc_client.go:214-215 | Two GetClient calls are never under way together in building for the same service and generation; one after the other they may be |
| `ClientPools.InvAlways` | grpc_client.go:197-279 | Ownership, generation and single-flight invariants hold after every interleaving of GetClient, ConnectAll, CloseClient and CloseAll steps |
| `ClientPools.CommitKeeps` | grpc_client.go:239-263 | The commit under the lock keeps the ownership invariants on each of its paths: reuse, replace, unregistered, reset, publish |
| `ClientPools.FailKeeps` | grpc_client.go:409-428 | A builder that fails half-way closes every connection it had made and no other |
| `ClientPools.ResetCounts` | grpc_client.go:534-562 | Every CloseAll, and every CloseClient of a service, leaves that service with a reset mark above any generation sampled before |
| `ClientPools.EntriesStayStockedIff` | grpc_client.go:242-259 | Over every run all published entries keep their connections at every moment if and only if no CloseClient of a published service reports an error and no GetClient is refused by a moved generation after it closed the published pool |
| `ClientPools.HollowEmpties` | grpc_client.go:242-259 | After such a step the entry is still published, with no connection in it |
| `ClientPools.RefusedCommitEmpties` | grpc_client.go:242-259 | That happens without anyone closing the service: the connection of its pool is lost, a second GetClient builds another, a CloseClient of a different service moves the generation, and the refused commit leaves the entry empty |
| `ClientPools.ConnectAllSkipsIff` | grpc_client.go:478-501 | Over every run and at every service of its list, ConnectAll passes over the service if and only if an entry for it, emptied or not, was published when that call began; otherwise it builds a pool |
| `ClientPoolRuns.CommitPublishesIff` | grpc_client.go:239-279 | Over every run the commit of a GetClient or ConnectAll that has built its pool publishes exactly that pool, with all its connections open, if and only if no CloseClient or CloseAll came since the call sampled the generation and the service has no entry (ConnectAll), or none with a usable connection (GetClient, which replaces an unusable one); otherwise the pool is closed |
| `ClientPoolRuns.FlightBuildsIff` | grpc_client.go:215-240 | Over every run a GetClient leading its flight builds a pool if and only if its second look finds nothing usable and no reset came since it sampled the generation; otherwise it ends there |
| `ClientPoolRuns.ConnectAllConnects` | grpc_client.go:478-530 | Over every run a ConnectAll undisturbed by CloseClient and CloseAll ends with every service of its list published, except those whose connections it failed to make |
| `ClientPoolRuns.ConnectAllServes` | grpc_client.go:478-530 | And with connections in all of them, if the entries had theirs when it began and none was emptied meanwhile |
| `ClientPoolRuns.ConnectAllGoesOn` | grpc_client.go:494-525 | Over every run no failure, no reset and no other call ends a ConnectAll before it has been through its list |
| `ClientManager.GrpcClientManager.CommitGet` | grpc_client.go:239-263 | The commit of GetClient publishes or closes the built pool exactly as the interleaved model says, closing an unusable published pool first |
| `ClientManager.GrpcClientManager.CommitConnect` | grpc_client.go:504-523 | The commit of ConnectAll lets any existing entry win, otherwise publishes only a registered service in the sampled generation, as in the interleaved model, where CommitPublishesIff says what that brings about |
| `ClientManager.GrpcClientManager.CloseOne` | grpc_client.go:534-552 | CloseClient bumps the generation, closes the pool and forgets it unless closing reported an error |
| `ClientManager.GrpcClientManager.CloseAllPools` | grpc_client.go:555-576 | CloseAll bumps the generation, closes every published pool in any order and empties the map |
| `ClientManager.GrpcClientManager.CloseEach` | grpc_client.go:563-572 | The loop over the map closes exactly the published pools, whatever order it visits them in |
| `PoolRotation.ClientPool.GetClient` | grpc_client.go:435-452 | Returns the first usable client in rotation order, none if no visited client is usable, and moves the counter by one modulo 2^64 |
| `PoolRotation.LooksAtAllIff` | grpc_client.go:443-446 | One call looks at every client of the pool if and only if the 64-bit counter does not wrap during it or the number of clients divides 2^64 |
| `PoolRotation.NothingChosenIff` | grpc_client.go:435-452 | Outside an uneven wrap getClient returns nothing exactly when no client is usable |
| `PoolRotation.UsableClientMissed` | grpc_client.go:443-446 | During every uneven wrap there is a pool with a usable client for which getClient returns nothing |
| `PoolRotation.ChooseIsFirst` | grpc_client.go:444-450 | The client chosen is usable and every client before it in rotation order is not |
| `PoolRotation.CallsRotate` | grpc_client.go:443 | Consecutive calls begin at different clients as long as the counter does not wrap |
| `PoolRotation.ClientPool.Close` | grpc_client.go:455-475 | Every client of the pool is closed whatever errors closing reports, and the pool is left empty |
| `PoolRotation.CreateClientPool` | grpc_client.go:397-432 | Succeeds exactly when every attempt makes and connects its client, with the configured number of distinct open clients; on the first failure every client made is closed, the one that did not connect included |
| `EtcdKeys.LookupFindsIff` | grpc/etcd.go:141-145 | For all names, slashes, dots and empty elements included, a lookup finds an instance exactly when the place its name resolves to lies properly above the place of the key and is not the top |
| `EtcdKeys.TidyLookup` | grpc/etcd.go:141-145 | For names without empty or dot elements that is: the services found are the wanted one and those whose name continues it after a slash, and no sibling |
| `EtcdKeys.LookupSeparatesServices` | grpc/etcd.go:141-145 | Plain service names are told apart, whatever their common spelling |
| `EtcdKeys.AddressIsReadBack` | grpc/etcd.go:147-162 | For a service of plain elements, below a prefix that does not itself lead above its start, discovery reads the registered address back if and only if the address is one plain element |
| `EtcdKeys.AddressIsReadBackIff` | grpc/etcd.go:147-162 | For all names: the address is read back exactly when it is one plain element, or is the very name the reader gives to the top or to a place above the start, where service and address then lead |
| `EtcdKeys.SocketAddressIsLost` | grpc/etcd.go:147-162 | An instance registered as unix:///tmp/s.sock is discovered as s.sock, under every prefix and service |
| `EtcdKeys.DotFindsEveryService` | grpc/etcd.go:141-145 | A lookup for the name consisting of one dot finds every service below the prefix |
| `EtcdRegistration.EstablishBindsTheKey` | grpc/etcd.go:541-605 | A successful establishLease leaves the key bound to the new lease as long as that lease lives; retiring the former lease cannot delete it |
| `EtcdRegistration.EstablishLeavesNoGap` | grpc/etcd.go:561-602 | Without expiry the key stays bound after the grant, after the put and after the retirement |
| `EtcdRegistration.FailureKeepsTheKeyIff` | grpc/etcd.go:555-581 | When establishLease fails, the former binding survives if and only if the put did not take effect, although the former lease lives on |
| `EtcdRegistration.KeepAliveErrorUnpublishes` | grpc/etcd.go:575-581 | An error from KeepAlive alone removes the key of an instance whose lease is alive |
| `EtcdRegistration.FailedRegisterStrandsIff` | grpc/etcd.go:427-456 | A Register that fails over an earlier one stops the keepalive and keeps the former lease: a key of that lease stays published if and only if the lease does not expire during the calls and the failing put did not replace the key |
| `EtcdRegistration.StrandedUntilExpiry` | grpc/etcd.go:427-456 | Until the next call such a key stays exactly as long as its lease does not expire, over every run: no loop renews, moves or removes it |
| `EtcdRegistration.PublishedSinceEstablishment` | grpc/etcd.go:541-668 | Over every run the key hangs on the live current lease, except between a recovery attempt that failed after its put took effect and the next establishment |
| `EtcdRegistration.RegisteredAsAsked` | grpc/etcd.go:427-456 | After a Register that succeeded, in every run up to the next caller operation and without a recovery that fails after its put, the key of the very service and address given hangs on the current lease while that lives, with the metadata, or else the address, as its value |
| `EtcdRegistration.RegisteredIsFound` | grpc/etcd.go:427-456 | So a lookup of that service finds the key and reads that address back, for services of plain elements and plain addresses |
| `EtcdRegistration.RegisterSucceedsIff` | grpc/etcd.go:427-456 | Register succeeds exactly for non-empty names on an open registry when grant, put and keepalive do their work and the new lease lasts until the put |
| `EtcdRegistration.NeverUnattended` | grpc/etcd.go:607-668 | Over every run, whenever there is a keepalive context some loop is at work under it, or has just recovered and is about to start its successor |
| `EtcdRegistration.StaleLoopEnds` | grpc/etcd.go:621-668 | A loop whose context is cancelled is gone after at most two more steps of its own, wherever it stands and whatever etcd answers |
| `EtcdRegistration.NoResurrection` | grpc/etcd.go:459-491 | From Deregister to the next Register, and from Close on for ever, no loop or call adds a key, changes a binding or takes out a lease |
| `EtcdRegistration.DeregisteredStaysAway` | grpc/etcd.go:459-491 | After a Deregister that reported success its key is absent in every run without a new Register |
| `EtcdRegistration.ClosedStaysAway` | grpc/etcd.go:512-539 | After the first Close, if its revocation took effect, no key of the lease ever exists again, whoever calls what, and also when the last Register had failed |
| `EtcdRegistration.StaleLoopIsHarmless` | grpc/etcd.go:642-656 | A recovery attempt under a context that is not the current one changes neither registry nor store, except by expiry |
| `EtcdRegistration.OneRecoveryPerContext` | grpc/etcd.go:642-656 | However many loops share a context, at most one attempt under it ever succeeds |
| `EtcdRegistration.RecoveryRepublishes` | grpc/etcd.go:644-665 | A recovering loop under the current context republishes the key within three steps once the calls to etcd succeed, whatever happened before |
| `EtcdRegistration.EachLoopItsOwnContext` | grpc/etcd.go:607-668 | Over every run in which no Register succeeds between a recovery and the start of its successor, every loop has a context of its own |
| `EtcdRegistration.InterferenceDoubles` | grpc/etcd.go:650-656 | Whenever a Register does succeed there, starting the successor leaves two loops on one context |
| `EtcdRegistration.TwoLoopsOnOneContext` | grpc/etcd.go:650-656 | That happens: a run of one registration, one recovery and one more registration ends with two loops on the live current context |
| `EtcdRegistration.OrphansAreFaults` | grpc/etcd.go:541-605 | The live leases the registry has lost track of never outnumber the cleanup calls that failed; with none failed the only live lease is the current one |
| `EtcdRegistration.LeavesNothingBehind` | grpc/etcd.go:459-539 | As long as no cleanup call has failed, a Deregister or Close leaves no key, no lease and no keepalive |
| `EtcdRegistration.InvAlways` | grpc/etcd.go:427-677 | Every run keeps keys on live leases and at most the current keepalive context uncancelled, and only while registered |
| `EtcdRegistration.EtcdRegistry.constructor` | grpc/etcd.go:387-424 | A new registry has no lease, no context and nothing registered |
| `EtcdRegistration.EtcdRegistry.EstablishLease` | grpc/etcd.go:541-605 | Grant, put, keepalive, commit and retirement, with each failure path revoking the new lease |
| `EtcdRegistration.EtcdRegistry.Adopt` | grpc/etcd.go:590-604 | The new lease and context replace the former, whose context is cancelled and whose lease is revoked |
| `EtcdRegistration.EtcdRegistry.DoRegister` | grpc/etcd.go:427-456 | Rejects empty names and a closed registry, stops the former keepalive, takes over the names and metadata given, and is unregistered again if the lease cannot be established |
| `EtcdRegistration.EtcdRegistry.DoDeregister` | grpc/etcd.go:459-491 | Stops keepalive, revokes the lease and deletes the key; success means the deletion succeeded |
| `EtcdRegistration.EtcdRegistry.DoClose` | grpc/etcd.go:512-539 | The first Close stops keepalive and revokes the lease, later ones do nothing |
| `EtcdRegistration.EtcdRegistry.StopKeepAliveLocked` | grpc/etcd.go:670-677 | Cancels the current keepalive context, if any, and forgets stream and context |
| `EtcdRegistration.EtcdRegistry.StartKeepAlive` | grpc/etcd.go:607-619 | A loop is started under the current context exactly when there is one |
| `EtcdWatch.NoLostUpdate` | grpc/etcd.go:198-280 | Whenever the watch listens with no change beyond its cursor pending, the last list passed to the callback is the store's current one, over every run and across restarts |
| `EtcdWatch.ReportsNeverGoBack` | grpc/etcd.go:198-280 | Every reported list is the list of some revision, and the revisions never go back |
| `EtcdWatch.AlwaysRecovers` | grpc/etcd.go:282-334 | From every state of an unstopped watch at most six successful steps bring the callback up to date once the store rests, unless it does not wait and its first list is empty |
| `EtcdWatch.WatchOutlivesFailures` | grpc/etcd.go:225-237 | Uncancelled, a watch that waits or has reported anything never ends; one that does not wait can end only before its first report |
| `EtcdWatch.WatchEndsIff` | grpc/etcd.go:220-237 | Uncancelled, a watch ends if and only if it does not wait and its first snapshot fails or holds no instance |
| `EtcdWatch.OpensWhereItRead` | grpc/etcd.go:239-243 | A watch opens at the revision after the list it reported, so no change is missed and none delivered again; only on a store never written to does it open at the present |
| `EtcdWatch.LosesNothingIff` | grpc/etcd.go:239-243 | Over all runs from a store, a quiet listening watch has reported the current list if and only if the store has a revision, or the watch is a failing first one on an empty list |
| `EtcdWatch.AddressesInOrder` | grpc/etcd.go:147-162 | The addresses are distinct and ordered by first occurrence |
| `EtcdWatch.AddressesAreBaseNames` | grpc/etcd.go:147-162 | The addresses are exactly the base names of the keys |
| `EtcdWatch.ServiceAddresses` | grpc/etcd.go:147-162 | The de-duplicating loop computes that list, empty exactly for no keys |
| `EtcdWatch.ServiceWatch.TakeSnapshot` | grpc/etcd.go:220-237 | Reports the snapshot and remembers its revision, or ends the watch on an error or on an empty first list |
| `EtcdWatch.ServiceWatch.OpenWatch` | grpc/etcd.go:239-243 | The watch is opened at the revision after the snapshot |
| `EtcdWatch.ServiceWatch.OnReread` | grpc/etcd.go:267-276 | A response is answered by reading the list again and reporting it, empty or not; another failure ends the watch |
| `Framework.Conservation` | framework.go:247-652 | Over every run each component's successful Inits exceed its successful Stops by one exactly while it is recorded for stopping; the record is the duplicate-free subsequence of the registration order; built-in parts likewise; no callback is out of phase |
| `Framework.AtMostOnceUp` | framework.go:247-652 | At every moment of a run each component is up at most once |
| `Framework.StopVisitsInReverse` | framework.go:496-510 | A stop pass calls the recorded components in exact reverse order, each once, carrying on past failures |
| `Framework.StopIsRetryable` | framework.go:452-469 | Stop succeeds when every callback does, then everything is down and a further Stop is a no-op |
| `FrameworkStarts.StartedTwiceIff` | framework.go:384-449 | In every run a component is started while still up exactly when a Stop of it has failed since it was last started |
| `FrameworkStarts.StartedTwice` | framework.go:384-449 | That happens: Init, Start, a Stop whose callback fails, and Start again call the same Start twice |
| `FrameworkStarts.StartGoesThroughIff` | framework.go:384-390 | After every run Start can succeed if and only if nothing is started and a successful Init stands, or, without one, a component or part is still up because a stop pass failed |
| `FrameworkStarts.StartedAfterFailedInit` | framework.go:471-652 | That happens: Init fails, the rollback cannot stop the first component, and Start then succeeds with that component alone |
| `FrameworkStarts.RegisterTakesIff` | framework.go:668-692 | After every run a component can be registered if and only if its name is non-empty and not taken, no successful Init stands and nothing is up; the registration order is that of the names taken |
| `FrameworkLogs.StartMakes` | framework.go:384-449 | In every run an accepted Start succeeds exactly when each call of its plan does, the gRPC server, the HTTP server, then every enabled recorded component in the order of the record, and has then made each of them once, in that order; otherwise it makes them up to the first failure and then the whole stop pass |
| `FrameworkLogs.InitMakes` | framework.go:247-381 | In every run an accepted Init succeeds exactly when each call of its plan does, tracing, logger, gRPC server, gRPC client, HTTP server, GORM, MongoDB, Redis as configured, then every enabled component in the order of registration, and has then made each once, recorded the components and opened the parts; otherwise it makes them up to the first failure and stops what they brought up |
| `FrameworkLogs.StopMakes` | framework.go:471-602 | A stop pass calls every recorded component in reverse and then closes HTTP server, gRPC server, gRPC client, Redis, MongoDB, GORM, tracing and logger as far as open, each once, whatever fails |
| `Framework.InvAlways` | framework.go:247-652 | Registration, Init, Start and Stop with any callback failures keep flags, record and ledger consistent |
| `Framework.StopPassRestores` | framework.go:471-652 | A stop pass, as Stop or as the rollback of Init or Start, keeps exactly what failed to stop on record |
| `Framework.InitComponentsOrder` | framework.go:361-372 | Components are initialised in registration order and recorded in it |
| `Framework.LifecycleManager.RegisterComponent` | framework.go:668-692 | Refuses an empty name, a duplicate, and any registration while initialising, initialised or started |
| `Framework.LifecycleManager.OpenBuiltins` | framework.go:273-359 | Built-in parts are opened in their fixed order up to the first failure |
| `Framework.LifecycleManager.InitRegistered` | framework.go:361-372 | Enabled components are initialised in order up to the first failure, each recorded on success |
| `Framework.LifecycleManager.InitAll` | framework.go:247-381 | Init opens the parts, initialises the components, and rolls back through the stop pass on failure |
| `Framework.LifecycleManager.StartAll` | framework.go:384-449 | Start runs the servers, then the recorded components, and rolls back through the stop pass on the first failure |
| `Framework.LifecycleManager.StopComponents` | framework.go:496-510 | The reverse loop reports exactly the components whose Stop failed |
| `Framework.LifecycleManager.CloseBuiltins` | framework.go:512-602 | Every part in use is closed in the fixed order; those that fail stay open |
| `Framework.LifecycleManager.Remaining` | framework.go:637-643 | The record is rebuilt as its subsequence of failed components |
| `Framework.LifecycleManager.StopAllParts` | framework.go:471-652 | One stop pass over components and parts, a no-op when nothing is up |
| `SlidingWindow.WindowBound` | resilience/ratelimit.go:159-181 | No interval (t - window, t] of any run holds more than maxReqs grants |
| `SlidingWindow.GrantedIff` | resilience/ratelimit.go:159-181 | A call of a run is granted if and only if it asks for 1 to maxReqs permits and, with the permits of the calls granted within the window before its threshold, stays within maxReqs |
| `SlidingWindow.ClosedWindowHoldsTwice` | resilience/ratelimit.go:144-181 | The closed interval [t - window, t] can hold twice as many, for every window and limit |
| `SlidingWindow.SlidingWindowLimiter.constructor` | resilience/ratelimit.go:129-142 | Non-positive settings become one second and 100 requests |
| `SlidingWindow.SlidingWindowLimiter.Cleanup` | resilience/ratelimit.go:144-153 | The pruned list holds exactly the past grants newer than now - window |
| `SlidingWindow.SlidingWindowLimiter.AllowN` | resilience/ratelimit.go:159-181 | Decides as counting the whole grant history would, with the threshold read before the stored stamp |
| `SlidingWindow.SlidingWindowLimiter.WaitN` | resilience/ratelimit.go:187-205 | Waiting by asking at every tick is served at the first tick with room in the grant history of the start, and leaves no trace otherwise |
| `SlidingWindow.RoomAfterAWindow` | resilience/ratelimit.go:187-205 | A window after the last grant there is room for any valid request, so a wait without competitors ends |
| `TokenBucket.IntervalBound` | resilience/ratelimit.go:55-88 | Calls i..j of any run grant at most maxTokens + refillRate * (t(j) - t(i)) |
| `TokenBucket.GrantedIff` | resilience/ratelimit.go:55-88 | A call of a run is granted if and only if it is valid and for every earlier call the permits granted from that call on, with its own, fit maxTokens plus what refills since, and all permits granted, with its own, fit the opening tokens plus all that refills |
| `TokenBucket.GrantedIsPaidFor` | resilience/ratelimit.go:55-88 | What a run grants is covered by its opening tokens and what refilled, and tokens stay within 0..maxTokens |
| `TokenBucket.RefusedCallsLeaveNoTrace` | resilience/ratelimit.go:69-88 | Erasing any refused calls from a run leaves every other decision as it was |
| `TokenBucket.TokenBucketLimiter.WaitN` | resilience/ratelimit.go:94-112 | A wait is invalid exactly for a non-positive or oversized request, and otherwise served at the first tick at which one patient call would have been granted: the refused questions in between cost nothing |
| `TokenBucket.ReadyInTime` | resilience/ratelimit.go:94-112 | A wait without competitors lasts at most the time its permits take to refill |
| `TokenBucket.StretchBound` | resilience/ratelimit.go:55-88 | From the first call of a stretch on, grants are bounded by the bucket size plus refill |
| `TokenBucket.AfterStaysInRange` | resilience/ratelimit.go:55-88 | Every call leaves the tokens within 0..maxTokens and the refill time not in the future |
| `TokenBucket.TokenBucketLimiter.constructor` | resilience/ratelimit.go:39-53 | Non-positive settings take the defaults and the bucket starts full |
| `TokenBucket.TokenBucketLimiter.RefillNow` | resilience/ratelimit.go:55-63 | Refilling adds rate times elapsed time, capped at maxTokens |
| `TokenBucket.TokenBucketLimiter.AllowN` | resilience/ratelimit.go:69-88 | Refills, then grants exactly when n is positive and covered, and takes exactly n |
| `CircuitBreakers.ProbeAccounting` | resilience/circuitbreaker.go:102-162 | In every half-open state the probes in flight are at most halfOpenMaxReqs plus the stale reports of the episode, of which there are fewer than successThreshold; with none stale they equal the counter |
| `CircuitBreakers.ProbesAreCounterPlusLag` | resilience/circuitbreaker.go:214-218 | The probes in flight are exactly the counter plus the lag its own clamping and stale reports have built up; they agree if and only if the lag is 0 |
| `CircuitBreakers.StaleReportCanGoUnnoticed` | resilience/circuitbreaker.go:129-143 | Having no stale report is not necessary for them to agree: a run with one and no lag |
| `CircuitBreakers.ProbeBoundIsAttained` | resilience/circuitbreaker.go:102-143 | Every configuration has a run with halfOpenMaxReqs + successThreshold - 1 probes in flight |
| `CircuitBreakers.LimitHoldsIffOneSuccessCloses` | resilience/circuitbreaker.go:58-59 | The documented half-open limit holds in every run if and only if successThreshold is 1 |
| `CircuitBreakers.FullHalfOpenWaitsForReports` | resilience/circuitbreaker.go:102-126 | A half-open breaker with all slots taken refuses every request, whatever time passes, until an admitted one reports |
| `CircuitBreakers.ClosedCountsTrailingFailures` | resilience/circuitbreaker.go:129-162 | In Closed the failure count is the trailing run of failures and stays below the threshold |
| `CircuitBreakers.OpensExactlyAtThreshold` | resilience/circuitbreaker.go:146-162 | A closed breaker opens exactly on the failure that completes failureThreshold in a row |
| `CircuitBreakers.EpisodeHasNoFailure` | resilience/circuitbreaker.go:129-162 | A half-open episode in progress has recorded no failure and as many successes as its counter says |
| `CircuitBreakers.ClosingEpisode` | resilience/circuitbreaker.go:129-143 | A half-open episode that ends in Closed recorded exactly successThreshold successes and no failure |
| `CircuitBreakers.NoAdmissionDuringCoolDown` | resilience/circuitbreaker.go:102-126 | Nothing is admitted within openDuration of the event that opened the breaker, for any opening of any run |
| `CircuitBreakers.CoolDownEndsIff` | resilience/circuitbreaker.go:102-126 | As long as every request since an opening asked too early, the next one is admitted exactly when openDuration has passed since the opening event |
| `CircuitBreakers.AdmittedIff` | resilience/circuitbreaker.go:102-126 | In every run a request is admitted exactly when the breaker is closed, or open and openDuration has passed since the event that changed its state last, or half-open with a slot free by the count of requests and reports of the episode |
| `CircuitBreakers.NextStateIff` | resilience/circuitbreaker.go:102-212 | In every run the next state follows from the record: open on the failure that completes failureThreshold in a row or on any half-open failure, half-open on the first request after the cool-down, closed on the success that completes successThreshold in the episode |
| `CircuitBreakers.CounterIsSlots` | resilience/circuitbreaker.go:102-126 | The half-open counter is the slots in use by the events of the episode, the request that began it holding the first |
| `CircuitBreakers.ExecuteIsAskThenReport` | resilience/circuitbreaker.go:165-182 | An uninterrupted guarded call is one admission and its own report, and leaves no request behind |
| `CircuitBreakers.InvAlways` | resilience/circuitbreaker.go:102-218 | The counters stay in range and the probe account holds after every run |
| `CircuitBreakers.CircuitBreaker.constructor` | resilience/circuitbreaker.go:76-96 | Non-positive settings take the defaults and the breaker starts Closed |
| `CircuitBreakers.CircuitBreaker.Allow` | resilience/circuitbreaker.go:102-126 | Admits in Closed, after the cool-down in Open as the first probe, and below the limit in HalfOpen |
| `CircuitBreakers.CircuitBreaker.RecordSuccess` | resilience/circuitbreaker.go:129-143 | Resets the failure run, or counts a half-open success and closes at the threshold |
| `CircuitBreakers.CircuitBreaker.RecordFailure` | resilience/circuitbreaker.go:146-162 | Counts a failure and opens at the threshold, or reopens from HalfOpen at once |
| `CircuitBreakers.CircuitBreaker.Execute` | resilience/circuitbreaker.go:165-182 | Runs the call only if admitted and records it as a failure only for an error the test counts |
| `CircuitBreakers.CircuitBreaker.EnterOpen` | resilience/circuitbreaker.go:191-196 | Entering Open takes the time and clears the half-open counters but not the failure count |
| `CircuitBreakers.CircuitBreaker.EnterHalfOpen` | resilience/circuitbreaker.go:198-204 | Entering HalfOpen clears all counters |
| `CircuitBreakers.CircuitBreaker.EnterClosed` | resilience/circuitbreaker.go:206-212 | Entering Closed clears all counters |
| `CircuitBreakers.CircuitBreaker.FinishProbe` | resilience/circuitbreaker.go:214-218 | The half-open counter is decremented but never below 0 |
| `StreamBreaker.OneOutcomePerStream` | resilience/interceptor.go:46-119 | Over any interleaving of any streams, each asking, dialling and operating in steps of its own, the breaker hears of each admitted stream at most once, exactly once when its dial has failed or its first terminal result is in, and is told that result |
| `StreamBreaker.VerdictIsFirst` | resilience/interceptor.go:75-111 | The first terminal operation settles the outcome, later operations cannot change it |
| `StreamBreaker.JudgedByFirstEvent` | resilience/interceptor.go:75-119 | A call is not judged while sends, closes and replies of a stream succeed; the end of the stream and the reply of a unary response are successes, any other error is what the classifier says, and nothing later counts |
| `StreamBreaker.StreamsTellTheirStory` | resilience/interceptor.go:46-103 | Over any interleaving every admitted stream carries exactly its own dial result and operations, in order |
| `StreamBreaker.AdmissionsOfStreams` | resilience/interceptor.go:46-119 | Over any interleaving, admissions are the outcomes recorded plus the streams still being dialled or without a terminal result |
| `StreamBreaker.AdmissionsBalance` | resilience/interceptor.go:46-66 | In every legal run of a breaker admissions are outcomes recorded plus requests still running |
| `StreamBreaker.CircuitBreakingClientStream.Send` | resilience/interceptor.go:75-81 | A failed send is reported once, a successful one never |
| `StreamBreaker.CircuitBreakingClientStream.Recv` | resilience/interceptor.go:83-95 | End of stream and the single reply of a unary response are successes, another error is classified |
| `StreamBreaker.CircuitBreakingClientStream.Close` | resilience/interceptor.go:97-103 | Only a failing CloseSend is reported |
| `StreamBreaker.CircuitBreakingClientStream.RecordResult` | resilience/interceptor.go:109-119 | The error is classified and recorded under the latch |
| `StreamBreaker.CircuitBreakingClientStream.RecordOnce` | resilience/interceptor.go:105-111 | The latch lets one outcome through to the breaker |
| `Retry.LoopEqualsClosedForm` | resilience/retry.go:132-136 | For an integral multiplier and ordered delays, the k-th base delay equals Backoff(k) whenever the power fits an int64; on amd64, and where the out-of-range conversion reaches the clamp, if and only if the power fits, or the clamp hides it, or the loop leaves the range too |
| `Retry.BaseDelayIsClampedPower` | resilience/retry.go:132-136 | The iterated delay is min(initial * m^(k-1), max) whenever the power fits, and for every k if no delay can leave the range or the conversion reaches the clamp |
| `Retry.LoopTurnsNegativeToo` | resilience/retry.go:132-136 | On amd64 a loop not held back by its clamp is negative from the attempt on at which the power is too wide |
| `Retry.BackoffIsClampedPower` | resilience/retry.go:193-214 | The closed form is the same clamped power while it fits an int64 |
| `Retry.LinearIsClampedMultipleIff` | resilience/retry.go:193-214 | For all settings and attempts linear backoff is the clamped multiple of the first delay if and only if the multiple fits an int64 or the clamp hides that it wrapped |
| `Retry.PoliciesStep` | resilience/retry.go:193-214 | Up to the maximum each attempt of the linear policy adds one first delay and the constant policy none |
| `Retry.PoliciesAgreeAtFirst` | resilience/retry.go:193-214 | All three policies give the first attempt the same clamped delay, no clamp for a maximum that is not positive, and the constant policy gives it to every attempt |
| `Retry.MissingMultiplierDoubles` | resilience/retry.go:193-214 | A multiplier that is not positive doubles |
| `Retry.EarlierAttemptsDivide` | resilience/retry.go:193-214 | Attempts before the first divide by the power instead of multiplying |
| `Retry.AgreementNeedsInitialWithinMax` | resilience/retry.go:132-136 | They agree on every attempt in range if and only if the first delay is not above the maximum |
| `Retry.LoopNeverExceedsClosedForm` | resilience/retry.go:132-136 | For any multiplier of at least 1 the truncating loop never waits longer than the closed form, as long as that is in range or the conversion reaches the clamp |
| `Retry.FractionalMultiplierFallsBehind` | resilience/retry.go:132-136 | With a fractional multiplier it can wait strictly less |
| `Retry.DefaultBackoffTurnsNegative` | resilience/retry.go:193-214 | On amd64 the closed form with the default settings is negative at attempt 38, where the loop waits the full 10 seconds |
| `Retry.JitterLengthensIff` | resilience/retry.go:143-153 | Jitter lengthens a delay, by exactly the drawn part of its share, exactly when the sum fits an int64, which half the range always does |
| `Retry.Retryer.constructor` | resilience/retry.go:48-66 | Each setting out of range takes its own default, 3, 100ms, 10s, 2.0 and 0.1, and every other is kept |
| `Retry.Retryer.DoWithResult` | resilience/retry.go:85-141 | At most maxAttempts calls are made, attempts equals the calls, the loop stops exactly at the first success, final error or cancellation, and the waits are the jittered base delays |
| `Retry.Retryer.Lengthen` | resilience/retry.go:132-136 | The next delay is scaled, truncated and clamped |
| `Logger.NothingLost` | logger/logger.go:493-510 | In every interleaving, written lines, the worker's hand and the queue are together the accepted lines in order, and the queue stays within its capacity |
| `Logger.NoSendOnClosed` | logger/logger.go:198-208 | No caller is ever about to send on a closed channel |
| `Logger.FlushMeansWritten` | logger/logger.go:480-491 | A Flush that waited returns only when everything accepted before its marker is written, in order |
| `Logger.CloseMeansWritten` | logger/logger.go:455-478 | A Close that waited returns only when every accepted line is written |
| `Logger.ReturnedWhileOpen` | logger/logger.go:455-510 | In every run, of calls that have returned while the writer is open: a log call has had its line accepted, a Flush has everything written that was accepted before it began, and no Close is among them |
| `Logger.FirstCloseWrites` | logger/logger.go:455-510 | In every run a Close that began on an open writer returns only when every accepted line is written |
| `Logger.NothingAfterTheWorker` | logger/logger.go:455-510 | Once the worker is gone nothing is accepted or written any more |
| `Logger.CallsGuaranteeWrittenIff` | logger/logger.go:455-510 | The calls made and returned guarantee, in every schedule of the worker, that all accepted lines are written if and only if there is no line, a Close has returned after waiting, a Flush sent since the last line has returned, or more markers were sent since than the channel holds |
| `Logger.SettledIsWritten` | logger/logger.go:455-510 | Under those calls the lines are written in the run at hand |
| `Logger.LazySchedule` | logger/logger.go:501-510 | Without them the same calls can run, every caller in the same place, with the last line still in the worker's hand |
| `Logger.EarlyReturnGuaranteesIff` | logger/logger.go:455-491 | The return of a Close or Flush that finds the writer closed adds nothing: it guarantees the lines exactly when the calls before it did |
| `Logger.NoDeadlock` | logger/logger.go:198-208 | While a call is under way it or the worker can take a step: locks, channel and worker cannot block each other |
| `Logger.CallsCanReturn` | logger/logger.go:455-510 | From every reachable state a call under way can be brought to its return by its own steps and the worker's alone, at most 2 * capacity + 14 of them, wherever the other callers stand |
| `Logger.InvAlways` | logger/logger.go:455-510 | Lock discipline, conservation and marker placement hold after every interleaving |
| `Logger.WriterState.constructor` | logger/logger.go:147-155 | A non-positive queue size becomes 1024 |
| `Logger.WriterState.Write` | logger/logger.go:493-499 | Sends the line unless the writer is closed |
| `Logger.WriterState.MarkClosed` | logger/logger.go:455-466 | Only the first Close closes the channel |
| `Logger.WriterState.RunWriter` | logger/logger.go:501-510 | The worker writes every queued line in order and releases every marker |
| `ResolverRegistry.RefsAreTheBalance` | grpc/resolver.go:371-427 | Over any sequence of calls with any arguments, references are acquisitions minus effective releases, the builder serves what is recorded, and nothing is recorded without references |
| `ResolverRegistry.ClosedExactlyAtZero` | grpc/resolver.go:404-427 | Over any sequence of calls, a call closes a discovery exactly when it takes the balance of its scheme from 1 to 0 |
| `ResolverRegistry.SharedOrRefusedIff` | grpc/resolver.go:371-398 | Over any sequence of calls a registration is refused, changing nothing, exactly when references remain and its key is not that of the registration they go back to; otherwise it gets that registration's discovery, or its own where no references remain |
| `ResolverRegistry.SoundThroughoutIff` | grpc/resolver.go:371-427 | References without a discovery never arise if and only if nil is never registered for a scheme without references |
| `ResolverRegistry.StrayReleaseDropsIff` | grpc/resolver.go:404-427 | A release by someone who holds nothing takes a holder's reference exactly when it names the recorded discovery or its key, the scheme has holders and, at the last of them, Close succeeds |
| `ResolverRegistry.HeldDiscoveriesAreServed` | grpc/resolver.go:371-427 | In every run in which holders release what they hold, the reference count is the number of holders, and what a holder was given is still recorded and served; it is closed only if an event of the next row occurred |
| `ResolverRegistry.HeldStayOpenIff` | grpc/resolver.go:371-427 | Over every such run no held discovery is ever closed if and only if no closed discovery is installed and the last holder under one scheme never closes a discovery that another scheme has recorded |
| `ResolverRegistry.ClosedUnderAHolder` | grpc/resolver.go:404-427 | That happens: one object under two schemes, the only holder of the first closes it while the second is held |
| `ResolverRegistry.ClosedExactlyOnLastRelease` | grpc/resolver.go:404-427 | In those runs a discovery is closed exactly by the last holder's release under its scheme when Close succeeds; a failing Close changes nothing |
| `ResolverRegistry.EntryIsPinned` | grpc/resolver.go:371-427 | While references remain neither operation changes key or discovery of a scheme |
| `ResolverRegistry.FailedCloseChangesNothing` | grpc/resolver.go:404-427 | An error is returned exactly when the last reference is released and Close fails, and then the registry is as before |
| `ResolverRegistry.RegisterKeepsSoundIff` | grpc/resolver.go:371-398 | References being zero exactly when no discovery is stored survives a registration if and only if it does not install a nil discovery |
| `ResolverRegistry.ReleaseKeepsSound` | grpc/resolver.go:404-427 | Releases keep that equivalence |
| `ResolverRegistry.HolderMatches` | grpc/resolver.go:404-412 | A holder's release always matches its entry, and closes it exactly when it is the only holder |
| `ResolverRegistry.Registry.RegisterResolverAndGet` | grpc/resolver.go:371-398 | Shares an entry with the same key, refuses another key while it is referenced, and otherwise installs the discovery in the scheme's own builder |
| `ResolverRegistry.Registry.AddScheme` | grpc/resolver.go:393-397 | A new scheme gets a builder of its own serving the given discovery |
| `ResolverRegistry.Registry.ReleaseResolver` | grpc/resolver.go:404-427 | Drops a reference; on the last one closes first and clears entry and builder only if that succeeded |
| `Sse.RoundTrip` | grpcep/handler.go:146-230 | Parsing n printed messages by sections 9.2.5 and 9.2.6 of the WHATWG HTML Living Standard yields exactly n events with ids 1..n and the contents with line ends normalised |
| `Sse.ParseMessage` | grpcep/handler.go:204-230 | One printed message is one event whatever its content and whatever follows: content can neither split nor merge events |
| `Sse.CloseEventRoundTrip` | grpcep/handler.go:185-199 | The closing message is one more event of type close carrying the last id |
| `Sse.TwoPassIsNormalise` | grpcep/handler.go:205-207 | Replacing CRLF and then CR equals the one-pass line splitting of the standard |
| `Sse.CutStreamGivesPrefix` | grpcep/handler.go:146-199 | A client cut off anywhere has received a prefix of the events |
| `Sse.ItoaRoundTrip` | grpcep/handler.go:209 | The decimal id is read back as the number printed |
| `Sse.FormatSSEMessage` | grpcep/handler.go:204-230 | The printer writes the id line, one data line per line of the content, and a blank line |
| `Sse.Emit` | grpcep/handler.go:146-199 | Contents are numbered from 1; a dead connection ends the stream after the flushes it accepted, otherwise the close event is sent |
| `Decorator.FastAgreesWithLegacy` | grpcep/handler.go:315-459 | For every body whose leading object has distinct keys the two paths yield the same response, except exactly when the fast path meets both CommonResp spellings, or meets one of them and bytes are left over after the object |
| `Decorator.StatusRoundTrip` | grpcep/handler.go:315-473 | For every style a service may report its status in, CommonResp, common_resp or flat code and message, any field order and either path: the decorated reply has the code and message put in, 20000 and success for what is missing or mistyped, and exactly the other fields as data; a flat reply with neither is passed on as it came |
| `Decorator.LegacyOpens` | grpcep/handler.go:379-459 | On the legacy path CommonResp counts before common_resp and either before flat fields, and what does not count stays in the data |
| `Decorator.OtherBodiesPass` | grpcep/handler.go:315-459 | A body that is not one whole object and holds no CommonResp in front is passed on whole, with 20000 and success |
| `Decorator.LeftoverBytesDisagree` | grpcep/handler.go:315-360 | A CommonResp of code 7 with bytes left over after the object: the fast path answers code 7, the legacy path the default code with the raw body |
| `Decorator.RepeatedKeyDisagrees` | grpcep/handler.go:330-360 | Distinct keys are needed: with CommonResp repeated the two paths differ |
| `Decorator.SingleSpelling` | grpcep/handler.go:315-473 | With either single spelling and nothing left over the fast path answers and equals the legacy path |
| `Decorator.ScanKeepsOthers` | grpcep/handler.go:330-360 | The streaming pass keeps every other field and notices CommonResp in either spelling |
| `Decorator.ScanDecodesOnce` | grpcep/handler.go:461-473 | A single CommonResp is decoded once, each of code and msg falling back to its default separately |
| `Decorator.ResponseDecoratorFastPath` | grpcep/handler.go:315-377 | The streaming loop answers a leading object that holds a CommonResp, whatever bytes follow it, with the response of the fast path, and leaves every other body to the legacy path |
| `Decorator.ResponseDecoratorLegacy` | grpcep/handler.go:379-459 | The map-based path gives the legacy response for every body |

## Left out

- Real etcd, gRPC, Fiber, GORM, Mongo, Redis, Prometheus and OpenTelemetry calls: each is a success or
  failure chosen by the environment, or the small etcd described above.
- Configuration, TLS and DSN building, address inference, `validation/`, `gerr/`, `metrics/`, `tracing/`,
  `http/`, `db/` and `lifecycle/`: thin wrappers and branch-by-branch checks that would add easy members.
- Balancer.WeightedRoundRobinPicker.constructor: sorts by insertion; among connections with equal addresses
  the order is as arbitrary as in the source, and only for distinct ones unique.
- ClientPools.InvAlways: poolGeneration is unbounded, so its wrap after 2^64 resets is not modelled; what
  getClient finds is a parameter that may miss a usable client but never invents one.
- ClientPools.NoLeak: a waiter of a shared flight whose context ends returns without a step of its own; it
  holds no connection.
- ClientManager.GrpcClientManager.CloseAllPools: stopping the health check and releasing the etcd resolver
  are not part of it; the resolver's own counting is `ResolverRegistry`.
- Background health checks of pools: they only read usability and ask idle connections to reconnect.
- Client.Close after a ReleaseResolver that fails: it has cleared its handle and does not retry;
  `ResolverRegistry` counts holders that do.
- EtcdRegistration.EtcdRegistry.EstablishLease: the second look at the registry's state before the commit is
  not written out, since every writer of those fields holds operationMu and it cannot fail; metadata is its
  encoding, which cannot fail for string maps.
- EtcdRegistration.InvAlways: the only change other parties make to the store is letting leases expire; a
  foreign writer of the same key is not modelled.
- EtcdRegistry.KeepAlive: a single renewal call with no state of its own.
- EtcdKeys.LookupFindsIff: for a non-empty prefix, as both constructors put the default one for an empty; the
  same holds of `AddressIsReadBackIff`.
- EtcdWatch.NoLostUpdate: it is about the callback stream; ResolveNow may publish an older read beside it.
  Compaction appears as a cancelled watch. The doubling delay between restarts carries no state.
- ResolverRegistry.HeldDiscoveriesAreServed: for runs in which holders release what they were given; what any
  other release does to them is `StrayReleaseDropsIff`, and the count over arbitrary calls is `RefsAreTheBalance`.
- ResolverRegistry.ClosedExactlyOnLastRelease: for the same runs; over arbitrary calls it is `ClosedExactlyAtZero`.
- Retry.LoopEqualsClosedForm: the exact condition is for the two out-of-range conversions in use, the least
  integer (amd64) and any at or above the clamp (arm64); for others only the half with the power in range.
- EtcdResolver.Close: cancelling every watcher appears as the Cancel step of each watch.
- Framework built-in parts: each is open or not; what it does when started or closed is its callback's outcome.
- Framework concurrency: Init, Start and Stop run one at a time, as the framework refuses or serialises
  overlapping calls; the mutex itself is not modelled.
- TokenBucket.TokenBucketLimiter.AllowN: real arithmetic, so float rounding is not modelled.
- TokenBucket.TokenBucketLimiter.WaitN: states a wait with no other caller between its ticks; with others,
  each question is one more call of the runs above. The same holds of the sliding window.
- CircuitBreakers.CircuitBreaker.Execute: a call that panics never reports; that is a request that stays
  running, whose effect is `FullHalfOpenWaitsForReports`. The manager of named breakers is a map.
- Retry.Retryer.DoWithResult: an out-of-range float conversion yields one unspecified value, a parameter.
- GetClient and ConnectAll as single calls: they appear as their steps in `ClientPools`, with the sections
  under the lock as methods of `ClientManager`.
- Logger in synchronous mode: every line is written by its caller, and Flush has nothing to wait for.
- Logger levels, fields, formatting and caller detection: text and reflection; a line is a number here.
- Logger.CallsCanReturn: a caller still waiting for a lock is not under way yet, and Go's preference for
  waiting writers only removes interleavings.
- Decorator.FastAgreesWithLegacy: works on parsed field lists; byte-level JSON parsing and escaping, and the
  error replies for invalid JSON bytes beyond their shape, are left out.
- Sse.Emit: the reflection that finds Recv and reads the content of a reply is left out; contents are given.
