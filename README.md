# k8sresolver in Dafny

A model of the core of `k8sresolver`, a gRPC name resolver that finds the
live endpoints of a Kubernetes service. The model covers two sequential
parts of `resolver.go`:

- **Lifecycle.** A resolver is inactive (`cancel == nil`) or active.
  `Start` spawns a reconciliation loop only when inactive. `Close` cancels
  that loop and resets `cancel`, only when active, so a later `Start` works
  again. `K8sResolver.Resolver` is a class with the flag `active`. It also
  has ghost counters of loops spawned (`started`) and cancelled
  (`cancelled`). Its invariant `Valid()` says that, for calls made one
  after another, exactly one spawned loop is not yet cancelled while the
  resolver is active, and none while it is inactive. A cancelled loop may
  still be finishing; the counters do not track that.
- **Reconciliation.** This is the results branch of `run`. A received
  address list equal to `last` is dropped. Any other list becomes a
  `resolver.State` whose addresses are the strings as `Backend` addresses,
  in order. That state goes to `conn.UpdateState` once, and the list
  becomes `last`. `Resolver.ApplyResult` is one pass of this branch.
  `Resolver.RunLoop` is the `for`/`select` loop, a fold of `ApplyResult`
  over the results it receives. `K8sResolver.BuildState` is the `append`
  loop that builds the state. The client connection is `Grpc.ClientConn`,
  whose ghost log `updates` records every `UpdateState` call.

`ResolverSpec` states the same behaviour on values. `ApplyStep` and
`Reconcile` are one pass and the fold. `Changes` is an independent reference
definition: the results that differ from the result received just before
them. `StartStep` and `CloseStep` are the lifecycle transitions, and
`Replay` applies any sequence of `Start`/`Close` calls.

Assumptions:

- `strSliceEqual` is defined in a file that is not part of this model. It
  is taken to be positional sequence equality (`==` on `seq<string>`), with
  a nil slice equal to an empty one. So `last` starts as `[]`, and an
  initial empty result sends no update.
- In the code, `last` is a local variable of `run`. Each `Start` that
  spawns a loop starts it with `last` nil. The model keeps `last` as a
  field of `Resolver`, and `Start` resets it to `[]` when it spawns a loop.
- The model only applies results in the current, not yet cancelled loop,
  so `ApplyResult` and `RunLoop` require `active`. In the code a cancelled
  loop can still apply one pending result (see "## Left out").
- The sends `r.resolves <- nil` and `r.results <- addrs` block in the code.
  They do not drop a value when the channel is full. This only matters for
  the concurrency, which is left out.

## Model

| member | source | states |
|---|---|---|
| `K8sResolver.Resolver.constructor` | resolver.go:29-38 | a new resolver is inactive (no cancel function), has spawned no loop, and holds exactly the given target, connection and client |
| `K8sResolver.Resolver.Start` | resolver.go:40-47 | the new lifecycle is `StartStep` of the old one. An inactive resolver becomes active, spawns one loop and starts with nothing applied. An active one is left exactly as it was. Exactly one spawned loop is not yet cancelled while active |
| `K8sResolver.Resolver.Close` | resolver.go:123-129 | the new lifecycle is `CloseStep` of the old one. An active resolver cancels its loop and becomes inactive, so `Start` works again. An inactive or never-started one is unchanged |
| `ResolverSpec.StartLaws` | resolver.go:40-47 | Start is idempotent: Start twice equals Start once. The result is always active. An active resolver is unchanged, and an inactive one spawns exactly one loop |
| `ResolverSpec.CloseLaws` | resolver.go:123-129 | Close is idempotent and always leaves the resolver inactive. A never-started or closed resolver is unchanged. Start after Close activates again and spawns a fresh loop |
| `ResolverSpec.ReplayKeepsOneLoop` | resolver.go:40-47 | for any sequence of Start and Close calls made one after another, exactly one spawned loop is not yet cancelled while active and none while inactive. The calls spawn at most one loop each |
| `K8sResolver.BuildState` | resolver.go:100-103 | the built state has as many addresses as the list. Address i is string i with type Backend, the order is kept, and reading the strings back gives the list |
| `ResolverSpec.BackendsAt` | resolver.go:100-103 | the built address list has the same length as the result list, and entry i is `Address(addrs[i], Backend)` |
| `ResolverSpec.StateOfRoundTrip` | resolver.go:100-103 | the endpoint strings of the built state are exactly the received list, in order |
| `ResolverSpec.StateOfInjective` | resolver.go:100-103 | two result lists give the same state if and only if they are equal |
| `Grpc.ClientConn.UpdateState` | resolver.go:104 | each call appends exactly the given state to the consumer's log |
| `K8sResolver.Resolver.ApplyResult` | resolver.go:93-106 | a list equal to `last` causes no update and leaves `last` unchanged. Any other list appends exactly one update, `StateOf(addrs)`, and `last` becomes that list |
| `K8sResolver.Resolver.RunLoop` | resolver.go:89-111 | after receiving a sequence of results, `last` and the updates appended to the connection's log are those of `Reconcile`, the fold of one pass over the sequence |
| `ResolverSpec.ReconcileBounded` | resolver.go:90-106 | over any sequence of results, the number of updates is at most the number of results |
| `ResolverSpec.ReconcileLastReceived` | resolver.go:93-106 | after any non-empty sequence of results, `last` is the most recently received list, whether or not it caused an update |
| `ResolverSpec.ReconcileLastUpdate` | resolver.go:90-106 | if there was at least one update, the last update carries `last`. If there was none, `last` is still the starting list |
| `ResolverSpec.ReconcileNoRepeats` | resolver.go:90-106 | no two consecutive updates carry equal address lists, and the first update differs from the starting `last` |
| `ResolverSpec.ChangesSnoc` | resolver.go:93-97 | receiving one more result adds it to the reference changes exactly when it differs from the result received just before it |
| `ResolverSpec.ReconcileIsChanges` | resolver.go:90-106 | the updates sent are exactly the states of the reference `Changes`, in order. A result causes an update if and only if it differs from its predecessor, the first one being compared with the starting `last` |
| `ResolverSpec.RepeatsAreSilent` | resolver.go:94-97 | a list received again and again, after it was applied, causes no update and stays `last` |
| `ResolverSpec.TwoEndpointScenario` | resolver.go:90-106 | starting empty, one endpoint received and then the same two endpoints received any number of times (at least once) give exactly two updates: one endpoint, then both |

## Left out

- Goroutines, channels and `select` (resolver.go:46, 49-63, 81-85, 114-121): these are concurrency and blocking hand-off. The `run` loop is modelled as a fold over the sequence of results it receives, not as a race between a result and cancellation.
- `ResolveNow` and `resolveNow` (resolver.go:114-121), and the bootstrap resolve at resolver.go:87: each only sends a trigger on a channel.
- `runPeriodicResolve`, `runResolveExecutor` and `runPassiveResolve` (resolver.go:49-79): timer, debounce and directory-service plumbing. `debounce` is not part of this model, and the ticker depends on wall-clock time.
- `RefreshInterval` and `DebounceInterval` (resolver.go:11-17): timing only.
- The client calls `GetAddresses` and `WatchAddress` (resolver.go:67, 78): they call into code that is not part of this model. Their answers are the arbitrary `seq<string>` results given to `ApplyResult` and `RunLoop`. A failed lookup sends nothing, so it never reaches the model.
- Context cancellation: `cancel` is only the `active` flag plus the ghost counter `cancelled`.
- The channels `resolves` and `results` made by `NewResolver` (resolver.go:34-35), and its unused `BuildOption` parameter.
- Logging through zerolog (resolver.go:57, 68, 71, 95, 98, 119).
- `k8s.Target` and `k8s.Client` are not part of this model. `Target` is an opaque string and `Client` an empty class.
- The gRPC types keep only what the resolver sets: `Address` has `Addr` and `Type`, and `State` has `Addresses`.
- `ApplyResult`, `RunLoop`: a cancelled loop can still apply a result. `Close` (resolver.go:127-128) only calls `cancel()`. The old loop's `select` (resolver.go:92) picks at random among ready cases, so a waiting result can still reach `UpdateState` (resolver.go:104) after `Close` has returned. After `Close` and a new `Start`, the old and the new loop can also both read `r.results` for a while. The model rules this out with `requires active`.
- `Start`, `Close`: calls that overlap are not modelled. `r.cancel` is read and written without a lock (resolver.go:41, 45, 124-128), so two overlapping `Start` calls can each spawn a loop. The lifecycle properties hold only for calls made one after another.
- `ApplyResult`, `RunLoop`: the equality test stands for `strSliceEqual`, whose code is not part of this model. Its exact treatment of nil is assumed, not proved.
