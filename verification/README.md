# xzerver: a verified model of the request engine

xzerver serves requests by moving them through a graph of modules that are linked by result states. Many
threads run one io service, so a request is really a set of outstanding callbacks that interleave freely.
This project models the engine and the parts it depends on, and proves what holds under every interleaving,
for every input and for every reachable state. `dafny verify dfyconfig.toml` checks the whole project
(Dafny 4.11).

## What is modelled

**The engine as a token protocol** (`TokenEngine`, `TokenInvariant`, `TokenSteps`, `TokenTheorems`, `TokenBound`). A
request context is a multiset of tokens; a step lets any one of them advance. A fork splits a token into one per
active branch, one turn of its loop at a time; a join absorbs the branches, with a 16-bit counter and a failed flag,
and emits one token. The results are for every *well-nested* graph: links go down a rank, every branch leads to the
join of its fork, each join waits for as many branches as its fork activates, and that number, which may be 0, is
below 65536. The invariant follows where each part of the request is (a token, inside a fork, arrived, ended, lost),
which is what conserves tokens across nesting. `Val` is the sequential meaning of a request, with no interleaving, and
the protocol is proved to agree with it. `TokenBound` adds a budget that no schedule exceeds, given what the modules
answer; for the example graph `ExampleBound` turns it into a number that depends on the active branches alone.

**The engine as code** (`FsmRun`). `_run`, `resume`, `_end_request`, `handle_request`, and the fork and join modules,
as methods that call each other recursively and update a context object. They terminate (by the measure "restart still
possible, then rank, then call"), and everything they do to a context is a schedule of the token protocol. Termination
needs the start module to answer later, as every request module does.

**Configuration** (`FsmLinks`, `ExampleGraph`, `ExampleBuild`, `ExampleRoutes`, `ExampleRequest`, `ExampleEnds`,
`ExampleBound`). The nested maps behind `add_module` and `link_module`; the code of the example server that fills
them, for any number of shards, sub-models and predictors; the proof that these loops build one particular graph, that
the graph is well nested, what its joins decide, and exactly which requests end.

**A join at lock granularity** (`JoinLock`), **lock order** (`LockOrder`), and **the contexts of one connection**
(`ContextChain`).

**Backend connections** (`ClientPool`, `ClientPoolRuns`, `TcpModule`, `TcpRuns`). The pool of idle clients; one run of
a backend module with its two timers; and any number of such runs sharing a pool. Timer handlers may be called at any
time after they were armed, with or without an error, also after they were cancelled. The moment between giving a
client back and forgetting it is a state of its own. `BackendRuns` composes these runs with the contexts of all
connections, so that a module's run is what the engine waits for and its answer what the engine goes on with;
`ExampleServer` applies this to the example's two pools.

**The connection's own socket** (`ServerIo`, `ConnectionRuns`): request and response modules and their timers, and
their composition with the contexts of the connection.

**Load balancing** (`LoadBalancer`).

### Conventions

- The user-supplied parts of modules (`on_*_impl` and the like, and modules the repository does not contain) are
  arbitrary: an outcome per module and context, with an arbitrary result state, possibly setting the exit flag,
  possibly losing its continuation because cancelling a timer failed.
- The io service calls each handler once. A socket operation completes with success, with "aborted" only if its
  socket was cancelled or closed, or with another error. The clock, random numbers and the state of remote ends
  (`broken`) are parameters.
- A graph belongs to one request, because the number of active branches does (`get_active_fork_num` is asked per
  context). The contexts of a connection, and of a server, each have a graph of their own; the example's requests share
  the configuration.
- Objects that the source shares through pointers are referred to by identity. A `TcpClient` lives in a store
  (`Clients`) whose entries the pool and the modules update.
- A class method is proved equal to a function of the old state; the theorems are about that function over whole
  runs.
- `Reached`, `Led`, `Leads`, `LeadsTo`, `Serves` and `Served` say that a schedule is possible and which state it leads
  to. The guard `Unfolded` in them is always true; it only keeps proofs from looking inside where they need not.
- Some names are history only: `calls`, `acts`, `state`, `order`, the token's `region`, the run's `fired`,
  `strays`, `resumed`, `called`, `connectCalls`, `replyCalls`, and the connection's `wire`. No step of the source
  depends on them.

### Where a promise does not hold as one would expect

- A fork that activates no branch strands its request: no callback is left, and the request never ends
  (`ExampleEnds.StrandedRequest`, at the inputs of `ExampleEnds.EmptyForks`). `TokenTheorems.EndsExactlyOnce` is an
  equivalence for every graph, and `ExampleEnds.OnlyEmptyForksStrand` one in terms of the modules' results.
- A timer of a *request or response* module that comes late does cancel the next operation on the connection, also
  one of a later module (`ServerIo.LateTimerCanAbortTheReply`). `ServerIo.LateTimerHitsWhatIsInFlight` says exactly
  when, and `ServerIo.PunctualMeansNoStray` that nothing else interrupts an operation.
- In a *backend* module a late timer never reaches beyond its own run (`TcpRuns.LateTimerStaysInItsRun`) and never a
  client that was handed back (`TcpRuns.NoTimerAfterHandBack`). Within the run a late connect timer does abort the
  write or a read, although the reply timer has not expired (`TcpRuns.LateConnectTimerCanAbortTheWrite`);
  `TcpRuns.OnlyLateConnectTimersStray` says that this is the only way, and when.
- A read whose socket was cancelled may still complete with another error; then the run resumes with a failure, not
  with a timeout (`ServerIo.CancelledReadCanFail`).
- A join whose arrivals outnumber what it waits for by 65536 schedules its continuation twice
  (`JoinLock.JoinCanScheduleTwice`; `JoinLock.HowManySchedule` gives the number for any number of arrivals).
- Looking up a link whose target was never registered enters a null pointer in the module table
  (`FsmLinks.LookupPollutesOnlyUnknownNames`, an equivalence; `FsmLinks.LookupCanPollute`, an input).
- The balancer's lookup by hash can return a server that is not alive (`LoadBalancer.HashAcceptsRecovering`, at
  `LoadBalancer.HashCanAcceptRecovering`), and a server that was never configured can become alive
  (`LoadBalancer.StrangersBecomeAlive`, at `LoadBalancer.StrangerCanBeAlive`). The comment
  "alive -> bad -> good -> alive" in the header suggests disjoint sets; the code allows overlaps
  (`LoadBalancer.WhenSetsOverlap`, at `LoadBalancer.SetsOverlap`).

## Model

| member | source | states |
|---|---|---|
| TokenTheorems.StepKeepsInv | framework/fsm.cc:56-84 | every step of every thread (module call, handler, each turn of a fork's loop, join under its lock, join after it) keeps the whereabouts invariant of any well-nested graph |
| TokenTheorems.EndsAtMostOnce | framework/fsm.cc:56-118 | in every interleaving a context reaches `_end_request` at most once |
| TokenTheorems.EndsExactlyOnce | framework/fsm.cc:56-118 | when no callback is left and none was dropped, the context has ended exactly once if and only if every fork it ran had an active branch |
| TokenTheorems.RunsAtMostOnce | framework/fsm.cc:56-71 | a module other than a join runs at most once per context |
| TokenTheorems.EveryTokenCanStep | framework/fsm.cc:56-84 | no outstanding callback is ever stuck |
| TokenTheorems.NothingRunsAfterTheEnd | framework/fsm.cc:110-118 | after the end only threads on their way out of a join are left |
| TokenTheorems.JoinsAreConfluent | module/join_module.cc:5-30 | a join leaves with the conjunction of its branches' sequential results, whatever the order of callbacks |
| TokenTheorems.QuietMeansMeaning | framework/fsm.cc:56-118 | once all callbacks are done, the request has ended exactly when its sequential meaning is to end |
| TokenTheorems.NothingDropped | framework/fsm.cc:56-84 | no continuation is lost when every module continues its request |
| TokenTheorems.FlagsAfter | framework/fsm.cc:56-118 | what any step does besides moving tokens: the exit flag is set only by a module's answer that says so and by a missing link, the end is counted at the end module and at a missing link, a loss only where a continuation is lost |
| TokenTheorems.ArrivalsAfter | module/join_module.cc:8-14 | an arrival at a join counts, in 16 bits, and leaves its mark if it comes with anything but success; no other step changes a count or a mark |
| TokenBound.SchedulesAreBounded | framework/fsm.cc:56-118 | for given outcomes of the modules, no interleaving of a context takes more steps than the budget of its start module |
| TokenBound.StepSpends | framework/fsm.cc:56-84 | every step of every thread, forks and last arrivals included, uses up some of the budget |
| TokenBound.StuckMeansDone | framework/fsm.cc:56-118 | where nothing can step any more no callback is left, and the request has ended exactly when its sequential meaning is to end |
| TokenBound.EveryRequestComesToRest | framework/fsm.cc:56-118 | every reachable state leads on to one without callbacks |
| ExampleBound.ExampleIsBounded | example1/main.cc:90-217 | whatever the modules answer, a request makes at most 18 + max(sum over active shards of 11 + 11 * active sub-models, 11 * active predictors) steps |
| TokenEngine.BranchesMeaning | module/join_module.cc:8-20 | the fold over branches is lost if some branch is lost and succeeds if and only if every branch arrives with success |
| FsmRun.Context.RunModule | framework/fsm.cc:56-71 | `_run` terminates, extends the context's token schedule, keeps fields and schedule in agreement, and leaves a successor exactly when the request ended without exit |
| FsmRun.Context.Resume | framework/fsm.cc:73-84 | the same for `resume`: end module, missing link (sets exit), or the next module |
| FsmRun.Context.EndRequest | framework/fsm.cc:110-118 | without exit a new context of the next generation, with the graph and behaviour of its own request, is created and started; with exit none is |
| FsmRun.Context.HandleRequest | framework/fsm.cc:51-54 | running the start module of a new context terminates and leaves a context between handlers |
| FsmRun.Context.RunFork | module/fork_module.cc:5-15 | the fork adds exactly its branch timers to the outstanding handlers; its call and each turn of its loop are steps of the protocol |
| FsmRun.Context.ArmTimers | module/fork_module.cc:7-13 | the loop arms one timer per active branch, one after the other |
| FsmRun.Context.ArmTimer | module/fork_module.cc:7-13 | one turn of the loop is one step of the protocol, between whose turns branches may already run |
| FsmRun.Context.RunJoin | module/join_module.cc:5-24 | flag, 16-bit count, comparison and read are two steps of the protocol |
| FsmRun.Context.CountArrival | module/join_module.cc:8-14 | the locked section sets the flag on a failure and increments the 16-bit count, as one step of the protocol |
| FsmRun.Context.RunSimple | framework/fsm.cc:56-58 | a user's module that answers at once is gone on from with its own state, and leaves no handler; any other leaves exactly its handler; no handler is ever outstanding for a module that answers at once |
| FsmRun.Context.OnCallback | module/fork_module.cc:18-22 | any outstanding handler (`on_forked`, `on_joined`, a user's module) keeps the context valid; no context with a successor has such a handler |
| FsmRun.ContextEndsOnce | framework/fsm.cc:110-118 | of a context object between any two handlers: ended at most once; when no handler is left and nothing was lost, ended exactly if no fork it ran was empty, and with a successor exactly if moreover exit is not set; no outstanding handler belongs to a module that answers at once |
| FsmRun.RankDrops | framework/fsm.cc:66-84 | following a link in any reachable state goes down the rank (the termination measure) |
| ContextChain.RequestsAreSerial | framework/fsm.cc:110-118 | all contexts of a connection but the newest have ended without exit, and only threads on their way out of a join are left in them |
| ContextChain.NoRestartAfterExit | framework/fsm.cc:110-118 | once the newest context has the exit flag no further context is ever created |
| ContextChain.RestartsExactly | framework/fsm.cc:110-118 | a further context is created exactly by the step that reaches the end module while the exit flag is not set |
| ContextChain.OneSocketOperation | module/request_module.cc:30-47 | over all contexts of a connection at most one module outside the branches is waiting for its handler |
| ConnectionRuns.StepKeepsInv | module/request_module.cc:30-158 | composition of contexts and socket operations: a job at work is what its owner's context waits for, and a job that set exit has set it for the newest context |
| ConnectionRuns.ModulesFindTheSocketIdle | module/response_module.cc:25-44 | whenever a request or response module starts on the socket, no operation of any context is in flight there |
| ConnectionRuns.FailedIoEndsTheConnection | module/request_module.cc:61-158 | once a read or write has failed or timed out, or its continuation was lost because the timer could not be cancelled, no further context is created, whatever happens from then on |
| ExampleEnds.ExampleConnectionStops | example1/main.cc:92-217 | the same for every connection of the example server, whose requests may each activate different branches |
| FsmLinks.Fsm.AddModule | framework/fsm.cc:32-38 | the module table is the one the calls so far define; a second module of a name is ignored |
| FsmLinks.Fsm.LinkModule | framework/fsm.cc:40-49 | the nested link table is the one the calls so far define; a second link of a state is ignored |
| FsmLinks.Fsm.GetNextModule | framework/fsm.cc:86-108 | the lookup by state, else by `Mod_else`, else null, and its effect on the module table |
| FsmLinks.TablesHoldEarliest | framework/fsm.cc:32-49 | the tables hold exactly the earliest link per module and state and the earliest registration per name |
| FsmLinks.LookupFollowsRule | framework/fsm.cc:86-108 | with registered targets and unique names the lookup is "earliest link for the state, else earliest `Mod_else` link, else none" and changes no table |
| FsmLinks.LookupPollutesOnlyUnknownNames | framework/fsm.cc:94-103 | the lookup changes the module table exactly when the target's name was never registered |
| FsmLinks.LookupCanPollute | framework/fsm.cc:94-103 | one link to an unregistered module makes the lookup change the module table |
| ExampleGraph.NamesAreDistinct | example1/main.cc:92-201 | the generated module names are pairwise different |
| ExampleGraph.DecimalRoundTrip | example1/main.cc:111-137 | the decimal number in a name can be read back |
| ExampleBuild.BuildSubModels | example1/main.cc:129-144 | the inner loop makes exactly the calls for its sub-models |
| ExampleBuild.BuildShards | example1/main.cc:111-149 | the shard loop makes exactly the calls for its shards |
| ExampleBuild.BuildAllPs | example1/main.cc:163-178 | the predictor loop makes exactly the calls for its predictors |
| ExampleBuild.BuildExample | example1/main.cc:90-217 | the whole construction makes exactly the listed calls, in order |
| ExampleRoutes.ExampleFind | example1/main.cc:90-217 | for all loop bounds the first link the calls give a module and state is the one in the picture of the graph |
| ExampleRoutes.AllRegistered | example1/main.cc:90-217 | every module of the graph is registered |
| ExampleRoutes.ExampleIsRouted | example1/main.cc:90-217 | on the tables built by the loops, `_get_next_module` goes where the picture says, for every module and state |
| ExampleRequest.ExampleIsWellNested | example1/main.cc:90-217 | for all numbers of shards, sub-models and active branches the graph is well nested |
| ExampleRequest.ExampleIsAcyclic | example1/main.cc:90-217 | the links of the whole table, which all contexts share, lead down |
| ExampleRequest.ExampleNeverDeadlocks | example1/main.cc:90-217 | as long as threads of the example server are in handlers, of whatever contexts, one of them can go on |
| ExampleRequest.ShardVerdict | example1/main.cc:111-149 | closed form of what one shard with its nested fork and join amounts to, also when the nested fork is empty |
| ExampleRequest.FsJoinIsConfluent | example1/main.cc:111-149 | whatever the order of callbacks and whatever the other forks do, `fs_join_mod` leaves with success exactly when every active shard and, for each active sub-model, the predictor or its backfill succeeded; otherwise it fails and routes to the empty response |
| ExampleRequest.PsJoinIsConfluent | example1/main.cc:151-198 | the same for `ps_join_mod` |
| ExampleEnds.RequestMeaning | example1/main.cc:90-217 | closed form of when a request ends, over all routes of the graph |
| ExampleEnds.ExampleEndsOnce | example1/main.cc:90-217 | in every interleaving a request ends at most once; with no callback left, exactly if the closed form holds, and if nothing was dropped, exactly if no fork it ran was empty |
| ExampleEnds.OnlyEmptyForksStrand | module/fork_module.cc:5-15 | when every module continues its request, nothing is dropped and the request ends exactly if it comes to no empty fork |
| ExampleEnds.StrandedRequest | module/fork_module.cc:5-15 | a request that comes to an empty fork can run to a state without callbacks, drops or end |
| ExampleEnds.EmptyForks | module/fork_module.cc:5-15 | such requests, for the shard fork, the predictor fork and a nested fork |
| JoinLock.StepKeepsInv | module/join_module.cc:8-21 | lock, flag, count, unlock, compare and read keep the invariant in every order of threads |
| JoinLock.WhoSchedules | module/join_module.cc:13-21 | an arrival schedules `on_joined` exactly when its position, in 16 bits, is the number waited for |
| JoinLock.HowManySchedule | module/join_module.cc:13-21 | of n arrivals none schedules if n < active, and otherwise 1 + (n - active) / 65536 do |
| JoinLock.ExactlyOneSchedules | module/join_module.cc:13-21 | of n arrivals exactly one schedules, if and only if active <= n < active + 65536 |
| JoinLock.JoinCanScheduleTwice | module/join_module.h:44-46 | with active + 65536 arrivals the continuation is scheduled twice |
| JoinLock.JoinReadsEveryFailure | module/join_module.cc:8-21 | with n arrivals for n, the flag read after the unlock is the disjunction of all failures, and nobody else reads it |
| JoinLock.SomeArrivalCanGoOn | module/join_module.cc:8-14 | the join's lock never blocks all arrivals |
| LockOrder.NeverRelocks | module/tcp_module.cc:77-111 | no thread waits for a lock it holds, although handlers keep theirs across `resume` |
| LockOrder.NoCircularWait | module/tcp_module.cc:223-259 | no chain of threads waiting for each other's locks closes |
| LockOrder.SomeThreadCanGoOn | framework/fsm.cc:56-118 | as long as threads are in handlers one of them can go on |
| ClientPool.TcpClientPool.GetClient | client/tcp_client_pool.cc:24-60 | the loop is `Checkout`: queue, use counts and closings, whether or not the peer is known |
| ClientPool.TcpClientPool.Recollect | client/tcp_client_pool.cc:123-131 | the client is touched and appended to its peer's queue |
| ClientPool.TcpClientPool.SweepQueue | client/tcp_client_pool.cc:103-117 | erasing in place is the order-preserving filter of the clients that are neither too old nor closed nor broken (`ClientPool.WhoSurvives`), and exactly the too old ones are closed |
| ClientPool.TcpClientPool.CheckClients | client/tcp_client_pool.cc:90-121 | the sweep filters every queue |
| ClientPool.TakeFindsFirst | client/tcp_client_pool.cc:30-56 | old queue = rejected ++ [returned] ++ remaining, and the returned client is the first acceptable one, for any queue, also one that holds a client twice |
| ClientPool.TakeEffect | client/tcp_client_pool.cc:30-56 | checkout changes only use counts and closes only clients over the limit |
| ClientPool.TakeCounts | client/tcp_client_pool.cc:30-56 | exactly what checkout does to any client, however often it waits: one use for each time it is popped while open, and closed as soon as it is over the limit |
| ClientPool.SweptEffect | client/tcp_client_pool.cc:103-117 | membership after the sweep, and no duplicates arise |
| ClientPool.WhoSurvives | client/tcp_client_pool.cc:103-117 | how often a client is in a queue after a sweep: as often as before if it was touched less than the check time ago, is open and not broken, and otherwise not at all |
| ClientPoolRuns.NoClientIsOverused | client/tcp_client_pool.cc:35-46 | in every run, with any clock, sweeps at any time and any number of put-backs, no client is handed out more often than the limit |
| ClientPoolRuns.CheckoutReturnsFirstOfPeer | client/tcp_client_pool.cc:24-60 | after any run whatsoever a checkout returns the first acceptable client of the requested peer, which has that peer id, and nothing only if there is none |
| ClientPoolRuns.AfterASweep | client/tcp_client_pool.cc:90-121 | after any run whatsoever a sweep leaves in each queue exactly the clients that waited there and are open, not too old and not broken; it closes exactly those of the waiting that are too old, and changes nothing else |
| ClientPoolRuns.NoDeadClientAfterASweep | client/tcp_client_pool.cc:103-117 | right after a sweep no waiting client is closed, broken or too old |
| ClientPoolRuns.NobodyWaitsTwice | client/tcp_client_pool.cc:123-131 | if no client is put back while it is there, none waits twice, in one queue or in two, whatever the clock does |
| ClientPoolRuns.NoClientIdlesTooLong | client/tcp_client_pool.h:60-64 | with a monotone clock and a next sweep at most d overdue, no waiting client has been idle for twice the check time plus d |
| ClientPoolRuns.QueuesAreSorted | client/tcp_client_pool.cc:90-131 | with a monotone clock and no client put back while it is there, queues are sorted by last touch time |
| TcpModule.ModuleData.Start | module/tcp_module.cc:26-75 | `run` on the run and the pool: no backend, a pooled client with its reply timer, a new connection with its connect timer, or each of the synchronous failures |
| TcpModule.ModuleData.OnConnect | module/tcp_module.cc:77-111 | abort resumes with timeout; another error cancels the timer and fails, or loses the continuation; success arms the reply timer and writes |
| TcpModule.ModuleData.OnWriteReq | module/tcp_module.cc:151-184 | abort, error and success of the write; success reads the head under the same timer |
| TcpModule.ModuleData.OnRecvRespHead | module/tcp_module.cc:186-221 | abort, error or refused head, and success; a refused or failed head closes the client before the run fails |
| TcpModule.ModuleData.OnRecvRespBody | module/tcp_module.cc:223-250 | abort and error as before; success gives the client back while the run still remembers it |
| TcpModule.ModuleData.FinishRespBody | module/tcp_module.cc:251-257 | the client is forgotten, and the run resumes with success or failure by the hook's answer |
| TcpModule.ModuleData.OnTimeOut | module/tcp_module.cc:113-136 | both timeout handlers only cancel the socket of the client the run holds |
| TcpRuns.StepKeepsInv | module/tcp_module.cc:26-299 | every handler of every run, and every sweep, keeps ownership, accounting and protocol phase |
| TcpRuns.NoClientPooledTwice | client/tcp_client_pool.cc:123-131 | no client is in the pool twice |
| TcpRuns.OneRunPerClient | module/tcp_module.cc:31-33 | no two runs do I/O on the same client, and a client in use is open and not pooled |
| TcpRuns.LateTimerStaysInItsRun | module/tcp_module.cc:273-299 | a timeout handler, however late, changes no other run and touches no pooled client |
| TcpRuns.NoTimerAfterHandBack | module/tcp_module.cc:245-252 | after a run has handed its client back none of its timers ever cancels a socket |
| TcpRuns.OnlyLateConnectTimersStray | module/tcp_module.cc:113-136 | in every reachable state a timeout handler interrupts an operation it was not armed for exactly if it is the connect timer's, runs without error, and a write or read is in flight |
| TcpRuns.LateConnectTimerCanAbortTheWrite | module/tcp_module.cc:113-136 | a run in which a late connect timer aborts the write while the reply timer is still armed |
| TcpRuns.OneContinuationPerRun | module/tcp_module.cc:26-259 | pending operation + resumes + synchronous failures + losses = 1; the event flag is open exactly while an operation is pending; the "already called" guards are never taken |
| TcpRuns.WhyResumed | module/tcp_module.cc:77-259 | which handler resumes a run with timeout, success or failure, and that no other step does |
| TcpRuns.WhatFollows | module/tcp_module.cc:77-259 | in every reachable state: a good connect is followed by the write, the write by the head, the head by the body and the body by the client's return, in the same run and on the same client; a failed operation by none; a continuation is lost exactly where cancelling a due timer fails |
| TcpRuns.WhoIsClosed | module/tcp_module.cc:186-221 | a socket handler closes its client exactly when the head failed or was refused and its timer was cancelled, and no other client |
| TcpRuns.WhatATimerDoes | module/tcp_module.cc:113-136 | a timer handler called without error interrupts its run's operation, whichever timer it is, and does nothing else; with an error it does nothing |
| TcpRuns.WhatAStartDoes | module/tcp_module.cc:26-75 | a run starts with a write on the pooled client and one reply timer, or a connection attempt and one connect timer, or fails at once |
| TcpRuns.OperationsAreGuarded | module/tcp_module.cc:41-72 | an operation in flight has a timer that guards it, armed once, whose handler is outstanding or has been called |
| TcpRuns.WhatAResumeMeans | module/tcp_module.cc:77-259 | a timed-out run was cancelled by its own timer; a successful one holds no client |
| TcpRuns.PooledClientsAreClean | module/tcp_module.cc:138-259 | a pooled client is open, has no operation pending and has completed a whole number of exchanges |
| BackendRuns.StepKeepsInv | module/tcp_module.cc:26-259 | composition of all contexts with all backend runs: ownership, and the link between waiting modules and owed runs |
| BackendRuns.ModulesStartOnce | module/tcp_module.cc:26-75 | a backend module of a context is started at most once |
| BackendRuns.WaitingMeansOwed | module/tcp_module.cc:77-259 | in every reachable state of a server a backend module waits for its handler exactly as long as its run has an operation in flight or is about to resume |
| BackendRuns.EngineSeesTheRun | framework/fsm.cc:73-84 | the engine goes on from a backend module with what its run has answered: a success means the client was given back, a timeout that the run's own timer fired |
| BackendRuns.OneModulePerClient | module/tcp_module.cc:31-33 | no two backend modules of whatever contexts and connections do I/O on the same client |
| ExampleServer.ExampleSeesItsRuns | example1/main.cc:111-178 | the same link, in a server whose requests may each activate different branches, for the modules of the example that share the fs pool, and for those that share the ps pool |
| ServerIo.ServerJob.Run | module/request_module.cc:30-47 | arms the version timer and starts reading the version |
| ServerIo.ServerJob.OnReadVersion | module/request_module.cc:61-98 | abort and error set exit and resume; an accepted version cancels the timer, arms the second one and reads the head, or loses the continuation |
| ServerIo.ServerJob.OnReadHead | module/request_module.cc:100-130 | abort and error set exit and resume; an accepted head goes on to the body under the same timer |
| ServerIo.ServerJob.OnReadBody | module/request_module.cc:133-158 | abort and error set exit and resume; an accepted body cancels the timer and resumes with the chosen state (`ServerIo.WhatAHandlerDoes`) |
| ServerIo.ServerJob.RunResponse | module/response_module.cc:25-44 | fails at once and without exit when there is no reply; otherwise arms the timer and writes |
| ServerIo.ServerJob.OnWriteResp | module/response_module.cc:46-69 | success cancels the timer and resumes; abort and error set exit and resume |
| ServerIo.ServerJob.OnTimeOut | module/request_module.cc:160-181 | both timeout handlers leave the run alone and cancel the socket exactly if called without error |
| ServerIo.WhatAHandlerDoes | module/request_module.cc:61-158 | in every reachable state, exactly what a handler resumes with, loses, arms and starts next, by stage, result, hook and timer: the chosen state exactly for an accepted body whose timer was cancelled |
| ServerIo.WhatATimerDoes | module/request_module.cc:160-181 | a timer handler called without error interrupts whatever is in flight on the socket, and with an error nothing; it never resumes a run |
| ServerIo.OperationsAreGuarded | module/request_module.cc:30-97 | an operation in flight has a timer that guards it, armed once, whose handler is outstanding or has been called |
| ServerIo.ResumesOnceAndInOrder | module/request_module.cc:30-181 | under every race with late timers each run resumes at most once; without exit only after version, head and body (or the reply) were accepted in order; otherwise with exit, as timeout exactly if its last operation was aborted, which implies that its socket had been cancelled |
| ServerIo.CancelledReadCanFail | module/request_module.cc:61-98 | a run whose own timer cancelled the socket and which nevertheless resumes with a failure |
| ServerIo.LateTimerHitsWhatIsInFlight | module/request_module.cc:160-181 | a timer handler interrupts an operation it does not guard exactly when it is late and one is in flight |
| ServerIo.PunctualMeansNoStray | module/response_module.cc:82-98 | without late handlers no operation is interrupted by a foreign timer |
| ServerIo.LateTimerCanAbortTheReply | module/request_module.cc:160-181 | a run in which a late request timer aborts the reply |
| LoadBalancer.Balancer.ClearBadIps | client/load_balancer.cc:3-14 | the loop and the swap: good servers become alive, bad ones good, and none is bad |
| LoadBalancer.Balancer.ServerConnectFail | client/load_balancer.cc:68-73 | the server leaves the alive ones and becomes bad, whatever it was |
| LoadBalancer.Balancer.GetAliveIpByHash | client/load_balancer.cc:16-33 | refuses exactly bad servers; the index is the hash, or 2^64 plus a negative one, modulo the number of servers; returns server and port |
| LoadBalancer.Balancer.GetIpByIndex | client/load_balancer.cc:35-44 | empty for an index out of range, also a negative one |
| LoadBalancer.Balancer.GetAliveIpRandom | client/load_balancer.cc:46-66 | succeeds exactly when some server is alive, with an alive one and the port |
| LoadBalancer.RandomReachesAll | client/load_balancer.cc:51-57 | every alive server can be drawn |
| LoadBalancer.HistoryTheorem | client/load_balancer.cc:3-14 | bad, good and alive as functions of the failure history, for every run |
| LoadBalancer.OlderMeansSomeWindow | client/load_balancer.cc:3-14 | the recursive "failed earlier" set means failed in some older window |
| LoadBalancer.EveryServerIsSomewhere | client/load_balancer.cc:3-73 | alive and bad are disjoint; every configured server is alive, bad or good |
| LoadBalancer.TwoQuietTicksRestore | client/load_balancer.cc:3-14 | two ticks without failures make all configured servers alive, with bad and good empty |
| LoadBalancer.OneQuietTickRestores | client/load_balancer.cc:3-14 | exactly when one tick is enough |
| LoadBalancer.HashAcceptsRecovering | client/load_balancer.cc:16-33 | exactly when the lookup by hash accepts a server that is not alive |
| LoadBalancer.HashCanAcceptRecovering | client/load_balancer.cc:16-33 | one failure and one tick lead to such a server |
| LoadBalancer.StrangersBecomeAlive | client/load_balancer.cc:68-73 | exactly when a server that was never configured is alive |
| LoadBalancer.StrangerCanBeAlive | client/load_balancer.cc:68-73 | a balancer without configured servers that has an alive one |
| LoadBalancer.WhenSetsOverlap | client/load_balancer.cc:3-14 | the overlaps of good with bad and of good with alive, exactly, by the last three windows |
| LoadBalancer.SetsOverlap | client/load_balancer.cc:3-14 | two short histories in which the overlaps are not empty |

## Left out

- Sockets, asio internals, `is_error` polling and `remote_ip`: nondeterministic results under the contract above.
- framework/tcp_server.cc: processes, signals and threads; only the creation of a connection's first context appears, as the start of a chain.
- Byte buffers, parsing and the example's data classes; the user's hooks are arbitrary Boolean answers.
- C++ memory management and `FsmContext::recollectable`, which decides nothing; contexts are never reused, so `reset` appears only as the initial values of a new context.
- `TcpClientPool::size`, `debug_string`, logging, flags, configuration loading: easy members only.
- module/parallel_module.h: a declaration without an implementation.
- TcpModule.ModuleData: the store of clients is passed along with the pool; the effect of `cancel` and `close` on operations of other runs is in `TcpRuns`, not in the methods.
- ClientPool.TcpClientPool.GetClient: the peer's queue is worked on in a local variable and written back, because the write lock hides the difference; the pool holds no null pointers, since `recollect` refuses them.
- FsmRun.Context: a method runs without interruption; interleaving inside a handler is what `TokenEngine` and `JoinLock` are about. The fork's timers are elements of a multiset, not an array.
- ExampleServer.ExampleSeesItsRuns: that `FsModule`, `PsModule` and `PsModule2` are backend modules is taken from their constructors, which are given a pool; the classes themselves are not part of this model.
- BackendRuns.StepKeepsInv: a new context may appear at any time; when a connection creates one is the subject of `ContextChain`. Runs are numbered by context and module, and every numbering without repetition will do (`ExampleServer.RunNumbersAreDistinct` gives one).
- FsmLinks.Module: a module is its name and identity; its data and virtual methods are outcomes of the protocol.
- ServerIo.ServerJob.OnReadVersion: its contract names the success state because all handlers share one function; only the body handler uses it.
- ExampleEnds.ExampleEndsOnce: a fork activates no more branches than it has timers, and its join waits for as many; `JoinLock.HowManySchedule` is about joins that wait for another number.
- ConnectionRuns.FailedIoEndsTheConnection: a response module with nothing to send fails without setting the exit flag, as in the source, and does not end the connection.
- LoadBalancer.Balancer.GetAliveIpByHash: fewer than 2^31 configured servers, so that the index fits its `int`.
