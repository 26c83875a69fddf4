# mystds core, modelled in Dafny

This project models the sequential core of the Go helper library `mystds`.

- **mychannel.** `ReadOne` and `WriteOne` race one channel operation against a context. `Drain` closes a channel and empties it.
- **Fan-out holder.** It broadcasts one input channel to an ordered list of sinks. A sink that is full gets the value through a detached, deferred send.
- **Fan-in holder.** It merges member channels into one output through relay goroutines. Each relay watches its own close-signal.
- **myfsm.** A state machine whose states are functions. `Start` runs it until a state yields nil, a returned value or an error, or the context is done.
- **myhttp.** `ReverseProxyRouter` picks a handler by the request's host, with the port stripped, by the first matching route.
- **myrand.** Random alphanumeric strings and identifiers.
- **myslice.** `Map` over a slice.
- **mytest.** A builder of table-driven test cases.
- **myptr.** `Ref`, which returns a pointer to a copy of a value.

How the model represents Go:

- A Go channel is a `Chan` class: a FIFO buffer, a capacity and a closed flag. A context is a `Context` class holding a `cancelled` flag.
- A panic whose message the source fixes is a `Panic(message)` result. A panic that the source never recovers from (closing a closed channel, sending on one) is excluded by a precondition.
- When both cases of a `select` are ready, the scheduler's random choice is a boolean parameter.
- Go's zero value of `T` is a `zero` parameter.
- Mutexes are abstracted away: every public method is one atomic step.
- Goroutines are not run. The fan-out loop is one `Pump` step at a time. A detached send is a pending `DeferredSend` record. A fan-in relay is a `Relay(member, signal)` record, counted as running while its signal is open (its exit on a closed member channel is not modelled; see below).
- A `Func` state of the state machine is a number naming the closure. A `Machine` gives what each closure returns, and a rank that decreases along function-to-function steps.
- In the router, regular-expression matching and compilation are function parameters. A handler is an opaque value, and serving reports which handler ran.
- In `myrand`, the values of `rand.Int()` are a parameter `rnd: nat -> nat`, so each property holds for every random sequence.

Modules: `Outcomes` (Option and Result-or-panic), `Channels`, `FanOut`, `FanIn`, `StateMachine`, `ReverseProxy`, `RandString`, `Slices`, `TestTable`, `Ptr`.

## Model

| member | source | states |
|---|---|---|
| Channels.ReadOne | mychannel/read_write.go:6-14 | The receive case is taken only if it is ready and the context is not done, or the pick chooses it. A buffered value is returned with ok and removed from the head. A closed, empty channel gives (zero, false, true). A done context gives (zero, false, false) and leaves the channel alone. chOK always implies ctxAlive. |
| Channels.WriteOne | mychannel/read_write.go:17-24 | The send case is taken only if the buffer has room and the context is not done, or the pick chooses it. Then `val` is appended after the earlier values and the result is true. Otherwise the result is false and the buffer is unchanged. |
| Channels.Drain | mychannel/drain.go:3-7 | Requires an open channel. Afterwards it is closed and its buffer is empty; the receive loop terminates. |
| FanOut.FanOutHolder.constructor | mychannel/fan_out.go:19-27 | A holder with no sinks, neither started nor closed. Its fresh context starts in the parent's cancellation state. |
| FanOut.FanOutHolder.Start | mychannel/fan_out.go:35-45 | Once started: a no-op, even after Close. Closed and never started: panics with "FanOutHolder already closed". Otherwise: sets started. |
| FanOut.FanOutHolder.Pump | mychannel/fan_out.go:47-66 | One loop iteration. When the receive case is taken and a value is buffered, that value is broadcast. When the receive case is not taken (the context is done and the scheduler picks it), or the input is closed and empty, the holder closes: context cancelled, every sink closed, buffers kept. |
| FanOut.FanOutHolder.Broadcast | mychannel/fan_out.go:54-64 | Every sink with room gets `v` appended. Every full sink instead gets one deferred send of `v`, added after the earlier ones in sink order. The sink list is unchanged. |
| FanOut.OfferAll | mychannel/fan_out.go:55-63 | The loop over the sinks. Sink j takes `v` exactly when it had room; the pending sends are the deferrals of the full sinks, in order. Capacities and open state are preserved. |
| FanOut.Offer | mychannel/fan_out.go:56-62 | The `select` with a default case. With room: sends inline, nothing pending. Without room: one pending send, buffer untouched. |
| FanOut.DeferralsAreFullSinks | mychannel/fan_out.go:55-63 | A send is deferred if and only if it goes to a sink that had no room, and it always carries the broadcast value. |
| FanOut.FanOutHolder.DeliverDeferred | mychannel/fan_out.go:59-61 | A detached send completes: its value is appended to its sink and that one pending send is removed. |
| FanOut.DeferredSendReorders | mychannel/fan_out.go:32-34 | The reordering the doc comment warns of. Broadcasting 1, 2, 3 to a capacity-1 sink whose reader takes 1 early lets the reader see 1, 3, 2. |
| FanOut.FanOutHolder.Close | mychannel/fan_out.go:69-82 | Idempotent. The first call sets closed, cancels the context and closes every registered sink with its buffer kept. A second call changes nothing. |
| FanOut.FanOutHolder.Add | mychannel/fan_out.go:84-99 | Closed: panics with "FanOutHolder already closed", checked first. Negative size: panics. Otherwise: one fresh, open, empty sink of capacity `chsize` appended and returned; existing sinks unchanged. |
| FanOut.Find | mychannel/fan_out.go:109-118 | Returns -1 exactly when the sink is absent. Otherwise returns its first position. |
| FanOut.FanOutHolder.Remove | mychannel/fan_out.go:101-121 | Closed holder or unknown sink: a no-op. Otherwise the sink is drained (closed and empty) and that one entry is spliced out; the others keep their order. |
| FanIn.RelaysFor | mychannel/fan_in.go:39-41 | One relay per member, on that member's signal, and no other. |
| FanIn.FanInHolder.constructor | mychannel/fan_in.go:16-26 | The members are exactly the given channels, each with its own fresh open signal. Not started, not closed, the output fresh, open and unbuffered. |
| FanIn.FanInHolder.Start | mychannel/fan_in.go:28-42 | Once started: a no-op. Closed and never started: panics with "FanInHolder already closed". Otherwise: started, with exactly one relay per member. Running relays stay tracked. |
| FanIn.FanInHolder.Chan | mychannel/fan_in.go:60-63 | Starts the holder with the same outcomes, then returns the output. |
| FanIn.FanInHolder.Close | mychannel/fan_in.go:65-78 | Idempotent. Closes every member's signal and the output. Every tracked relay is stopped. |
| FanIn.FanInHolder.Remove | mychannel/fan_in.go:80-93 | Closed holder or unknown channel: a no-op. Otherwise the member is deleted and its signal closed, so no tracked relay reads it any more. |
| FanIn.FanInHolder.Add | mychannel/fan_in.go:95-107 | As written. Closed: a no-op. Otherwise the channel gets a fresh signal, replacing an existing member's. On a started holder a relay is spawned. |
| FanIn.ReAddLeaksRelay | mychannel/fan_in.go:99-106 | Adding a member twice on a started holder and then removing it leaves a relay running for a channel that is no longer a member. |
| FanIn.FanInHolder.AddOnce | mychannel/fan_in.go:95-107 | The corrected Add: an existing member is left alone. Every running relay stays tracked. |
| FanIn.AddOnceThenRemoveStops | mychannel/fan_in.go:80-107 | With AddOnce, the same sequence leaves no relay running for the removed channel. |
| StateMachine.Transition | myfsm/state_machine.go:15-39 | `Return` and `Error` states yield nil. A `Func` state runs its closure. |
| StateMachine.Settle | myfsm/state_machine.go:53-76 | The end of a run never reports both a value and an error. |
| StateMachine.Run | myfsm/state_machine.go:45-81 | The run of Start never reports both a value and an error. |
| StateMachine.Start | myfsm/state_machine.go:45-81 | The loop returns exactly the outcome of the recursive run `Run`. |
| StateMachine.RunFollowsChain | myfsm/state_machine.go:48-79 | The chain of states Start visits: each is the previous one's step. The outcome is what the last step settles to, or the context's error when cancellation cut the chain. |
| StateMachine.NilInitialState | myfsm/state_machine.go:48 | A nil initial state returns (nil, nil) without any step. |
| StateMachine.CancelledBeforeStart | myfsm/state_machine.go:49-51 | A context done before the first step gives the context's error, and no state runs. |
| StateMachine.TerminalInitialState | myfsm/state_machine.go:31-33 | Starting from a Return or Error state yields (nil, nil), or the context's error. |
| StateMachine.StepEndsRun | myfsm/state_machine.go:53-76 | An `Error(e)` step gives (nil, the `errstate` wrapping e), `StateErr(e)`. A `Return(v)` step gives (v, nil). A nil step gives (nil, nil). An error panic gives (nil, e). Any other panic escapes. |
| StateMachine.CounterRunsFrom | myfsm/state_machine_test.go:17-23 | The counting closure from counter c calls itself until the limit: (nil, nil) after 1337 - c + 1 steps. |
| StateMachine.CounterRun | myfsm/state_machine_test.go:15-34 | Started at 0, the closure is called 1338 times and Start returns (nil, nil). |
| ReverseProxy.HostOf | myhttp/reverse_proxy.go:35-41 | The URL host name wins, then the Host header, then r.Host. The result is empty only when all three are. |
| ReverseProxy.LastIndex | myhttp/reverse_proxy.go:43 | The last position of the character, or -1 exactly when it is absent. |
| ReverseProxy.StripPort | myhttp/reverse_proxy.go:43-46 | A prefix of the host. It is shorter exactly when a ':' occurs after the first character, and then it is cut at the last ':'. |
| ReverseProxy.StripPortRoundTrip | myhttp/reverse_proxy.go:43-46 | `name:port` becomes `name` for any non-empty name and colon-free port. |
| ReverseProxy.StripPortKeepsBareHost | myhttp/reverse_proxy.go:43-46 | A host with no ':' after its first character is kept whole. |
| ReverseProxy.StripPortMangling | myhttp/reverse_proxy.go:43-46 | As written, `::1` becomes `:` and `[::1]` becomes `[:`. |
| ReverseProxy.HostWithoutPort | myhttp/reverse_proxy.go:43-46 | The corrected stripping; its result is a prefix of the host. |
| ReverseProxy.HostWithoutPortStripsPort | myhttp/reverse_proxy.go:43-46 | The corrected stripping removes `:port` from a plain name and from a bracketed literal. |
| ReverseProxy.HostWithoutPortKeepsAddress | myhttp/reverse_proxy.go:43-46 | The corrected stripping keeps a bare IPv6 address whole. |
| ReverseProxy.HostWithoutPortKeepsLiteral | myhttp/reverse_proxy.go:43-46 | The corrected stripping keeps a bracketed IPv6 literal without a port whole. |
| ReverseProxy.DispatchFrom | myhttp/reverse_proxy.go:48-59 | The route lookup from position i. A route result names a route at or after i whose pattern matches, with that route's handler. A default result carries the set default handler. A panic, with "no default handler", happens only when no default is set. |
| ReverseProxy.DispatchChoosesFirstMatch | myhttp/reverse_proxy.go:48-59 | The serving route is the first whose pattern matches. The default handler serves only when none matches. A panic with "no default handler" happens only when none matches and no default is set. |
| ReverseProxy.ReverseProxyRouter.constructor | myhttp/reverse_proxy.go:14-17 | The zero router: no routes, no default handler. |
| ReverseProxy.ReverseProxyRouter.Add | myhttp/reverse_proxy.go:19-28 | A pattern that compiles appends one route at the end. One that does not compile panics and leaves the routes unchanged. |
| ReverseProxy.ReverseProxyRouter.Default | myhttp/reverse_proxy.go:30-32 | Sets the fallback handler. |
| ReverseProxy.ReverseProxyRouter.ServeHTTP | myhttp/reverse_proxy.go:34-60 | Serves by the first-match dispatch on the chosen host with its port stripped. |
| ReverseProxy.ServesPeroCom | myhttp/reverse_proxy_test.go:31-38 | pero.com is served by the first route. |
| ReverseProxy.ServesSubdomain | myhttp/reverse_proxy_test.go:32-43 | oh.pero.com is served by the second route. |
| ReverseProxy.ServesMissedByDefault | myhttp/reverse_proxy_test.go:33-48 | `missed` is served by the default handler. |
| ReverseProxy.ServesPortedHost | myhttp/reverse_proxy_test.go:50-55 | https://pero.com:8080/... (URL host name pero.com) is served by the first route. |
| ReverseProxy.ServesPortOnHost | myhttp/reverse_proxy.go:39-46 | A request whose only host is r.Host `pero.com:8080` loses the port and is served by the first route. |
| ReverseProxy.ServesHeaderHost | myhttp/reverse_proxy_test.go:57-63 | A Host header ribi.pero.com is served by the second route. |
| ReverseProxy.RouterScenario | myhttp/reverse_proxy_test.go:26-63 | The router test's five requests go to h1, h2, the default, h1 and h2. |
| RandString.AlphabetSizes | myrand/string.go:8-13 | The alphabets have 26, 26 and 10 characters, 62 together. |
| RandString.LowercaseClass | myrand/string.go:9 | The lowercase alphabet holds only letters. |
| RandString.UppercaseClass | myrand/string.go:10 | The uppercase alphabet holds only letters. |
| RandString.NumbersClass | myrand/string.go:11 | The number alphabet holds only digits. |
| RandString.LettersClass | myrand/string.go:20 | The letters Indentifier draws from: 52 letters. |
| RandString.AlphaNumericClasses | myrand/string.go:12 | The alphanumeric alphabet has 62 characters, only letters and digits. |
| RandString.BuildString | myrand/string.go:23-34 | `length <= 0` gives "". Otherwise exactly `length` bytes, the i-th being the alphabet at draw i modulo its size, so always in the alphabet. |
| RandString.AlphaNumeric | myrand/string.go:15-17 | Length max(n, 0), only letters and digits, each picked by its draw. |
| RandString.Indentifier | myrand/string.go:19-21 | Length 1 + max(n - 1, 0) on unbounded integers, so never empty. A letter first, letters and digits after. |
| RandString.JoinLettersAndDigits | myrand/string.go:20 | Letters followed by letters and digits hold only letters and digits. |
| Slices.Map | myslice/first_order.go:3-9 | Same length as the input; element i is `fnc(slice[i])`; an empty input gives an empty result. |
| TestTable.Tests.constructor | mytest/table.go:16-20 | NewTests starts with no cases. |
| TestTable.Tests.Add | mytest/table.go:22-25 | Appends one sequential case with the given name and data at the end. Earlier cases are unchanged. Returns the receiver. |
| TestTable.Tests.AddParallel | mytest/table.go:27-34 | Appends one parallel case at the end. Earlier cases are unchanged. Returns the receiver. |
| TestTable.ChainedCases | mytest/table.go:22-34 | Chained Add, AddParallel and Add calls accumulate on one list in call order. |
| Ptr.Ref | myptr/ptr.go:10-12 | A freshly allocated cell holding `v`; nothing else is modified. |
| Ptr.RefCopies | myptr/ptr_test.go:7-9 | Ref(42) dereferences to 42. Writing through it changes neither the caller's value nor an earlier cell. |

## Left out

- mychannel/debounce.go: its behaviour depends on wall-clock timers. It is not part of this model.
- myshutdown/graceful.go and mymigrations/cobra.go: process signals, `os.Exit` and external CLI libraries. They are not part of this model.
- FanIn.RelayRunning: a Go relay also returns when its member channel is closed and drained; the model counts a relay as running until its signal is closed, so it over-approximates the running relays.
- Goroutines and locks. The fan-in relay body (`read`) and the detached send goroutines are records, not running code; the `RWMutex` is abstracted into atomic methods.
- Races between goroutines are not modelled. Examples: a relay sending on `out` after `Close`, or a deferred send to a sink that `Remove` or `Close` has meanwhile closed.
- FanIn.FanInHolder.Close: the blocking `iamclosed <- struct{}{}` before each signal is closed is not modelled; each signal is simply closed.
- Channels.WriteOne: an unbuffered channel's rendezvous with a waiting receiver is not modelled. A send is ready only when the buffer has room.
- Channels.ReadOne: a receive is ready only when a value is buffered or the channel is closed. A sender blocked on an unbuffered channel does not make it ready, so with a live context a read from an unbuffered channel is excluded by the precondition, and a capacity-0 channel never passes a value to ReadOne.
- FanOut.FanOutHolder.Pump: it reads the input through ReadOne, so an unbuffered input (capacity 0) never delivers a value. With a live context, a step on such an input is possible only once the input is closed, and it closes the holder.
- FanOut.Offer: a capacity-0 sink never has room, so it always gets a deferred send. In Go a reader already waiting on an unbuffered sink takes the value inline.
- FanOut.OfferAll: as Offer, every capacity-0 sink is deferred, even one with a waiting reader.
- FanOut.FanOutHolder.Broadcast: as Offer, every capacity-0 sink is deferred, even one with a waiting reader.
- FanOut.FanOutHolder.DeliverDeferred: a deferred send to a capacity-0 sink is never delivered, since delivery needs buffer room. So a sink made by `Add(0)` never transfers a value in this model.
- FanOut.FanOutHolder.DeliverDeferred: delivery is modelled only to a sink still registered and open, with room.
- Context propagation: a derived context copies its parent's state when created. Later cancellation of the parent is not propagated.
- mytest/table.go `Test`: it only drives `testing.T.Run`, whose scheduling of parallel subtests is external. The `*testing.T` field is left out with it.
- `regexp`, `net/http` URL parsing and `math/rand` are external. They become parameters: a match predicate, a compile predicate, the three host strings and the draws.
- ReverseProxy.ReverseProxyRouter.Add: the nil-versus-empty `routes` slice is not distinguished, and the MustCompile panic message is abbreviated.
- ReverseProxy.ReverseProxyRouter.ServeHTTP: a handler is an opaque value that is reported, not called. The response writer is left out.
- StateMachine.Start: only well-founded machines are modelled (every chain of function states ends). A non-terminating Start is out of scope.
- StateMachine.Transition: user-defined Transitioner types behave like `Func` states.
- StateMachine.Start: the context's error value is reduced to a marker, and a panic value that is not an error to `Repanicked`.
- RandString.Indentifier: Go's `int` is 64-bit and `length - 1` wraps at `math.MinInt` to `math.MaxInt`, so there the source writes bytes until memory runs out and returns nothing; the model uses unbounded integers and returns one letter, so its length formula does not hold at `math.MinInt`.
- Slices.Map: `fnc` is a pure function, and the input is an immutable sequence, so "the input is unmodified" holds by construction.

## Findings

| source | as written | input that shows it | evidently intended | confidence | as-written member | corrected member |
|---|---|---|---|---|---|---|
| mychannel/fan_in.go:99-106 | Add on a started holder replaces an existing member's signal and spawns a second relay; the first relay's signal is never closed | Start, Add(c), Add(c), Remove(c): the first relay keeps reading c | adding an existing member does nothing (its test says so), so Remove stops every relay of the channel | not executed | FanIn.FanInHolder.Add, FanIn.ReAddLeaksRelay | FanIn.FanInHolder.AddOnce, FanIn.AddOnceThenRemoveStops |
| myhttp/reverse_proxy.go:43-46 | the text after the last ':' past position 0 is removed as a port | host `::1` becomes `:`; host `[::1]` becomes `[:` | strip only a real port, keeping IPv6 addresses and bracketed literals whole | not executed | ReverseProxy.StripPort, ReverseProxy.StripPortMangling | ReverseProxy.HostWithoutPort, ReverseProxy.HostWithoutPortKeepsLiteral |

ServeHTTP models the code as written, with StripPort. HostWithoutPort is the corrected definition; its properties are proved separately.
