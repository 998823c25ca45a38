# jadi test plug-in: a Dafny model

This project models the test harness in `src/testPlugIn.js` of the jadi
dependency-injection container. The harness has these parts:

- **Tester** (`Testers`, `tester.dfy`). It wraps a test method in a
  proxy. The proxy counts started and finished invocations, records pass or
  fail and the thrown error, and matches a thrown value against the declared
  expected exception. The result holder answers when `started` equals
  `finished`: once every proxied invocation has finished, or at once after
  an unexpected throw resets both counters. The closure state is the `Tester` class. The
  `TesterState` value with the functions `Proxied`, `Invoked` and `HolderOf`
  is the specification the class's methods are proved against. `compare` is
  the pure function `Compare`.
- **TestContext** (`test_context.dfy`). This is the insertion-ordered map
  from suite name to its list of `{path, case}` entries. The map is a
  sequence of suites with distinct names. `AddEntry` is the specification of
  `getCia(...).push(...)`. `Bind` is the parameter-binding rule of the
  interceptor callback. The class `TestContext` holds the map and updates it
  in place.
- **Executor** (`execution.dfy`):
  - `addTestDefinitions` registers the definitions one after the other.
    `Registered` is its specification, and `RegisteredGroupsBySuite` shows
    that registration groups entries by suite in definition order.
  - `executes(prefix)` runs every function-valued property whose name starts
    with the prefix, each under a fresh `Tester`, suite by suite and entry by
    entry. `Plan` lists the calls it makes. The method is proved to build
    exactly that map of pending results, or to let the exception out when a
    wrapper throws.
- **Result poller** (`poller.dfy`). This is one firing of the interval
  callback of `waitForResult`. `TickFrom` is the tick as a function of the
  results map and of what each holder answers during the tick. The class
  `Waiter` (one `waitForResult` call) and its `Tick` are proved against it.
  The lemmas state, in terms of independent reference functions (`Flat`,
  `FinishedPrefix`, `Reports`, `Unprinted`), what a tick and a series of
  ticks report, print and leave behind.
- **`jadi.run`** (`runner.dfy`). `Runner.Run` registers the definitions,
  runs the setup methods and starts polling. `Runner.OnTick` is one firing
  of the current interval. The test methods are run only in the
  continuation of a tick that drains the setup results.

JavaScript values appear only where the harness looks at them (`JsValues`):
- `Str` is what `utils.isString` accepts;
- `Obj` is what `utils.isObject` accepts, described by the constructors on
  its prototype chain;
- `Ctor` is a constructor;
- `Undefined` is `undefined`;
- `Prim` stands for every other primitive (numbers, booleans, null) and
  carries its truthiness.

A function that is not a constructor (an arrow function, a bound method),
a symbol and a bigint are not represented.

Console output is returned as a sequence of `Line` values.

This revision of the file has several behaviours that a general description
of the harness would not lead one to expect. The model follows the code:
- There are no per-method timers or tolerances.
- A method that declared an exception and returns normally passes.
- On a string or object mismatch the error is not recorded.
- An object tested against a declaration that is not a constructor makes
  `instanceof` throw. That TypeError escapes the wrapper, then `executes`,
  then `run` or the continuation.
- The first unfinished result ends the whole tick, not just its suite.
- The holder returns the live result object and memoises nothing. An
  unexpected throw with other proxied calls outstanding resets both
  counters, so the result is available at once. But as soon as one of those
  calls then returns normally, `finished` runs ahead of `started` and the
  holder withholds the result (`ResetThenReturnWithholds`). It answers again
  only when a further `proxy` or another unexpected throw evens the
  counters.

## Model

| member | source | states |
|---|---|---|
| Testers.Compare | src/testPlugIn.js:35-40 | throws exactly when the comparator says false; the thrown value is an Error whose message is the custom message when it is a non-empty string, otherwise `expected + " " + operator + " " + result + " is not true"` |
| Testers.CompareReportsFailedEquality | src/testPlugIn.js:35-39 | with strict equality, comparing 1 and 2 throws "1 === 2 is not true" and comparing 1 and 1 throws nothing |
| Testers.ProxyWithholdsResult | src/testPlugIn.js:14-16 | once `proxy` has been called on a settled tester, the holder answers undefined |
| Testers.NormalReturnPasses | src/testPlugIn.js:14-32 | completion signal: after `proxy` and a normal return of the wrapped method, the holder answers `pass = true` with the previous error, whether or not an exception was declared |
| Testers.UnexpectedThrowFails | src/testPlugIn.js:22-26 | a throw with no declared exception gives `pass = false`, `error` = the thrown value, both counters 0, so the result is available at once |
| Testers.DeclaredExceptionMatching | src/testPlugIn.js:44-56 | with a declaration in force: a thrown string passes iff it equals the declaration; a thrown object passes iff the declared constructor is on its prototype chain; a mismatch fails without touching `error` and the result is available; another kind of value is recorded as the error and fails; an object against a non-constructor makes the wrapper throw a TypeError |
| Testers.ProxiedTimesCounts | src/testPlugIn.js:16 | `n` calls of `proxy` raise `started` by `n` and change nothing else |
| Testers.ReturningWrappersCount | src/testPlugIn.js:17-33 | wrappers whose methods return normally leave `started` alone and raise `finished` by one each |
| Testers.AsyncCompletion | src/testPlugIn.js:57-63 | with `n` proxied calls outstanding and wrappers returning one by one, the holder answers exactly when all `n` have returned |
| Testers.ResetThenReturnWithholds | src/testPlugIn.js:23-32 | after an unexpected throw resets the counters, each later normal return raises `finished` above `started` = 0, and the holder answers undefined |
| Testers.ReturnsAfterReset | src/testPlugIn.js:17-32 | from reset counters, normal returns leave `started` at 0 and count `finished` up to their number, so the holder answers undefined |
| Testers.Tester.constructor | src/testPlugIn.js:6-12 | a new tester has no declaration, an unset result and both counters 0 |
| Testers.Tester.Proxy | src/testPlugIn.js:14-16 | `proxy` increments `started` and nothing else |
| Testers.Tester.Exception | src/testPlugIn.js:41-43 | `exception(e)` replaces the declaration and nothing else |
| Testers.Tester.ExpectException | src/testPlugIn.js:44-56 | answers true exactly on a match; records the value as `error` only with no declaration or for a value that is neither string nor object; throws a TypeError for an object against a non-constructor |
| Testers.Tester.Invoke | src/testPlugIn.js:17-33 | the wrapper's effect on the fields, and what escapes it, is `Invoked` of the previous state |
| Testers.Tester.Holder | src/testPlugIn.js:57-64 | the holder answers the result object exactly when `started === finished`, and undefined otherwise |
| Suites.Bind | src/testPlugIn.js:79-88 | intercepting keeps every property name and kind in order; a method with resolved parameters ignores its arguments and calls the original with the parameters; every other property is unchanged |
| Suites.Find | src/testPlugIn.js:72 | `suites[name]` finds the suite with that name, and finds none exactly when no suite has it |
| Suites.CreateIfAbsent | src/testPlugIn.js:71-74 | an existing list is reused; otherwise an empty one is added at the end of the map; names stay distinct |
| Suites.AddEntry | src/testPlugIn.js:90-93 | the entry is appended to the list under the suite name, created at the end if absent; every other suite keeps its place and its entries |
| Suites.TestContext.constructor | src/testPlugIn.js:69 | the suite map starts empty |
| Suites.TestContext.GetCia | src/testPlugIn.js:71-74 | the map becomes `CreateIfAbsent` of the old map, and the answer is the position of the list under the name |
| Suites.TestContext.AddCase | src/testPlugIn.js:76-94 | the suite is `context.suite` or "default" when that is falsy; the map becomes `AddEntry` of the old map with the bound test case |
| Execution.Registered | src/testPlugIn.js:104-108 | registering definitions keeps suite names distinct |
| Execution.RegisteredGroupsBySuite | src/testPlugIn.js:104-108 | after registration, each suite's list is its old entries followed by the definitions addressed to it, in definition order; suites already present keep their place |
| Execution.Executor.constructor | src/testPlugIn.js:101-103 | the executor works on the given test context |
| Execution.Executor.AddTestDefinitions | src/testPlugIn.js:104-110 | the context's map becomes `Registered` of the old map and the definitions |
| Execution.Plan | src/testPlugIn.js:114-117 | `executes` has one list per registered suite, in map order, holding the calls of its entries in entry order |
| Execution.CaseCallsSelect | src/testPlugIn.js:120-134 | a test case yields a call exactly for each function-valued property whose name starts with the prefix, named `path + "." + name` |
| Execution.CaseCallsAppend | src/testPlugIn.js:120 | the calls follow property order |
| Execution.RunMethod | src/testPlugIn.js:126-133 | a fresh tester runs `proxy(m)()`; either the wrapper's TypeError escapes, or a pending result named `path.name` is returned whose tester is new and in the state the call left |
| Execution.RunCase | src/testPlugIn.js:120-135 | the selected methods of a test case run in order; the TypeError escapes exactly when one of their wrappers throws; otherwise one pending result per selected call, each with a new tester of its own |
| Execution.RunSuite | src/testPlugIn.js:117-136 | the entries of a suite run in order; the TypeError escapes exactly when one of their wrappers throws; otherwise one pending result per planned call, each with a new tester of its own |
| Execution.Executor.Executes | src/testPlugIn.js:111-139 | `executes(prefix)` throws exactly when a planned call's wrapper throws; otherwise it returns one unprinted list per registered suite, in order, recording the `Plan` calls with each tester in the state its call left; every tester is new and no two results share one |
| Execution.RunSuites | src/testPlugIn.js:114-137 | the suite loop of `executes` over `getSuites()`: it throws exactly when a planned call's wrapper throws; otherwise one list per suite, in order, each result with a new tester of its own |
| Polling.ScanFrom | src/testPlugIn.js:183-197 | the slot loop keeps the list's length and the slots before it, and stops early only at a slot whose holder answers undefined |
| Polling.ScanList | src/testPlugIn.js:183-197 | the slot loop over live testers computes `ScanFrom` of the list |
| Polling.Sweep | src/testPlugIn.js:174-199 | the suite loop over live testers computes `TickFrom` of the results map |
| Polling.TickReportsFinishedPrefix | src/testPlugIn.js:174-199 | a tick reports, in order and once each, exactly the finished results at the front of all those present, and leaves exactly the rest; it drains exactly when every result has finished, and then leaves nothing |
| Polling.ReportFormat | src/testPlugIn.js:191-195 | a report's first line is "  Pass" when `pass` is true and "  Fail" otherwise, three spaces, then the method name; a second line, the error's stack, follows exactly when the error is truthy |
| Polling.TickVerdicts | src/testPlugIn.js:192 | the verdict lines of a tick name the finished results at the front, in order |
| Polling.TickLeaves | src/testPlugIn.js:174-199 | a draining tick reaches every suite and deletes them all; a stalled tick leaves the suite it stopped in, marked printed, followed by the suites it never visited, untouched |
| Polling.TickHeaders | src/testPlugIn.js:179-182 | a tick prints the names of exactly the unprinted suites it reaches, in order |
| Polling.TickDrainsWhenAllFinished | src/testPlugIn.js:174-200 | when every holder present answers, a tick reports every result in map order and drains the map |
| Polling.PollReportsEachOnce | src/testPlugIn.js:173-207 | across the ticks of one `waitForResult`, the verdicts name a prefix of the results in order, and what is left is exactly the rest; nothing is left once it drains |
| Polling.PollPrintsHeadersOnce | src/testPlugIn.js:179-182 | across ticks each suite name is printed at most once, and only for a suite not printed before |
| Polling.Waiter.constructor | src/testPlugIn.js:172-173 | a new poller is active, holding the results and whether a continuation was given |
| Polling.Waiter.Tick | src/testPlugIn.js:173-207 | one firing leaves the map `TickFrom` leaves; the interval is cleared exactly when the tick drains; the continuation runs exactly then and when one was given; otherwise a draining tick ends with the separator and the total time |
| Runs.Runner.Run | src/testPlugIn.js:212-228 | `run` registers the definitions into a new context, with a new executor and a new poller, then runs the setup methods; it throws exactly when a setup wrapper throws, and then no interval is set; otherwise it polls the setup results, each with a tester of its own |
| Runs.Runner.OnTick | src/testPlugIn.js:198-231 | a tick that does not drain only advances the current poller; a draining setup tick runs the test methods and polls their results (or lets their TypeError out); a draining test tick ends with the separator and the total time; both final outcomes (the test tick that drains, and a continuation whose TypeError escapes) keep the same poller with its interval cleared and its map empty |
| Runs.FirstTickReportsAll | src/testPlugIn.js:227-228 | when no method's wrapper throws and none proxies further methods, the first tick reports every planned method in plan order and drains the map |

## Left out

- Loading definitions (`toTestDefinitions`) is not modelled: it uses module loading and the container. `Runner.Run` takes the definitions it would produce.
- `injector.inject` is a foreign call. `Metadata.parameters` is its answer, and a failure inside it is not modelled.
- `aop.intercept` is assumed to apply its callback to the function-valued own properties only and to keep the order.
- `utils.compare` and the string conversion in `compare` are parameters of `Compare`. `utils.isString`, `isObject` and `isFunction` are the value kinds of `JsValues`.
- Compare: only string messages are modelled. Any other falsy message selects the default text, as an empty string does.
- `setInterval`, `clearInterval` and the 100 ms period are left out. A tick is a method call, and `Waiter.active` says whether the interval is still set.
- `console.log`, `console.time` and `console.timeEnd` are left out. The lines are returned as data, and the runtime's rendering of `error.stack` and of the elapsed time is not modelled.
- JavaScript specifics of `for…in` are not modelled: inherited enumerable properties, and integer-like keys enumerating first. Iteration follows insertion order.
- Enumerating a test case during `executes` sees only the bound test case's own properties, in their order. The receiver of a method call is the tester, which is how a body declares its expected exception.
- Bodies: a test method's call is modelled as an optional `this.exception(d)` declaration followed by a normal return or a throw. A body that proxies further methods is covered by the `Testers` lemmas over `ProxiedTimes` and `InvokedAll`, not by `Executes`. Asynchronous callbacks running between ticks are represented only by what the holders answer (`ans`) at each tick.
- The `name === undefined` test in `executes` and the `result.length === 0` test in the poller can never be true for the values they see, and are not modelled separately.
- Stable result: the source's holder returns the same live object on every call. Here `Holder` is a function of the tester's fields, so two calls with nothing run in between answer the same. Object identity is not modelled.
- `jadi.clazz`, `jadi.plugIn` and the `selfFactory.make` wiring are not modelled. Each `Tester` is made with `new`.
- An exception escaping the continuation inside the interval callback is reported as the `Crashed` phase. What the JavaScript runtime does with an uncaught exception is not modelled.
- SynchronousRunSettles is a direct consequence of the definitions. It documents behaviour and is not listed above.
- Find: `getCia` looks a suite up with `obj[name]` on the closure's `suites` object, and that lookup also sees the prototype chain. A suite named after a property of `Object.prototype`, such as "constructor", "toString", "hasOwnProperty", "isPrototypeOf" or "__proto__", finds an inherited value, and `.push` on it throws a TypeError out of `addCase`, `addTestDefinitions` and `run`. The model creates a new suite of that name instead.
- SuiteName: only a string or an absent `suite` property is modelled. In the source a falsy value such as 0, null or false also selects "default", and a truthy number or object becomes a key by string conversion.
