/**
 * The `jadi.test.Tester` object: it wraps one test method in a proxy that
 * counts started and finished invocations, records pass/fail and the
 * thrown error, and exposes a holder that yields the result once every
 * proxied invocation has finished.
 *
 * The closure state of the source becomes the fields of class `Tester`;
 * `TesterState` is the same state as a value, and the functions over it
 * (`Proxied`, `Invoked`, `HolderOf`) are the specification the class's
 * methods are proved against.
 */
module Testers {
  import opened JsValues

  /** The shared `testResult` object: `pass` is undefined until a proxied call ends. */
  datatype TestResult = TestResult(pass: Option<bool>, error: Value)

  /** How a test method's call ends. */
  datatype Ending = Returns | Throws(thrown: Value)

  /**
   * A test method as seen through one call: it may first declare an
   * expected exception with `this.exception(d)` (the receiver is the
   * tester), then it returns normally or throws.
   */
  datatype Body = Body(declares: Option<Value>, ending: Ending)

  datatype TesterState = TesterState(expected: Value, result: TestResult, started: int, finished: int)

  /** The closure state right after the factory builds a tester. */
  const INITIAL: TesterState := TesterState(Undefined, TestResult(None, Undefined), 0, 0)

  /** What `expectException(e)` decides. */
  datatype Expectation =
    | Matched           // returns true
    | Mismatched        // returns false, `error` untouched
    | Recorded          // stores `e` in `error`, returns a falsy value
    | InstanceofThrows  // `e instanceof expected` throws a TypeError

  /** One call of the proxy's wrapper: the new state, and what escapes it. */
  datatype Step = Step(state: TesterState, raised: Option<Value>)

  function Expect(expected: Value, e: Value): Expectation
  {
    if expected == Undefined then Recorded
    else if e.Str? then (if e == expected then Matched else Mismatched)
    else if e.Obj? then
      (if !expected.Ctor? then InstanceofThrows
       else if expected.name in e.ctors then Matched
       else Mismatched)
    else Recorded
  }

  /** `proxy(fn)`: one more invocation is outstanding. */
  function Proxied(s: TesterState): TesterState
  {
    s.(started := s.started + 1)
  }

  /** The expected exception in force once the body has made its declaration. */
  function Declared(s: TesterState, body: Body): Value
  {
    if body.declares.Some? then body.declares.value else s.expected
  }

  /** The wrapper returned by `proxy`, run on a method behaving as `body`. */
  function Invoked(s: TesterState, body: Body): Step
  {
    var s1 := s.(expected := Declared(s, body));
    var passed := s1.(result := s1.result.(pass := Some(true)), finished := s1.finished + 1);
    match body.ending
    case Returns => Step(passed, None)
    case Throws(e) =>
      match Expect(s1.expected, e)
      case Matched => Step(passed, None)
      case Mismatched =>
        Step(s1.(result := s1.result.(pass := Some(false)), started := 0, finished := 0), None)
      case Recorded =>
        Step(s1.(result := TestResult(Some(false), e), started := 0, finished := 0), None)
      case InstanceofThrows => Step(s1, Some(INSTANCEOF_TYPE_ERROR))
  }

  /** The holder closure: the result object once `started === finished`. */
  function HolderOf(s: TesterState): Option<TestResult>
  {
    if s.started == s.finished then Some(s.result) else None
  }

  /**
   * `compare(expected, operator, result, message)`: `holds` is the
   * comparator `utils.compare` and `show` JavaScript's string conversion.
   * The answer is the Error it throws, or None when it returns.
   */
  function Compare<V>(holds: (V, string, V) -> bool, show: V -> string,
                      expected: V, operator: string, result: V, message: Option<string>): (r: Option<Value>)
    ensures r.None? <==> holds(expected, operator, result)
    ensures r.Some? ==> r.value.Obj? && "Error" in r.value.ctors
    ensures r.Some? && message.Some? && message.value != "" ==> r.value.message == message.value
    ensures r.Some? && (message.None? || message == Some("")) ==>
              r.value.message == show(expected) + " " + operator + " " + show(result) + " is not true"
  {
    if holds(expected, operator, result) then None
    else if message.Some? && message.value != "" then Some(ErrorObject(message.value))
    else Some(ErrorObject(show(expected) + " " + operator + " " + show(result) + " is not true"))
  }

  /** Strict equality on rendered values, the comparator of the worked example below. */
  function StrictEquals(a: string, operator: string, b: string): bool
  {
    operator == "===" && a == b
  }

  function Shown(s: string): string { s }

  lemma CompareReportsFailedEquality()
    ensures Compare(StrictEquals, Shown, "1", "===", "2", None) == Some(ErrorObject("1 === 2 is not true"))
    ensures Compare(StrictEquals, Shown, "1", "===", "1", None) == None
  {
    assert "1" + " " + "===" + " " + "2" + " is not true" == "1 === 2 is not true";
  }

  /** After `proxy`, a settled tester withholds its result until the wrapper runs. */
  lemma ProxyWithholdsResult(s: TesterState)
    requires s.started == s.finished
    ensures HolderOf(Proxied(s)) == None
  {
  }

  /**
   * Completion signal: a proxied method that returns normally makes the
   * result available with `pass = true`, whether or not it declared an
   * expected exception; `error` keeps its previous value.
   */
  lemma NormalReturnPasses(s: TesterState, body: Body)
    requires s.started == s.finished
    requires body.ending.Returns?
    ensures Invoked(Proxied(s), body).raised == None
    ensures HolderOf(Invoked(Proxied(s), body).state) == Some(TestResult(Some(true), s.result.error))
  {
  }

  /**
   * A throw with no expected exception declared fails the test, records the
   * thrown value as the error and resets both counters, so the result is
   * available at once, even with other proxied calls outstanding.
   */
  lemma UnexpectedThrowFails(s: TesterState, body: Body)
    requires body.ending.Throws? && Declared(s, body) == Undefined
    ensures Invoked(s, body).raised == None
    ensures Invoked(s, body).state.started == 0 == Invoked(s, body).state.finished
    ensures HolderOf(Invoked(s, body).state) == Some(TestResult(Some(false), body.ending.thrown))
  {
  }

  /**
   * A throw when an exception is declared: a string passes exactly when it
   * is the declared value, an object exactly when the declaration is a
   * constructor on its prototype chain. A mismatch fails the test without
   * touching `error`; any other kind of value is recorded as the error and
   * fails it. An object tested against a declaration that is not a
   * constructor makes `instanceof` throw out of the wrapper.
   */
  lemma DeclaredExceptionMatching(s: TesterState, body: Body)
    requires body.ending.Throws? && Declared(s, body) != Undefined
    ensures var e, d, r := body.ending.thrown, Declared(s, body), Invoked(s, body);
      && (e.Str? ==> r.raised == None && (r.state.result.pass == Some(true) <==> e == d))
      && (e.Obj? && d.Ctor? ==> r.raised == None && (r.state.result.pass == Some(true) <==> d.name in e.ctors))
      && ((e.Str? || e.Obj?) && r.raised == None && r.state.result.pass == Some(false) ==>
            r.state.result.error == s.result.error && HolderOf(r.state).Some?)
      && (e.Obj? && !d.Ctor? ==> r == Step(s.(expected := d), Some(INSTANCEOF_TYPE_ERROR)))
      && (!e.Str? && !e.Obj? ==> r.raised == None && HolderOf(r.state) == Some(TestResult(Some(false), e)))
  {
  }

  /** `n` calls of `proxy` in a row. */
  function ProxiedTimes(s: TesterState, n: nat): TesterState
  {
    if n == 0 then s else Proxied(ProxiedTimes(s, n - 1))
  }

  /** The wrappers run one after another; a call that throws out of its wrapper is dropped. */
  function InvokedAll(s: TesterState, bodies: seq<Body>): TesterState
    decreases |bodies|
  {
    if bodies == [] then s else InvokedAll(Invoked(s, bodies[0]).state, bodies[1..])
  }

  lemma {:induction false} ProxiedTimesCounts(s: TesterState, n: nat)
    ensures ProxiedTimes(s, n) == s.(started := s.started + n)
  {
    if n > 0 {
      ProxiedTimesCounts(s, n - 1);
    }
  }

  lemma {:induction false} ReturningWrappersCount(s: TesterState, bodies: seq<Body>)
    requires forall i :: 0 <= i < |bodies| ==> bodies[i].ending.Returns?
    ensures InvokedAll(s, bodies).started == s.started
    ensures InvokedAll(s, bodies).finished == s.finished + |bodies|
    decreases |bodies|
  {
    if bodies != [] {
      ReturningWrappersCount(Invoked(s, bodies[0]).state, bodies[1..]);
    }
  }

  /**
   * Asynchronous completion: when a test body proxies `n` methods (its own
   * included) and they return normally one by one, the holder stays
   * undefined until the last of them has returned.
   */
  lemma AsyncCompletion(s: TesterState, n: nat, bodies: seq<Body>)
    requires s.started == s.finished
    requires |bodies| <= n
    requires forall i :: 0 <= i < |bodies| ==> bodies[i].ending.Returns?
    ensures HolderOf(InvokedAll(ProxiedTimes(s, n), bodies)).Some? <==> |bodies| == n
  {
    ProxiedTimesCounts(s, n);
    ReturningWrappersCount(ProxiedTimes(s, n), bodies);
  }

  /**
   * An unexpected throw while other proxied calls are outstanding resets
   * both counters, so the result is available at once; but as soon as one
   * of those calls then returns normally, `finished` runs ahead of
   * `started` and the holder withholds the result, until a further `proxy`
   * or another unexpected throw evens the counters.
   */
  lemma {:induction false} ResetThenReturnWithholds(s: TesterState, thrower: Body, bodies: seq<Body>)
    requires thrower.ending.Throws? && Declared(s, thrower) == Undefined
    requires bodies != [] && forall i :: 0 <= i < |bodies| ==> bodies[i].ending.Returns?
    ensures InvokedAll(Invoked(s, thrower).state, bodies).started == 0
    ensures InvokedAll(Invoked(s, thrower).state, bodies).finished == |bodies|
    ensures HolderOf(InvokedAll(Invoked(s, thrower).state, bodies)) == None
  {
    UnexpectedThrowFails(s, thrower);
    ReturnsAfterReset(Invoked(s, thrower).state, bodies);
  }

  lemma {:induction false} ReturnsAfterReset(reset: TesterState, bodies: seq<Body>)
    requires reset.started == 0 == reset.finished
    requires bodies != [] && forall i :: 0 <= i < |bodies| ==> bodies[i].ending.Returns?
    ensures InvokedAll(reset, bodies).started == 0 && InvokedAll(reset, bodies).finished == |bodies|
    ensures HolderOf(InvokedAll(reset, bodies)) == None
  {
    ReturningWrappersCount(reset, bodies);
  }

  /** The tester object; its fields are the source's closure variables. */
  class Tester {
    var expected: Value
    var pass: Option<bool>
    var error: Value
    var started: int
    var finished: int

    function State(): TesterState
      reads this
    {
      TesterState(expected, TestResult(pass, error), started, finished)
    }

    constructor ()
      ensures State() == INITIAL
    {
      expected := Undefined;
      pass := None;
      error := Undefined;
      started := 0;
      finished := 0;
    }

    method Proxy()
      modifies this
      ensures State() == Proxied(old(State()))
    {
      started := started + 1;
    }

    method Exception(e: Value)
      modifies this
      ensures State() == old(State()).(expected := e)
    {
      expected := e;
    }

    /** `handled` is the truthiness of what the source returns. */
    method ExpectException(e: Value) returns (handled: bool, raised: Option<Value>)
      modifies this
      ensures handled <==> Expect(expected, e) == Matched
      ensures raised == if Expect(expected, e) == InstanceofThrows then Some(INSTANCEOF_TYPE_ERROR) else None
      ensures State() == if Expect(expected, e) == Recorded then old(State()).(result := TestResult(pass, e))
                         else old(State())
    {
      handled, raised := false, None;
      if expected == Undefined {
        error := e;
        return;
      }
      if e.Str? {
        handled := e == expected;
        return;
      }
      if e.Obj? {
        if !expected.Ctor? {
          raised := Some(INSTANCEOF_TYPE_ERROR);
          return;
        }
        handled := expected.name in e.ctors;
        return;
      }
      error := e;
    }

    /** Calls the wrapper that `Proxy` returned, on a method behaving as `body`. */
    method Invoke(body: Body) returns (raised: Option<Value>)
      modifies this
      ensures Step(State(), raised) == Invoked(old(State()), body)
    {
      raised := None;
      if body.declares.Some? {
        Exception(body.declares.value);
      }
      match body.ending {
        case Returns =>
          pass := Some(true);
        case Throws(e) =>
          var handled;
          handled, raised := ExpectException(e);
          if raised.Some? {
            return;
          }
          if !handled {
            pass := Some(false);
            started, finished := 0, 0;
            return;
          }
          pass := Some(true);
      }
      finished := finished + 1;
    }

    /** `getResultHolder()()`: the live result object once every proxied call has finished. */
    function Holder(): (r: Option<TestResult>)
      reads this
      ensures r.Some? <==> started == finished
      ensures r.Some? ==> r.value == TestResult(pass, error)
    {
      HolderOf(State())
    }
  }
}
