/**
 * The `jadi.test.Executor` object: it registers test definitions with the
 * test context, and runs every test method whose name starts with a given
 * prefix, each under a fresh tester, collecting one pending result per
 * method, suite by suite.
 *
 * `Registered` and `Plan` are the specification: what the registered map
 * becomes, and which calls `executes` makes in which order. Class
 * `Executor` is proved against them.
 */
module Execution {
  import opened JsValues
  import opened Testers
  import opened Suites
  import opened Polling

  /** `{test, path, testCase}`, one element of the definitions passed to `addTestDefinitions`. */
  datatype Definition = Definition(test: Metadata, path: string, testCase: TestCase)

  /** The entry `addCase` registers for a definition, under the suite `SuiteName(d.test)`. */
  function EntryFor(d: Definition): Entry
  {
    Entry(d.path, Bind(d.testCase, d.test.parameters))
  }

  /** The map after registering the definitions one after the other. */
  function Registered(suites: seq<Suite>, defs: seq<Definition>): (r: seq<Suite>)
    requires DistinctNames(suites)
    ensures DistinctNames(r)
    decreases |defs|
  {
    if defs == [] then suites
    else Registered(AddEntry(suites, SuiteName(defs[0].test), EntryFor(defs[0])), defs[1..])
  }

  /** The entries of the definitions addressed to suite `name`, in order. */
  function ForSuite(defs: seq<Definition>, name: string): seq<Entry>
    decreases |defs|
  {
    if defs == [] then []
    else (if SuiteName(defs[0].test) == name then [EntryFor(defs[0])] else []) + ForSuite(defs[1..], name)
  }

  /**
   * Registration groups the definitions by suite: each suite's list is what
   * it held, followed by the entries addressed to it, in definition order.
   * Suites already present keep their place.
   */
  lemma {:induction false} RegisteredGroupsBySuite(suites: seq<Suite>, defs: seq<Definition>, name: string)
    requires DistinctNames(suites)
    ensures EntriesOf(Registered(suites, defs), name) == EntriesOf(suites, name) + ForSuite(defs, name)
    ensures |Registered(suites, defs)| >= |suites|
    ensures forall i :: 0 <= i < |suites| ==> Registered(suites, defs)[i].name == suites[i].name
    decreases |defs|
  {
    if defs != [] {
      var next := AddEntry(suites, SuiteName(defs[0].test), EntryFor(defs[0]));
      RegisteredGroupsBySuite(next, defs[1..], name);
    }
  }

  // ----- What `executes` runs -----

  /** One call `executes` makes: the reported name and how the method's call with no arguments behaves. */
  datatype Call = Call(methodName: string, body: Body)

  /** The calls for one suite, under its name. */
  datatype Planned = Planned(name: string, calls: seq<Call>)

  /** `name.indexOf(prefix) === 0` and a function-valued property. */
  predicate Selects(prefix: string, p: Prop)
  {
    prefix <= p.name && p.value.Method?
  }

  function CallOf(path: string, p: Prop): Call
    requires p.value.Method?
  {
    Call(path + "." + p.name, p.value.run([]))
  }

  /** The calls for the properties of one test case, in property order. */
  function CaseCalls(path: string, props: seq<Prop>, prefix: string): seq<Call>
  {
    if props == [] then []
    else
      var last := props[|props| - 1];
      CaseCalls(path, props[..|props| - 1], prefix) + (if Selects(prefix, last) then [CallOf(path, last)] else [])
  }

  /** The calls for the entries of one suite, in entry order. */
  function EntryCalls(entries: seq<Entry>, prefix: string): seq<Call>
  {
    if entries == [] then []
    else
      var last := entries[|entries| - 1];
      EntryCalls(entries[..|entries| - 1], prefix) + CaseCalls(last.path, last.testCase, prefix)
  }

  /** The calls of `executes(prefix)`: every registered suite, in map order, with the calls of its entries. */
  function Plan(suites: seq<Suite>, prefix: string): (r: seq<Planned>)
    ensures |r| == |suites|
    ensures forall i :: 0 <= i < |r| ==> r[i] == Planned(suites[i].name, EntryCalls(suites[i].entries, prefix))
  {
    seq(|suites|, i requires 0 <= i < |suites| => Planned(suites[i].name, EntryCalls(suites[i].entries, prefix)))
  }

  /**
   * A test case yields exactly one call per function-valued property whose
   * name starts with the prefix, named `path + "." + name`.
   */
  lemma {:induction false} CaseCallsSelect(path: string, props: seq<Prop>, prefix: string, c: Call)
    ensures c in CaseCalls(path, props, prefix) <==>
            exists i :: 0 <= i < |props| && Selects(prefix, props[i]) && c == CallOf(path, props[i])
  {
    if props != [] {
      var init, last := props[..|props| - 1], props[|props| - 1];
      CaseCallsSelect(path, init, prefix, c);
      if c in CaseCalls(path, init, prefix) {
        var i :| 0 <= i < |init| && Selects(prefix, init[i]) && c == CallOf(path, init[i]);
        assert props[i] == init[i];
      }
      if exists i :: 0 <= i < |props| && Selects(prefix, props[i]) && c == CallOf(path, props[i]) {
        var i :| 0 <= i < |props| && Selects(prefix, props[i]) && c == CallOf(path, props[i]);
        if i < |init| {
          assert init[i] == props[i];
        }
      }
    }
  }

  /** The calls keep property order: those of a test case's first properties come first. */
  lemma {:induction false} CaseCallsAppend(path: string, a: seq<Prop>, b: seq<Prop>, prefix: string)
    ensures CaseCalls(path, a + b, prefix) == CaseCalls(path, a, prefix) + CaseCalls(path, b, prefix)
    decreases |b|
  {
    if b == [] {
      assert a + b == a;
    } else {
      var init := b[..|b| - 1];
      assert (a + b)[..|a + b| - 1] == a + init;
      CaseCallsAppend(path, a, init, prefix);
    }
  }

  // ----- What a run leaves in each tester -----

  /** The tester state after `proxy(m)()`, for a method `m` behaving as `body`. */
  function Executed(body: Body): Step
  {
    Invoked(Proxied(INITIAL), body)
  }

  /** The wrapper lets an exception out: `instanceof` was asked about a declaration that is not a constructor. */
  predicate Raises(c: Call)
  {
    Executed(c.body).raised.Some?
  }

  /**
   * A test method run on its own, without proxying further methods, has its
   * result ready as soon as its call returns, unless the wrapper itself threw.
   */
  lemma SynchronousRunSettles(body: Body)
    ensures Executed(body).raised.None? ==> HolderOf(Executed(body).state).Some?
    ensures Executed(body).raised.Some? <==>
            body.ending.Throws? && Expect(Declared(INITIAL, body), body.ending.thrown) == InstanceofThrows
  {
  }

  /** The pending results of a list record the calls, in order, each with its tester in the state the call left. */
  ghost predicate Ran(slots: seq<Option<Pending<Tester>>>, calls: seq<Call>)
    reads SlotHolders(slots)
  {
    && |slots| == |calls|
    && forall k :: 0 <= k < |slots| ==>
         && slots[k].Some?
         && slots[k].value.methodName == calls[k].methodName
         && slots[k].value.holder.State() == Executed(calls[k].body).state
  }

  /** The map `executes` returns records the plan: the same suites in the same order, none printed yet. */
  ghost predicate RanPlan(results: seq<PollSuite<Tester>>, plan: seq<Planned>)
    reads Holders(results)
  {
    && |results| == |plan|
    && forall i :: 0 <= i < |results| ==>
         && results[i].name == plan[i].name
         && !results[i].isPrinted
         && |results[i].slots| == |plan[i].calls|
         && forall k :: 0 <= k < |results[i].slots| ==>
              && results[i].slots[k].Some?
              && results[i].slots[k].value.methodName == plan[i].calls[k].methodName
              && results[i].slots[k].value.holder.State() == Executed(plan[i].calls[k].body).state
  }

  /** `tester.proxy(caseMethod)()` under a fresh tester, and the pending result for it. */
  method RunMethod(path: string, prop: Prop) returns (r: Result<Pending<Tester>>)
    requires prop.value.Method?
    ensures r.Thrown? <==> Raises(CallOf(path, prop))
    ensures r.Thrown? ==> r.error == INSTANCEOF_TYPE_ERROR
    ensures r.Ok? ==> r.value.methodName == path + "." + prop.name
    ensures r.Ok? ==> r.value.holder.State() == Executed(prop.value.run([])).state
    ensures r.Ok? ==> fresh(r.value.holder)
  {
    var tester := new Tester();
    tester.Proxy();
    var raised := tester.Invoke(prop.value.run([]));
    if raised.Some? {
      return Thrown(raised.value);
    }
    return Ok(Pending(path + "." + prop.name, tester));
  }

  /** Runs the selected methods of one test case, each under a fresh tester. */
  method RunCase(path: string, testCase: TestCase, prefix: string) returns (r: Result<seq<Option<Pending<Tester>>>>)
    ensures r.Thrown? <==> exists c :: c in CaseCalls(path, testCase, prefix) && Raises(c)
    ensures r.Thrown? ==> r.error == INSTANCEOF_TYPE_ERROR
    ensures r.Ok? ==> Ran(r.value, CaseCalls(path, testCase, prefix))
    ensures r.Ok? ==> fresh(SlotHolders(r.value)) && SeparateTesters(r.value)
  {
    var slots: seq<Option<Pending<Tester>>> := [];
    var k := 0;
    while k < |testCase|
      invariant 0 <= k <= |testCase|
      invariant Ran(slots, CaseCalls(path, testCase[..k], prefix))
      invariant forall c :: c in CaseCalls(path, testCase[..k], prefix) ==> !Raises(c)
      invariant fresh(SlotHolders(slots)) && SeparateTesters(slots)
    {
      var prop := testCase[k];
      assert testCase[..k + 1][..k] == testCase[..k];
      assert testCase[..k + 1] == testCase[..k] + [prop];
      if prefix <= prop.name && prop.value.Method? {
        var pending := RunMethod(path, prop);
        if pending.Thrown? {
          CallsUpTo(path, testCase, k + 1, prefix);
          return Thrown(pending.error);
        }
        RanAppend(slots, [Some(pending.value)], CaseCalls(path, testCase[..k], prefix), [CallOf(path, prop)]);
        SeparateAppend(slots, [Some(pending.value)]);
        slots := slots + [Some(pending.value)];
      }
      k := k + 1;
    }
    assert testCase[..k] == testCase;
    return Ok(slots);
  }

  /** The calls of a prefix of the properties are among the calls of all of them. */
  lemma CallsUpTo(path: string, props: seq<Prop>, k: nat, prefix: string)
    requires k <= |props|
    ensures forall c :: c in CaseCalls(path, props[..k], prefix) ==> c in CaseCalls(path, props, prefix)
  {
    assert props == props[..k] + props[k..];
    CaseCallsAppend(path, props[..k], props[k..], prefix);
  }

  /** Runs the selected methods of a suite's entries, entry by entry. */
  method RunSuite(entries: seq<Entry>, prefix: string) returns (r: Result<seq<Option<Pending<Tester>>>>)
    ensures r.Thrown? <==> exists c :: c in EntryCalls(entries, prefix) && Raises(c)
    ensures r.Thrown? ==> r.error == INSTANCEOF_TYPE_ERROR
    ensures r.Ok? ==> Ran(r.value, EntryCalls(entries, prefix))
    ensures r.Ok? ==> fresh(SlotHolders(r.value)) && SeparateTesters(r.value)
  {
    var slots: seq<Option<Pending<Tester>>> := [];
    var j := 0;
    while j < |entries|
      invariant 0 <= j <= |entries|
      invariant Ran(slots, EntryCalls(entries[..j], prefix))
      invariant forall c :: c in EntryCalls(entries[..j], prefix) ==> !Raises(c)
      invariant fresh(SlotHolders(slots)) && SeparateTesters(slots)
    {
      var entry := entries[j];
      assert entries[..j + 1][..j] == entries[..j];
      var caseResult := RunCase(entry.path, entry.testCase, prefix);
      if caseResult.Thrown? {
        EntryCallsUpTo(entries, j + 1, prefix);
        return Thrown(caseResult.error);
      }
      RanAppend(slots, caseResult.value, EntryCalls(entries[..j], prefix), CaseCalls(entry.path, entry.testCase, prefix));
      SeparateAppend(slots, caseResult.value);
      slots := slots + caseResult.value;
      j := j + 1;
    }
    assert entries[..j] == entries;
    return Ok(slots);
  }

  /** No two results of a list share a tester. */
  ghost predicate SeparateTesters(slots: seq<Option<Pending<Tester>>>)
  {
    forall a, b :: 0 <= a < b < |slots| && slots[a].Some? && slots[b].Some? ==>
      slots[a].value.holder != slots[b].value.holder
  }

  /** No two results of the map, in the same list or not, share a tester. */
  ghost predicate SeparateTestersAcross(results: seq<PollSuite<Tester>>)
  {
    forall i, j, a, b ::
      && 0 <= i < |results| && 0 <= j < |results|
      && 0 <= a < |results[i].slots| && 0 <= b < |results[j].slots|
      && results[i].slots[a].Some? && results[j].slots[b].Some?
      && (i != j || a != b)
      ==> results[i].slots[a].value.holder != results[j].slots[b].value.holder
  }

  lemma SeparateAppend(a: seq<Option<Pending<Tester>>>, b: seq<Option<Pending<Tester>>>)
    requires SeparateTesters(a) && SeparateTesters(b) && SlotHolders(a) !! SlotHolders(b)
    ensures SeparateTesters(a + b)
    ensures SlotHolders(a + b) == SlotHolders(a) + SlotHolders(b)
  {
    var ab := a + b;
    forall x, y | 0 <= x < y < |ab| && ab[x].Some? && ab[y].Some?
      ensures ab[x].value.holder != ab[y].value.holder
    {
      if y < |a| {
        assert ab[x] == a[x] && ab[y] == a[y];
      } else if x >= |a| {
        assert ab[x] == b[x - |a|] && ab[y] == b[y - |a|];
      } else {
        assert ab[x] == a[x] && ab[y] == b[y - |a|];
        assert a[x].value.holder in SlotHolders(a);
        assert b[y - |a|].value.holder in SlotHolders(b);
      }
    }
    forall t | t in SlotHolders(a + b) ensures t in SlotHolders(a) + SlotHolders(b) {
      var k :| 0 <= k < |ab| && ab[k].Some? && ab[k].value.holder == t;
      if k < |a| {
        assert ab[k] == a[k];
      } else {
        assert ab[k] == b[k - |a|];
      }
    }
    forall t | t in SlotHolders(a) + SlotHolders(b) ensures t in SlotHolders(a + b) {
      if t in SlotHolders(a) {
        var k :| 0 <= k < |a| && a[k].Some? && a[k].value.holder == t;
        assert ab[k] == a[k];
      } else {
        var k :| 0 <= k < |b| && b[k].Some? && b[k].value.holder == t;
        assert ab[|a| + k] == b[k];
      }
    }
  }

  lemma SeparateAcrossAppend(results: seq<PollSuite<Tester>>, s: PollSuite<Tester>)
    requires SeparateTestersAcross(results) && SeparateTesters(s.slots) && Holders(results) !! SlotHolders(s.slots)
    ensures SeparateTestersAcross(results + [s])
    ensures Holders(results + [s]) == Holders(results) + SlotHolders(s.slots)
  {
    var rs := results + [s];
    forall i | 0 <= i < |rs| ensures rs[i] == if i < |results| then results[i] else s {
    }
    forall i, j, a, b |
      && 0 <= i < |rs| && 0 <= j < |rs|
      && 0 <= a < |rs[i].slots| && 0 <= b < |rs[j].slots|
      && rs[i].slots[a].Some? && rs[j].slots[b].Some?
      && (i != j || a != b)
      ensures rs[i].slots[a].value.holder != rs[j].slots[b].value.holder
    {
      if i < |results| && j == |results| {
        assert rs[i].slots[a].value.holder in Holders(results);
        assert rs[j].slots[b].value.holder in SlotHolders(s.slots);
      } else if i == |results| && j < |results| {
        assert rs[j].slots[b].value.holder in Holders(results);
        assert rs[i].slots[a].value.holder in SlotHolders(s.slots);
      } else if i == |results| && j == |results| {
        if a < b {
          assert s.slots[a].value.holder != s.slots[b].value.holder;
        } else {
          assert s.slots[b].value.holder != s.slots[a].value.holder;
        }
      }
    }
    forall t | t in Holders(rs) ensures t in Holders(results) + SlotHolders(s.slots) {
      var i, k :| 0 <= i < |rs| && 0 <= k < |rs[i].slots| && rs[i].slots[k].Some? && rs[i].slots[k].value.holder == t;
      if i == |results| {
        assert s.slots[k].value.holder == t;
      }
    }
    forall t | t in Holders(results) + SlotHolders(s.slots) ensures t in Holders(rs) {
      if t in Holders(results) {
        var i, k :| 0 <= i < |results| && 0 <= k < |results[i].slots| && results[i].slots[k].Some? && results[i].slots[k].value.holder == t;
        assert rs[i] == results[i];
      } else {
        var k :| 0 <= k < |s.slots| && s.slots[k].Some? && s.slots[k].value.holder == t;
        assert rs[|results|].slots[k].value.holder == t;
      }
    }
  }

  lemma RanAppend(a: seq<Option<Pending<Tester>>>, b: seq<Option<Pending<Tester>>>, ca: seq<Call>, cb: seq<Call>)
    requires Ran(a, ca) && Ran(b, cb)
    ensures Ran(a + b, ca + cb)
  {
    forall k | 0 <= k < |a + b|
      ensures (a + b)[k] == if k < |a| then a[k] else b[k - |a|]
    {
    }
  }

  lemma {:induction false} EntryCallsUpTo(entries: seq<Entry>, j: nat, prefix: string)
    requires j <= |entries|
    ensures forall c :: c in EntryCalls(entries[..j], prefix) ==> c in EntryCalls(entries, prefix)
    decreases |entries|
  {
    if j < |entries| {
      var init := entries[..|entries| - 1];
      assert init[..j] == entries[..j];
      EntryCallsUpTo(init, j, prefix);
    } else {
      assert entries[..j] == entries;
    }
  }

  /** The executor object, over the test context it registers into. */
  class Executor {
    const context: TestContext

    constructor (context: TestContext)
      ensures this.context == context
    {
      this.context := context;
    }

    /** `addTestDefinitions`: `addCase` for each definition, in order. */
    method AddTestDefinitions(defs: seq<Definition>)
      requires context.Valid()
      modifies context
      ensures context.Valid()
      ensures context.suites == Registered(old(context.suites), defs)
    {
      var i := 0;
      while i < |defs|
        invariant 0 <= i <= |defs| && context.Valid()
        invariant Registered(old(context.suites), defs) == Registered(context.suites, defs[i..])
      {
        var def := defs[i];
        assert defs[i..][1..] == defs[i + 1..];
        context.AddCase(def.test, def.path, def.testCase);
        i := i + 1;
      }
    }

    /**
     * `executes(prefix)`: runs the plan, suite by suite, each method under a
     * fresh tester. The map it returns has a list for every registered
     * suite; an exception escaping a wrapper escapes `executes`.
     */
    method Executes(prefix: string) returns (r: Result<seq<PollSuite<Tester>>>)
      ensures r.Thrown? <==> exists i, c :: 0 <= i < |context.suites| && c in Plan(context.suites, prefix)[i].calls && Raises(c)
      ensures r.Thrown? ==> r.error == INSTANCEOF_TYPE_ERROR
      ensures r.Ok? ==> RanPlan(r.value, Plan(context.suites, prefix))
      ensures r.Ok? ==> fresh(Holders(r.value)) && SeparateTestersAcross(r.value)
    {
      var suites := context.GetSuites();
      r := RunSuites(suites, prefix);
    }
  }

  /** The loop of `executes` over the suites of `getSuites()`, in map order. */
  method RunSuites(suites: seq<Suite>, prefix: string) returns (r: Result<seq<PollSuite<Tester>>>)
    ensures r.Thrown? <==> exists i, c :: 0 <= i < |suites| && c in Plan(suites, prefix)[i].calls && Raises(c)
    ensures r.Thrown? ==> r.error == INSTANCEOF_TYPE_ERROR
    ensures r.Ok? ==> RanPlan(r.value, Plan(suites, prefix))
    ensures r.Ok? ==> fresh(Holders(r.value)) && SeparateTestersAcross(r.value)
  {
    ghost var plan := Plan(suites, prefix);
    var results: seq<PollSuite<Tester>> := [];
    ghost var made: set<Tester> := {};
    var i := 0;
    while i < |suites|
      invariant 0 <= i <= |suites|
      invariant RanPlan(results, plan[..i])
      invariant !PlanRaises(plan[..i])
      invariant fresh(made) && Holders(results) == made && SeparateTestersAcross(results)
    {
      var suiteResult := RunSuite(suites[i].entries, prefix);
      if suiteResult.Thrown? {
        PlannedRaise(suites, prefix, i);
        return Thrown(suiteResult.error);
      }
      ExecutedSuite(results, PollSuite(suites[i].name, false, suiteResult.value), plan, i);
      NoPlannedRaise(suites, prefix, i);
      made := made + SlotHolders(suiteResult.value);
      results := results + [PollSuite(suites[i].name, false, suiteResult.value)];
      i := i + 1;
    }
    assert plan[..i] == plan;
    return Ok(results);
  }

  /** Some planned call's wrapper lets an exception out. */
  ghost predicate PlanRaises(plan: seq<Planned>)
  {
    exists i, c :: 0 <= i < |plan| && c in plan[i].calls && Raises(c)
  }

  /** The loop step of `RunSuites` when no call of suite `i` raises: no call planned so far raises. */
  lemma NoPlannedRaise(suites: seq<Suite>, prefix: string, i: nat)
    requires i < |suites| && !PlanRaises(Plan(suites, prefix)[..i])
    requires !exists c :: c in EntryCalls(suites[i].entries, prefix) && Raises(c)
    ensures !PlanRaises(Plan(suites, prefix)[..i + 1])
  {
    var plan := Plan(suites, prefix);
    var done := plan[..i + 1];
    forall i', c | 0 <= i' < |done| && c in done[i'].calls
      ensures !Raises(c)
    {
      if i' < i {
        assert plan[..i][i'] == done[i'];
      } else {
        assert plan[i].calls == EntryCalls(suites[i].entries, prefix);
      }
    }
  }

  /** A call of suite `i` that raises is a planned call that raises. */
  lemma PlannedRaise(suites: seq<Suite>, prefix: string, i: nat)
    requires i < |suites| && exists c :: c in EntryCalls(suites[i].entries, prefix) && Raises(c)
    ensures exists i', c :: 0 <= i' < |suites| && c in Plan(suites, prefix)[i'].calls && Raises(c)
  {
    var c :| c in EntryCalls(suites[i].entries, prefix) && Raises(c);
    assert c in Plan(suites, prefix)[i].calls;
  }

  /** The loop step of `Executes`: one more suite's results, recording the next planned suite. */
  lemma ExecutedSuite(results: seq<PollSuite<Tester>>, s: PollSuite<Tester>, plan: seq<Planned>, i: nat)
    requires i < |plan| && RanPlan(results, plan[..i])
    requires s.name == plan[i].name && !s.isPrinted && Ran(s.slots, plan[i].calls)
    requires SeparateTestersAcross(results) && SeparateTesters(s.slots) && Holders(results) !! SlotHolders(s.slots)
    ensures RanPlan(results + [s], plan[..i + 1])
    ensures SeparateTestersAcross(results + [s])
    ensures Holders(results + [s]) == Holders(results) + SlotHolders(s.slots)
  {
    RanPlanAppend(results, s, plan[..i], plan[i]);
    SeparateAcrossAppend(results, s);
    assert plan[..i + 1] == plan[..i] + [plan[i]];
  }

  lemma RanPlanAppend(results: seq<PollSuite<Tester>>, s: PollSuite<Tester>, plan: seq<Planned>, p: Planned)
    requires RanPlan(results, plan)
    requires s.name == p.name && !s.isPrinted && Ran(s.slots, p.calls)
    ensures RanPlan(results + [s], plan + [p])
  {
    var rs, ps := results + [s], plan + [p];
    forall i | 0 <= i < |rs|
      ensures rs[i] == if i < |results| then results[i] else s
      ensures ps[i] == if i < |plan| then plan[i] else p
    {
    }
  }
}
