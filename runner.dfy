/**
 * `jadi.run`: registers the definitions, runs the `setup` methods and polls
 * their results; once every setup result is reported, the continuation runs
 * the `test` methods and polls those, ending with the separator and the
 * total time.
 *
 * Class `Runner` holds what the source keeps in closures: the executor and
 * the `waitForResult` call whose interval is current. `OnTick` is one firing
 * of that interval.
 */
module Runs {
  import opened JsValues
  import opened Testers
  import opened Suites
  import opened Polling
  import opened Execution

  const SETUP_PREFIX := "setup"
  const TEST_PREFIX := "test"

  /** Which `waitForResult` is polling, or the exception that escaped `executes`. */
  datatype Phase = SettingUp | Testing | Crashed(error: Value)

  class Runner {
    const context: TestContext
    const executor: Executor
    var waiter: Waiter
    var phase: Phase

    ghost predicate Valid()
      reads this, context, waiter
    {
      && executor.context == context
      && context.Valid()
      && (phase.SettingUp? ==> waiter.hasNext)
      && (phase.Testing? ==> !waiter.hasNext)
    }

    /**
     * `jadi.run(definitions)`: a fresh context and executor, every
     * definition registered, the setup methods run; an exception escaping
     * `executes("setup")` escapes `run`.
     */
    constructor Run(defs: seq<Definition>)
      ensures Valid()
      ensures fresh(context) && fresh(executor) && fresh(waiter)
      ensures context.suites == Registered([], defs)
      ensures phase.Crashed? <==>
              exists i, c :: 0 <= i < |context.suites| && c in Plan(context.suites, SETUP_PREFIX)[i].calls && Raises(c)
      ensures phase.Crashed? ==> phase.error == INSTANCEOF_TYPE_ERROR && !waiter.active
      ensures !phase.Crashed? ==> phase.SettingUp? && waiter.active &&
                                  RanPlan(waiter.results, Plan(context.suites, SETUP_PREFIX)) &&
                                  SeparateTestersAcross(waiter.results)
    {
      var ctx := new TestContext();
      var ex := new Executor(ctx);
      ex.AddTestDefinitions(defs);
      var r := ex.Executes(SETUP_PREFIX);
      context, executor := ctx, ex;
      if r.Thrown? {
        // no interval is ever set: the poller starts out stopped
        var stopped := new Waiter([], false);
        stopped.active := false;
        waiter := stopped;
        phase := Crashed(r.error);
      } else {
        waiter := new Waiter(r.value, true);
        phase := SettingUp;
      }
    }

    /**
     * One firing of the current interval. During the setup phase, a tick
     * that drains the results calls the continuation, which runs the test
     * methods and starts polling their results; the test phase ends its
     * draining tick with the separator and the total time.
     */
    method OnTick(ghost ans: Tester -> Option<TestResult>) returns (lines: seq<Line>)
      requires Valid() && !phase.Crashed? && waiter.active && Answers(waiter.results, ans)
      modifies this, waiter
      ensures Valid()
      ensures var t := TickFrom(old(waiter.results), ans);
        && lines == t.lines + (if t.drained && old(phase).Testing? then FINALE else [])
        && (!t.drained ==> phase == old(phase) && waiter == old(waiter) && waiter.results == t.remaining && waiter.active)
        && (t.drained && old(phase).Testing? ==>
              phase.Testing? && waiter == old(waiter) && !waiter.active && waiter.results == [])
        && (t.drained && old(phase).SettingUp? ==>
              && (phase.Crashed? <==>
                   exists i, c :: 0 <= i < |context.suites| && c in Plan(context.suites, TEST_PREFIX)[i].calls && Raises(c))
              && (phase.Crashed? ==> phase.error == INSTANCEOF_TYPE_ERROR &&
                                     waiter == old(waiter) && !waiter.active && waiter.results == [])
              && (!phase.Crashed? ==> phase.Testing? && fresh(waiter) && waiter.active &&
                                      RanPlan(waiter.results, Plan(context.suites, TEST_PREFIX)) &&
                                      SeparateTestersAcross(waiter.results)))
    {
      var runNext;
      lines, runNext := waiter.Tick(ans);
      DrainedTickLeavesNothing(old(waiter.results), ans);
      if runNext {
        var r := executor.Executes(TEST_PREFIX);
        if r.Thrown? {
          phase := Crashed(r.error);
        } else {
          waiter := new Waiter(r.value, false);
          phase := Testing;
        }
      }
    }
  }

  /**
   * When no test method proxies further methods and none makes its wrapper
   * throw, every result is ready at once: the first tick after `executes`
   * reports every planned method, in plan order, and drains the map.
   */
  lemma {:induction false} FirstTickReportsAll(results: seq<PollSuite<Tester>>, plan: seq<Planned>, ans: Tester -> Option<TestResult>)
    requires RanPlan(results, plan) && Answers(results, ans)
    requires forall i, c :: 0 <= i < |plan| && c in plan[i].calls ==> !Raises(c)
    ensures TickFrom(results, ans).drained && TickFrom(results, ans).remaining == []
    ensures Verdicts(TickFrom(results, ans).lines) == Methods(Flat(results))
  {
    forall i, k | 0 <= i < |results| && 0 <= k < |results[i].slots| && results[i].slots[k].Some?
      ensures ans(results[i].slots[k].value.holder).Some?
    {
      var c, t := plan[i].calls[k], results[i].slots[k].value.holder;
      assert c in plan[i].calls && !Raises(c);
      SynchronousRunSettles(c.body);
      assert t.State() == Executed(c.body).state;
      assert ans(t) == t.Holder();
    }
    TickDrainsWhenAllFinished(results, ans);
  }
}
