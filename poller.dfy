/**
 * One tick of the result poller `waitForResult`: the body of the interval
 * callback, without the timer and the console. The results are an ordered
 * map from suite name to a list of pending results whose slots are deleted
 * once reported; each suite carries the `isPrinted` flag of its header.
 *
 * `TickFrom` is the tick as a function of the results and of what each
 * result holder answers during the tick (`ans`; nothing else runs during a
 * tick, so a holder answers the same on both of its calls). Class `Waiter`
 * is one `waitForResult` call, its `Tick` the callback, proved against
 * `TickFrom`.
 */
module Polling {
  import opened JsValues
  import opened Testers

  /** `{method, getResult}` as `executes` builds it; `holder` is whatever answers `getResult`. */
  datatype Pending<H> = Pending(methodName: string, holder: H)

  /** One key of the results map: its list, with deleted slots as None, and its header flag. */
  datatype PollSuite<H> = PollSuite(name: string, isPrinted: bool, slots: seq<Option<Pending<H>>>)

  /** A line written to the console. */
  datatype Line =
    | Header(name: string)                // the suite name
    | Verdict(pass: bool, methodName: string) // "  Pass   <method>" or "  Fail   <method>"
    | Stack(error: Value)                 // `error.stack`, rendered by the runtime
    | Rule                                // the closing separator
    | TimeEnd(timer: string)              // `console.timeEnd(timer)`, rendered by the runtime

  const RULE_TEXT := "==============================================="
  const LABEL := "Total Test Run Time"

  /** The text of the lines the harness composes itself. */
  function Text(line: Line): Option<string>
  {
    match line
    case Header(name) => Some(name)
    case Verdict(pass, methodName) => Some((if pass then "  Pass" else "  Fail") + "   " + methodName)
    case Rule => Some(RULE_TEXT)
    case _ => None
  }

  /** The lines reporting one finished result: the verdict, then the stack of a truthy error. */
  function Report(methodName: string, r: TestResult): seq<Line>
  {
    [Verdict(r.pass == Some(true), methodName)] + (if Truthy(r.error) then [Stack(r.error)] else [])
  }

  /**
   * The console format of a report: the verdict line reads "  Pass" or
   * "  Fail", three spaces, then the method name, and passes only when
   * `pass` is true (an undefined `pass` is falsy); a stack line follows
   * exactly when the error is truthy.
   */
  lemma ReportFormat(methodName: string, r: TestResult)
    ensures var t := Text(Report(methodName, r)[0]);
      && t.Some? && |t.value| == 9 + |methodName|
      && t.value[..6] == (if r.pass == Some(true) then "  Pass" else "  Fail")
      && t.value[6..9] == "   " && t.value[9..] == methodName
    ensures |Report(methodName, r)| == 2 <==> Truthy(r.error)
    ensures |Report(methodName, r)| == 1 || Report(methodName, r)[1] == Stack(r.error)
  {
    var verdict := if r.pass == Some(true) then "  Pass" else "  Fail";
    assert Text(Report(methodName, r)[0]).value == verdict + "   " + methodName;
  }

  /** The lines after the last suite drained and no continuation was given. */
  const FINALE: seq<Line> := [Rule, TimeEnd(LABEL)]

  datatype Scan<H> = Scan(lines: seq<Line>, slots: seq<Option<Pending<H>>>, complete: bool)

  /** The inner loop from slot `k`: report and delete finished results until one is unfinished. */
  function ScanFrom<H>(slots: seq<Option<Pending<H>>>, k: nat, ans: H -> Option<TestResult>): (sc: Scan<H>)
    requires k <= |slots|
    ensures |sc.slots| == |slots|
    ensures forall i :: 0 <= i < k ==> sc.slots[i] == slots[i]
    ensures !sc.complete ==> exists i :: k <= i < |slots| && sc.slots[i].Some? && ans(sc.slots[i].value.holder).None?
    decreases |slots| - k
  {
    if k == |slots| then Scan([], slots, true)
    else if slots[k].None? then ScanFrom(slots, k + 1, ans)
    else
      var p := slots[k].value;
      match ans(p.holder)
      case None => Scan([], slots, false)
      case Some(r) =>
        var rest := ScanFrom(slots[k := None], k + 1, ans);
        Scan(Report(p.methodName, r) + rest.lines, rest.slots, rest.complete)
  }

  /** The suite name, logged the first time the suite is reached. */
  function HeaderOf<H>(s: PollSuite<H>): seq<Line>
  {
    if s.isPrinted then [] else [Header(s.name)]
  }

  datatype TickOut<H> = TickOut(lines: seq<Line>, remaining: seq<PollSuite<H>>, drained: bool)

  /**
   * The outer loop: print a suite's header once, scan it, delete it when it
   * is complete; the first unfinished result ends the whole tick.
   */
  function TickFrom<H>(suites: seq<PollSuite<H>>, ans: H -> Option<TestResult>): TickOut<H>
    decreases |suites|
  {
    if suites == [] then TickOut([], [], true)
    else
      var s := suites[0];
      var header := HeaderOf(s);
      var scan := ScanFrom(s.slots, 0, ans);
      if !scan.complete then
        TickOut(header + scan.lines, [PollSuite(s.name, true, scan.slots)] + suites[1..], false)
      else
        var rest := TickFrom(suites[1..], ans);
        TickOut(header + scan.lines + rest.lines, rest.remaining, rest.drained)
  }

  // ----- A reference description of a tick -----

  /** The results still present in a list, in order. */
  function Present<H>(slots: seq<Option<Pending<H>>>): seq<Pending<H>>
  {
    if slots == [] then []
    else (if slots[0].Some? then [slots[0].value] else []) + Present(slots[1..])
  }

  /** Every result still present, suite by suite. */
  function Flat<H>(suites: seq<PollSuite<H>>): seq<Pending<H>>
  {
    if suites == [] then [] else Present(suites[0].slots) + Flat(suites[1..])
  }

  /** How many results at the front have finished. */
  function FinishedPrefix<H>(ps: seq<Pending<H>>, ans: H -> Option<TestResult>): (n: nat)
    ensures n <= |ps|
    ensures forall i :: 0 <= i < n ==> ans(ps[i].holder).Some?
    ensures n < |ps| ==> ans(ps[n].holder).None?
  {
    if ps == [] || ans(ps[0].holder).None? then 0 else 1 + FinishedPrefix(ps[1..], ans)
  }

  /** The report lines of the finished results among `ps`, one after the other. */
  function Reports<H>(ps: seq<Pending<H>>, ans: H -> Option<TestResult>): seq<Line>
  {
    if ps == [] then []
    else (match ans(ps[0].holder)
          case Some(r) => Report(ps[0].methodName, r)
          case None => []) + Reports(ps[1..], ans)
  }

  function WithoutHeaders(lines: seq<Line>): seq<Line>
  {
    if lines == [] then [] else (if lines[0].Header? then [] else [lines[0]]) + WithoutHeaders(lines[1..])
  }

  function Headers(lines: seq<Line>): seq<string>
  {
    if lines == [] then [] else (if lines[0].Header? then [lines[0].name] else []) + Headers(lines[1..])
  }

  /** The methods whose verdicts the lines report, in order. */
  function Verdicts(lines: seq<Line>): seq<string>
  {
    if lines == [] then [] else (if lines[0].Verdict? then [lines[0].methodName] else []) + Verdicts(lines[1..])
  }

  function Methods<H>(ps: seq<Pending<H>>): seq<string>
  {
    if ps == [] then [] else [ps[0].methodName] + Methods(ps[1..])
  }

  /** The names of the suites whose header has not been printed. */
  function Unprinted<H>(suites: seq<PollSuite<H>>): seq<string>
  {
    if suites == [] then [] else (if suites[0].isPrinted then [] else [suites[0].name]) + Unprinted(suites[1..])
  }

  // ----- Small facts about the reference description -----

  lemma {:induction false} PresentAppend<H>(a: seq<Option<Pending<H>>>, b: seq<Option<Pending<H>>>)
    ensures Present(a + b) == Present(a) + Present(b)
  {
    if a != [] {
      assert (a + b)[1..] == a[1..] + b;
      PresentAppend(a[1..], b);
    } else {
      assert a + b == b;
    }
  }

  lemma {:induction false} FlatAppend<H>(a: seq<PollSuite<H>>, b: seq<PollSuite<H>>)
    ensures Flat(a + b) == Flat(a) + Flat(b)
  {
    if a != [] {
      assert (a + b)[1..] == a[1..] + b;
      FlatAppend(a[1..], b);
    } else {
      assert a + b == b;
    }
  }

  lemma {:induction false} ReportsAppend<H>(a: seq<Pending<H>>, b: seq<Pending<H>>, ans: H -> Option<TestResult>)
    ensures Reports(a + b, ans) == Reports(a, ans) + Reports(b, ans)
  {
    if a != [] {
      assert (a + b)[1..] == a[1..] + b;
      ReportsAppend(a[1..], b, ans);
    } else {
      assert a + b == b;
    }
  }

  lemma {:induction false} WithoutHeadersAppend(a: seq<Line>, b: seq<Line>)
    ensures WithoutHeaders(a + b) == WithoutHeaders(a) + WithoutHeaders(b)
    ensures Headers(a + b) == Headers(a) + Headers(b)
    ensures Verdicts(a + b) == Verdicts(a) + Verdicts(b)
  {
    if a != [] {
      assert (a + b)[1..] == a[1..] + b;
      WithoutHeadersAppend(a[1..], b);
    } else {
      assert a + b == b;
    }
  }

  lemma {:induction false} ReportsHaveNoHeaders<H>(ps: seq<Pending<H>>, ans: H -> Option<TestResult>)
    requires forall i :: 0 <= i < |ps| ==> ans(ps[i].holder).Some?
    ensures WithoutHeaders(Reports(ps, ans)) == Reports(ps, ans)
    ensures Headers(Reports(ps, ans)) == []
    ensures Verdicts(Reports(ps, ans)) == Methods(ps)
  {
    if ps != [] {
      var r := Report(ps[0].methodName, ans(ps[0].holder).value);
      ReportsHaveNoHeaders(ps[1..], ans);
      WithoutHeadersAppend(r, Reports(ps[1..], ans));
      assert WithoutHeaders(r) == r && Headers(r) == [] && Verdicts(r) == [ps[0].methodName] by {
        if |r| == 2 {
          assert r[1..][1..] == [];
        }
      }
    }
  }

  lemma {:induction false} MethodsAppend<H>(a: seq<Pending<H>>, b: seq<Pending<H>>)
    ensures Methods(a + b) == Methods(a) + Methods(b)
  {
    if a != [] {
      assert (a + b)[1..] == a[1..] + b;
      MethodsAppend(a[1..], b);
    } else {
      assert a + b == b;
    }
  }

  lemma {:induction false} FinishedPrefixAppend<H>(a: seq<Pending<H>>, b: seq<Pending<H>>, ans: H -> Option<TestResult>)
    ensures FinishedPrefix(a + b, ans) ==
            if FinishedPrefix(a, ans) < |a| then FinishedPrefix(a, ans) else |a| + FinishedPrefix(b, ans)
  {
    if a != [] {
      assert (a + b)[1..] == a[1..] + b;
      FinishedPrefixAppend(a[1..], b, ans);
    } else {
      assert a + b == b;
    }
  }

  // ----- The scan of one suite -----

  /** What is present from slot `k` on is slot `k`'s result, if any, then what is present after it. */
  lemma {:induction false} PresentFrom<H>(slots: seq<Option<Pending<H>>>, k: nat)
    requires k < |slots|
    ensures Present(slots[k..]) == (if slots[k].Some? then [slots[k].value] else []) + Present(slots[k + 1..])
  {
    assert slots[k..][1..] == slots[k + 1..];
  }

  /**
   * Scanning from slot `k` reports, in order, the finished results at the
   * front of what is present from `k` on, deletes exactly those, and is
   * complete exactly when all of them had finished.
   */
  lemma {:induction false} ScanReportsFinishedPrefix<H>(slots: seq<Option<Pending<H>>>, k: nat, ans: H -> Option<TestResult>)
    requires k <= |slots|
    ensures Present(ScanFrom(slots, k, ans).slots[k..]) ==
            Present(slots[k..])[FinishedPrefix(Present(slots[k..]), ans)..]
    ensures ScanFrom(slots, k, ans).complete <==> FinishedPrefix(Present(slots[k..]), ans) == |Present(slots[k..])|
    ensures ScanFrom(slots, k, ans).lines == Reports(Present(slots[k..])[..FinishedPrefix(Present(slots[k..]), ans)], ans)
    decreases |slots| - k, 1
  {
    if k < |slots| {
      PresentFrom(slots, k);
      var ps := Present(slots[k..]);
      if slots[k].None? {
        var sc := ScanFrom(slots, k + 1, ans);
        assert ScanFrom(slots, k, ans) == sc;
        ScanReportsFinishedPrefix(slots, k + 1, ans);
        PresentFrom(sc.slots, k);
        assert ps == Present(slots[k + 1..]);
      } else if ans(slots[k].value.holder).Some? {
        ScanFinishedSlot(slots, k, ans);
      } else {
        assert ScanFrom(slots, k, ans) == Scan([], slots, false);
        assert FinishedPrefix(ps, ans) == 0;
      }
    }
  }

  /** The step of the scan that reports and deletes a finished result. */
  lemma {:induction false} ScanFinishedSlot<H>(slots: seq<Option<Pending<H>>>, k: nat, ans: H -> Option<TestResult>)
    requires k < |slots| && slots[k].Some? && ans(slots[k].value.holder).Some?
    ensures Present(ScanFrom(slots, k, ans).slots[k..]) ==
            Present(slots[k..])[FinishedPrefix(Present(slots[k..]), ans)..]
    ensures ScanFrom(slots, k, ans).complete <==> FinishedPrefix(Present(slots[k..]), ans) == |Present(slots[k..])|
    ensures ScanFrom(slots, k, ans).lines == Reports(Present(slots[k..])[..FinishedPrefix(Present(slots[k..]), ans)], ans)
    decreases |slots| - k, 0
  {
    var p := slots[k].value;
    var next := slots[k := None];
    var sc := ScanFrom(next, k + 1, ans);
    assert ScanFrom(slots, k, ans) == Scan(Report(p.methodName, ans(p.holder).value) + sc.lines, sc.slots, sc.complete);
    ScanReportsFinishedPrefix(next, k + 1, ans);
    assert next[k + 1..] == slots[k + 1..];
    PresentFrom(sc.slots, k);
    FinishedHead(p, Present(slots[k + 1..]), ans);
  }

  /** A finished result at the front is reported first, then the finished prefix of the rest. */
  lemma {:induction false} FinishedHead<H>(p: Pending<H>, rest: seq<Pending<H>>, ans: H -> Option<TestResult>)
    requires ans(p.holder).Some?
    ensures var ps, n := [p] + rest, FinishedPrefix(rest, ans);
      && FinishedPrefix(ps, ans) == 1 + n
      && ps[1 + n..] == rest[n..]
      && Reports(ps[..1 + n], ans) == Report(p.methodName, ans(p.holder).value) + Reports(rest[..n], ans)
  {
    var ps, n := [p] + rest, FinishedPrefix(rest, ans);
    assert ps[1..] == rest;
    assert ps[..1 + n][1..] == rest[..n];
  }

  // ----- The tick -----

  /** The scan of a whole suite, from its first slot. */
  lemma {:induction false} ScanSuite<H>(slots: seq<Option<Pending<H>>>, ans: H -> Option<TestResult>)
    ensures var sc, ps := ScanFrom(slots, 0, ans), Present(slots);
      Present(sc.slots) == ps[FinishedPrefix(ps, ans)..]
    ensures var sc, ps := ScanFrom(slots, 0, ans), Present(slots);
      sc.complete <==> FinishedPrefix(ps, ans) == |ps|
    ensures var sc, ps := ScanFrom(slots, 0, ans), Present(slots);
      && WithoutHeaders(sc.lines) == sc.lines == Reports(ps[..FinishedPrefix(ps, ans)], ans)
      && Headers(sc.lines) == []
      && Verdicts(sc.lines) == Methods(ps[..FinishedPrefix(ps, ans)])
  {
    var sc, ps := ScanFrom(slots, 0, ans), Present(slots);
    ScanReportsFinishedPrefix(slots, 0, ans);
    assert slots[0..] == slots && sc.slots[0..] == sc.slots;
    ReportsHaveNoHeaders(ps[..FinishedPrefix(ps, ans)], ans);
  }

  lemma {:induction false} HeaderLines<H>(s: PollSuite<H>)
    ensures WithoutHeaders(HeaderOf(s)) == [] && Verdicts(HeaderOf(s)) == []
    ensures Headers(HeaderOf(s)) == if s.isPrinted then [] else [s.name]
  {
    if !s.isPrinted {
      assert HeaderOf(s)[1..] == [];
    }
  }

  /**
   * A tick reports, in order, exactly the finished results at the front of
   * all those still present (the first unfinished one ends the tick), and
   * leaves exactly the rest; it drains the map exactly when every result
   * has finished.
   */
  lemma {:induction false} TickReportsFinishedPrefix<H>(suites: seq<PollSuite<H>>, ans: H -> Option<TestResult>)
    ensures var t, f := TickFrom(suites, ans), Flat(suites);
      Flat(t.remaining) == f[FinishedPrefix(f, ans)..]
    ensures var t, f := TickFrom(suites, ans), Flat(suites);
      t.drained <==> FinishedPrefix(f, ans) == |f|
    ensures var t := TickFrom(suites, ans);
      t.drained ==> t.remaining == []
    ensures var t, f := TickFrom(suites, ans), Flat(suites);
      WithoutHeaders(t.lines) == Reports(f[..FinishedPrefix(f, ans)], ans)
    decreases |suites|, 1
  {
    if suites != [] {
      if ScanFrom(suites[0].slots, 0, ans).complete {
        TickPastSuiteLeaves(suites, ans);
        TickPastSuiteReports(suites, ans);
      } else {
        TickStallsInSuite(suites, ans);
      }
    }
  }

  /** The tick stalls in the first suite. */
  lemma {:induction false} TickStallsInSuite<H>(suites: seq<PollSuite<H>>, ans: H -> Option<TestResult>)
    requires suites != [] && !ScanFrom(suites[0].slots, 0, ans).complete
    ensures var t, f := TickFrom(suites, ans), Flat(suites);
      Flat(t.remaining) == f[FinishedPrefix(f, ans)..]
    ensures var t, f := TickFrom(suites, ans), Flat(suites);
      t.drained <==> FinishedPrefix(f, ans) == |f|
    ensures var t := TickFrom(suites, ans);
      t.drained ==> t.remaining == []
    ensures var t, f := TickFrom(suites, ans), Flat(suites);
      WithoutHeaders(t.lines) == Reports(f[..FinishedPrefix(f, ans)], ans)
  {
    var s := suites[0];
    var t := TickFrom(suites, ans);
    var scan, ps := ScanFrom(s.slots, 0, ans), Present(s.slots);
    assert t == TickOut(HeaderOf(s) + scan.lines, [PollSuite(s.name, true, scan.slots)] + suites[1..], false);
    assert suites == [s] + suites[1..];
    ScanSuite(s.slots, ans);
    StalledSuite(s, suites[1..], ans);
    FlatCons(PollSuite(s.name, true, scan.slots), suites[1..]);
    assert WithoutHeaders(t.lines) == scan.lines by {
      HeaderLines(s);
      WithoutHeadersAppend(HeaderOf(s), scan.lines);
    }
  }

  lemma {:induction false} FlatCons<H>(s: PollSuite<H>, later: seq<PollSuite<H>>)
    ensures Flat([s] + later) == Present(s.slots) + Flat(later)
  {
    assert ([s] + later)[1..] == later;
  }

  /** When a suite holds an unfinished result, the finished prefix of the map ends inside it. */
  lemma {:induction false} StalledSuite<H>(s: PollSuite<H>, later: seq<PollSuite<H>>, ans: H -> Option<TestResult>)
    requires FinishedPrefix(Present(s.slots), ans) < |Present(s.slots)|
    ensures var f, ps := Flat([s] + later), Present(s.slots);
      && FinishedPrefix(f, ans) == FinishedPrefix(ps, ans)
      && f[..FinishedPrefix(f, ans)] == ps[..FinishedPrefix(ps, ans)]
      && f[FinishedPrefix(f, ans)..] == ps[FinishedPrefix(ps, ans)..] + Flat(later)
  {
    FlatCons(s, later);
    FinishedPrefixAppend(Present(s.slots), Flat(later), ans);
  }

  /** The tick completes the first suite and goes on with the others: what it leaves. */
  lemma {:induction false} TickPastSuiteLeaves<H>(suites: seq<PollSuite<H>>, ans: H -> Option<TestResult>)
    requires suites != [] && ScanFrom(suites[0].slots, 0, ans).complete
    ensures var t, f := TickFrom(suites, ans), Flat(suites);
      Flat(t.remaining) == f[FinishedPrefix(f, ans)..]
    ensures var t, f := TickFrom(suites, ans), Flat(suites);
      t.drained <==> FinishedPrefix(f, ans) == |f|
    ensures var t := TickFrom(suites, ans);
      t.drained ==> t.remaining == []
    decreases |suites|, 0
  {
    var s := suites[0];
    var f, ps, g := Flat(suites), Present(s.slots), Flat(suites[1..]);
    var n' := FinishedPrefix(g, ans);
    var n := FinishedPrefix(f, ans);
    assert TickFrom(suites, ans).remaining == TickFrom(suites[1..], ans).remaining;
    assert TickFrom(suites, ans).drained == TickFrom(suites[1..], ans).drained;
    assert f == ps + g;
    TickReportsFinishedPrefix(suites[1..], ans);
    assert n == |ps| + n' by {
      ScanSuite(s.slots, ans);
      FinishedPrefixAppend(ps, g, ans);
    }
    assert f[n..] == g[n'..];
  }

  /** The tick completes the first suite and goes on with the others: what it reports. */
  lemma {:induction false} TickPastSuiteReports<H>(suites: seq<PollSuite<H>>, ans: H -> Option<TestResult>)
    requires suites != [] && ScanFrom(suites[0].slots, 0, ans).complete
    ensures var t, f := TickFrom(suites, ans), Flat(suites);
      WithoutHeaders(t.lines) == Reports(f[..FinishedPrefix(f, ans)], ans)
    decreases |suites|, 0
  {
    var s := suites[0];
    var ps, g := Present(s.slots), Flat(suites[1..]);
    var a := HeaderOf(s) + ScanFrom(s.slots, 0, ans).lines;
    var rest := TickFrom(suites[1..], ans);
    assert TickFrom(suites, ans).lines == a + rest.lines;
    CompletedSuiteReports(s, ans);
    TickReportsFinishedPrefix(suites[1..], ans);
    PastCompletedSuite(s, suites[1..], ans);
    assert suites == [s] + suites[1..];
    ReportsJoin(a, rest.lines, ps, g[..FinishedPrefix(g, ans)], ans);
  }

  /** A completed suite reports all its results, after its header if that was unprinted. */
  lemma {:induction false} CompletedSuiteReports<H>(s: PollSuite<H>, ans: H -> Option<TestResult>)
    requires ScanFrom(s.slots, 0, ans).complete
    ensures FinishedPrefix(Present(s.slots), ans) == |Present(s.slots)|
    ensures WithoutHeaders(HeaderOf(s) + ScanFrom(s.slots, 0, ans).lines) == Reports(Present(s.slots), ans)
  {
    var sc, ps := ScanFrom(s.slots, 0, ans), Present(s.slots);
    ScanSuite(s.slots, ans);
    assert FinishedPrefix(ps, ans) == |ps|;
    assert ps[..|ps|] == ps;
    assert WithoutHeaders(sc.lines) == Reports(ps, ans);
    HeaderLines(s);
    WithoutHeadersAppend(HeaderOf(s), sc.lines);
  }

  /** Past a completed suite, the finished prefix of the map continues into the later suites. */
  lemma {:induction false} PastCompletedSuite<H>(s: PollSuite<H>, later: seq<PollSuite<H>>, ans: H -> Option<TestResult>)
    requires FinishedPrefix(Present(s.slots), ans) == |Present(s.slots)|
    ensures var f, ps, g := Flat([s] + later), Present(s.slots), Flat(later);
      && FinishedPrefix(f, ans) == |ps| + FinishedPrefix(g, ans)
      && f[..FinishedPrefix(f, ans)] == ps + g[..FinishedPrefix(g, ans)]
      && f[FinishedPrefix(f, ans)..] == g[FinishedPrefix(g, ans)..]
  {
    var ps, g := Present(s.slots), Flat(later);
    assert ([s] + later)[1..] == later;
    assert Flat([s] + later) == ps + g;
    FinishedPrefixAppend(ps, g, ans);
  }

  lemma {:induction false} ReportsJoin<H>(a: seq<Line>, b: seq<Line>, ps: seq<Pending<H>>, qs: seq<Pending<H>>, ans: H -> Option<TestResult>)
    requires forall i :: 0 <= i < |ps| ==> ans(ps[i].holder).Some?
    requires forall i :: 0 <= i < |qs| ==> ans(qs[i].holder).Some?
    requires WithoutHeaders(a) == Reports(ps, ans) && WithoutHeaders(b) == Reports(qs, ans)
    ensures WithoutHeaders(a + b) == Reports(ps + qs, ans)
  {
    WithoutHeadersAppend(a, b);
    ReportsAppend(ps, qs, ans);
  }

  /** A tick that completes the first suite goes on with the others. */
  lemma {:induction false} TickStep<H>(suites: seq<PollSuite<H>>, ans: H -> Option<TestResult>)
    requires suites != [] && ScanFrom(suites[0].slots, 0, ans).complete
    ensures var rest := TickFrom(suites[1..], ans);
      TickFrom(suites, ans) == rest.(lines := HeaderOf(suites[0]) + ScanFrom(suites[0].slots, 0, ans).lines + rest.lines)
  {
  }

  /** The step of the callback's outer loop past a completed suite, as the loop's invariant sees it. */
  lemma {:induction false} TickAdvance<H>(remaining: seq<PollSuite<H>>, before: seq<Line>, after: seq<Line>,
                                          ans: H -> Option<TestResult>)
    requires remaining != [] && ScanFrom(remaining[0].slots, 0, ans).complete
    requires after == before + HeaderOf(remaining[0]) + ScanFrom(remaining[0].slots, 0, ans).lines
    ensures TickFrom(remaining, ans).remaining == TickFrom(remaining[1..], ans).remaining
    ensures TickFrom(remaining, ans).drained == TickFrom(remaining[1..], ans).drained
    ensures before + TickFrom(remaining, ans).lines == after + TickFrom(remaining[1..], ans).lines
  {
    var h, sc, rest := HeaderOf(remaining[0]), ScanFrom(remaining[0].slots, 0, ans).lines, TickFrom(remaining[1..], ans).lines;
    TickStep(remaining, ans);
    assert before + (h + sc + rest) == after + rest;
  }

  /** The callback's outer loop returning at an unfinished result of the first suite, as the loop's invariant sees it. */
  lemma {:induction false} TickHalt<H>(suites: seq<PollSuite<H>>, remaining: seq<PollSuite<H>>, before: seq<Line>, after: seq<Line>,
                                       slots: seq<Option<Pending<H>>>, ans: H -> Option<TestResult>)
    requires remaining != [] && !ScanFrom(remaining[0].slots, 0, ans).complete
    requires slots == ScanFrom(remaining[0].slots, 0, ans).slots
    requires TickFrom(suites, ans).remaining == TickFrom(remaining, ans).remaining
    requires TickFrom(suites, ans).drained == TickFrom(remaining, ans).drained
    requires TickFrom(suites, ans).lines == before + TickFrom(remaining, ans).lines
    requires after == before + HeaderOf(remaining[0]) + ScanFrom(remaining[0].slots, 0, ans).lines
    ensures TickFrom(suites, ans) == TickOut(after, [PollSuite(remaining[0].name, true, slots)] + remaining[1..], false)
  {
    assert TickFrom(remaining, ans).lines == HeaderOf(remaining[0]) + ScanFrom(remaining[0].slots, 0, ans).lines;
  }

  /** The verdicts of a tick are those of the finished results at the front of the map. */
  lemma {:induction false} TickVerdicts<H>(suites: seq<PollSuite<H>>, ans: H -> Option<TestResult>)
    ensures var t, f := TickFrom(suites, ans), Flat(suites);
      Verdicts(t.lines) == Methods(f[..FinishedPrefix(f, ans)])
  {
    var t, f := TickFrom(suites, ans), Flat(suites);
    TickReportsFinishedPrefix(suites, ans);
    VerdictsIgnoreHeaders(t.lines);
    ReportsHaveNoHeaders(f[..FinishedPrefix(f, ans)], ans);
  }

  lemma {:induction false} VerdictsIgnoreHeaders(lines: seq<Line>)
    ensures Verdicts(WithoutHeaders(lines)) == Verdicts(lines)
  {
    if lines != [] {
      VerdictsIgnoreHeaders(lines[1..]);
      var head := if lines[0].Header? then [] else [lines[0]];
      WithoutHeadersAppend(head, WithoutHeaders(lines[1..]));
      if !lines[0].Header? {
        assert head[1..] == [];
      }
    }
  }

  /** How many suites a tick reaches: it goes past each completed suite and stops in the first incomplete one. */
  function Reached<H>(suites: seq<PollSuite<H>>, ans: H -> Option<TestResult>): (n: nat)
    ensures n <= |suites|
  {
    if suites == [] then 0
    else if !ScanFrom(suites[0].slots, 0, ans).complete then 1
    else 1 + Reached(suites[1..], ans)
  }

  /** A draining tick leaves an empty map. */
  lemma DrainedTickLeavesNothing<H>(suites: seq<PollSuite<H>>, ans: H -> Option<TestResult>)
    ensures TickFrom(suites, ans).drained ==> TickFrom(suites, ans).remaining == []
  {
    TickLeaves(suites, ans);
  }

  /**
   * What a tick leaves: nothing when it drains, after reaching every
   * suite; otherwise the suite it stalled in, now marked printed, followed
   * by the suites it did not reach, untouched.
   */
  lemma {:induction false} TickLeaves<H>(suites: seq<PollSuite<H>>, ans: H -> Option<TestResult>)
    ensures var t, n := TickFrom(suites, ans), Reached(suites, ans);
      t.drained ==> t.remaining == [] && n == |suites|
    ensures var t, n := TickFrom(suites, ans), Reached(suites, ans);
      !t.drained ==> 0 < n && t.remaining != [] &&
                     t.remaining == [PollSuite(suites[n - 1].name, true, t.remaining[0].slots)] + suites[n..]
    decreases |suites|
  {
    if suites != [] && ScanFrom(suites[0].slots, 0, ans).complete {
      TickLeaves(suites[1..], ans);
      var n' := Reached(suites[1..], ans);
      assert suites[1..][n'..] == suites[1 + n'..];
    }
  }

  /** A tick prints the header of exactly the unprinted suites it reaches, in order. */
  lemma {:induction false} TickHeaders<H>(suites: seq<PollSuite<H>>, ans: H -> Option<TestResult>)
    ensures Headers(TickFrom(suites, ans).lines) == Unprinted(suites[..Reached(suites, ans)])
    decreases |suites|
  {
    if suites != [] {
      var s := suites[0];
      var a := HeaderOf(s) + ScanFrom(s.slots, 0, ans).lines;
      SuiteHeaders(s, ans);
      if ScanFrom(s.slots, 0, ans).complete {
        var rest := TickFrom(suites[1..], ans);
        var n' := Reached(suites[1..], ans);
        assert TickFrom(suites, ans).lines == a + rest.lines;
        TickHeaders(suites[1..], ans);
        WithoutHeadersAppend(a, rest.lines);
        assert suites[..1 + n'] == [s] + suites[1..][..n'];
        UnprintedAppend([s], suites[1..][..n']);
      } else {
        assert suites[..1] == [s];
      }
    }
  }

  lemma {:induction false} SuiteHeaders<H>(s: PollSuite<H>, ans: H -> Option<TestResult>)
    ensures Headers(HeaderOf(s) + ScanFrom(s.slots, 0, ans).lines) == Unprinted([s])
  {
    ScanHasNoHeaders(s.slots, ans);
    HeaderLines(s);
    WithoutHeadersAppend(HeaderOf(s), ScanFrom(s.slots, 0, ans).lines);
    UnprintedOne(s);
  }

  lemma {:induction false} ScanHasNoHeaders<H>(slots: seq<Option<Pending<H>>>, ans: H -> Option<TestResult>)
    ensures Headers(ScanFrom(slots, 0, ans).lines) == []
  {
    ScanSuite(slots, ans);
  }

  lemma {:induction false} UnprintedOne<H>(s: PollSuite<H>)
    ensures Unprinted([s]) == if s.isPrinted then [] else [s.name]
  {
    assert [s][1..] == [];
  }

  lemma {:induction false} PresentMembers<H>(slots: seq<Option<Pending<H>>>, p: Pending<H>)
    requires p in Present(slots)
    ensures exists k :: 0 <= k < |slots| && slots[k] == Some(p)
  {
    if slots[0] != Some(p) {
      PresentMembers(slots[1..], p);
      var k :| 0 <= k < |slots[1..]| && slots[1..][k] == Some(p);
      assert slots[k + 1] == Some(p);
    }
  }

  lemma {:induction false} FlatMembers<H>(suites: seq<PollSuite<H>>, p: Pending<H>)
    requires p in Flat(suites)
    ensures exists i, k :: 0 <= i < |suites| && 0 <= k < |suites[i].slots| && suites[i].slots[k] == Some(p)
  {
    if p in Present(suites[0].slots) {
      PresentMembers(suites[0].slots, p);
    } else {
      FlatMembers(suites[1..], p);
      var i, k :| 0 <= i < |suites[1..]| && 0 <= k < |suites[1..][i].slots| && suites[1..][i].slots[k] == Some(p);
      assert suites[i + 1] == suites[1..][i];
    }
  }

  lemma {:induction false} AllFinished<H>(ps: seq<Pending<H>>, ans: H -> Option<TestResult>)
    requires forall p :: p in ps ==> ans(p.holder).Some?
    ensures FinishedPrefix(ps, ans) == |ps|
  {
    if ps != [] {
      assert ps[0] in ps;
      AllFinished(ps[1..], ans);
    }
  }

  /**
   * When every result present has finished, a tick reports all of them, in
   * map order, and drains the map.
   */
  lemma TickDrainsWhenAllFinished<H>(suites: seq<PollSuite<H>>, ans: H -> Option<TestResult>)
    requires forall i, k :: 0 <= i < |suites| && 0 <= k < |suites[i].slots| && suites[i].slots[k].Some? ==>
               ans(suites[i].slots[k].value.holder).Some?
    ensures TickFrom(suites, ans).drained && TickFrom(suites, ans).remaining == []
    ensures Verdicts(TickFrom(suites, ans).lines) == Methods(Flat(suites))
  {
    var f := Flat(suites);
    forall p | p in f ensures ans(p.holder).Some? {
      FlatMembers(suites, p);
    }
    AllFinished(f, ans);
    TickReportsFinishedPrefix(suites, ans);
    TickVerdicts(suites, ans);
    assert f[..|f|] == f;
  }

  // ----- Several ticks -----

  /** The ticks of one `waitForResult`, with what the holders answer at each; none after draining. */
  function Poll<H>(suites: seq<PollSuite<H>>, answers: seq<H -> Option<TestResult>>): TickOut<H>
    decreases |answers|
  {
    if answers == [] then TickOut([], suites, false)
    else
      var t := TickFrom(suites, answers[0]);
      if t.drained then t
      else
        var rest := Poll(t.remaining, answers[1..]);
        TickOut(t.lines + rest.lines, rest.remaining, rest.drained)
  }

  /**
   * Each result is reported exactly once across ticks: what the ticks have
   * reported is, in order, the results at the front of the map, and what is
   * left is the rest; once the map drains nothing is left.
   */
  lemma {:induction false} PollReportsEachOnce<H>(suites: seq<PollSuite<H>>, answers: seq<H -> Option<TestResult>>)
    ensures exists k :: (0 <= k <= |Flat(suites)| &&
      Flat(Poll(suites, answers).remaining) == Flat(suites)[k..] &&
      Verdicts(Poll(suites, answers).lines) == Methods(Flat(suites)[..k]))
    ensures Poll(suites, answers).drained ==> Poll(suites, answers).remaining == []
    decreases |answers|
  {
    var f := Flat(suites);
    if answers == [] {
      assert f[0..] == f && f[..0] == [];
      assert Verdicts([]) == [] == Methods(f[..0]);
    } else {
      var t := TickFrom(suites, answers[0]);
      var n := FinishedPrefix(f, answers[0]);
      TickReportsFinishedPrefix(suites, answers[0]);
      TickVerdicts(suites, answers[0]);
      if !t.drained {
        PollAfterTick(suites, answers, n);
      }
    }
  }

  /** The inductive step: the ticks after the first one report from where it stopped. */
  lemma {:induction false} PollAfterTick<H>(suites: seq<PollSuite<H>>, answers: seq<H -> Option<TestResult>>, n: nat)
    requires answers != [] && !TickFrom(suites, answers[0]).drained
    requires n <= |Flat(suites)|
    requires Flat(TickFrom(suites, answers[0]).remaining) == Flat(suites)[n..]
    requires Verdicts(TickFrom(suites, answers[0]).lines) == Methods(Flat(suites)[..n])
    ensures exists k :: (0 <= k <= |Flat(suites)| &&
      Flat(Poll(suites, answers).remaining) == Flat(suites)[k..] &&
      Verdicts(Poll(suites, answers).lines) == Methods(Flat(suites)[..k]))
    ensures Poll(suites, answers).drained ==> Poll(suites, answers).remaining == []
    decreases |answers|, 0
  {
    var f := Flat(suites);
    var t := TickFrom(suites, answers[0]);
    var rest := Poll(t.remaining, answers[1..]);
    assert Poll(suites, answers) == TickOut(t.lines + rest.lines, rest.remaining, rest.drained);
    PollReportsEachOnce(t.remaining, answers[1..]);
    var j :| 0 <= j <= |f[n..]| && Flat(rest.remaining) == f[n..][j..] && Verdicts(rest.lines) == Methods(f[n..][..j]);
    VerdictsJoin(f, n, j, t.lines, rest.lines);
    assert 0 <= n + j <= |f| && Flat(rest.remaining) == f[n + j..] && Verdicts(t.lines + rest.lines) == Methods(f[..n + j]);
  }

  lemma {:induction false} VerdictsJoin<H>(f: seq<Pending<H>>, n: nat, j: nat, a: seq<Line>, b: seq<Line>)
    requires n <= |f| && j <= |f| - n
    requires Verdicts(a) == Methods(f[..n]) && Verdicts(b) == Methods(f[n..][..j])
    ensures f[n..][j..] == f[n + j..]
    ensures Verdicts(a + b) == Methods(f[..n + j])
  {
    assert f[..n] + f[n..][..j] == f[..n + j];
    WithoutHeadersAppend(a, b);
    MethodsAppend(f[..n], f[n..][..j]);
  }

  ghost predicate Distinct(names: seq<string>)
  {
    forall i, j :: 0 <= i < j < |names| ==> names[i] != names[j]
  }

  ghost predicate DistinctSuiteNames<H>(suites: seq<PollSuite<H>>)
  {
    forall i, j :: 0 <= i < j < |suites| ==> suites[i].name != suites[j].name
  }

  lemma {:induction false} UnprintedAppend<H>(a: seq<PollSuite<H>>, b: seq<PollSuite<H>>)
    ensures Unprinted(a + b) == Unprinted(a) + Unprinted(b)
  {
    if a != [] {
      assert (a + b)[1..] == a[1..] + b;
      UnprintedAppend(a[1..], b);
    } else {
      assert a + b == b;
    }
  }

  /**
   * Across ticks, the headers printed are those of the unprinted suites up
   * to the one the last tick reached, in map order.
   */
  lemma {:induction false} PollHeaders<H>(suites: seq<PollSuite<H>>, answers: seq<H -> Option<TestResult>>)
    ensures exists j :: 0 <= j <= |suites| && Headers(Poll(suites, answers).lines) == Unprinted(suites[..j])
    decreases |answers|
  {
    if answers == [] {
      assert suites[..0] == [];
    } else {
      var t := TickFrom(suites, answers[0]);
      var n := Reached(suites, answers[0]);
      TickHeaders(suites, answers[0]);
      TickLeaves(suites, answers[0]);
      if !t.drained {
        var rest := Poll(t.remaining, answers[1..]);
        assert Poll(suites, answers).lines == t.lines + rest.lines;
        WithoutHeadersAppend(t.lines, rest.lines);
        PollHeaders(t.remaining, answers[1..]);
        var j :| 0 <= j <= |t.remaining| && Headers(rest.lines) == Unprinted(t.remaining[..j]);
        if j == 0 {
          assert t.remaining[..0] == [];
          assert Headers(Poll(suites, answers).lines) == Unprinted(suites[..n]);
        } else {
          LaterHeaders(suites, t.remaining, n, j);
        }
      }
    }
  }

  lemma {:induction false} LaterHeaders<H>(suites: seq<PollSuite<H>>, remaining: seq<PollSuite<H>>, n: nat, j: nat)
    requires 0 < n <= |suites| && 0 < j <= |remaining|
    requires remaining == [PollSuite(suites[n - 1].name, true, remaining[0].slots)] + suites[n..]
    ensures n + j - 1 <= |suites|
    ensures Unprinted(suites[..n]) + Unprinted(remaining[..j]) == Unprinted(suites[..n + j - 1])
  {
    var later := suites[n..n + j - 1];
    assert remaining[..j] == [remaining[0]] + later;
    UnprintedAppend([remaining[0]], later);
    assert [remaining[0]][1..] == [];
    assert suites[..n + j - 1] == suites[..n] + later;
    UnprintedAppend(suites[..n], later);
  }

  lemma {:induction false} UnprintedNames<H>(suites: seq<PollSuite<H>>)
    ensures forall x :: x in Unprinted(suites) ==> exists i :: 0 <= i < |suites| && suites[i].name == x && !suites[i].isPrinted
    ensures DistinctSuiteNames(suites) ==> Distinct(Unprinted(suites))
  {
    if suites != [] {
      var head := if suites[0].isPrinted then [] else [suites[0].name];
      UnprintedNames(suites[1..]);
      forall x | x in Unprinted(suites[1..])
        ensures exists i :: 1 <= i < |suites| && suites[i].name == x && !suites[i].isPrinted
      {
        var i :| 0 <= i < |suites[1..]| && suites[1..][i].name == x && !suites[1..][i].isPrinted;
        assert suites[i + 1].name == x;
      }
      if DistinctSuiteNames(suites) {
        assert DistinctSuiteNames(suites[1..]);
        assert suites[0].name !in Unprinted(suites[1..]);
      }
    }
  }

  /**
   * Each suite header is printed at most once across ticks, and only for a
   * suite whose header had not been printed.
   */
  lemma {:induction false} PollPrintsHeadersOnce<H>(suites: seq<PollSuite<H>>, answers: seq<H -> Option<TestResult>>)
    requires DistinctSuiteNames(suites)
    ensures Distinct(Headers(Poll(suites, answers).lines))
    ensures forall x :: x in Headers(Poll(suites, answers).lines) ==> x in Unprinted(suites)
  {
    PollHeaders(suites, answers);
    var j :| 0 <= j <= |suites| && Headers(Poll(suites, answers).lines) == Unprinted(suites[..j]);
    UnprintedPrefix(suites, j);
  }

  lemma {:induction false} UnprintedPrefix<H>(suites: seq<PollSuite<H>>, j: nat)
    requires j <= |suites|
    ensures forall x :: x in Unprinted(suites[..j]) ==> x in Unprinted(suites)
    ensures DistinctSuiteNames(suites) ==> Distinct(Unprinted(suites[..j]))
  {
    assert suites == suites[..j] + suites[j..];
    UnprintedAppend(suites[..j], suites[j..]);
    UnprintedNames(suites[..j]);
  }

  // ----- The interval callback over live testers -----

  ghost function SlotHolders(slots: seq<Option<Pending<Tester>>>): set<Tester>
  {
    set k | 0 <= k < |slots| && slots[k].Some? :: slots[k].value.holder
  }

  ghost function Holders(suites: seq<PollSuite<Tester>>): set<Tester>
  {
    set i, k | 0 <= i < |suites| && 0 <= k < |suites[i].slots| && suites[i].slots[k].Some? :: suites[i].slots[k].value.holder
  }

  /** `ans` is what every holder present in a list answers now. */
  ghost predicate SlotAnswers(slots: seq<Option<Pending<Tester>>>, ans: Tester -> Option<TestResult>)
    reads SlotHolders(slots)
  {
    forall k :: 0 <= k < |slots| && slots[k].Some? ==> ans(slots[k].value.holder) == slots[k].value.holder.Holder()
  }

  /** `ans` is what every holder present in the map answers now. */
  ghost predicate Answers(suites: seq<PollSuite<Tester>>, ans: Tester -> Option<TestResult>)
    reads Holders(suites)
  {
    forall i, k :: 0 <= i < |suites| && 0 <= k < |suites[i].slots| && suites[i].slots[k].Some? ==>
      ans(suites[i].slots[k].value.holder) == suites[i].slots[k].value.holder.Holder()
  }

  /**
   * The loop invariant of `ScanList`: slots from `k` on are still as listed,
   * and the lines logged so far followed by the scan from `k` make up the
   * scan of the whole list.
   */
  ghost predicate ScanInv<H>(list: seq<Option<Pending<H>>>, slots: seq<Option<Pending<H>>>, k: nat,
                             lines: seq<Line>, ans: H -> Option<TestResult>)
    requires k <= |slots|
  {
    && |slots| == |list|
    && slots[k..] == list[k..]
    && ScanFrom(list, 0, ans) == ScanFrom(slots, k, ans).(lines := lines + ScanFrom(slots, k, ans).lines)
  }

  lemma ScanInvAt<H>(list: seq<Option<Pending<H>>>, slots: seq<Option<Pending<H>>>, k: nat,
                     lines: seq<Line>, ans: H -> Option<TestResult>)
    requires k < |slots| && ScanInv(list, slots, k, lines, ans)
    ensures k < |list| && slots[k] == list[k]
  {
    assert slots[k..][0] == list[k..][0];
  }

  /** A slot that is empty or settled is passed over, a settled one reported and deleted. */
  lemma {:induction false} ScanAdvance<H>(list: seq<Option<Pending<H>>>, slots: seq<Option<Pending<H>>>, k: nat,
                                          lines: seq<Line>, ans: H -> Option<TestResult>)
    requires k < |slots| && ScanInv(list, slots, k, lines, ans)
    requires slots[k].Some? ==> ans(slots[k].value.holder).Some?
    ensures slots[k].None? ==> ScanInv(list, slots, k + 1, lines, ans)
    ensures slots[k].Some? ==>
              ScanInv(list, slots[k := None], k + 1,
                      lines + Report(slots[k].value.methodName, ans(slots[k].value.holder).value), ans)
  {
    assert slots[k + 1..] == slots[k..][1..];
    assert list[k + 1..] == list[k..][1..];
    if slots[k].Some? {
      var p := slots[k].value;
      var r := ans(p.holder).value;
      var rest := ScanFrom(slots[k := None], k + 1, ans);
      assert ScanFrom(slots, k, ans) == Scan(Report(p.methodName, r) + rest.lines, rest.slots, rest.complete);
      assert slots[k := None][k + 1..] == slots[k + 1..];
    }
  }

  /** An unsettled slot ends the scan, incomplete, with the lines logged so far. */
  lemma {:induction false} ScanStall<H>(list: seq<Option<Pending<H>>>, slots: seq<Option<Pending<H>>>, k: nat,
                                        lines: seq<Line>, ans: H -> Option<TestResult>)
    requires k < |slots| && ScanInv(list, slots, k, lines, ans)
    requires slots[k].Some? && ans(slots[k].value.holder).None?
    ensures Scan(lines, slots, false) == ScanFrom(list, 0, ans)
  {
    assert ScanFrom(slots, k, ans) == Scan([], slots, false);
    assert lines + [] == lines;
  }

  lemma ScanDone<H>(list: seq<Option<Pending<H>>>, slots: seq<Option<Pending<H>>>,
                    lines: seq<Line>, ans: H -> Option<TestResult>)
    requires ScanInv(list, slots, |slots|, lines, ans)
    ensures Scan(lines, slots, true) == ScanFrom(list, 0, ans)
  {
    assert lines + [] == lines;
  }

  /**
   * The inner loop of the callback over one suite's list: reports and
   * deletes each finished result in order; `complete` is false when it
   * meets an unfinished one, where the source returns from the callback.
   */
  method ScanList(list: seq<Option<Pending<Tester>>>, ghost ans: Tester -> Option<TestResult>)
    returns (lines: seq<Line>, slots: seq<Option<Pending<Tester>>>, complete: bool)
    requires SlotAnswers(list, ans)
    ensures Scan(lines, slots, complete) == ScanFrom(list, 0, ans)
  {
    lines, slots := [], list;
    var k := 0;
    while k < |slots|
      invariant k <= |slots| && ScanInv(list, slots, k, lines, ans)
      decreases |slots| - k
    {
      var slot := slots[k];
      assert slot == list[k] by {
        ScanInvAt(list, slots, k, lines, ans);
      }
      if slot.Some? {
        var p := slot.value;
        assert ans(p.holder) == p.holder.Holder();
        if p.holder.Holder().None? {
          ScanStall(list, slots, k, lines, ans);
          complete := false;
          return;
        }
        ScanAdvance(list, slots, k, lines, ans);
        var finalResult := p.holder.Holder().value;
        lines := lines + Report(p.methodName, finalResult);
        slots := slots[k := None];
      } else {
        ScanAdvance(list, slots, k, lines, ans);
      }
      k := k + 1;
    }
    ScanDone(list, slots, lines, ans);
    complete := true;
  }

  /**
   * The loops of the interval callback over the results map: the lines
   * logged, the map left behind, and whether the loops ran to the end
   * rather than returning at an unfinished result.
   */
  method Sweep(results: seq<PollSuite<Tester>>, ghost ans: Tester -> Option<TestResult>)
    returns (lines: seq<Line>, remaining: seq<PollSuite<Tester>>, drained: bool)
    requires Answers(results, ans)
    ensures TickOut(lines, remaining, drained) == TickFrom(results, ans)
  {
    lines, remaining := [], results;
    while remaining != []
      invariant Answers(remaining, ans)
      invariant TickFrom(results, ans).remaining == TickFrom(remaining, ans).remaining
      invariant TickFrom(results, ans).drained == TickFrom(remaining, ans).drained
      invariant TickFrom(results, ans).lines == lines + TickFrom(remaining, ans).lines
      decreases |remaining|
    {
      ghost var linesBefore := lines;
      var suite := remaining[0];
      assert SlotAnswers(suite.slots, ans);
      if !suite.isPrinted {
        lines := lines + [Header(suite.name)];
      }
      assert lines == linesBefore + HeaderOf(suite);
      var scanned, slots, complete := ScanList(suite.slots, ans);
      lines := lines + scanned;
      if !complete {
        TickHalt(results, remaining, linesBefore, lines, slots, ans);
        remaining, drained := [PollSuite(suite.name, true, slots)] + remaining[1..], false;
        return;
      }
      TickAdvance(remaining, linesBefore, lines, ans);
      remaining := remaining[1..];
    }
    drained := true;
  }

  /** One `waitForResult(results, next)` call; `active` until its interval is cleared. */
  class Waiter {
    var results: seq<PollSuite<Tester>>
    const hasNext: bool
    var active: bool

    constructor (results: seq<PollSuite<Tester>>, hasNext: bool)
      ensures this.results == results && this.hasNext == hasNext && active
    {
      this.results := results;
      this.hasNext := hasNext;
      active := true;
    }

    /**
     * The interval callback. `runNext` says the continuation is to be called
     * now; without a continuation a draining tick ends with the separator
     * and the total time.
     */
    method Tick(ghost ans: Tester -> Option<TestResult>) returns (lines: seq<Line>, runNext: bool)
      requires active && Answers(results, ans)
      modifies this
      ensures var t := TickFrom(old(results), ans);
        && results == t.remaining
        && active == !t.drained
        && runNext == (t.drained && hasNext)
        && lines == t.lines + (if t.drained && !hasNext then FINALE else [])
    {
      var drained;
      lines, results, drained := Sweep(results, ans);
      runNext := false;
      if drained {
        active := false;
        runNext := hasNext;
        if !hasNext {
          lines := lines + FINALE;
        }
      }
    }
  }
}
