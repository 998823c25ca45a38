/**
 * The `jadi.test.TestContext` object: an insertion-ordered map from suite
 * name to the list of `{path, case}` entries registered under it. Each test
 * case is registered with its parameter-bound methods: a method for which
 * the injector resolved parameters is replaced by a wrapper that calls the
 * original with those parameters.
 *
 * The ordered map is a sequence of suites with distinct names; a suite's
 * position is the order in which its name was first used.
 */
module Suites {
  import opened JsValues
  import opened Testers

  /** The value of an own property of a test case object. */
  datatype PropValue =
    | Method(run: seq<Value> -> Body)   // a function; `run(args)` is how a call with `args` behaves
    | Field(value: Value)               // anything that is not a function

  datatype Prop = Prop(name: string, value: PropValue)

  /** A test case object: its own enumerable properties in enumeration order. */
  type TestCase = seq<Prop>

  datatype Entry = Entry(path: string, testCase: TestCase)

  datatype Suite = Suite(name: string, entries: seq<Entry>)

  /**
   * The `test` metadata of a definition: its `suite` (None when undefined)
   * and the parameters the injector resolved from its `injectMethods`, by
   * method name.
   */
  datatype Metadata = Metadata(suite: Option<string>, parameters: map<string, seq<Value>>)

  const DEFAULT_SUITE := "default"

  /** `context.suite || "default"`. */
  function SuiteName(m: Metadata): string
  {
    if m.suite.Some? && m.suite.value != "" then m.suite.value else DEFAULT_SUITE
  }

  /** The interceptor callback applied to one property. */
  function BindProp(p: Prop, parameters: map<string, seq<Value>>): Prop
  {
    if p.value.Method? && p.name in parameters then
      var run, args := p.value.run, parameters[p.name];
      Prop(p.name, Method((_: seq<Value>) => run(args)))
    else p
  }

  /**
   * The test case as `aop.intercept` returns it: same properties in the same
   * order; a method with resolved parameters ignores its call arguments and
   * runs the original with the parameters; every other property is kept.
   */
  function Bind(testCase: TestCase, parameters: map<string, seq<Value>>): (r: TestCase)
    ensures |r| == |testCase|
    ensures forall i :: 0 <= i < |r| ==> r[i].name == testCase[i].name && r[i].value.Method? == testCase[i].value.Method?
    ensures forall i :: 0 <= i < |r| && !(testCase[i].value.Method? && testCase[i].name in parameters) ==>
              r[i] == testCase[i]
    ensures forall i, args :: 0 <= i < |r| && testCase[i].value.Method? && testCase[i].name in parameters ==>
              r[i].value.run(args) == testCase[i].value.run(parameters[testCase[i].name])
  {
    seq(|testCase|, i requires 0 <= i < |testCase| => BindProp(testCase[i], parameters))
  }

  ghost predicate DistinctNames(suites: seq<Suite>)
  {
    forall i, j :: 0 <= i < j < |suites| ==> suites[i].name != suites[j].name
  }

  /** The position of a suite name in the map, as the property lookup `suites[name]` finds it. */
  function Find(suites: seq<Suite>, name: string): (r: Option<nat>)
    ensures r.Some? ==> r.value < |suites| && suites[r.value].name == name
    ensures r.None? <==> forall i :: 0 <= i < |suites| ==> suites[i].name != name
  {
    if suites == [] then None
    else if suites[0].name == name then Some(0)
    else match Find(suites[1..], name)
      case Some(i) => Some(i + 1)
      case None => None
  }

  /** The entries registered under `name`; none when the name is absent. */
  function EntriesOf(suites: seq<Suite>, name: string): seq<Entry>
  {
    match Find(suites, name)
    case Some(i) => suites[i].entries
    case None => []
  }

  /** `getCreateIfAbsent`: the map with a list under `name`, a new empty one appended if absent. */
  function CreateIfAbsent(suites: seq<Suite>, name: string): (r: seq<Suite>)
    requires DistinctNames(suites)
    ensures DistinctNames(r)
    ensures Find(r, name).Some?
    ensures Find(suites, name).Some? ==> r == suites
    ensures Find(suites, name).None? ==> r == suites + [Suite(name, [])]
  {
    if Find(suites, name).Some? then suites
    else
      var r := suites + [Suite(name, [])];
      assert r[|suites|].name == name;
      r
  }

  /**
   * `getCia(suites, name).push(entry)`: the entry is appended to the list
   * under `name`, which is created at the end of the map when absent; every
   * other suite keeps its place and its entries.
   */
  function AddEntry(suites: seq<Suite>, name: string, entry: Entry): (r: seq<Suite>)
    requires DistinctNames(suites)
    ensures DistinctNames(r)
    ensures |r| == if Find(suites, name).Some? then |suites| else |suites| + 1
    ensures forall i :: 0 <= i < |suites| ==> r[i].name == suites[i].name
    ensures forall n :: EntriesOf(r, n) == if n == name then EntriesOf(suites, n) + [entry] else EntriesOf(suites, n)
  {
    var c := CreateIfAbsent(suites, name);
    var i := Find(c, name).value;
    var r := c[i := c[i].(entries := c[i].entries + [entry])];
    AddedEntries(suites, name, entry, r);
    r
  }

  lemma AddedEntries(suites: seq<Suite>, name: string, entry: Entry, r: seq<Suite>)
    requires DistinctNames(suites)
    requires r == var c := CreateIfAbsent(suites, name); var i := Find(c, name).value; c[i := c[i].(entries := c[i].entries + [entry])]
    ensures forall n :: EntriesOf(r, n) == if n == name then EntriesOf(suites, n) + [entry] else EntriesOf(suites, n)
  {
    var c := CreateIfAbsent(suites, name);
    var i := Find(c, name).value;
    forall n
      ensures EntriesOf(r, n) == if n == name then EntriesOf(suites, n) + [entry] else EntriesOf(suites, n)
    {
      var f := Find(r, n);
      if f.Some? {
        var j := f.value;
        FindUnique(c, n, j);
        if j < |suites| {
          FindUnique(suites, n, j);
        } else {
          assert Find(suites, name).None?;
        }
      } else {
        assert r[i].name == name;
        assert Find(c, n).None? by {
          forall k | 0 <= k < |c| ensures c[k].name != n {
            assert c[k].name == r[k].name;
          }
        }
        assert Find(suites, n).None? by {
          forall k | 0 <= k < |suites| ensures suites[k].name != n {
            assert c[k].name == suites[k].name;
          }
        }
      }
    }
  }

  /** In a map with distinct names, where `name` sits is where Find puts it. */
  lemma FindUnique(suites: seq<Suite>, name: string, i: nat)
    requires DistinctNames(suites) && i < |suites|
    ensures suites[i].name == name ==> Find(suites, name) == Some(i)
    ensures suites[i].name != name ==> Find(suites, name) != Some(i)
  {
  }

  class TestContext {
    var suites: seq<Suite>

    ghost predicate Valid()
      reads this
    {
      DistinctNames(suites)
    }

    constructor ()
      ensures Valid() && suites == []
    {
      suites := [];
    }

    /** `getCia(suites, name)`, answering the position of the list it returns. */
    method GetCia(name: string) returns (i: nat)
      requires Valid()
      modifies this
      ensures Valid()
      ensures suites == CreateIfAbsent(old(suites), name)
      ensures i < |suites| && suites[i].name == name
    {
      var found := Find(suites, name);
      if found.Some? {
        i := found.value;
      } else {
        suites := suites + [Suite(name, [])];
        i := |suites| - 1;
      }
    }

    method AddCase(context: Metadata, path: string, testCase: TestCase)
      requires Valid()
      modifies this
      ensures Valid()
      ensures suites == AddEntry(old(suites), SuiteName(context), Entry(path, Bind(testCase, context.parameters)))
    {
      var suiteName := SuiteName(context);
      var bound := Bind(testCase, context.parameters);
      var i := GetCia(suiteName);
      FindUnique(suites, suiteName, i);
      suites := suites[i := suites[i].(entries := suites[i].entries + [Entry(path, bound)])];
    }

    function GetSuites(): seq<Suite>
      reads this
    {
      suites
    }
  }
}
