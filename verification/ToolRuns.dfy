/** Running the tool calls of a text in the order of their positions. */
module ToolRuns {
  import opened Prelude
  import opened ToolOrder

  /** A tool run changes the world and yields an output or an error. */
  type Tool<!W> = (W, Args) -> (W, Result<string, string>)

  datatype ToolError = NotFound(name: string) | ExecutionFailed(tool: string, reason: string)

  /** A line of the report for each tool that ran, with the first line of its output. */
  datatype ReportLine = ReportLine(name: string, firstLine: string)

  datatype Execution = Execution(report: seq<ReportLine>, isComplete: bool, summary: Option<string>,
                                 outputs: seq<string>)

  function FirstLine(output: string): string {
    if output == "" || output[0] == '\n' || "\r\n" <= output then "" else [output[0]] + FirstLine(output[1..])
  }

  datatype Ran<W> = Ran(world: W, output: Result<string, ToolError>)

  /** It ends where the output ends or a line does. */
  lemma {:induction false} FirstLineStops(output: string)
    ensures FirstLine(output) <= output && '\n' !in FirstLine(output)
    ensures var rest := output[|FirstLine(output)|..]; rest == "" || "\n" <= rest || "\r\n" <= rest
  {
    if output != "" && output[0] != '\n' && !("\r\n" <= output) {
      FirstLineStops(output[1..]);
      assert output == [output[0]] + output[1..];
      assert output[|FirstLine(output)|..] == output[1..][|FirstLine(output[1..])|..];
    }
  }

  /** No line end begins before that. */
  lemma {:induction false} FirstLineGoesOn(output: string, i: nat)
    requires i < |FirstLine(output)| && |FirstLine(output)| <= |output|
    ensures output[i] != '\n' && !("\r\n" <= output[i..])
  {
    assert output[0..] == output;
    if i > 0 {
      FirstLineStops(output[1..]);
      FirstLineGoesOn(output[1..], i - 1);
      assert output[1..][i - 1..] == output[i..] && output[1..][i - 1] == output[i];
    }
  }

  /** It is what comes before the first line end, a line feed with or without a carriage
      return before it. */
  lemma FirstLineEnds(output: string)
    ensures var line := FirstLine(output);
            && line <= output
            && (var rest := output[|line|..]; rest == "" || "\n" <= rest || "\r\n" <= rest)
            && forall i :: 0 <= i < |line| ==> output[i] != '\n' && !("\r\n" <= output[i..])
  {
    FirstLineStops(output);
    forall i | 0 <= i < |FirstLine(output)| ensures output[i] != '\n' && !("\r\n" <= output[i..]) {
      FirstLineGoesOn(output, i);
    }
  }

  function RunOne<W>(tools: map<string, Tool<W>>, w: W, inv: Invocation): Ran<W> {
    if inv.name !in tools then Ran(w, Err(NotFound(inv.name)))
    else
      var r := tools[inv.name](w, inv.args);
      Ran(r.0, if r.1.Ok? then Ok(r.1.value) else Err(ExecutionFailed(inv.name, r.1.error)))
  }

  /** What is known after some invocations: the world and either an execution that may go
      on, or the error that ended it. */
  datatype Progress<W> = Progress(world: W, result: Result<Execution, ToolError>)

  function After<W>(p: Progress<W>, tools: map<string, Tool<W>>, inv: Invocation): Progress<W> {
    if p.result.Err? || p.result.value.isComplete then p
    else
      var e := p.result.value;
      if inv.name == DONE then
        var summary := if "summary" in inv.args then Some(inv.args["summary"]) else None;
        Progress(p.world, Ok(e.(isComplete := true, summary := summary)))
      else
        var r := RunOne(tools, p.world, inv);
        Progress(r.world, match r.output
                    case Ok(out) =>
                      Ok(e.(report := e.report + [ReportLine(inv.name, FirstLine(out))], outputs := e.outputs + [out]))
                    case Err(err) => Err(err))
  }

  function RunAll<W>(tools: map<string, Tool<W>>, w: W, invs: seq<Invocation>): Progress<W> {
    if invs == [] then Progress(w, Ok(Execution([], false, None, [])))
    else After(RunAll(tools, w, invs[..|invs| - 1]), tools, invs[|invs| - 1])
  }

  class ToolRegistry<!W> {
    var tools: map<string, Tool<W>>
    var patterns: map<string, Pattern>

    constructor ()
      ensures tools == map[] && patterns == map[]
    {
      tools, patterns := map[], map[];
    }

    method Register(name: string, tool: Tool<W>, pattern: Pattern)
      modifies this
      ensures tools == old(tools)[name := tool] && patterns == old(patterns)[name := pattern]
      ensures old(tools.Keys == patterns.Keys) ==> tools.Keys == patterns.Keys
    {
      tools := tools[name := tool];
      patterns := patterns[name := pattern];
    }

    method Parse(name: string, input: string) returns (results: seq<Invocation>)
      requires name in patterns
      ensures results == Found(patterns, input, name)
    {
      var matches := patterns[name](input);
      results := [];
      for i := 0 to |matches|
        invariant results == Parsed(name, matches[..i])
      {
        assert matches[..i + 1][..i] == matches[..i];
        if matches[i].captured.Some? {
          results := results + [Invocation(name, matches[i].captured.value, matches[i].position)];
        }
      }
      assert matches[..|matches|] == matches;
      results := Sorted(results);
    }

    /** Runs the sorted invocations one by one, up to `done` or the first failure. */
    method Execute(invocations: seq<Invocation>, w: W) returns (w': W, r: Result<Execution, ToolError>)
      ensures Progress(w', r) == RunAll(tools, w, invocations)
    {
      w' := w;
      var execution := Execution([], false, None, []);
      var i := 0;
      while i < |invocations|
        invariant 0 <= i <= |invocations| && !execution.isComplete && execution.summary == None
        invariant RunAll(tools, w, invocations[..i]) == Progress(w', Ok(execution))
      {
        var inv := invocations[i];
        assert invocations[..i + 1][..i] == invocations[..i];
        assert RunAll(tools, w, invocations[..i + 1]) == After(Progress(w', Ok(execution)), tools, inv);
        if inv.name == DONE {
          execution := execution.(isComplete := true);
          if "summary" in inv.args {
            execution := execution.(summary := Some(inv.args["summary"]));
          }
          NothingAfter(tools, w, invocations, i + 1);
          return w', Ok(execution);
        }
        var ran := RunOne(tools, w', inv);
        w' := ran.world;
        match ran.output {
          case Ok(out) =>
            execution := execution.(report := execution.report + [ReportLine(inv.name, FirstLine(out))],
                                    outputs := execution.outputs + [out]);
          case Err(e) =>
            NothingAfter(tools, w, invocations, i + 1);
            return w', Err(e);
        }
        i := i + 1;
      }
      assert invocations[..i] == invocations;
      return w', Ok(execution);
    }

    /** `visit` is the order in which the parser map happens to be iterated. */
    method ExecuteAll(input: string, visit: seq<string>, w: W) returns (w': W, r: Result<Execution, ToolError>)
      requires Visits(visit, patterns)
      ensures var invs := Sorted(Collected(patterns, input, visit));
              Progress(w', r) == RunAll(tools, w, invs) && exists n :: RunsExactly(tools, w, invs, n, Progress(w', r))
    {
      var invocations: seq<Invocation> := [];
      for i := 0 to |visit|
        invariant invocations == Collected(patterns, input, visit[..i])
      {
        assert visit[i] in visit && visit[..i + 1][..i] == visit[..i];
        var parsed := Parse(visit[i], input);
        invocations := invocations + parsed;
      }
      assert visit[..|visit|] == visit;
      w', r := Execute(Sorted(invocations), w);
      ghost var n := RunsPrefix(tools, w, Sorted(invocations));
    }
  }

  /** Once done or failed, later invocations change nothing. */
  lemma {:induction false} NothingAfter<W>(tools: map<string, Tool<W>>, w: W, invs: seq<Invocation>, n: nat)
    requires n <= |invs|
    requires var p := RunAll(tools, w, invs[..n]); p.result.Err? || p.result.value.isComplete
    ensures RunAll(tools, w, invs) == RunAll(tools, w, invs[..n])
    decreases |invs|
  {
    if n == |invs| {
      assert invs[..n] == invs;
    } else {
      var init := invs[..|invs| - 1];
      assert init[..n] == invs[..n];
      NothingAfter(tools, w, init, n);
    }
  }

  // ---- Which invocations run ----

  /** The world after the first `n` invocations were run as tools, one after the other. */
  function WorldAfter<W>(tools: map<string, Tool<W>>, w: W, invs: seq<Invocation>, n: nat): W
    requires n <= |invs|
  {
    if n == 0 then w
    else
      var before, inv := WorldAfter(tools, w, invs, n - 1), invs[n - 1];
      if inv.name in tools then tools[inv.name](before, inv.args).0 else before
  }

  /** What invocation `k` yields when the ones before it were run. */
  function OutputAt<W>(tools: map<string, Tool<W>>, w: W, invs: seq<Invocation>, k: nat): Result<string, ToolError>
    requires k < |invs|
  {
    var inv := invs[k];
    if inv.name !in tools then Err(NotFound(inv.name))
    else match tools[inv.name](WorldAfter(tools, w, invs, k), inv.args).1
         case Ok(out) => Ok(out)
         case Err(reason) => Err(ExecutionFailed(inv.name, reason))
  }

  ghost predicate AllSucceed<W>(tools: map<string, Tool<W>>, w: W, invs: seq<Invocation>, n: nat)
    requires n <= |invs|
  {
    forall k :: 0 <= k < n ==> invs[k].name != DONE && OutputAt(tools, w, invs, k).Ok?
  }

  ghost predicate OutputsAre<W>(tools: map<string, Tool<W>>, w: W, invs: seq<Invocation>, outputs: seq<string>) {
    |outputs| <= |invs| && forall k :: 0 <= k < |outputs| ==> OutputAt(tools, w, invs, k) == Ok(outputs[k])
  }

  ghost predicate ReportIs(invs: seq<Invocation>, outputs: seq<string>, report: seq<ReportLine>) {
    && |report| == |outputs| <= |invs|
    && forall k :: 0 <= k < |report| ==> report[k] == ReportLine(invs[k].name, FirstLine(outputs[k]))
  }

  /** Exactly the first `n` invocations were run: all of them, or those before the first
      `done`, or those up to the first that failed. */
  ghost predicate RunsExactly<W>(tools: map<string, Tool<W>>, w: W, invs: seq<Invocation>, n: nat, p: Progress<W>) {
    && n <= |invs| && p.world == WorldAfter(tools, w, invs, n)
    && match p.result
       case Ok(e) =>
         && AllSucceed(tools, w, invs, n)
         && (if e.isComplete then n < |invs| && invs[n].name == DONE else n == |invs|)
         && e.summary == (if e.isComplete && "summary" in invs[n].args then Some(invs[n].args["summary"]) else None)
         && |e.outputs| == n && OutputsAre(tools, w, invs, e.outputs) && ReportIs(invs, e.outputs, e.report)
       case Err(e) =>
         && n > 0 && AllSucceed(tools, w, invs, n - 1)
         && invs[n - 1].name != DONE && OutputAt(tools, w, invs, n - 1) == Err(e)
  }

  lemma {:induction false} WorldAfterPrefix<W>(tools: map<string, Tool<W>>, w: W, invs: seq<Invocation>, m: nat, n: nat)
    requires n <= m <= |invs|
    ensures WorldAfter(tools, w, invs[..m], n) == WorldAfter(tools, w, invs, n)
  {
    if n > 0 {
      WorldAfterPrefix(tools, w, invs, m, n - 1);
    }
  }

  lemma PrefixRunsAlike<W>(tools: map<string, Tool<W>>, w: W, invs: seq<Invocation>, m: nat)
    requires m <= |invs|
    ensures forall k :: 0 <= k < m ==> OutputAt(tools, w, invs[..m], k) == OutputAt(tools, w, invs, k)
    ensures forall k :: 0 <= k <= m ==> AllSucceed(tools, w, invs[..m], k) == AllSucceed(tools, w, invs, k)
    ensures forall outputs :: |outputs| <= m ==>
              OutputsAre(tools, w, invs[..m], outputs) == OutputsAre(tools, w, invs, outputs)
  {
    forall k | 0 <= k < m ensures OutputAt(tools, w, invs[..m], k) == OutputAt(tools, w, invs, k) {
      WorldAfterPrefix(tools, w, invs, m, k);
    }
  }

  lemma RunsNoFurther<W>(tools: map<string, Tool<W>>, w: W, invs: seq<Invocation>, m: nat, n: nat, p: Progress<W>)
    requires m <= |invs| && RunsExactly(tools, w, invs[..m], n, p)
    requires p.result.Err? || p.result.value.isComplete
    ensures RunsExactly(tools, w, invs, n, p)
  {
    WorldAfterPrefix(tools, w, invs, m, n);
    PrefixRunsAlike(tools, w, invs, m);
  }

  lemma {:induction false} RunsOneMore<W>(tools: map<string, Tool<W>>, w: W, invs: seq<Invocation>, p: Progress<W>)
    returns (n: nat)
    requires invs != [] && RunsExactly(tools, w, invs[..|invs| - 1], |invs| - 1, p)
    requires p.result.Ok? && !p.result.value.isComplete
    ensures RunsExactly(tools, w, invs, n, After(p, tools, invs[|invs| - 1]))
  {
    var last := |invs| - 1;
    WorldAfterPrefix(tools, w, invs, last, last);
    PrefixRunsAlike(tools, w, invs, last);
    RunsInto(tools, w, invs, p);
    n := if invs[last].name == DONE then last else last + 1;
  }

  lemma RunsInto<W>(tools: map<string, Tool<W>>, w: W, invs: seq<Invocation>, p: Progress<W>)
    requires invs != [] && p.result.Ok? && !p.result.value.isComplete && p.result.value.summary == None
    requires var last, e := |invs| - 1, p.result.value;
             && p.world == WorldAfter(tools, w, invs, last) && |e.outputs| == last
             && AllSucceed(tools, w, invs, last) && OutputsAre(tools, w, invs, e.outputs)
                && ReportIs(invs, e.outputs, e.report)
    ensures var last := |invs| - 1;
            RunsExactly(tools, w, invs, if invs[last].name == DONE then last else last + 1, After(p, tools, invs[last]))
  {
    var last, e := |invs| - 1, p.result.value;
    if invs[last].name != DONE {
      var r := RunOne(tools, p.world, invs[last]);
      assert WorldAfter(tools, w, invs, last + 1) == r.world && OutputAt(tools, w, invs, last) == r.output;
      if r.output.Ok? {
        OutputsGrow(tools, w, invs, e.outputs, r.output.value);
        ReportGrows(invs, e.outputs, e.report, r.output.value);
      }
    }
  }

  lemma OutputsGrow<W>(tools: map<string, Tool<W>>, w: W, invs: seq<Invocation>, outputs: seq<string>, out: string)
    requires OutputsAre(tools, w, invs, outputs) && AllSucceed(tools, w, invs, |outputs|) && |outputs| < |invs|
    requires invs[|outputs|].name != DONE && OutputAt(tools, w, invs, |outputs|) == Ok(out)
    ensures OutputsAre(tools, w, invs, outputs + [out])
    ensures AllSucceed(tools, w, invs, |outputs| + 1)
  {
    var n, grown := |outputs|, outputs + [out];
    forall k | 0 <= k < n + 1 ensures OutputAt(tools, w, invs, k) == Ok(grown[k]) {
      assert grown[k] == if k < n then outputs[k] else out;
    }
    forall k | 0 <= k < n + 1 ensures invs[k].name != DONE && OutputAt(tools, w, invs, k).Ok? {
      assert k < n || k == n;
    }
  }

  lemma ReportGrows(invs: seq<Invocation>, outputs: seq<string>, report: seq<ReportLine>, out: string)
    requires ReportIs(invs, outputs, report) && |outputs| < |invs|
    ensures ReportIs(invs, outputs + [out], report + [ReportLine(invs[|outputs|].name, FirstLine(out))])
  {}

  /** Every run executes exactly a prefix, as `RunsExactly` describes it. */
  lemma {:induction false} RunsPrefix<W>(tools: map<string, Tool<W>>, w: W, invs: seq<Invocation>) returns (n: nat)
    ensures RunsExactly(tools, w, invs, n, RunAll(tools, w, invs))
  {
    if invs == [] {
      n := 0;
    } else {
      var last := |invs| - 1;
      n := RunsPrefix(tools, w, invs[..last]);
      var p := RunAll(tools, w, invs[..last]);
      if p.result.Err? || p.result.value.isComplete {
        RunsNoFurther(tools, w, invs, last, n, p);
      } else {
        n := RunsOneMore(tools, w, invs, p);
      }
    }
  }

  /** Running `inv` as a tool turns `w0` into `w1` and answers `out`: the tool of that name
      gets the invocation's own arguments. */
  ghost predicate RunsTool<W>(tools: map<string, Tool<W>>, inv: Invocation, w0: W, w1: W, out: string) {
    inv.name in tools && tools[inv.name](w0, inv.args) == (w1, Ok(out))
  }

  /** Running it fails: there is no such tool and the world stays, or the tool errs. */
  ghost predicate FailsTool<W>(tools: map<string, Tool<W>>, inv: Invocation, w0: W, w1: W, e: ToolError) {
    if inv.name !in tools then w1 == w0 && e == NotFound(inv.name)
    else
      var r := tools[inv.name](w0, inv.args);
      w1 == r.0 && r.1.Err? && e == ExecutionFailed(inv.name, r.1.error)
  }

  lemma StepIsTool<W>(tools: map<string, Tool<W>>, w: W, invs: seq<Invocation>, k: nat)
    requires k < |invs|
    ensures var w0, w1 := WorldAfter(tools, w, invs, k), WorldAfter(tools, w, invs, k + 1);
            match OutputAt(tools, w, invs, k)
            case Ok(out) => RunsTool(tools, invs[k], w0, w1, out)
            case Err(e) => FailsTool(tools, invs[k], w0, w1, e)
  {}

  /** `worlds` are the worlds that the run passes through and `outs` the outputs it gets: tool
      after tool, each on its own arguments and on the world that the one before it left. */
  ghost predicate PassesThrough<W>(tools: map<string, Tool<W>>, w: W, invs: seq<Invocation>, p: Progress<W>,
                                   worlds: seq<W>, outs: seq<string>) {
    && |outs| < |worlds| <= |invs| + 1
    && worlds[0] == w && worlds[|worlds| - 1] == p.world
    && (forall k :: 0 <= k < |outs| ==> RunsTool(tools, invs[k], worlds[k], worlds[k + 1], outs[k]))
    && match p.result
       case Ok(e) => |worlds| == |outs| + 1 && e.outputs == outs
       case Err(e) =>
         |worlds| == |outs| + 2 && FailsTool(tools, invs[|outs|], worlds[|outs|], worlds[|outs| + 1], e)
  }

  lemma RunPassesThrough<W>(tools: map<string, Tool<W>>, w: W, invs: seq<Invocation>)
    returns (worlds: seq<W>, outs: seq<string>)
    ensures PassesThrough(tools, w, invs, RunAll(tools, w, invs), worlds, outs)
  {
    var n := RunsPrefix(tools, w, invs);
    var p := RunAll(tools, w, invs);
    worlds := WorldsUpTo(tools, w, invs, n);
    outs := SucceededOutputs(tools, w, invs, if p.result.Ok? then n else n - 1);
    forall k | 0 <= k < |outs| ensures RunsTool(tools, invs[k], worlds[k], worlds[k + 1], outs[k]) {
      StepIsTool(tools, w, invs, k);
    }
    if p.result.Ok? {
      assert p.result.value.outputs == outs;
    } else {
      StepIsTool(tools, w, invs, n - 1);
    }
  }

  lemma WorldsUpTo<W>(tools: map<string, Tool<W>>, w: W, invs: seq<Invocation>, n: nat) returns (worlds: seq<W>)
    requires n <= |invs|
    ensures |worlds| == n + 1 && forall k :: 0 <= k <= n ==> worlds[k] == WorldAfter(tools, w, invs, k)
  {
    if n == 0 {
      worlds := [w];
    } else {
      worlds := WorldsUpTo(tools, w, invs, n - 1);
      worlds := worlds + [WorldAfter(tools, w, invs, n)];
    }
  }

  lemma SucceededOutputs<W>(tools: map<string, Tool<W>>, w: W, invs: seq<Invocation>, n: nat)
    returns (outs: seq<string>)
    requires n <= |invs| && AllSucceed(tools, w, invs, n)
    ensures |outs| == n && forall k :: 0 <= k < n ==> OutputAt(tools, w, invs, k) == Ok(outs[k])
  {
    if n == 0 {
      outs := [];
    } else {
      outs := SucceededOutputs(tools, w, invs, n - 1);
      outs := outs + [OutputAt(tools, w, invs, n - 1).value];
    }
  }

  /** Every position that two parsers share comes after a `done`. */
  ghost predicate TiesComeAfterDone(patterns: map<string, Pattern>, input: string) {
    forall m, n, p :: Hits(patterns, input, m, p) && Hits(patterns, input, n, p) && m != n ==>
      exists q: nat :: q < p && Hits(patterns, input, DONE, q)
  }

  lemma {:induction false} FirstDoneHit(patterns: map<string, Pattern>, input: string, q: nat) returns (p: nat)
    requires Hits(patterns, input, DONE, q)
    ensures Hits(patterns, input, DONE, p) && forall k: nat :: k < p ==> !Hits(patterns, input, DONE, k)
  {
    p := q;
    if k: nat :| k < q && Hits(patterns, input, DONE, k) {
      p := FirstDoneHit(patterns, input, k);
    }
  }

  /** What a parser hits is in the sorted list. */
  lemma HitIsSorted(patterns: map<string, Pattern>, input: string, v: seq<string>, n: string, p: nat)
    returns (x: Invocation)
    requires Visits(v, patterns) && Hits(patterns, input, n, p)
    ensures x in Sorted(Collected(patterns, input, v)) && x.name == n && x.position == p
  {
    x := At(Found(patterns, input, n), p)[0];
    AtHolds(Found(patterns, input, n), p);
    FoundHolds(patterns, input, n);
    CollectedHolds(patterns, input, v, x);
    SortedOrders(Collected(patterns, input, v));
    assert x in multiset(Sorted(Collected(patterns, input, v)));
  }

  /** A list with a `done` in it is not run to its end without a failure or completion. */
  lemma DoneEnds<W>(tools: map<string, Tool<W>>, w: W, invs: seq<Invocation>, x: Invocation)
    requires x in invs && x.name == DONE
    ensures var r := RunAll(tools, w, invs).result; r.Err? || r.value.isComplete
  {
    var n := RunsPrefix(tools, w, invs);
    var i :| 0 <= i < |invs| && invs[i] == x;
  }

  /** Nothing after position `p` matters when there is a `done` at `p`. */
  lemma RunsUpToDone<W>(tools: map<string, Tool<W>>, w: W, s: seq<Invocation>, x: Invocation, p: nat)
    requires Ordered(s) && x in s && x.name == DONE && x.position == p
    ensures RunAll(tools, w, s) == RunAll(tools, w, Before(s, p + 1))
  {
    var prefix := Before(s, p + 1);
    BeforeIsPrefix(s, p + 1);
    BeforeHolds(s, p + 1);
    DoneEnds(tools, w, prefix, x);
    assert s[..|prefix|] == prefix;
    NothingAfter(tools, w, s, |prefix|);
  }

  /** Up to the first `done`, two iteration orders give one list. */
  lemma SameUpTo(patterns: map<string, Pattern>, input: string, v: seq<string>, u: seq<string>, p: nat)
    requires Visits(v, patterns) && Visits(u, patterns)
    requires TiesComeAfterDone(patterns, input) && forall k: nat :: k < p ==> !Hits(patterns, input, DONE, k)
    ensures Before(Sorted(Collected(patterns, input, v)), p + 1) == Before(Sorted(Collected(patterns, input, u)), p + 1)
  {
    var a, b := Sorted(Collected(patterns, input, v)), Sorted(Collected(patterns, input, u));
    SortedIsOrdered(Collected(patterns, input, v));
    SortedIsOrdered(Collected(patterns, input, u));
    forall q: nat | q <= p ensures At(a, q) == At(b, q) {
      SameAt(patterns, input, v, u, q);
    }
    PrefixOnce(a, b, p);
  }

  lemma OnlyBefore<W>(tools: map<string, Tool<W>>, patterns: map<string, Pattern>, input: string, v: seq<string>, w: W,
                      p: nat)
    requires Visits(v, patterns) && Hits(patterns, input, DONE, p)
    ensures var s := Sorted(Collected(patterns, input, v)); RunAll(tools, w, s) == RunAll(tools, w, Before(s, p + 1))
  {
    SortedIsOrdered(Collected(patterns, input, v));
    var x := HitIsSorted(patterns, input, v, DONE, p);
    RunsUpToDone(tools, w, Sorted(Collected(patterns, input, v)), x, p);
  }

  /** Two iteration orders give the same outputs, summary, error and final world. */
  ghost predicate RunsAlike<W>(tools: map<string, Tool<W>>, patterns: map<string, Pattern>, input: string,
                               v: seq<string>, u: seq<string>, w: W)
    requires Visits(v, patterns) && Visits(u, patterns)
  {
    RunAll(tools, w, Sorted(Collected(patterns, input, v))) == RunAll(tools, w, Sorted(Collected(patterns, input, u)))
  }

  /** When every tie comes after a `done`, all iteration orders of the parser map
      run alike. */
  lemma OrderIndependent<W>(tools: map<string, Tool<W>>, patterns: map<string, Pattern>, input: string,
                            v: seq<string>, u: seq<string>, w: W)
    requires Visits(v, patterns) && Visits(u, patterns) && TiesComeAfterDone(patterns, input)
    ensures RunsAlike(tools, patterns, input, v, u, w)
  {
    if q: nat :| Hits(patterns, input, DONE, q) {
      var p := FirstDoneHit(patterns, input, q);
      OnlyBefore(tools, patterns, input, v, w, p);
      OnlyBefore(tools, patterns, input, u, w, p);
      SameUpTo(patterns, input, v, u, p);
    } else {
      SortedOnce(patterns, input, v, u);
    }
  }

  /** Tools that only note that they ran. */
  ghost function Recorders(names: set<string>): map<string, Tool<seq<string>>> {
    map n | n in names :: (w: seq<string>, args: Args) => (w + [n], Ok(""))
  }

  /** How many invocations come before the first `done`. */
  function FirstDone(s: seq<Invocation>): (d: nat)
    ensures d <= |s| && (d < |s| ==> s[d].name == DONE)
    ensures forall i :: 0 <= i < d ==> s[i].name != DONE
  {
    if s == [] then 0
    else
      var d := FirstDone(s[..|s| - 1]);
      if d < |s| - 1 || s[|s| - 1].name == DONE then d else |s|
  }

  lemma {:induction false} RecordersRecord(names: set<string>, invs: seq<Invocation>)
    requires forall i :: 0 <= i < |invs| ==> invs[i].name in names
    ensures var p, d := RunAll(Recorders(names), [], invs), FirstDone(invs);
            p.world == Names(invs[..d]) && p.result.Ok? && (p.result.value.isComplete <==> d < |invs|)
  {
    if invs != [] {
      var init, last := invs[..|invs| - 1], invs[|invs| - 1];
      RecordersRecord(names, init);
      var d := FirstDone(init);
      assert invs[..d] == init[..d];
      if d == |init| && last.name != DONE {
        assert init[..d] == init && invs[..|invs|] == invs;
        assert Names(invs) == Names(init) + [last.name];
      }
    }
  }

  /** No `done` sorts before the place of parser `m` at `p`. */
  lemma NoDoneBefore(patterns: map<string, Pattern>, input: string, m: string, n: string, rest: seq<string>, p: nat)
    requires Hits(patterns, input, m, p) && n in patterns && Known(rest, patterns) && Known(rest + [m] + [n], patterns)
    requires forall q: nat :: q < p ==> !Hits(patterns, input, DONE, q)
    requires DONE in rest ==> !Hits(patterns, input, DONE, p)
    ensures var k := Place(Collected(patterns, input, rest), Found(patterns, input, m), Found(patterns, input, n), p);
            k <= FirstDone(Sorted(Collected(patterns, input, rest + [m] + [n])))
  {
    var r, a, b := Collected(patterns, input, rest), Found(patterns, input, m), Found(patterns, input, n);
    var c := Collected(patterns, input, rest + [m] + [n]);
    var s, k, d := Sorted(c), Place(r, a, b, p), FirstDone(Sorted(c));
    CollectedSnoc(patterns, input, rest, m);
    CollectedSnoc(patterns, input, rest + [m], n);
    EarlierIsFirst(r, a, b, p);
    if d < k {
      SortedIsOrdered(c);
      SortedHits(patterns, input, rest + [m] + [n], s[d]);
      EarlierPlaces(r, a, b, p, d);
      CollectedHolds(patterns, input, rest, s[d]);
    }
  }

  /** Whatever is in the sorted list is a hit of its parser. */
  lemma SortedHits(patterns: map<string, Pattern>, input: string, v: seq<string>, x: Invocation)
    requires Known(v, patterns) && x in Sorted(Collected(patterns, input, v))
    ensures Hits(patterns, input, x.name, x.position)
  {
    SortedOrders(Collected(patterns, input, v));
    assert x in multiset(Sorted(Collected(patterns, input, v)));
    CollectedHolds(patterns, input, v, x);
    FoundHolds(patterns, input, x.name);
    AtHolds(Found(patterns, input, x.name), x.position);
  }

  lemma EarlierThan(s: seq<Invocation>, p: nat, i: nat)
    requires Ordered(s) && i < |Before(s, p)|
    ensures i < |s| && s[i].position < p
  {
    BeforeIsPrefix(s, p);
    BeforeHolds(s, p);
    assert Before(s, p)[i] in Before(s, p);
  }

  lemma FirstAt(r: seq<Invocation>, a: seq<Invocation>, b: seq<Invocation>, p: nat)
    ensures At(r, p) <= At(r + a + b, p)
  {
    AtConcat(r + a, b, p);
    AtConcat(r, a, p);
  }

  /** What an ordered list has before and among its first invocations at `p`. */
  lemma BeforePlace(s: seq<Invocation>, r: seq<Invocation>, p: nat, i: nat)
    requires Ordered(s) && At(r, p) <= At(s, p) && i < |Before(s, p)| + |At(r, p)|
    ensures i < |s| && (s[i].position < p || (s[i].position == p && s[i] in r))
  {
    if i < |Before(s, p)| {
      EarlierThan(s, p, i);
    } else {
      var j := i - |Before(s, p)|;
      AtPlaced(s, p, j);
      AtHolds(r, p);
      assert At(r, p)[j] in At(r, p) && s[i] == At(r, p)[j];
    }
  }

  /** What sorts before the place of `a` at `p` is before `p` or stems from `r`. */
  lemma EarlierPlaces(r: seq<Invocation>, a: seq<Invocation>, b: seq<Invocation>, p: nat, i: nat)
    requires At(a, p) != [] && i < Place(r, a, b, p) && i < |Sorted(r + a + b)|
    ensures var x := Sorted(r + a + b)[i]; x.position < p || (x.position == p && x in r)
  {
    SortedIsOrdered(r + a + b);
    SortedStays(r + a + b, p);
    MiddleAt(r, a, b, p);
    FirstAt(r, a, b, p);
    BeforePlace(Sorted(r + a + b), r, p, i);
  }

  /** At a tie that no `done` precedes, there are tools and two iteration orders that leave
      different worlds. */
  lemma TiedPositionsDependOnOrder(patterns: map<string, Pattern>, input: string, m: string, n: string, p: nat)
    returns (v: seq<string>, u: seq<string>)
    requires m != n && Hits(patterns, input, m, p) && Hits(patterns, input, n, p)
    requires forall q: nat :: q < p ==> !Hits(patterns, input, DONE, q)
    ensures Visits(v, patterns) && Visits(u, patterns)
    ensures RunAll(Recorders(patterns.Keys), [], Sorted(Collected(patterns, input, v))).world
         != RunAll(Recorders(patterns.Keys), [], Sorted(Collected(patterns, input, u))).world
  {
    if Hits(patterns, input, DONE, p) {
      v, u := WorldsDiffer(patterns, input, DONE, if m == DONE then n else m, p);
    } else {
      v, u := WorldsDiffer(patterns, input, m, n, p);
    }
  }

  /** Parser `m` comes at its place and no `done` before it. */
  lemma PlacedBeforeDone(patterns: map<string, Pattern>, input: string, m: string, n: string, rest: seq<string>, p: nat)
    returns (s: seq<Invocation>)
    requires Hits(patterns, input, m, p) && n in patterns && Known(rest, patterns) && Known(rest + [m] + [n], patterns)
    requires forall q: nat :: q < p ==> !Hits(patterns, input, DONE, q)
    requires DONE in rest ==> !Hits(patterns, input, DONE, p)
    ensures s == Sorted(Collected(patterns, input, rest + [m] + [n]))
    ensures var k := Place(Collected(patterns, input, rest), Found(patterns, input, m), Found(patterns, input, n), p);
            NamedAt(s, k, m) && k <= FirstDone(s)
    ensures RunAll(Recorders(patterns.Keys), [], s).world == Names(s[..FirstDone(s)])
  {
    s := Sorted(Collected(patterns, input, rest + [m] + [n]));
    EarlierVisitedIsFirst(patterns, input, m, n, rest, p);
    NoDoneBefore(patterns, input, m, n, rest, p);
    NamesKnown(patterns, input, rest + [m] + [n]);
    RecordersRecord(patterns.Keys, s);
  }

  lemma WorldsDiffer(patterns: map<string, Pattern>, input: string, m: string, n: string, p: nat)
    returns (v: seq<string>, u: seq<string>)
    requires m != n && Hits(patterns, input, m, p) && Hits(patterns, input, n, p) && n != DONE
    requires forall q: nat :: q < p ==> !Hits(patterns, input, DONE, q)
    requires m != DONE ==> !Hits(patterns, input, DONE, p)
    ensures Visits(v, patterns) && Visits(u, patterns)
    ensures RunAll(Recorders(patterns.Keys), [], Sorted(Collected(patterns, input, v))).world
         != RunAll(Recorders(patterns.Keys), [], Sorted(Collected(patterns, input, u))).world
  {
    var rest := OtherParsers(patterns, m, n);
    v, u := rest + [m] + [n], rest + [n] + [m];
    var s := PlacedBeforeDone(patterns, input, m, n, rest, p);
    var t := PlacedBeforeDone(patterns, input, n, m, rest, p);
    var r, a, b := Collected(patterns, input, rest), Found(patterns, input, m), Found(patterns, input, n);
    assert Place(r, a, b, p) == Place(r, b, a, p);
    RecordsDiffer(s, t, Place(r, a, b, p), m, n);
  }

  lemma RecordsDiffer(a: seq<Invocation>, b: seq<Invocation>, k: nat, m: string, n: string)
    requires NamedAt(a, k, m) && NamedAt(b, k, n) && m != n && n != DONE
    requires k <= FirstDone(a) && k <= FirstDone(b)
    ensures Names(a[..FirstDone(a)]) != Names(b[..FirstDone(b)])
  {
    var x, y := Names(a[..FirstDone(a)]), Names(b[..FirstDone(b)]);
    assert |x| == FirstDone(a) && |y| == FirstDone(b) && k < |y| && y[k] == n;
    if k < |x| {
      assert x[k] == m;
    }
  }

  /** All iteration orders leave one world and one result, whatever the tools do, if and only
      if every tie comes after a `done`. */
  lemma OrderIndependentExactly(patterns: map<string, Pattern>, input: string)
    ensures TiesComeAfterDone(patterns, input)
       <==> forall v, u, tools: map<string, Tool<seq<string>>>, w: seq<string> ::
              Visits(v, patterns) && Visits(u, patterns) ==> RunsAlike(tools, patterns, input, v, u, w)
  {
    if TiesComeAfterDone(patterns, input) {
      forall v, u, tools: map<string, Tool<seq<string>>>, w: seq<string> | Visits(v, patterns) && Visits(u, patterns)
        ensures RunsAlike(tools, patterns, input, v, u, w)
      {
        OrderIndependent(tools, patterns, input, v, u, w);
      }
    } else {
      var m, n, p :| Hits(patterns, input, m, p) && Hits(patterns, input, n, p) && m != n
                     && !exists q: nat :: q < p && Hits(patterns, input, DONE, q);
      var v, u := TiedPositionsDependOnOrder(patterns, input, m, n, p);
      assert !RunsAlike(Recorders(patterns.Keys), patterns, input, v, u, []);
    }
  }

  lemma NamesKnown(patterns: map<string, Pattern>, input: string, v: seq<string>)
    requires Known(v, patterns)
    ensures var s := Sorted(Collected(patterns, input, v)); forall i :: 0 <= i < |s| ==> s[i].name in patterns
  {
    var c := Collected(patterns, input, v);
    SortedOrders(c);
    forall i | 0 <= i < |Sorted(c)| ensures Sorted(c)[i].name in patterns {
      assert Sorted(c)[i] in multiset(Sorted(c));
      CollectedHolds(patterns, input, v, Sorted(c)[i]);
    }
  }
}
