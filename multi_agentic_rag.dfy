/** The orchestrator of core/multi_agentic_rag.py: it builds the two data
    agents and the five report-part agents around one model and one
    company, and `generate_report` runs the parts in order into an ordered
    report, calling the progress callback after each part is stored. */
module MultiAgenticRag {
  import opened Wrappers
  import opened Text
  import opened OrderedDict
  import opened StructuredData
  import opened Services
  import opened FieldLoop
  import ReportPart1
  import ReportPart2
  import ReportPart3
  import ReportPart4
  import ReportPart5

  /** The report's keys, in the order of the agents list. */
  const PartNames := ["Part I", "Part II", "Part III", "Part IV", "Part V"]

  /** The state of `generate_report`'s loop: the report, or the error that
      ended it; the model, search and structured-agent calls made, in
      order; and, for each progress call, how many parts were stored. */
  datatype ReportRun = ReportRun(outcome: Result<Dict<Dict<string>>>, trace: Trace, progress: seq<nat>)

  /** What one part agent's `generate_response` works from: its calls'
      environment, its prompt template and its subtask table. */
  datatype Job = Job(env: Env, template: Template, tasks: seq<Task>)

  /** The run of each job, in list order. */
  function RunEach(jobs: seq<Job>): seq<PartRun>
  {
    seq(|jobs|, k requires 0 <= k < |jobs| => Run(jobs[k].env, jobs[k].template, jobs[k].tasks))
  }

  /** The calls of one part, after those made before it. */
  function Then(before: Trace, after: Trace): Trace
  {
    Trace(before.queries + after.queries, before.lookups + after.lookups, before.prompts + after.prompts)
  }

  /** One iteration: run the part, store its dictionary under its name and
      report progress; a part that raises ends the report, and after that
      nothing more happens. */
  function Advance(prev: ReportRun, name: string, part: PartRun): ReportRun
  {
    if prev.outcome.Failure? then prev
    else
      var trace := Then(prev.trace, part.trace);
      match part.outcome
      case Failure(e) => ReportRun(Failure(e), trace, prev.progress)
      case Success(content) =>
        var report := Put(prev.outcome.value, name, content);
        ReportRun(Success(report), trace, prev.progress + [|report|])
  }

  /** The loop over the parts, from an empty report. */
  function Orchestrate(names: seq<string>, parts: seq<PartRun>): ReportRun
    requires |names| == |parts|
  {
    if parts == [] then ReportRun(Success([]), Trace([], [], []), [])
    else
      var m := |parts| - 1;
      Advance(Orchestrate(names[..m], parts[..m]), names[m], parts[m])
  }

  /** The calls of a list of parts, one part after the other. */
  function Calls(parts: seq<PartRun>): Trace
  {
    if parts == [] then Trace([], [], [])
    else Then(Calls(parts[..|parts| - 1]), parts[|parts| - 1].trace)
  }

  /** The index of the first part that raised, or the number of parts
      when none did. */
  function Stop(parts: seq<PartRun>): (j: nat)
    ensures j <= |parts|
    ensures forall k :: 0 <= k < j ==> parts[k].outcome.Success?
    ensures j < |parts| ==> parts[j].outcome.Failure?
  {
    if parts == [] then 0
    else
      var m := |parts| - 1;
      var s := Stop(parts[..m]);
      if s < m then s else if parts[m].outcome.Failure? then m else |parts|
  }

  /** The report succeeds exactly when no part raises; otherwise it fails
      with the error of the first part that raised, the parts after it are
      never started, and the callback has fired once per part stored
      before it. */
  lemma OrchestrateStop(names: seq<string>, parts: seq<PartRun>)
    requires |names| == |parts|
    ensures var run := Orchestrate(names, parts);
            var j := Stop(parts);
            && (run.outcome.Success? <==> j == |parts|)
            && (j < |parts| ==> run.outcome.error == parts[j].outcome.error
                                && run.trace == Calls(parts[..j + 1]))
            && (j == |parts| ==> run.trace == Calls(parts))
            && |run.progress| == j
  {
    OrchestrateOutcome(names, parts);
    OrchestrateCalls(names, parts);
  }

  /** The outcome and the progress calls of the loop, by the first part
      that raised. */
  lemma {:induction false} OrchestrateOutcome(names: seq<string>, parts: seq<PartRun>)
    requires |names| == |parts|
    ensures var run := Orchestrate(names, parts);
            var j := Stop(parts);
            && (run.outcome.Success? <==> j == |parts|)
            && (j < |parts| ==> run.outcome.error == parts[j].outcome.error)
            && |run.progress| == j
  {
    if parts != [] {
      var m := |parts| - 1;
      OrchestrateOutcome(names[..m], parts[..m]);
    }
  }

  /** The calls of the loop are those of the parts up to the first that
      raised. */
  lemma OrchestrateCalls(names: seq<string>, parts: seq<PartRun>)
    requires |names| == |parts|
    ensures var run := Orchestrate(names, parts);
            var j := Stop(parts);
            && (j < |parts| ==> run.trace == Calls(parts[..j + 1]))
            && (j == |parts| ==> run.trace == Calls(parts))
  {
    var j := Stop(parts);
    if j < |parts| {
      var n, p := names[..j + 1], parts[..j + 1];
      assert p[j] == parts[j];
      OrchestrateOutcome(n, p);
      OrchestrateAbsorbs(names, parts, j + 1);
      OrchestrateCallsBeforeStop(n, p);
    } else {
      OrchestrateCallsBeforeStop(names, parts);
    }
  }

  /** While every part but the last succeeds, the loop makes the calls of
      all of them. */
  lemma {:induction false} OrchestrateCallsBeforeStop(names: seq<string>, parts: seq<PartRun>)
    requires |names| == |parts|
    requires forall k :: 0 <= k < |parts| - 1 ==> parts[k].outcome.Success?
    ensures Orchestrate(names, parts).trace == Calls(parts)
  {
    if parts != [] {
      var m := |parts| - 1;
      OrchestrateCallsBeforeStop(names[..m], parts[..m]);
      OrchestrateOutcome(names[..m], parts[..m]);
    }
  }

  /** A part that raises stops the report: no later part changes it. */
  lemma {:induction false} OrchestrateAbsorbs(names: seq<string>, parts: seq<PartRun>, i: nat)
    requires |names| == |parts| && i <= |parts|
    requires Orchestrate(names[..i], parts[..i]).outcome.Failure?
    ensures Orchestrate(names, parts) == Orchestrate(names[..i], parts[..i])
  {
    if i < |parts| {
      var m := |parts| - 1;
      assert names[..m][..i] == names[..i] && parts[..m][..i] == parts[..i];
      OrchestrateAbsorbs(names[..m], parts[..m], i);
    } else {
      assert names[..i] == names && parts[..i] == parts;
    }
  }

  /** With distinct names, a successful report holds one entry per part,
      in list order, each the dictionary that part returned; so its keys
      are the names in order. The callback fires with 1, 2, ... parts
      stored: once per part, after that part is stored. */
  lemma {:induction false} OrchestrateReport(names: seq<string>, parts: seq<PartRun>)
    requires |names| == |parts| && Distinct(names)
    ensures ReportShape(names, parts, Orchestrate(names, parts))
  {
    if parts != [] {
      var m := |parts| - 1;
      OrchestrateReport(names[..m], parts[..m]);
      var prev := Orchestrate(names[..m], parts[..m]);
      if prev.outcome.Success? && parts[m].outcome.Success? {
        StoredPartShape(names, parts, prev);
      }
    }
  }

  /** The report after its parts, as `OrchestrateReport` states it. */
  ghost predicate ReportShape(names: seq<string>, parts: seq<PartRun>, run: ReportRun)
    requires |names| == |parts|
  {
    && (forall k :: 0 <= k < |run.progress| ==> run.progress[k] == k + 1)
    && (run.outcome.Success? ==>
          && |run.outcome.value| == |run.progress| == |parts|
          && Keys(run.outcome.value) == names
          && forall k :: 0 <= k < |parts| ==>
               parts[k].outcome.Success? && run.outcome.value[k] == (names[k], parts[k].outcome.value))
  }

  lemma StoredPartShape(names: seq<string>, parts: seq<PartRun>, prev: ReportRun)
    requires |names| == |parts| && parts != [] && Distinct(names)
    requires prev.outcome.Success? && parts[|parts| - 1].outcome.Success?
    requires ReportShape(names[..|parts| - 1], parts[..|parts| - 1], prev)
    ensures ReportShape(names, parts, Advance(prev, names[|parts| - 1], parts[|parts| - 1]))
  {
    var m := |parts| - 1;
    var d := prev.outcome.value;
    assert names[m] !in Keys(d) by {
      forall k | 0 <= k < |d| ensures Keys(d)[k] != names[m] {
        assert d[k].0 == names[k];
      }
    }
    var next := Advance(prev, names[m], parts[m]);
    assert next.outcome.value == d + [(names[m], parts[m].outcome.value)];
    assert Keys(next.outcome.value) == Keys(d) + [names[m]];
    assert names[..m] + [names[m]] == names;
  }

  /** The loop's step for a part that returns: its dictionary is stored
      under its name, its calls are added, and the callback fires. */
  lemma ReportAdvances(names: seq<string>, parts: seq<PartRun>, i: nat,
                       report: Dict<Dict<string>>, trace: Trace, calls: seq<nat>)
    requires |names| == |parts| && i < |parts| && parts[i].outcome.Success?
    requires Orchestrate(names[..i], parts[..i]) == ReportRun(Success(report), trace, calls)
    ensures var stored := Put(report, names[i], parts[i].outcome.value);
            Orchestrate(names[..i + 1], parts[..i + 1])
            == ReportRun(Success(stored), Then(trace, parts[i].trace), calls + [|stored|])
  {
    assert names[..i + 1][..i] == names[..i] && parts[..i + 1][..i] == parts[..i];
  }

  /** The loop's step for a part that raises: the report fails with its
      error after its calls, and no later part runs. */
  lemma ReportStops(names: seq<string>, parts: seq<PartRun>, i: nat,
                    report: Dict<Dict<string>>, trace: Trace, calls: seq<nat>)
    requires |names| == |parts| && i < |parts| && parts[i].outcome.Failure?
    requires Orchestrate(names[..i], parts[..i]) == ReportRun(Success(report), trace, calls)
    ensures Orchestrate(names, parts)
            == ReportRun(Failure(parts[i].outcome.error), Then(trace, parts[i].trace), calls)
  {
    assert names[..i + 1][..i] == names[..i] && parts[..i + 1][..i] == parts[..i];
    OrchestrateAbsorbs(names, parts, i + 1);
  }

  /** No name occurs twice. */
  predicate Distinct(names: seq<string>)
  {
    forall i, j :: 0 <= i < j < |names| ==> names[i] != names[j]
  }

  /** The report over the five parts: when every part succeeds, its keys
      are "Part I" to "Part V" in order, each holding that part's
      dictionary, and the callback was told 1, 2, 3, 4, then 5 parts were
      stored. */
  lemma FiveParts(parts: seq<PartRun>)
    requires |parts| == |PartNames|
    ensures ReportShape(PartNames, parts, Orchestrate(PartNames, parts))
  {
    assert Distinct(PartNames);
    OrchestrateReport(PartNames, parts);
  }

  /** A progress callback. Calling it has no effect on the report; the
      model records, for each call, how many parts were stored. */
  class ProgressCallback {
    ghost var storedAtCall: seq<nat>

    constructor ()
      ensures storedAtCall == []
    {
      storedAtCall := [];
    }

    /** `progress_callback()`. */
    method Call(ghost partsStored: nat)
      modifies this
      ensures storedAtCall == old(storedAtCall) + [partsStored]
    {
      storedAtCall := storedAtCall + [partsStored];
    }
  }

  /** `MultiAgenticRAG`: the model, the company, the two data agents and
      the five part agents. */
  class MultiAgenticRAG {
    const llm: GroqLlm
    const companyName: string
    const structuredAgent: StructuredDataAgent
    const unstructuredAgent: UnstructuredDataAgent
    const part1: ReportPart1.ReportPart1Agent
    const part2: ReportPart2.ReportPart2Agent
    const part3: ReportPart3.ReportPart3Agent
    const part4: ReportPart4.ReportPart4Agent
    const part5: ReportPart5.ReportPart5Agent
    /** What each part's `generate_response` returns and calls. */
    ghost const parts: seq<PartRun>

    /** Every part agent holds the orchestrator's model, data agents and
        company, and `parts` holds their runs, in list order. */
    ghost predicate Valid()
    {
      Wired() && parts == Runs()
    }

    /** The five part agents share the orchestrator's model, data agents
        and company. */
    ghost predicate Wired()
    {
      && part1.llm == llm && part1.structuredAgent == structuredAgent
      && part1.unstructuredAgent == unstructuredAgent && part1.companyName == companyName
      && part2.llm == llm && part2.structuredAgent == structuredAgent
      && part2.unstructuredAgent == unstructuredAgent && part2.companyName == companyName
      && part3.llm == llm && part3.structuredAgent == structuredAgent
      && part3.unstructuredAgent == unstructuredAgent && part3.companyName == companyName
      && part4.llm == llm && part4.structuredAgent == structuredAgent
      && part4.unstructuredAgent == unstructuredAgent && part4.companyName == companyName
      && part5.llm == llm && part5.structuredAgent == structuredAgent
      && part5.unstructuredAgent == unstructuredAgent && part5.companyName == companyName
    }

    /** The five part agents' jobs, in list order. */
    ghost function Jobs(): seq<Job>
    {
      [Job(part1.Environment(), ReportPart1.PartTemplate, part1.subtasks),
       Job(part2.Environment(), ReportPart2.PartTemplate, part2.subtasks),
       Job(part3.Environment(), ReportPart3.PartTemplate, part3.subtasks),
       Job(part4.Environment(), ReportPart4.PartTemplate, part4.subtasks),
       Job(part5.Environment(), ReportPart5.PartTemplate, part5.subtasks)]
    }

    /** What the five agents' `generate_response` return and call. */
    ghost function Runs(): seq<PartRun>
    {
      RunEach(Jobs())
    }

    /** `__init__`: the structured agent over the loaded rows, the
        unstructured agent over the vector store's search, and the five
        part agents sharing them. `recordsJson` stands for pandas'
        `to_json(orient='records')`. */
    constructor (llm: GroqLlm, companyName: string, structuredData: seq<Row>,
                 similaritySearch: string -> Result<seq<string>>, recordsJson: seq<Row> -> string)
      ensures Valid()
      ensures this.llm == llm && this.companyName == companyName
      ensures fresh(structuredAgent) && structuredAgent.structuredData == structuredData
      ensures fresh(unstructuredAgent) && unstructuredAgent.similaritySearch == similaritySearch
      ensures part1.recordsJson == recordsJson && part2.recordsJson == recordsJson
      ensures part3.recordsJson == recordsJson
      ensures part1.subtasks == ReportPart1.Tasks(companyName) && part2.subtasks == ReportPart2.Tasks(companyName)
      ensures part3.subtasks == ReportPart3.Tasks(companyName) && part4.subtasks == ReportPart4.Tasks(companyName)
      ensures part5.subtasks == ReportPart5.Tasks(companyName)
      ensures structuredAgent.queries == [] && unstructuredAgent.queries == []
    {
      var structured := new StructuredDataAgent(structuredData);
      var unstructured := new UnstructuredDataAgent(similaritySearch);
      var p1 := new ReportPart1.ReportPart1Agent(llm, structured, unstructured, companyName, recordsJson);
      var p2 := new ReportPart2.ReportPart2Agent(llm, structured, unstructured, companyName, recordsJson);
      var p3 := new ReportPart3.ReportPart3Agent(llm, structured, unstructured, companyName, recordsJson);
      var p4 := new ReportPart4.ReportPart4Agent(llm, structured, unstructured, companyName);
      var p5 := new ReportPart5.ReportPart5Agent(llm, structured, unstructured, companyName);
      this.llm := llm;
      this.companyName := companyName;
      structuredAgent := structured;
      unstructuredAgent := unstructured;
      part1, part2, part3, part4, part5 := p1, p2, p3, p4, p5;
      parts := RunEach([Job(p1.Environment(), ReportPart1.PartTemplate, p1.subtasks),
                        Job(p2.Environment(), ReportPart2.PartTemplate, p2.subtasks),
                        Job(p3.Environment(), ReportPart3.PartTemplate, p3.subtasks),
                        Job(p4.Environment(), ReportPart4.PartTemplate, p4.subtasks),
                        Job(p5.Environment(), ReportPart5.PartTemplate, p5.subtasks)]);
    }

    /** `generate_report(progress_callback)`: the parts in list order,
        each stored under its name, with one callback call after each
        part is stored when a callback is given; an error from a part
        propagates and no report is returned. */
    method GenerateReport(progress: ProgressCallback?) returns (r: Result<Dict<Dict<string>>>)
      requires Valid()
      modifies llm, structuredAgent, unstructuredAgent, progress
      ensures var run := Orchestrate(PartNames, parts);
              && r == run.outcome
              && llm.prompts == old(llm.prompts) + run.trace.prompts
              && unstructuredAgent.queries == old(unstructuredAgent.queries) + run.trace.queries
              && structuredAgent.queries == old(structuredAgent.queries) + run.trace.lookups
              && (progress != null ==> progress.storedAtCall == old(progress.storedAtCall) + run.progress)
    {
      var report: Dict<Dict<string>> := [];
      ghost var trace := Trace([], [], []);
      ghost var calls: seq<nat> := [];
      for i := 0 to |PartNames|
        invariant Orchestrate(PartNames[..i], parts[..i]) == ReportRun(Success(report), trace, calls)
        invariant Logged(llm, unstructuredAgent, structuredAgent, old(llm.prompts),
                         old(unstructuredAgent.queries), old(structuredAgent.queries), trace)
        invariant progress != null ==> progress.storedAtCall == old(progress.storedAtCall) + calls
      {
        var content := GeneratePart(i);
        ConcatAssoc(old(llm.prompts), trace.prompts, parts[i].trace.prompts);
        ConcatAssoc(old(unstructuredAgent.queries), trace.queries, parts[i].trace.queries);
        ConcatAssoc(old(structuredAgent.queries), trace.lookups, parts[i].trace.lookups);
        if content.Failure? {
          ReportStops(PartNames, parts, i, report, trace, calls);
          return Failure(content.error);
        }
        ReportAdvances(PartNames, parts, i, report, trace, calls);
        report := Put(report, PartNames[i], content.value);
        trace := Then(trace, parts[i].trace);
        calls := calls + [|report|];
        if progress != null {
          progress.Call(|report|);
          ConcatAssoc(old(progress.storedAtCall), calls[..|calls| - 1], [|report|]);
          assert calls[..|calls| - 1] + [|report|] == calls;
        }
      }
      assert PartNames[..|PartNames|] == PartNames;
      assert parts[..|parts|] == parts;
      r := Success(report);
    }

    /** `agent.generate_response()` for the agent at position `i` of the
        agents list. */
    method GeneratePart(i: nat) returns (r: Result<Dict<string>>)
      requires Valid() && i < 5
      modifies llm, structuredAgent, unstructuredAgent
      ensures r == parts[i].outcome
      ensures llm.prompts == old(llm.prompts) + parts[i].trace.prompts
      ensures unstructuredAgent.queries == old(unstructuredAgent.queries) + parts[i].trace.queries
      ensures structuredAgent.queries == old(structuredAgent.queries) + parts[i].trace.lookups
    {
      if i == 0 {
        r := GeneratePart1();
      } else if i == 1 {
        r := GeneratePart2();
      } else if i == 2 {
        r := GeneratePart3();
      } else if i == 3 {
        r := GeneratePart4();
      } else {
        r := GeneratePart5();
      }
    }

    /** Part I's `generate_response()`. */
    method GeneratePart1() returns (r: Result<Dict<string>>)
      requires Valid()
      modifies llm, structuredAgent, unstructuredAgent
      ensures r == parts[0].outcome
      ensures llm.prompts == old(llm.prompts) + parts[0].trace.prompts
      ensures unstructuredAgent.queries == old(unstructuredAgent.queries) + parts[0].trace.queries
      ensures structuredAgent.queries == old(structuredAgent.queries) + parts[0].trace.lookups
    {
      ghost var run := Run(part1.Environment(), ReportPart1.PartTemplate, part1.subtasks);
      assert parts[0] == run;
      r := part1.GenerateResponse();
    }

    /** Part II's `generate_response()`. */
    method GeneratePart2() returns (r: Result<Dict<string>>)
      requires Valid()
      modifies llm, structuredAgent, unstructuredAgent
      ensures r == parts[1].outcome
      ensures llm.prompts == old(llm.prompts) + parts[1].trace.prompts
      ensures unstructuredAgent.queries == old(unstructuredAgent.queries) + parts[1].trace.queries
      ensures structuredAgent.queries == old(structuredAgent.queries) + parts[1].trace.lookups
    {
      ghost var run := Run(part2.Environment(), ReportPart2.PartTemplate, part2.subtasks);
      assert parts[1] == run;
      r := part2.GenerateResponse();
    }

    /** Part III's `generate_response()`. */
    method GeneratePart3() returns (r: Result<Dict<string>>)
      requires Valid()
      modifies llm, structuredAgent, unstructuredAgent
      ensures r == parts[2].outcome
      ensures llm.prompts == old(llm.prompts) + parts[2].trace.prompts
      ensures unstructuredAgent.queries == old(unstructuredAgent.queries) + parts[2].trace.queries
      ensures structuredAgent.queries == old(structuredAgent.queries) + parts[2].trace.lookups
    {
      ghost var run := Run(part3.Environment(), ReportPart3.PartTemplate, part3.subtasks);
      assert parts[2] == run;
      r := part3.GenerateResponse();
    }

    /** Part IV's `generate_response()`. */
    method GeneratePart4() returns (r: Result<Dict<string>>)
      requires Valid()
      modifies llm, unstructuredAgent
      ensures r == parts[3].outcome
      ensures llm.prompts == old(llm.prompts) + parts[3].trace.prompts
      ensures unstructuredAgent.queries == old(unstructuredAgent.queries) + parts[3].trace.queries
      ensures structuredAgent.queries == old(structuredAgent.queries) + parts[3].trace.lookups
    {
      ghost var run := Run(part4.Environment(), ReportPart4.PartTemplate, part4.subtasks);
      assert parts[3] == run;
      r := part4.GenerateResponse();
      ReportPart4.PartPrompts(part4.Environment(), part4.subtasks);
    }

    /** Part V's `generate_response()`. */
    method GeneratePart5() returns (r: Result<Dict<string>>)
      requires Valid()
      modifies llm, unstructuredAgent
      ensures r == parts[4].outcome
      ensures llm.prompts == old(llm.prompts) + parts[4].trace.prompts
      ensures unstructuredAgent.queries == old(unstructuredAgent.queries) + parts[4].trace.queries
      ensures structuredAgent.queries == old(structuredAgent.queries) + parts[4].trace.lookups
    {
      ghost var run := Run(part5.Environment(), ReportPart5.PartTemplate, part5.subtasks);
      assert parts[4] == run;
      r := part5.GenerateResponse();
      ReportPart5.PartPrompts(part5.Environment(), part5.subtasks);
    }

  }
}
