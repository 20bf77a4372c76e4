/** The loop every report-part agent runs (agents/report_part1_agent.py to
    agents/report_part5_agent.py): for each field of the part's table, in
    order, search the indexed documents with the field's query and join the
    chunks with single spaces, look up the company's rows when the part uses
    structured data, fill the part's prompt template, ask the model once,
    and store the stripped reply under the field's name. A search that
    raises ends the part with that error. */
module FieldLoop {
  import opened Wrappers
  import opened Text
  import opened OrderedDict
  import opened StructuredData
  import opened Services

  /** One entry of a part's table: the field's name and its search query. */
  datatype Task = Task(field: string, query: string)

  /** The parts of a prompt that differ between report parts: the goal
      line `<goalLead><field><goalLink><company>.`, whether a
      `Structured Data:` section is present, and the request line
      `<askLead><field or field.lower()><askTail>` before the closing line. */
  datatype Template = Template(
    backstory: string,
    goalLead: string,
    goalLink: string,
    structured: bool,
    askLead: string,
    lowerField: bool,
    askTail: string,
    closing: string)

  /** The prompt text for one field, one line of the f-string per group. */
  function Prompt(t: Template, field: string, company: string,
                  structuredJson: string, unstructuredData: string): string
  {
    (t.backstory + "\n\n")
    + (t.goalLead + field + t.goalLink + company + ".\n\n")
    + (if t.structured then "Structured Data:\n" + structuredJson + "\n\n" else "")
    + ("Unstructured Data:\n" + unstructuredData + "\n\n")
    + (t.askLead + (if t.lowerField then Lower(field) else field) + t.askTail)
    + t.closing
  }

  /** What a part's loop depends on: the company, the model, the search,
      and the JSON text of the company's structured rows. */
  datatype Env = Env(
    company: string,
    llm: string -> string,
    search: string -> Result<seq<string>>,
    structuredJson: string)

  /** The environment an agent's objects give: the JSON text is that of
      the rows the structured agent selects by company name, and is not
      used when there is no structured agent. */
  function EnvOf(company: string, llm: GroqLlm, unstructured: UnstructuredDataAgent,
                 structured: StructuredDataAgent?, recordsJson: seq<Row> -> string): Env
  {
    Env(company, llm.complete, unstructured.similaritySearch,
        if structured != null then recordsJson(structured.RetrieveRelevantData(company)) else "")
  }

  /** The calls a run made so far: search queries, structured lookups and
      prompts, each in order. */
  datatype Trace = Trace(queries: seq<string>, lookups: seq<string>, prompts: seq<string>)

  /** The state of a part's loop: the result dictionary, or the error that
      ended the part, and the calls made. */
  datatype PartRun = PartRun(outcome: Result<Dict<string>>, trace: Trace)

  /** The prompt for `task`, once its search has succeeded. */
  function TaskPrompt(env: Env, t: Template, task: Task): string
    requires env.search(task.query).Success?
  {
    Prompt(t, task.field, env.company, env.structuredJson, Join(" ", env.search(task.query).value))
  }

  /** One iteration of the loop; after an error nothing more happens. */
  function Step(env: Env, t: Template, run: PartRun, task: Task): PartRun
  {
    if run.outcome.Failure? then run
    else
      var queries := run.trace.queries + [task.query];
      match env.search(task.query)
      case Failure(e) => PartRun(Failure(e), run.trace.(queries := queries))
      case Success(chunks) =>
        var prompt := TaskPrompt(env, t, task);
        var lookups := if t.structured then run.trace.lookups + [env.company] else run.trace.lookups;
        PartRun(Success(Put(run.outcome.value, task.field, Strip(env.llm(prompt)))),
                Trace(queries, lookups, run.trace.prompts + [prompt]))
  }

  /** The loop over the whole table, from an empty dictionary. */
  function Run(env: Env, t: Template, tasks: seq<Task>): PartRun
  {
    if tasks == [] then PartRun(Success([]), Trace([], [], []))
    else Step(env, t, Run(env, t, tasks[..|tasks| - 1]), tasks[|tasks| - 1])
  }

  /** The field names of a table, in table order. */
  function Fields(tasks: seq<Task>): (r: seq<string>)
    ensures |r| == |tasks| && forall k :: 0 <= k < |tasks| ==> r[k] == tasks[k].field
  {
    seq(|tasks|, k requires 0 <= k < |tasks| => tasks[k].field)
  }

  /** A step after an error changes nothing. */
  lemma StepAfterFailure(env: Env, t: Template, run: PartRun, task: Task)
    requires run.outcome.Failure?
    ensures Step(env, t, run, task) == run
  {
  }

  /** A step whose search raises records the query and ends the part. */
  lemma StepSearchFails(env: Env, t: Template, run: PartRun, task: Task)
    requires run.outcome.Success? && env.search(task.query).Failure?
    ensures Step(env, t, run, task)
            == PartRun(Failure(env.search(task.query).error), run.trace.(queries := run.trace.queries + [task.query]))
  {
  }

  /** A step whose search succeeds records one query, at most one lookup and
      one prompt, and stores the stripped reply. */
  lemma StepSearchSucceeds(env: Env, t: Template, run: PartRun, task: Task)
    requires run.outcome.Success? && env.search(task.query).Success?
    ensures var p := TaskPrompt(env, t, task);
            Step(env, t, run, task)
            == PartRun(Success(Put(run.outcome.value, task.field, Strip(env.llm(p)))),
                       Trace(run.trace.queries + [task.query],
                             if t.structured then run.trace.lookups + [env.company] else run.trace.lookups,
                             run.trace.prompts + [p]))
  {
  }

  /** The table minus its last task, and the run over it. */
  lemma RunUnfold(env: Env, t: Template, tasks: seq<Task>)
    requires tasks != []
    ensures Run(env, t, tasks) == Step(env, t, Run(env, t, tasks[..|tasks| - 1]), tasks[|tasks| - 1])
  {
  }

  /** The calls a run over `tasks` has made: queries for a prefix of the
      table, in table order; a prompt for every query whose search
      succeeded, all of them unless the last search raised the part's error;
      and one lookup of the company per prompt when the part uses structured
      data. */
  ghost predicate TraceShape(env: Env, t: Template, tasks: seq<Task>, run: PartRun)
  {
    var n := |run.trace.queries|;
    && n <= |tasks|
    && (forall k :: 0 <= k < n ==> run.trace.queries[k] == tasks[k].query)
    && (run.outcome.Success? ==> n == |tasks| && |run.trace.prompts| == n)
    && (run.outcome.Failure? ==> 0 < n && |run.trace.prompts| == n - 1
                                 && env.search(tasks[n - 1].query) == Failure(run.outcome.error))
    && (forall k :: 0 <= k < |run.trace.prompts| ==>
          env.search(tasks[k].query).Success?
          && run.trace.prompts[k] == TaskPrompt(env, t, tasks[k]))
    && |run.trace.lookups| == (if t.structured then |run.trace.prompts| else 0)
    && (forall k :: 0 <= k < |run.trace.lookups| ==> run.trace.lookups[k] == env.company)
  }

  /** Every run has the shape above: the searches go through the table in
      order and stop at the first that raises, whose error is the part's
      error; each search that succeeded is followed by exactly one prompt,
      built from that field, and by one lookup with the company name when
      the part uses structured data. */
  lemma {:induction false} RunTrace(env: Env, t: Template, tasks: seq<Task>)
    ensures TraceShape(env, t, tasks, Run(env, t, tasks))
  {
    if tasks != [] {
      var m := |tasks| - 1;
      var front := tasks[..m];
      RunTrace(env, t, front);
      RunUnfold(env, t, tasks);
      var prev := Run(env, t, front);
      if prev.outcome.Failure? {
        StepAfterFailure(env, t, prev, tasks[m]);
        TraceShapeExtends(env, t, front, tasks, prev);
      } else if env.search(tasks[m].query).Failure? {
        ShapeAfterFailingSearch(env, t, tasks, prev);
      } else {
        ShapeAfterSucceedingSearch(env, t, tasks, prev);
      }
    }
  }

  lemma ShapeAfterSucceedingSearch(env: Env, t: Template, tasks: seq<Task>, prev: PartRun)
    requires tasks != [] && prev.outcome.Success?
    requires env.search(tasks[|tasks| - 1].query).Success?
    requires TraceShape(env, t, tasks[..|tasks| - 1], prev)
    ensures TraceShape(env, t, tasks, Step(env, t, prev, tasks[|tasks| - 1]))
  {
    var m := |tasks| - 1;
    StepSearchSucceeds(env, t, prev, tasks[m]);
    var run := Step(env, t, prev, tasks[m]);
    forall k | 0 <= k < |run.trace.prompts|
      ensures env.search(tasks[k].query).Success?
      ensures run.trace.prompts[k] == TaskPrompt(env, t, tasks[k])
    {
      if k < m {
        assert tasks[..m][k] == tasks[k];
        assert run.trace.prompts[k] == prev.trace.prompts[k];
      }
    }
    forall k | 0 <= k < |run.trace.queries|
      ensures run.trace.queries[k] == tasks[k].query
    {
      if k < m {
        assert tasks[..m][k] == tasks[k];
      }
    }
  }

  lemma ShapeAfterFailingSearch(env: Env, t: Template, tasks: seq<Task>, prev: PartRun)
    requires tasks != [] && prev.outcome.Success?
    requires env.search(tasks[|tasks| - 1].query).Failure?
    requires TraceShape(env, t, tasks[..|tasks| - 1], prev)
    ensures TraceShape(env, t, tasks, Step(env, t, prev, tasks[|tasks| - 1]))
  {
    StepSearchFails(env, t, prev, tasks[|tasks| - 1]);
  }

  /** The shape of a failed run over a prefix holds against the longer
      table. */
  lemma TraceShapeExtends(env: Env, t: Template, front: seq<Task>, tasks: seq<Task>, run: PartRun)
    requires |front| <= |tasks| && front == tasks[..|front|]
    requires run.outcome.Failure? && TraceShape(env, t, front, run)
    ensures TraceShape(env, t, tasks, run)
  {
  }

  /** A part succeeds exactly when every one of its searches does. */
  lemma RunSucceeds(env: Env, t: Template, tasks: seq<Task>)
    ensures Run(env, t, tasks).outcome.Success?
            <==> forall k :: 0 <= k < |tasks| ==> env.search(tasks[k].query).Success?
  {
    RunTrace(env, t, tasks);
  }

  /** No field name occurs twice in the table. */
  predicate DistinctFields(tasks: seq<Task>)
  {
    forall i, j :: 0 <= i < j < |tasks| ==> tasks[i].field != tasks[j].field
  }

  /** The entries of a successful run: one per field, in table order, each
      holding the stripped reply to that field's prompt. */
  ghost predicate ResultShape(env: Env, tasks: seq<Task>, run: PartRun)
  {
    run.outcome.Success? ==>
      && |run.outcome.value| == |tasks| <= |run.trace.prompts|
      && forall k :: 0 <= k < |tasks| ==>
           run.outcome.value[k] == (tasks[k].field, Strip(env.llm(run.trace.prompts[k])))
  }

  /** The dictionary a successful part returns, when no field name repeats:
      one entry per field, in table order, holding the stripped reply to
      that field's prompt; so its keys are the field names in table order. */
  lemma {:induction false} RunResult(env: Env, t: Template, tasks: seq<Task>)
    requires DistinctFields(tasks)
    ensures ResultShape(env, tasks, Run(env, t, tasks))
  {
    if tasks != [] && Run(env, t, tasks).outcome.Success? {
      var m := |tasks| - 1;
      var front := tasks[..m];
      RunResult(env, t, front);
      RunTrace(env, t, front);
      RunUnfold(env, t, tasks);
      ResultAfterSucceedingSearch(env, t, tasks, Run(env, t, front));
    }
  }

  /** So the keys of a successful part are its field names in table order. */
  lemma RunKeys(env: Env, t: Template, tasks: seq<Task>)
    requires DistinctFields(tasks) && Run(env, t, tasks).outcome.Success?
    ensures Keys(Run(env, t, tasks).outcome.value) == Fields(tasks)
  {
    RunResult(env, t, tasks);
  }

  lemma ResultAfterSucceedingSearch(env: Env, t: Template, tasks: seq<Task>, prev: PartRun)
    requires tasks != [] && DistinctFields(tasks) && prev.outcome.Success?
    requires env.search(tasks[|tasks| - 1].query).Success?
    requires |prev.trace.prompts| == |tasks| - 1
    requires ResultShape(env, tasks[..|tasks| - 1], prev)
    ensures ResultShape(env, tasks, Step(env, t, prev, tasks[|tasks| - 1]))
  {
    var m := |tasks| - 1;
    var task := tasks[m];
    var d := prev.outcome.value;
    assert task.field !in Keys(d) by {
      forall k | 0 <= k < |d| ensures Keys(d)[k] != task.field {
        assert d[k].0 == tasks[k].field;
      }
    }
    StepAppends(env, t, prev, task);
    var next := Step(env, t, prev, task);
    forall k | 0 <= k < |tasks|
      ensures next.outcome.value[k] == (tasks[k].field, Strip(env.llm(next.trace.prompts[k])))
    {
      if k < m {
        assert next.outcome.value[k] == d[k];
        assert next.trace.prompts[k] == prev.trace.prompts[k];
      }
    }
  }

  /** A step for a new field appends its entry and its prompt. */
  lemma StepAppends(env: Env, t: Template, prev: PartRun, task: Task)
    requires prev.outcome.Success? && env.search(task.query).Success?
    requires task.field !in Keys(prev.outcome.value)
    ensures var next := Step(env, t, prev, task);
            var p := TaskPrompt(env, t, task);
            && next.outcome.value == prev.outcome.value + [(task.field, Strip(env.llm(p)))]
            && next.trace.prompts == prev.trace.prompts + [p]
  {
    StepSearchSucceeds(env, t, prev, task);
  }

  /** Once a prefix of the table has failed, the rest of the table changes
      nothing: no further call is made. */
  lemma {:induction false} FailureAbsorbs(env: Env, t: Template, tasks: seq<Task>, i: nat)
    requires i <= |tasks| && Run(env, t, tasks[..i]).outcome.Failure?
    ensures Run(env, t, tasks) == Run(env, t, tasks[..i])
    decreases |tasks| - i
  {
    if i < |tasks| {
      assert tasks[..i + 1][..i] == tasks[..i];
      FailureAbsorbs(env, t, tasks, i + 1);
    } else {
      assert tasks[..i] == tasks;
    }
  }

  /** The loop of `generate_response`, shared by the five parts. Its result
      and the calls it makes are those of `Run`. */
  method RunFields(tasks: seq<Task>, t: Template, company: string,
                   llm: GroqLlm, unstructured: UnstructuredDataAgent,
                   structured: StructuredDataAgent?, recordsJson: seq<Row> -> string)
    returns (r: Result<Dict<string>>)
    requires t.structured <==> structured != null
    modifies llm, unstructured, structured
    ensures var run := Run(EnvOf(company, llm, unstructured, structured, recordsJson), t, tasks);
            && r == run.outcome
            && llm.prompts == old(llm.prompts) + run.trace.prompts
            && unstructured.queries == old(unstructured.queries) + run.trace.queries
            && (structured != null ==> structured.queries == old(structured.queries) + run.trace.lookups)
  {
    ghost var env := EnvOf(company, llm, unstructured, structured, recordsJson);
    ghost var trace := Trace([], [], []);
    ghost var lookups0 := if structured != null then structured.queries else [];
    var results: Dict<string> := [];
    for i := 0 to |tasks|
      invariant Run(env, t, tasks[..i]) == PartRun(Success(results), trace)
      invariant Logged(llm, unstructured, structured, old(llm.prompts), old(unstructured.queries), lookups0, trace)
    {
      var task := tasks[i];
      var found := unstructured.GenerateResponse(task.query);
      assert found == env.search(task.query);
      ConcatAssoc(old(unstructured.queries), trace.queries, [task.query]);
      if found.Failure? {
        RunStopsAt(env, t, tasks, i);
        FailureAbsorbs(env, t, tasks, i + 1);
        return Failure(found.error);
      }
      var unstructuredData := Join(" ", found.value);
      var structuredJson := "";
      if structured != null {
        var rows := structured.GenerateResponse(company);
        structuredJson := recordsJson(rows);
      }
      assert structuredJson == env.structuredJson;
      var prompt := Prompt(t, task.field, company, structuredJson, unstructuredData);
      assert prompt == TaskPrompt(env, t, task);
      var reply := llm.Call(prompt);
      ConcatAssoc(old(llm.prompts), trace.prompts, [prompt]);
      ConcatAssoc(lookups0, trace.lookups, [company]);
      RunAdvances(env, t, tasks, i, prompt);
      results := Put(results, task.field, Strip(reply));
      trace := Trace(trace.queries + [task.query],
                     if t.structured then trace.lookups + [company] else trace.lookups,
                     trace.prompts + [prompt]);
    }
    assert tasks[..|tasks|] == tasks;
    r := Success(results);
  }

  /** The service logs hold, after what they held at the start, the calls
      of `trace`. */
  ghost predicate Logged(llm: GroqLlm, unstructured: UnstructuredDataAgent, structured: StructuredDataAgent?,
                         prompts0: seq<string>, queries0: seq<string>, lookups0: seq<string>, trace: Trace)
    reads llm, unstructured, structured
  {
    && llm.prompts == prompts0 + trace.prompts
    && unstructured.queries == queries0 + trace.queries
    && (structured != null ==> structured.queries == lookups0 + trace.lookups)
  }

  /** The loop's step for a search that raises: one more task adds its
      query and fails with the search's error. */
  lemma RunStopsAt(env: Env, t: Template, tasks: seq<Task>, i: nat)
    requires i < |tasks| && Run(env, t, tasks[..i]).outcome.Success?
    requires env.search(tasks[i].query).Failure?
    ensures var run := Run(env, t, tasks[..i]);
            Run(env, t, tasks[..i + 1])
            == PartRun(Failure(env.search(tasks[i].query).error),
                       run.trace.(queries := run.trace.queries + [tasks[i].query]))
  {
    RunPrefixStep(env, t, tasks, i);
    StepSearchFails(env, t, Run(env, t, tasks[..i]), tasks[i]);
  }

  /** The loop's step for a search that succeeds, with the prompt it
      builds. */
  lemma RunAdvances(env: Env, t: Template, tasks: seq<Task>, i: nat, prompt: string)
    requires i < |tasks| && Run(env, t, tasks[..i]).outcome.Success?
    requires env.search(tasks[i].query).Success?
    requires prompt == TaskPrompt(env, t, tasks[i])
    ensures var run := Run(env, t, tasks[..i]);
            Run(env, t, tasks[..i + 1])
            == PartRun(Success(Put(run.outcome.value, tasks[i].field, Strip(env.llm(prompt)))),
                       Trace(run.trace.queries + [tasks[i].query],
                             if t.structured then run.trace.lookups + [env.company] else run.trace.lookups,
                             run.trace.prompts + [prompt]))
  {
    RunPrefixStep(env, t, tasks, i);
    StepSearchSucceeds(env, t, Run(env, t, tasks[..i]), tasks[i]);
  }

  /** The run over one more task of the table is one more step. */
  lemma RunPrefixStep(env: Env, t: Template, tasks: seq<Task>, i: nat)
    requires i < |tasks|
    ensures Run(env, t, tasks[..i + 1]) == Step(env, t, Run(env, t, tasks[..i]), tasks[i])
  {
    assert tasks[..i + 1][..i] == tasks[..i];
    RunUnfold(env, t, tasks[..i + 1]);
  }
}
